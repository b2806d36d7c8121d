/**
 * The release's environment lane: one node per environment, staging, uat and
 * prod from left to right, built from the release's stages, and the edges
 * that chain them.
 */
module EnvCanvas {
  import opened Common
  import opened Text

  /** A stage as the release response carries it: task statuses, and the last-update time when there is one. */
  datatype LaneStage = LaneStage(id: string, env: string, status: string, tasks: Option<seq<string>>, lastUpdate: Option<int>)

  /** One environment of the lane. `lastUpdate` is absent where the node shows "Never". */
  datatype Lane = Lane(
    id: string,
    name: string,
    env: string,
    tasksCompleted: nat,
    tasksTotal: nat,
    lastUpdate: Option<int>,
    status: string)

  /** A node of the lane at integer canvas coordinates. */
  datatype LaneNode = LaneNode(id: string, x: int, y: int, lane: Lane)

  /** An edge of the lane; `animated` when its source environment is done. */
  datatype LaneEdge = LaneEdge(id: string, source: string, target: string, animated: bool)

  const EnvOrder: seq<string> := ["staging", "uat", "prod"]
  const NodeSpacing: int := 320
  const StartX: int := 150
  const CenterY: int := 250

  /** `env.charAt(0).toUpperCase() + env.slice(1)` followed by " Environment". */
  function DisplayName(env: string): (name: string)
    ensures |name| == |env| + |" Environment"|
    ensures name[|env|..] == " Environment"
    ensures env != [] ==> name[0] == UpperChar(env[0]) && name[1..|env|] == env[1..]
  {
    if env == [] then " Environment" else [UpperChar(env[0])] + env[1..] + " Environment"
  }

  /** The first stage of the environment. */
  function FirstOfEnv(stages: seq<LaneStage>, env: string): (r: Option<LaneStage>)
    ensures r.None? <==> forall s :: s in stages ==> s.env != env
    ensures r.Some? ==> exists i :: 0 <= i < |stages| && stages[i] == r.value && r.value.env == env
                                     && forall j :: 0 <= j < i ==> stages[j].env != env
  {
    if stages == [] then None
    else if stages[0].env == env then Some(stages[0])
    else
      var r := FirstOfEnv(stages[1..], env);
      assert forall s :: s in stages <==> s == stages[0] || s in stages[1..];
      if r.Some? then
        var i :| 0 <= i < |stages[1..]| && stages[1..][i] == r.value && r.value.env == env
                 && forall j :: 0 <= j < i ==> stages[1..][j].env != env;
        assert stages[i + 1] == r.value;
        r
      else r
  }

  /** A task status that counts as completed. */
  predicate IsDone(status: string) {
    status == "done"
  }

  /** The number of `done` statuses. */
  function DoneCount(statuses: seq<string>): (c: nat)
    ensures c == Count(statuses, IsDone)
    ensures c <= |statuses|
    ensures c == |statuses| <==> forall s :: s in statuses ==> s == "done"
  {
    CountIsFilterLength(statuses, IsDone);
    |Filter(statuses, IsDone)|
  }

  /** The lane entry of one environment: from its first stage, or a placeholder named after the environment. */
  function LaneFor(stages: seq<LaneStage>, env: string): (l: Lane)
    ensures l.env == env && l.name == DisplayName(env)
    ensures l.tasksCompleted <= l.tasksTotal
    ensures FirstOfEnv(stages, env).None? ==>
              l.id == env && l.tasksCompleted == 0 && l.tasksTotal == 0 && l.status == "not_started" && l.lastUpdate.None?
    ensures FirstOfEnv(stages, env).Some? ==>
              var s := FirstOfEnv(stages, env).value;
              && l.id == s.id && l.status == s.status && l.lastUpdate == s.lastUpdate
              && l.tasksTotal == |s.tasks.GetOr([])|
              && l.tasksCompleted == Count(s.tasks.GetOr([]), IsDone)
              && (l.tasksCompleted == l.tasksTotal <==> forall t :: t in s.tasks.GetOr([]) ==> t == "done")
  {
    match FirstOfEnv(stages, env)
    case None => Lane(env, DisplayName(env), env, 0, 0, None, "not_started")
    case Some(s) =>
      var tasks := s.tasks.GetOr([]);
      Lane(s.id, DisplayName(env), env, DoneCount(tasks), |tasks|, s.lastUpdate, s.status)
  }

  /** `environments`: nothing without a stages field, otherwise staging, uat and prod in that order. */
  function Lanes(stages: Option<seq<LaneStage>>): (r: seq<Lane>)
    ensures stages.None? ==> r == []
    ensures stages.Some? ==> |r| == 3 && forall i :: 0 <= i < 3 ==> r[i] == LaneFor(stages.value, EnvOrder[i])
  {
    if stages.None? then []
    else seq(|EnvOrder|, i requires 0 <= i < |EnvOrder| => LaneFor(stages.value, EnvOrder[i]))
  }

  /** `initialNodes`: node `i` at (150 + 320·i, 250). */
  function Nodes(lanes: seq<Lane>): (ns: seq<LaneNode>)
    ensures |ns| == |lanes|
    ensures forall i :: 0 <= i < |lanes| ==> ns[i].id == lanes[i].id && ns[i].lane == lanes[i]
  {
    seq(|lanes|, i requires 0 <= i < |lanes| => LaneNode(lanes[i].id, StartX + i * NodeSpacing, CenterY, lanes[i]))
  }

  /** `initialEdges`: one edge from each environment to the next. */
  function Edges(lanes: seq<Lane>): (es: seq<LaneEdge>)
    ensures |es| == (if |lanes| == 0 then 0 else |lanes| - 1)
    ensures forall i :: 0 <= i < |es| ==> es[i].source == lanes[i].id && es[i].target == lanes[i + 1].id
  {
    if |lanes| <= 1 then []
    else seq(|lanes| - 1, i requires 0 <= i < |lanes| - 1 =>
           LaneEdge(lanes[i].id + "-" + lanes[i + 1].id, lanes[i].id, lanes[i + 1].id, lanes[i].status == "done"))
  }

  /** The nodes stand on one horizontal line, left to right in lane order, 320 apart. */
  lemma NodesInARow(lanes: seq<Lane>, i: nat, j: nat)
    requires i < j < |lanes|
    ensures var ns := Nodes(lanes);
            |ns| == |lanes| && ns[i].y == ns[j].y == CenterY
            && ns[j].x - ns[i].x == NodeSpacing * (j - i) && ns[i].x < ns[j].x
            && ns[i].id == lanes[i].id && ns[i].lane == lanes[i]
  {
    var ns := Nodes(lanes);
    assert ns[j].x - ns[i].x == (j - i) * NodeSpacing;
  }

  /** The edges chain the nodes: edge `i` runs from node `i` to node `i + 1`, is named after both, and is animated exactly when its source is done. */
  lemma EdgesChainNodes(lanes: seq<Lane>)
    ensures var es := Edges(lanes);
            var ns := Nodes(lanes);
            && |es| == (if |lanes| == 0 then 0 else |lanes| - 1)
            && forall i :: 0 <= i < |es| ==>
                 && es[i].source == ns[i].id && es[i].target == ns[i + 1].id
                 && es[i].id == es[i].source + "-" + es[i].target
                 && (es[i].animated <==> ns[i].lane.status == "done")
  {
    var es, ns := Edges(lanes), Nodes(lanes);
    forall i | 0 <= i < |es|
      ensures es[i].source == ns[i].id && es[i].target == ns[i + 1].id
      ensures es[i].id == es[i].source + "-" + es[i].target
      ensures es[i].animated <==> ns[i].lane.status == "done"
    {
      assert ns[i].lane == lanes[i] && ns[i + 1].lane == lanes[i + 1];
    }
  }

  /** With a stages field the lane always shows three environments, in order, with two edges staging to uat to prod. */
  lemma ThreeEnvironments(stages: seq<LaneStage>)
    ensures var ls := Lanes(Some(stages));
            && |ls| == 3 && ls[0].env == "staging" && ls[1].env == "uat" && ls[2].env == "prod"
            && |Edges(ls)| == 2
            && Edges(ls)[0].source == ls[0].id && Edges(ls)[0].target == ls[1].id
            && Edges(ls)[1].source == ls[1].id && Edges(ls)[1].target == ls[2].id
  {
  }

  /** An environment without a stage shows its placeholder: named after the environment, nothing counted, not started. */
  lemma MissingStagePlaceholder(stages: seq<LaneStage>, i: nat)
    requires i < 3 && forall s :: s in stages ==> s.env != EnvOrder[i]
    ensures var l := Lanes(Some(stages))[i];
            l.id == EnvOrder[i] && l.tasksTotal == 0 && l.status == "not_started"
            && l.name == DisplayName(EnvOrder[i])
  {
  }
}
