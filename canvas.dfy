/**
 * The task canvas of one stage: the status a task node's toggle sends, the
 * reconciliation of a saved layout with the live task list, the save
 * payload, and the component state (`nodes`, `edges`, `hasUnsavedChanges`)
 * that decides whether a refresh from the server may replace the canvas.
 */
module TaskCanvas {
  import opened Common
  import opened Schema
  import opened Layouts
  import QueryClient

  // -------------------------------------------------------------- toggle

  /** A task PATCH body that only sets `status`. */
  function StatusOnly(status: string): TaskPatchBody {
    TaskPatchBody(Keep, Keep, Keep, Keep, Keep, Set(status), Keep)
  }

  /** The status the node's toggle sends, as the component writes it: done to todo, todo to "in_progress", anything else to done. */
  function ToggleAsWritten(status: string): (next: string)
    ensures next != status
    ensures next == "todo" <==> status == "done"
    ensures ParseTaskStatus(next).None? <==> status == "todo"
  {
    if status == "done" then "todo" else if status == "todo" then "in_progress" else "done"
  }

  /** Toggling a `todo` task sends "in_progress", which is a stage status and not a task status, so the PATCH is refused with 400. */
  lemma ToggleTodoRejected()
    ensures ToggleAsWritten("todo") == "in_progress"
    ensures ParseTaskStatus(ToggleAsWritten("todo")).None?
    ensures ParseTaskPatch(StatusOnly(ToggleAsWritten("todo"))).None?
  {
  }

  /** The toggle with `todo` moving to `doing`, the task status the "In Progress" label stands for. */
  function Toggle(status: string): (next: string)
    ensures ParseTaskStatus(next).Some?
    ensures ParseTaskPatch(StatusOnly(next)).Some?
    ensures next != status
    ensures next == "todo" <==> status == "done"
  {
    if status == "done" then "todo" else if status == "todo" then "doing" else "done"
  }

  // ------------------------------------------------------ reconciliation

  /** The first task with this id. */
  function Lookup(tasks: seq<TaskView>, id: string): (r: Option<TaskView>)
    ensures r.None? <==> forall t :: t in tasks ==> t.id != id
    ensures r.Some? ==> r.value in tasks && r.value.id == id
  {
    if tasks == [] then None
    else if tasks[0].id == id then Some(tasks[0])
    else Lookup(tasks[1..], id)
  }

  /** The first node with this id. */
  function LookupNode(nodes: seq<FlowNode>, id: string): (r: Option<FlowNode>)
    ensures r.None? <==> forall n :: n in nodes ==> n.id != id
    ensures r.Some? ==> r.value in nodes && r.value.id == id
  {
    if nodes == [] then None
    else if nodes[0].id == id then Some(nodes[0])
    else LookupNode(nodes[1..], id)
  }

  lemma {:induction false} NodeIdsAppend(a: seq<FlowNode>, b: seq<FlowNode>)
    ensures NodeIds(a + b) == NodeIds(a) + NodeIds(b)
  {
    assert forall i :: 0 <= i < |a + b| ==> NodeIds(a + b)[i] == (NodeIds(a) + NodeIds(b))[i];
  }

  /** The node showing task `t` at `pos`, with its callbacks attached. */
  function TaskNode(t: TaskView, pos: Position): (n: FlowNode)
    ensures n.id == t.id && n.position == pos && n.data.view == Some(t) && n.data.callbacks
  {
    FlowNode(t.id, Some("task"), pos, NodeData(Some(t), true))
  }

  /** A saved node whose task is live gets the task's current fields and the callbacks; it keeps everything else. */
  function Refresh(n: FlowNode, tasks: seq<TaskView>): (m: FlowNode)
    ensures m.id == n.id && m.kind == n.kind && m.position == n.position
    ensures (exists t :: t in tasks && t.id == n.id) ==>
              m.data.callbacks && m.data.view.Some? && m.data.view.value in tasks && m.data.view.value.id == n.id
    ensures (forall t :: t in tasks ==> t.id != n.id) ==> m == n
  {
    match Lookup(tasks, n.id)
    case Some(t) => n.(data := NodeData(Some(t), true))
    case None => n
  }

  /** The saved nodes whose task still exists, refreshed, in saved order. */
  function Surviving(saved: seq<FlowNode>, tasks: seq<TaskView>): (r: seq<FlowNode>)
    ensures |r| <= |saved|
    ensures forall n :: n in r ==> Lookup(tasks, n.id).Some?
    ensures forall s :: s in saved && Lookup(tasks, s.id).Some? ==> Refresh(s, tasks) in r
    ensures forall n :: n in r ==> exists s :: s in saved && n == Refresh(s, tasks)
    ensures IsSubsequence(NodeIds(r), NodeIds(saved))
  {
    if saved == [] then []
    else
      var rest := Surviving(saved[1..], tasks);
      assert forall s :: s in saved <==> s == saved[0] || s in saved[1..];
      NodeIdsAppend([saved[0]], saved[1..]);
      assert saved == [saved[0]] + saved[1..];
      if Lookup(tasks, saved[0].id).Some? then
        var r := [Refresh(saved[0], tasks)] + rest;
        NodeIdsAppend([Refresh(saved[0], tasks)], rest);
        assert NodeIds(r)[1..] == NodeIds(rest);
        r
      else
        SubsequenceSkip(NodeIds(rest), NodeIds(saved[1..]), saved[0].id);
        rest
  }

  /** The live tasks that have no node among `kept`, in task-list order. */
  function Unplaced(tasks: seq<TaskView>, kept: seq<FlowNode>): (r: seq<TaskView>)
    ensures forall t :: t in r <==> t in tasks && t.id !in NodeIds(kept)
    ensures IsSubsequence(r, tasks)
  {
    var keep := (t: TaskView) => t.id !in NodeIds(kept);
    FilterIsSubsequence(tasks, keep);
    Filter(tasks, keep)
  }

  /** Where the `k`-th task without a saved node goes: three to a row, 350 apart, rows 200 apart, from (100, 100). */
  function GridSlot(k: nat): Position {
    Position(Num((100 + (k % 3) * 350) as real), Num((100 + (k / 3) * 200) as real))
  }

  /** Different new tasks never share a slot. */
  lemma GridSlotsDistinct(k: nat, k': nat)
    requires k != k'
    ensures GridSlot(k) != GridSlot(k')
  {
  }

  /** `r` is the `kept` nodes followed by one node per `added` task, the `k`-th at grid slot `k`. */
  ghost predicate Arranged(r: seq<FlowNode>, kept: seq<FlowNode>, added: seq<TaskView>) {
    && |r| == |kept| + |added| && r[..|kept|] == kept
    && forall k :: 0 <= k < |added| ==> r[|kept| + k] == TaskNode(added[k], GridSlot(k))
  }

  /** One grid-placed node per task of `added`, in order. */
  function Placed(added: seq<TaskView>): seq<FlowNode> {
    seq(|added|, k requires 0 <= k < |added| => TaskNode(added[k], GridSlot(k)))
  }

  lemma PlacedAfterKept(kept: seq<FlowNode>, added: seq<TaskView>)
    ensures Arranged(kept + Placed(added), kept, added)
  {
    var r := kept + Placed(added);
    assert r[..|kept|] == kept;
    forall k | 0 <= k < |added| ensures r[|kept| + k] == TaskNode(added[k], GridSlot(k)) {
      assert r[|kept| + k] == Placed(added)[k];
    }
  }

  /** The kept nodes and the placed tasks together show exactly the live tasks. */
  lemma {:induction false} CoversTasks(tasks: seq<TaskView>, kept: seq<FlowNode>)
    requires forall n :: n in kept ==> Lookup(tasks, n.id).Some?
    ensures forall id :: id in NodeIds(kept + Placed(Unplaced(tasks, kept))) <==> exists t :: t in tasks && t.id == id
  {
    var added := Unplaced(tasks, kept);
    var placed := Placed(added);
    NodeIdsAppend(kept, placed);
    PlacedIds(added);
    forall id | id in NodeIds(kept) ensures exists t :: t in tasks && t.id == id {
      var i :| 0 <= i < |kept| && NodeIds(kept)[i] == id;
      assert kept[i] in kept;
    }
    forall t | t in tasks && t.id !in NodeIds(kept) ensures t.id in NodeIds(placed) {
      assert t in added;
    }
  }

  /** The grid-placed nodes carry exactly the ids of the tasks placed. */
  lemma PlacedIds(added: seq<TaskView>)
    ensures forall id :: id in NodeIds(Placed(added)) <==> exists t :: t in added && t.id == id
  {
    var ids := NodeIds(Placed(added));
    forall id | id in ids ensures exists t :: t in added && t.id == id {
      var i :| 0 <= i < |ids| && ids[i] == id;
      assert added[i] in added;
    }
    forall t | t in added ensures t.id in ids {
      var k :| 0 <= k < |added| && added[k] == t;
      assert ids[k] == t.id;
    }
  }

  /** A layout whose nodes survive: the saved nodes of live tasks first (refreshed, in saved order), then one grid-placed node per other task, in task order. */
  function Reconcile(saved: seq<FlowNode>, tasks: seq<TaskView>): (r: seq<FlowNode>)
    ensures forall id :: id in NodeIds(r) <==> exists t :: t in tasks && t.id == id
    ensures Arranged(r, Surviving(saved, tasks), Unplaced(tasks, Surviving(saved, tasks)))
  {
    var kept := Surviving(saved, tasks);
    CoversTasks(tasks, kept);
    PlacedAfterKept(kept, Unplaced(tasks, kept));
    kept + Placed(Unplaced(tasks, kept))
  }

  /** Where a task's node starts without a saved layout: the saved node's position if there is one, else the scattered one. */
  function StartPosition(savedNodes: seq<FlowNode>, id: string, scattered: Position): (p: Position)
    ensures (forall n :: n in savedNodes ==> n.id != id) ==> p == scattered
    ensures (exists n :: n in savedNodes && n.id == id) ==> exists n :: n in savedNodes && n.id == id && n.position == p
  {
    match LookupNode(savedNodes, id)
    case Some(n) => n.position
    case None => scattered
  }

  /** Without saved nodes: one node per task, in task order, at its saved position when the layout has a node for it and at the scattered position otherwise. */
  function Scatter(tasks: seq<TaskView>, savedNodes: seq<FlowNode>, scatter: nat -> Position): (r: seq<FlowNode>)
    ensures |r| == |tasks|
    ensures forall i :: 0 <= i < |tasks| ==> r[i].id == tasks[i].id && r[i].data == NodeData(Some(tasks[i]), true)
    ensures forall i :: 0 <= i < |tasks| && LookupNode(savedNodes, tasks[i].id).None? ==> r[i].position == scatter(i)
    ensures forall id :: id in NodeIds(r) <==> exists t :: t in tasks && t.id == id
  {
    var r := seq(|tasks|, i requires 0 <= i < |tasks| => TaskNode(tasks[i], StartPosition(savedNodes, tasks[i].id, scatter(i))));
    assert forall i :: 0 <= i < |tasks| ==> r[i] == TaskNode(tasks[i], StartPosition(savedNodes, tasks[i].id, scatter(i)));
    ScatterCovers(tasks, r);
    r
  }

  lemma {:induction false} ScatterCovers(tasks: seq<TaskView>, r: seq<FlowNode>)
    requires |r| == |tasks| && forall i :: 0 <= i < |tasks| ==> r[i].id == tasks[i].id
    ensures forall id :: id in NodeIds(r) <==> exists t :: t in tasks && t.id == id
  {
    forall id | id in NodeIds(r) ensures exists t :: t in tasks && t.id == id {
      var i :| 0 <= i < |r| && NodeIds(r)[i] == id;
      assert tasks[i] in tasks;
    }
    forall t | t in tasks ensures t.id in NodeIds(r) {
      var i :| 0 <= i < |tasks| && tasks[i] == t;
      assert NodeIds(r)[i] == t.id;
    }
  }

  /** The saved nodes of a layout, empty when there is no layout. */
  function SavedNodes(layout: Option<Layout>): seq<FlowNode> {
    if layout.Some? then layout.value.nodes else []
  }

  function SavedEdges(layout: Option<Layout>): seq<FlowEdge> {
    if layout.Some? then layout.value.edges else []
  }

  /** The nodes a refresh computes for a non-empty task list: reconciled with the saved nodes when there are any, scattered otherwise. */
  function Target(tasks: seq<TaskView>, layout: Option<Layout>, scatter: nat -> Position): (r: seq<FlowNode>)
    ensures forall id :: id in NodeIds(r) <==> exists t :: t in tasks && t.id == id
  {
    if SavedNodes(layout) != [] then Reconcile(SavedNodes(layout), tasks)
    else Scatter(tasks, SavedNodes(layout), scatter)
  }

  /** The fallback branch only runs without saved nodes, so every node there lands on its scattered position. */
  lemma FallbackIsScattered(tasks: seq<TaskView>, layout: Option<Layout>, scatter: nat -> Position)
    requires SavedNodes(layout) == []
    ensures |Target(tasks, layout, scatter)| == |tasks|
    ensures forall i :: 0 <= i < |tasks| ==> Target(tasks, layout, scatter)[i].position == scatter(i)
  {
  }

  // -------------------------------------------------------------- saving

  /** `x || 0` for a coordinate: 0 and NaN are falsy. */
  function OrZero(c: Coord): (r: Coord)
    ensures r.Num?
    ensures c.Num? && c.value != 0.0 ==> r == c
    ensures r.value == 0.0 <==> c.NaN? || c.value == 0.0
  {
    if c.Num? && c.value != 0.0 then c else Num(0.0)
  }

  /** The saved form of a node: id, position with falsy coordinates as 0, the task fields; no type and no callbacks. */
  function SavedForm(n: FlowNode): (m: FlowNode)
    ensures m.id == n.id && m.kind.None? && m.data.view == n.data.view && !m.data.callbacks
    ensures m.position.x.Num? && m.position.y.Num?
    ensures n.position.x.Num? && n.position.x.value != 0.0 ==> m.position.x == n.position.x
    ensures n.position.y.Num? && n.position.y.value != 0.0 ==> m.position.y == n.position.y
  {
    FlowNode(n.id, None, Position(OrZero(n.position.x), OrZero(n.position.y)), NodeData(n.data.view, false))
  }

  /** The layout the save button posts: one saved node per node, the edges as they are. */
  function SavePayload(nodes: seq<FlowNode>, edges: seq<FlowEdge>): (l: Layout)
    ensures |l.nodes| == |nodes| && l.edges == edges
    ensures forall i :: 0 <= i < |nodes| ==>
              && l.nodes[i].id == nodes[i].id && l.nodes[i].data.view == nodes[i].data.view
              && l.nodes[i].position.x.Num? && l.nodes[i].position.y.Num?
              && (nodes[i].position.x.Num? && nodes[i].position.x.value != 0.0 ==> l.nodes[i].position.x == nodes[i].position.x)
              && (nodes[i].position.y.Num? && nodes[i].position.y.value != 0.0 ==> l.nodes[i].position.y == nodes[i].position.y)
  {
    Layout(seq(|nodes|, i requires 0 <= i < |nodes| => SavedForm(nodes[i])), edges)
  }

  /** Saving and reloading keeps every live task's node where it was (falsy coordinates at 0), with the task's current fields. */
  lemma SaveThenReconcile(nodes: seq<FlowNode>, edges: seq<FlowEdge>, tasks: seq<TaskView>, n: FlowNode)
    requires n in nodes && Lookup(tasks, n.id).Some?
    ensures var r := Reconcile(SavePayload(nodes, edges).nodes, tasks);
            exists m :: m in r && m.id == n.id && m.position == SavedForm(n).position
                        && m.data == NodeData(Lookup(tasks, n.id), true)
  {
    var saved := SavePayload(nodes, edges).nodes;
    var i :| 0 <= i < |nodes| && nodes[i] == n;
    assert saved[i] == SavedForm(n);
    var kept := Surviving(saved, tasks);
    var r := Reconcile(saved, tasks);
    var m := Refresh(SavedForm(n), tasks);
    assert m in kept;
    var j :| 0 <= j < |kept| && kept[j] == m;
    assert r[..|kept|][j] == m;
    assert m in r;
  }

  // ------------------------------------------------- loading the layout

  /** The stage query's key, `['/api/stages', stageId]`. */
  function StageKey(stageId: string): QueryClient.QueryKey {
    QueryClient.Parts("/api/stages", [QueryClient.Segment(stageId)])
  }

  /** The saved-layout query's key as written, `['/api/stages', stageId, 'task-diagram']`. */
  function DiagramKeyAsWritten(stageId: string): (k: QueryClient.QueryKey)
    ensures k.Parts? && StageKey(stageId).Parts? && k.head == StageKey(stageId).head
    ensures k.rest == StageKey(stageId).rest + [QueryClient.Segment("task-diagram")]
  {
    QueryClient.Parts("/api/stages", [QueryClient.Segment(stageId), QueryClient.Segment("task-diagram")])
  }

  /** The path the save button posts the layout to. */
  function TaskDiagramPath(stageId: string): string {
    "/api/stages/" + stageId + "/task-diagram"
  }

  /** The saved-layout query keyed by the whole path, which the default query function fetches as it is. */
  function DiagramKey(stageId: string): (k: QueryClient.QueryKey)
    ensures forall base, escape :: QueryClient.KeyUrl(base, k, escape) == QueryClient.JoinUrl(base, TaskDiagramPath(stageId))
  {
    QueryClient.Parts(TaskDiagramPath(stageId), [])
  }

  /**
   * The `layout` field of the response the canvas reads from `url`: the
   * task-diagram URL answers with the layout last saved there; the stage
   * route answers with the stage, its tasks and its blockers, and no layout.
   */
  function LayoutAt(base: string, url: string, stageId: string, saved: Option<Layout>): (l: Option<Layout>)
    ensures l.Some? ==> url == QueryClient.JoinUrl(base, TaskDiagramPath(stageId)) && l == saved
  {
    if url == QueryClient.JoinUrl(base, TaskDiagramPath(stageId)) then saved else None
  }

  /**
   * As written, the saved-layout query fetches the stage: the default query
   * function drops every key element after the second. So the response has
   * no layout whatever was saved, and every refresh scatters the nodes.
   */
  lemma SavedLayoutNeverReached(base: string, stageId: string, escape: string -> string, saved: Option<Layout>,
                                tasks: seq<TaskView>, scatter: nat -> Position)
    ensures QueryClient.KeyUrl(base, DiagramKeyAsWritten(stageId), escape) == QueryClient.KeyUrl(base, StageKey(stageId), escape)
    ensures var layout := LayoutAt(base, QueryClient.KeyUrl(base, DiagramKeyAsWritten(stageId), escape), stageId, saved);
            layout.None? && Target(tasks, layout, scatter) == Scatter(tasks, [], scatter)
  {
    var url := QueryClient.KeyUrl(base, DiagramKeyAsWritten(stageId), escape);
    QueryClient.LaterPartsIgnored(base, "/api/stages", QueryClient.Segment(stageId), [QueryClient.Segment("task-diagram")], escape);
    assert [QueryClient.Segment(stageId)] + [QueryClient.Segment("task-diagram")] == DiagramKeyAsWritten(stageId).rest;
    assert url == QueryClient.JoinUrl(base, "/api/stages") + "/" + stageId;
    assert |url| < |QueryClient.JoinUrl(base, TaskDiagramPath(stageId))|;
  }

  /**
   * With the saved-layout query keyed by its whole path, a layout saved from
   * the canvas comes back: every live task's node reloads where it was saved,
   * with the task's current fields.
   */
  lemma SaveThenReload(base: string, stageId: string, escape: string -> string, nodes: seq<FlowNode>, edges: seq<FlowEdge>,
                       tasks: seq<TaskView>, scatter: nat -> Position, n: FlowNode)
    requires n in nodes && Lookup(tasks, n.id).Some?
    ensures QueryClient.KeyUrl(base, DiagramKey(stageId), escape) == QueryClient.JoinUrl(base, TaskDiagramPath(stageId))
    ensures var layout := LayoutAt(base, QueryClient.KeyUrl(base, DiagramKey(stageId), escape), stageId,
                                   Some(SavePayload(nodes, edges)));
            exists m :: m in Target(tasks, layout, scatter) && m.id == n.id && m.position == SavedForm(n).position
                        && m.data == NodeData(Lookup(tasks, n.id), true)
  {
    DiagramKeyReachesPath(base, stageId, escape);
    var url := QueryClient.KeyUrl(base, DiagramKey(stageId), escape);
    var layout := Some(SavePayload(nodes, edges));
    assert LayoutAt(base, url, stageId, layout) == layout;
    assert |layout.value.nodes| == |nodes| > 0;
    assert Target(tasks, layout, scatter) == Reconcile(layout.value.nodes, tasks);
    SaveThenReconcile(nodes, edges, tasks, n);
  }

  /** The whole path as the only key element is fetched as it is. */
  lemma DiagramKeyReachesPath(base: string, stageId: string, escape: string -> string)
    ensures QueryClient.KeyUrl(base, DiagramKey(stageId), escape) == QueryClient.JoinUrl(base, TaskDiagramPath(stageId))
  {
  }

  // ------------------------------------------------------ component state

  /** The canvas component's state. */
  class CanvasState {
    var nodes: seq<FlowNode>
    var edges: seq<FlowEdge>
    var unsaved: bool

    constructor ()
      ensures nodes == [] && edges == [] && !unsaved
    {
      nodes, edges, unsaved := [], [], false;
    }

    /**
     * The sync effect, run when the task list or the saved layout changes.
     * With no tasks the canvas is cleared, unless there are unsaved changes.
     * Otherwise the computed nodes replace the canvas when nothing is
     * unsaved, and otherwise only an empty canvas; the edges are replaced
     * only when nothing is unsaved.
     */
    method Sync(tasks: seq<TaskView>, layout: Option<Layout>, scatter: nat -> Position)
      modifies this
      ensures unsaved == old(unsaved)
      ensures tasks == [] ==> if old(unsaved) then nodes == old(nodes) && edges == old(edges) else nodes == [] && edges == []
      ensures tasks != [] ==> nodes == (if old(unsaved) && old(nodes) != [] then old(nodes) else Target(tasks, layout, scatter))
      ensures tasks != [] ==> edges == (if old(unsaved) then old(edges) else if SavedNodes(layout) != [] then SavedEdges(layout) else [])
      ensures tasks != [] && !old(unsaved) ==> forall id :: id in NodeIds(nodes) <==> exists t :: t in tasks && t.id == id
    {
      if tasks == [] {
        if !unsaved {
          nodes, edges := [], [];
        }
        return;
      }
      var saved := SavedNodes(layout);
      if saved != [] {
        var computed := Reconcile(saved, tasks);
        nodes := if !unsaved then computed else if |nodes| > 0 then nodes else computed;
        edges := if !unsaved then SavedEdges(layout) else edges;
      } else {
        var computed := Scatter(tasks, saved, scatter);
        nodes := if !unsaved then computed else if |nodes| > 0 then nodes else computed;
        edges := if !unsaved then [] else edges;
      }
    }

    /** A node change from the canvas (drag, select, remove): the library computes the new list; the change is now unsaved. */
    method ChangeNodes(changed: seq<FlowNode>)
      modifies this
      ensures nodes == changed && edges == old(edges) && unsaved
    {
      nodes := changed;
      unsaved := true;
    }

    /** An edge change from the canvas: the library computes the new list; the change is now unsaved. */
    method ChangeEdges(changed: seq<FlowEdge>)
      modifies this
      ensures edges == changed && nodes == old(nodes) && unsaved
    {
      edges := changed;
      unsaved := true;
    }

    /** A new connection: `connected` is the edge list the library's `addEdge` returns; the change is now unsaved. */
    method Connect(connected: seq<FlowEdge>)
      modifies this
      ensures edges == connected && nodes == old(nodes) && unsaved
    {
      edges := connected;
      unsaved := true;
    }

    /** The layout the save button posts for the current canvas. */
    function Payload(): (l: Layout)
      reads this
      ensures |l.nodes| == |nodes| && l.edges == edges
      ensures NodeIds(l.nodes) == NodeIds(nodes)
    {
      SavePayload(nodes, edges)
    }

    /** A save that succeeded: the canvas is no longer unsaved and is otherwise as it was. */
    method SaveSucceeded()
      modifies this
      ensures !unsaved && nodes == old(nodes) && edges == old(edges)
    {
      unsaved := false;
    }
  }

  /** Once a save succeeds, the next refresh with tasks replaces the canvas again. */
  method RefreshAfterSave(c: CanvasState, tasks: seq<TaskView>, layout: Option<Layout>, scatter: nat -> Position)
    requires tasks != []
    modifies c
    ensures !c.unsaved
    ensures c.nodes == Target(tasks, layout, scatter)
    ensures forall id :: id in NodeIds(c.nodes) <==> exists t :: t in tasks && t.id == id
  {
    c.SaveSucceeded();
    c.Sync(tasks, layout, scatter);
  }

  /** While a change is unsaved, a refresh with tasks never replaces a non-empty canvas or the edges. */
  method RefreshKeepsUnsaved(c: CanvasState, tasks: seq<TaskView>, layout: Option<Layout>, scatter: nat -> Position, changed: seq<FlowNode>)
    requires changed != []
    modifies c
    ensures c.unsaved && c.nodes == changed && c.edges == old(c.edges)
  {
    c.ChangeNodes(changed);
    c.Sync(tasks, layout, scatter);
  }
}
