/**
 * Relational operations on the tables as sequences of rows in insertion
 * order: key sets, lookups by key, row updates, deletes with their cascades,
 * the well-formedness of each table and the foreign keys between them.
 */
module Tables {
  import opened Common
  import opened Schema
  import Layouts

  // ------------------------------------------------------------ key sets

  function ReleaseIds(rs: seq<Release>): set<Id> { set r | r in rs :: r.id }
  function StageIds(ss: seq<Stage>): set<Id> { set s | s in ss :: s.id }
  function TaskIds(ts: seq<Task>): set<Id> { set t | t in ts :: t.id }
  function BlockerIds(bs: seq<Blocker>): set<Id> { set b | b in bs :: b.id }
  function DiagramIds(ds: seq<Diagram>): set<Id> { set d | d in ds :: d.id }

  // ------------------------------------------- well-formedness of a table

  // The keys along which a table is ordered: ids come from a counter and
  // creation times from the store's clock, so both grow with every insert.
  function ReleaseKey(r: Release): int { r.id }
  function ReleaseTime(r: Release): int { r.createdAt }
  function StageKey(s: Stage): int { s.id }
  function TaskKey(t: Task): int { t.id }
  function BlockerKey(b: Blocker): int { b.id }
  function BlockerTime(b: Blocker): int { b.createdAt }
  function DiagramKey(d: Diagram): int { d.id }
  function NodeKey(n: DiagramNode): int { n.id }
  function EntryKey(e: ActivityEntry): int { e.id }
  function EntryTime(e: ActivityEntry): int { e.at }

  /** Ids strictly increase along the table (so they are unique) and stay below `nextId`; so do creation times, below `clock`. */
  ghost predicate ReleasesFormed(rs: seq<Release>, nextId: nat, clock: Timestamp) {
    && Ascending(rs, ReleaseKey) && Ascending(rs, ReleaseTime)
    && (forall r :: r in rs ==> r.id < nextId && r.createdAt <= clock)
  }

  ghost predicate StagesFormed(ss: seq<Stage>, nextId: nat) {
    Ascending(ss, StageKey) && forall s :: s in ss ==> s.id < nextId
  }

  ghost predicate TasksFormed(ts: seq<Task>, nextId: nat) {
    Ascending(ts, TaskKey) && forall t :: t in ts ==> t.id < nextId
  }

  ghost predicate BlockersFormed(bs: seq<Blocker>, nextId: nat, clock: Timestamp) {
    && Ascending(bs, BlockerKey) && Ascending(bs, BlockerTime)
    && (forall b :: b in bs ==> b.id < nextId && b.createdAt <= clock)
  }

  ghost predicate DiagramsFormed(ds: seq<Diagram>, nextId: nat) {
    Ascending(ds, DiagramKey) && forall d :: d in ds ==> d.id < nextId
  }

  ghost predicate NodesFormed(ns: seq<DiagramNode>, nextId: nat) {
    Ascending(ns, NodeKey) && forall n :: n in ns ==> n.id < nextId
  }

  ghost predicate LogFormed(es: seq<ActivityEntry>, nextId: nat, clock: Timestamp) {
    && Ascending(es, EntryKey) && Ascending(es, EntryTime)
    && (forall e :: e in es ==> e.id < nextId && e.at <= clock)
  }

  // -------------------------------------------------------- foreign keys

  ghost predicate StageLinks(ss: seq<Stage>, rs: seq<Release>) {
    forall s :: s in ss ==> s.releaseId in ReleaseIds(rs)
  }

  ghost predicate TaskLinks(ts: seq<Task>, ss: seq<Stage>) {
    forall t :: t in ts ==> t.stageId in StageIds(ss)
  }

  ghost predicate BlockerLinks(bs: seq<Blocker>, ss: seq<Stage>) {
    forall b :: b in bs ==> b.stageId in StageIds(ss)
  }

  ghost predicate DiagramLinks(ds: seq<Diagram>, rs: seq<Release>) {
    forall d :: d in ds ==> d.releaseId in ReleaseIds(rs)
  }

  ghost predicate NodeLinks(ns: seq<DiagramNode>, ds: seq<Diagram>) {
    forall n :: n in ns ==> n.diagramId in DiagramIds(ds)
  }

  /** An activity entry's release and stage, when present, exist. */
  predicate EntryLinked(e: ActivityEntry, rs: seq<Release>, ss: seq<Stage>) {
    && (e.releaseId.Some? ==> e.releaseId.value in ReleaseIds(rs))
    && (e.stageId.Some? ==> e.stageId.value in StageIds(ss))
  }

  ghost predicate LogLinks(es: seq<ActivityEntry>, rs: seq<Release>, ss: seq<Stage>) {
    forall e :: e in es ==> EntryLinked(e, rs, ss)
  }

  // ------------------------------------------------------------- lookups

  /** `select ... where id = ? limit 1` on releases. */
  function FindRelease(rs: seq<Release>, id: Id): (r: Option<Release>)
    ensures r.Some? <==> id in ReleaseIds(rs)
    ensures r.Some? ==> r.value in rs && r.value.id == id
  {
    if rs == [] then None
    else if rs[0].id == id then Some(rs[0])
    else FindRelease(rs[1..], id)
  }

  function FindStage(ss: seq<Stage>, id: Id): (r: Option<Stage>)
    ensures r.Some? <==> id in StageIds(ss)
    ensures r.Some? ==> r.value in ss && r.value.id == id
  {
    if ss == [] then None
    else if ss[0].id == id then Some(ss[0])
    else FindStage(ss[1..], id)
  }

  function FindTask(ts: seq<Task>, id: Id): (r: Option<Task>)
    ensures r.Some? <==> id in TaskIds(ts)
    ensures r.Some? ==> r.value in ts && r.value.id == id
  {
    if ts == [] then None
    else if ts[0].id == id then Some(ts[0])
    else FindTask(ts[1..], id)
  }

  function FindBlocker(bs: seq<Blocker>, id: Id): (r: Option<Blocker>)
    ensures r.Some? <==> id in BlockerIds(bs)
    ensures r.Some? ==> r.value in bs && r.value.id == id
  {
    if bs == [] then None
    else if bs[0].id == id then Some(bs[0])
    else FindBlocker(bs[1..], id)
  }

  /** `select ... where release_id = ? limit 1` on diagrams: the first diagram of the release. */
  function FindDiagramOf(ds: seq<Diagram>, releaseId: Id): (r: Option<Diagram>)
    ensures r.None? <==> forall d :: d in ds ==> d.releaseId != releaseId
    ensures r.Some? ==> |ds| > 0 && r.value in ds && r.value.releaseId == releaseId
    ensures r.Some? && ds[0].releaseId == releaseId ==> r.value == ds[0]
  {
    if ds == [] then None
    else if ds[0].releaseId == releaseId then Some(ds[0])
    else FindDiagramOf(ds[1..], releaseId)
  }

  /** With increasing ids, a row found by id is the only row with that id. */
  lemma StageUnique(ss: seq<Stage>, s: Stage, s': Stage)
    requires Ascending(ss, StageKey)
    requires s in ss && s' in ss && s.id == s'.id
    ensures s == s'
  {
    var i :| 0 <= i < |ss| && ss[i] == s;
    var j :| 0 <= j < |ss| && ss[j] == s';
    assert !(i < j) && !(j < i);
  }

  // ------------------------------------------------------------- updates

  /** `update releases set ... where id = ?` */
  function UpdateReleases(rs: seq<Release>, id: Id, p: ReleasePatch): (r: seq<Release>)
    ensures |r| == |rs|
    ensures forall i :: 0 <= i < |rs| ==> r[i] == if rs[i].id == id then ApplyRelease(rs[i], p) else rs[i]
  {
    seq(|rs|, i requires 0 <= i < |rs| => if rs[i].id == id then ApplyRelease(rs[i], p) else rs[i])
  }

  function UpdateStages(ss: seq<Stage>, id: Id, p: StagePatch): (r: seq<Stage>)
    ensures |r| == |ss|
    ensures forall i :: 0 <= i < |ss| ==> r[i] == if ss[i].id == id then ApplyStage(ss[i], p) else ss[i]
  {
    seq(|ss|, i requires 0 <= i < |ss| => if ss[i].id == id then ApplyStage(ss[i], p) else ss[i])
  }

  function UpdateTasks(ts: seq<Task>, id: Id, p: TaskPatch): (r: seq<Task>)
    ensures |r| == |ts|
    ensures forall i :: 0 <= i < |ts| ==> r[i] == if ts[i].id == id then ApplyTask(ts[i], p) else ts[i]
  {
    seq(|ts|, i requires 0 <= i < |ts| => if ts[i].id == id then ApplyTask(ts[i], p) else ts[i])
  }

  function UpdateBlockers(bs: seq<Blocker>, id: Id, p: BlockerPatch): (r: seq<Blocker>)
    ensures |r| == |bs|
    ensures forall i :: 0 <= i < |bs| ==> r[i] == if bs[i].id == id then ApplyBlocker(bs[i], p) else bs[i]
  {
    seq(|bs|, i requires 0 <= i < |bs| => if bs[i].id == id then ApplyBlocker(bs[i], p) else bs[i])
  }

  /** `update diagrams set ... where id = ?`: the row with that id becomes `row`. */
  function ReplaceDiagram(ds: seq<Diagram>, id: Id, row: Diagram): (r: seq<Diagram>)
    ensures |r| == |ds|
    ensures forall i :: 0 <= i < |ds| ==> r[i] == if ds[i].id == id then row else ds[i]
  {
    seq(|ds|, i requires 0 <= i < |ds| => if ds[i].id == id then row else ds[i])
  }

  // ------------------------------------------------- deletes and cascades

  function ReleasesExcept(rs: seq<Release>, id: Id): (r: seq<Release>)
    ensures forall x :: x in r <==> x in rs && x.id != id
    ensures Ascending(rs, ReleaseKey) ==> Ascending(r, ReleaseKey)
    ensures Ascending(rs, ReleaseTime) ==> Ascending(r, ReleaseTime)
  {
    var keep := (x: Release) => x.id != id;
    FilterAscending(rs, keep, ReleaseKey);
    FilterAscending(rs, keep, ReleaseTime);
    Filter(rs, keep)
  }

  function StagesExcept(ss: seq<Stage>, id: Id): (r: seq<Stage>)
    ensures forall x :: x in r <==> x in ss && x.id != id
    ensures Ascending(ss, StageKey) ==> Ascending(r, StageKey)
  {
    var keep := (x: Stage) => x.id != id;
    FilterAscending(ss, keep, StageKey);
    Filter(ss, keep)
  }

  /** The stages left after the release `rid` and its stages are deleted. */
  function StagesOutsideRelease(ss: seq<Stage>, rid: Id): (r: seq<Stage>)
    ensures forall x :: x in r <==> x in ss && x.releaseId != rid
    ensures Ascending(ss, StageKey) ==> Ascending(r, StageKey)
  {
    var keep := (x: Stage) => x.releaseId != rid;
    FilterAscending(ss, keep, StageKey);
    Filter(ss, keep)
  }

  function TasksExcept(ts: seq<Task>, id: Id): (r: seq<Task>)
    ensures forall x :: x in r <==> x in ts && x.id != id
    ensures Ascending(ts, TaskKey) ==> Ascending(r, TaskKey)
  {
    var keep := (x: Task) => x.id != id;
    FilterAscending(ts, keep, TaskKey);
    Filter(ts, keep)
  }

  /** The tasks whose stage is not among the deleted stages `gone`. */
  function TasksOutside(ts: seq<Task>, gone: set<Id>): (r: seq<Task>)
    ensures forall x :: x in r <==> x in ts && x.stageId !in gone
    ensures Ascending(ts, TaskKey) ==> Ascending(r, TaskKey)
  {
    var keep := (x: Task) => x.stageId !in gone;
    FilterAscending(ts, keep, TaskKey);
    Filter(ts, keep)
  }

  function BlockersExcept(bs: seq<Blocker>, id: Id): (r: seq<Blocker>)
    ensures forall x :: x in r <==> x in bs && x.id != id
    ensures Ascending(bs, BlockerKey) ==> Ascending(r, BlockerKey)
    ensures Ascending(bs, BlockerTime) ==> Ascending(r, BlockerTime)
  {
    var keep := (x: Blocker) => x.id != id;
    FilterAscending(bs, keep, BlockerKey);
    FilterAscending(bs, keep, BlockerTime);
    Filter(bs, keep)
  }

  function BlockersOutside(bs: seq<Blocker>, gone: set<Id>): (r: seq<Blocker>)
    ensures forall x :: x in r <==> x in bs && x.stageId !in gone
    ensures Ascending(bs, BlockerKey) ==> Ascending(r, BlockerKey)
    ensures Ascending(bs, BlockerTime) ==> Ascending(r, BlockerTime)
  {
    var keep := (x: Blocker) => x.stageId !in gone;
    FilterAscending(bs, keep, BlockerKey);
    FilterAscending(bs, keep, BlockerTime);
    Filter(bs, keep)
  }

  function DiagramsOutsideRelease(ds: seq<Diagram>, rid: Id): (r: seq<Diagram>)
    ensures forall x :: x in r <==> x in ds && x.releaseId != rid
    ensures Ascending(ds, DiagramKey) ==> Ascending(r, DiagramKey)
    ensures IsSubsequence(r, ds)
  {
    var keep := (x: Diagram) => x.releaseId != rid;
    FilterAscending(ds, keep, DiagramKey);
    FilterIsSubsequence(ds, keep);
    Filter(ds, keep)
  }

  function NodesOutside(ns: seq<DiagramNode>, gone: set<Id>): (r: seq<DiagramNode>)
    ensures forall x :: x in r <==> x in ns && x.diagramId !in gone
    ensures Ascending(ns, NodeKey) ==> Ascending(r, NodeKey)
  {
    var keep := (x: DiagramNode) => x.diagramId !in gone;
    FilterAscending(ns, keep, NodeKey);
    Filter(ns, keep)
  }

  /** `on delete set null`: entries that pointed at a deleted release or stage lose that reference. */
  function Detach(e: ActivityEntry, goneRelease: Option<Id>, goneStages: set<Id>): (r: ActivityEntry)
    ensures r.id == e.id && r.at == e.at && r.action == e.action && r.actor == e.actor && r.meta == e.meta
    ensures r.releaseId == (if goneRelease.Some? && e.releaseId == goneRelease then None else e.releaseId)
    ensures r.stageId == (if e.stageId.Some? && e.stageId.value in goneStages then None else e.stageId)
  {
    e.(releaseId := if goneRelease.Some? && e.releaseId == goneRelease then None else e.releaseId,
       stageId := if e.stageId.Some? && e.stageId.value in goneStages then None else e.stageId)
  }

  function DetachAll(es: seq<ActivityEntry>, goneRelease: Option<Id>, goneStages: set<Id>): (r: seq<ActivityEntry>)
    ensures |r| == |es|
    ensures forall i :: 0 <= i < |es| ==> r[i] == Detach(es[i], goneRelease, goneStages)
  {
    seq(|es|, i requires 0 <= i < |es| => Detach(es[i], goneRelease, goneStages))
  }

  /** The ids of the stages of release `rid`. */
  function StagesOf(ss: seq<Stage>, rid: Id): set<Id> {
    set s | s in ss && s.releaseId == rid :: s.id
  }

  function DiagramsOf(ds: seq<Diagram>, rid: Id): set<Id> {
    set d | d in ds && d.releaseId == rid :: d.id
  }

  /** A release has at most one diagram: `getDiagramByRelease` is the only way to reach one, and every insert goes through the upsert. */
  ghost predicate OneDiagramPerRelease(ds: seq<Diagram>) {
    forall i, j :: 0 <= i < j < |ds| ==> ds[i].releaseId != ds[j].releaseId
  }

  // ---------------------------------------------------------- selections

  /** `where release_id = ?` on stages, in table order. */
  function StagesIn(ss: seq<Stage>, rid: Id): (r: seq<Stage>)
    ensures forall x :: x in r <==> x in ss && x.releaseId == rid
    ensures Ascending(ss, StageKey) ==> Ascending(r, StageKey)
    ensures IsSubsequence(r, ss)
  {
    var keep := (x: Stage) => x.releaseId == rid;
    FilterAscending(ss, keep, StageKey);
    FilterIsSubsequence(ss, keep);
    Filter(ss, keep)
  }

  /** `where stage_id = ?` on tasks, in table order. */
  function TasksIn(ts: seq<Task>, sid: Id): (r: seq<Task>)
    ensures forall x :: x in r <==> x in ts && x.stageId == sid
  {
    Filter(ts, (x: Task) => x.stageId == sid)
  }

  /** `where stage_id = ? [and active = true]` on blockers, in table order. */
  function BlockersIn(bs: seq<Blocker>, sid: Id, activeOnly: bool): (r: seq<Blocker>)
    ensures forall x :: x in r <==> x in bs && x.stageId == sid && (activeOnly ==> x.active)
    ensures Ascending(bs, BlockerTime) ==> Ascending(r, BlockerTime)
  {
    var keep := (x: Blocker) => x.stageId == sid && (activeOnly ==> x.active);
    FilterAscending(bs, keep, BlockerTime);
    Filter(bs, keep)
  }

  // ------------------------------------------------ order by updated_at

  ghost predicate SortedByUpdate(ts: seq<Task>) {
    forall i, j :: 0 <= i < j < |ts| ==> ts[i].updatedAt <= ts[j].updatedAt
  }

  /** Places `t` before the first task updated no earlier than it. */
  function InsertByUpdate(t: Task, ts: seq<Task>): (r: seq<Task>)
    ensures multiset(r) == multiset(ts) + multiset{t}
  {
    if ts == [] || t.updatedAt <= ts[0].updatedAt then [t] + ts
    else
      assert ts == [ts[0]] + ts[1..];
      [ts[0]] + InsertByUpdate(t, ts[1..])
  }

  lemma {:induction false} InsertByUpdateSorted(t: Task, ts: seq<Task>)
    requires SortedByUpdate(ts)
    ensures SortedByUpdate(InsertByUpdate(t, ts))
  {
    if ts == [] || t.updatedAt <= ts[0].updatedAt {
      var r := [t] + ts;
      forall i, j | 0 <= i < j < |r| ensures r[i].updatedAt <= r[j].updatedAt {
        if i > 0 {
          assert r[i] == ts[i - 1] && r[j] == ts[j - 1];
        } else {
          assert r[j] == ts[j - 1];
        }
      }
    } else {
      var rest := InsertByUpdate(t, ts[1..]);
      InsertByUpdateSorted(t, ts[1..]);
      LowerBoundKept(ts[0].updatedAt, t, ts[1..]);
      var r := [ts[0]] + rest;
      forall i, j | 0 <= i < j < |r| ensures r[i].updatedAt <= r[j].updatedAt {
        if i == 0 {
          assert r[j] == rest[j - 1];
        } else {
          assert r[i] == rest[i - 1] && r[j] == rest[j - 1];
        }
      }
    }
  }

  /** A bound below `t` and every task of `ts` stays below every task after the insertion. */
  lemma LowerBoundKept(lo: Timestamp, t: Task, ts: seq<Task>)
    requires lo <= t.updatedAt && forall x :: x in ts ==> lo <= x.updatedAt
    ensures forall i :: 0 <= i < |InsertByUpdate(t, ts)| ==> lo <= InsertByUpdate(t, ts)[i].updatedAt
  {
    var r := InsertByUpdate(t, ts);
    forall i | 0 <= i < |r| ensures lo <= r[i].updatedAt {
      assert r[i] in multiset(r);
      assert r[i] == t || r[i] in multiset(ts);
    }
  }

  /** `order by updated_at`: a stable insertion sort on the update time. */
  function SortByUpdate(ts: seq<Task>): (r: seq<Task>)
    ensures multiset(r) == multiset(ts)
    ensures SortedByUpdate(r)
  {
    if ts == [] then []
    else
      assert ts == [ts[0]] + ts[1..];
      var rest := SortByUpdate(ts[1..]);
      InsertByUpdateSorted(ts[0], rest);
      InsertByUpdate(ts[0], rest)
  }

  // ------------------------------------------------ updates keep the keys

  lemma UpdateReleasesKeepsIds(rs: seq<Release>, id: Id, p: ReleasePatch)
    ensures ReleaseIds(UpdateReleases(rs, id, p)) == ReleaseIds(rs)
  {
    var r := UpdateReleases(rs, id, p);
    forall x | x in ReleaseIds(rs) ensures x in ReleaseIds(r) {
      var i :| 0 <= i < |rs| && rs[i].id == x;
      assert r[i].id == x;
    }
    forall x | x in ReleaseIds(r) ensures x in ReleaseIds(rs) {
      var i :| 0 <= i < |r| && r[i].id == x;
      assert rs[i].id == x;
    }
  }

  lemma UpdateStagesKeepsIds(ss: seq<Stage>, id: Id, p: StagePatch)
    ensures StageIds(UpdateStages(ss, id, p)) == StageIds(ss)
  {
    var r := UpdateStages(ss, id, p);
    forall x | x in StageIds(ss) ensures x in StageIds(r) {
      var i :| 0 <= i < |ss| && ss[i].id == x;
      assert r[i].id == x;
    }
    forall x | x in StageIds(r) ensures x in StageIds(ss) {
      var i :| 0 <= i < |r| && r[i].id == x;
      assert ss[i].id == x;
    }
  }
}
