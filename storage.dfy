/**
 * The database-backed store: one object holding every table as a sequence of
 * rows in insertion order. Ids come from `nextId` (standing for
 * `gen_random_uuid()`, which never repeats) and timestamps from `clock`
 * (standing for `now()`, which moves on at every write).
 */
module Storage {
  import opened Common
  import opened Text
  import opened Schema
  import opened Tables
  import Layouts

  /**
   * The outcome of a write: the row written, no row with that id, or a write
   * that fails with an error: a foreign key names a missing row, or an update
   * names no column at all, which the query builder refuses before it reaches
   * the database.
   */
  datatype Outcome<T> = Written(row: T) | Absent | Refused

  /** Every table and both generators, as one value, to state what a write leaves alone. */
  datatype Snapshot = Snapshot(
    releases: seq<Release>,
    stages: seq<Stage>,
    tasks: seq<Task>,
    blockers: seq<Blocker>,
    diagrams: seq<Diagram>,
    diagramNodes: seq<DiagramNode>,
    activityLog: seq<ActivityEntry>,
    nextId: nat,
    clock: Timestamp)

  /** The most entries one activity-log query returns. */
  const ActivityLimit: nat := 100

  /** An entry passes the filters that were supplied; an absent filter passes everything. */
  predicate MatchesFilters(e: ActivityEntry, releaseId: Option<Id>, stageId: Option<Id>) {
    && (releaseId.Some? ==> e.releaseId == releaseId)
    && (stageId.Some? ==> e.stageId == stageId)
  }

  function EntriesMatching(es: seq<ActivityEntry>, releaseId: Option<Id>, stageId: Option<Id>): (r: seq<ActivityEntry>)
    ensures forall e :: e in r <==> e in es && MatchesFilters(e, releaseId, stageId)
    ensures Ascending(es, EntryTime) ==> Ascending(r, EntryTime)
  {
    var keep := (e: ActivityEntry) => MatchesFilters(e, releaseId, stageId);
    FilterAscending(es, keep, EntryTime);
    Filter(es, keep)
  }

  function ReleasesOfTeam(rs: seq<Release>, team: Option<string>): (r: seq<Release>)
    ensures forall x :: x in r <==> x in rs && x.team == team
    ensures Ascending(rs, ReleaseTime) ==> Ascending(r, ReleaseTime)
  {
    var keep := (x: Release) => x.team == team;
    FilterAscending(rs, keep, ReleaseTime);
    Filter(rs, keep)
  }

  /** Ids are unique and ordered, timestamps follow insertion, a release has at most one diagram, and every foreign key names an existing row. */
  ghost predicate Consistent(db: Snapshot) {
    && ReleasesFormed(db.releases, db.nextId, db.clock)
    && StagesFormed(db.stages, db.nextId)
    && TasksFormed(db.tasks, db.nextId)
    && BlockersFormed(db.blockers, db.nextId, db.clock)
    && DiagramsFormed(db.diagrams, db.nextId)
    && NodesFormed(db.diagramNodes, db.nextId)
    && LogFormed(db.activityLog, db.nextId, db.clock)
    && OneDiagramPerRelease(db.diagrams)
    && StageLinks(db.stages, db.releases)
    && TaskLinks(db.tasks, db.stages)
    && BlockerLinks(db.blockers, db.stages)
    && DiagramLinks(db.diagrams, db.releases)
    && NodeLinks(db.diagramNodes, db.diagrams)
    && LogLinks(db.activityLog, db.releases, db.stages)
  }

  /** The empty database keeps every rule. */
  lemma EmptyConsistent()
    ensures Consistent(Snapshot([], [], [], [], [], [], [], 0, 0))
  {
  }

  /** Cutting a newest-first list after `k` elements leaves out only elements older than every one kept. */
  lemma PrefixOfNewestFirst(rev: seq<ActivityEntry>, k: nat)
    requires Descending(rev, EntryTime) && k <= |rev|
    ensures forall e :: e in rev && e !in rev[..k] ==> k < |rev| && forall x :: x in rev[..k] ==> e.at < x.at
  {
    forall e | e in rev && e !in rev[..k] ensures k < |rev| && forall x :: x in rev[..k] ==> e.at < x.at {
      var p :| 0 <= p < |rev| && rev[p] == e;
      assert forall q :: 0 <= q < k ==> rev[..k][q] == rev[q];
      forall x | x in rev[..k] ensures e.at < x.at {
        var q :| 0 <= q < k && rev[..k][q] == x;
        assert EntryTime(rev[q]) > EntryTime(rev[p]);
      }
    }
  }

  /** Activity-log query: the matching entries, newest first, cut at `ActivityLimit`. */
  lemma NewestMatchingFacts(es: seq<ActivityEntry>, releaseId: Option<Id>, stageId: Option<Id>)
    requires Ascending(es, EntryTime)
    ensures var m := EntriesMatching(es, releaseId, stageId);
            var r := Reverse(m)[..if |m| < ActivityLimit then |m| else ActivityLimit];
            && |r| <= ActivityLimit
            && (forall e :: e in r ==> e in es && MatchesFilters(e, releaseId, stageId))
            && Descending(r, EntryTime)
            && (forall e :: e in es && MatchesFilters(e, releaseId, stageId) && e !in r ==>
                  |r| == ActivityLimit && forall x :: x in r ==> e.at < x.at)
  {
    var m := EntriesMatching(es, releaseId, stageId);
    ReverseAscending(m, EntryTime);
    var rev := Reverse(m);
    var k := if |m| < ActivityLimit then |m| else ActivityLimit;
    PrefixOfNewestFirst(rev, k);
    PrefixDescending(rev, k);
    assert forall e :: e in m <==> e in rev;
  }

  /** A prefix of a newest-first list is newest-first and holds only elements of the list. */
  lemma PrefixDescending(rev: seq<ActivityEntry>, k: nat)
    requires Descending(rev, EntryTime) && k <= |rev|
    ensures Descending(rev[..k], EntryTime)
    ensures forall e :: e in rev[..k] ==> e in rev
  {
    assert forall i :: 0 <= i < k ==> rev[..k][i] == rev[i];
  }

  lemma UpdateReleaseKeeps(db: Snapshot, id: Id, p: ReleasePatch)
    requires Consistent(db)
    ensures Consistent(db.(releases := UpdateReleases(db.releases, id, p)))
  {
    var u := UpdateReleases(db.releases, id, p);
    UpdateReleasesKeepsIds(db.releases, id, p);
    forall x | x in u ensures x.id < db.nextId && x.createdAt <= db.clock {
      var i :| 0 <= i < |u| && u[i] == x;
      assert db.releases[i] in db.releases;
    }
  }

  lemma UpdateStageKeeps(db: Snapshot, id: Id, p: StagePatch)
    requires Consistent(db)
    requires p.releaseId.Set? ==> p.releaseId.value in ReleaseIds(db.releases)
    ensures Consistent(db.(stages := UpdateStages(db.stages, id, p)))
  {
    var u := UpdateStages(db.stages, id, p);
    UpdateStagesKeepsIds(db.stages, id, p);
    forall x | x in u ensures x.id < db.nextId && x.releaseId in ReleaseIds(db.releases) {
      var i :| 0 <= i < |u| && u[i] == x;
      assert db.stages[i] in db.stages;
    }
  }

  lemma UpdateTaskKeeps(db: Snapshot, id: Id, p: TaskPatch)
    requires Consistent(db)
    requires p.stageId.Set? ==> p.stageId.value in StageIds(db.stages)
    ensures Consistent(db.(tasks := UpdateTasks(db.tasks, id, p)))
  {
    var u := UpdateTasks(db.tasks, id, p);
    assert Ascending(u, TaskKey) by {
      forall i, j | 0 <= i < j < |u| ensures TaskKey(u[i]) < TaskKey(u[j]) {
        assert TaskKey(db.tasks[i]) < TaskKey(db.tasks[j]);
      }
    }
    forall x | x in u ensures x.id < db.nextId && x.stageId in StageIds(db.stages) {
      var i :| 0 <= i < |u| && u[i] == x;
      assert db.tasks[i] in db.tasks;
    }
  }

  lemma UpdateBlockerKeeps(db: Snapshot, id: Id, p: BlockerPatch)
    requires Consistent(db)
    requires p.stageId.Set? ==> p.stageId.value in StageIds(db.stages)
    ensures Consistent(db.(blockers := UpdateBlockers(db.blockers, id, p)))
  {
    var u := UpdateBlockers(db.blockers, id, p);
    assert Ascending(u, BlockerKey) && Ascending(u, BlockerTime) by {
      forall i, j | 0 <= i < j < |u| ensures BlockerKey(u[i]) < BlockerKey(u[j]) && BlockerTime(u[i]) < BlockerTime(u[j]) {
        assert BlockerKey(db.blockers[i]) < BlockerKey(db.blockers[j]);
        assert BlockerTime(db.blockers[i]) < BlockerTime(db.blockers[j]);
      }
    }
    forall x | x in u ensures x.id < db.nextId && x.createdAt <= db.clock && x.stageId in StageIds(db.stages) {
      var i :| 0 <= i < |u| && u[i] == x;
      assert db.blockers[i] in db.blockers;
    }
  }

  lemma DeleteStageKeeps(db: Snapshot, id: Id)
    requires Consistent(db)
    ensures Consistent(db.(stages := StagesExcept(db.stages, id),
                           tasks := TasksOutside(db.tasks, {id}),
                           blockers := BlockersOutside(db.blockers, {id}),
                           activityLog := DetachAll(db.activityLog, None, {id})))
  {
    var ss' := StagesExcept(db.stages, id);
    forall sid | sid in StageIds(db.stages) && sid != id ensures sid in StageIds(ss') {
      var s :| s in db.stages && s.id == sid;
      assert s in ss';
    }
    var es' := DetachAll(db.activityLog, None, {id});
    forall i | 0 <= i < |es'| ensures EntryLinked(es'[i], db.releases, ss') {
      assert db.activityLog[i] in db.activityLog;
    }
    DetachKeepsLog(db.activityLog, None, {id}, db.nextId, db.clock);
  }

  /** The store after `delete from releases where id = ?` and the cascades it sets off. */
  function AfterReleaseDelete(db: Snapshot, id: Id): Snapshot {
    var gone := StagesOf(db.stages, id);
    db.(releases := ReleasesExcept(db.releases, id),
        stages := StagesOutsideRelease(db.stages, id),
        tasks := TasksOutside(db.tasks, gone),
        blockers := BlockersOutside(db.blockers, gone),
        diagrams := DiagramsOutsideRelease(db.diagrams, id),
        diagramNodes := NodesOutside(db.diagramNodes, DiagramsOf(db.diagrams, id)),
        activityLog := DetachAll(db.activityLog, Some(id), gone))
  }

  lemma DeleteReleaseKeeps(db: Snapshot, id: Id)
    requires Consistent(db)
    ensures Consistent(AfterReleaseDelete(db, id))
  {
    var gone := StagesOf(db.stages, id);
    var goneDiagrams := DiagramsOf(db.diagrams, id);
    var ds' := DiagramsOutsideRelease(db.diagrams, id);
    assert OneDiagramPerRelease(ds') by {
      forall i, j | 0 <= i < j < |ds'| ensures ds'[i].releaseId != ds'[j].releaseId {
        DistinctFilteredDiagrams(db.diagrams, id, i, j);
      }
    }
    DeleteReleaseKeepsLinks(id, db.releases, db.stages, db.tasks, db.blockers, db.diagrams, db.diagramNodes, db.activityLog);
    DetachKeepsLog(db.activityLog, Some(id), gone, db.nextId, db.clock);
  }

  /** Clearing references in the log keeps its ids, times and order. */
  lemma DetachKeepsLog(es: seq<ActivityEntry>, goneRelease: Option<Id>, goneStages: set<Id>, nextId: nat, clock: Timestamp)
    requires LogFormed(es, nextId, clock)
    ensures LogFormed(DetachAll(es, goneRelease, goneStages), nextId, clock)
  {
    var es' := DetachAll(es, goneRelease, goneStages);
    assert Ascending(es', EntryKey) && Ascending(es', EntryTime) by {
      forall i, j | 0 <= i < j < |es'| ensures EntryKey(es'[i]) < EntryKey(es'[j]) && EntryTime(es'[i]) < EntryTime(es'[j]) {
        assert EntryKey(es[i]) < EntryKey(es[j]);
        assert EntryTime(es[i]) < EntryTime(es[j]);
      }
    }
    forall e | e in es' ensures e.id < nextId && e.at <= clock {
      var i :| 0 <= i < |es'| && es'[i] == e;
      assert es[i] in es;
    }
  }

  /** The rows left by a release delete still name existing rows. */
  lemma DeleteReleaseKeepsLinks(id: Id, rs: seq<Release>, ss: seq<Stage>, ts: seq<Task>, bs: seq<Blocker>,
                                ds: seq<Diagram>, ns: seq<DiagramNode>, es: seq<ActivityEntry>)
    requires StageLinks(ss, rs) && DiagramLinks(ds, rs)
    requires TaskLinks(ts, ss) && BlockerLinks(bs, ss)
    requires NodeLinks(ns, ds) && LogLinks(es, rs, ss)
    ensures var gone := StagesOf(ss, id);
            var rs', ss' := ReleasesExcept(rs, id), StagesOutsideRelease(ss, id);
            var ds' := DiagramsOutsideRelease(ds, id);
            && StageLinks(ss', rs')
            && TaskLinks(TasksOutside(ts, gone), ss')
            && BlockerLinks(BlockersOutside(bs, gone), ss')
            && DiagramLinks(ds', rs')
            && NodeLinks(NodesOutside(ns, DiagramsOf(ds, id)), ds')
            && LogLinks(DetachAll(es, Some(id), gone), rs', ss')
  {
    var gone := StagesOf(ss, id);
    var rs', ss' := ReleasesExcept(rs, id), StagesOutsideRelease(ss, id);
    var ds' := DiagramsOutsideRelease(ds, id);
    forall s | s in ss' ensures s.releaseId in ReleaseIds(rs') {
      var r :| r in rs && r.id == s.releaseId;
      assert r in rs';
    }
    forall d | d in ds' ensures d.releaseId in ReleaseIds(rs') {
      var r :| r in rs && r.id == d.releaseId;
      assert r in rs';
    }
    forall sid | sid in StageIds(ss) && sid !in gone ensures sid in StageIds(ss') {
      var s :| s in ss && s.id == sid;
      assert s in ss';
    }
    forall n | n in NodesOutside(ns, DiagramsOf(ds, id)) ensures n.diagramId in DiagramIds(ds') {
      var d :| d in ds && d.id == n.diagramId;
      assert d in ds';
    }
    var es' := DetachAll(es, Some(id), gone);
    forall i | 0 <= i < |es'| ensures EntryLinked(es'[i], rs', ss') {
      var e := es[i];
      assert e in es;
      if e.releaseId.Some? && e.releaseId.value != id {
        var r :| r in rs && r.id == e.releaseId.value;
        assert r in rs';
      }
    }
  }

  /** Two diagrams left by a release delete are two distinct diagrams of the old table, hence of distinct releases. */
  lemma DistinctFilteredDiagrams(ds: seq<Diagram>, id: Id, i: nat, j: nat)
    requires Ascending(ds, DiagramKey) && OneDiagramPerRelease(ds)
    requires i < j < |DiagramsOutsideRelease(ds, id)|
    ensures DiagramsOutsideRelease(ds, id)[i].releaseId != DiagramsOutsideRelease(ds, id)[j].releaseId
  {
    var f := DiagramsOutsideRelease(ds, id);
    assert DiagramKey(f[i]) < DiagramKey(f[j]);
    assert f[i] in ds && f[j] in ds;
    var a :| 0 <= a < |ds| && ds[a] == f[i];
    var b :| 0 <= b < |ds| && ds[b] == f[j];
    assert a != b;
    if a < b {
      assert ds[a].releaseId != ds[b].releaseId;
    } else {
      assert ds[b].releaseId != ds[a].releaseId;
    }
  }

  /** Rewriting a diagram in place (same id, same release) keeps every invariant. */
  lemma ReplaceDiagramKeeps(db: Snapshot, d: Diagram, row: Diagram)
    requires Consistent(db)
    requires d in db.diagrams && row.id == d.id && row.releaseId == d.releaseId
    ensures Consistent(db.(diagrams := ReplaceDiagram(db.diagrams, d.id, row)))
    ensures var u := ReplaceDiagram(db.diagrams, d.id, row);
            FindDiagramOf(u, d.releaseId) == Some(row) && DiagramsOf(u, d.releaseId) == {d.id}
  {
    var ds := db.diagrams;
    var u := ReplaceDiagram(ds, d.id, row);
    SameDiagramKeys(ds, u, db.releases, db.nextId);
    ReplaceDiagramFound(ds, d, row);
  }

  /** Rewriting a diagram with its own values changes nothing. */
  lemma RewriteSameDiagram(db: Snapshot, d: Diagram)
    requires Consistent(db) && d in db.diagrams
    ensures db.(diagrams := ReplaceDiagram(db.diagrams, d.id, d)) == db
  {
    ReplaceDiagramFound(db.diagrams, d, d);
  }

  /** Rewriting diagram rows without touching their ids or releases keeps every property of the diagram table. */
  lemma SameDiagramKeys(ds: seq<Diagram>, u: seq<Diagram>, rs: seq<Release>, nextId: nat)
    requires |u| == |ds|
    requires forall i :: 0 <= i < |ds| ==> u[i].releaseId == ds[i].releaseId && u[i].id == ds[i].id
    ensures DiagramsFormed(ds, nextId) ==> DiagramsFormed(u, nextId)
    ensures OneDiagramPerRelease(ds) ==> OneDiagramPerRelease(u)
    ensures DiagramLinks(ds, rs) ==> DiagramLinks(u, rs)
    ensures DiagramIds(u) == DiagramIds(ds)
  {
    assert forall i :: 0 <= i < |ds| ==> DiagramKey(u[i]) == DiagramKey(ds[i]);
    forall x | x in u ensures exists y :: y in ds && y.id == x.id && y.releaseId == x.releaseId {
      var i :| 0 <= i < |u| && u[i] == x;
      assert ds[i] in ds;
    }
    forall x | x in DiagramIds(ds) ensures x in DiagramIds(u) {
      var i :| 0 <= i < |ds| && ds[i].id == x;
      assert u[i] in u;
    }
  }


  /** A new diagram for a release that has none keeps the store consistent and is the release's only diagram. */
  lemma AppendDiagramKeeps(db: Snapshot, d: Diagram)
    requires Consistent(db)
    requires d.id == db.nextId && d.releaseId in ReleaseIds(db.releases)
    requires forall x :: x in db.diagrams ==> x.releaseId != d.releaseId
    ensures var u := db.diagrams + [d];
            && Consistent(db.(diagrams := u, nextId := db.nextId + 1, clock := db.clock + 1))
            && FindDiagramOf(u, d.releaseId) == Some(d)
            && DiagramsOf(u, d.releaseId) == {d.id}
  {
    var ds := db.diagrams;
    var u := ds + [d];
    DiagramAppended(ds, d, db.releases, db.nextId);
    OnlyRowOfRelease(u, |ds|);
    BumpKeeps(db);
    assert NodeLinks(db.diagramNodes, u);
  }

  /** Drawing an id and a timestamp keeps the store consistent. */
  lemma BumpKeeps(db: Snapshot)
    requires Consistent(db)
    ensures Consistent(db.(nextId := db.nextId + 1, clock := db.clock + 1))
  {
  }

  /** Appending a diagram with the next id, for an existing release that has none. */
  lemma DiagramAppended(ds: seq<Diagram>, d: Diagram, rs: seq<Release>, n: nat)
    requires DiagramsFormed(ds, n) && OneDiagramPerRelease(ds) && DiagramLinks(ds, rs)
    requires d.id == n && d.releaseId in ReleaseIds(rs)
    requires forall x :: x in ds ==> x.releaseId != d.releaseId
    ensures var u := ds + [d];
            && DiagramsFormed(u, n + 1) && OneDiagramPerRelease(u) && DiagramLinks(u, rs)
            && DiagramIds(ds) <= DiagramIds(u)
            && u[|ds|] == d && forall i :: 0 <= i < |ds| ==> u[i].releaseId != d.releaseId
  {
    var u := ds + [d];
    assert forall i :: 0 <= i < |ds| ==> u[i] == ds[i] && ds[i] in ds;
  }

  /** After the rewrite, the release's one diagram is the rewritten row. */
  lemma ReplaceDiagramFound(ds: seq<Diagram>, d: Diagram, row: Diagram)
    requires Ascending(ds, DiagramKey) && OneDiagramPerRelease(ds)
    requires d in ds && row.id == d.id && row.releaseId == d.releaseId
    ensures var u := ReplaceDiagram(ds, d.id, row);
            && FindDiagramOf(u, d.releaseId) == Some(row)
            && DiagramsOf(u, d.releaseId) == {d.id}
            && (row == d ==> u == ds)
  {
    var u := ReplaceDiagram(ds, d.id, row);
    var k :| 0 <= k < |ds| && ds[k] == d;
    DiagramAloneAt(ds, k);
    assert u[k] == row;
    assert forall i :: 0 <= i < |u| && i != k ==> u[i] == ds[i];
    OnlyRowOfRelease(u, k);
    assert row in u;
    if row == d {
      assert forall i :: 0 <= i < |u| ==> u[i] == ds[i];
    }
  }

  /** In a table with increasing ids and one diagram per release, row `k` shares neither its id nor its release with another row. */
  lemma DiagramAloneAt(ds: seq<Diagram>, k: int)
    requires Ascending(ds, DiagramKey) && OneDiagramPerRelease(ds) && 0 <= k < |ds|
    ensures forall i :: 0 <= i < |ds| && i != k ==> ds[i].releaseId != ds[k].releaseId && ds[i].id != ds[k].id
  {
    forall i | 0 <= i < |ds| && i != k ensures ds[i].releaseId != ds[k].releaseId && ds[i].id != ds[k].id {
      if i < k {
        assert DiagramKey(ds[i]) < DiagramKey(ds[k]);
      } else {
        assert DiagramKey(ds[k]) < DiagramKey(ds[i]);
      }
    }
  }

  /** The only row of its release is what a lookup by release finds, and the release's only id. */
  lemma OnlyRowOfRelease(u: seq<Diagram>, k: int)
    requires 0 <= k < |u|
    requires forall i :: 0 <= i < |u| && i != k ==> u[i].releaseId != u[k].releaseId
    ensures FindDiagramOf(u, u[k].releaseId) == Some(u[k])
    ensures DiagramsOf(u, u[k].releaseId) == {u[k].id}
  {
    assert u[k] in u;
    forall x | x in u && x.releaseId == u[k].releaseId ensures x == u[k] {
      var i :| 0 <= i < |u| && u[i] == x;
    }
  }


  class DatabaseStorage {
    var releases: seq<Release>
    var stages: seq<Stage>
    var tasks: seq<Task>
    var blockers: seq<Blocker>
    var diagrams: seq<Diagram>
    var diagramNodes: seq<DiagramNode>
    var activityLog: seq<ActivityEntry>
    var nextId: nat
    var clock: Timestamp

    ghost function State(): Snapshot
      reads this
    {
      Snapshot(releases, stages, tasks, blockers, diagrams, diagramNodes, activityLog, nextId, clock)
    }

    ghost predicate Valid()
      reads this
    {
      Consistent(State())
    }

    constructor ()
      ensures Valid()
      ensures State() == Snapshot([], [], [], [], [], [], [], 0, 0)
    {
      releases, stages, tasks, blockers := [], [], [], [];
      diagrams, diagramNodes, activityLog := [], [], [];
      nextId, clock := 0, 0;
      EmptyConsistent();
    }

    /** `new Date()`: reads the clock, which has moved on since the last reading. */
    method Now() returns (t: Timestamp)
      requires Valid()
      modifies this
      ensures Valid()
      ensures t == old(clock) + 1
      ensures State() == old(State()).(clock := t)
    {
      clock := clock + 1;
      t := clock;
    }

    // ------------------------------------------------------------ releases

    /** `getReleases`: only the team filter applies (a missing or empty team means all); `status` is accepted and ignored. Newest first. */
    function GetReleases(team: Option<string>, status: Option<string>): (r: seq<Release>)
      reads this
      requires Valid()
      ensures forall x :: x in r <==> x in releases && (Truthy(team) ==> x.team == team)
      ensures Descending(r, ReleaseTime)
    {
      var m := if Truthy(team) then ReleasesOfTeam(releases, team) else releases;
      ReverseAscending(m, ReleaseTime);
      Reverse(m)
    }

    function GetRelease(id: Id): (r: Option<Release>)
      reads this
      ensures r.Some? <==> id in ReleaseIds(releases)
      ensures r.Some? ==> r.value in releases && r.value.id == id
    {
      FindRelease(releases, id)
    }

    method CreateRelease(n: NewRelease) returns (r: Release)
      requires Valid()
      modifies this
      ensures Valid()
      ensures r.id !in old(ReleaseIds(releases))
      ensures r == Release(old(nextId), n.name, n.version, n.changeWindow, n.team, n.createdBy, old(clock) + 1)
      ensures State() == old(State()).(releases := old(releases) + [r], nextId := old(nextId) + 1, clock := old(clock) + 1)
    {
      clock := clock + 1;
      r := Release(nextId, n.name, n.version, n.changeWindow, n.team, n.createdBy, clock);
      releases := releases + [r];
      nextId := nextId + 1;
    }

    /** `updateRelease`: only the supplied fields of the row with that id change; an update naming no field fails. */
    method UpdateRelease(id: Id, p: ReleasePatch) returns (o: Outcome<Release>)
      requires Valid()
      modifies this
      ensures Valid()
      ensures o.Refused? <==> EmptyReleasePatch(p)
      ensures o.Absent? <==> !EmptyReleasePatch(p) && id !in old(ReleaseIds(releases))
      ensures o.Written? ==> old(GetRelease(id)).Some? && o.row == ApplyRelease(old(GetRelease(id)).value, p)
      ensures o.Written? ==> State() == old(State()).(releases := UpdateReleases(old(releases), id, p))
      ensures !o.Written? ==> State() == old(State())
    {
      if EmptyReleasePatch(p) {
        return Refused;
      }
      var found := GetRelease(id);
      if found.None? {
        return Absent;
      }
      UpdateReleaseKeeps(State(), id, p);
      releases := UpdateReleases(releases, id, p);
      o := Written(ApplyRelease(found.value, p));
    }

    /** `deleteRelease`: cascades to the release's stages (and so their tasks and blockers) and diagrams (and so their nodes); log entries lose their references. */
    method DeleteRelease(id: Id) returns (existed: bool)
      requires Valid()
      modifies this
      ensures Valid()
      ensures existed <==> id in old(ReleaseIds(releases))
      ensures id !in ReleaseIds(releases)
      ensures forall s :: s in stages <==> s in old(stages) && s.releaseId != id
      ensures forall d :: d in diagrams <==> d in old(diagrams) && d.releaseId != id
      ensures |activityLog| == |old(activityLog)|
      ensures var gone := old(StagesOf(stages, id));
              State() == old(State()).(
                releases := ReleasesExcept(old(releases), id),
                stages := StagesOutsideRelease(old(stages), id),
                tasks := TasksOutside(old(tasks), gone),
                blockers := BlockersOutside(old(blockers), gone),
                diagrams := DiagramsOutsideRelease(old(diagrams), id),
                diagramNodes := NodesOutside(old(diagramNodes), old(DiagramsOf(diagrams, id))),
                activityLog := DetachAll(old(activityLog), Some(id), gone))
    {
      existed := id in ReleaseIds(releases);
      var db := AfterReleaseDelete(Snapshot(releases, stages, tasks, blockers, diagrams, diagramNodes, activityLog, nextId, clock), id);
      DeleteReleaseKeeps(State(), id);
      Restore(db);
    }

    /** Replaces every table by the one in `db`, which keeps the counters. */
    method Restore(db: Snapshot)
      requires Consistent(db) && db.nextId == nextId && db.clock == clock
      modifies this
      ensures State() == db
      ensures Valid()
    {
      releases, stages, tasks, blockers := db.releases, db.stages, db.tasks, db.blockers;
      diagrams, diagramNodes, activityLog := db.diagrams, db.diagramNodes, db.activityLog;
    }

    // -------------------------------------------------------------- stages

    /** `getStagesByRelease`: no ordering is requested, so the rows come in table order. */
    function GetStagesByRelease(releaseId: Id): (r: seq<Stage>)
      reads this
      requires Valid()
      ensures forall s :: s in r <==> s in stages && s.releaseId == releaseId
      ensures IsSubsequence(r, stages)
      ensures Ascending(r, StageKey)
    {
      StagesIn(stages, releaseId)
    }

    function GetStage(id: Id): (r: Option<Stage>)
      reads this
      ensures r.Some? <==> id in StageIds(stages)
      ensures r.Some? ==> r.value in stages && r.value.id == id
    {
      FindStage(stages, id)
    }

    /** `createStage`: refused when the release does not exist. */
    method CreateStage(n: NewStage) returns (o: Outcome<Stage>)
      requires Valid()
      modifies this
      ensures Valid()
      ensures o.Refused? <==> n.releaseId !in old(ReleaseIds(releases))
      ensures !o.Absent?
      ensures o.Refused? ==> State() == old(State())
      ensures o.Written? ==> o.row.id !in old(StageIds(stages))
      ensures o.Written? ==> o.row == Stage(old(nextId), n.releaseId, n.env, n.status, n.approver, n.startedAt, n.endedAt, old(clock) + 1)
      ensures o.Written? ==> State() == old(State()).(stages := old(stages) + [o.row], nextId := old(nextId) + 1, clock := old(clock) + 1)
    {
      if n.releaseId !in ReleaseIds(releases) {
        return Refused;
      }
      clock := clock + 1;
      var s := Stage(nextId, n.releaseId, n.env, n.status, n.approver, n.startedAt, n.endedAt, clock);
      stages := stages + [s];
      nextId := nextId + 1;
      o := Written(s);
    }

    /** `updateStage`: only the supplied fields of the row with that id change; moving the stage to a missing release, or naming no field, fails. */
    method UpdateStage(id: Id, p: StagePatch) returns (o: Outcome<Stage>)
      requires Valid()
      modifies this
      ensures Valid()
      ensures o.Refused? <==> EmptyStagePatch(p)
                              || (id in old(StageIds(stages)) && p.releaseId.Set? && p.releaseId.value !in old(ReleaseIds(releases)))
      ensures o.Absent? <==> !EmptyStagePatch(p) && id !in old(StageIds(stages))
      ensures o.Written? ==> old(GetStage(id)).Some? && o.row == ApplyStage(old(GetStage(id)).value, p)
      ensures o.Written? ==> State() == old(State()).(stages := UpdateStages(old(stages), id, p))
      ensures !o.Written? ==> State() == old(State())
    {
      if EmptyStagePatch(p) {
        return Refused;
      }
      var found := GetStage(id);
      if found.None? {
        return Absent;
      }
      if p.releaseId.Set? && p.releaseId.value !in ReleaseIds(releases) {
        return Refused;
      }
      UpdateStageKeeps(State(), id, p);
      stages := UpdateStages(stages, id, p);
      o := Written(ApplyStage(found.value, p));
    }

    /** `deleteStage`: cascades to the stage's tasks and blockers; log entries lose their stage reference. */
    method DeleteStage(id: Id) returns (existed: bool)
      requires Valid()
      modifies this
      ensures Valid()
      ensures existed <==> id in old(StageIds(stages))
      ensures id !in StageIds(stages)
      ensures forall s :: s in stages <==> s in old(stages) && s.id != id
      ensures State() == old(State()).(
                stages := StagesExcept(old(stages), id),
                tasks := TasksOutside(old(tasks), {id}),
                blockers := BlockersOutside(old(blockers), {id}),
                activityLog := DetachAll(old(activityLog), None, {id}))
    {
      existed := id in StageIds(stages);
      DeleteStageKeeps(State(), id);
      stages := StagesExcept(stages, id);
      tasks := TasksOutside(tasks, {id});
      blockers := BlockersOutside(blockers, {id});
      activityLog := DetachAll(activityLog, None, {id});
    }

    // --------------------------------------------------------------- tasks

    /** `getTasksByStage`: the stage's tasks, least recently updated first. */
    function GetTasksByStage(stageId: Id): (r: seq<Task>)
      reads this
      ensures forall t :: t in r <==> t in tasks && t.stageId == stageId
      ensures multiset(r) == multiset(TasksIn(tasks, stageId))
      ensures SortedByUpdate(r)
    {
      var r := SortByUpdate(TasksIn(tasks, stageId));
      assert forall t :: t in r <==> t in multiset(TasksIn(tasks, stageId));
      r
    }

    function GetTask(id: Id): (r: Option<Task>)
      reads this
      ensures r.Some? <==> id in TaskIds(tasks)
      ensures r.Some? ==> r.value in tasks && r.value.id == id
    {
      FindTask(tasks, id)
    }

    /** `createTask`: refused when the stage does not exist. */
    method CreateTask(n: NewTask) returns (o: Outcome<Task>)
      requires Valid()
      modifies this
      ensures Valid()
      ensures o.Refused? <==> n.stageId !in old(StageIds(stages))
      ensures !o.Absent?
      ensures o.Refused? ==> State() == old(State())
      ensures o.Written? ==> o.row.id !in old(TaskIds(tasks))
      ensures o.Written? ==> o.row == Task(old(nextId), n.stageId, n.title, n.details, n.owner, n.required, n.status, n.evidenceUrl, old(clock) + 1)
      ensures o.Written? ==> State() == old(State()).(tasks := old(tasks) + [o.row], nextId := old(nextId) + 1, clock := old(clock) + 1)
    {
      if n.stageId !in StageIds(stages) {
        return Refused;
      }
      clock := clock + 1;
      var t := Task(nextId, n.stageId, n.title, n.details, n.owner, n.required, n.status, n.evidenceUrl, clock);
      tasks := tasks + [t];
      nextId := nextId + 1;
      o := Written(t);
    }

    /** `updateTask`: only the supplied fields of the row with that id change; moving the task to a missing stage, or naming no field, fails. */
    method UpdateTask(id: Id, p: TaskPatch) returns (o: Outcome<Task>)
      requires Valid()
      modifies this
      ensures Valid()
      ensures o.Refused? <==> EmptyTaskPatch(p)
                              || (id in old(TaskIds(tasks)) && p.stageId.Set? && p.stageId.value !in old(StageIds(stages)))
      ensures o.Absent? <==> !EmptyTaskPatch(p) && id !in old(TaskIds(tasks))
      ensures o.Written? ==> old(GetTask(id)).Some? && o.row == ApplyTask(old(GetTask(id)).value, p)
      ensures o.Written? ==> State() == old(State()).(tasks := UpdateTasks(old(tasks), id, p))
      ensures !o.Written? ==> State() == old(State())
    {
      if EmptyTaskPatch(p) {
        return Refused;
      }
      var found := GetTask(id);
      if found.None? {
        return Absent;
      }
      if p.stageId.Set? && p.stageId.value !in StageIds(stages) {
        return Refused;
      }
      UpdateTaskKeeps(State(), id, p);
      tasks := UpdateTasks(tasks, id, p);
      o := Written(ApplyTask(found.value, p));
    }

    method DeleteTask(id: Id) returns (existed: bool)
      requires Valid()
      modifies this
      ensures Valid()
      ensures existed <==> id in old(TaskIds(tasks))
      ensures id !in TaskIds(tasks)
      ensures forall t :: t in tasks <==> t in old(tasks) && t.id != id
      ensures State() == old(State()).(tasks := TasksExcept(old(tasks), id))
    {
      existed := id in TaskIds(tasks);
      tasks := TasksExcept(tasks, id);
    }

    // ------------------------------------------------------------ blockers

    /** `getBlockersByStage`: the stage's blockers (only the active ones when asked), newest first. */
    function GetBlockersByStage(stageId: Id, activeOnly: bool): (r: seq<Blocker>)
      reads this
      requires Valid()
      ensures forall b :: b in r <==> b in blockers && b.stageId == stageId && (activeOnly ==> b.active)
      ensures Descending(r, BlockerTime)
    {
      var m := BlockersIn(blockers, stageId, activeOnly);
      ReverseAscending(m, BlockerTime);
      Reverse(m)
    }

    function GetBlocker(id: Id): (r: Option<Blocker>)
      reads this
      ensures r.Some? <==> id in BlockerIds(blockers)
      ensures r.Some? ==> r.value in blockers && r.value.id == id
    {
      FindBlocker(blockers, id)
    }

    /** `createBlocker`: refused when the stage does not exist. */
    method CreateBlocker(n: NewBlocker) returns (o: Outcome<Blocker>)
      requires Valid()
      modifies this
      ensures Valid()
      ensures o.Refused? <==> n.stageId !in old(StageIds(stages))
      ensures !o.Absent?
      ensures o.Refused? ==> State() == old(State())
      ensures o.Written? ==> o.row.id !in old(BlockerIds(blockers))
      ensures o.Written? ==> o.row == Blocker(old(nextId), n.stageId, n.severity, n.reason, n.owner, n.eta, n.active, old(clock) + 1)
      ensures o.Written? ==> State() == old(State()).(blockers := old(blockers) + [o.row], nextId := old(nextId) + 1, clock := old(clock) + 1)
    {
      if n.stageId !in StageIds(stages) {
        return Refused;
      }
      clock := clock + 1;
      var b := Blocker(nextId, n.stageId, n.severity, n.reason, n.owner, n.eta, n.active, clock);
      blockers := blockers + [b];
      nextId := nextId + 1;
      o := Written(b);
    }

    /** `updateBlocker`: only the supplied fields of the row with that id change; moving the blocker to a missing stage, or naming no field, fails. */
    method UpdateBlocker(id: Id, p: BlockerPatch) returns (o: Outcome<Blocker>)
      requires Valid()
      modifies this
      ensures Valid()
      ensures o.Refused? <==> EmptyBlockerPatch(p)
                              || (id in old(BlockerIds(blockers)) && p.stageId.Set? && p.stageId.value !in old(StageIds(stages)))
      ensures o.Absent? <==> !EmptyBlockerPatch(p) && id !in old(BlockerIds(blockers))
      ensures o.Written? ==> old(GetBlocker(id)).Some? && o.row == ApplyBlocker(old(GetBlocker(id)).value, p)
      ensures o.Written? ==> State() == old(State()).(blockers := UpdateBlockers(old(blockers), id, p))
      ensures !o.Written? ==> State() == old(State())
    {
      if EmptyBlockerPatch(p) {
        return Refused;
      }
      var found := GetBlocker(id);
      if found.None? {
        return Absent;
      }
      if p.stageId.Set? && p.stageId.value !in StageIds(stages) {
        return Refused;
      }
      UpdateBlockerKeeps(State(), id, p);
      blockers := UpdateBlockers(blockers, id, p);
      o := Written(ApplyBlocker(found.value, p));
    }

    method DeleteBlocker(id: Id) returns (existed: bool)
      requires Valid()
      modifies this
      ensures Valid()
      ensures existed <==> id in old(BlockerIds(blockers))
      ensures id !in BlockerIds(blockers)
      ensures forall b :: b in blockers <==> b in old(blockers) && b.id != id
      ensures State() == old(State()).(blockers := BlockersExcept(old(blockers), id))
    {
      existed := id in BlockerIds(blockers);
      blockers := BlockersExcept(blockers, id);
    }

    // ------------------------------------------------------------ diagrams

    function GetDiagramByRelease(releaseId: Id): (r: Option<Diagram>)
      reads this
      ensures r.None? <==> forall d :: d in diagrams ==> d.releaseId != releaseId
      ensures r.Some? ==> r.value in diagrams && r.value.releaseId == releaseId
    {
      FindDiagramOf(diagrams, releaseId)
    }

    /**
     * `updateDiagramLayout`: replaces the layout of the release's diagram, or
     * inserts a diagram holding just the layout when the release has none
     * (refused when the release does not exist). `layout` is absent
     * (`undefined`), `null` (`Set(None)`) or a layout. Rewriting an existing
     * diagram with an absent layout names no column and fails; inserting with
     * an absent layout leaves the column null. Afterwards the release has
     * exactly one diagram, and it holds the layout.
     */
    method UpdateDiagramLayout(releaseId: Id, layout: Field<Option<Layouts.Layout>>) returns (o: Outcome<Diagram>)
      requires Valid()
      modifies this
      ensures Valid()
      ensures !o.Absent?
      ensures o.Refused? <==> (old(GetDiagramByRelease(releaseId)).Some? && layout.Keep?)
                              || (old(GetDiagramByRelease(releaseId)).None? && releaseId !in old(ReleaseIds(releases)))
      ensures o.Refused? ==> State() == old(State())
      ensures o.Written? ==> GetDiagramByRelease(releaseId) == Some(o.row) && o.row.layout == layout.Apply(None)
      ensures o.Written? ==> DiagramsOf(diagrams, releaseId) == {o.row.id}
      ensures old(GetDiagramByRelease(releaseId)).Some? && layout.Set? ==>
                var d := old(GetDiagramByRelease(releaseId)).value;
                && o == Written(d.(layout := layout.value))
                && State() == old(State()).(diagrams := ReplaceDiagram(old(diagrams), d.id, o.row))
      ensures old(GetDiagramByRelease(releaseId)).None? && o.Written? ==>
                o.row == Diagram(old(nextId), releaseId, None, layout.Apply(None), old(clock) + 1)
                && State() == old(State()).(diagrams := old(diagrams) + [o.row], nextId := old(nextId) + 1, clock := old(clock) + 1)
      ensures old(GetDiagramByRelease(releaseId)).Some? && layout == Set(old(GetDiagramByRelease(releaseId)).value.layout) ==>
                State() == old(State())
    {
      var existing := GetDiagramByRelease(releaseId);
      if existing.Some? && layout.Keep? {
        o := Refused;
      } else if existing.Some? {
        var d := existing.value;
        var row := d.(layout := layout.value);
        RewriteSameDiagram(State(), d);
        RewriteDiagram(d, row);
        o := Written(row);
      } else if releaseId !in ReleaseIds(releases) {
        o := Refused;
      } else {
        o := InsertDiagram(releaseId, None, layout.Apply(None));
      }
    }

    /** `createOrUpdateDiagram`: like the layout upsert, but sets every supplied column. */
    method CreateOrUpdateDiagram(releaseId: Id, name: Field<Option<string>>, layout: Field<Option<Layouts.Layout>>) returns (o: Outcome<Diagram>)
      requires Valid()
      modifies this
      ensures Valid()
      ensures !o.Absent?
      ensures o.Refused? <==> releaseId !in old(ReleaseIds(releases))
      ensures o.Refused? ==> State() == old(State())
      ensures o.Written? ==> GetDiagramByRelease(releaseId) == Some(o.row) && DiagramsOf(diagrams, releaseId) == {o.row.id}
      ensures old(GetDiagramByRelease(releaseId)).Some? ==>
                var d := old(GetDiagramByRelease(releaseId)).value;
                && o == Written(d.(name := name.Apply(d.name), layout := layout.Apply(d.layout)))
                && State() == old(State()).(diagrams := ReplaceDiagram(old(diagrams), d.id, o.row))
      ensures old(GetDiagramByRelease(releaseId)).None? && o.Written? ==>
                o.row == Diagram(old(nextId), releaseId, name.Apply(None), layout.Apply(None), old(clock) + 1)
                && State() == old(State()).(diagrams := old(diagrams) + [o.row], nextId := old(nextId) + 1, clock := old(clock) + 1)
    {
      var existing := GetDiagramByRelease(releaseId);
      if existing.Some? {
        var d := existing.value;
        var row := d.(name := name.Apply(d.name), layout := layout.Apply(d.layout));
        RewriteDiagram(d, row);
        o := Written(row);
      } else if releaseId !in ReleaseIds(releases) {
        o := Refused;
      } else {
        o := InsertDiagram(releaseId, name.Apply(None), layout.Apply(None));
      }
    }

    /** The update branch of both upserts: rewrites the release's diagram in place, keeping its id and release. */
    method RewriteDiagram(d: Diagram, row: Diagram)
      requires Valid()
      requires GetDiagramByRelease(d.releaseId) == Some(d) && row.id == d.id && row.releaseId == d.releaseId
      modifies this
      ensures Valid()
      ensures State() == old(State()).(diagrams := ReplaceDiagram(old(diagrams), d.id, row))
      ensures GetDiagramByRelease(d.releaseId) == Some(row) && DiagramsOf(diagrams, d.releaseId) == {row.id}
    {
      ghost var db := State();
      var u := ReplaceDiagram(diagrams, d.id, row);
      ReplaceDiagramKeeps(db, d, row);
      diagrams := u;
      assert State() == db.(diagrams := u);
    }

    /** The insert branch of both upserts, for a release that exists and has no diagram. */
    method InsertDiagram(releaseId: Id, name: Option<string>, layout: Option<Layouts.Layout>) returns (o: Outcome<Diagram>)
      requires Valid()
      requires releaseId in ReleaseIds(releases)
      requires GetDiagramByRelease(releaseId).None?
      modifies this
      ensures Valid()
      ensures o == Written(Diagram(old(nextId), releaseId, name, layout, old(clock) + 1))
      ensures GetDiagramByRelease(releaseId) == Some(o.row) && DiagramsOf(diagrams, releaseId) == {o.row.id}
      ensures State() == old(State()).(diagrams := old(diagrams) + [o.row], nextId := old(nextId) + 1, clock := old(clock) + 1)
    {
      ghost var db := State();
      var d := Diagram(nextId, releaseId, name, layout, clock + 1);
      AppendDiagramKeeps(db, d);
      diagrams, nextId, clock := diagrams + [d], nextId + 1, clock + 1;
      assert State() == db.(diagrams := db.diagrams + [d], nextId := db.nextId + 1, clock := db.clock + 1);
      assert FindDiagramOf(diagrams, releaseId) == Some(d) && DiagramsOf(diagrams, releaseId) == {d.id};
      o := Written(d);
    }

    // -------------------------------------------------------- activity log

    /**
     * `getActivityLog`: the entries that match every supplied filter, newest
     * first, at most 100 of them; an entry left out is older than all those
     * returned.
     */
    function GetActivityLog(releaseId: Option<Id>, stageId: Option<Id>): (r: seq<ActivityEntry>)
      reads this
      requires Valid()
      ensures |r| <= ActivityLimit
      ensures forall e :: e in r ==> e in activityLog && MatchesFilters(e, releaseId, stageId)
      ensures Descending(r, EntryTime)
      ensures forall e :: e in activityLog && MatchesFilters(e, releaseId, stageId) && e !in r ==>
                |r| == ActivityLimit && forall x :: x in r ==> e.at < x.at
    {
      var m := EntriesMatching(activityLog, releaseId, stageId);
      NewestMatchingFacts(activityLog, releaseId, stageId);
      Reverse(m)[..if |m| < ActivityLimit then |m| else ActivityLimit]
    }

    /** `createActivityLog`: appends one entry; refused when it names a missing release or stage. */
    method CreateActivityLog(n: NewActivity) returns (o: Outcome<ActivityEntry>)
      requires Valid()
      modifies this
      ensures Valid()
      ensures !o.Absent?
      ensures o.Refused? <==> !(n.releaseId.Some? ==> n.releaseId.value in old(ReleaseIds(releases)))
                              || !(n.stageId.Some? ==> n.stageId.value in old(StageIds(stages)))
      ensures o.Refused? ==> State() == old(State())
      ensures o.Written? ==> o.row == ActivityEntry(old(nextId), n.releaseId, n.stageId, n.actor, n.action, n.meta, old(clock) + 1)
      ensures o.Written? ==> State() == old(State()).(activityLog := old(activityLog) + [o.row], nextId := old(nextId) + 1, clock := old(clock) + 1)
    {
      if (n.releaseId.Some? && n.releaseId.value !in ReleaseIds(releases))
         || (n.stageId.Some? && n.stageId.value !in StageIds(stages)) {
        return Refused;
      }
      clock := clock + 1;
      var e := ActivityEntry(nextId, n.releaseId, n.stageId, n.actor, n.action, n.meta, clock);
      activityLog := activityLog + [e];
      nextId := nextId + 1;
      o := Written(e);
    }
  }
}
