/**
 * The HTTP handlers of the release API, as operations on one
 * `DatabaseStorage`. A handler's reply is a `Response`: the status code with
 * the body it carries. An exception a handler passes on to the error
 * middleware (a refused write) is `ServerError`.
 */
module Routes {
  import opened Common
  import opened Text
  import opened Schema
  import opened Tables
  import opened Storage
  import Dashboard
  import Layouts

  /** Why a request was answered with status 400. */
  datatype Rejection = ValidationError | RequiredTasksPending

  /** 200 with a body, 201 with the created row, 204, 404, 400 or 500. */
  datatype Response<T> = Ok(body: T) | Created(body: T) | NoContent | NotFound | BadRequest(why: Rejection) | ServerError

  /** The environments a new release gets a stage for, in creation order. */
  const DefaultEnvs: seq<Env> := [Staging, Uat, Prod]

  /** The actor recorded for changes nobody signed. */
  const SystemActor: string := "system"

  /** `es'` is `es` with one entry appended, carrying these references, this actor, action and meta. */
  ghost predicate Appended(es: seq<ActivityEntry>, es': seq<ActivityEntry>, releaseId: Option<Id>, stageId: Option<Id>,
                           actor: string, action: string, meta: Meta) {
    && |es'| == |es| + 1 && es'[..|es|] == es
    && es'[|es|].releaseId == releaseId && es'[|es|].stageId == stageId
    && es'[|es|].actor == Some(actor) && es'[|es|].action == action && es'[|es|].meta == meta
  }

  /** A stage as release creation seeds it: in release `rid`, for environment `env`, not started, with no approver or dates. */
  predicate Seeded(s: Stage, rid: Id, env: Env) {
    s.releaseId == rid && s.env == env && s.status == NotStarted
    && s.approver == None && s.startedAt == None && s.endedAt == None
  }

  /** The partial update that only sets a stage's status. */
  function StatusPatch(st: StageStatus): (p: StagePatch)
    ensures forall s :: ApplyStage(s, p) == s.(status := st)
  {
    NoStageChanges.(status := Set(st))
  }

  /** Looking a stage up after updating it finds the updated row. */
  lemma {:induction false} FindUpdatedStage(ss: seq<Stage>, id: Id, p: StagePatch)
    requires id in StageIds(ss)
    ensures FindStage(UpdateStages(ss, id, p), id) == Some(ApplyStage(FindStage(ss, id).value, p))
  {
    var u := UpdateStages(ss, id, p);
    if ss[0].id != id {
      assert ss[0] in ss;
      assert u[1..] == UpdateStages(ss[1..], id, p);
      assert id in StageIds(ss[1..]) by {
        var s :| s in ss && s.id == id;
        var i :| 0 <= i < |ss| && ss[i] == s;
        assert ss[1..][i - 1] == s;
      }
      FindUpdatedStage(ss[1..], id, p);
    }
  }

  /** `createActivityLog` for references that exist, which the store accepts. */
  method Log(store: DatabaseStorage, releaseId: Option<Id>, stageId: Option<Id>, actor: string, action: string, meta: Meta)
    requires store.Valid()
    requires releaseId.Some? ==> releaseId.value in ReleaseIds(store.releases)
    requires stageId.Some? ==> stageId.value in StageIds(store.stages)
    modifies store
    ensures store.Valid()
    ensures Appended(old(store.activityLog), store.activityLog, releaseId, stageId, actor, action, meta)
    ensures store.State() == old(store.State()).(activityLog := store.activityLog, nextId := store.nextId, clock := store.clock)
  {
    var o := store.CreateActivityLog(NewActivity(releaseId, stageId, Some(actor), action, meta));
  }

  // ---------------------------------------------------------------- reads

  /** A stage with its tasks (least recently updated first) and blockers (newest first). */
  datatype StageView = StageView(stage: Stage, tasks: seq<Task>, blockers: seq<Blocker>)

  /** A release with its stages in table order. */
  datatype ReleaseView = ReleaseView(release: Release, stages: seq<StageView>)

  /** `v` shows stage `s` with exactly its tasks and its blockers (only the active ones when asked). */
  ghost predicate ViewOf(store: DatabaseStorage, v: StageView, s: Stage, activeOnly: bool)
    reads store
  {
    && v.stage == s
    && (forall t :: t in v.tasks <==> t in store.tasks && t.stageId == s.id)
    && (forall b :: b in v.blockers <==> b in store.blockers && b.stageId == s.id && (activeOnly ==> b.active))
  }

  /** Each stage with its tasks and its blockers (only the active ones when asked). */
  function StageViews(store: DatabaseStorage, ss: seq<Stage>, activeOnly: bool): (r: seq<StageView>)
    reads store
    requires store.Valid()
    ensures |r| == |ss|
    ensures forall i :: 0 <= i < |ss| ==> r[i].stage == ss[i]
    ensures forall i :: 0 <= i < |ss| ==> ViewOf(store, r[i], ss[i], activeOnly)
  {
    seq(|ss|, i reads store requires 0 <= i < |ss| && store.Valid() => ViewFor(store, ss[i], activeOnly))
  }

  /** One stage with its tasks and its blockers. */
  function ViewFor(store: DatabaseStorage, s: Stage, activeOnly: bool): (v: StageView)
    reads store
    requires store.Valid()
    ensures ViewOf(store, v, s, activeOnly)
  {
    StageView(s, store.GetTasksByStage(s.id), store.GetBlockersByStage(s.id, activeOnly))
  }

  /** Views built one per stage show exactly those stages. */
  lemma ViewsCoverStages(vs: seq<StageView>, ss: seq<Stage>)
    requires |vs| == |ss| && forall i :: 0 <= i < |ss| ==> vs[i].stage == ss[i]
    ensures forall s :: s in ss <==> exists i :: 0 <= i < |vs| && vs[i].stage == s
  {
    forall s | s in ss ensures exists i :: 0 <= i < |vs| && vs[i].stage == s {
      var i :| 0 <= i < |ss| && ss[i] == s;
      assert vs[i].stage == s;
    }
  }

  /** `GET /api/releases`: the releases of the team (all of them without one), newest first. */
  function ListReleasesRoute(store: DatabaseStorage, team: Option<string>, status: Option<string>): (r: Response<seq<Release>>)
    reads store
    requires store.Valid()
    ensures r.Ok?
    ensures forall x :: x in r.body <==> x in store.releases && (Truthy(team) ==> x.team == team)
    ensures Descending(r.body, ReleaseTime)
  {
    Ok(store.GetReleases(team, status))
  }

  /** `GET /api/releases/:id`: the release with each of its stages, their tasks and their active blockers. */
  function GetReleaseRoute(store: DatabaseStorage, id: Id): (r: Response<ReleaseView>)
    reads store
    requires store.Valid()
    ensures r.Ok? || r.NotFound?
    ensures r.NotFound? <==> id !in ReleaseIds(store.releases)
    ensures r.Ok? ==> r.body.release in store.releases && r.body.release.id == id
    ensures r.Ok? ==> forall s :: s in store.stages && s.releaseId == id <==>
                        exists i :: 0 <= i < |r.body.stages| && r.body.stages[i].stage == s
    ensures r.Ok? ==> forall i :: 0 <= i < |r.body.stages| ==> ViewOf(store, r.body.stages[i], r.body.stages[i].stage, true)
  {
    match store.GetRelease(id)
    case None => NotFound
    case Some(release) =>
      var ss := store.GetStagesByRelease(id);
      var vs := StageViews(store, ss, true);
      ViewsCoverStages(vs, ss);
      Ok(ReleaseView(release, vs))
  }

  /** `GET /api/stages/:id`: the stage with its tasks and all of its blockers. */
  function GetStageRoute(store: DatabaseStorage, id: Id): (r: Response<StageView>)
    reads store
    requires store.Valid()
    ensures r.Ok? || r.NotFound?
    ensures r.NotFound? <==> id !in StageIds(store.stages)
    ensures r.Ok? ==> r.body.stage in store.stages && r.body.stage.id == id
    ensures r.Ok? ==> forall t :: t in r.body.tasks <==> t in store.tasks && t.stageId == id
    ensures r.Ok? ==> forall b :: b in r.body.blockers <==> b in store.blockers && b.stageId == id
  {
    match store.GetStage(id)
    case None => NotFound
    case Some(stage) => Ok(StageView(stage, store.GetTasksByStage(id), store.GetBlockersByStage(id, false)))
  }

  /** `GET /api/releases/:releaseId/diagram`: 404 when the release has no diagram. */
  function GetDiagramRoute(store: DatabaseStorage, releaseId: Id): (r: Response<Diagram>)
    reads store
    ensures r.Ok? || r.NotFound?
    ensures r.NotFound? <==> forall d :: d in store.diagrams ==> d.releaseId != releaseId
    ensures r.Ok? ==> r.body in store.diagrams && r.body.releaseId == releaseId
  {
    match store.GetDiagramByRelease(releaseId)
    case None => NotFound
    case Some(d) => Ok(d)
  }

  /** `GET /api/activity`: the newest matching entries, newest first, at most 100 of them. */
  function ActivityRoute(store: DatabaseStorage, releaseId: Option<Id>, stageId: Option<Id>): (r: Response<seq<ActivityEntry>>)
    reads store
    requires store.Valid()
    ensures r.Ok? && |r.body| <= ActivityLimit
    ensures forall e :: e in r.body ==> e in store.activityLog && MatchesFilters(e, releaseId, stageId)
    ensures Descending(r.body, EntryTime)
    ensures forall e :: e in store.activityLog && MatchesFilters(e, releaseId, stageId) && e !in r.body ==>
              |r.body| == ActivityLimit && forall x :: x in r.body ==> e.at < x.at
  {
    Ok(store.GetActivityLog(releaseId, stageId))
  }

  // ------------------------------------------------------------- releases

  /**
   * `POST /api/releases`: creates the release, then one not-started stage per
   * environment (staging, uat, prod), then logs `release.created` with the
   * creator (or "system") as actor.
   */
  method CreateReleaseRoute(store: DatabaseStorage, body: ReleaseBody) returns (r: Response<Release>)
    requires store.Valid()
    modifies store
    ensures store.Valid()
    ensures r.Created? || r.BadRequest?
    ensures r.BadRequest? <==> body.name.None?
    ensures r.BadRequest? ==> r.why == ValidationError && store.State() == old(store.State())
    ensures r.Created? ==>
              && r.body.id !in old(ReleaseIds(store.releases))
              && Some(r.body.name) == body.name && r.body.createdBy == body.createdBy
              && r.body.version == body.version && r.body.team == body.team && r.body.changeWindow == body.changeWindow
              && store.releases == old(store.releases) + [r.body]
              && |store.stages| == |old(store.stages)| + |DefaultEnvs|
              && store.stages[..|old(store.stages)|] == old(store.stages)
              && (forall j :: 0 <= j < |DefaultEnvs| ==> Seeded(store.stages[|old(store.stages)| + j], r.body.id, DefaultEnvs[j]))
              && Appended(old(store.activityLog), store.activityLog, Some(r.body.id), None,
                          OrElse(body.createdBy, SystemActor), "release.created", ReleaseCreatedMeta(r.body.name))
              && store.State() == old(store.State()).(releases := store.releases, stages := store.stages,
                   activityLog := store.activityLog, nextId := store.nextId, clock := store.clock)
  {
    var data := ParseRelease(body);
    if data.None? {
      return BadRequest(ValidationError);
    }
    var release := store.CreateRelease(data.value);
    SeedStages(store, release.id);
    Log(store, Some(release.id), None, OrElse(data.value.createdBy, SystemActor), "release.created", ReleaseCreatedMeta(release.name));
    r := Created(release);
  }

  /** The release's default stages: one `not_started` stage per environment, in order, appended to the stage table. */
  method SeedStages(store: DatabaseStorage, rid: Id)
    requires store.Valid() && rid in ReleaseIds(store.releases)
    modifies store
    ensures store.Valid()
    ensures |store.stages| == |old(store.stages)| + |DefaultEnvs|
    ensures store.stages[..|old(store.stages)|] == old(store.stages)
    ensures forall j :: 0 <= j < |DefaultEnvs| ==> Seeded(store.stages[|old(store.stages)| + j], rid, DefaultEnvs[j])
    ensures store.State() == old(store.State()).(stages := store.stages, nextId := store.nextId, clock := store.clock)
  {
    ghost var before := store.State();
    for i := 0 to |DefaultEnvs|
      invariant store.Valid()
      invariant |store.stages| == |before.stages| + i && store.stages[..|before.stages|] == before.stages
      invariant forall j :: 0 <= j < i ==> Seeded(store.stages[|before.stages| + j], rid, DefaultEnvs[j])
      invariant store.State() == before.(stages := store.stages, nextId := store.nextId, clock := store.clock)
    {
      var o := store.CreateStage(NewStage(rid, DefaultEnvs[i], NotStarted, None, None, None));
      assert store.stages[..|before.stages|] == before.stages;
    }
  }

  /**
   * `PATCH /api/releases/:id`: validates, then only the supplied fields
   * change; 400 for a `null` name, 404 for a missing release. A valid body
   * that supplies no field fails with 500 before the release is looked up.
   */
  method PatchReleaseRoute(store: DatabaseStorage, id: Id, body: ReleasePatchBody) returns (r: Response<Release>)
    requires store.Valid()
    modifies store
    ensures store.Valid()
    ensures r.Ok? || r.BadRequest? || r.NotFound? || r.ServerError?
    ensures r.BadRequest? <==> ParseReleasePatch(body).None?
    ensures r.ServerError? <==> ParseReleasePatch(body).Some? && EmptyReleasePatch(ParseReleasePatch(body).value)
    ensures r.NotFound? <==> ParseReleasePatch(body).Some? && !EmptyReleasePatch(ParseReleasePatch(body).value)
                             && id !in old(ReleaseIds(store.releases))
    ensures !r.Ok? ==> store.State() == old(store.State())
    ensures r.Ok? ==>
              var p := ParseReleasePatch(body).value;
              && r.body == ApplyRelease(old(store.GetRelease(id)).value, p)
              && store.State() == old(store.State()).(releases := UpdateReleases(old(store.releases), id, p))
  {
    var data := ParseReleasePatch(body);
    if data.None? {
      return BadRequest(ValidationError);
    }
    var o := store.UpdateRelease(id, data.value);
    if o.Refused? {
      return ServerError;
    } else if o.Absent? {
      return NotFound;
    }
    r := Ok(o.row);
  }

  /** `DELETE /api/releases/:id`: 204 when the release existed (its stages, tasks, blockers and diagram go with it), else 404. */
  method DeleteReleaseRoute(store: DatabaseStorage, id: Id) returns (r: Response<()>)
    requires store.Valid()
    modifies store
    ensures store.Valid()
    ensures r.NoContent? || r.NotFound?
    ensures r.NoContent? <==> id in old(ReleaseIds(store.releases))
    ensures id !in ReleaseIds(store.releases)
    ensures forall s :: s in store.stages <==> s in old(store.stages) && s.releaseId != id
    ensures forall t :: t in store.tasks ==> t in old(store.tasks) && t.stageId !in old(StagesOf(store.stages, id))
    ensures var gone := old(StagesOf(store.stages, id));
            store.State() == old(store.State()).(
              releases := ReleasesExcept(old(store.releases), id),
              stages := StagesOutsideRelease(old(store.stages), id),
              tasks := TasksOutside(old(store.tasks), gone),
              blockers := BlockersOutside(old(store.blockers), gone),
              diagrams := DiagramsOutsideRelease(old(store.diagrams), id),
              diagramNodes := NodesOutside(old(store.diagramNodes), old(DiagramsOf(store.diagrams, id))),
              activityLog := DetachAll(old(store.activityLog), Some(id), gone))
  {
    var existed := store.DeleteRelease(id);
    r := if existed then NoContent else NotFound;
  }

  // --------------------------------------------------------------- stages

  /**
   * `PATCH /api/stages/:id`: validates, updates only the supplied fields, then
   * logs `stage.updated`. A valid body that supplies no field fails with 500
   * before the stage is looked up.
   */
  method PatchStageRoute(store: DatabaseStorage, id: Id, body: StagePatchBody) returns (r: Response<Stage>)
    requires store.Valid()
    modifies store
    ensures store.Valid()
    ensures r.Ok? || r.NotFound? || r.BadRequest? || r.ServerError?
    ensures r.BadRequest? <==> ParseStagePatch(body).None?
    ensures r.NotFound? <==> ParseStagePatch(body).Some? && !EmptyStagePatch(ParseStagePatch(body).value)
                             && id !in old(StageIds(store.stages))
    ensures r.ServerError? <==> ParseStagePatch(body).Some?
                                && (EmptyStagePatch(ParseStagePatch(body).value)
                                    || (id in old(StageIds(store.stages)) && ParseStagePatch(body).value.releaseId.Set?
                                        && ParseStagePatch(body).value.releaseId.value !in old(ReleaseIds(store.releases))))
    ensures !r.Ok? ==> store.State() == old(store.State())
    ensures r.Ok? ==>
              var p := ParseStagePatch(body).value;
              && r.body == ApplyStage(old(store.GetStage(id)).value, p)
              && store.stages == UpdateStages(old(store.stages), id, p)
              && Appended(old(store.activityLog), store.activityLog, Some(r.body.releaseId), Some(id),
                          SystemActor, "stage.updated", StageChangesMeta(p))
              && store.State() == old(store.State()).(stages := store.stages, activityLog := store.activityLog,
                   nextId := store.nextId, clock := store.clock)
  {
    var data := ParseStagePatch(body);
    if data.None? {
      return BadRequest(ValidationError);
    }
    var o := store.UpdateStage(id, data.value);
    if o.Refused? {
      return ServerError;
    } else if o.Absent? {
      return NotFound;
    }
    assert o.row in store.stages by {
      FindUpdatedStage(old(store.stages), id, data.value);
    }
    Log(store, Some(o.row.releaseId), Some(o.row.id), SystemActor, "stage.updated", StageChangesMeta(data.value));
    r := Ok(o.row);
  }

  /** The approval gate: every required task is done. A required task marked `na` still holds approval back. */
  function ApprovalAllowed(tasks: seq<Task>): (b: bool)
    ensures b <==> forall t :: t in tasks && t.required ==> t.status == TaskStatus.Done
  {
    var required := Filter(tasks, (t: Task) => t.required);
    forall t | t in required :: t.status == TaskStatus.Done
  }

  /**
   * `POST /api/stages/:id/approve`: refused with 400 while some required task
   * of the stage is not done; otherwise sets the approver (when one is
   * given), status `done` and the end time, and logs `stage.approved` with
   * the approver (or "system") as actor. Here the end time reaches the
   * update as a date; `ApproveStageRouteAsWritten` hands it over as a string.
   */
  method ApproveStageRoute(store: DatabaseStorage, id: Id, approver: Option<string>, note: Option<string>) returns (r: Response<Stage>)
    requires store.Valid()
    modifies store
    ensures store.Valid()
    ensures r.Ok? || r.NotFound? || r.BadRequest?
    ensures r.NotFound? <==> id !in old(StageIds(store.stages))
    ensures r.BadRequest? <==> id in old(StageIds(store.stages))
                               && exists t :: t in old(store.tasks) && t.stageId == id && t.required && t.status != TaskStatus.Done
    ensures r.BadRequest? ==> r.why == RequiredTasksPending
    ensures !r.Ok? ==> store.State() == old(store.State())
    ensures r.Ok? ==>
              var s := old(store.GetStage(id)).value;
              var p := StagePatch(Keep, Keep, Set(StageStatus.Done), if approver.Some? then Set(approver) else Keep, Keep, Set(Some(old(store.clock) + 1)));
              && r.body == s.(status := StageStatus.Done, approver := if approver.Some? then approver else s.approver,
                             endedAt := Some(old(store.clock) + 1))
              && store.stages == UpdateStages(old(store.stages), id, p)
              && Appended(old(store.activityLog), store.activityLog, Some(s.releaseId), Some(id),
                          OrElse(approver, SystemActor), "stage.approved", ApprovalMeta(note))
              && store.State() == old(store.State()).(stages := store.stages, activityLog := store.activityLog,
                   nextId := store.nextId, clock := store.clock)
  {
    var stage := store.GetStage(id);
    if stage.None? {
      return NotFound;
    }
    var tasks := store.GetTasksByStage(id);
    if !ApprovalAllowed(tasks) {
      return BadRequest(RequiredTasksPending);
    }
    var now := store.Now();
    var p := StagePatch(Keep, Keep, Set(StageStatus.Done), if approver.Some? then Set(approver) else Keep, Keep, Set(ToDriver(DateValue(now))));
    var o := store.UpdateStage(id, p);
    assert stage.value.releaseId in ReleaseIds(store.releases);
    Log(store, Some(stage.value.releaseId), Some(stage.value.id), OrElse(approver, SystemActor), "stage.approved", ApprovalMeta(note));
    r := Ok(o.row);
  }

  /**
   * `POST /api/stages/:id/approve` as the route is written: past the gate it
   * hands the end time to the update as an ISO string rather than a date.
   * The timestamp column converts its value by calling the date's
   * string-conversion method, which a string lacks, so the update throws
   * before any row is written: an approval the gate lets through answers 500,
   * and neither the stage nor the activity log changes.
   */
  method ApproveStageRouteAsWritten(store: DatabaseStorage, id: Id, approver: Option<string>, note: Option<string>) returns (r: Response<Stage>)
    requires store.Valid()
    modifies store
    ensures store.Valid()
    ensures r.NotFound? || r.BadRequest? || r.ServerError?
    ensures r.NotFound? <==> id !in old(StageIds(store.stages))
    ensures r.BadRequest? <==> id in old(StageIds(store.stages))
                               && exists t :: t in old(store.tasks) && t.stageId == id && t.required && t.status != TaskStatus.Done
    ensures r.ServerError? <==> id in old(StageIds(store.stages))
                                && forall t :: t in old(store.tasks) && t.stageId == id && t.required ==> t.status == TaskStatus.Done
    ensures store.State() == old(store.State()).(clock := store.clock)
  {
    var stage := store.GetStage(id);
    if stage.None? {
      return NotFound;
    }
    var tasks := store.GetTasksByStage(id);
    if !ApprovalAllowed(tasks) {
      return BadRequest(RequiredTasksPending);
    }
    var now := store.Now();
    var endedAt := ToDriver(IsoText(now));
    assert endedAt.None?;
    r := ServerError;
  }

  // ---------------------------------------------------------------- tasks

  /** `POST /api/stages/:stageId/tasks`: the new task always belongs to the stage in the path; stages never change. */
  method CreateTaskRoute(store: DatabaseStorage, stageId: Id, body: TaskBody) returns (r: Response<Task>)
    requires store.Valid()
    modifies store
    ensures store.Valid()
    ensures r.Created? || r.NotFound? || r.BadRequest?
    ensures r.NotFound? <==> stageId !in old(StageIds(store.stages))
    ensures r.BadRequest? <==> stageId in old(StageIds(store.stages)) && ParseTask(stageId, body).None?
    ensures !r.Created? ==> store.State() == old(store.State())
    ensures store.stages == old(store.stages)
    ensures r.Created? ==>
              && r.body.stageId == stageId && r.body.id !in old(TaskIds(store.tasks))
              && Some(r.body.title) == body.title && r.body.required == body.required.GetOr(DefaultRequired)
              && store.tasks == old(store.tasks) + [r.body]
              && Appended(old(store.activityLog), store.activityLog, Some(old(store.GetStage(stageId)).value.releaseId), Some(stageId),
                          SystemActor, "task.created", TaskCreatedMeta(r.body.id, r.body.title))
              && store.State() == old(store.State()).(tasks := store.tasks, activityLog := store.activityLog,
                   nextId := store.nextId, clock := store.clock)
  {
    var stage := store.GetStage(stageId);
    if stage.None? {
      return NotFound;
    }
    var data := ParseTask(stageId, body);
    if data.None? {
      return BadRequest(ValidationError);
    }
    var o := store.CreateTask(data.value);
    var task := o.row;
    Log(store, Some(stage.value.releaseId), Some(stage.value.id), SystemActor, "task.created", TaskCreatedMeta(task.id, task.title));
    r := Created(task);
  }

  /**
   * `PATCH /api/tasks/:id`: updates the supplied fields and stamps the update
   * time, then logs `task.updated` against the stage the task was in before.
   */
  method PatchTaskRoute(store: DatabaseStorage, id: Id, body: TaskPatchBody) returns (r: Response<Task>)
    requires store.Valid()
    modifies store
    ensures store.Valid()
    ensures r.Ok? || r.NotFound? || r.BadRequest? || r.ServerError?
    ensures r.NotFound? <==> id !in old(TaskIds(store.tasks))
    ensures r.BadRequest? <==> id in old(TaskIds(store.tasks)) && ParseTaskPatch(body).None?
    ensures r.ServerError? <==> id in old(TaskIds(store.tasks)) && ParseTaskPatch(body).Some?
                                && ParseTaskPatch(body).value.stageId.Set?
                                && ParseTaskPatch(body).value.stageId.value !in old(StageIds(store.stages))
    ensures store.stages == old(store.stages)
    ensures r.NotFound? || r.BadRequest? ==> store.State() == old(store.State())
    ensures r.ServerError? ==> store.State() == old(store.State()).(clock := old(store.clock) + 1)
    ensures r.Ok? ==>
              var t := old(store.GetTask(id)).value;
              var p := ParseTaskPatch(body).value.(updatedAt := Set(old(store.clock) + 1));
              && r.body == ApplyTask(t, p)
              && store.tasks == UpdateTasks(old(store.tasks), id, p)
              && Appended(old(store.activityLog), store.activityLog, Some(old(store.GetStage(t.stageId)).value.releaseId),
                          Some(t.stageId), SystemActor, "task.updated", TaskChangesMeta(id, ParseTaskPatch(body).value))
              && store.State() == old(store.State()).(tasks := store.tasks, activityLog := store.activityLog,
                   nextId := store.nextId, clock := store.clock)
  {
    var task := store.GetTask(id);
    if task.None? {
      return NotFound;
    }
    var data := ParseTaskPatch(body);
    if data.None? {
      return BadRequest(ValidationError);
    }
    var now := store.Now();
    var o := store.UpdateTask(id, data.value.(updatedAt := Set(now)));
    if o.Refused? {
      return ServerError;
    }
    var stage := store.GetStage(task.value.stageId);
    if stage.Some? {
      Log(store, Some(stage.value.releaseId), Some(stage.value.id), SystemActor, "task.updated", TaskChangesMeta(task.value.id, data.value));
    }
    r := Ok(o.row);
  }

  /** `DELETE /api/tasks/:id`: 204 when the task existed, else 404; stages never change. */
  method DeleteTaskRoute(store: DatabaseStorage, id: Id) returns (r: Response<()>)
    requires store.Valid()
    modifies store
    ensures store.Valid()
    ensures r.NoContent? || r.NotFound?
    ensures r.NoContent? <==> id in old(TaskIds(store.tasks))
    ensures id !in TaskIds(store.tasks)
    ensures store.stages == old(store.stages)
    ensures store.State() == old(store.State()).(tasks := TasksExcept(old(store.tasks), id))
  {
    var existed := store.DeleteTask(id);
    r := if existed then NoContent else NotFound;
  }

  // ------------------------------------------------------------- blockers

  /**
   * `POST /api/stages/:stageId/blockers`: creates the blocker, moves the
   * stage to `blocked` unless it already is, and logs `blocker.created`.
   * The stage ends up blocked whatever its status was and whatever `active`
   * flag was posted.
   */
  method CreateBlockerRoute(store: DatabaseStorage, stageId: Id, body: BlockerBody) returns (r: Response<Blocker>)
    requires store.Valid()
    modifies store
    ensures store.Valid()
    ensures r.Created? || r.NotFound? || r.BadRequest?
    ensures r.NotFound? <==> stageId !in old(StageIds(store.stages))
    ensures r.BadRequest? <==> stageId in old(StageIds(store.stages)) && ParseBlocker(stageId, body).None?
    ensures !r.Created? ==> store.State() == old(store.State())
    ensures r.Created? ==> store.GetStage(stageId).Some? && store.GetStage(stageId).value.status == Blocked
    ensures r.Created? ==>
              var s := old(store.GetStage(stageId)).value;
              && r.body.stageId == stageId && r.body.id !in old(BlockerIds(store.blockers))
              && r.body.active == body.active.GetOr(DefaultActive)
              && store.blockers == old(store.blockers) + [r.body]
              && store.stages == (if s.status == Blocked then old(store.stages)
                                  else UpdateStages(old(store.stages), stageId, StatusPatch(Blocked)))
              && Appended(old(store.activityLog), store.activityLog, Some(s.releaseId), Some(stageId),
                          SystemActor, "blocker.created", BlockerCreatedMeta(r.body.id, r.body.severity))
              && store.State() == old(store.State()).(stages := store.stages, blockers := store.blockers,
                   activityLog := store.activityLog, nextId := store.nextId, clock := store.clock)
  {
    var stage := store.GetStage(stageId);
    if stage.None? {
      return NotFound;
    }
    var data := ParseBlocker(stageId, body);
    if data.None? {
      return BadRequest(ValidationError);
    }
    var o := store.CreateBlocker(data.value);
    var blocker := o.row;
    if stage.value.status != Blocked {
      FindUpdatedStage(store.stages, stageId, StatusPatch(Blocked));
      var u := store.UpdateStage(stageId, StatusPatch(Blocked));
    }
    assert stage.value.releaseId in ReleaseIds(store.releases);
    Log(store, Some(stage.value.releaseId), Some(stage.value.id), SystemActor, "blocker.created", BlockerCreatedMeta(blocker.id, blocker.severity));
    r := Created(blocker);
  }

  /** Whether resolving a blocker frees its stage: it was set inactive, the stage is blocked, and no blocker of the stage is active any more. */
  ghost predicate Unblocks(active: Field<bool>, status: StageStatus, bs: seq<Blocker>, sid: Id) {
    active == Set(false) && status == Blocked && forall b :: b in bs && b.stageId == sid ==> !b.active
  }

  /**
   * `PATCH /api/blockers/:id`: updates the supplied fields; when the patch
   * sets `active` to false and the blocker's stage is blocked with no active
   * blocker left, the stage returns to `in_progress`. Logs `blocker.updated`.
   * A valid body that supplies no field fails with 500.
   */
  method PatchBlockerRoute(store: DatabaseStorage, id: Id, body: BlockerPatchBody) returns (r: Response<Blocker>)
    requires store.Valid()
    modifies store
    ensures store.Valid()
    ensures r.Ok? || r.NotFound? || r.BadRequest? || r.ServerError?
    ensures r.NotFound? <==> id !in old(BlockerIds(store.blockers))
    ensures r.BadRequest? <==> id in old(BlockerIds(store.blockers)) && ParseBlockerPatch(body).None?
    ensures r.ServerError? <==> id in old(BlockerIds(store.blockers)) && ParseBlockerPatch(body).Some?
                                && (EmptyBlockerPatch(ParseBlockerPatch(body).value)
                                    || (ParseBlockerPatch(body).value.stageId.Set?
                                        && ParseBlockerPatch(body).value.stageId.value !in old(StageIds(store.stages))))
    ensures !r.Ok? ==> store.State() == old(store.State())
    ensures body.active != Set(false) ==> store.stages == old(store.stages)
    ensures r.Ok? ==>
              var b := old(store.GetBlocker(id)).value;
              var s := old(store.GetStage(b.stageId)).value;
              var p := ParseBlockerPatch(body).value;
              && r.body == ApplyBlocker(b, p)
              && store.blockers == UpdateBlockers(old(store.blockers), id, p)
              && store.stages == (if Unblocks(body.active, s.status, store.blockers, s.id)
                                  then UpdateStages(old(store.stages), s.id, StatusPatch(InProgress))
                                  else old(store.stages))
              && Appended(old(store.activityLog), store.activityLog, Some(s.releaseId), Some(s.id),
                          SystemActor, "blocker.updated", BlockerChangesMeta(id, p))
              && store.State() == old(store.State()).(stages := store.stages, blockers := store.blockers,
                   activityLog := store.activityLog, nextId := store.nextId, clock := store.clock)
  {
    var blocker := store.GetBlocker(id);
    if blocker.None? {
      return NotFound;
    }
    var data := ParseBlockerPatch(body);
    if data.None? {
      return BadRequest(ValidationError);
    }
    ghost var s := store.GetStage(blocker.value.stageId).value;
    var o := store.UpdateBlocker(id, data.value);
    if o.Refused? {
      return ServerError;
    }
    ghost var updated := store.State();
    if data.value.active == Set(false) {
      var stage := store.GetStage(blocker.value.stageId);
      if stage.Some? {
        UnblockIfClear(store, stage.value.id);
      }
    }
    assert store.State() == updated.(stages := store.stages);
    assert store.stages == (if Unblocks(body.active, s.status, store.blockers, s.id)
                            then UpdateStages(updated.stages, s.id, StatusPatch(InProgress))
                            else updated.stages);
    assert store.GetStage(s.id).Some? && store.GetStage(s.id).value.releaseId == s.releaseId;
    var stage := store.GetStage(blocker.value.stageId);
    if stage.Some? {
      Log(store, Some(stage.value.releaseId), Some(stage.value.id), SystemActor, "blocker.updated", BlockerChangesMeta(blocker.value.id, data.value));
    }
    r := Ok(o.row);
  }

  /** The stage returns to `in_progress` when it is blocked and none of its blockers is active; otherwise nothing changes. */
  method UnblockIfClear(store: DatabaseStorage, sid: Id)
    requires store.Valid()
    requires sid in StageIds(store.stages)
    modifies store
    ensures store.Valid()
    ensures store.State() == old(store.State()).(stages := store.stages)
    ensures store.GetStage(sid).Some? && store.GetStage(sid).value.releaseId == old(store.GetStage(sid)).value.releaseId
    ensures store.stages == (if Unblocks(Set(false), old(store.GetStage(sid)).value.status, store.blockers, sid)
                             then UpdateStages(old(store.stages), sid, StatusPatch(InProgress))
                             else old(store.stages))
  {
    var stage := store.GetStage(sid);
    var activeBlockers := store.GetBlockersByStage(sid, true);
    ghost var clear := Unblocks(Set(false), stage.value.status, store.blockers, sid);
    assert clear <==> |activeBlockers| == 0 && stage.value.status == Blocked by {
      if |activeBlockers| > 0 {
        assert activeBlockers[0] in activeBlockers;
      }
    }
    if |activeBlockers| == 0 && stage.value.status == Blocked {
      FindUpdatedStage(store.stages, sid, StatusPatch(InProgress));
      var u := store.UpdateStage(sid, StatusPatch(InProgress));
    }
  }

  /** `DELETE /api/blockers/:id`: 204 when the blocker existed, else 404; the stage keeps its status even if it loses its last active blocker. */
  method DeleteBlockerRoute(store: DatabaseStorage, id: Id) returns (r: Response<()>)
    requires store.Valid()
    modifies store
    ensures store.Valid()
    ensures r.NoContent? || r.NotFound?
    ensures r.NoContent? <==> id in old(BlockerIds(store.blockers))
    ensures id !in BlockerIds(store.blockers)
    ensures store.stages == old(store.stages)
    ensures store.State() == old(store.State()).(blockers := BlockersExcept(old(store.blockers), id))
  {
    var existed := store.DeleteBlocker(id);
    r := if existed then NoContent else NotFound;
  }

  // ------------------------------------------------------------- diagrams

  /**
   * `PUT /api/releases/:releaseId/diagram`: stores the body's `layout`, which
   * may be absent, `null` or a layout; afterwards the diagram route returns
   * it. A body without `layout` fails with 500 when the release already has
   * a diagram, and otherwise inserts a diagram whose layout is null.
   */
  method PutDiagramRoute(store: DatabaseStorage, releaseId: Id, layout: Field<Option<Layouts.Layout>>) returns (r: Response<Diagram>)
    requires store.Valid()
    modifies store
    ensures store.Valid()
    ensures r.Ok? || r.ServerError?
    ensures r.ServerError? <==> (old(store.GetDiagramByRelease(releaseId)).Some? && layout.Keep?)
                                || (old(store.GetDiagramByRelease(releaseId)).None? && releaseId !in old(ReleaseIds(store.releases)))
    ensures r.ServerError? ==> store.State() == old(store.State())
    ensures r.Ok? ==> GetDiagramRoute(store, releaseId) == Ok(r.body) && r.body.layout == layout.Apply(None)
    ensures r.Ok? && old(store.GetDiagramByRelease(releaseId)).Some? ==>
              store.State() == old(store.State()).(diagrams := ReplaceDiagram(old(store.diagrams),
                                                     old(store.GetDiagramByRelease(releaseId)).value.id, r.body))
    ensures r.Ok? && old(store.GetDiagramByRelease(releaseId)).None? ==>
              r.body == Diagram(old(store.nextId), releaseId, None, layout.Apply(None), old(store.clock) + 1)
              && store.State() == old(store.State()).(diagrams := old(store.diagrams) + [r.body],
                                                       nextId := old(store.nextId) + 1, clock := old(store.clock) + 1)
  {
    var o := store.UpdateDiagramLayout(releaseId, layout);
    r := if o.Written? then Ok(o.row) else ServerError;
  }

  // ------------------------------------------------------------ dashboard

  /** One dashboard row: the release, its overall status and progress, and how many stages it has. */
  datatype Summary = Summary(release: Release, status: StageStatus, progress: nat, stageCount: nat)

  /** The stages' statuses, in stage order. */
  function Statuses(ss: seq<Stage>): (r: seq<StageStatus>)
    ensures |r| == |ss|
    ensures forall i :: 0 <= i < |ss| ==> r[i] == ss[i].status
    ensures forall x :: x in r <==> exists s :: s in ss && s.status == x
  {
    if ss == [] then []
    else
      var rest := Statuses(ss[1..]);
      assert forall s :: s in ss <==> s == ss[0] || s in ss[1..];
      [ss[0].status] + rest
  }

  /** The tasks of all the given stages, stage after stage. */
  function TasksOfStages(store: DatabaseStorage, ss: seq<Stage>): (r: seq<Task>)
    reads store
    ensures forall t :: t in r <==> t in store.tasks && exists s :: s in ss && s.id == t.stageId
    ensures ss == [] ==> r == []
  {
    if ss == [] then []
    else
      var rest := TasksOfStages(store, ss[1..]);
      assert forall s :: s in ss <==> s == ss[0] || s in ss[1..];
      store.GetTasksByStage(ss[0].id) + rest
  }

  /** The dashboard row of one release. */
  function Summarize(store: DatabaseStorage, release: Release): (r: Summary)
    reads store
    requires store.Valid()
    ensures r.release == release && r.progress <= 100
    ensures r.stageCount == |store.GetStagesByRelease(release.id)|
    ensures r.progress == Dashboard.Progress(TasksOfStages(store, store.GetStagesByRelease(release.id)))
    ensures r.status == Blocked <==> exists s :: s in store.stages && s.releaseId == release.id && s.status == Blocked
    ensures r.status == StageStatus.Done <==> forall s :: s in store.stages && s.releaseId == release.id ==> s.status == StageStatus.Done
    ensures (forall s :: s in store.stages ==> s.releaseId != release.id) ==> r.status == StageStatus.Done && r.progress == 0
    ensures r.status == Dashboard.Overall(Statuses(store.GetStagesByRelease(release.id)))
    ensures r.status == InProgress <==>
              && !StatusOccurs(store.stages, release.id, Blocked)
              && (StatusOccurs(store.stages, release.id, InProgress)
                  || (StatusOccurs(store.stages, release.id, StageStatus.Done) && StatusOccurs(store.stages, release.id, NotStarted)))
    ensures r.status == NotStarted <==>
              (exists s :: s in store.stages && s.releaseId == release.id)
              && forall s :: s in store.stages && s.releaseId == release.id ==> s.status == NotStarted
  {
    var ss := store.GetStagesByRelease(release.id);
    OverallOfRelease(ss, store.stages, release.id);
    Summary(release, Dashboard.Overall(Statuses(ss)), Dashboard.Progress(TasksOfStages(store, ss)), |ss|)
  }

  /** The overall status of a release's stages, read against the whole stage table. */
  lemma OverallOfRelease(ss: seq<Stage>, all: seq<Stage>, rid: Id)
    requires forall s :: s in ss <==> s in all && s.releaseId == rid
    ensures var st := Dashboard.Overall(Statuses(ss));
            && (st == Blocked <==> exists s :: s in all && s.releaseId == rid && s.status == Blocked)
            && (st == StageStatus.Done <==> forall s :: s in all && s.releaseId == rid ==> s.status == StageStatus.Done)
            && (st == InProgress <==>
                  && !StatusOccurs(all, rid, Blocked)
                  && (StatusOccurs(all, rid, InProgress)
                      || (StatusOccurs(all, rid, StageStatus.Done) && StatusOccurs(all, rid, NotStarted))))
            && (st == NotStarted <==>
                  (exists s :: s in all && s.releaseId == rid) && forall s :: s in all && s.releaseId == rid ==> s.status == NotStarted)
    ensures (forall s :: s in all ==> s.releaseId != rid) ==> ss == []
  {
    StatusesOfRelease(ss, all, rid);
  }

  /** Some stage of the release has the status. */
  predicate StatusOccurs(all: seq<Stage>, rid: Id, x: StageStatus) {
    exists s :: s in all && s.releaseId == rid && s.status == x
  }

  /** The statuses of a release's stages, read against the whole stage table. */
  lemma StatusesOfRelease(ss: seq<Stage>, all: seq<Stage>, rid: Id)
    requires forall s :: s in ss <==> s in all && s.releaseId == rid
    ensures forall x :: x in Statuses(ss) <==> StatusOccurs(all, rid, x)
    ensures (Statuses(ss) != [] && forall x :: x in Statuses(ss) ==> x == NotStarted) <==>
            (exists s :: s in all && s.releaseId == rid) && forall s :: s in all && s.releaseId == rid ==> s.status == NotStarted
    ensures Blocked in Statuses(ss) <==> exists s :: s in all && s.releaseId == rid && s.status == Blocked
    ensures (forall x :: x in Statuses(ss) ==> x == StageStatus.Done) <==>
            (forall s :: s in all && s.releaseId == rid ==> s.status == StageStatus.Done)
    ensures (forall s :: s in all ==> s.releaseId != rid) ==> ss == []
  {
    var st := Statuses(ss);
    if ss != [] {
      assert ss[0] in ss;
    }
    if forall x :: x in st ==> x == StageStatus.Done {
      forall s | s in all && s.releaseId == rid ensures s.status == StageStatus.Done {
        assert s in ss && s.status in st;
      }
    }
    if forall s :: s in all && s.releaseId == rid ==> s.status == StageStatus.Done {
      forall x | x in st ensures x == StageStatus.Done {
        var s :| s in ss && s.status == x;
      }
    }
    if forall s :: s in all && s.releaseId == rid ==> s.status == NotStarted {
      forall x | x in st ensures x == NotStarted {
        var s :| s in ss && s.status == x;
      }
    }
    if forall x :: x in st ==> x == NotStarted {
      forall s | s in all && s.releaseId == rid ensures s.status == NotStarted {
        assert s in ss && s.status in st;
      }
    }
  }

  function Summaries(store: DatabaseStorage, rs: seq<Release>): (r: seq<Summary>)
    reads store
    requires store.Valid()
    ensures |r| == |rs|
    ensures forall i :: 0 <= i < |rs| ==> r[i] == Summarize(store, rs[i])
  {
    seq(|rs|, i reads store requires 0 <= i < |rs| && store.Valid() => Summarize(store, rs[i]))
  }

  /** `GET /api/dashboard`: one row per release of the team, newest release first. */
  function DashboardRoute(store: DatabaseStorage, team: Option<string>): (r: Response<seq<Summary>>)
    reads store
    requires store.Valid()
    ensures r.Ok?
    ensures |r.body| == |store.GetReleases(team, None)|
    ensures forall i :: 0 <= i < |r.body| ==> r.body[i].release == store.GetReleases(team, None)[i] && r.body[i].progress <= 100
    ensures forall i :: 0 <= i < |r.body| ==> r.body[i] == Summarize(store, store.GetReleases(team, None)[i])
  {
    Ok(Summaries(store, store.GetReleases(team, None)))
  }
}
