/**
 * The tables of the release tracker: their enumerations, row shapes, column
 * defaults, and the shapes of insert and partial-update payloads after
 * validation. Validation itself (required fields, enumeration membership) is
 * given by the Parse* functions.
 */
module Schema {
  import opened Common
  import Layouts

  type Id = nat
  type Timestamp = nat

  // ---------------------------------------------------------------- enums

  datatype Env = Staging | Uat | Prod
  datatype StageStatus = NotStarted | InProgress | Blocked | Done
  datatype TaskStatus = Todo | Doing | Done | Na
  datatype Severity = P1 | P2 | P3

  function EnvName(e: Env): string {
    match e
    case Staging => "staging"
    case Uat => "uat"
    case Prod => "prod"
  }

  /** Membership test of the `env` enumeration. */
  function ParseEnv(s: string): (r: Option<Env>)
    ensures r.Some? <==> s == "staging" || s == "uat" || s == "prod"
    ensures r.Some? ==> EnvName(r.value) == s
  {
    if s == "staging" then Some(Staging)
    else if s == "uat" then Some(Uat)
    else if s == "prod" then Some(Prod)
    else None
  }

  function StageStatusName(st: StageStatus): string {
    match st
    case NotStarted => "not_started"
    case InProgress => "in_progress"
    case Blocked => "blocked"
    case Done => "done"
  }

  /** Membership test of the `stage_status` enumeration. */
  function ParseStageStatus(s: string): (r: Option<StageStatus>)
    ensures r.Some? <==> s == "not_started" || s == "in_progress" || s == "blocked" || s == "done"
    ensures r.Some? ==> StageStatusName(r.value) == s
  {
    if s == "not_started" then Some(NotStarted)
    else if s == "in_progress" then Some(InProgress)
    else if s == "blocked" then Some(Blocked)
    else if s == "done" then Some(StageStatus.Done)
    else None
  }

  function TaskStatusName(st: TaskStatus): string {
    match st
    case Todo => "todo"
    case Doing => "doing"
    case Done => "done"
    case Na => "na"
  }

  /** Membership test of the `task_status` enumeration. */
  function ParseTaskStatus(s: string): (r: Option<TaskStatus>)
    ensures r.Some? <==> s == "todo" || s == "doing" || s == "done" || s == "na"
    ensures r.Some? ==> TaskStatusName(r.value) == s
  {
    if s == "todo" then Some(Todo)
    else if s == "doing" then Some(Doing)
    else if s == "done" then Some(TaskStatus.Done)
    else if s == "na" then Some(Na)
    else None
  }

  function SeverityName(sv: Severity): string {
    match sv
    case P1 => "P1"
    case P2 => "P2"
    case P3 => "P3"
  }

  /** Membership test of the `blocker_severity` enumeration. */
  function ParseSeverity(s: string): (r: Option<Severity>)
    ensures r.Some? <==> s == "P1" || s == "P2" || s == "P3"
    ensures r.Some? ==> SeverityName(r.value) == s
  {
    if s == "P1" then Some(P1)
    else if s == "P2" then Some(P2)
    else if s == "P3" then Some(P3)
    else None
  }

  /** Every name an enumeration value prints as is accepted back as that value. */
  lemma EnumNamesParse(e: Env, st: StageStatus, ts: TaskStatus, sv: Severity)
    ensures ParseEnv(EnvName(e)) == Some(e)
    ensures ParseStageStatus(StageStatusName(st)) == Some(st)
    ensures ParseTaskStatus(TaskStatusName(ts)) == Some(ts)
    ensures ParseSeverity(SeverityName(sv)) == Some(sv)
  {
  }

  // ------------------------------------------------------------- defaults

  const DefaultStageStatus: StageStatus := NotStarted
  const DefaultTaskStatus: TaskStatus := Todo
  const DefaultRequired: bool := true
  const DefaultSeverity: Severity := P2
  const DefaultActive: bool := true

  // ----------------------------------------------------------------- rows

  datatype Release = Release(
    id: Id,
    name: string,
    version: Option<string>,
    changeWindow: Option<string>,
    team: Option<string>,
    createdBy: Option<string>,
    createdAt: Timestamp)

  datatype Stage = Stage(
    id: Id,
    releaseId: Id,
    env: Env,
    status: StageStatus,
    approver: Option<string>,
    startedAt: Option<Timestamp>,
    endedAt: Option<Timestamp>,
    lastUpdate: Timestamp)

  datatype Task = Task(
    id: Id,
    stageId: Id,
    title: string,
    details: Option<string>,
    owner: Option<string>,
    required: bool,
    status: TaskStatus,
    evidenceUrl: Option<string>,
    updatedAt: Timestamp)

  datatype Blocker = Blocker(
    id: Id,
    stageId: Id,
    severity: Severity,
    reason: string,
    owner: Option<string>,
    eta: Option<Timestamp>,
    active: bool,
    createdAt: Timestamp)

  datatype Diagram = Diagram(
    id: Id,
    releaseId: Id,
    name: Option<string>,
    layout: Option<Layouts.Layout>,
    updatedAt: Timestamp)

  datatype DiagramNode = DiagramNode(id: Id, diagramId: Id, key: Option<string>, meta: Option<string>)

  /** The structured payload of an activity entry, one case per logged action. */
  datatype Meta =
    | ReleaseCreatedMeta(releaseName: string)
    | StageChangesMeta(stageChanges: StagePatch)
    | ApprovalMeta(note: Option<string>)
    | TaskCreatedMeta(taskId: Id, taskTitle: string)
    | TaskChangesMeta(changedTaskId: Id, taskChanges: TaskPatch)
    | BlockerCreatedMeta(blockerId: Id, severity: Severity)
    | BlockerChangesMeta(changedBlockerId: Id, blockerChanges: BlockerPatch)

  datatype ActivityEntry = ActivityEntry(
    id: Id,
    releaseId: Option<Id>,
    stageId: Option<Id>,
    actor: Option<string>,
    action: string,
    meta: Meta,
    at: Timestamp)

  // ------------------------------------------------------ insert payloads

  datatype NewRelease = NewRelease(
    name: string,
    version: Option<string>,
    changeWindow: Option<string>,
    team: Option<string>,
    createdBy: Option<string>)

  datatype NewStage = NewStage(
    releaseId: Id,
    env: Env,
    status: StageStatus,
    approver: Option<string>,
    startedAt: Option<Timestamp>,
    endedAt: Option<Timestamp>)

  datatype NewTask = NewTask(
    stageId: Id,
    title: string,
    details: Option<string>,
    owner: Option<string>,
    required: bool,
    status: TaskStatus,
    evidenceUrl: Option<string>)

  datatype NewBlocker = NewBlocker(
    stageId: Id,
    severity: Severity,
    reason: string,
    owner: Option<string>,
    eta: Option<Timestamp>,
    active: bool)

  datatype NewActivity = NewActivity(
    releaseId: Option<Id>,
    stageId: Option<Id>,
    actor: Option<string>,
    action: string,
    meta: Meta)

  // ---------------------------------------------- partial-update payloads

  datatype ReleasePatch = ReleasePatch(
    name: Field<string>,
    version: Field<Option<string>>,
    changeWindow: Field<Option<string>>,
    team: Field<Option<string>>,
    createdBy: Field<Option<string>>)

  datatype StagePatch = StagePatch(
    releaseId: Field<Id>,
    env: Field<Env>,
    status: Field<StageStatus>,
    approver: Field<Option<string>>,
    startedAt: Field<Option<Timestamp>>,
    endedAt: Field<Option<Timestamp>>)

  datatype TaskPatch = TaskPatch(
    stageId: Field<Id>,
    title: Field<string>,
    details: Field<Option<string>>,
    owner: Field<Option<string>>,
    required: Field<bool>,
    status: Field<TaskStatus>,
    evidenceUrl: Field<Option<string>>,
    updatedAt: Field<Timestamp>)

  datatype BlockerPatch = BlockerPatch(
    stageId: Field<Id>,
    severity: Field<Severity>,
    reason: Field<string>,
    owner: Field<Option<string>>,
    eta: Field<Option<Timestamp>>,
    active: Field<bool>)

  const NoStageChanges := StagePatch(Keep, Keep, Keep, Keep, Keep, Keep)

  function ApplyRelease(r: Release, p: ReleasePatch): Release {
    r.(name := p.name.Apply(r.name), version := p.version.Apply(r.version),
       changeWindow := p.changeWindow.Apply(r.changeWindow), team := p.team.Apply(r.team),
       createdBy := p.createdBy.Apply(r.createdBy))
  }

  function ApplyStage(s: Stage, p: StagePatch): Stage {
    s.(releaseId := p.releaseId.Apply(s.releaseId), env := p.env.Apply(s.env),
       status := p.status.Apply(s.status), approver := p.approver.Apply(s.approver),
       startedAt := p.startedAt.Apply(s.startedAt), endedAt := p.endedAt.Apply(s.endedAt))
  }

  function ApplyTask(t: Task, p: TaskPatch): Task {
    t.(stageId := p.stageId.Apply(t.stageId), title := p.title.Apply(t.title),
       details := p.details.Apply(t.details), owner := p.owner.Apply(t.owner),
       required := p.required.Apply(t.required), status := p.status.Apply(t.status),
       evidenceUrl := p.evidenceUrl.Apply(t.evidenceUrl), updatedAt := p.updatedAt.Apply(t.updatedAt))
  }

  function ApplyBlocker(b: Blocker, p: BlockerPatch): Blocker {
    b.(stageId := p.stageId.Apply(b.stageId), severity := p.severity.Apply(b.severity),
       reason := p.reason.Apply(b.reason), owner := p.owner.Apply(b.owner),
       eta := p.eta.Apply(b.eta), active := p.active.Apply(b.active))
  }

  /** A partial update that names no column: the query builder refuses to issue it. */
  predicate EmptyReleasePatch(p: ReleasePatch) {
    p.name.Keep? && p.version.Keep? && p.changeWindow.Keep? && p.team.Keep? && p.createdBy.Keep?
  }

  predicate EmptyStagePatch(p: StagePatch) {
    p.releaseId.Keep? && p.env.Keep? && p.status.Keep? && p.approver.Keep?
    && p.startedAt.Keep? && p.endedAt.Keep?
  }

  predicate EmptyTaskPatch(p: TaskPatch) {
    p.stageId.Keep? && p.title.Keep? && p.details.Keep? && p.owner.Keep? && p.required.Keep?
    && p.status.Keep? && p.evidenceUrl.Keep? && p.updatedAt.Keep?
  }

  predicate EmptyBlockerPatch(p: BlockerPatch) {
    p.stageId.Keep? && p.severity.Keep? && p.reason.Keep? && p.owner.Keep?
    && p.eta.Keep? && p.active.Keep?
  }

  // -------------------------------------- request bodies before validation

  /**
   * A timestamp field as a JSON body carries it. JSON has no date type, so a
   * timestamp arrives as `null` or as a string; the validators of timestamp
   * columns accept a date object or `null`, so a string is rejected.
   */
  datatype JsonTime = Null | Text(text: string)

  /** A value the server hands the query builder for a timestamp column: a date, or a date already formatted as an ISO-8601 string. */
  datatype TimeValue = DateValue(at: Timestamp) | IsoText(at: Timestamp)

  /**
   * The conversion a timestamp column applies before a write: it formats a
   * date itself, and a string, which has no such method, makes the write throw.
   */
  function ToDriver(v: TimeValue): (r: Option<Timestamp>)
    ensures r.Some? <==> v.DateValue?
    ensures r.Some? ==> r.value == v.at
  {
    match v
    case DateValue(at) => Some(at)
    case IsoText(_) => None
  }

  /** A request body: enumeration fields are still strings, required fields may be missing. */
  datatype ReleaseBody = ReleaseBody(
    name: Option<string>,
    version: Option<string>,
    changeWindow: Option<string>,
    team: Option<string>,
    createdBy: Option<string>)

  datatype TaskBody = TaskBody(
    title: Option<string>,
    details: Option<string>,
    owner: Option<string>,
    required: Option<bool>,
    status: Option<string>,
    evidenceUrl: Option<string>)

  datatype BlockerBody = BlockerBody(
    severity: Option<string>,
    reason: Option<string>,
    owner: Option<string>,
    eta: Option<JsonTime>,
    active: Option<bool>)

  /**
   * A partial update of a release as the body carries it. A column that is
   * not null may still arrive as JSON `null`, which validation rejects; a
   * nullable column takes `null` as a value.
   */
  datatype ReleasePatchBody = ReleasePatchBody(
    name: Field<Option<string>>,
    version: Field<Option<string>>,
    changeWindow: Field<Option<string>>,
    team: Field<Option<string>>,
    createdBy: Field<Option<string>>)

  datatype StagePatchBody = StagePatchBody(
    releaseId: Field<Option<Id>>,
    env: Field<string>,
    status: Field<string>,
    approver: Field<Option<string>>,
    startedAt: Field<JsonTime>,
    endedAt: Field<JsonTime>)

  datatype TaskPatchBody = TaskPatchBody(
    stageId: Field<Option<Id>>,
    title: Field<Option<string>>,
    details: Field<Option<string>>,
    owner: Field<Option<string>>,
    required: Field<bool>,
    status: Field<string>,
    evidenceUrl: Field<Option<string>>)

  datatype BlockerPatchBody = BlockerPatchBody(
    stageId: Field<Option<Id>>,
    severity: Field<string>,
    reason: Field<Option<string>>,
    owner: Field<Option<string>>,
    eta: Field<JsonTime>,
    active: Field<bool>)

  /** Validation of a new release: `name` is required, every other column passes through. */
  function ParseRelease(b: ReleaseBody): (r: Option<NewRelease>)
    ensures r.Some? <==> b.name.Some?
    ensures r.Some? ==> r.value.name == b.name.value && r.value.createdBy == b.createdBy
                        && r.value.version == b.version && r.value.team == b.team
                        && r.value.changeWindow == b.changeWindow
  {
    if b.name.None? then None
    else Some(NewRelease(b.name.value, b.version, b.changeWindow, b.team, b.createdBy))
  }

  /** Validation of a new task for `stageId`: `title` is required, `status` must be a task status. */
  function ParseTask(stageId: Id, b: TaskBody): (r: Option<NewTask>)
    ensures r.Some? <==> b.title.Some? && (b.status.Some? ==> ParseTaskStatus(b.status.value).Some?)
    ensures r.Some? ==> r.value.stageId == stageId && r.value.title == b.title.value
    ensures r.Some? ==> r.value.required == b.required.GetOr(DefaultRequired)
    ensures r.Some? ==> r.value.details == b.details && r.value.owner == b.owner
                        && r.value.evidenceUrl == b.evidenceUrl
    ensures r.Some? && b.status.None? ==> r.value.status == DefaultTaskStatus
    ensures r.Some? && b.status.Some? ==> TaskStatusName(r.value.status) == b.status.value
  {
    if b.title.None? then None
    else if b.status.Some? && ParseTaskStatus(b.status.value).None? then None
    else
      var status := if b.status.Some? then ParseTaskStatus(b.status.value).value else DefaultTaskStatus;
      Some(NewTask(stageId, b.title.value, b.details, b.owner, b.required.GetOr(DefaultRequired), status, b.evidenceUrl))
  }

  /**
   * Validation of a new blocker for `stageId`: `reason` is required, `severity`
   * must be P1, P2 or P3, and an `eta` can only be `null`.
   */
  function ParseBlocker(stageId: Id, b: BlockerBody): (r: Option<NewBlocker>)
    ensures r.Some? <==> b.reason.Some? && (b.severity.Some? ==> ParseSeverity(b.severity.value).Some?)
                         && (b.eta.Some? ==> b.eta.value.Null?)
    ensures r.Some? ==> r.value.stageId == stageId && r.value.reason == b.reason.value
                        && r.value.owner == b.owner && r.value.eta.None?
    ensures r.Some? ==> r.value.active == b.active.GetOr(DefaultActive)
    ensures r.Some? && b.severity.None? ==> r.value.severity == DefaultSeverity
    ensures r.Some? && b.severity.Some? ==> SeverityName(r.value.severity) == b.severity.value
  {
    if b.reason.None? then None
    else if b.severity.Some? && ParseSeverity(b.severity.value).None? then None
    else if b.eta.Some? && b.eta.value.Text? then None
    else
      var severity := if b.severity.Some? then ParseSeverity(b.severity.value).value else DefaultSeverity;
      Some(NewBlocker(stageId, severity, b.reason.value, b.owner, None, b.active.GetOr(DefaultActive)))
  }

  /** A string-valued enumeration field of a partial update, validated by `parse`. */
  function ParseField<T>(f: Field<string>, parse: string -> Option<T>): (r: Option<Field<T>>)
    ensures r.None? <==> f.Set? && parse(f.value).None?
    ensures r == Some(Keep) <==> f.Keep?
  {
    if f.Keep? then Some(Keep)
    else if parse(f.value).None? then None
    else Some(Set(parse(f.value).value))
  }

  /** A timestamp field of a partial update: absent, or cleared by `null`; a string is rejected. */
  function ParseTimeField(f: Field<JsonTime>): (r: Option<Field<Option<Timestamp>>>)
    ensures r.None? <==> f.Set? && f.value.Text?
    ensures r == Some(Keep) <==> f.Keep?
    ensures r == Some(Set(None)) <==> f == Set(Null)
  {
    if f.Keep? then Some(Keep)
    else if f.value.Text? then None
    else Some(Set(None))
  }

  /** A field of a partial update whose column is not null: absent, or a value; `null` is rejected. */
  function ParseNotNull<T>(f: Field<Option<T>>): (r: Option<Field<T>>)
    ensures r.None? <==> f == Set(None)
    ensures r == Some(Keep) <==> f.Keep?
    ensures f.Set? && f.value.Some? ==> r == Some(Set(f.value.value))
  {
    if f.Keep? then Some(Keep)
    else if f.value.None? then None
    else Some(Set(f.value.value))
  }

  /** Validation of a partial release: every column may be absent, and only `name` may not be `null`. */
  function ParseReleasePatch(b: ReleasePatchBody): (r: Option<ReleasePatch>)
    ensures r.None? <==> b.name == Set(None)
    ensures r.Some? ==> (r.value.name.Keep? <==> b.name.Keep?)
                        && (r.value.name.Set? ==> b.name == Set(Some(r.value.name.value)))
                        && r.value.version == b.version && r.value.changeWindow == b.changeWindow
                        && r.value.team == b.team && r.value.createdBy == b.createdBy
  {
    var name := ParseNotNull(b.name);
    if name.None? then None
    else Some(ReleasePatch(name.value, b.version, b.changeWindow, b.team, b.createdBy))
  }

  function ParseStagePatch(b: StagePatchBody): (r: Option<StagePatch>)
    ensures r.Some? <==> b.releaseId != Set(None)
                         && (b.env.Set? ==> ParseEnv(b.env.value).Some?)
                         && (b.status.Set? ==> ParseStageStatus(b.status.value).Some?)
                         && (b.startedAt.Set? ==> b.startedAt.value.Null?)
                         && (b.endedAt.Set? ==> b.endedAt.value.Null?)
    ensures r.Some? ==> (r.value.releaseId.Keep? <==> b.releaseId.Keep?)
                        && (r.value.releaseId.Set? ==> b.releaseId == Set(Some(r.value.releaseId.value)))
                        && r.value.approver == b.approver
                        && (r.value.status.Keep? <==> b.status.Keep?)
                        && (r.value.env.Keep? <==> b.env.Keep?)
    ensures r.Some? && b.status.Set? ==> StageStatusName(r.value.status.value) == b.status.value
    ensures r.Some? && b.env.Set? ==> EnvName(r.value.env.value) == b.env.value
    ensures r.Some? ==> (r.value.startedAt.Keep? <==> b.startedAt.Keep?)
                        && (r.value.startedAt.Set? ==> r.value.startedAt.value.None?)
    ensures r.Some? ==> (r.value.endedAt.Keep? <==> b.endedAt.Keep?)
                        && (r.value.endedAt.Set? ==> r.value.endedAt.value.None?)
  {
    var releaseId := ParseNotNull(b.releaseId);
    var env := ParseField(b.env, ParseEnv);
    var status := ParseField(b.status, ParseStageStatus);
    var started := ParseTimeField(b.startedAt);
    var ended := ParseTimeField(b.endedAt);
    if releaseId.None? || env.None? || status.None? || started.None? || ended.None? then None
    else Some(StagePatch(releaseId.value, env.value, status.value, b.approver, started.value, ended.value))
  }

  /** The `updatedAt` column is not part of the body; the route sets it. */
  function ParseTaskPatch(b: TaskPatchBody): (r: Option<TaskPatch>)
    ensures r.Some? <==> b.stageId != Set(None) && b.title != Set(None)
                         && (b.status.Set? ==> ParseTaskStatus(b.status.value).Some?)
    ensures r.Some? ==> (r.value.stageId.Keep? <==> b.stageId.Keep?)
                        && (r.value.stageId.Set? ==> b.stageId == Set(Some(r.value.stageId.value)))
                        && (r.value.title.Keep? <==> b.title.Keep?)
                        && (r.value.title.Set? ==> b.title == Set(Some(r.value.title.value)))
    ensures r.Some? ==> r.value.updatedAt.Keep? && r.value.required == b.required
                        && r.value.details == b.details && r.value.owner == b.owner
                        && r.value.evidenceUrl == b.evidenceUrl
                        && (r.value.status.Keep? <==> b.status.Keep?)
    ensures r.Some? && b.status.Set? ==> TaskStatusName(r.value.status.value) == b.status.value
  {
    var stageId := ParseNotNull(b.stageId);
    var title := ParseNotNull(b.title);
    var status := ParseField(b.status, ParseTaskStatus);
    if stageId.None? || title.None? || status.None? then None
    else Some(TaskPatch(stageId.value, title.value, b.details, b.owner, b.required, status.value, b.evidenceUrl, Keep))
  }

  function ParseBlockerPatch(b: BlockerPatchBody): (r: Option<BlockerPatch>)
    ensures r.Some? <==> b.stageId != Set(None) && b.reason != Set(None)
                         && (b.severity.Set? ==> ParseSeverity(b.severity.value).Some?)
                         && (b.eta.Set? ==> b.eta.value.Null?)
    ensures r.Some? ==> (r.value.stageId.Keep? <==> b.stageId.Keep?)
                        && (r.value.stageId.Set? ==> b.stageId == Set(Some(r.value.stageId.value)))
                        && (r.value.reason.Keep? <==> b.reason.Keep?)
                        && (r.value.reason.Set? ==> b.reason == Set(Some(r.value.reason.value)))
    ensures r.Some? ==> r.value.active == b.active && r.value.owner == b.owner
                        && (r.value.severity.Keep? <==> b.severity.Keep?)
                        && (r.value.eta.Keep? <==> b.eta.Keep?)
                        && (r.value.eta.Set? ==> r.value.eta.value.None?)
    ensures r.Some? && b.severity.Set? ==> SeverityName(r.value.severity.value) == b.severity.value
  {
    var stageId := ParseNotNull(b.stageId);
    var reason := ParseNotNull(b.reason);
    var severity := ParseField(b.severity, ParseSeverity);
    var eta := ParseTimeField(b.eta);
    if stageId.None? || reason.None? || severity.None? || eta.None? then None
    else Some(BlockerPatch(stageId.value, severity.value, reason.value, b.owner, eta.value, b.active))
  }
}
