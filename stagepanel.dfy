/**
 * The stage detail panel: the requests it sends (toggle a task, add a task,
 * add a blocker, resolve a blocker), what it derives for display from the
 * fetched stage, and its form state.
 */
module StagePanel {
  import opened Common
  import opened Text
  import opened Schema

  /** A task as the panel receives it. */
  datatype PanelTask = PanelTask(
    id: string,
    title: string,
    description: Option<string>,
    owner: Option<string>,
    status: string,
    required: Option<bool>)

  /** A blocker as the panel receives it. */
  datatype PanelBlocker = PanelBlocker(
    id: string,
    reason: string,
    severity: Severity,
    owner: Option<string>,
    eta: Option<string>,
    active: bool)

  /** The fetched stage; `tasks` and `blockers` may be missing from the response. */
  datatype PanelStage = PanelStage(
    id: string,
    status: string,
    approver: Option<string>,
    tasks: Option<seq<PanelTask>>,
    blockers: Option<seq<PanelBlocker>>)

  /** What pressing a submit button leads to: nothing, a failure for want of a selected stage, or a POST to the stage. */
  datatype Submission<T> = NotSent | NoStage | Sent(stageId: string, body: T)

  // ------------------------------------------------------------- toggle

  /** The status a task's checkbox sends: done becomes todo, anything else done. */
  function NextStatus(current: string): (next: string)
    ensures next == "todo" <==> current == "done"
    ensures next == "todo" || next == "done"
    ensures ParseTaskStatus(next).Some?
  {
    if current == "done" then "todo" else "done"
  }

  /** Toggling twice from `done` or `todo` gives the status back. */
  lemma ToggleTwice(s: string)
    requires s == "done" || s == "todo"
    ensures NextStatus(NextStatus(s)) == s
  {
  }

  /** The PATCH body of a toggle: only `status`; the server always accepts it. */
  function ToggleBody(current: string): (b: TaskPatchBody)
    ensures b.status == Set(NextStatus(current))
    ensures b.stageId.Keep? && b.title.Keep? && b.required.Keep?
    ensures ParseTaskPatch(b).Some?
  {
    TaskPatchBody(Keep, Keep, Keep, Keep, Keep, Set(NextStatus(current)), Keep)
  }

  // ----------------------------------------------------------- new task

  /** The POST body of a new task; `description` is not a column of the task table and is dropped by the server's validation. */
  datatype TaskRequest = TaskRequest(title: string, description: Option<string>, owner: Option<string>, status: string)

  /** `s.trim() || undefined` */
  function TrimmedOrAbsent(s: string): (r: Option<string>)
    ensures r.None? <==> Trim(s) == ""
    ensures r.Some? ==> r.value == Trim(s)
  {
    if Trim(s) == "" then None else Some(Trim(s))
  }

  /** Adding a task: nothing is sent for a blank title; otherwise the trimmed fields with status `todo`, if a stage is selected. */
  function AddTask(stageId: Option<string>, title: string, description: string, owner: string): (s: Submission<TaskRequest>)
    ensures s.NotSent? <==> Trim(title) == ""
    ensures s.NoStage? <==> Trim(title) != "" && stageId.None?
    ensures s.Sent? ==> && s.stageId == stageId.value
                        && s.body.title == Trim(title) && s.body.title != ""
                        && s.body.description == TrimmedOrAbsent(description)
                        && s.body.owner == TrimmedOrAbsent(owner)
                        && s.body.status == "todo"
  {
    if Trim(title) == "" then NotSent
    else if stageId.None? then NoStage
    else Sent(stageId.value, TaskRequest(Trim(title), TrimmedOrAbsent(description), TrimmedOrAbsent(owner), "todo"))
  }

  /** The task request as the server's validation reads it. */
  function TaskRequestBody(r: TaskRequest): TaskBody {
    TaskBody(Some(r.title), None, r.owner, None, Some(r.status), None)
  }

  /** Every task the panel sends passes the server's validation and is created `todo`, required, under the path's stage. */
  lemma SentTaskAccepted(stageId: Option<string>, title: string, description: string, owner: string, sid: Id)
    requires AddTask(stageId, title, description, owner).Sent?
    ensures var body := AddTask(stageId, title, description, owner).body;
            var t := ParseTask(sid, TaskRequestBody(body));
            t.Some? && t.value.status == TaskStatus.Todo && t.value.required && t.value.stageId == sid
            && t.value.title == Trim(title) && t.value.owner == TrimmedOrAbsent(owner)
  {
    var body := AddTask(stageId, title, description, owner).body;
    var t := ParseTask(sid, TaskRequestBody(body));
    assert TaskStatusName(t.value.status) == "todo";
    EnumNamesParse(Staging, NotStarted, t.value.status, P2);
  }

  // -------------------------------------------------------- new blocker

  /** The POST body of a new blocker. */
  datatype BlockerRequest = BlockerRequest(reason: string, severity: Severity, owner: Option<string>, active: bool)

  /** Adding a blocker: nothing is sent for a blank reason; otherwise the trimmed reason, the chosen severity and `active: true`, if a stage is selected. */
  function AddBlocker(stageId: Option<string>, reason: string, severity: Severity, owner: string): (s: Submission<BlockerRequest>)
    ensures s.NotSent? <==> Trim(reason) == ""
    ensures s.NoStage? <==> Trim(reason) != "" && stageId.None?
    ensures s.Sent? ==> && s.stageId == stageId.value
                        && s.body.reason == Trim(reason) && s.body.reason != ""
                        && s.body.severity == severity
                        && s.body.owner == TrimmedOrAbsent(owner)
                        && s.body.active
  {
    if Trim(reason) == "" then NotSent
    else if stageId.None? then NoStage
    else Sent(stageId.value, BlockerRequest(Trim(reason), severity, TrimmedOrAbsent(owner), true))
  }

  /** The blocker request as the server's validation reads it. */
  function BlockerRequestBody(r: BlockerRequest): BlockerBody {
    BlockerBody(Some(SeverityName(r.severity)), Some(r.reason), r.owner, None, Some(r.active))
  }

  /** Every blocker the panel sends passes the server's validation, active and with the chosen severity. */
  lemma SentBlockerAccepted(stageId: Option<string>, reason: string, severity: Severity, owner: string, sid: Id)
    requires AddBlocker(stageId, reason, severity, owner).Sent?
    ensures var body := AddBlocker(stageId, reason, severity, owner).body;
            var b := ParseBlocker(sid, BlockerRequestBody(body));
            b.Some? && b.value.active && b.value.severity == severity && b.value.stageId == sid
            && b.value.reason == Trim(reason)
  {
    var body := AddBlocker(stageId, reason, severity, owner).body;
    var b := ParseBlocker(sid, BlockerRequestBody(body));
    EnumNamesParse(Staging, NotStarted, Todo, severity);
    assert b.Some?;
    EnumNamesParse(Staging, NotStarted, Todo, b.value.severity);
    assert SeverityName(b.value.severity) == SeverityName(severity);
  }

  /** The PATCH body that resolves a blocker: only `active: false`. */
  function ResolveBody(): (b: BlockerPatchBody)
    ensures b.active == Set(false)
    ensures b.stageId.Keep? && b.severity.Keep? && b.reason.Keep? && b.owner.Keep? && b.eta.Keep?
    ensures ParseBlockerPatch(b).Some? && ParseBlockerPatch(b).value.active == Set(false)
  {
    BlockerPatchBody(Keep, Keep, Keep, Keep, Keep, Set(false))
  }

  // ------------------------------------------------------------ display

  /** The label of a stage status; anything unknown reads as Not Started. */
  function StatusLabel(status: string): (shown: string)
    ensures shown == "Not Started" <==> status != "in_progress" && status != "blocked" && status != "done"
    ensures status == "blocked" <==> shown == "Blocked"
  {
    if status == "in_progress" then "In Progress"
    else if status == "blocked" then "Blocked"
    else if status == "done" then "Done"
    else "Not Started"
  }

  /** The stage's tasks; a missing list reads as empty. */
  function Tasks(stage: PanelStage): seq<PanelTask> {
    stage.tasks.GetOr([])
  }

  /** The blockers the panel lists and counts: the stage's active blockers, in the order received. */
  function ActiveBlockers(stage: PanelStage): (r: seq<PanelBlocker>)
    ensures forall b :: b in r <==> b in stage.blockers.GetOr([]) && b.active
    ensures IsSubsequence(r, stage.blockers.GetOr([]))
  {
    var active := (b: PanelBlocker) => b.active;
    FilterIsSubsequence(stage.blockers.GetOr([]), active);
    Filter(stage.blockers.GetOr([]), active)
  }

  /** `tasksCompleted`: the tasks whose status is `done`. */
  function TasksCompleted(stage: PanelStage): (c: nat)
    ensures c <= TasksTotal(stage)
    ensures c == TasksTotal(stage) <==> forall t :: t in Tasks(stage) ==> t.status == "done"
    ensures c == 0 <==> forall t :: t in Tasks(stage) ==> t.status != "done"
  {
    var done := (t: PanelTask) => t.status == "done";
    var finished := Filter(Tasks(stage), done);
    assert finished == [] || finished[0] in finished;
    |finished|
  }

  /** `tasksTotal` */
  function TasksTotal(stage: PanelStage): (n: nat)
    ensures n == |Tasks(stage)|
  {
    |Tasks(stage)|
  }

  // --------------------------------------------------------- form state

  /** The panel's form fields and dialog flags. */
  class PanelForm {
    var taskDialogOpen: bool
    var blockerDialogOpen: bool
    var taskTitle: string
    var taskDescription: string
    var taskOwner: string
    var blockerReason: string
    var blockerSeverity: Severity
    var blockerOwner: string

    /** Closed dialogs, empty fields, severity P2. */
    constructor ()
      ensures !taskDialogOpen && !blockerDialogOpen
      ensures taskTitle == "" && taskDescription == "" && taskOwner == ""
      ensures blockerReason == "" && blockerOwner == "" && blockerSeverity == P2
    {
      taskDialogOpen, blockerDialogOpen := false, false;
      taskTitle, taskDescription, taskOwner := "", "", "";
      blockerReason, blockerSeverity, blockerOwner := "", P2, "";
    }

    /** What the add-task button submits from the current fields. */
    method SubmitTask(stageId: Option<string>) returns (s: Submission<TaskRequest>)
      ensures s.NotSent? <==> Trim(taskTitle) == ""
      ensures s.Sent? ==> s.body.title == Trim(taskTitle) && s.body.status == "todo"
      ensures s == AddTask(stageId, taskTitle, taskDescription, taskOwner)
    {
      s := AddTask(stageId, taskTitle, taskDescription, taskOwner);
    }

    /** What the add-blocker button submits from the current fields. */
    method SubmitBlocker(stageId: Option<string>) returns (s: Submission<BlockerRequest>)
      ensures s.NotSent? <==> Trim(blockerReason) == ""
      ensures s.Sent? ==> s.body.severity == blockerSeverity && s.body.active
      ensures s == AddBlocker(stageId, blockerReason, blockerSeverity, blockerOwner)
    {
      s := AddBlocker(stageId, blockerReason, blockerSeverity, blockerOwner);
    }

    /** A task was added: its dialog closes and its three fields are cleared; the blocker form is untouched. */
    method TaskAdded()
      modifies this
      ensures !taskDialogOpen && taskTitle == "" && taskDescription == "" && taskOwner == ""
      ensures blockerDialogOpen == old(blockerDialogOpen) && blockerReason == old(blockerReason)
      ensures blockerSeverity == old(blockerSeverity) && blockerOwner == old(blockerOwner)
    {
      taskDialogOpen := false;
      taskTitle, taskDescription, taskOwner := "", "", "";
    }

    /** A blocker was added: its dialog closes and reason and owner are cleared; the chosen severity stays. */
    method BlockerAdded()
      modifies this
      ensures !blockerDialogOpen && blockerReason == "" && blockerOwner == ""
      ensures blockerSeverity == old(blockerSeverity)
      ensures taskDialogOpen == old(taskDialogOpen) && taskTitle == old(taskTitle)
      ensures taskDescription == old(taskDescription) && taskOwner == old(taskOwner)
    {
      blockerDialogOpen := false;
      blockerReason, blockerOwner := "", "";
    }
  }
}
