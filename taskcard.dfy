/**
 * The task card: the icon and label of each task status. Its avatar initials
 * are `TaskDetails.Initials`, the same rule as the details dialog's.
 */
module TaskCard {
  import opened Common
  import opened Schema

  datatype StatusIcon = Circle | Clock | CheckCircle | AlertCircle

  datatype StatusDisplay = StatusDisplay(icon: StatusIcon, caption: string)

  /** The card's status table, one entry per task status. */
  function Display(s: TaskStatus): (d: StatusDisplay)
    ensures d.icon == CheckCircle <==> s == TaskStatus.Done
    ensures d.icon == Clock <==> s == Doing
  {
    match s
    case Todo => StatusDisplay(Circle, "To Do")
    case Doing => StatusDisplay(Clock, "In Progress")
    case Done => StatusDisplay(CheckCircle, "Done")
    case Na => StatusDisplay(AlertCircle, "N/A")
  }

  /** The table looked up by the status name: an entry for exactly the four task statuses. */
  function DisplayOf(status: string): (d: Option<StatusDisplay>)
    ensures d.Some? <==> status == "todo" || status == "doing" || status == "done" || status == "na"
  {
    match ParseTaskStatus(status)
    case Some(s) => Some(Display(s))
    case None => None
  }

  /** No two statuses share a caption. */
  lemma CaptionsDistinct(a: TaskStatus, b: TaskStatus)
    requires a != b
    ensures Display(a).caption != Display(b).caption
  {
  }
}
