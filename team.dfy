/**
 * The team page: how an invitation's status is shown, and the invite form.
 */
module Team {
  import opened Common
  import opened Text

  /** `status.charAt(0).toUpperCase() + status.slice(1)` */
  function StatusText(status: string): (r: string)
    ensures |r| == |status|
    ensures status != "" ==> r[0] == UpperChar(status[0]) && r[1..] == status[1..]
    ensures status == "" ==> r == ""
  {
    if status == "" then "" else [UpperChar(status[0])] + status[1..]
  }

  /** Capitalising twice is capitalising once. */
  lemma StatusTextIdempotent(status: string)
    ensures StatusText(StatusText(status)) == StatusText(status)
  {
    if status != "" {
      var once := StatusText(status);
      assert UpperChar(UpperChar(status[0])) == UpperChar(status[0]);
      assert StatusText(once) == [UpperChar(once[0])] + once[1..];
    }
  }

  datatype StatusIcon = ClockIcon | CheckIcon | CrossIcon | NoIcon

  /** `getStatusIcon` */
  function IconOf(status: string): (i: StatusIcon)
    ensures i == ClockIcon <==> status == "pending"
    ensures i == CheckIcon <==> status == "accepted"
    ensures i == CrossIcon <==> status == "declined" || status == "expired"
    ensures i == NoIcon <==> status !in {"pending", "accepted", "declined", "expired"}
  {
    if status == "pending" then ClockIcon
    else if status == "accepted" then CheckIcon
    else if status == "declined" || status == "expired" then CrossIcon
    else NoIcon
  }

  datatype Role = Admin | Developer

  /** What the send button does: nothing without a workspace, else POST the email and role for the first workspace. */
  datatype Send = NoWorkspace | SendInvite(email: string, role: Role, workspaceId: string)

  /** The invite form's fields. */
  class InviteForm {
    var email: string
    var role: Role

    constructor ()
      ensures email == "" && role == Developer
    {
      email, role := "", Developer;
    }

    /** `handleSendInvite`: the workspaces query's result may be missing or empty. */
    method Submit(workspaces: Option<seq<string>>) returns (s: Send)
      ensures s.NoWorkspace? <==> workspaces.None? || workspaces.value == []
      ensures s.SendInvite? ==> s.email == email && s.role == role && s.workspaceId == workspaces.value[0]
    {
      if workspaces.None? || |workspaces.value| == 0 {
        return NoWorkspace;
      }
      s := SendInvite(email, role, workspaces.value[0]);
    }

    method Edit(newEmail: string, newRole: Role)
      modifies this
      ensures email == newEmail && role == newRole
    {
      email, role := newEmail, newRole;
    }

    /** A sent invitation clears the email and sets the role back to developer. */
    method Sent()
      modifies this
      ensures email == "" && role == Developer
    {
      email, role := "", Developer;
    }
  }
}
