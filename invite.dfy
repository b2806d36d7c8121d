/**
 * The invitation page: which screen it shows for the state of the invitation
 * query, the accept request and the session, and the accept request itself.
 */
module Invite {
  import opened Common
  import opened Text

  /** The accept request's state: not sent yet (or in flight), succeeded, or failed with an error that may carry a message. */
  datatype AcceptState = Idle | Succeeded | Failed(message: Option<string>)

  /** What the page knows: the invitation query's loading flag, error and result, the accept state, and whether someone is signed in. */
  datatype PageState = PageState(loading: bool, queryError: bool, invitation: bool, accept: AcceptState, signedIn: bool)

  datatype Screen = Loading | NotFound | Welcome | AcceptError(message: string) | SignIn | Invitation

  const FallbackError := "Something went wrong. Please try again."

  /** The page's early returns, in order. */
  function ScreenOf(s: PageState): (r: Screen)
    ensures r == Loading <==> s.loading
    ensures r == NotFound <==> !s.loading && (s.queryError || !s.invitation)
    ensures r == Welcome <==> !s.loading && !s.queryError && s.invitation && s.accept.Succeeded?
    ensures r.AcceptError? <==> !s.loading && !s.queryError && s.invitation && s.accept.Failed?
    ensures r.AcceptError? ==> r.message == OrElse(s.accept.message, FallbackError)
    ensures r == SignIn <==> !s.loading && !s.queryError && s.invitation && s.accept.Idle? && !s.signedIn
    ensures r == Invitation <==> !s.loading && !s.queryError && s.invitation && s.accept.Idle? && s.signedIn
  {
    if s.loading then Loading
    else if s.queryError || !s.invitation then NotFound
    else if s.accept.Succeeded? then Welcome
    else if s.accept.Failed? then AcceptError(OrElse(s.accept.message, FallbackError))
    else if !s.signedIn then SignIn
    else Invitation
  }

  /** Signing out never hides a welcome or an accept error: both come before the session check. */
  lemma AcceptOutcomeBeforeSession(s: PageState)
    requires !s.loading && !s.queryError && s.invitation && !s.accept.Idle?
    ensures ScreenOf(s) == ScreenOf(s.(signedIn := !s.signedIn))
  {
  }

  /** What accepting does: fail at once without a token, else POST to the invitation's accept path. */
  datatype AcceptAttempt = NoToken | Post(path: string)

  function Accept(token: Option<string>): (a: AcceptAttempt)
    ensures a.NoToken? <==> !Truthy(token)
    ensures a.Post? ==> a.path == "/api/invitations/" + token.value + "/accept"
  {
    if Truthy(token) then Post("/api/invitations/" + token.value + "/accept") else NoToken
  }

  /** The invitation query's key, and whether the query runs: only with a token. */
  function InvitationQuery(token: Option<string>): (q: (seq<string>, bool))
    ensures q.1 <==> Truthy(token)
    ensures q.1 ==> q.0 == ["/api/invitations/" + token.value]
  {
    if Truthy(token) then (["/api/invitations/" + token.value], true) else (["skip"], false)
  }

  /** A page without a token can neither load an invitation nor send an accept request. */
  lemma NoTokenNoRequest(token: Option<string>)
    requires !Truthy(token)
    ensures !InvitationQuery(token).1 && Accept(token) == NoToken
  {
  }
}
