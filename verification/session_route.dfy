/** The session probe (`app/api/auth/session/route.ts`): reports whether the
    caller is logged in, failing closed when the session cannot be read. */
module SessionRoute {
  import opened Common
  import opened Accounts

  /** The JSON reply: exactly `{ isLoggedIn: false }`, or `isLoggedIn: true`
      with the session's username and userId. */
  datatype SessionView = LoggedOut | LoggedIn(username: Option<string>, userId: Option<string>)

  /** GET /api/auth/session. `read` is the session as read from the cookie,
      or `None` when reading it threw. The handler only reads. */
  function SessionStatus(read: Option<SessionData>): (v: SessionView)
    ensures read.None? ==> v == LoggedOut
    ensures v.LoggedIn? <==> read.Some? && read.value.isLoggedIn
    ensures v.LoggedIn? ==> v.username == read.value.username && v.userId == read.value.userId
  {
    match read
    case None => LoggedOut
    case Some(s) => if !s.isLoggedIn then LoggedOut else LoggedIn(s.username, s.userId)
  }

  /** The probe shows a logged-out session nothing of what it carries: its
      reply does not depend on the stored username or userId. */
  lemma LoggedOutRevealsNothing(a: SessionData, b: SessionData)
    requires !a.isLoggedIn && !b.isLoggedIn
    ensures SessionStatus(Some(a)) == SessionStatus(Some(b)) == SessionStatus(None) == LoggedOut
  {
  }
}
