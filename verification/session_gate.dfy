/** The session gate shared by the account pages: once the session status
    has resolved, a missing session sends the visitor to the login page and
    a present one supplies the name and email the page shows. */
module SessionGate {
  import opened Js

  /** The `status` reported alongside the session. */
  datatype AuthStatus = Loading | Authenticated | Unauthenticated

  datatype SessionUser = SessionUser(name: Option<string>, email: Option<string>)

  /** The client-side session; its `user` may be absent. */
  datatype Session = Session(user: Option<SessionUser>)

  const LoginPath := "/login"

  /** What the page's auth effect decides. */
  datatype Gate = Wait | RedirectToLogin | Admit(name: string, email: string)

  /** The three views an account page can render. */
  datatype View = LoadingView | NothingView | PageView

  /** `session.user?.name`. */
  function UserName(s: Session): Option<string> {
    if s.user.Some? then s.user.value.name else None
  }

  /** `session.user?.email`. */
  function UserEmail(s: Session): Option<string> {
    if s.user.Some? then s.user.value.email else None
  }

  /** The auth effect's decision for a status and a session. */
  function Decide(status: AuthStatus, session: Option<Session>): (g: Gate)
    ensures status == Loading ==> g == Wait
    ensures status != Loading && session.None? ==> g == RedirectToLogin
    ensures status != Loading && session.Some? ==> g.Admit?
    ensures g.Admit? ==> && (Truthy(UserName(session.value)) ==> g.name == UserName(session.value).value)
                         && (!Truthy(UserName(session.value)) ==> g.name == "User")
                         && (Truthy(UserEmail(session.value)) ==> g.email == UserEmail(session.value).value)
                         && (!Truthy(UserEmail(session.value)) ==> g.email == "")
  {
    if status == Loading then Wait
    else match session
      case None => RedirectToLogin
      case Some(s) => Admit(Or(UserName(s), "User"), Or(UserEmail(s), ""))
  }

  /** The router pushes the effect issues: exactly one, to the login page,
      on a redirect, and none otherwise. */
  function Pushes(g: Gate): (paths: seq<string>)
    ensures |paths| <= 1
    ensures paths == [LoginPath] <==> g == RedirectToLogin
    ensures g != RedirectToLogin ==> paths == []
  {
    if g == RedirectToLogin then [LoginPath] else []
  }
}
