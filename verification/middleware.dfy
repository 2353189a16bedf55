/** The session cookie that the middleware and the auth route share. */
module Session {
  import opened Common

  const CookieName := "roadmap-session"
  const SessionValue := "authenticated"

  /** `session?.value === SESSION_VALUE`: only the exact sentinel counts; a
      missing cookie or any other value does not. */
  predicate IsAuthenticated(session: Option<string>): (b: bool)
    ensures b <==> session.Some? && session.value == SessionValue
  {
    session == Some(SessionValue)
  }

  /** `startsWith` on strings. */
  predicate StartsWith(s: string, prefix: string)
  {
    |prefix| <= |s| && s[..|prefix|] == prefix
  }
}

/** The request middleware: every path but the API routes needs the session,
    and a signed-in visitor does not see the login page. */
module Middleware {
  import opened Common
  import opened Session

  datatype Decision = Next | Redirect(location: string)

  const LoginPath := "/login"
  const ApiPrefix := "/api"
  const HomePath := "/"

  /** `middleware(request)`, on the session cookie's value and the pathname. */
  function Route(session: Option<string>, pathname: string): (d: Decision)
    ensures StartsWith(pathname, ApiPrefix) ==> d == Next
    ensures !StartsWith(pathname, ApiPrefix) && !IsAuthenticated(session) && pathname != LoginPath ==>
      d == Redirect(LoginPath)
    ensures !StartsWith(pathname, ApiPrefix) && IsAuthenticated(session) && pathname == LoginPath ==>
      d == Redirect(HomePath)
    ensures d == Next <==>
      StartsWith(pathname, ApiPrefix) || (IsAuthenticated(session) <==> pathname != LoginPath)
    ensures d.Redirect? ==> d.location != pathname
  {
    var isAuthenticated := IsAuthenticated(session);
    var isLoginPage := pathname == LoginPath;
    var isApiRoute := StartsWith(pathname, ApiPrefix);
    if isApiRoute then Next
    else if !isAuthenticated && !isLoginPage then Redirect(LoginPath)
    else if isAuthenticated && isLoginPage then Redirect(HomePath)
    else Next
  }

  /** Following a redirect lands on a page the middleware lets through, so no
      request is redirected twice in a row. */
  lemma RedirectSettles(session: Option<string>, pathname: string)
    requires Route(session, pathname).Redirect?
    ensures Route(session, Route(session, pathname).location) == Next
  {
  }

  /** The login page itself is always reachable without a session. */
  lemma LoginReachableSignedOut(session: Option<string>)
    requires !IsAuthenticated(session)
    ensures Route(session, LoginPath) == Next
  {
  }
}
