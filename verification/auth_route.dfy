/** The auth API route: POST logs in or out by setting or deleting the
    session cookie, GET reports whether the cookie holds the sentinel. */
module AuthRoute {
  import opened Common
  import opened Session
  import Middleware

  const Username := "payProduct"
  const Password := "payProduct!@#"
  /** Seven days, in seconds. */
  const CookieMaxAge := 60 * 60 * 24 * 7

  /** A cookie's value and max age; the other attributes are not modelled. */
  datatype Cookie = Cookie(value: string, maxAge: int)

  /** The JSON body's fields; a field that is absent or not a string is None.
      A body that parses to a number, a string, a boolean or an array
      destructures to three absent fields. */
  datatype Body = Body(username: Option<string>, password: Option<string>, action: Option<string>)

  /** The JSON reply: HTTP status, `success` and `message`. */
  datatype Reply = Reply(status: int, success: bool, message: string)

  /** The value of the session cookie in a jar, if it holds one. */
  function SessionOf(jar: map<string, Cookie>): (session: Option<string>)
    ensures session.Some? <==> CookieName in jar
    ensures session.Some? ==> session.value == jar[CookieName].value
  {
    if CookieName in jar then Some(jar[CookieName].value) else None
  }

  /** What the GET handler's cookie read sees: the store, or an error. */
  datatype CookieRead = Unavailable | Available(session: Option<string>)

  /** `GET`: authenticated exactly when the cookie holds the sentinel; an
      error while reading reports false. */
  function Check(read: CookieRead): (authenticated: bool)
    ensures authenticated <==> read.Available? && IsAuthenticated(read.session)
  {
    match read
    case Unavailable => false
    case Available(session) => session == Some(SessionValue)
  }

  /** The request's cookie store, by cookie name. */
  class CookieStore {
    var jar: map<string, Cookie>

    constructor (initial: map<string, Cookie>)
      ensures jar == initial
    {
      jar := initial;
    }

    /** The GET handler's read of the store: it succeeds and sees the
        session cookie's value exactly when the jar holds that cookie. */
    function Read(): (read: CookieRead)
      reads this
      ensures read.Available?
      ensures read.session.Some? <==> CookieName in jar
      ensures read.session.Some? ==> read.session.value == jar[CookieName].value
    {
      Available(SessionOf(jar))
    }

    /** `POST`. `body` is None when the request body is not JSON or is the
        literal `null`: parsing or destructuring throws and the catch
        answers. Logout is checked before the credentials. */
    method Post(body: Option<Body>) returns (reply: Reply)
      modifies this
      ensures body.None? ==>
        reply == Reply(500, false, "Authentication error") && jar == old(jar)
      ensures body.Some? && body.value.action == Some("logout") ==>
        reply == Reply(200, true, "Logged out successfully") && jar == old(jar) - {CookieName}
      ensures body.Some? && body.value.action != Some("logout") &&
              body.value.username == Some(Username) && body.value.password == Some(Password) ==>
        reply == Reply(200, true, "Login successful") &&
        jar == old(jar)[CookieName := Cookie(SessionValue, CookieMaxAge)]
      ensures body.Some? && body.value.action != Some("logout") &&
              !(body.value.username == Some(Username) && body.value.password == Some(Password)) ==>
        reply == Reply(401, false, "Invalid credentials") && jar == old(jar)
      ensures reply.success <==> reply.status == 200
      ensures reply.success ==> (Check(Read()) <==> body.value.action != Some("logout"))
      ensures forall name :: name != CookieName ==> (name in jar <==> name in old(jar))
      ensures forall name :: name != CookieName && name in jar ==> jar[name] == old(jar)[name]
    {
      if body.None? {
        return Reply(500, false, "Authentication error");
      }
      var b := body.value;
      if b.action == Some("logout") {
        jar := jar - {CookieName};
        return Reply(200, true, "Logged out successfully");
      }
      if b.username == Some(Username) && b.password == Some(Password) {
        jar := jar[CookieName := Cookie(SessionValue, CookieMaxAge)];
        return Reply(200, true, "Login successful");
      }
      reply := Reply(401, false, "Invalid credentials");
    }
  }

  /** Whatever the jar held before, the session a successful login sets opens
      every page but the login page, which redirects home; after logout every
      page but the login page and the API routes redirects to login. */
  lemma LoginOpensPages(before: map<string, Cookie>, pathname: string)
    ensures var signedIn := SessionOf(before[CookieName := Cookie(SessionValue, CookieMaxAge)]);
      !StartsWith(pathname, Middleware.ApiPrefix) ==>
        Middleware.Route(signedIn, pathname) ==
          (if pathname == Middleware.LoginPath then Middleware.Redirect(Middleware.HomePath) else Middleware.Next)
    ensures var signedOut := SessionOf(before - {CookieName});
      !StartsWith(pathname, Middleware.ApiPrefix) ==>
        Middleware.Route(signedOut, pathname) ==
          (if pathname == Middleware.LoginPath then Middleware.Next else Middleware.Redirect(Middleware.LoginPath))
  {
  }
}
