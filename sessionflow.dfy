/** How the handlers and the gate work together on one client's jar: a login opens the gated
    pages for the hour its token lives, and only while the client is not locked out. */
module SessionFlow {
  import opened Wrappers
  import opened Http
  import opened Cookies
  import Jwt
  import Login
  import Middleware
  import LockedLogoutPage

  /** The failed-attempt counter survives a login response unchanged. */
  lemma LoginKeepsTheCounter(jar: Jar, r: Response, env: Jwt.Environment, body: Option<Json>)
    requires Jwt.Sound(env.lib)
    requires r == Login.ApiLogin(body, env) || r == Login.FormLogin(body, env)
    ensures Middleware.FailedAttempts(Login.Receive(jar, r)) == Middleware.FailedAttempts(jar)
  {
    Login.LoginStoresOnlyTheSession(jar, body, env);
  }

  /** A jar holding a fresh session token passes the gate for the token's hour. */
  lemma GateWithSessionToken(after: Jar, env: Jwt.Environment, later: int, path: string)
    requires Jwt.Sound(env.lib) && env.secret != "" && Middleware.Matches(path)
    requires "authToken" in after
    requires after["authToken"].value == env.lib.sign(Jwt.SessionClaims("admin", env.now), env.secret)
    ensures var outcome := Middleware.Gate(path, after, env.(now := later));
      (Middleware.LockedOut(after) ==> outcome == Middleware.RedirectTo("/locked")) &&
      (!Middleware.LockedOut(after) && later < env.now + Jwt.OneHour ==> outcome == Middleware.PassThrough) &&
      (!Middleware.LockedOut(after) && later >= env.now + Jwt.OneHour ==> outcome == Middleware.RedirectTo("/login"))
  {
    Jwt.SessionTokenLifetime(env, "admin", later);
    if !Middleware.LockedOut(after) {
      Middleware.PassesExactlyWithValidToken(after, env.(now := later));
    }
  }

  /** After a successful login, a gated page lets the client through at every later moment of
      the token's hour and sends it to `/login` from then on, unless it is locked out, in which
      case it goes to `/locked` all along. */
  lemma LoginOpensTheGateForAnHour(jar: Jar, body: Option<Json>, env: Jwt.Environment, r: Response, later: int, path: string)
    requires Jwt.Sound(env.lib)
    requires r == Login.ApiLogin(body, env) || r == Login.FormLogin(body, env)
    requires r.Status() == 200 && Middleware.Matches(path)
    ensures var after := Login.Receive(jar, r);
      var outcome := Middleware.Gate(path, after, env.(now := later));
      (Middleware.LockedOut(jar) ==> outcome == Middleware.RedirectTo("/locked")) &&
      (!Middleware.LockedOut(jar) && later < env.now + Jwt.OneHour ==> outcome == Middleware.PassThrough) &&
      (!Middleware.LockedOut(jar) && later >= env.now + Jwt.OneHour ==> outcome == Middleware.RedirectTo("/login"))
  {
    var after := Login.Receive(jar, r);
    Login.LoginStoresOnlyTheSession(jar, body, env);
    LoginKeepsTheCounter(jar, r, env, body);
    assert Middleware.LockedOut(after) == Middleware.LockedOut(jar);
    GateWithSessionToken(after, env, later, path);
  }

  /** The session cookie a login stores is HttpOnly, so the locked page's logout, which looks
      for it in `document.cookie`, never finds a token after a successful login. */
  lemma LockedPageNeverSeesTheSession(jar: Jar, body: Option<Json>, env: Jwt.Environment, r: Response, order: seq<string>)
    requires Jwt.Sound(env.lib)
    requires r == Login.ApiLogin(body, env) || r == Login.FormLogin(body, env)
    requires r.Status() == 200
    requires LockedLogoutPage.WellFormed(ScriptVisible(Login.Receive(jar, r), order))
    ensures LockedLogoutPage.TokenFromCookieString(CookieString(ScriptVisible(Login.Receive(jar, r), order))).None?
  {
    Login.LoginStoresOnlyTheSession(jar, body, env);
    LockedLogoutPage.HttpOnlySessionIsNeverRead(Login.Receive(jar, r), order);
  }
}
