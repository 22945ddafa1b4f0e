/** `POST /api/logout` (src/app/api/logout/route.ts): removes the session cookie; no token is
    needed. */
module Logout {
  import opened Wrappers
  import opened Http
  import opened Cookies
  import Middleware
  import Jwt

  /** `{path: '/', secure: true, sameSite: 'strict'}`. */
  const DeleteAttributes: Attributes := Attributes(Some("/"), true, false, Some(Strict), None)

  const LogoutWrites: map<string, CookieWrite> := map["authToken" := Expire(DeleteAttributes)]

  /** The handler; `throws` stands for an exception inside its `try`. */
  method Post(throws: bool) returns (status: int, body: Json, cookies: ResponseCookies)
    ensures fresh(cookies)
    ensures !throws ==>
      status == 200 && body == Message("message", "Erfolgreich ausgeloggt") && cookies.writes == LogoutWrites
    ensures throws ==>
      status == 500 && body == Message("message", "Fehler beim Ausloggen") && cookies.writes == map[]
  {
    cookies := new ResponseCookies();
    if throws {
      return 500, Message("message", "Fehler beim Ausloggen"), cookies;
    }
    status, body := 200, Message("message", "Erfolgreich ausgeloggt");
    cookies.Delete("authToken", DeleteAttributes);
  }

  /** Logging out removes `authToken` and nothing else. */
  lemma LogoutRemovesOnlyTheSession(jar: Jar)
    ensures ApplyWrites(jar, LogoutWrites) == jar - {"authToken"}
  {
    var after := ApplyWrites(jar, LogoutWrites);
    assert "authToken" in LogoutWrites && Removes(LogoutWrites["authToken"]);
    assert after.Keys == jar.Keys - {"authToken"};
  }

  /** `failedAttempts` is left alone, so a locked-out client stays locked out, and a logged-out
      client never gets past the gate. */
  lemma LogoutKeepsTheLockout(jar: Jar, env: Jwt.Environment, path: string)
    ensures var after := ApplyWrites(jar, LogoutWrites);
      (Middleware.LockedOut(after) <==> Middleware.LockedOut(jar)) &&
      (Middleware.Matches(path) ==> Middleware.Gate(path, after, env) != Middleware.PassThrough) &&
      (Middleware.Matches(path) && Middleware.LockedOut(jar) ==>
        Middleware.Gate(path, after, env) == Middleware.RedirectTo("/locked"))
  {
    LogoutRemovesOnlyTheSession(jar);
    var after := jar - {"authToken"};
    assert Middleware.FailedAttempts(after) == Middleware.FailedAttempts(jar);
    assert Middleware.TokenFromCookies(after).None?;
  }

  /** Logging out twice leaves the same jar as logging out once. */
  lemma LogoutIdempotent(jar: Jar)
    ensures ApplyWrites(ApplyWrites(jar, LogoutWrites), LogoutWrites) == ApplyWrites(jar, LogoutWrites)
  {
    LogoutRemovesOnlyTheSession(jar);
    LogoutRemovesOnlyTheSession(jar - {"authToken"});
    assert jar - {"authToken"} - {"authToken"} == jar - {"authToken"};
  }
}
