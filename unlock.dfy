/** `POST /api/unlock` (src/app/api/unlock/route.ts): resets the `failedAttempts` counter and
    removes the session, whatever the request holds. */
module Unlock {
  import opened Wrappers
  import opened Strings
  import opened Http
  import opened Cookies
  import Middleware
  import Jwt

  /** `{httpOnly: true, secure: true, sameSite: 'strict', maxAge: 30 * 60}`. */
  const CounterAttributes: Attributes := Attributes(None, true, true, Some(Strict), Some(30 * 60))

  /** The cookie writes of a successful unlock. */
  const UnlockWrites: map<string, CookieWrite> :=
    map["failedAttempts" := Store("0", CounterAttributes), "authToken" := Expire(NoAttributes)]

  /** The handler; `throws` stands for an exception inside its `try`, which answers 500 with a
      fresh response that carries no cookie. The request is never read. */
  method Post(throws: bool) returns (status: int, body: Json, cookies: ResponseCookies)
    ensures fresh(cookies)
    ensures !throws ==>
      status == 200 && body == Message("message", "Konto erfolgreich entsperrt") && cookies.writes == UnlockWrites
    ensures throws ==>
      status == 500 && body == Message("message", "Fehler beim Entsperren des Kontos") && cookies.writes == map[]
  {
    cookies := new ResponseCookies();
    if throws {
      return 500, Message("message", "Fehler beim Entsperren des Kontos"), cookies;
    }
    status, body := 200, Message("message", "Konto erfolgreich entsperrt");
    cookies.Set("failedAttempts", "0", CounterAttributes);
    cookies.Delete("authToken", NoAttributes);
  }

  /** After an unlock the counter reads "0" (hidden from scripts), the session is gone, and no
      other cookie has changed. */
  lemma UnlockTouchesOnlyItsCookies(jar: Jar)
    ensures var after := ApplyWrites(jar, UnlockWrites);
      after.Keys == (jar.Keys - {"authToken"}) + {"failedAttempts"} &&
      after["failedAttempts"] == StoredCookie("0", true) &&
      forall n :: n in after && n != "failedAttempts" ==> after[n] == jar[n]
  {
    var after := ApplyWrites(jar, UnlockWrites);
    assert "failedAttempts" in UnlockWrites && !Removes(UnlockWrites["failedAttempts"]);
    assert "authToken" in UnlockWrites && Removes(UnlockWrites["authToken"]);
    assert after.Keys == (jar.Keys - {"authToken"}) + {"failedAttempts"};
  }

  /** An unlocked client is no longer locked out and, holding no token, is sent to `/login` by
      every gated page. */
  lemma UnlockedClientGoesToLogin(jar: Jar, env: Jwt.Environment, path: string)
    requires Middleware.Matches(path)
    ensures var after := ApplyWrites(jar, UnlockWrites);
      !Middleware.LockedOut(after) && Middleware.Gate(path, after, env) == Middleware.RedirectTo("/login")
  {
    var after := ApplyWrites(jar, UnlockWrites);
    UnlockTouchesOnlyItsCookies(jar);
    ParseIntOfIntToString(0);
    assert after["failedAttempts"].value == IntToString(0);
    assert Middleware.FailedAttempts(after) == Some(0);
  }

  /** A second unlock leaves the jar as the first one did. */
  lemma UnlockIdempotent(jar: Jar)
    ensures ApplyWrites(ApplyWrites(jar, UnlockWrites), UnlockWrites) == ApplyWrites(jar, UnlockWrites)
  {
    ApplyWritesIdempotent(jar, UnlockWrites);
  }
}
