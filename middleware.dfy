/** The access gate in front of the protected pages (src/middleware.ts): a lock-out check on
    the `failedAttempts` cookie, then the `authToken` cookie and its verification. */
module Middleware {
  import opened Wrappers
  import opened Strings
  import opened Cookies
  import Jwt

  /** What the gate answers: a redirect, or `NextResponse.next()`. Neither writes a cookie. */
  datatype Outcome = RedirectTo(path: string) | PassThrough

  const LockThreshold: int := 5

  /** `getTokenFromCookies`. */
  function TokenFromCookies(jar: Jar): Option<string> {
    Get(jar, "authToken")
  }

  /** `getFailedAttempts`: `parseInt` of the cookie's value, 0 without the cookie; `None` is NaN. */
  function FailedAttempts(jar: Jar): Option<int> {
    if "failedAttempts" in jar then ParseInt(jar["failedAttempts"].value) else Some(0)
  }

  /** `failedAttempts >= 5`, which is false for NaN. */
  predicate LockedOut(jar: Jar) {
    var n := FailedAttempts(jar);
    n.Some? && n.value >= LockThreshold
  }

  /** `middleware(req)` on a request to a protected page. */
  function Decide(jar: Jar, env: Jwt.Environment): (r: Outcome)
    ensures r.RedirectTo? ==> r.path == "/locked" || r.path == "/login"
    ensures r == PassThrough ==>
      TokenFromCookies(jar).Some? && Jwt.Verify(env, TokenFromCookies(jar).value).Ok?
  {
    var token := TokenFromCookies(jar);
    if LockedOut(jar) then RedirectTo("/locked")
    else if token.None? || !Truthy(token.value) then RedirectTo("/login")
    else if Jwt.Verify(env, token.value).Err? then RedirectTo("/login")
    else PassThrough
  }

  /** A locked-out client goes to `/locked` whatever its token and whatever the verifier says,
      so the token is never looked at. */
  lemma LockoutComesFirst(jar: Jar, env: Jwt.Environment, token: StoredCookie, other: Jwt.Environment)
    requires LockedOut(jar)
    ensures Decide(jar, env) == RedirectTo("/locked")
    ensures Decide(jar["authToken" := token], other) == RedirectTo("/locked")
    ensures Decide(jar - {"authToken"}, other) == RedirectTo("/locked")
  {
    assert FailedAttempts(jar["authToken" := token]) == FailedAttempts(jar);
    assert FailedAttempts(jar - {"authToken"}) == FailedAttempts(jar);
  }

  /** Without a lock-out, a missing or empty `authToken` sends the client to `/login`. */
  lemma NoTokenGoesToLogin(jar: Jar, env: Jwt.Environment)
    requires !LockedOut(jar)
    requires "authToken" !in jar || jar["authToken"].value == ""
    ensures Decide(jar, env) == RedirectTo("/login")
  {
  }

  /** A token that fails verification sends the client to `/login`, never to `/locked`. */
  lemma BadTokenGoesToLogin(jar: Jar, env: Jwt.Environment)
    requires "authToken" in jar && Jwt.Verify(env, jar["authToken"].value).Err?
    ensures Decide(jar, env) != PassThrough
    ensures !LockedOut(jar) ==> Decide(jar, env) == RedirectTo("/login")
  {
  }

  /** Without a lock-out, the request gets through exactly when there is a non-empty token
      that verifies: an empty one is turned away by `!token` before any verification. */
  lemma PassesExactlyWithValidToken(jar: Jar, env: Jwt.Environment)
    requires !LockedOut(jar)
    ensures Decide(jar, env) == PassThrough <==>
      "authToken" in jar && jar["authToken"].value != "" && Jwt.Verify(env, jar["authToken"].value).Ok?
  {
  }

  /** A missing counter counts as 0 and an unparsable one as NaN: neither locks. */
  lemma MissingOrUnparsableCounterNeverLocks(jar: Jar)
    requires "failedAttempts" !in jar || ParseInt(jar["failedAttempts"].value).None?
    ensures !LockedOut(jar)
    ensures "failedAttempts" !in jar ==> FailedAttempts(jar) == Some(0)
  {
  }

  /** A counter written as a decimal number locks exactly from 5 on. */
  lemma DecimalCounterLocksFromFive(jar: Jar, n: int)
    requires "failedAttempts" in jar && jar["failedAttempts"].value == IntToString(n)
    ensures LockedOut(jar) <==> n >= 5
  {
    ParseIntOfIntToString(n);
  }

  // ---------------------------------------------------------------------------
  // config.matcher

  /** `'/app/page'`, `'/profil/page'`, `'/settings/page'`, `'/app/(.*)'`, `'/profil/(.*)'`,
      `'/settings/(.*)'`. */
  predicate Matches(path: string) {
    path == "/app/page" || path == "/profil/page" || path == "/settings/page" ||
    StartsWith(path, "/app/") || StartsWith(path, "/profil/") || StartsWith(path, "/settings/")
  }

  /** The matcher covers exactly the three path families below `/app/`, `/profil/` and
      `/settings/`; the three literal pages are members of them. */
  lemma MatcherIsThreeFamilies(path: string)
    ensures Matches(path) <==>
      StartsWith(path, "/app/") || StartsWith(path, "/profil/") || StartsWith(path, "/settings/")
  {
    assert StartsWith("/app/page", "/app/");
    assert StartsWith("/profil/page", "/profil/");
    assert StartsWith("/settings/page", "/settings/");
  }

  /** The whole middleware: unmatched paths are not gated. */
  function Gate(path: string, jar: Jar, env: Jwt.Environment): (r: Outcome)
    ensures !Matches(path) ==> r == PassThrough
  {
    if Matches(path) then Decide(jar, env) else PassThrough
  }

  /** The gate's redirect targets are not gated themselves, so it never redirects in a loop. */
  lemma RedirectTargetsAreOpen(path: string, jar: Jar, env: Jwt.Environment, jar2: Jar, env2: Jwt.Environment)
    ensures Gate(path, jar, env).RedirectTo? ==> Gate(Gate(path, jar, env).path, jar2, env2) == PassThrough
  {
    var r := Gate(path, jar, env);
    if r.RedirectTo? {
      assert !StartsWith(r.path, "/app/") && !StartsWith(r.path, "/profil/") && !StartsWith(r.path, "/settings/") by {
        assert r.path == "/locked" || r.path == "/login";
        assert r.path[1] == 'l';
      }
    }
  }
}
