/** `getUsernameFromToken`, which src/app/api/analytics/route.ts, .../analytics/config/route.ts
    and src/app/api/credentials/route.ts each define in the same words. */
module TokenAuth {
  import opened Wrappers
  import opened Strings
  import opened Cookies
  import Jwt

  /** The `username` claim of a token that verifies; `null` for any verification error, which
      is caught, and `undefined` (also `None` here) for a token without the claim. */
  function UsernameFromToken(env: Jwt.Environment, token: string): (r: Option<string>)
    ensures r.Some? ==> Jwt.Verify(env, token).Ok? && Jwt.Verify(env, token).value.username == r
    ensures Jwt.Verify(env, token).Ok? ==> r == Jwt.Verify(env, token).value.username
  {
    match Jwt.Verify(env, token)
    case Ok(c) => c.username
    case Err(_) => None
  }

  /** The request carries a truthy `authToken` cookie. */
  predicate HasToken(jar: Jar) {
    TruthyOpt(Get(jar, "authToken"))
  }

  /** `username` is truthy after `getUsernameFromToken(token)`. */
  predicate Identified(jar: Jar, env: Jwt.Environment) {
    HasToken(jar) && TruthyOpt(UsernameFromToken(env, Get(jar, "authToken").value))
  }

  function IdentifiedUser(jar: Jar, env: Jwt.Environment): string
    requires Identified(jar, env)
  {
    UsernameFromToken(env, Get(jar, "authToken").value).value
  }

  /** A session token issued at `issued` identifies its user for exactly its hour. */
  lemma SessionTokenIdentifies(env: Jwt.Environment, username: string, issued: int)
    requires Jwt.Sound(env.lib) && env.secret != "" && username != ""
    ensures var t := Jwt.SignSession(env.(now := issued), username).value;
      TruthyOpt(UsernameFromToken(env, t)) <==> env.now < issued + Jwt.OneHour
    ensures var t := Jwt.SignSession(env.(now := issued), username).value;
      env.now < issued + Jwt.OneHour ==> UsernameFromToken(env, t) == Some(username)
  {
    Jwt.SessionTokenLifetime(env.(now := issued), username, env.now);
  }
}
