/** JSON Web Tokens as the portal uses them through `jsonwebtoken` (login, middleware, the
    locked-logout page) and `jose` (the API routes). The libraries themselves are given
    functions; what the portal relies on is the `exp` rule of section 4.1.4 of RFC 7519. */
module Jwt {
  import opened Wrappers

  /** The claims the portal signs and reads; times are seconds since the epoch. */
  datatype Claims = Claims(username: Option<string>, iat: Option<int>, exp: Option<int>)

  /** A JWT library as given functions: `sign` is the compact token for some claims under an
      HMAC secret, `signedWith` says whether a token carries a valid signature under a secret,
      and `decode` reads the claims of a token without checking anything (`jwt.decode`). */
  datatype Library = Library(
    sign: (Claims, string) -> string,
    signedWith: (string, string) -> bool,
    decode: string -> Option<Claims>)

  /** The characters of a compact serialization (section 7.1 of RFC 7515): the base64url
      alphabet and the '.' between the parts. */
  predicate IsTokenChar(c: char) {
    ('A' <= c <= 'Z') || ('a' <= c <= 'z') || ('0' <= c <= '9') || c == '-' || c == '_' || c == '.'
  }

  predicate IsCompact(token: string) {
    forall i :: 0 <= i < |token| ==> IsTokenChar(token[i])
  }

  /** What the portal relies on a library to do: a token signed under a non-empty secret is a
      non-empty compact serialization, carries a valid signature under that secret and
      decodes to the claims that were signed. */
  ghost predicate Sound(lib: Library) {
    forall c: Claims, k: string {:trigger lib.sign(c, k)} :: k != "" ==>
      var t := lib.sign(c, k);
      t != "" && IsCompact(t) && lib.signedWith(t, k) && lib.decode(t) == Some(c)
  }

  /** The process environment and clock a handler runs with: the JWT library, `JWT_SECRET`
      ("" when it is not set) and the current time in seconds. */
  datatype Environment = Environment(lib: Library, secret: string, now: int)

  datatype VerifyError = MissingSecret | BadSignature | Malformed | Expired

  /** `expiresIn: '1h'`. */
  const OneHour: int := 3600

  /** Section 4.1.4 of RFC 7519: a token whose `exp` is at or before the current time is
      rejected; one without `exp` never expires. */
  predicate ExpiredAt(c: Claims, now: int) {
    c.exp.Some? && now >= c.exp.value
  }

  /** `jwt.verify(token, secret)` and `jose.jwtVerify(token, secret)`: an empty secret, a bad
      signature, an unreadable payload and an expired token each fail; otherwise the claims. */
  function Verify(env: Environment, token: string): (r: Result<Claims, VerifyError>)
    ensures r.Ok? <==>
      env.secret != "" && env.lib.signedWith(token, env.secret) &&
      env.lib.decode(token).Some? && !ExpiredAt(env.lib.decode(token).value, env.now)
    ensures r.Ok? ==> env.lib.decode(token) == Some(r.value)
    ensures env.secret == "" ==> r == Err(MissingSecret)
  {
    if env.secret == "" then Err(MissingSecret)
    else if !env.lib.signedWith(token, env.secret) then Err(BadSignature)
    else match env.lib.decode(token)
      case None => Err(Malformed)
      case Some(c) => if ExpiredAt(c, env.now) then Err(Expired) else Ok(c)
  }

  /** The claims `jwt.sign({username}, secret, {expiresIn: '1h'})` puts in a token issued at
      `now`: the username, `iat` and `exp` one hour later, nothing else. */
  function SessionClaims(username: string, now: int): (c: Claims)
    ensures c.username == Some(username)
    ensures c.exp.Some? && c.iat.Some? && c.exp.value - c.iat.value == OneHour
  {
    Claims(Some(username), Some(now), Some(now + OneHour))
  }

  /** `jwt.sign`, which throws when the secret is empty. */
  function SignSession(env: Environment, username: string): (r: Option<string>)
    ensures r.Some? <==> env.secret != ""
    ensures r.Some? ==> r.value == env.lib.sign(SessionClaims(username, env.now), env.secret)
  {
    if env.secret == "" then None else Some(env.lib.sign(SessionClaims(username, env.now), env.secret))
  }

  /** A session token verifies, under the secret it was signed with, for exactly the hour after
      it was issued, and gives back the username it was issued for. */
  lemma SessionTokenLifetime(env: Environment, username: string, later: int)
    requires Sound(env.lib) && env.secret != ""
    ensures var t := SignSession(env, username).value;
      var r := Verify(env.(now := later), t);
      (r.Ok? <==> later < env.now + OneHour) &&
      (r.Ok? ==> r.value.username == Some(username))
  {
    var t := env.lib.sign(SessionClaims(username, env.now), env.secret);
    assert env.lib.signedWith(t, env.secret) && env.lib.decode(t) == Some(SessionClaims(username, env.now));
  }
}
