/** `GET /api/me` (src/app/api/me/route.ts): who is signed in, answered softly: every failure
    is `{user: null}` with status 200. */
module MeRoute {
  import opened Wrappers
  import opened Strings
  import opened Http
  import opened Cookies
  import opened Backend
  import Jwt

  /** The user object of a successful answer; the fetched password is left behind. */
  function UserJson(u: UserRecord): (j: Json)
    ensures Keys(j) == ["username", "email", "role", "profileImage"]
    ensures Field(j, "username") == Some(OptStr(u.username))
    ensures Field(j, "email") == Some(OptStr(u.email))
    ensures Field(j, "role") == Some(Str(if TruthyOpt(u.role) then u.role.value else "user"))
    ensures Field(j, "profileImage") == Some(OptStr(u.profileImage))
  {
    var j := Obj([
      ("username", OptStr(u.username)),
      ("email", OptStr(u.email)),
      ("role", Str(if TruthyOpt(u.role) then u.role.value else "user")),
      ("profileImage", OptStr(u.profileImage))]);
    FieldsOfFour(j);
    assert j.fields[2].0 == "role" && j.fields[3].0 == "profileImage";
    j
  }

  /** The user record a request resolves to, if it resolves at all: a truthy token, a secret,
      a token that verifies, and a stored user named by its `username` claim. */
  function Resolve(jar: Jar, env: Jwt.Environment, sanity: Sanity): (r: Option<UserRecord>)
    ensures r.Some? <==>
      TruthyOpt(Get(jar, "authToken")) && env.secret != "" &&
      Jwt.Verify(env, Get(jar, "authToken").value).Ok? &&
      sanity.userByName(Jwt.Verify(env, Get(jar, "authToken").value).value.username).Found?
    ensures r.Some? ==>
      sanity.userByName(Jwt.Verify(env, Get(jar, "authToken").value).value.username) == Found(r.value)
  {
    var token := Get(jar, "authToken");
    if !TruthyOpt(token) || env.secret == "" then None
    else match Jwt.Verify(env, token.value)
      case Err(_) => None
      case Ok(c) =>
        match sanity.userByName(c.username)
        case Found(u) => Some(u)
        case _ => None
  }

  function HandleGet(jar: Jar, env: Jwt.Environment, sanity: Sanity): (r: Response)
    ensures r.Reply? && r == JsonOk(r.body) && Keys(r.body) == ["user"]
    ensures Field(r.body, "user") == Some(Null) <==> Resolve(jar, env, sanity).None?
    ensures Resolve(jar, env, sanity).Some? ==> Field(r.body, "user") == Some(UserJson(Resolve(jar, env, sanity).value))
  {
    match Resolve(jar, env, sanity)
    case None => JsonOk(Obj([("user", Null)]))
    case Some(u) => JsonOk(Obj([("user", UserJson(u))]))
  }

  /** A truthy token that verifies under a set secret, naming a stored user, is answered with
      that user. */
  lemma ValidSessionGetsItsUser(jar: Jar, env: Jwt.Environment, sanity: Sanity)
    requires TruthyOpt(Get(jar, "authToken")) && env.secret != ""
    requires Jwt.Verify(env, Get(jar, "authToken").value).Ok?
    requires sanity.userByName(Jwt.Verify(env, Get(jar, "authToken").value).value.username).Found?
    ensures HandleGet(jar, env, sanity) ==
      JsonOk(Obj([("user", UserJson(sanity.userByName(Jwt.Verify(env, Get(jar, "authToken").value).value.username).doc))]))
  {
  }

  /** Every way of failing — no token, no secret, a token that does not verify, no such user,
      a failing query — gives the same `{user: null}`. */
  lemma FailuresLookAlike(jar: Jar, env: Jwt.Environment, sanity: Sanity)
    ensures var token := Get(jar, "authToken");
      (!TruthyOpt(token) || env.secret == "" || Jwt.Verify(env, token.value).Err? ||
       !sanity.userByName(Jwt.Verify(env, token.value).value.username).Found?) ==>
      HandleGet(jar, env, sanity) == JsonOk(Obj([("user", Null)]))
  {
  }

  /** The password the query fetches never reaches the answer. */
  lemma PasswordNeverLeaves(jar: Jar, env: Jwt.Environment, sanity: Sanity, other: Sanity)
    requires forall name {:trigger sanity.userByName(name)} {:trigger other.userByName(name)} ::
      match sanity.userByName(name)
      case Found(u) => other.userByName(name).Found? && other.userByName(name).doc == u.(password := other.userByName(name).doc.password)
      case _ => other.userByName(name) == sanity.userByName(name)
    ensures HandleGet(jar, env, sanity) == HandleGet(jar, env, other)
  {
    var token := Get(jar, "authToken");
    if TruthyOpt(token) && env.secret != "" && Jwt.Verify(env, token.value).Ok? {
      var name := Jwt.Verify(env, token.value).value.username;
      match sanity.userByName(name)
      case Found(u) =>
        assert other.userByName(name).Found?;
      case _ =>
    }
  }
}
