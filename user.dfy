/** `GET /api/user` (src/app/api/user/route.ts): the signed-in user's profile, with 401 for a
    missing token, 404 for an unknown user, and 500 for everything that throws. */
module UserRoute {
  import opened Wrappers
  import opened Strings
  import opened Http
  import opened Cookies
  import opened Backend
  import Jwt

  const ServerError: string := "Fehler beim Abrufen der Benutzerinformationen"

  /** The profile body: `profileImage || null`, and the stored role as it is. */
  function ProfileJson(u: UserRecord): (j: Json)
    ensures Keys(j) == ["username", "email", "role", "profileImage"]
    ensures Field(j, "username") == Some(OptStr(u.username))
    ensures Field(j, "email") == Some(OptStr(u.email))
    ensures Field(j, "role") == Some(OptStr(u.role))
    ensures Field(j, "profileImage") == Some(if TruthyOpt(u.profileImage) then Str(u.profileImage.value) else Null)
  {
    var j := Obj([
      ("username", OptStr(u.username)),
      ("email", OptStr(u.email)),
      ("role", OptStr(u.role)),
      ("profileImage", if TruthyOpt(u.profileImage) then Str(u.profileImage.value) else Null)]);
    FieldsOfFour(j);
    assert j.fields[2].0 == "role" && j.fields[3].0 == "profileImage";
    j
  }

  function HandleGet(jar: Jar, env: Jwt.Environment, sanity: Sanity): (r: Response)
    ensures r.Reply? && r.setCookie.None?
    ensures r.status == 401 <==> !TruthyOpt(Get(jar, "authToken"))
    ensures r.status == 401 ==> r.body == Message("message", "Nicht authentifiziert")
    ensures TruthyOpt(Get(jar, "authToken")) && Jwt.Verify(env, Get(jar, "authToken").value).Err? ==>
      r == JsonReply(500, Message("message", ServerError))
    ensures r.status == 404 || r.status == 200 ==>
      TruthyOpt(Get(jar, "authToken")) && Jwt.Verify(env, Get(jar, "authToken").value).Ok?
    ensures r.status in {200, 401, 404, 500}
  {
    var token := Get(jar, "authToken");
    if !TruthyOpt(token) then JsonReply(401, Message("message", "Nicht authentifiziert"))
    else if env.secret == "" then JsonReply(500, Message("message", ServerError))
    else match Jwt.Verify(env, token.value)
      case Err(_) => JsonReply(500, Message("message", ServerError))
      case Ok(c) =>
        match sanity.userByName(c.username)
        case Throws(_) => JsonReply(500, Message("message", ServerError))
        case NotFound => JsonReply(404, Message("message", "Benutzer nicht gefunden"))
        case Found(u) => JsonOk(ProfileJson(u))
  }

  /** An unset `JWT_SECRET` fails closed: no request with a token gets anything but 500. */
  lemma MissingSecretFailsClosed(jar: Jar, env: Jwt.Environment, sanity: Sanity)
    requires env.secret == "" && TruthyOpt(Get(jar, "authToken"))
    ensures HandleGet(jar, env, sanity) == JsonReply(500, Message("message", ServerError))
  {
  }

  /** With a token that verifies, the outcome is the user lookup's: 404 for no such user, 500
      for a failed query, and the profile of the user the claim names otherwise. */
  lemma VerifiedTokenAnswersTheLookup(jar: Jar, env: Jwt.Environment, sanity: Sanity)
    requires TruthyOpt(Get(jar, "authToken")) && Jwt.Verify(env, Get(jar, "authToken").value).Ok?
    ensures var lookup := sanity.userByName(Jwt.Verify(env, Get(jar, "authToken").value).value.username);
      var r := HandleGet(jar, env, sanity);
      (lookup.NotFound? <==> r.status == 404) &&
      (lookup.Throws? <==> r.status == 500) &&
      (lookup.Found? <==> r.status == 200) &&
      (lookup.Found? ==> r.body == ProfileJson(lookup.doc))
  {
  }
}
