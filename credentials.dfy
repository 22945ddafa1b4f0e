/** `GET /api/credentials` (src/app/api/credentials/route.ts): the first project's Botpress
    credentials, behind the project ladder. */
module CredentialsRoute {
  import opened Wrappers
  import opened Strings
  import opened Http
  import opened Cookies
  import opened Backend
  import opened TokenAuth
  import opened ProjectLadder
  import Jwt

  /** `{credentials: {token, workspaceId, botId}}`. */
  function CredentialsJson(c: Credentials): Json {
    Obj([("credentials", Obj([
      ("token", Str(c.personalAccessToken)),
      ("workspaceId", Str(c.workspaceId)),
      ("botId", Str(c.botId))]))])
  }

  function HandleGet(jar: Jar, env: Jwt.Environment, sanity: Sanity): (r: Response)
    ensures r.Reply? && r.setCookie.None?
    ensures r.status == 401 <==> !Identified(jar, env)
    ensures r.status == 404 <==>
      Identified(jar, env) && (UserDataOf(jar, env, sanity).NotFound? ||
        (UserDataOf(jar, env, sanity).Found? && UserDataOf(jar, env, sanity).doc.projects == []))
    ensures r.status == 400 <==> Classify(jar, env, sanity) == IncompleteConfig
    ensures r.status == 500 <==> Classify(jar, env, sanity).LookupFailed?
    ensures r.status == 200 <==> Classify(jar, env, sanity).Ready?
    ensures r.status == 200 ==>
      r.body == CredentialsJson(CredentialsOf(UserDataOf(jar, env, sanity).doc.projects[0]))
    ensures !HasToken(jar) ==> r.body == Message("error", "Nicht authentifiziert")
    ensures HasToken(jar) && !Identified(jar, env) ==> r.body == Message("error", "Ungültiges Token")
  {
    match Classify(jar, env, sanity)
    case NoToken => JsonReply(401, Message("error", "Nicht authentifiziert"))
    case BadToken => JsonReply(401, Message("error", "Ungültiges Token"))
    case LookupFailed(_) => JsonReply(500, Message("error", "Fehler beim Abrufen der Credentials"))
    case NoUserData => JsonReply(404, Message("error", "No projects found"))
    case NoProject => JsonReply(404, Message("error", "Kein Projekt gefunden"))
    case IncompleteConfig => JsonReply(400, Message("error", "Botpress-Konfiguration unvollständig"))
    case Ready(c) => JsonOk(CredentialsJson(c))
  }
}
