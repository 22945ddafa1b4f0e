/** `GET /api/analytics/config` (src/app/api/analytics/config/route.ts): the first project's
    Botpress configuration. The route as written reads `length` and `[0]` of the object
    `fetchUserData` returns rather than of its `projects` array; `HandleGetAsWritten` models
    that, and `HandleGet` the route with `projects.projects` in both places. */
module AnalyticsConfigRoute {
  import opened Wrappers
  import opened Strings
  import opened Http
  import opened Cookies
  import opened Backend
  import opened TokenAuth
  import opened ProjectLadder
  import CredentialsRoute
  import Jwt

  /** The success body: exactly the three credentials. */
  function ConfigJson(token: Json, workspaceId: Json, botId: Json): Json {
    Obj([("personalAccessToken", token), ("workspaceId", workspaceId), ("botId", botId)])
  }

  /** The route as written, on the JSON the content lake sends. */
  function HandleGetAsWritten(jar: Jar, env: Jwt.Environment, sanity: Sanity): (r: Response)
    ensures r.Reply? && r.setCookie.None?
    ensures r.status == 401 <==> !Identified(jar, env)
  {
    if !HasToken(jar) then JsonReply(401, Message("error", "Nicht authentifiziert"))
    else if !Identified(jar, env) then JsonReply(401, Message("error", "Ungültiges Token"))
    else match UserDataOf(jar, env, sanity)
      case Throws(_) => JsonReply(500, Message("error", "Interner Server-Fehler"))
      case NotFound => JsonReply(404, Message("error", "Keine Projekte gefunden"))
      case Found(d) =>
        var projects := UserDataJson(d);
        if Length(projects) == Some(0) then JsonReply(404, Message("error", "Keine Projekte gefunden"))
        else
          var project := Index(projects, 0);
          if !JsTruthy(project) then JsonReply(404, Message("error", "Kein Projekt gefunden"))
          else
            var botpress := Member(project, "botpress");
            var token := Member(botpress, "personalAccessToken");
            var workspaceId := Member(botpress, "workspaceId");
            var botId := Member(botpress, "botId");
            if !JsTruthy(token) || !JsTruthy(workspaceId) || !JsTruthy(botId) then
              JsonReply(400, Message("error", "Botpress-Konfiguration unvollständig"))
            else JsonOk(ConfigJson(token.value, workspaceId.value, botId.value))
  }

  /** As written, no user with data ever gets a configuration: the object has neither a
      `length` nor a `0` property, so every such request ends in 404 'Kein Projekt gefunden',
      and the route answers 200 to nobody. */
  lemma AsWrittenNeverServesAProject(jar: Jar, env: Jwt.Environment, sanity: Sanity)
    ensures Identified(jar, env) && UserDataOf(jar, env, sanity).Found? ==>
      HandleGetAsWritten(jar, env, sanity) == JsonReply(404, Message("error", "Kein Projekt gefunden"))
    ensures HandleGetAsWritten(jar, env, sanity).status != 200
  {
    if Identified(jar, env) && UserDataOf(jar, env, sanity).Found? {
      var projects := UserDataJson(UserDataOf(jar, env, sanity).doc);
      assert NatToString(0) == "0";
      FieldOfMissingKey(projects, "0");
      assert Index(projects, 0).None?;
    }
  }

  /** The route with `projects.projects`: 404 for no data or no project, and otherwise the
      first project's configuration. */
  function HandleGet(jar: Jar, env: Jwt.Environment, sanity: Sanity): (r: Response)
    ensures r.Reply? && r.setCookie.None?
    ensures r.status == 401 <==> !Identified(jar, env)
    ensures r.status == 404 <==> Classify(jar, env, sanity) == NoUserData || Classify(jar, env, sanity) == NoProject
    ensures r.status == 404 ==> r.body == Message("error", "Keine Projekte gefunden")
    ensures r.status == 400 <==> Classify(jar, env, sanity) == IncompleteConfig
    ensures r.status == 500 <==> Classify(jar, env, sanity).LookupFailed?
    ensures r.status == 500 ==> r.body == Message("error", "Interner Server-Fehler")
    ensures r.status == 200 <==> Classify(jar, env, sanity).Ready?
    ensures r.status == 200 ==>
      var c := CredentialsOf(UserDataOf(jar, env, sanity).doc.projects[0]);
      Keys(r.body) == ["personalAccessToken", "workspaceId", "botId"] &&
      r.body == ConfigJson(Str(c.personalAccessToken), Str(c.workspaceId), Str(c.botId))
  {
    match Classify(jar, env, sanity)
    case NoToken => JsonReply(401, Message("error", "Nicht authentifiziert"))
    case BadToken => JsonReply(401, Message("error", "Ungültiges Token"))
    case LookupFailed(_) => JsonReply(500, Message("error", "Interner Server-Fehler"))
    case NoUserData => JsonReply(404, Message("error", "Keine Projekte gefunden"))
    case NoProject => JsonReply(404, Message("error", "Keine Projekte gefunden"))
    case IncompleteConfig => JsonReply(400, Message("error", "Botpress-Konfiguration unvollständig"))
    case Ready(c) => JsonOk(ConfigJson(Str(c.personalAccessToken), Str(c.workspaceId), Str(c.botId)))
  }

  /** Corrected, the route serves what `/api/credentials` serves, under its own key names. */
  lemma ConfigMatchesCredentials(jar: Jar, env: Jwt.Environment, sanity: Sanity)
    ensures HandleGet(jar, env, sanity).status == CredentialsRoute.HandleGet(jar, env, sanity).status
    ensures HandleGet(jar, env, sanity).status == 200 ==>
      var c := Classify(jar, env, sanity).credentials;
      CredentialsRoute.HandleGet(jar, env, sanity).body == CredentialsRoute.CredentialsJson(c) &&
      HandleGet(jar, env, sanity).body == ConfigJson(Str(c.personalAccessToken), Str(c.workspaceId), Str(c.botId))
  {
  }
}
