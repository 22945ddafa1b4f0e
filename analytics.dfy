/** `GET /api/analytics` (src/app/api/analytics/route.ts): the project ladder, then one call to
    the Botpress analytics endpoint with the first project's credentials. */
module AnalyticsRoute {
  import opened Wrappers
  import opened Strings
  import opened Http
  import opened Cookies
  import opened Backend
  import opened ProjectLadder
  import Jwt

  /** The request sent upstream; the date range comes from the clock and is left out. */
  datatype AnalyticsRequest = AnalyticsRequest(url: string, authorization: string, workspaceId: string)

  /** What the upstream call gave: its data, or an error with the HTTP status of its response
      (`None` when there was no response) and its message. */
  datatype Upstream = Answered(data: Json) | Failed(status: Option<int>, message: string)

  function RequestFor(c: Credentials): (q: AnalyticsRequest)
    ensures q.authorization == "Bearer " + c.personalAccessToken && q.workspaceId == c.workspaceId
    ensures q.url == "https://api.botpress.cloud/v1/admin/bots/" + c.botId + "/analytics"
  {
    AnalyticsRequest("https://api.botpress.cloud/v1/admin/bots/" + c.botId + "/analytics",
      "Bearer " + c.personalAccessToken, c.workspaceId)
  }

  /** The inner `catch`: 401 and 404 from upstream are passed on, anything else is a 500 that
      carries the error's message. */
  function UpstreamReply(u: Upstream): (r: Response)
    ensures r.Reply? && r.setCookie.None?
    ensures r.status == 200 <==> u.Answered?
    ensures u.Answered? ==> r.body == Obj([("analytics", u.data)])
    ensures u.Failed? ==> (r.status == 401 <==> u.status == Some(401))
    ensures u.Failed? ==> (r.status == 404 <==> u.status == Some(404))
    ensures u.Failed? && u.status != Some(401) && u.status != Some(404) ==>
      r.status == 500 && Field(r.body, "details") == Some(Str(u.message))
  {
    match u
    case Answered(data) => JsonOk(Obj([("analytics", data)]))
    case Failed(status, message) =>
      if status == Some(401) then JsonReply(401, Message("error", "Nicht autorisiert bei Botpress"))
      else if status == Some(404) then JsonReply(404, Message("error", "Bot oder Workspace nicht gefunden"))
      else JsonReply(500, Obj([("error", Str("Fehler beim Abrufen der Analytics-Daten")), ("details", Str(message))]))
  }

  function HandleGet(jar: Jar, env: Jwt.Environment, sanity: Sanity, botpress: AnalyticsRequest -> Upstream): (r: Response)
    ensures r.Reply? && r.setCookie.None?
    ensures var s := Classify(jar, env, sanity);
      (s == NoToken ==> r == JsonReply(401, Message("error", "Nicht authentifiziert"))) &&
      (s == BadToken ==> r == JsonReply(401, Message("error", "Ungültiges Token"))) &&
      (s.LookupFailed? ==> r == JsonReply(500, Message("error", "Fehler beim Abrufen des aktiven Projekts"))) &&
      (s == NoUserData ==> r == JsonReply(404, Message("error", "No projects found"))) &&
      (s == NoProject ==> r == JsonReply(404, Message("error", "Kein Projekt gefunden"))) &&
      (s == IncompleteConfig ==> r == JsonReply(400, Message("error", "Botpress-Konfiguration unvollständig"))) &&
      (s.Ready? ==> r == UpstreamReply(botpress(RequestFor(s.credentials))))
  {
    match Classify(jar, env, sanity)
    case NoToken => JsonReply(401, Message("error", "Nicht authentifiziert"))
    case BadToken => JsonReply(401, Message("error", "Ungültiges Token"))
    case LookupFailed(_) => JsonReply(500, Message("error", "Fehler beim Abrufen des aktiven Projekts"))
    case NoUserData => JsonReply(404, Message("error", "No projects found"))
    case NoProject => JsonReply(404, Message("error", "Kein Projekt gefunden"))
    case IncompleteConfig => JsonReply(400, Message("error", "Botpress-Konfiguration unvollständig"))
    case Ready(c) => UpstreamReply(botpress(RequestFor(c)))
  }

  /** Botpress is asked only once all checks have passed, and then with the first project's
      credentials: a request stopped earlier answers the same whatever Botpress would say. */
  lemma UpstreamOnlyWhenReady(jar: Jar, env: Jwt.Environment, sanity: Sanity,
                              botpress: AnalyticsRequest -> Upstream, other: AnalyticsRequest -> Upstream)
    ensures !Classify(jar, env, sanity).Ready? ==>
      HandleGet(jar, env, sanity, botpress) == HandleGet(jar, env, sanity, other)
    ensures Classify(jar, env, sanity).Ready? ==>
      var q := RequestFor(CredentialsOf(UserDataOf(jar, env, sanity).doc.projects[0]));
      botpress(q) == other(q) ==> HandleGet(jar, env, sanity, botpress) == HandleGet(jar, env, sanity, other)
  {
  }

  /** A 400 is exactly an incomplete configuration of the first project: an upstream 400 is
      passed on as 500. */
  lemma BadRequestIsIncompleteConfig(jar: Jar, env: Jwt.Environment, sanity: Sanity, botpress: AnalyticsRequest -> Upstream)
    ensures HandleGet(jar, env, sanity, botpress).status == 400 <==> Classify(jar, env, sanity) == IncompleteConfig
  {
  }
}
