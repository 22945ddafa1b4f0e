/** The guards `/api/analytics`, `/api/analytics/config` and `/api/credentials` run before they
    use a project's Botpress credentials, in the order they run them: a token, a username from
    it, the user's data, a first project, and a complete configuration. */
module ProjectLadder {
  import opened Wrappers
  import opened Strings
  import opened Cookies
  import opened Backend
  import opened TokenAuth
  import Jwt

  /** The three credentials of a complete configuration. */
  datatype Credentials = Credentials(personalAccessToken: string, workspaceId: string, botId: string)

  /** Where a request stops, or the credentials it gets through with. */
  datatype Stage =
    | NoToken
    | BadToken
    | LookupFailed(message: string)
    | NoUserData
    | NoProject
    | IncompleteConfig
    | Ready(credentials: Credentials)

  /** The user data of an identified request. */
  function UserDataOf(jar: Jar, env: Jwt.Environment, sanity: Sanity): Lookup<UserData>
    requires Identified(jar, env)
  {
    sanity.userDataByName(IdentifiedUser(jar, env))
  }

  function CredentialsOf(p: Project): (c: Credentials)
    requires CompleteConfig(p)
    ensures Truthy(c.personalAccessToken) && Truthy(c.workspaceId) && Truthy(c.botId)
    ensures Some(c.personalAccessToken) == p.botpress.value.personalAccessToken
    ensures Some(c.workspaceId) == p.botpress.value.workspaceId && Some(c.botId) == p.botpress.value.botId
  {
    var b := p.botpress.value;
    Credentials(b.personalAccessToken.value, b.workspaceId.value, b.botId.value)
  }

  /** The ladder: each check runs only when every earlier one has passed. */
  function Classify(jar: Jar, env: Jwt.Environment, sanity: Sanity): (s: Stage)
    ensures s == NoToken <==> !HasToken(jar)
    ensures s == BadToken <==> HasToken(jar) && !Identified(jar, env)
    ensures s.LookupFailed? <==> Identified(jar, env) && UserDataOf(jar, env, sanity).Throws?
    ensures s.LookupFailed? ==> UserDataOf(jar, env, sanity) == Throws(s.message)
    ensures s == NoUserData <==> Identified(jar, env) && UserDataOf(jar, env, sanity).NotFound?
    ensures s == NoProject <==>
      Identified(jar, env) && UserDataOf(jar, env, sanity).Found? && UserDataOf(jar, env, sanity).doc.projects == []
    ensures s == IncompleteConfig <==>
      Identified(jar, env) && UserDataOf(jar, env, sanity).Found? && UserDataOf(jar, env, sanity).doc.projects != [] &&
      !CompleteConfig(UserDataOf(jar, env, sanity).doc.projects[0])
    ensures s.Ready? <==>
      Identified(jar, env) && UserDataOf(jar, env, sanity).Found? && UserDataOf(jar, env, sanity).doc.projects != [] &&
      CompleteConfig(UserDataOf(jar, env, sanity).doc.projects[0])
    ensures s.Ready? ==> s.credentials == CredentialsOf(UserDataOf(jar, env, sanity).doc.projects[0])
  {
    if !HasToken(jar) then NoToken
    else if !Identified(jar, env) then BadToken
    else match UserDataOf(jar, env, sanity)
      case Throws(m) => LookupFailed(m)
      case NotFound => NoUserData
      case Found(d) =>
        if d.projects == [] then NoProject
        else if !CompleteConfig(d.projects[0]) then IncompleteConfig
        else Ready(CredentialsOf(d.projects[0]))
  }

  /** Only the first project is looked at: user data that agree on it classify alike. */
  lemma OnlyTheFirstProjectCounts(jar: Jar, env: Jwt.Environment, sanity: Sanity, other: Sanity)
    requires Identified(jar, env)
    requires UserDataOf(jar, env, sanity).Found? && UserDataOf(jar, env, other).Found?
    requires var a := UserDataOf(jar, env, sanity).doc.projects; var b := UserDataOf(jar, env, other).doc.projects;
      a != [] && b != [] && a[0] == b[0]
    ensures Classify(jar, env, sanity) == Classify(jar, env, other)
  {
  }

  /** A fresh session token gets a request past the first two checks for its hour. */
  lemma SessionTokenPassesTheTokenChecks(jar: Jar, env: Jwt.Environment, sanity: Sanity, username: string, issued: int)
    requires Jwt.Sound(env.lib) && env.secret != "" && username != "" && env.now < issued + Jwt.OneHour
    requires Get(jar, "authToken") == Jwt.SignSession(env.(now := issued), username)
    ensures Classify(jar, env, sanity) != NoToken && Classify(jar, env, sanity) != BadToken
    ensures Identified(jar, env) && IdentifiedUser(jar, env) == username
  {
    SessionTokenIdentifies(env, username, issued);
  }
}
