/** The Sanity content lake as the API routes query it. Query results are given: the GROQ
    projections of `getUserFromSanity` and `fetchUserData`, with `null` for a missing field. */
module Backend {
  import opened Wrappers
  import opened Strings
  import opened Http

  /** The outcome of one query: a document, `null` (no such user), or a thrown error. */
  datatype Lookup<+T> = Found(doc: T) | NotFound | Throws(message: string)

  /** `*[_type == "user" && username == $username][0]{username, password, email, role,
      "profileImage": profileImage.asset->url}`. */
  datatype UserRecord = UserRecord(
    username: Option<string>,
    password: Option<string>,
    email: Option<string>,
    role: Option<string>,
    profileImage: Option<string>)

  /** The `botpress` object of a project. */
  datatype BotpressConfig = BotpressConfig(
    clientId: Option<string>,
    personalAccessToken: Option<string>,
    botId: Option<string>,
    workspaceId: Option<string>)

  datatype Project = Project(name: Option<string>, botpress: Option<BotpressConfig>)

  /** `fetchUserData`: one object whose `projects` are those that reference the user. */
  datatype UserData = UserData(projects: seq<Project>)

  /** The answers the content lake gives, per queried username (`None` when the query
      parameter is `undefined`). */
  datatype Sanity = Sanity(
    userByName: Option<string> -> Lookup<UserRecord>,
    userDataByName: string -> Lookup<UserData>)

  /** `!project.botpress?.personalAccessToken || !…workspaceId || !…botId` is false. */
  predicate CompleteConfig(p: Project) {
    p.botpress.Some? &&
    TruthyOpt(p.botpress.value.personalAccessToken) &&
    TruthyOpt(p.botpress.value.workspaceId) &&
    TruthyOpt(p.botpress.value.botId)
  }

  /** The configuration of a project, as JSON. */
  function BotpressJson(b: Option<BotpressConfig>): Json {
    match b
    case None => Null
    case Some(c) => Obj([
      ("clientId", OptStr(c.clientId)),
      ("personalAccessToken", OptStr(c.personalAccessToken)),
      ("botId", OptStr(c.botId)),
      ("workspaceId", OptStr(c.workspaceId))])
  }

  function ProjectJson(p: Project): Json {
    Obj([("name", OptStr(p.name)), ("botpress", BotpressJson(p.botpress))])
  }

  /** The `fetchUserData` result as the JSON object the content lake sends. */
  function UserDataJson(d: UserData): (j: Json)
    ensures Keys(j) == ["projects"]
  {
    Obj([("projects", Arr(seq(|d.projects|, k requires 0 <= k < |d.projects| => ProjectJson(d.projects[k]))))])
  }
}
