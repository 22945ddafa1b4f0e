# sk-chatbot portal core in Dafny

This project models the logic underneath the sk-chatbot customer portal, a Next.js application
in which a customer signs in, looks at the analytics and conversations of their Botpress
chatbot, copies the bot's integration snippets and edits their company profile. The model
covers five groups of the portal's code:

- **Access gate and session cookies.** The `middleware` decision over the `failedAttempts` and
  `authToken` cookies and its path matcher. The two login handlers, unlock and logout, each
  acting on the browser's cookie jar. The identity ladders of `/api/me` and `/api/user`. The
  validation ladders of `/api/analytics`, `/api/analytics/config` and `/api/credentials`. The
  `authToken` extraction from `document.cookie` on the locked-out logout page.
- **The rate limiter** of `src/utils/rateLimit.ts`: a per-token counter table with its two
  response headers.
- **Analytics aggregation.** The `DD.MM` date sort and the thirty-day keys. The reduction of
  Botpress analytics records, with its five-minute cache. The per-day and per-conversation
  counts of the conversation analytics hook. The message-counting loops of both
  `BotpressStats` panels.
- **Conversation list and detail.** The thirty-day filter, the newest-first sort, the top-ten
  cut, the case-insensitive id search, the pagination rules, both `formatDate` variants, the
  payload dispatch and the owner lookup.
- **Validators and builders.** The UUID v4 check of the Botpress connection test. The SendGrid
  support mail. The de-duplication of projects by bot id. The company-profile patch builder
  with its edit, save and cancel state.

Modules follow the source files (`Middleware`, `Login`, `Unlock`, `Logout`, `MeRoute`,
`UserRoute`, `AnalyticsRoute`, `AnalyticsConfigRoute`, `CredentialsRoute`, `LockedLogoutPage`,
`RateLimit`, `AnalyticsUtils`, `RecordAnalytics`, `ConversationAnalytics`, `BotpressStats`,
`ConversationList`, `BpConversationList`, `ConversationDetail`, `Integration`, `Firmenprofil`,
`SendGrid`, `BotpressTest`). A few modules are shared:

- `Wrappers`, `Strings` and `Seqs`: options, results, JavaScript string operations,
  `parseInt`, counting and sorting.
- `Http`: JSON values and responses.
- `Cookies`: the browser's jar, a response's cookie store, `Set-Cookie` parsing by section 5.2
  of RFC 6265, and `document.cookie` by sections 4.2.1 and 5.4.
- `Jwt`: signing and verification, as an oracle whose expiry follows section 4.1.4 of RFC 7519.
- `Backend`: the documents the content lake returns for the GROQ queries.
- `ProjectLadder`: the early-return ladder the three Botpress routes share.
- `TokenAuth`: `getUsernameFromToken`.
- `SessionFlow`: lemmas across login, the gate and the logout page.

### Modelling conventions

- **External services are inputs.** The content lake, Botpress, SendGrid, `fetch` and
  `localStorage` are given as parameter values: the result of each call, or a function from
  request to result.
- **Time is an integer.** Time is milliseconds and a day is a day number. The caller supplies
  "today", "thirty days ago" and every date label.
- **Handlers are values; stateful code is classes.** A route handler is a function from the
  request's cookies and the services' answers to a `Response`. Where the source mutates state,
  the model mutates it too:
  - a response's cookie store;
  - the rate limiter's table;
  - React component state;
  - a commit transaction.

  These are classes whose methods state their whole new state.
- **JavaScript semantics are spelled out.** JavaScript truthiness, `parseInt` (NaN is `None`),
  `String()` of a template value and property access on `null` are all written out.
- **A thrown exception that nobody catches** becomes the framework's 500 page (`Unhandled`).

## Model

| member | source | states |
|---|---|---|
| Jwt.Verify | src/middleware.ts:32-39 | verification succeeds iff the secret is non-empty, the signature checks, the payload decodes and the token has not expired (section 4.1.4 of RFC 7519); on success it yields the decoded claims; with an empty secret it fails with MissingSecret |
| Jwt.SignSession | src/app/api/login/route.ts:12-14 | a token exists iff the secret is non-empty, and it signs the claims `{username}` with an `exp` one hour after `iat` |
| Jwt.SessionTokenLifetime | src/app/api/login/route.ts:12-14 | a session token issued at time t verifies at a later time iff that time is before t + 1 h, and then carries the signed username |
| Middleware.Decide | src/middleware.ts:18-40 | the gate writes no cookies: it either redirects (only to `/locked` or `/login`) or passes through, and passes only with an `authToken` cookie that verifies |
| Middleware.LockoutComesFirst | src/middleware.ts:22-25 | with a counter of 5 or more the answer is `/locked` whatever the token: with any token, with none, under any secret or clock |
| Middleware.NoTokenGoesToLogin | src/middleware.ts:27-30 | below the lockout, a missing or empty `authToken` redirects to `/login` |
| Middleware.BadTokenGoesToLogin | src/middleware.ts:32-39 | a token that fails to verify never passes; below the lockout it redirects to `/login`, never to `/locked` |
| Middleware.PassesExactlyWithValidToken | src/middleware.ts:32-35 | below the lockout the request passes iff a non-empty `authToken` verifies |
| Middleware.MissingOrUnparsableCounterNeverLocks | src/middleware.ts:12-15 | a missing counter reads as 0 and an unparsable one (NaN) never locks |
| Middleware.DecimalCounterLocksFromFive | src/middleware.ts:22 | a counter written as the decimal n locks exactly when n >= 5 |
| Middleware.MatcherIsThreeFamilies | src/middleware.ts:43-52 | the matcher covers exactly the paths below `/app/`, `/profil/` and `/settings/`; the three literal pages are members of those families |
| Middleware.Gate | src/middleware.ts:43-52 | a path outside the matcher always passes |
| Middleware.RedirectTargetsAreOpen | src/middleware.ts:24-38 | the gate's redirect targets lie outside the matcher, so following a redirect is never gated again |
| Login.Respond | src/app/api/login/route.ts:5-24 | 200 iff the body is an object whose `username` is exactly `admin` and whose `password` is exactly `password`, and the secret is set; the 200 body is `{token}` with the `Set-Cookie` header for that token; any other pair gives 401 with the handler's rejection text and no cookie |
| Login.SameDecision | src/components/LoginForm.tsx:9 | the form handler and `/api/login` give the same status and the same success body for every request body |
| Login.HeadersSetTheSameCookie | src/components/LoginForm.tsx:14-18 | both `Set-Cookie` headers, parsed as a browser does, store `authToken` with `Path=/`, Secure, HttpOnly and `SameSite=Strict` |
| Login.LoginReceived | src/app/api/login/route.ts:16-23 | after either login response the jar holds the signed token as an HttpOnly `authToken` on success and is unchanged otherwise |
| Login.LoginStoresOnlyTheSession | src/app/api/login/route.ts:5-24 | every cookie other than `authToken` is untouched by either login, whatever the outcome |
| SessionFlow.LoginKeepsTheCounter | src/app/api/login/route.ts:5-24 | a login, failed or not, never changes what the gate reads as the failed-attempts count |
| SessionFlow.GateWithSessionToken | src/middleware.ts:22-39 | with the freshly signed `authToken`, the gate locks a locked-out client, passes the others for one hour, then sends them to `/login` |
| SessionFlow.LoginOpensTheGateForAnHour | src/app/api/login/route.ts:10-20 | after a successful login a protected page opens for exactly one hour unless the client was already locked out |
| SessionFlow.LockedPageNeverSeesTheSession | src/app/locked/logout/page.tsx:13 | after a login, the `authToken` the logout page extracts from `document.cookie` is always absent, because the session cookie is HttpOnly |
| Cookies.ResponseCookies.Set | src/app/api/unlock/route.ts:12-17 | `cookies.set` records a store of that value with those attributes for the name and keeps the other pending writes |
| Cookies.ResponseCookies.Delete | src/app/api/logout/route.ts:12-16 | `cookies.delete` records an expiry for the name and keeps the other pending writes |
| Unlock.Post | src/app/api/unlock/route.ts:3-29 | reads nothing from the request; answers 200 `Konto erfolgreich entsperrt` with `failedAttempts = "0"` (max-age 1800, HttpOnly, Secure, SameSite strict) and `authToken` deleted; a thrown error gives 500 `Fehler beim Entsperren des Kontos` and no cookie writes |
| Unlock.UnlockTouchesOnlyItsCookies | src/app/api/unlock/route.ts:11-20 | after unlock the jar's names are the old ones minus `authToken` plus `failedAttempts`, which holds `"0"`; every other cookie is unchanged |
| Unlock.UnlockedClientGoesToLogin | src/app/api/unlock/route.ts:12-20 | after unlock no protected path locks; each redirects to `/login` |
| Unlock.UnlockIdempotent | src/app/api/unlock/route.ts:12-20 | unlocking twice leaves the same jar as unlocking once |
| Logout.Post | src/app/api/logout/route.ts:6-25 | needs no token; answers 200 `Erfolgreich ausgeloggt` with `authToken` deleted (path `/`, Secure, SameSite strict), or 500 `Fehler beim Ausloggen` with no writes on a thrown error |
| Logout.LogoutRemovesOnlyTheSession | src/app/api/logout/route.ts:12-16 | the jar after logout is the jar without `authToken` |
| Logout.LogoutKeepsTheLockout | src/app/api/logout/route.ts:12-16 | logout keeps the lockout as it was; afterwards no protected path passes, and a locked client still goes to `/locked` |
| Logout.LogoutIdempotent | src/app/api/logout/route.ts:12-16 | logging out twice leaves the same jar as logging out once |
| MeRoute.UserJson | src/app/api/me/route.ts:31-38 | the user object holds exactly `username`, `email`, `role`, `profileImage`, in that order; a falsy role reads `user` |
| MeRoute.Resolve | src/app/api/me/route.ts:9-29 | a user is found if and only if the token is truthy, the secret set, the token verifies and the lookup of its `username` claim finds a user, and then it is that user |
| MeRoute.ValidSessionGetsItsUser | src/app/api/me/route.ts:17-38 | a truthy token that verifies under a set secret and names a stored user is answered 200 with `{user}` holding that user's public fields |
| MeRoute.HandleGet | src/app/api/me/route.ts:9-46 | always 200 with a body of only `user`; `user` is `null` exactly when no user resolves, and otherwise is that user's object |
| MeRoute.FailuresLookAlike | src/app/api/me/route.ts:9-42 | no token, no secret, a failed verification and an unknown or failing lookup all answer 200 `{user: null}` |
| MeRoute.PasswordNeverLeaves | src/sanity/queries.ts:7-13 | two content lakes that differ only in stored passwords give identical answers, so the fetched password never reaches the response |
| UserRoute.ProfileJson | src/app/api/user/route.ts:43-48 | the profile holds exactly `username`, `email`, `role`, `profileImage`, with a falsy image as `null` |
| UserRoute.HandleGet | src/app/api/user/route.ts:9-55 | 401 `Nicht authentifiziert` iff there is no truthy token; a token that fails to verify gives 500, not 401; 404 and 200 only after verification; no other status occurs |
| UserRoute.MissingSecretFailsClosed | src/app/api/user/route.ts:16-19 | with no `JWT_SECRET`, any token gives 500 |
| UserRoute.VerifiedTokenAnswersTheLookup | src/app/api/user/route.ts:29-55 | for a verified token: unknown user iff 404, lookup error iff 500, found iff 200, and the 200 body is that user's profile |
| TokenAuth.UsernameFromToken | src/app/api/analytics/route.ts:8-17 | a username comes back iff the token verifies, and it is the token's `username` claim; every verification error becomes no username |
| TokenAuth.SessionTokenIdentifies | src/app/api/analytics/route.ts:8-17 | a session token identifies its user exactly while it is less than an hour old |
| Backend.UserDataJson | src/sanity/queries.ts:25-36 | `fetchUserData` yields a single object whose only key is `projects`, not an array |
| ProjectLadder.CredentialsOf | src/app/api/analytics/route.ts:84-94 | a complete configuration has truthy `personalAccessToken`, `workspaceId` and `botId`, and the credentials are exactly those three fields |
| ProjectLadder.Classify | src/app/api/analytics/route.ts:42-94 | the guards run in order (token, username from the token, user data, first project, complete configuration), and each stage holds exactly when the earlier guards pass and its own fails |
| ProjectLadder.OnlyTheFirstProjectCounts | src/app/api/analytics/route.ts:74-81 | two users whose first projects agree are classified alike, whatever their other projects |
| ProjectLadder.SessionTokenPassesTheTokenChecks | src/app/api/analytics/route.ts:45-61 | a fresh session token passes both token checks and names its user |
| AnalyticsRoute.RequestFor | src/app/api/analytics/route.ts:98-126 | the upstream request carries `Bearer` plus the access token, the workspace id, and the bot's analytics URL |
| AnalyticsRoute.UpstreamReply | src/app/api/analytics/route.ts:130-162 | 200 `{analytics}` iff Botpress answered; upstream 401 iff 401 and 404 iff 404; any other failure gives 500 with the error's `details` |
| AnalyticsRoute.HandleGet | src/app/api/analytics/route.ts:42-170 | each ladder stage gives its own status and message (401, 401 `Ungültiges Token`, 500, 404, 404, 400), and only a ready configuration reaches Botpress |
| AnalyticsRoute.UpstreamOnlyWhenReady | src/app/api/analytics/route.ts:84-132 | Botpress is not consulted before the configuration is complete, and once it is, only the one request built from it matters |
| AnalyticsRoute.BadRequestIsIncompleteConfig | src/app/api/analytics/route.ts:84-94 | 400 iff the first project's configuration is incomplete |
| AnalyticsConfigRoute.HandleGetAsWritten | src/app/api/analytics/config/route.ts:20-76 | the route as written: 401 iff the token is missing or does not identify a user |
| AnalyticsConfigRoute.AsWrittenNeverServesAProject | src/app/api/analytics/config/route.ts:47-53 | as written, an identified user with user data always gets 404 `Kein Projekt gefunden`, and the route never answers 200 |
| AnalyticsConfigRoute.HandleGet | src/app/api/analytics/config/route.ts:20-76 | corrected route: 401 iff unidentified; 404 `Keine Projekte gefunden` iff no user data or no project; 400 iff incomplete; 500 `Interner Server-Fehler` iff the lookup throws; 200 iff ready, with exactly `personalAccessToken`, `workspaceId`, `botId` |
| AnalyticsConfigRoute.ConfigMatchesCredentials | src/app/api/analytics/config/route.ts:56-68 | the corrected route answers with the same status as `/api/credentials` and serves the same three credentials |
| CredentialsRoute.HandleGet | src/app/api/credentials/route.ts:19-75 | 401 iff unidentified (`Nicht authentifiziert` without a token, `Ungültiges Token` when it does not verify); 404 iff no user data or `projects.projects` is empty; 400 iff incomplete; 500 iff the lookup throws; 200 iff ready, with `{credentials: {token, workspaceId, botId}}` |
| LockedLogoutPage.FindFirst | src/app/locked/logout/page.tsx:13 | `find` gives the first row with the prefix, or none when no row has it |
| LockedLogoutPage.ValueOfRow | src/app/locked/logout/page.tsx:13 | the value is the text between the first `=` and the next one; a second `=` cuts the rest |
| LockedLogoutPage.RowMatchesOnlyItsName | src/app/locked/logout/page.tsx:13 | a row `name=value` starts with `authToken=` iff its name is `authToken`, so `xauthToken=…` does not match |
| LockedLogoutPage.ReadsTheFirstSessionCookie | src/app/locked/logout/page.tsx:13 | for a cookie string of section 4.2.1 of RFC 6265, a token is found iff some pair is named `authToken`, and it is the first such pair's value cut at its first `=` |
| LockedLogoutPage.HttpOnlySessionIsNeverRead | src/app/locked/logout/page.tsx:13-14 | an HttpOnly `authToken` never appears in `document.cookie`, so the page finds no token |
| LockedLogoutPage.LogoutPage.Mount | src/app/locked/logout/page.tsx:11-22 | a non-empty token that decodes sets the decoded username; an absent or empty token, or one that does not decode, leaves it as it was |
| LockedLogoutPage.LogoutPage.Logout | src/app/locked/logout/page.tsx:24-43 | success, a non-ok answer and a thrown error all navigate to `/login` once |
| RateLimit.OrDefault | src/utils/rateLimit.ts:10-13 | an option that is 0 or undefined falls back to the default, any other value is kept |
| RateLimit.Limiter.constructor | src/utils/rateLimit.ts:10-13 | an empty table with capacity 500 and interval 60000 ms unless the options give others |
| RateLimit.Counted | src/utils/rateLimit.ts:17-21 | one check adds exactly 1 to the token's count and leaves every other token's count alone |
| RateLimit.Remaining | src/utils/rateLimit.ts:25 | `max(0, limit - usage)`, never negative |
| RateLimit.ResponseHeaders.Set | src/utils/rateLimit.ts:24-25 | `headers.set` replaces one header and keeps the others |
| RateLimit.Limiter.Check | src/utils/rateLimit.ts:16-30 | counts the call, sets `X-RateLimit-Limit` to the limit and `X-RateLimit-Remaining` from the new usage in every case, and reports the excess iff the new usage is above the limit |
| RateLimit.Limiter.Evict | src/utils/rateLimit.ts:10-13 | the cache dropping a token forgets its count, which restarts at 0 |
| RateLimit.CountedTimesAddsN | src/utils/rateLimit.ts:17-21 | n checks add n to the token's count and nothing to the others |
| RateLimit.NthCallIsRefusedPastTheLimit | src/utils/rateLimit.ts:23-29 | for a fresh token the n-th call is refused iff n > limit, so calls 1..limit pass and call limit+1 fails; Remaining is limit - n, or 0 past the limit |
| AnalyticsUtils.FormatDate | src/components/analytics/utils.ts:1-3 | returns its argument unchanged |
| AnalyticsUtils.SortDataByDate | src/components/analytics/utils.ts:5-16 | a sorted copy: a permutation of the input, which is left as it was |
| AnalyticsUtils.CompareOfKeys | src/components/analytics/utils.ts:7-15 | on `DD.MM` keys the comparator is the difference of the months, or of the days when the months agree |
| AnalyticsUtils.CompareIsMonthThenDay | src/components/analytics/utils.ts:7-15 | a key sorts before another iff (month, day) is smaller; a smaller month comes first whatever the days |
| AnalyticsUtils.SortedByMonthThenDay | src/components/analytics/utils.ts:5-16 | sorting keyed data yields a permutation ordered by month, then day |
| AnalyticsUtils.DatesForLast30Days | src/components/analytics/utils.ts:22-33 | thirty day keys, oldest first, ending with today |
| AnalyticsUtils.Last30Days | src/components/analytics/utils.ts:22-33 | the thirty keys are distinct and are exactly the days from today - 29 to today |
| AnalyticsUtils.InitializeDailyStats | src/components/analytics/utils.ts:35-49 | the map's keys are exactly the thirty days and each maps to `{date, 0, 0, 0}` |
| RecordAnalytics.Process | src/components/analytics/hooks/useAnalyticsData.ts:59-77 | `totalUsers`, `newUsers`, `returningUsers`, `botMessages`, `userMessages` and `sessions` are each the sum of that field over the records (users as new plus returning); one graph point and one session point per record, in record order; each point's `total` is `new + returning` and its messages are user plus bot messages |
| RecordAnalytics.ProcessedTotalsAgree | src/components/analytics/hooks/useAnalyticsData.ts:61-76 | `totalUsers = newUsers + returningUsers`; the graph totals sum to `totalUsers`; the per-session messages sum to bot plus user messages |
| RecordAnalytics.AnalyticsHook.FetchData | src/components/analytics/hooks/useAnalyticsData.ts:31-91 | fresh cached data is used without asking; otherwise a non-ok answer, a thrown error and missing `analytics.records` each set their error text and cache nothing; records are reduced, shown and cached with the time |
| Seqs.Since | src/components/analytics/useAnalyticsData.ts:34-40 | the thirty-day filter: exactly the conversations with `updatedAt` >= the cutoff (inclusive), in their order, as many as the input holds |
| ConversationAnalytics.AllMessages | src/components/analytics/useAnalyticsData.ts:45-58 | succeeds iff every conversation's message listing does, and then holds exactly the listed messages; otherwise fails with the first failing listing's error |
| ConversationAnalytics.CalculateDailyStats | src/components/analytics/useAnalyticsData.ts:60-73 | the loop of increments produces the graph of the thirty days, each day counting the conversations created on it |
| ConversationAnalytics.DailyGraphCounts | src/components/analytics/useAnalyticsData.ts:60-73 | thirty days, oldest first; per day `total = new` and `returning = 0`; the totals sum to the conversations created in those days, which is at most all of them |
| ConversationAnalytics.MessagesPerSession | src/components/analytics/useAnalyticsData.ts:75-80 | one entry per conversation, in order, counting the messages with that `conversationId` |
| ConversationAnalytics.MessagesCountedOnce | src/components/analytics/useAnalyticsData.ts:75-80 | with distinct conversation ids the per-session counts sum to the messages of those conversations, at most all messages |
| ConversationAnalytics.Summary | src/components/analytics/useAnalyticsData.ts:92-101 | `totalUsers = newUsers = sessions` = the recent conversations, `returningUsers = 0`, bot messages are the `outgoing` ones and user messages the `incoming` ones; `userGraph` is the computed graph and `messagesPerSession` the per-conversation message counts |
| ConversationAnalytics.ConversationHook.FetchData | src/components/analytics/useAnalyticsData.ts:82-109 | without a client, or on a failed listing or message fetch, the error message is set and the data kept; otherwise the data is the summary of the recent conversations and their messages |
| BotpressStats.IncomingUsers | src/components/bpComponents/BotpressStats.tsx:28-55 | the distinct senders of incoming messages are at most as many as the incoming messages |
| BotpressStats.IncomingUsersComplete | src/components/bpComponents/BotpressStats.tsx:41-43 | every incoming message's sender is counted among the users |
| BotpressStats.IncomingUsersSound | src/components/bpComponents/BotpressStats.tsx:41-43 | every counted user sent some incoming message |
| BotpressStats.TallyInvariant | src/components/bpComponents/BotpressStats.tsx:39-47 | `totalMessages = messagesByUser + messagesByBot` and `activeUsers <= messagesByUser` |
| BotpressStats.CountBatch | src/components/bpComponents/BotpressStats.tsx:39-47 | the `forEach` over one batch adds that batch's tally (total, user, bot, users) to the counters |
| BotpressStats.Scanned | src/components/bpComponents/BotpressStats.tsx:30 | the last min(10, n) conversations, in order |
| BotpressStats.ScanMessages | src/components/bpComponents/BotpressStats.tsx:32-48 | a failed fetch stops the loop with its error; otherwise the counters are the tally of all fetched messages |
| BotpressStats.Stats | src/components/bpComponents/BotpressStats.tsx:50-56 | `totalConversations` counts all fetched conversations; totals add up; a non-`incoming` direction counts as the bot's; `activeUsers` is the number of distinct senders of incoming messages, at most `messagesByUser` |
| BotpressStats.StatsPanel.ShowStep | src/botpress/components/BotpressStats.tsx:16-32 | the new loading step is shown and recorded, nothing else changes |
| BotpressStats.StatsPanel.Analyse | src/botpress/components/BotpressStats.tsx:33-61 | the message loop over the scanned conversations ends in `error` with the failing fetch's message, or stores the statistics of all fetched conversations and every scanned message, with status `success` |
| BotpressStats.StatsPanel.FetchStats | src/botpress/components/BotpressStats.tsx:13-67 | the steps advance `Verbinde mit Botpress...`, `Lade Konversationen...`, `Analysiere Nachrichten...`; any error ends in `error` with its message; success stores the statistics |
| Seqs.FilterIsTheOnly | src/components/conversation-management/ConversationsList.tsx:56-62 | the filter contract is complete: any subsequence of the input whose elements all pass and that has as many as pass is the filtered list, so the same thirty-day filter here keeps multiplicity and order |
| ConversationList.FirstPage | src/components/conversation-management/ConversationsList.tsx:65 | the first at most ten recent conversations, ten whenever there are that many |
| ConversationList.Search | src/components/conversation-management/ConversationsList.tsx:100-102 | an order-preserving subsequence holding exactly the conversations whose lower-cased id contains the lower-cased term, as many as match |
| ConversationList.EmptySearchKeepsAll | src/components/conversation-management/ConversationsList.tsx:100-102 | an empty term keeps every conversation |
| ConversationList.SearchIgnoresCase | src/components/conversation-management/ConversationsList.tsx:100-102 | searching for the lower-cased term gives the same rows |
| ConversationList.Rows | src/components/conversation-management/ConversationsList.tsx:155 | the first min(10, n) of the n search matches, in their order |
| ConversationList.PageCount | src/components/conversation-management/ConversationsList.tsx:177 | `ceil(total / 10)`: the least p with total <= 10p |
| ConversationList.NextRule | src/components/conversation-management/ConversationsList.tsx:187-189 | `Weiter` is enabled only when more than `currentPage * 10` conversations exist, and never with ten or fewer |
| ConversationList.PagingAsWrittenHidesTheRest | src/components/conversation-management/ConversationsList.tsx:37-65 | as written: with more than ten recent conversations `Weiter` is enabled on page one, yet a recent conversation past the tenth that differs from the first ten is not among the stored rows, which are the same on every page |
| ConversationList.PageRows | src/components/conversation-management/ConversationsList.tsx:177-189 | corrected paging: page `p` holds at most ten rows, the consecutive recent conversations from position `10(p-1)`, and none past the end |
| ConversationList.EveryRecentConversationHasItsPage | src/components/conversation-management/ConversationsList.tsx:177-189 | with the corrected paging, recent conversation `i` is row `i mod 10` of page `i div 10 + 1`, a page no greater than the page count |
| ConversationList.FirstPageAgrees | src/components/conversation-management/ConversationsList.tsx:65 | the corrected first page is the page shown as written |
| ConversationList.DaysAgo | src/components/conversation-management/ConversationsList.tsx:91-98 | the days shown are `ceil(abs(now - t) / 86400000)` |
| ConversationList.FormatDate | src/components/conversation-management/ConversationsList.tsx:91-98 | the text starts with `vor ` and ends with ` Tagen`, and the digits between read back with `parseInt` as the number of days |
| ConversationList.RequestFor | src/components/conversation-management/ConversationsList.tsx:45-53 | the listing is sorted by `updatedAt`, descending, and carries `nextToken` exactly when it is truthy |
| ConversationList.ConversationsPanel.FetchConversations | src/components/conversation-management/ConversationsList.tsx:40-89 | page and search are untouched; a failed listing sets `Fehler beim Laden der Konversationen`; the rows are the first page of the recent conversations and the total counts all recent ones; with `nextToken` never set, the rows are the start of that same list whatever the page |
| ConversationList.ConversationsPanel.HandlePageChange | src/components/conversation-management/ConversationsList.tsx:104-106 | only the current page changes |
| ConversationList.ConversationsPanel.SetSearchTerm | src/components/conversation-management/ConversationsList.tsx:130 | only the search term changes |
| BpConversationList.NewestFirst | src/components/bpComponents/ConversationsList.tsx:45-46 | a permutation sorted by `updatedAt`, newest first |
| BpConversationList.NewestFirstStable | src/components/bpComponents/ConversationsList.tsx:45-46 | the sort is stable: conversations with the same `updatedAt` keep their listed order |
| BpConversationList.Newest | src/components/bpComponents/ConversationsList.tsx:45-47 | the first min(10, n) of the newest-first order |
| BpConversationList.NewestAreKept | src/components/bpComponents/ConversationsList.tsx:45-47 | the kept conversations are sorted, come from the input and are at least as new as every dropped one |
| BpConversationList.TableBody | src/components/bpComponents/ConversationsList.tsx:123-139 | a spinner iff loading; `Keine Konversationen gefunden` iff the search finds nothing; otherwise the matching rows |
| BpConversationList.BpConversationsPanel.FetchConversations | src/components/bpComponents/ConversationsList.tsx:31-60 | a failed listing sets `Fehler beim Laden der Konversationen`; otherwise the newest ten are stored and the error cleared |
| ConversationDetail.InCreationOrder | src/components/conversation-management/ConversationDetail.tsx:41-43 | a permutation sorted by `createdAt`, oldest first |
| ConversationDetail.InCreationOrderStable | src/components/conversation-management/ConversationDetail.tsx:41-43 | the sort is stable: messages with the same `createdAt` keep the order they were fetched in |
| ConversationDetail.FormatDate | src/components/conversation-management/ConversationDetail.tsx:61-70 | `-` for a falsy argument, all fields `NaN` for an invalid date, and otherwise the stamp of the date, whose layout `StampLayout` states |
| ConversationDetail.StampLayout | src/components/conversation-management/ConversationDetail.tsx:66 | for a valid date the stamp is `DD.MM.YYYY HH:MM:SS`, 19 characters long, and each field reads back as the date's day, month + 1, year, hours, minutes and seconds |
| ConversationDetail.RenderPayload | src/components/conversation-management/ConversationDetail.tsx:72-96 | a truthy `text` wins; otherwise an `items` array is rendered item by item; the JSON dump is shown iff neither applies |
| ConversationDetail.UserId | src/components/conversation-management/ConversationDetail.tsx:98-103 | the truthy `webchat:owner` tag, else `Anonymer Benutzer` |
| ConversationDetail.Sender | src/components/conversation-management/ConversationDetail.tsx:167 | `User` iff the direction is `incoming`, otherwise `Bot` |
| ConversationDetail.DetailView.FetchConversationData | src/components/conversation-management/ConversationDetail.tsx:29-59 | without an id or a client nothing changes; either fetch failing sets its message; otherwise the details are stored and the messages in creation order |
| Integration.FirstIndex | src/app/integration/page.tsx:60 | `findIndex`: the first position that holds the key |
| Integration.KeptIffFirst | src/app/integration/page.tsx:59-61 | a project at the first position of its bot id is kept, and one that appears only at later positions is dropped |
| Integration.DedupeProperties | src/app/integration/page.tsx:59-61 | an order-preserving subsequence in which no two projects share a bot id, every input bot id appears, and de-duplicating again changes nothing |
| Integration.IntegrationPage.FetchUser | src/app/integration/page.tsx:15-33 | an ok answer sets the username; a failure keeps it |
| Integration.IntegrationPage.FetchProjects | src/app/integration/page.tsx:38-75 | without a username nothing happens; an empty result sets `Keine Projektdaten gefunden.`; missing `projects` gives `[]`; a failing query, or a project without `botpress`, sets `Fehler beim Laden der Projektdaten.`; otherwise the de-duplicated projects |
| Firmenprofil.SectionKey | src/app/firmenprofil/page.tsx:208-209 | `technischerAnsprechpartner` maps to `TechnischerAnsprechpartner`, `buchhaltung` to `buchhaltung`, anything else to the main data |
| Firmenprofil.ContactObjectFields | src/app/firmenprofil/page.tsx:65-86 | the contact object holds `_type` and the form's defined `Name`, `Email`, `Phone`, and no other key |
| Firmenprofil.ContactPatchEffect | src/app/firmenprofil/page.tsx:65-86 | a contact patch replaces that whole sub-object and leaves every other field of the firma alone |
| Firmenprofil.MainPatchEffect | src/app/firmenprofil/page.tsx:87-98 | a main-data patch changes a field iff it is one of `Name`, `Street`, `City`, `ZipCode`, `Country` and truthy in the form; falsy values never overwrite |
| Firmenprofil.MainPatchKeepsTaxNumber | src/app/firmenprofil/page.tsx:87-98 | `TaxNumber` is never touched |
| Firmenprofil.BuildMainUpdates | src/app/firmenprofil/page.tsx:87-98 | the five conditional assignments build the main-data updates |
| Firmenprofil.MainUpdatesFields | src/app/firmenprofil/page.tsx:87-98 | every update is a main field with a truthy form value, copied from the form, and every main field with a truthy form value is among the updates |
| Firmenprofil.UpdateFirmaData | src/app/firmenprofil/page.tsx:57-119 | one patch for the firma is sent; a failing commit passes its error on; an empty result raises `Keine Ergebnisse nach Transaktion.`; otherwise the first result |
| Firmenprofil.UpdatedUserDataReadsBack | src/app/firmenprofil/page.tsx:215-216 | the rebuilt user data holds the updated firma at the edited project, and every other project and field is as before |
| Firmenprofil.EditThenSave | src/app/firmenprofil/page.tsx:190-198 | after `handleEdit`, save sends the edit-time copy of the section |
| Firmenprofil.CancelResetsOnlySection | src/app/firmenprofil/page.tsx:245-248 | cancel resets the section in both `editing` and `editedData` and leaves every other section alone |
| Firmenprofil.OverviewChangeAsWrittenIsLost | src/app/firmenprofil/page.tsx:294-298 | as written, an overview edit is stored under `firmenübersicht`, so save still sends the copy taken at edit time |
| Firmenprofil.OverviewChangeAsWrittenExample | src/app/firmenprofil/page.tsx:294-298 | typing `Neu GmbH` over `Alt GmbH` sends `Name: Alt GmbH`, and after cancel the typed text stays on screen |
| Firmenprofil.OverviewChange | src/app/firmenprofil/page.tsx:294-298 | corrected: the overview edit is stored under the key save reads |
| Firmenprofil.OverviewChangeIsSaved | src/app/firmenprofil/page.tsx:196-212 | corrected: save sends the typed overview data |
| Firmenprofil.ProfilePage.LoadUserData | src/app/firmenprofil/page.tsx:176-188 | only with a truthy username: loaded data is stored, and a failed load sets `Fehler beim Laden der Daten` |
| Firmenprofil.ProfilePage.HandleEdit | src/app/firmenprofil/page.tsx:190-194 | the section opens for editing with a copy of its current data |
| Firmenprofil.ProfilePage.HandleCancel | src/app/firmenprofil/page.tsx:245-248 | the section's editing state and pending data are reset |
| Firmenprofil.ProfilePage.OnOverviewChange | src/app/firmenprofil/page.tsx:294-299 | corrected: the overview form's data is stored under `firmenuebersicht`, the key save and cancel read; nothing else changes |
| Firmenprofil.ProfilePage.OnContactChange | src/app/firmenprofil/page.tsx:320-345 | a contact form's data is stored under its section's key; nothing else changes |
| Firmenprofil.ProfilePage.HandleSave | src/app/firmenprofil/page.tsx:196-243 | falsy pending data, or a missing firma or `_id`, sends nothing and changes nothing; otherwise the patch is sent; a successful commit closes the section, shows the success text and stores the refetched or rebuilt user data; a failed commit changes nothing |
| SendGrid.SubjectLine | src/app/api/sendgrid/route.ts:21 | the subject is `Chatbot Support: ` followed by the given subject |
| SendGrid.MessageText | src/app/api/sendgrid/route.ts:22 | the text is exactly `Nachricht von `, the name, ` (`, the email, `):`, a newline and the message, each piece at its offset |
| SendGrid.Post | src/app/api/sendgrid/route.ts:6-36 | a body that cannot be destructured gives 500; 400 with no mail iff a field is falsy; otherwise one mail to and from the fixed address, then 200 `{success: true}` when the send succeeds, else 500 `success: false` |
| SendGrid.PostOutcomes | src/app/api/sendgrid/route.ts:11-35 | a mail is attempted iff all four fields are truthy; 200 iff it was also delivered |
| SendGrid.MailContents | src/app/api/sendgrid/route.ts:18-23 | sender and recipient are the same fixed address; the subject is the prefix and the form's subject; the text holds the form's name, email and message at their offsets, joined by the fixed pieces |
| SendGrid.SubjectLineInjective | src/app/api/sendgrid/route.ts:21 | different subjects give different subject lines |
| BotpressTest.UuidLayout | src/components/BotpressTest.tsx:7-10 | valid iff the string has length 36, hyphens at 8, 13, 18 and 23, `4` at 14 (version, section 4.1.3 of RFC 4122), 8, 9, a or b at 19 (variant, section 4.1.1), and hex digits elsewhere |
| BotpressTest.UuidOfGroups | src/components/BotpressTest.tsx:8 | valid iff the string is 8-4-4-4-12 hex groups joined by hyphens, the third starting with `4` and the fourth with a variant digit |
| BotpressTest.UuidIgnoresCase | src/components/BotpressTest.tsx:8 | the UUID test does not depend on letter case |
| BotpressTest.ConnectionCheck.InitBotpress | src/components/BotpressTest.tsx:17-38 | an empty id fails with `Keine Bot-ID konfiguriert` before the pattern check; an invalid one with `Ungültige Bot-ID: …`; only a valid id asks `getBot`, and its failure shows its message or `Ein unbekannter Fehler ist aufgetreten` |

## Left out

- The SDK clients and their I/O are given as inputs: the content lake, Botpress, SendGrid,
  `fetch`, `localStorage` and the router.
- The GROQ queries themselves are not evaluated. Their documents are given by `Backend`,
  including the shape `fetchUserData` returns.
- The `jsonwebtoken` and `jose` internals (HMAC, base64url, JSON parsing) are an oracle, with
  its soundness as a stated assumption of the lemmas that need it. `jwt.decode` on the logout
  page does not verify, and the model keeps it as `decode`.
- Calendar and locale handling (`Date` parsing, `toISOString`, `toLocaleDateString`, local
  time zones) is replaced by integers and caller-supplied labels.
- `ConversationDetail.FormatDate` takes the calendar fields from the caller. Its stamp layout
  is proved under the ranges of a valid date with a four-digit year.
- Floating point is left out: `calculatePercentage`, the statistics percentage and
  `Math.round` in tooltips.
- `ConversationList.DaysAgo` states `Math.ceil` of an exact division. The float rounding of
  `diffTime / 86400000` is not modelled.
- `ConversationAnalytics.AllMessages` runs the listings of `Promise.all` one after the other:
  it fails with the first failing listing in list order, where `Promise.all` rejects with the
  first to fail in time. React effect scheduling, re-renders and `setTimeout` are not
  modelled.
- `RateLimit.Limiter.Evict`: the LRU's eviction and TTL are one operation that may drop any
  token at any time. The capacity and interval are stored but not enforced.
- The rendered markup, charts, styling, form components and display pages are UI with no
  logic beyond the conditions modelled above.
- `Firmenprofil.ProfilePage.OnOverviewChange` carries the corrected handler of the second
  finding below, so the page class, `HandleSave` and `EditThenSave` describe the page with the
  overview key fixed. The handler as written is `Firmenprofil.OverviewChangeAsWritten`, and its
  lost edit is stated by `OverviewChangeAsWrittenIsLost` and `OverviewChangeAsWrittenExample`.
- `Strings.ToLower` folds only the ASCII letters `A`-`Z`. JavaScript's `toLowerCase` folds all
  of Unicode, so `ConversationList.Search` and `BpConversationList.TableBody` miss matches
  that need non-ASCII folding (the Kelvin sign, U+212A, against `k`, say).
- `Http.Field` reads the first field with a key. `JSON.parse` keeps the last of duplicate
  keys, so request bodies with a repeated key (login, SendGrid) are not modelled as parsed.
- `ConversationList.PageRows` is the corrected paging of the third finding below. The panel's
  `FetchConversations` keeps the paging as written, since that is what the page does; no method
  of the panel uses `PageRows`.
- `AnalyticsUtils.ParsePart` and `AnalyticsUtils.CompareDates` read date parts as decimal.
  `parseInt` without a radix reads a `0x` prefix as hexadecimal. The `DD.MM` keys the portal
  builds never carry one.
- `ConversationDetail.IfTruthy` shows nothing for every falsy value. React renders
  `{item.text && …}` as the text `0` when `text` is the number 0, and that rendered `0` is not
  modelled.
- `Firmenprofil`: the `{...userData}` spread is a value copy. The source's shallow copy
  shares `userData[0].projects` with the old state, and that aliasing is not modelled.
- The profile page's `fetchUser` effect is an input (`username`). So are the content lake's
  query answers.
- `JSON.stringify`'s pretty-printed text for a payload dump is not modelled. The model keeps
  the payload that is printed.
- `Http.Index` reads array elements and numeric object keys. Indexing into a string by
  position, as JavaScript allows, is not used by the portal's code and is not modelled.
- `Backend.UserDataJson` states only the document's top-level key. The rest of the document is
  its definition.

## Findings

| source | as written | input that shows it | evidently intended | confidence | as-written member | corrected member |
|---|---|---|---|---|---|---|
| src/app/api/analytics/config/route.ts:47-53 | `result[0]` is read from the object `fetchUserData` returns, so it is always `undefined` | any identified user with user data, for example one project with a complete Botpress configuration | read `result.projects[0]`, as `/api/credentials` does | not executed | AnalyticsConfigRoute.AsWrittenNeverServesAProject | AnalyticsConfigRoute.HandleGet |
| src/app/firmenprofil/page.tsx:294-298 | the overview form writes `editedData['firmenübersicht']`, while save and cancel use `firmenuebersicht` | edit the overview with Name `Alt GmbH`, type `Neu GmbH`, save | store the typed data under `firmenuebersicht` | not executed | Firmenprofil.OverviewChangeAsWrittenExample | Firmenprofil.OverviewChangeIsSaved |
| src/components/conversation-management/ConversationsList.tsx:37-89 | `nextToken` is never set, and the effect re-run by a page change sends the same request and stores `slice(0, 10)` again, so every page shows the same rows | eleven conversations of the last thirty days with distinct ids: `Seite 1 von 2`, `Weiter` enabled, and the eleventh is shown on no page | page `p` shows the recent conversations from position `10(p-1)` | not executed | ConversationList.PagingAsWrittenHidesTheRest | ConversationList.EveryRecentConversationHasItsPage |
