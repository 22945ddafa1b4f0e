/** The analytics hook of src/components/analytics/hooks/useAnalyticsData.ts: the reduction of
    the records `/api/analytics` returns into totals and per-record series, and the
    five-minute cache it keeps in `localStorage`. */
module RecordAnalytics {
  import opened Wrappers
  import opened Seqs

  /** One record of `result.analytics.records`. */
  datatype AnalyticsRecord = AnalyticsRecord(
    startDateTimeUtc: string,
    newUsers: int,
    returningUsers: int,
    botMessages: int,
    userMessages: int,
    sessions: int)

  /** One point of `userGraph`; `newUsers` is the `new` field. */
  datatype GraphPoint = GraphPoint(date: string, total: int, newUsers: int, returning: int)

  /** One point of `messagesPerSession`. */
  datatype SessionPoint = SessionPoint(date: string, messages: int)

  datatype AnalyticsData = AnalyticsData(
    totalUsers: int,
    newUsers: int,
    returningUsers: int,
    userGraph: seq<GraphPoint>,
    botMessages: int,
    userMessages: int,
    sessions: int,
    messagesPerSession: seq<SessionPoint>)

  function UsersOf(r: AnalyticsRecord): int { r.newUsers + r.returningUsers }
  function NewOf(r: AnalyticsRecord): int { r.newUsers }
  function ReturningOf(r: AnalyticsRecord): int { r.returningUsers }
  function BotOf(r: AnalyticsRecord): int { r.botMessages }
  function UserOf(r: AnalyticsRecord): int { r.userMessages }
  function SessionsOf(r: AnalyticsRecord): int { r.sessions }
  function MessagesOf(r: AnalyticsRecord): int { r.userMessages + r.botMessages }

  /** The reduction of lines 59-77; `dateLabel` stands for
      `new Date(startDateTimeUtc).toLocaleDateString()`. */
  function Process(records: seq<AnalyticsRecord>, dateLabel: string -> string): (d: AnalyticsData)
    ensures d.totalUsers == Sum(records, UsersOf)
    ensures d.newUsers == Sum(records, NewOf) && d.returningUsers == Sum(records, ReturningOf)
    ensures d.botMessages == Sum(records, BotOf) && d.userMessages == Sum(records, UserOf)
    ensures d.sessions == Sum(records, SessionsOf)
    ensures |d.userGraph| == |records| && |d.messagesPerSession| == |records|
    ensures forall k :: 0 <= k < |records| ==>
      d.userGraph[k].date == dateLabel(records[k].startDateTimeUtc) &&
      d.userGraph[k].newUsers == records[k].newUsers &&
      d.userGraph[k].returning == records[k].returningUsers &&
      d.userGraph[k].total == d.userGraph[k].newUsers + d.userGraph[k].returning
    ensures forall k :: 0 <= k < |records| ==>
      d.messagesPerSession[k].date == dateLabel(records[k].startDateTimeUtc) &&
      d.messagesPerSession[k].messages == records[k].userMessages + records[k].botMessages
  {
    AnalyticsData(
      Sum(records, UsersOf),
      Sum(records, NewOf),
      Sum(records, ReturningOf),
      seq(|records|, k requires 0 <= k < |records| =>
        GraphPoint(dateLabel(records[k].startDateTimeUtc), UsersOf(records[k]), records[k].newUsers, records[k].returningUsers)),
      Sum(records, BotOf),
      Sum(records, UserOf),
      Sum(records, SessionsOf),
      seq(|records|, k requires 0 <= k < |records| =>
        SessionPoint(dateLabel(records[k].startDateTimeUtc), MessagesOf(records[k]))))
  }

  function GraphTotal(p: GraphPoint): int { p.total }
  function PointMessages(p: SessionPoint): int { p.messages }

  /** The totals agree with each other and with the series: all users are new or returning,
      the graph adds up to all users, and the messages per session add up to the bot's and the
      users' messages. */
  lemma ProcessedTotalsAgree(records: seq<AnalyticsRecord>, dateLabel: string -> string)
    ensures var d := Process(records, dateLabel);
      d.totalUsers == d.newUsers + d.returningUsers &&
      Sum(d.userGraph, GraphTotal) == d.totalUsers &&
      Sum(d.messagesPerSession, PointMessages) == d.botMessages + d.userMessages
  {
    var d := Process(records, dateLabel);
    SumOfPointwiseSum(records, NewOf, ReturningOf, UsersOf);
    SumOfImage(records, d.userGraph, UsersOf, GraphTotal);
    SumOfPointwiseSum(records, BotOf, UserOf, MessagesOf);
    SumOfImage(records, d.messagesPerSession, MessagesOf, PointMessages);
  }

  /** What `localStorage` holds under `analytics_data`. */
  datatype CacheEntry = CacheEntry(data: AnalyticsData, timestamp: int)

  /** Five minutes in milliseconds. */
  const CacheExpiry: int := 5 * 60 * 1000

  /** `Date.now() - timestamp < cacheExpiry`: a strict comparison. */
  predicate Fresh(entry: CacheEntry, now: int) {
    now - entry.timestamp < CacheExpiry
  }

  /** What asking `/api/analytics` came to: a response that is not `ok`, a JSON body whose
      `analytics?.records` may be missing, or a thrown error with its message. */
  datatype ApiResult =
    | NotOk(statusText: string)
    | Received(records: Option<seq<AnalyticsRecord>>)
    | Failed(message: string)

  /** The hook's state and the browser's `localStorage` entry. */
  class AnalyticsHook {
    var data: Option<AnalyticsData>
    var loading: bool
    var error: Option<string>
    var storage: Option<CacheEntry>

    constructor (stored: Option<CacheEntry>)
      ensures data == None && loading && error == None && storage == stored
    {
      data := None;
      loading := true;
      error := None;
      storage := stored;
    }

    /** `fetchData`: a fresh cache entry is used as it is; otherwise the records are fetched,
        processed and cached with the time `savedAt` at which the processing ended. */
    method FetchData(now: int, result: ApiResult, savedAt: int, dateLabel: string -> string)
      modifies this
      ensures !loading
      ensures old(storage).Some? && Fresh(old(storage).value, now) ==>
        data == Some(old(storage).value.data) && error == old(error) && storage == old(storage)
      ensures !(old(storage).Some? && Fresh(old(storage).value, now)) ==>
        match result
        case NotOk(text) =>
          error == Some("Error fetching analytics data: " + text) && data == old(data) && storage == old(storage)
        case Failed(message) =>
          error == Some(message) && data == old(data) && storage == old(storage)
        case Received(None) =>
          error == Some("Invalid analytics data format") && data == old(data) && storage == old(storage)
        case Received(Some(records)) =>
          var d := Process(records, dateLabel);
          data == Some(d) && storage == Some(CacheEntry(d, savedAt)) && error == old(error)
    {
      if storage.Some? && Fresh(storage.value, now) {
        data := Some(storage.value.data);
        loading := false;
        return;
      }
      match result {
        case NotOk(text) =>
          error := Some("Error fetching analytics data: " + text);
        case Failed(message) =>
          error := Some(message);
        case Received(records) =>
          if records.None? {
            error := Some("Invalid analytics data format");
          } else {
            var d := Process(records.value, dateLabel);
            storage := Some(CacheEntry(d, savedAt));
            data := Some(d);
          }
      }
      loading := false;
    }
  }
}
