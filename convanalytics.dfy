/** The Botpress-based analytics hook of src/components/analytics/useAnalyticsData.ts: the
    thirty-day filter, the daily statistics, the messages per conversation and the totals. */
module ConversationAnalytics {
  import opened Wrappers
  import opened Seqs
  import opened AnalyticsUtils

  /** A conversation as the hook reads it; `createdDay` is the day key of `createdAt`
      (`toISOString().split('T')[0]`), `updatedAt` a time in milliseconds. */
  datatype Conversation = Conversation(id: string, createdDay: int, updatedAt: int)

  /** A message; `direction` is `'incoming'` or `'outgoing'`. */
  datatype Message = Message(conversationId: string, direction: string)

  function CreatedDay(c: Conversation): int { c.createdDay }
  function ConversationOf(m: Message): string { m.conversationId }

  function UpdatedAt(c: Conversation): int { c.updatedAt }

  /** The user graph `calculateDailyStats` yields: one entry per day of the last thirty, oldest
      first, counting the conversations created that day. */
  function DailyGraph(today: int, conversations: seq<Conversation>): seq<DailyStat> {
    var dates := Last30Days(today);
    seq(30, k requires 0 <= k < 30 =>
      var n := CountKey(conversations, CreatedDay, dates[k]);
      DailyStat(dates[k], n, n, 0))
  }

  /** Every day of `stats` counts, in `total` and `new`, the conversations of `seen` created
      on it, and no returning users. */
  predicate CountsOf(stats: map<int, DailyStat>, seen: seq<Conversation>) {
    forall d :: d in stats ==>
      stats[d] == DailyStat(d, CountKey(seen, CreatedDay, d), CountKey(seen, CreatedDay, d), 0)
  }

  /** One conversation more: its creation day, if it is a key, counts one more. */
  lemma CountsStep(stats: map<int, DailyStat>, seen: seq<Conversation>, c: Conversation)
    requires CountsOf(stats, seen)
    ensures var next := if c.createdDay in stats
        then stats[c.createdDay := stats[c.createdDay].(total := stats[c.createdDay].total + 1,
          newUsers := stats[c.createdDay].newUsers + 1)]
        else stats;
      next.Keys == stats.Keys && CountsOf(next, seen + [c])
  {
    forall d { CountKeySnoc(seen, c, CreatedDay, d); }
  }

  /** `calculateDailyStats`: the zeroed map of the last thirty days, one increment of `total`
      and `new` per conversation whose creation day is a key, then the values in key order. */
  method CalculateDailyStats(today: int, conversations: seq<Conversation>) returns (graph: seq<DailyStat>)
    ensures graph == DailyGraph(today, conversations)
  {
    var stats := InitializeDailyStats(today);
    assert CountsOf(stats, []);
    for i := 0 to |conversations|
      invariant stats.Keys == set d | d in Last30Days(today)
      invariant CountsOf(stats, conversations[..i])
    {
      var c := conversations[i];
      assert conversations[..i + 1] == conversations[..i] + [c];
      CountsStep(stats, conversations[..i], c);
      if c.createdDay in stats {
        var s := stats[c.createdDay];
        stats := stats[c.createdDay := s.(total := s.total + 1, newUsers := s.newUsers + 1)];
      }
    }
    assert conversations[..|conversations|] == conversations;
    var dates := Last30Days(today);
    graph := seq(30, k requires 0 <= k < 30 => stats[dates[k]]);
  }

  function TotalOf(s: DailyStat): int { s.total }

  lemma {:induction false} SumOfDailyTotals(graph: seq<DailyStat>, conversations: seq<Conversation>, dates: seq<int>)
    requires |graph| == |dates|
    requires forall k :: 0 <= k < |graph| ==> graph[k].total == CountKey(conversations, CreatedDay, dates[k])
    ensures Sum(graph, TotalOf) == SumOfCounts(conversations, CreatedDay, dates)
  {
    if graph != [] {
      SumOfDailyTotals(graph[1..], conversations, dates[1..]);
    }
  }

  /** Every day counts as many new users as it has in total and no returning ones, the days are
      exactly the last thirty, and the totals add up to at most the number of conversations:
      each conversation is counted on its creation day or not at all. */
  lemma DailyGraphCounts(today: int, conversations: seq<Conversation>)
    ensures var g := DailyGraph(today, conversations);
      |g| == 30 &&
      (forall k :: 0 <= k < 30 ==> g[k].date == today - 29 + k && g[k].newUsers == g[k].total && g[k].returning == 0) &&
      Sum(g, TotalOf) == CountKeyIn(conversations, CreatedDay, Last30Days(today)) &&
      Sum(g, TotalOf) <= |conversations|
  {
    var g := DailyGraph(today, conversations);
    var dates := Last30Days(today);
    SumOfDailyTotals(g, conversations, dates);
    SumOfCountsIsCountIn(conversations, CreatedDay, dates);
  }

  /** One entry of `messagesPerSession`. */
  datatype SessionCount = SessionCount(date: int, messages: nat)

  /** `calculateMessagesPerSession`: per conversation, in order, the messages that belong to it
      (`messages.filter(msg => msg.conversationId === conv.id).length`). */
  function MessagesPerSession(conversations: seq<Conversation>, messages: seq<Message>): (r: seq<SessionCount>)
    ensures |r| == |conversations|
    ensures forall k :: 0 <= k < |r| ==>
      r[k].date == conversations[k].createdDay && r[k].messages == CountKey(messages, ConversationOf, conversations[k].id)
  {
    seq(|conversations|, k requires 0 <= k < |conversations| =>
      SessionCount(conversations[k].createdDay, CountKey(messages, ConversationOf, conversations[k].id)))
  }

  function IdOf(c: Conversation): string { c.id }
  function SessionMessages(s: SessionCount): int { s.messages }

  function Ids(conversations: seq<Conversation>): (ids: seq<string>)
    ensures |ids| == |conversations| && forall k :: 0 <= k < |ids| ==> ids[k] == conversations[k].id
  {
    seq(|conversations|, k requires 0 <= k < |conversations| => conversations[k].id)
  }

  lemma {:induction false} SumOfSessionCounts(r: seq<SessionCount>, messages: seq<Message>, ids: seq<string>)
    requires |r| == |ids|
    requires forall k :: 0 <= k < |r| ==> r[k].messages == CountKey(messages, ConversationOf, ids[k])
    ensures Sum(r, SessionMessages) == SumOfCounts(messages, ConversationOf, ids)
  {
    if r != [] {
      SumOfSessionCounts(r[1..], messages, ids[1..]);
    }
  }

  /** With distinct conversation ids, every message is counted for at most one conversation: the
      counts add up to the messages that belong to a listed conversation. */
  lemma MessagesCountedOnce(conversations: seq<Conversation>, messages: seq<Message>)
    requires Distinct(Ids(conversations))
    ensures Sum(MessagesPerSession(conversations, messages), SessionMessages) ==
      CountKeyIn(messages, ConversationOf, Ids(conversations))
    ensures Sum(MessagesPerSession(conversations, messages), SessionMessages) <= |messages|
  {
    var ids := Ids(conversations);
    SumOfSessionCounts(MessagesPerSession(conversations, messages), messages, ids);
    SumOfCountsIsCountIn(messages, ConversationOf, ids);
  }

  /** `processMessages`: the messages of each recent conversation (`Promise.all` taken in
      order), flattened; a listing that fails fails the whole call. */
  function AllMessages(conversations: seq<Conversation>, listMessages: string -> Result<seq<Message>, string>): (r: Result<seq<Message>, string>)
    ensures r.Ok? <==> forall k :: 0 <= k < |conversations| ==> listMessages(conversations[k].id).Ok?
    ensures r.Err? ==>
      (exists k :: 0 <= k < |conversations| && listMessages(conversations[k].id) == Err(r.error) &&
         forall j :: 0 <= j < k ==> listMessages(conversations[j].id).Ok?)
    ensures r.Ok? ==>
      (forall m :: m in r.value <==>
         exists k :: 0 <= k < |conversations| &&
           listMessages(conversations[k].id).Ok? && m in listMessages(conversations[k].id).value)
  {
    CollectAllCases(Ids(conversations), listMessages);
    CollectAll(Ids(conversations), listMessages)
  }

  /** The data the hook shows. */
  datatype AnalyticsData = AnalyticsData(
    totalUsers: nat,
    newUsers: nat,
    returningUsers: nat,
    userGraph: seq<DailyStat>,
    botMessages: nat,
    userMessages: nat,
    sessions: nat,
    messagesPerSession: seq<SessionCount>)

  predicate Outgoing(m: Message) { m.direction == "outgoing" }
  predicate Incoming(m: Message) { m.direction == "incoming" }

  /** The object of lines 92-101. */
  function Summary(recent: seq<Conversation>, messages: seq<Message>, graph: seq<DailyStat>): (d: AnalyticsData)
    ensures d.totalUsers == d.newUsers == d.sessions == |recent| && d.returningUsers == 0
    ensures d.botMessages == |Filter(messages, Outgoing)| && d.userMessages == |Filter(messages, Incoming)|
    ensures d.botMessages + d.userMessages <= |messages|
    ensures d.userGraph == graph && d.messagesPerSession == MessagesPerSession(recent, messages)
  {
    CountDisjoint(messages, Outgoing, Incoming);
    CountIsFilterLength(messages, Outgoing);
    CountIsFilterLength(messages, Incoming);
    AnalyticsData(|recent|, |recent|, 0, graph, Count(messages, Outgoing), Count(messages, Incoming),
      |recent|, MessagesPerSession(recent, messages))
  }

  /** The hook's state. */
  class ConversationHook {
    var data: Option<AnalyticsData>
    var loading: bool
    var error: Option<string>

    constructor ()
      ensures data == None && loading && error == None
    {
      data := None;
      loading := true;
      error := None;
    }

    /** `fetchData`. `listing` is what listing the conversations gave (`None` when the client is
        not initialised), `listMessages` what listing one conversation's messages gives. */
    method FetchData(today: int, thirtyDaysAgo: int, listing: Option<Result<seq<Conversation>, string>>,
      listMessages: string -> Result<seq<Message>, string>)
      modifies this
      ensures !loading
      ensures listing.None? ==> error == Some("Botpress Client ist nicht initialisiert") && data == old(data)
      ensures listing.Some? && listing.value.Err? ==> error == Some(listing.value.error) && data == old(data)
      ensures listing.Some? && listing.value.Ok? ==>
        var recent := Since(listing.value.value, UpdatedAt, thirtyDaysAgo);
        match AllMessages(recent, listMessages)
        case Err(e) => error == Some(e) && data == old(data)
        case Ok(messages) =>
          error == old(error) && data == Some(Summary(recent, messages, DailyGraph(today, recent)))
    {
      loading := true;
      if listing.None? {
        error := Some("Botpress Client ist nicht initialisiert");
      } else if listing.value.Err? {
        error := Some(listing.value.error);
      } else {
        var recent := Since(listing.value.value, UpdatedAt, thirtyDaysAgo);
        var all := AllMessages(recent, listMessages);
        if all.Err? {
          error := Some(all.error);
        } else {
          var graph := CalculateDailyStats(today, recent);
          data := Some(Summary(recent, all.value, graph));
        }
      }
      loading := false;
    }
  }
}
