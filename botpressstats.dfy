/** The statistics panel of src/botpress/components/BotpressStats.tsx: the conversations of
    the last thirty days, the messages of the ten most recent ones tallied by direction, and the
    loading steps shown meanwhile. src/components/bpComponents/BotpressStats.tsx runs the same
    `fetchStats` without the loading steps. */
module BotpressStats {
  import opened Wrappers
  import opened Seqs

  /** A conversation as the panel reads it: only its id is used. */
  datatype Conversation = Conversation(id: string)

  /** A message; `direction` is `'incoming'` for the user's messages. */
  datatype Message = Message(direction: string, userId: string)

  predicate Incoming(m: Message) { m.direction == "incoming" }

  /** Every direction other than `'incoming'` counts as the bot's. */
  predicate FromBot(m: Message) { !Incoming(m) }

  /** The `userId`s of the incoming messages: what `uniqueUsers` collects. */
  function IncomingUsers(s: seq<Message>): (u: set<string>)
    ensures |u| <= Count(s, Incoming)
  {
    if s == [] then {}
    else
      var rest := IncomingUsers(s[1..]);
      if Incoming(s[0]) then rest + {s[0].userId} else rest
  }

  /** Every sender of an incoming message is a user. */
  lemma {:induction false} IncomingUsersComplete(s: seq<Message>, k: nat)
    requires k < |s| && Incoming(s[k])
    ensures s[k].userId in IncomingUsers(s)
  {
    if k > 0 {
      assert s[k] == s[1..][k - 1];
      IncomingUsersComplete(s[1..], k - 1);
    }
  }

  /** Every user sent an incoming message. */
  lemma {:induction false} IncomingUsersSound(s: seq<Message>, x: string)
    requires x in IncomingUsers(s)
    ensures exists k :: 0 <= k < |s| && Incoming(s[k]) && s[k].userId == x
  {
    if !(Incoming(s[0]) && s[0].userId == x) {
      var t := s[1..];
      IncomingUsersSound(t, x);
      var j :| 0 <= j < |t| && Incoming(t[j]) && t[j].userId == x;
      assert s[j + 1] == t[j];
    }
  }

  lemma {:induction false} IncomingUsersAppend(a: seq<Message>, b: seq<Message>)
    ensures IncomingUsers(a + b) == IncomingUsers(a) + IncomingUsers(b)
  {
    if a == [] {
      assert a + b == b;
    } else {
      assert (a + b)[1..] == a[1..] + b;
      IncomingUsersAppend(a[1..], b);
    }
  }

  /** The loop's variables: `totalMessages`, `messagesByUser`, `messagesByBot`, `uniqueUsers`. */
  datatype Counters = Counters(total: nat, byUser: nat, byBot: nat, users: set<string>)

  /** The counters after seeing `s`, starting from zero. */
  function Tally(s: seq<Message>): Counters {
    Counters(|s|, Count(s, Incoming), Count(s, FromBot), IncomingUsers(s))
  }

  lemma TallyAppend(a: seq<Message>, b: seq<Message>)
    ensures Tally(a + b) == Counters(Tally(a).total + |b|, Tally(a).byUser + Count(b, Incoming),
      Tally(a).byBot + Count(b, FromBot), Tally(a).users + IncomingUsers(b))
  {
    CountAppend(a, b, Incoming);
    CountAppend(a, b, FromBot);
    IncomingUsersAppend(a, b);
  }

  /** Every message is counted once, as the user's or the bot's, and there are no more active
      users than user messages. */
  lemma TallyInvariant(s: seq<Message>)
    ensures Tally(s).total == Tally(s).byUser + Tally(s).byBot
    ensures |Tally(s).users| <= Tally(s).byUser
  {
    CountPartition(s, Incoming, FromBot);
  }

  /** Counters added field by field, the sets joined. */
  function Plus(c: Counters, d: Counters): Counters {
    Counters(c.total + d.total, c.byUser + d.byUser, c.byBot + d.byBot, c.users + d.users)
  }

  /** One more message steps the user's count, adding its sender, or the bot's. */
  lemma TallySnoc(s: seq<Message>, m: Message)
    ensures Count(s + [m], Incoming) == Count(s, Incoming) + (if Incoming(m) then 1 else 0)
    ensures Count(s + [m], FromBot) == Count(s, FromBot) + (if Incoming(m) then 0 else 1)
    ensures IncomingUsers(s + [m]) == if Incoming(m) then IncomingUsers(s) + {m.userId} else IncomingUsers(s)
  {
    TallyAppend(s, [m]);
    assert [m][1..] == [];
  }

  /** `messages.forEach(...)`: one step of each counter per message. */
  method CountBatch(c: Counters, messages: seq<Message>) returns (r: Counters)
    ensures r == Plus(c, Tally(messages))
  {
    var total, byUser, byBot, users := c.total, c.byUser, c.byBot, c.users;
    for j := 0 to |messages|
      invariant total == c.total + j
      invariant byUser == c.byUser + Count(messages[..j], Incoming)
      invariant byBot == c.byBot + Count(messages[..j], FromBot)
      invariant users == c.users + IncomingUsers(messages[..j])
    {
      var m := messages[j];
      assert messages[..j + 1] == messages[..j] + [m];
      TallySnoc(messages[..j], m);
      total := total + 1;
      if m.direction == "incoming" {
        byUser := byUser + 1;
        users := users + {m.userId};
      } else {
        byBot := byBot + 1;
      }
    }
    assert messages[..|messages|] == messages;
    r := Counters(total, byUser, byBot, users);
  }

  /** `StatsData`. */
  datatype StatsData = StatsData(
    totalConversations: nat,
    totalMessages: nat,
    messagesByUser: nat,
    messagesByBot: nat,
    activeUsers: nat)

  /** The statistics of all fetched conversations and the messages of the scanned ones. */
  function Stats(conversations: seq<Conversation>, messages: seq<Message>): (d: StatsData)
    ensures d.totalConversations == |conversations|
    ensures d.totalMessages == |messages| == d.messagesByUser + d.messagesByBot
    ensures d.messagesByUser == Count(messages, Incoming) && d.messagesByBot == Count(messages, FromBot)
    ensures d.activeUsers == |IncomingUsers(messages)| <= d.messagesByUser
  {
    var t := Tally(messages);
    TallyInvariant(messages);
    StatsData(|conversations|, t.total, t.byUser, t.byBot, |t.users|)
  }

  /** `conversations.slice(-10)`, by id: the conversations whose messages are fetched. */
  function Scanned(conversations: seq<Conversation>): (ids: seq<string>)
    ensures |ids| == if |conversations| < 10 then |conversations| else 10
    ensures forall k :: 0 <= k < |ids| ==> ids[k] == conversations[|conversations| - |ids| + k].id
  {
    var recent := LastN(conversations, 10);
    seq(|recent|, k requires 0 <= k < |recent| => recent[k].id)
  }

  /** The `for…of` loop: the messages of each conversation in turn, tallied; a listing that
      throws ends the loop with its error. */
  method ScanMessages(ids: seq<string>, listMessages: string -> Result<seq<Message>, Option<string>>)
    returns (c: Counters, failure: Option<Option<string>>)
    ensures CollectAll(ids, listMessages).Err? ==> failure == Some(CollectAll(ids, listMessages).error)
    ensures CollectAll(ids, listMessages).Ok? ==> failure == None && c == Tally(CollectAll(ids, listMessages).value)
  {
    c := Counters(0, 0, 0, {});
    ghost var seen: seq<Message> := [];
    failure := None;
    var i := 0;
    while i < |ids| && failure.None?
      invariant 0 <= i <= |ids|
      invariant failure.None? ==> CollectAll(ids[..i], listMessages) == Ok(seen) && c == Tally(seen)
      invariant failure.Some? ==> CollectAll(ids, listMessages) == Err(failure.value)
    {
      assert ids[..i + 1] == ids[..i] + [ids[i]];
      CollectAllSnoc(ids[..i], ids[i], listMessages, seen);
      var fetched := listMessages(ids[i]);
      if fetched.Err? {
        failure := Some(fetched.error);
        assert ids[..i + 1] + ids[i + 1..] == ids;
        CollectAllFailed(ids[..i + 1], ids[i + 1..], listMessages);
      } else {
        c := CountBatch(c, fetched.value);
        TallyAppend(seen, fetched.value);
        seen := seen + fetched.value;
      }
      i := i + 1;
    }
    if failure.None? {
      assert ids[..i] == ids;
    }
  }

  datatype Status = Loading | Success | Failure

  const Initialising := "Initialisiere..."
  const Connecting := "Verbinde mit Botpress..."
  const LoadingConversations := "Lade Konversationen..."
  const AnalysingMessages := "Analysiere Nachrichten..."

  /** The panel's state; `steps` records every loading step shown, in order. */
  class StatsPanel {
    var status: Status
    var error: Option<string>
    var stats: Option<StatsData>
    var loadingStep: string
    ghost var steps: seq<string>

    constructor ()
      ensures status == Loading && error == None && stats == None
      ensures loadingStep == Initialising && steps == [Initialising]
    {
      status := Loading;
      error := None;
      stats := None;
      loadingStep := Initialising;
      steps := [Initialising];
    }

    method ShowStep(step: string)
      modifies this
      ensures loadingStep == step && steps == old(steps) + [step]
      ensures status == old(status) && error == old(error) && stats == old(stats)
    {
      loadingStep := step;
      steps := steps + [step];
    }

    /** The message loop and what follows it: the statistics, or the error that ended it. */
    method Analyse(conversations: seq<Conversation>, listMessages: string -> Result<seq<Message>, Option<string>>)
      modifies this
      ensures steps == old(steps) && loadingStep == old(loadingStep)
      ensures match CollectAll(Scanned(conversations), listMessages)
        case Err(e) => status == Failure && error == Some(ErrorText(e)) && stats == old(stats)
        case Ok(messages) => status == Success && error == old(error) && stats == Some(Stats(conversations, messages))
    {
      var ids := Scanned(conversations);
      ghost var outcome := CollectAll(ids, listMessages);
      var c, failure := ScanMessages(ids, listMessages);
      if failure.Some? {
        assert outcome.Err? && outcome.error == failure.value;
        error := Some(ErrorText(failure.value));
        status := Failure;
      } else {
        assert outcome.Ok? && c == Tally(outcome.value);
        stats := Some(StatsData(|conversations|, c.total, c.byUser, c.byBot, |c.users|));
        assert stats == Some(Stats(conversations, outcome.value));
        status := Success;
      }
    }

    /** `fetchStats`. `listing` is what listing the conversations gave, `listMessages` what
        listing one conversation's messages gives; an `Err` is a thrown value. */
    method FetchStats(listing: Result<seq<Conversation>, Option<string>>,
      listMessages: string -> Result<seq<Message>, Option<string>>)
      modifies this
      ensures listing.Err? ==>
        status == Failure && error == Some(ErrorText(listing.error)) && stats == old(stats) &&
        steps == old(steps) + [Connecting, LoadingConversations]
      ensures listing.Ok? ==>
        steps == old(steps) + [Connecting, LoadingConversations, AnalysingMessages] &&
        match CollectAll(Scanned(listing.value), listMessages)
        case Err(e) => status == Failure && error == Some(ErrorText(e)) && stats == old(stats)
        case Ok(messages) => status == Success && error == old(error) && stats == Some(Stats(listing.value, messages))
      ensures loadingStep == steps[|steps| - 1]
    {
      ghost var before := steps;
      ShowStep(Connecting);
      ShowStep(LoadingConversations);
      assert steps == before + [Connecting, LoadingConversations];
      if listing.Err? {
        error := Some(ErrorText(listing.error));
        status := Failure;
        return;
      }
      ShowStep(AnalysingMessages);
      assert steps == before + [Connecting, LoadingConversations, AnalysingMessages];
      Analyse(listing.value, listMessages);
    }
  }
}
