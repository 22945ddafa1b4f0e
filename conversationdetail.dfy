/** The conversation view of src/components/conversation-management/ConversationDetail.tsx:
    messages in creation order, the fixed-width time stamp, the payload dispatch and the owner. */
module ConversationDetail {
  import opened Wrappers
  import opened Strings
  import opened Seqs
  import opened Http

  /** A message as the view reads it; `createdAt` is a time in milliseconds. */
  datatype Message = Message(id: string, direction: string, createdAt: int, payload: Json)

  /** The comparator `a.createdAt - b.createdAt` is negative. */
  predicate Earlier(a: Message, b: Message) {
    a.createdAt - b.createdAt < 0
  }

  function CreatedAt(m: Message): int { m.createdAt }

  /** `messagesResponse.sort(...)`: a permutation, oldest first. */
  function InCreationOrder(messages: seq<Message>): (r: seq<Message>)
    ensures multiset(r) == multiset(messages)
    ensures forall i, j :: 0 <= i < j < |r| ==> r[i].createdAt <= r[j].createdAt
  {
    SortWithSorted(messages, Earlier, CreatedAt);
    var r := SortWith(messages, Earlier);
    assert forall i, j :: 0 <= i < j < |r| ==> CreatedAt(r[i]) <= CreatedAt(r[j]);
    r
  }

  /** The sort is stable: messages created at the same time keep the order the server sent. */
  lemma InCreationOrderStable(messages: seq<Message>, t: int)
    ensures OfKey(InCreationOrder(messages), CreatedAt, t) == OfKey(messages, CreatedAt, t)
  {
    SortWithStable(messages, Earlier, CreatedAt, t);
  }

  // ---------------------------------------------------------------------------
  // formatDate

  /** The local calendar fields of a `Date`: `getDate()`, `getMonth()` (from 0), `getFullYear()`,
      `getHours()`, `getMinutes()`, `getSeconds()`. */
  datatype DateTime = DateTime(day: nat, month: nat, year: nat, hours: nat, minutes: nat, seconds: nat)

  /** The ranges a valid date's fields lie in, with a four-digit year. */
  predicate InRange(d: DateTime) {
    1 <= d.day <= 31 && d.month <= 11 && 1000 <= d.year <= 9999 &&
    d.hours <= 23 && d.minutes <= 59 && d.seconds <= 59
  }

  /** `DD.MM.YYYY HH:MM:SS`. */
  function Stamp(d: DateTime): string {
    Pad2(d.day) + "." + Pad2(d.month + 1) + "." + NatToString(d.year) + " " +
    Pad2(d.hours) + ":" + Pad2(d.minutes) + ":" + Pad2(d.seconds)
  }

  /** `formatDate`: `'-'` for a falsy argument; otherwise the stamp of what `new Date` makes of
      it, where `None` is an invalid date, whose fields are all `NaN`. Nothing in the `try`
      throws, so its `catch` is never taken. */
  function FormatDate(dateString: Option<string>, calendar: string -> Option<DateTime>): (r: string)
    ensures !TruthyOpt(dateString) ==> r == "-"
    ensures TruthyOpt(dateString) && calendar(dateString.value).None? ==> r == "NaN.NaN.NaN NaN:NaN:NaN"
    ensures TruthyOpt(dateString) && calendar(dateString.value).Some? ==> r == Stamp(calendar(dateString.value).value)
  {
    if !TruthyOpt(dateString) then "-"
    else match calendar(dateString.value)
      case None => "NaN.NaN.NaN NaN:NaN:NaN"
      case Some(d) => Stamp(d)
  }

  lemma FourDigits(n: nat)
    requires 1000 <= n <= 9999
    ensures |NatToString(n)| == 4
  {
    assert NatToString(n) == NatToString(n / 10) + [DigitChar(n % 10)];
    assert NatToString(n / 10) == NatToString(n / 100) + [DigitChar(n / 10 % 10)];
  }

  /** `x` and `y` can be read back from `x + y`. */
  lemma Halves(x: string, y: string)
    ensures (x + y)[..|x|] == x && (x + y)[|x|..] == y
  {
  }

  /** Where the fields of a stamp sit. */
  lemma StampPieces(d: DateTime)
    requires InRange(d)
    ensures var s := Stamp(d);
      |s| == 19 && s[2] == '.' && s[5] == '.' && s[10] == ' ' && s[13] == ':' && s[16] == ':' &&
      s[0..2] == Pad2(d.day) && s[3..5] == Pad2(d.month + 1) && s[6..10] == NatToString(d.year) &&
      s[11..13] == Pad2(d.hours) && s[14..16] == Pad2(d.minutes) && s[17..19] == Pad2(d.seconds)
  {
    FourDigits(d.year);
    var p1 := Pad2(d.day) + ".";
    var p2 := p1 + Pad2(d.month + 1);
    var p3 := p2 + ".";
    var p4 := p3 + NatToString(d.year);
    var p5 := p4 + " ";
    var p6 := p5 + Pad2(d.hours);
    var p7 := p6 + ":";
    var p8 := p7 + Pad2(d.minutes);
    var p9 := p8 + ":";
    var s := p9 + Pad2(d.seconds);
    assert Stamp(d) == s;
    Halves(p9, Pad2(d.seconds));
    Halves(p8, ":");
    Halves(p7, Pad2(d.minutes));
    Halves(p6, ":");
    Halves(p5, Pad2(d.hours));
    Halves(p4, " ");
    Halves(p3, NatToString(d.year));
    Halves(p2, ".");
    Halves(p1, Pad2(d.month + 1));
    Halves(Pad2(d.day), ".");
    assert s[..17] == p9 && s[..16] == p8 && s[..14] == p7 && s[..13] == p6;
    assert s[..11] == p5 && s[..10] == p4 && s[..6] == p3 && s[..5] == p2 && s[..3] == p1;
  }

  /** A stamp has fixed width: each field sits at its place, padded to its width, and reads back
      as its value; the month shown is `getMonth() + 1`. */
  lemma StampLayout(d: DateTime)
    requires InRange(d)
    ensures var s := Stamp(d);
      |s| == 19 && s[2] == '.' && s[5] == '.' && s[10] == ' ' && s[13] == ':' && s[16] == ':' &&
      ParseInt(s[0..2]) == Some(d.day) && ParseInt(s[3..5]) == Some(d.month + 1) &&
      ParseInt(s[6..10]) == Some(d.year as int) && ParseInt(s[11..13]) == Some(d.hours) &&
      ParseInt(s[14..16]) == Some(d.minutes) && ParseInt(s[17..19]) == Some(d.seconds)
  {
    StampPieces(d);
    ParseIntOfPad2(d.day);
    ParseIntOfPad2(d.month + 1);
    ParseIntOfPad2(d.hours);
    ParseIntOfPad2(d.minutes);
    ParseIntOfPad2(d.seconds);
    ParseIntOfIntToString(d.year);
    assert IntToString(d.year) == NatToString(d.year);
  }

  // ---------------------------------------------------------------------------
  // renderMessagePayload

  /** One entry of an `items` payload: the parts that are truthy and therefore shown. */
  datatype ItemView = ItemView(text: Option<Json>, title: Option<Json>, subtitle: Option<Json>)

  /** What a payload renders as. */
  datatype Rendered = TextBlock(text: Json) | ItemList(items: seq<ItemView>) | JsonDump(payload: Json)

  /** `{cond && <div>{value}</div>}`: the value when it is truthy. */
  function IfTruthy(j: Option<Json>): (r: Option<Json>)
    ensures r.Some? <==> JsTruthy(j)
    ensures r.Some? ==> j == r
  {
    if JsTruthy(j) then j else None
  }

  function ItemOf(item: Json): ItemView {
    ItemView(IfTruthy(Member(Some(item), "text")), IfTruthy(Member(Some(item), "title")),
      IfTruthy(Member(Some(item), "subtitle")))
  }

  /** `renderMessagePayload`: a truthy `text` first, then an `items` array, else the dump. */
  function RenderPayload(payload: Json): (r: Rendered)
    ensures JsTruthy(Member(Some(payload), "text")) ==> r == TextBlock(Member(Some(payload), "text").value)
    ensures (!JsTruthy(Member(Some(payload), "text")) && Member(Some(payload), "items").Some? &&
      Member(Some(payload), "items").value.Arr?) ==>
      var items := Member(Some(payload), "items").value.items;
      r.ItemList? && |r.items| == |items| &&
      forall k :: 0 <= k < |items| ==> r.items[k] == ItemOf(items[k])
    ensures r.JsonDump? <==> (!JsTruthy(Member(Some(payload), "text")) &&
      !(Member(Some(payload), "items").Some? && Member(Some(payload), "items").value.Arr?))
    ensures r.JsonDump? ==> r.payload == payload
  {
    var text := Member(Some(payload), "text");
    var items := Member(Some(payload), "items");
    if JsTruthy(text) then TextBlock(text.value)
    else if JsTruthy(items) && items.value.Arr? then
      ItemList(seq(|items.value.items|, k requires 0 <= k < |items.value.items| => ItemOf(items.value.items[k])))
    else JsonDump(payload)
  }

  /** `getUserId`: the truthy `webchat:owner` tag, else `'Anonymer Benutzer'`. */
  function UserId(details: Option<Json>): (r: Json)
    ensures var owner := Member(Member(Member(details, "conversation"), "tags"), "webchat:owner");
      (JsTruthy(owner) ==> r == owner.value) && (!JsTruthy(owner) ==> r == Str("Anonymer Benutzer"))
  {
    var owner := Member(Member(Member(details, "conversation"), "tags"), "webchat:owner");
    if JsTruthy(owner) then owner.value else Str("Anonymer Benutzer")
  }

  /** The sender label of line 167. */
  function Sender(m: Message): (r: string)
    ensures r == "User" <==> m.direction == "incoming"
    ensures r == "User" || r == "Bot"
  {
    if m.direction == "incoming" then "User" else "Bot"
  }

  /** The view's state. */
  class DetailView {
    var messages: seq<Message>
    var details: Option<Json>
    var isLoading: bool
    var error: Option<string>

    constructor ()
      ensures messages == [] && details == None && isLoading && error == None
    {
      messages := [];
      details := None;
      isLoading := true;
      error := None;
    }

    /** The effect: nothing happens without a conversation id or a client; otherwise the
        conversation, then its messages, are fetched. `Err` is a thrown value. */
    method FetchConversationData(conversationId: string, hasClient: bool,
      getConversation: Result<Json, Option<string>>, listMessages: Result<seq<Message>, Option<string>>)
      modifies this
      ensures !(conversationId != "" && hasClient) ==>
        messages == old(messages) && details == old(details) && isLoading == old(isLoading) && error == old(error)
      ensures conversationId != "" && hasClient ==> !isLoading
      ensures conversationId != "" && hasClient && getConversation.Err? ==>
        error == Some(ErrorText(getConversation.error)) && messages == old(messages) && details == old(details)
      ensures conversationId != "" && hasClient && getConversation.Ok? && listMessages.Err? ==>
        error == Some(ErrorText(listMessages.error)) && messages == old(messages) && details == old(details)
      ensures conversationId != "" && hasClient && getConversation.Ok? && listMessages.Ok? ==>
        error == old(error) && details == Some(getConversation.value) &&
        messages == InCreationOrder(listMessages.value)
    {
      if conversationId == "" || !hasClient {
        return;
      }
      isLoading := true;
      if getConversation.Err? {
        error := Some(ErrorText(getConversation.error));
      } else if listMessages.Err? {
        error := Some(ErrorText(listMessages.error));
      } else {
        details := Some(getConversation.value);
        messages := InCreationOrder(listMessages.value);
      }
      isLoading := false;
    }
  }
}
