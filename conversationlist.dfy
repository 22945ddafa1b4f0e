/** The conversation list of src/components/conversation-management/ConversationsList.tsx: the
    thirty-day filter, the first ten, the id search, the pagination rules and the relative date. */
module ConversationList {
  import opened Wrappers
  import opened Strings
  import opened Seqs

  /** A conversation as the list reads it; `updatedAt` is a time in milliseconds. */
  datatype Conversation = Conversation(id: string, updatedAt: int)

  const ItemsPerPage := 10
  const MsPerDay := 1000 * 60 * 60 * 24
  const LoadError := "Fehler beim Laden der Konversationen"

  /** `Math.ceil(n / k)`. */
  function CeilDiv(n: nat, k: nat): (q: nat)
    requires k > 0
    ensures n == 0 ==> q == 0
    ensures n > 0 ==> (q - 1) * k < n <= q * k
  {
    (n + k - 1) / k
  }

  function UpdatedAt(c: Conversation): int { c.updatedAt }

  /** What is stored: `filteredConversations.slice(0, 10)`. */
  function FirstPage(fetched: seq<Conversation>, thirtyDaysAgo: int): (r: seq<Conversation>)
    ensures |r| <= ItemsPerPage && |r| <= |Since(fetched, UpdatedAt, thirtyDaysAgo)|
    ensures r == Since(fetched, UpdatedAt, thirtyDaysAgo)[..|r|]
    ensures |Since(fetched, UpdatedAt, thirtyDaysAgo)| >= ItemsPerPage ==> |r| == ItemsPerPage
  {
    Take(Since(fetched, UpdatedAt, thirtyDaysAgo), ItemsPerPage)
  }

  /** `conv.id.toLowerCase().includes(searchTerm.toLowerCase())`. */
  predicate Matches(c: Conversation, term: string) {
    Contains(ToLower(c.id), ToLower(term))
  }

  function MatchesTerm(term: string): Conversation -> bool {
    c => Matches(c, term)
  }

  /** The search of lines 100-102. */
  function Search(conversations: seq<Conversation>, term: string): (r: seq<Conversation>)
    ensures forall c :: c in r <==> c in conversations && Matches(c, term)
    ensures IsSubsequence(r, conversations)
    ensures |r| == Count(conversations, MatchesTerm(term))
  {
    Filter(conversations, MatchesTerm(term))
  }

  /** An empty term keeps every conversation. */
  lemma EmptySearchKeepsAll(conversations: seq<Conversation>)
    ensures Search(conversations, "") == conversations
  {
    forall c | c in conversations
      ensures Matches(c, "")
    {
      EmptyIsContained(ToLower(c.id));
    }
    FilterAll(conversations, MatchesTerm(""));
  }

  /** The term's case does not matter. */
  lemma SearchIgnoresCase(conversations: seq<Conversation>, term: string)
    ensures Search(conversations, ToLower(term)) == Search(conversations, term)
  {
    ToLowerIdempotent(term);
    FilterSame(conversations, MatchesTerm(ToLower(term)), MatchesTerm(term));
  }

  /** The rows shown: `filteredConversations.slice(0, 10)` of the search result. */
  function Rows(conversations: seq<Conversation>, term: string): (r: seq<Conversation>)
    ensures |r| == if |Search(conversations, term)| < ItemsPerPage then |Search(conversations, term)| else ItemsPerPage
    ensures r == Search(conversations, term)[..|r|]
    ensures forall c :: c in r ==> c in conversations && Matches(c, term)
  {
    Take(Search(conversations, term), ItemsPerPage)
  }

  /** `Math.ceil(totalConversations / itemsPerPage)`. */
  function PageCount(total: nat): (p: nat)
    ensures total == 0 ==> p == 0
    ensures total > 0 ==> (p - 1) * ItemsPerPage < total <= p * ItemsPerPage
  {
    CeilDiv(total, ItemsPerPage)
  }

  /** `disabled={currentPage === 1}`. */
  predicate PrevDisabled(currentPage: int) {
    currentPage == 1
  }

  /** `disabled={currentPage >= Math.ceil(totalConversations / itemsPerPage)}`. */
  predicate NextDisabled(currentPage: int, total: nat) {
    currentPage >= PageCount(total)
  }

  /** Next is enabled on a page only when some conversations lie beyond it, and ten or fewer
      conversations keep it disabled on every page from the first on. */
  lemma NextRule(currentPage: int, total: nat)
    requires currentPage >= 1
    ensures !NextDisabled(currentPage, total) ==> total > currentPage * ItemsPerPage
    ensures total <= ItemsPerPage ==> NextDisabled(currentPage, total)
  {
    var p := PageCount(total);
    if !NextDisabled(currentPage, total) {
      assert currentPage + 1 <= p;
      assert currentPage * ItemsPerPage <= (p - 1) * ItemsPerPage;
    }
  }

  /** As written, paging never reaches past the first ten: the request carries the same
      (never set) `nextToken` on every page, so `FetchConversations` stores the same first page
      whatever `currentPage` is. With more than ten recent conversations `Weiter` is enabled on
      page one, yet a recent conversation after the tenth that differs from the first ten is
      shown on no page. */
  lemma PagingAsWrittenHidesTheRest(fetched: seq<Conversation>, thirtyDaysAgo: int, k: int)
    requires ItemsPerPage <= k < |Since(fetched, UpdatedAt, thirtyDaysAgo)|
    requires forall j :: 0 <= j < ItemsPerPage ==> Since(fetched, UpdatedAt, thirtyDaysAgo)[j] != Since(fetched, UpdatedAt, thirtyDaysAgo)[k]
    ensures !NextDisabled(1, |Since(fetched, UpdatedAt, thirtyDaysAgo)|)
    ensures Since(fetched, UpdatedAt, thirtyDaysAgo)[k] !in FirstPage(fetched, thirtyDaysAgo)
  {
    var recent := Since(fetched, UpdatedAt, thirtyDaysAgo);
    var first := FirstPage(fetched, thirtyDaysAgo);
    var p := PageCount(|recent|);
    assert p * ItemsPerPage > ItemsPerPage;
    forall j | 0 <= j < |first|
      ensures first[j] != recent[k]
    {
      assert first[j] == recent[j];
    }
  }

  /** The paging evidently intended: page `page` shows the recent conversations from position
      `(page - 1) * 10` on, at most ten of them. */
  function PageRows(recent: seq<Conversation>, page: int): (r: seq<Conversation>)
    requires page >= 1
    ensures |r| <= ItemsPerPage
    ensures (page - 1) * ItemsPerPage >= |recent| ==> r == []
    ensures (page - 1) * ItemsPerPage < |recent| ==>
      (page - 1) * ItemsPerPage + |r| <= |recent| && r == recent[(page - 1) * ItemsPerPage..(page - 1) * ItemsPerPage + |r|]
  {
    var start := (page - 1) * ItemsPerPage;
    if start >= |recent| then []
    else if start + ItemsPerPage <= |recent| then recent[start..start + ItemsPerPage]
    else recent[start..]
  }

  /** With the intended paging every recent conversation is shown: conversation `i` is row
      `i % 10` of page `i / 10 + 1`, a page the pager reaches. */
  lemma {:induction false} EveryRecentConversationHasItsPage(recent: seq<Conversation>, i: int)
    requires 0 <= i < |recent|
    ensures var p := i / ItemsPerPage + 1;
      && 1 <= p <= PageCount(|recent|)
      && i % ItemsPerPage < |PageRows(recent, p)|
      && PageRows(recent, p)[i % ItemsPerPage] == recent[i]
  {
    var p := i / ItemsPerPage + 1;
    var start := (p - 1) * ItemsPerPage;
    assert start == i - i % ItemsPerPage;
    PageOfIndex(|recent|, i);
    if start + ItemsPerPage <= |recent| {
      assert PageRows(recent, p) == recent[start..start + ItemsPerPage];
    } else {
      assert PageRows(recent, p) == recent[start..];
    }
  }

  /** The page holding position `i` is one of the `PageCount(total)` pages. */
  lemma PageOfIndex(total: nat, i: int)
    requires 0 <= i < total
    ensures i / ItemsPerPage + 1 <= PageCount(total)
  {
    var n := PageCount(total);
    assert i < n * ItemsPerPage;
  }

  /** The intended first page is the page the component shows as written. */
  lemma FirstPageAgrees(fetched: seq<Conversation>, thirtyDaysAgo: int)
    ensures PageRows(Since(fetched, UpdatedAt, thirtyDaysAgo), 1) == FirstPage(fetched, thirtyDaysAgo)
  {
  }

  /** `Math.ceil(Math.abs(now - date) / (1000 * 60 * 60 * 24))`. */
  function DaysAgo(now: int, date: int): (d: nat)
    ensures now == date ==> d == 0
    ensures now != date ==> (d - 1) * MsPerDay < Abs(now - date) <= d * MsPerDay
  {
    CeilDiv(Abs(now - date), MsPerDay)
  }

  function Abs(x: int): nat {
    if x < 0 then -x else x
  }

  /** `formatDate`: `vor ${diffDays} Tagen`. The text starts with "vor ", ends with " Tagen",
      and what lies between reads back as the number of days. */
  function FormatDate(now: int, date: int): (r: string)
    ensures |r| > 10 && r[..4] == "vor " && r[|r| - 6..] == " Tagen"
    ensures ParseInt(r[4..|r| - 6]) == Some(DaysAgo(now, date) as int)
  {
    DaysText(DaysAgo(now, date));
    "vor " + NatToString(DaysAgo(now, date)) + " Tagen"
  }

  /** The number of days sits between the fixed words and reads back as itself. */
  lemma DaysText(n: nat)
    ensures var r := "vor " + NatToString(n) + " Tagen";
      |r| > 10 && r[..4] == "vor " && r[|r| - 6..] == " Tagen" && ParseInt(r[4..|r| - 6]) == Some(n as int)
  {
    Around("vor ", NatToString(n), " Tagen");
    DaysReadBack(n);
  }

  lemma DaysReadBack(n: nat)
    ensures ParseInt(NatToString(n)) == Some(n as int)
  {
    DigitsValueOfNatToString(n);
    ParseIntOfDigits(NatToString(n));
  }

  /** The three parts of `a + m + z` can be read back. */
  lemma Around(a: string, m: string, z: string)
    ensures var s := a + m + z; |s| == |a| + |m| + |z| && s[..|a|] == a && s[|s| - |z|..] == z && s[|a|..|s| - |z|] == m
  {
  }

  /** The request of lines 45-52. */
  datatype Params = Params(sortField: string, sortDirection: string, nextToken: Option<string>)

  /** `params`, with the token only when it is truthy. */
  function RequestFor(nextToken: Option<string>): (p: Params)
    ensures p.sortField == "updatedAt" && p.sortDirection == "desc"
    ensures p.nextToken.Some? <==> TruthyOpt(nextToken)
    ensures p.nextToken.Some? ==> p.nextToken == nextToken
  {
    Params("updatedAt", "desc", if TruthyOpt(nextToken) then nextToken else None)
  }

  /** The request of lines 68-71, for the total. */
  const TotalRequest := Params("updatedAt", "desc", None)

  /** The component's state. `nextToken` is never set, so it stays `None`. */
  class ConversationsPanel {
    var conversations: seq<Conversation>
    var isLoading: bool
    var searchTerm: string
    var error: Option<string>
    var currentPage: int
    var totalConversations: nat
    var nextToken: Option<string>

    constructor ()
      ensures conversations == [] && isLoading && searchTerm == "" && error == None
      ensures currentPage == 1 && totalConversations == 0 && nextToken == None
    {
      conversations := [];
      isLoading := true;
      searchTerm := "";
      error := None;
      currentPage := 1;
      totalConversations := 0;
      nextToken := None;
    }

    /** `fetchConversations`; `list` is what the client answers a request with. The rows are
        stored before the total is requested, so a failing second request keeps them. */
    method FetchConversations(thirtyDaysAgo: int, list: Params -> Result<seq<Conversation>, string>)
      modifies this
      ensures !isLoading
      ensures searchTerm == old(searchTerm) && currentPage == old(currentPage) && nextToken == old(nextToken)
      ensures list(RequestFor(nextToken)).Err? ==>
        error == Some(LoadError) && conversations == old(conversations) && totalConversations == old(totalConversations)
      ensures list(RequestFor(nextToken)).Ok? ==>
        conversations == FirstPage(list(RequestFor(nextToken)).value, thirtyDaysAgo)
      ensures list(RequestFor(nextToken)).Ok? && list(TotalRequest).Err? ==>
        error == Some(LoadError) && totalConversations == old(totalConversations)
      ensures list(RequestFor(nextToken)).Ok? && list(TotalRequest).Ok? ==>
        error == None && totalConversations == |Since(list(TotalRequest).value, UpdatedAt, thirtyDaysAgo)|
      ensures nextToken == None && list(TotalRequest).Ok? ==>
        |conversations| <= totalConversations &&
        conversations == Since(list(TotalRequest).value, UpdatedAt, thirtyDaysAgo)[..|conversations|]
    {
      isLoading := true;
      var paged := list(RequestFor(nextToken));
      if paged.Err? {
        error := Some(LoadError);
      } else {
        conversations := FirstPage(paged.value, thirtyDaysAgo);
        var all := list(TotalRequest);
        if all.Err? {
          error := Some(LoadError);
        } else {
          totalConversations := |Since(all.value, UpdatedAt, thirtyDaysAgo)|;
          error := None;
        }
      }
      isLoading := false;
    }

    /** `handlePageChange`: only the page number changes; the effect it triggers asks for the same
        request again. */
    method HandlePageChange(newPage: int)
      modifies this
      ensures currentPage == newPage
      ensures conversations == old(conversations) && totalConversations == old(totalConversations)
      ensures nextToken == old(nextToken) && searchTerm == old(searchTerm)
      ensures error == old(error) && isLoading == old(isLoading)
    {
      currentPage := newPage;
    }

    /** The search input's `onChange`. */
    method SetSearchTerm(term: string)
      modifies this
      ensures searchTerm == term
      ensures conversations == old(conversations) && totalConversations == old(totalConversations)
      ensures nextToken == old(nextToken) && currentPage == old(currentPage)
      ensures error == old(error) && isLoading == old(isLoading)
    {
      searchTerm := term;
    }
  }
}
