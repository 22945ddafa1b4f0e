/** The conversation list of src/components/bpComponents/ConversationsList.tsx: the
    conversations of the last thirty days, newest first, the ten newest kept, searched by id. */
module BpConversationList {
  import opened Wrappers
  import opened Seqs
  import opened ConversationList

  /** The comparator `new Date(b.updatedAt) - new Date(a.updatedAt)` is negative. */
  predicate Newer(a: Conversation, b: Conversation) {
    b.updatedAt - a.updatedAt < 0
  }

  function NegatedUpdate(c: Conversation): int { -c.updatedAt }

  /** `.sort(...)`: a permutation, newest first. */
  function NewestFirst(conversations: seq<Conversation>): (r: seq<Conversation>)
    ensures multiset(r) == multiset(conversations)
    ensures forall i, j :: 0 <= i < j < |r| ==> r[i].updatedAt >= r[j].updatedAt
  {
    SortWithSorted(conversations, Newer, NegatedUpdate);
    var r := SortWith(conversations, Newer);
    assert forall i, j :: 0 <= i < j < |r| ==> NegatedUpdate(r[i]) <= NegatedUpdate(r[j]);
    r
  }

  /** The sort is stable: conversations updated at the same time (the same `-updatedAt`, `k`)
      keep the order the server listed them in. */
  lemma NewestFirstStable(conversations: seq<Conversation>, k: int)
    ensures OfKey(NewestFirst(conversations), NegatedUpdate, k) == OfKey(conversations, NegatedUpdate, k)
  {
    NewestFirstIsTheSort(conversations);
    SortByNewerStable(conversations, k);
  }

  lemma SortByNewerStable(conversations: seq<Conversation>, k: int)
    ensures OfKey(SortWith(conversations, Newer), NegatedUpdate, k) == OfKey(conversations, NegatedUpdate, k)
  {
    NewerIsKeyOrder(conversations);
    SortWithStable(conversations, Newer, NegatedUpdate, k);
  }

  lemma NewestFirstIsTheSort(conversations: seq<Conversation>)
    ensures NewestFirst(conversations) == SortWith(conversations, Newer)
  {
  }

  lemma NewerIsKeyOrder(conversations: seq<Conversation>)
    ensures LtIsKeyOrder(conversations, Newer, NegatedUpdate)
  {
    forall a, b | a in conversations && b in conversations
      ensures Newer(a, b) <==> NegatedUpdate(a) < NegatedUpdate(b)
    {
    }
  }

  /** `.slice(0, 10)` of the sorted conversations. */
  function Newest(conversations: seq<Conversation>): (r: seq<Conversation>)
    ensures |r| == if |conversations| < ItemsPerPage then |conversations| else ItemsPerPage
    ensures r == NewestFirst(conversations)[..|r|]
  {
    Take(NewestFirst(conversations), ItemsPerPage)
  }

  /** The ten kept are newest first, come from the fetched ones, and none left out is newer than
      any kept. */
  lemma NewestAreKept(conversations: seq<Conversation>)
    ensures var r := Newest(conversations);
      (forall i, j :: 0 <= i < j < |r| ==> r[i].updatedAt >= r[j].updatedAt) &&
      (forall c :: c in r ==> c in conversations) &&
      (forall c, k :: c in conversations && c !in r && 0 <= k < |r| ==> r[k].updatedAt >= c.updatedAt)
  {
    var s := NewestFirst(conversations);
    var r := Newest(conversations);
    forall c | c in r
      ensures c in conversations
    {
      assert c in multiset(s);
    }
    forall c, k | c in conversations && c !in r && 0 <= k < |r|
      ensures r[k].updatedAt >= c.updatedAt
    {
      assert c in multiset(s);
      LeftOutIsOlder(s, |r|, c, k);
    }
  }

  /** In a list sorted newest first, an element outside a prefix is no newer than any in it. */
  lemma LeftOutIsOlder(s: seq<Conversation>, n: nat, c: Conversation, k: nat)
    requires n <= |s| && k < n
    requires forall i, j :: 0 <= i < j < |s| ==> s[i].updatedAt >= s[j].updatedAt
    requires c in s && c !in s[..n]
    ensures s[k].updatedAt >= c.updatedAt
  {
    var j :| 0 <= j < |s| && s[j] == c;
    assert j >= n;
  }

  /** The table body: a spinner while loading, the empty message, or the rows. */
  datatype Body = Spinner | NothingFound(text: string) | Rows(rows: seq<Conversation>)

  const NothingFoundText := "Keine Konversationen gefunden"

  function TableBody(isLoading: bool, conversations: seq<Conversation>, term: string): (b: Body)
    ensures isLoading <==> b.Spinner?
    ensures b.NothingFound? <==> !isLoading && Search(conversations, term) == []
    ensures b.NothingFound? ==> b.text == NothingFoundText
    ensures b.Rows? ==> b.rows == Search(conversations, term) && b.rows != []
  {
    var found := Search(conversations, term);
    if isLoading then Spinner
    else if |found| == 0 then NothingFound(NothingFoundText)
    else Rows(found)
  }

  /** The component's state. */
  class BpConversationsPanel {
    var conversations: seq<Conversation>
    var isLoading: bool
    var searchTerm: string
    var error: Option<string>

    constructor ()
      ensures conversations == [] && isLoading && searchTerm == "" && error == None
    {
      conversations := [];
      isLoading := true;
      searchTerm := "";
      error := None;
    }

    /** `fetchConversations`; `fetched` is what listing the last thirty days gave. */
    method FetchConversations(fetched: Result<seq<Conversation>, string>)
      modifies this
      ensures !isLoading && searchTerm == old(searchTerm)
      ensures fetched.Err? ==> error == Some(LoadError) && conversations == old(conversations)
      ensures fetched.Ok? ==> error == None && conversations == Newest(fetched.value)
    {
      isLoading := true;
      if fetched.Err? {
        error := Some(LoadError);
      } else {
        conversations := Newest(fetched.value);
        error := None;
      }
      isLoading := false;
    }
  }
}
