/** The integration settings page, src/app/integration/page.tsx: the user's projects fetched
    by username and de-duplicated by bot id. */
module Integration {
  import opened Wrappers
  import opened Seqs

  /** A project as the page's query projects it; `botpress` is `None` when the field is `null`,
      and `botId` is `None` when it is `null`. */
  datatype Project = Project(name: Option<string>, botpress: Option<BotpressFields>)

  datatype BotpressFields = BotpressFields(botId: Option<string>)

  /** `p.botpress.botId`, for projects that have a botpress object. */
  function BotIds(ps: seq<Project>): (ks: seq<Option<string>>)
    requires forall k :: 0 <= k < |ps| ==> ps[k].botpress.Some?
    ensures |ks| == |ps| && forall k :: 0 <= k < |ps| ==> ks[k] == ps[k].botpress.value.botId
  {
    seq(|ps|, k requires 0 <= k < |ps| => ps[k].botpress.value.botId)
  }

  /** `self.findIndex(p => p.botpress.botId === key)` for a key that occurs. */
  function FirstIndex<K(==)>(s: seq<K>, key: K): (i: nat)
    requires key in s
    ensures i < |s| && s[i] == key
    ensures forall j :: 0 <= j < i ==> s[j] != key
  {
    if s[0] == key then 0 else 1 + FirstIndex(s[1..], key)
  }

  predicate AllHaveBotpress(ps: seq<Project>) {
    forall k :: 0 <= k < |ps| ==> ps[k].botpress.Some?
  }

  /** Position `i` holds the first project with its bot id. */
  predicate IsFirst(ps: seq<Project>, i: nat)
    requires AllHaveBotpress(ps) && i < |ps|
  {
    FirstIndex(BotIds(ps), BotIds(ps)[i]) == i
  }

  /** The filter of lines 59-61, from position `i` on. */
  function DedupeFrom(ps: seq<Project>, i: nat): seq<Project>
    requires AllHaveBotpress(ps) && i <= |ps|
    decreases |ps| - i
  {
    if i == |ps| then []
    else (if IsFirst(ps, i) then [ps[i]] else []) + DedupeFrom(ps, i + 1)
  }

  /** `projects.filter((project, index, self) => index === self.findIndex(...))`. */
  function Dedupe(ps: seq<Project>): seq<Project>
    requires AllHaveBotpress(ps)
  {
    DedupeFrom(ps, 0)
  }

  /** Every project kept from position `i` on is a first occurrence at or after `i`. */
  lemma {:induction false} DedupeFromMembers(ps: seq<Project>, i: nat, x: Project)
    requires AllHaveBotpress(ps) && i <= |ps|
    requires x in DedupeFrom(ps, i)
    ensures exists j :: i <= j < |ps| && ps[j] == x && IsFirst(ps, j)
    decreases |ps| - i
  {
    if !(IsFirst(ps, i) && x == ps[i]) {
      DedupeFromMembers(ps, i + 1, x);
    }
  }

  /** Every first occurrence at or after `i` is kept. */
  lemma {:induction false} DedupeFromKeeps(ps: seq<Project>, i: nat, j: nat)
    requires AllHaveBotpress(ps) && i <= j < |ps| && IsFirst(ps, j)
    ensures ps[j] in DedupeFrom(ps, i)
    decreases |ps| - i
  {
    if i < j {
      DedupeFromKeeps(ps, i + 1, j);
    }
  }

  /** The bot id of a project with a botpress object. */
  function KeyOf(p: Project): Option<string> {
    if p.botpress.Some? then p.botpress.value.botId else None
  }

  /** A first occurrence's bot id is not kept again after it. */
  lemma {:induction false} FirstNotRepeated(ps: seq<Project>, i: nat, m: nat)
    requires AllHaveBotpress(ps) && i < m <= |ps| && IsFirst(ps, i)
    ensures forall x :: x in DedupeFrom(ps, m) ==> KeyOf(x) != KeyOf(ps[i])
    decreases |ps| - m
  {
    if m < |ps| {
      FirstNotRepeated(ps, i, m + 1);
      var keys := BotIds(ps);
      if IsFirst(ps, m) {
        assert KeyOf(ps[m]) == keys[m] && KeyOf(ps[i]) == keys[i];
      }
    }
  }

  /** No two projects of `r` share a bot id. */
  predicate DistinctKeys(r: seq<Project>) {
    forall a, b :: 0 <= a < b < |r| ==> KeyOf(r[a]) != KeyOf(r[b])
  }

  /** A project whose bot id no project of `rest` has, put in front of distinct ones. */
  lemma DistinctKeysCons(p: Project, rest: seq<Project>)
    requires DistinctKeys(rest)
    requires forall x :: x in rest ==> KeyOf(x) != KeyOf(p)
    ensures DistinctKeys([p] + rest)
  {
    var r := [p] + rest;
    forall a, b | 0 <= a < b < |r|
      ensures KeyOf(r[a]) != KeyOf(r[b])
    {
      assert r[b] == rest[b - 1];
      if a > 0 {
        assert r[a] == rest[a - 1];
      } else {
        assert rest[b - 1] in rest;
      }
    }
  }

  /** One step of the filter: the project at `i` is kept in front of the rest iff it is a first
      occurrence. */
  lemma DedupeFromStep(ps: seq<Project>, i: nat)
    requires AllHaveBotpress(ps) && i < |ps|
    ensures IsFirst(ps, i) ==> DedupeFrom(ps, i) == [ps[i]] + DedupeFrom(ps, i + 1)
    ensures !IsFirst(ps, i) ==> DedupeFrom(ps, i) == DedupeFrom(ps, i + 1)
  {
  }

  /** A first occurrence put in front of distinct kept projects keeps them distinct. */
  lemma DistinctFirstStep(ps: seq<Project>, i: nat)
    requires AllHaveBotpress(ps) && i < |ps| && IsFirst(ps, i)
    requires DistinctKeys(DedupeFrom(ps, i + 1))
    ensures DistinctKeys(DedupeFrom(ps, i))
  {
    FirstNotRepeated(ps, i, i + 1);
    DistinctKeysCons(ps[i], DedupeFrom(ps, i + 1));
    DedupeFromStep(ps, i);
  }

  /** Keeping or dropping the project at `i` leaves the kept projects distinct. */
  lemma DistinctStep(ps: seq<Project>, i: nat)
    requires AllHaveBotpress(ps) && i < |ps|
    requires DistinctKeys(DedupeFrom(ps, i + 1))
    ensures DistinctKeys(DedupeFrom(ps, i))
  {
    if IsFirst(ps, i) {
      DistinctFirstStep(ps, i);
    } else {
      DedupeFromStep(ps, i);
    }
  }

  /** No two projects kept from position `i` on share a bot id. */
  lemma {:induction false} DedupeFromDistinct(ps: seq<Project>, i: nat)
    requires AllHaveBotpress(ps) && i <= |ps|
    ensures DistinctKeys(DedupeFrom(ps, i))
    decreases |ps| - i
  {
    if i < |ps| {
      DedupeFromDistinct(ps, i + 1);
      DistinctStep(ps, i);
    }
  }

  lemma {:induction false} DedupeFromSubsequence(ps: seq<Project>, i: nat)
    requires AllHaveBotpress(ps) && i <= |ps|
    ensures IsSubsequence(DedupeFrom(ps, i), ps[i..])
    decreases |ps| - i
  {
    if i < |ps| {
      DedupeFromSubsequence(ps, i + 1);
      assert ps[i..][1..] == ps[i + 1..];
      var rest := DedupeFrom(ps, i + 1);
      if IsFirst(ps, i) {
        assert DedupeFrom(ps, i) == [ps[i]] + rest;
        assert ([ps[i]] + rest)[1..] == rest;
      } else {
        assert DedupeFrom(ps, i) == rest;
      }
    }
  }

  /** With distinct bot ids every position holds the first project with its bot id. */
  lemma DistinctIsFirst(ps: seq<Project>, i: nat)
    requires AllHaveBotpress(ps) && i < |ps| && DistinctKeys(ps)
    ensures IsFirst(ps, i)
  {
    var keys := BotIds(ps);
    assert forall j :: 0 <= j < i ==> keys[j] != keys[i] by {
      forall j | 0 <= j < i
        ensures keys[j] != keys[i]
      {
        assert KeyOf(ps[j]) != KeyOf(ps[i]);
      }
    }
  }

  /** With distinct bot ids every position is a first occurrence, so nothing is dropped. */
  lemma {:induction false} DedupeFromDistinctKeeps(ps: seq<Project>, i: nat)
    requires AllHaveBotpress(ps) && i <= |ps|
    requires DistinctKeys(ps)
    ensures DedupeFrom(ps, i) == ps[i..]
    decreases |ps| - i
  {
    if i < |ps| {
      DedupeFromDistinctKeeps(ps, i + 1);
      DistinctIsFirst(ps, i);
      DedupeFromStep(ps, i);
      assert ps[i..] == [ps[i]] + ps[i + 1..];
    }
  }

  /** The de-duplication keeps the first project of every bot id and only those: the result is
      an order-preserving subsequence, its bot ids are distinct, every bot id of the input is
      in it, and de-duplicating again changes nothing. */
  lemma DedupeProperties(ps: seq<Project>)
    requires AllHaveBotpress(ps)
    ensures var r := Dedupe(ps);
      IsSubsequence(r, ps) &&
      AllHaveBotpress(r) &&
      DistinctKeys(r) &&
      (forall j :: 0 <= j < |ps| ==> exists k :: 0 <= k < |r| && KeyOf(r[k]) == KeyOf(ps[j])) &&
      Dedupe(r) == r
  {
    var r := Dedupe(ps);
    DedupeFromSubsequence(ps, 0);
    assert ps[0..] == ps;
    DedupeFromDistinct(ps, 0);
    forall k | 0 <= k < |r|
      ensures r[k].botpress.Some?
    {
      DedupeFromMembers(ps, 0, r[k]);
    }
    var keys := BotIds(ps);
    forall j | 0 <= j < |ps|
      ensures exists k :: 0 <= k < |r| && KeyOf(r[k]) == KeyOf(ps[j])
    {
      var f := FirstIndex(keys, keys[j]);
      assert IsFirst(ps, f);
      DedupeFromKeeps(ps, 0, f);
      var k :| 0 <= k < |r| && r[k] == ps[f];
    }
    DedupeFromDistinctKeeps(r, 0);
    assert r[0..] == r;
  }

  /** A kept project is exactly one that is the first with its bot id. */
  lemma KeptIffFirst(ps: seq<Project>, i: nat)
    requires AllHaveBotpress(ps) && i < |ps|
    ensures IsFirst(ps, i) ==> ps[i] in Dedupe(ps)
    ensures (forall j :: 0 <= j < |ps| && ps[j] == ps[i] ==> !IsFirst(ps, j)) ==> ps[i] !in Dedupe(ps)
  {
    if IsFirst(ps, i) {
      DedupeFromKeeps(ps, 0, i);
    }
    if ps[i] in Dedupe(ps) {
      DedupeFromMembers(ps, 0, ps[i]);
    }
  }

  const NoProjectData := "Keine Projektdaten gefunden."
  const LoadFailed := "Fehler beim Laden der Projektdaten."

  /** The page's state. */
  class IntegrationPage {
    var username: Option<string>
    var projects: seq<Project>
    var error: Option<string>

    constructor ()
      ensures username == None && projects == [] && error == None
    {
      username := None;
      projects := [];
      error := None;
    }

    /** `fetchUser`: the username of a successful `/api/user` answer; otherwise nothing. */
    method FetchUser(answer: Option<Option<string>>)
      modifies this
      ensures answer.Some? ==> username == answer.value
      ensures answer.None? ==> username == old(username)
      ensures projects == old(projects) && error == old(error)
    {
      if answer.Some? {
        username := answer.value;
      }
    }

    /** `fetchProjects`, run once a username is set. `query` is the content lake's answer as the
        `projects` field of each matching user (`None` when absent), or an error; reading
        `p.botpress.botId` from a project whose `botpress` is `null` throws. */
    method FetchProjects(query: Result<seq<Option<seq<Project>>>, string>)
      modifies this
      ensures username == old(username)
      ensures !(username.Some? && username.value != "") ==> projects == old(projects) && error == old(error)
      ensures username.Some? && username.value != "" ==>
        (query.Err? ==> error == Some(LoadFailed) && projects == old(projects)) &&
        (query.Ok? && |query.value| == 0 ==> error == Some(NoProjectData) && projects == old(projects)) &&
        (query.Ok? && |query.value| > 0 && query.value[0].None? ==> projects == [] && error == old(error)) &&
        (query.Ok? && |query.value| > 0 && query.value[0].Some? ==>
          if AllHaveBotpress(query.value[0].value)
          then projects == Dedupe(query.value[0].value) && error == old(error)
          else error == Some(LoadFailed) && projects == old(projects))
    {
      if username.None? || username.value == "" {
        return;
      }
      if query.Err? {
        error := Some(LoadFailed);
      } else if |query.value| == 0 {
        error := Some(NoProjectData);
      } else if query.value[0].None? {
        projects := [];
      } else if !AllHaveBotpress(query.value[0].value) {
        error := Some(LoadFailed);
      } else {
        projects := Dedupe(query.value[0].value);
      }
    }
  }
}
