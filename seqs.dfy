/** The array operations the portal uses — `filter`, counting, `reduce` into a sum,
    `slice(0, n)`, `slice(-n)`, `flat()` and a comparator `sort` — over Dafny sequences. */
module Seqs {

  /** `r` is an order-preserving subsequence of `s`. */
  predicate IsSubsequence<T(==)>(r: seq<T>, s: seq<T>)
    decreases |s|
  {
    r == [] ||
    (s != [] && ((r[0] == s[0] && IsSubsequence(r[1..], s[1..])) || IsSubsequence(r, s[1..])))
  }

  predicate Distinct<T(==)>(s: seq<T>) {
    forall i, j :: 0 <= i < j < |s| ==> s[i] != s[j]
  }

  /** `s.filter(p)`: the elements satisfying `p`, in their original order. */
  function Filter<T(==,!new)>(s: seq<T>, p: T -> bool): (r: seq<T>)
    ensures |r| <= |s|
    ensures forall x :: x in r <==> x in s && p(x)
    ensures IsSubsequence(r, s)
    ensures |r| == Count(s, p)
  {
    if s == [] then []
    else if p(s[0]) then [s[0]] + Filter(s[1..], p)
    else Filter(s[1..], p)
  }

  /** A predicate that holds throughout keeps everything. */
  lemma {:induction false} FilterAll<T(!new)>(s: seq<T>, p: T -> bool)
    requires forall x :: x in s ==> p(x)
    ensures Filter(s, p) == s
  {
    if s != [] {
      assert forall x :: x in s[1..] ==> x in s;
      FilterAll(s[1..], p);
    }
  }

  /** Predicates that agree on the elements filter alike. */
  lemma {:induction false} FilterSame<T(!new)>(s: seq<T>, p: T -> bool, q: T -> bool)
    requires forall x :: x in s ==> p(x) == q(x)
    ensures Filter(s, p) == Filter(s, q)
  {
    if s != [] {
      assert forall x :: x in s[1..] ==> x in s;
      FilterSame(s[1..], p, q);
    }
  }

  /** `s.filter(p).length`. */
  function Count<T(==,!new)>(s: seq<T>, p: T -> bool): nat
  {
    if s == [] then 0 else (if p(s[0]) then 1 else 0) + Count(s[1..], p)
  }

  /** The filter's contract leaves no choice: a subsequence of `s` whose elements all satisfy
      `p` and which has `Count(s, p)` of them is the filtered sequence, so each element keeps
      its multiplicity and its order. */
  lemma {:induction false} FilterIsTheOnly<T(!new)>(s: seq<T>, p: T -> bool, r: seq<T>)
    requires IsSubsequence(r, s) && (forall x :: x in r ==> p(x)) && |r| == Count(s, p)
    ensures r == Filter(s, p)
  {
    if s == [] {
    } else if r == [] {
      FilterEmpty(s, p);
    } else if r[0] == s[0] && IsSubsequence(r[1..], s[1..]) {
      assert p(r[0]);
      FilterIsTheOnly(s[1..], p, r[1..]);
      assert r == [r[0]] + r[1..];
    } else {
      assert IsSubsequence(r, s[1..]);
      SubsequenceCount(r, s[1..], p);
      assert !p(s[0]);
      FilterIsTheOnly(s[1..], p, r);
    }
  }

  /** A subsequence whose elements all satisfy `p` has at most `Count(s, p)` elements. */
  lemma {:induction false} SubsequenceCount<T(!new)>(r: seq<T>, s: seq<T>, p: T -> bool)
    requires IsSubsequence(r, s) && forall x :: x in r ==> p(x)
    ensures |r| <= Count(s, p)
    decreases |s|
  {
    if r != [] {
      if r[0] == s[0] && IsSubsequence(r[1..], s[1..]) {
        assert p(r[0]);
        assert forall x :: x in r[1..] ==> x in r;
        SubsequenceCount(r[1..], s[1..], p);
      } else {
        SubsequenceCount(r, s[1..], p);
      }
    }
  }

  /** With no element satisfying `p`, the filter is empty. */
  lemma FilterEmpty<T(!new)>(s: seq<T>, p: T -> bool)
    requires Count(s, p) == 0
    ensures Filter(s, p) == []
  {
  }

  /** `x => time(x) >= cutoff`. */
  function AtOrAfter<T>(time: T -> int, cutoff: int): T -> bool {
    x => time(x) >= cutoff
  }

  /** The time filter `filter(x => new Date(x.updatedAt) >= cutoff)`: exactly the elements at
      or after the cutoff, in their order, with as many of them as `s` holds. */
  function Since<T(==,!new)>(s: seq<T>, time: T -> int, cutoff: int): (r: seq<T>)
    ensures forall x :: x in r <==> x in s && time(x) >= cutoff
    ensures IsSubsequence(r, s)
    ensures |r| == Count(s, AtOrAfter(time, cutoff))
  {
    Filter(s, AtOrAfter(time, cutoff))
  }

  /** Counting is the length of the filtered sequence. */
  lemma {:induction false} CountIsFilterLength<T(!new)>(s: seq<T>, p: T -> bool)
    ensures Count(s, p) == |Filter(s, p)|
  {
    if s != [] {
      CountIsFilterLength(s[1..], p);
    }
  }

  lemma {:induction false} CountAppend<T(!new)>(a: seq<T>, b: seq<T>, p: T -> bool)
    ensures Count(a + b, p) == Count(a, p) + Count(b, p)
  {
    if a != [] {
      assert (a + b)[1..] == a[1..] + b;
      CountAppend(a[1..], b, p);
    } else {
      assert a + b == b;
    }
  }

  /** Two predicates that never hold together count at most the whole sequence. */
  lemma {:induction false} CountDisjoint<T(!new)>(s: seq<T>, p: T -> bool, q: T -> bool)
    requires forall x :: x in s ==> !(p(x) && q(x))
    ensures Count(s, p) + Count(s, q) <= |s|
  {
    if s != [] {
      CountDisjoint(s[1..], p, q);
    }
  }

  /** Two predicates, one of which always holds and never both, split the sequence exactly. */
  lemma {:induction false} CountPartition<T(!new)>(s: seq<T>, p: T -> bool, q: T -> bool)
    requires forall x :: x in s ==> (p(x) <==> !q(x))
    ensures Count(s, p) + Count(s, q) == |s|
  {
    if s != [] {
      CountPartition(s[1..], p, q);
    }
  }

  /** `s.reduce((sum, x) => sum + f(x), 0)`. */
  function Sum<T>(s: seq<T>, f: T -> int): int
  {
    if s == [] then 0 else f(s[0]) + Sum(s[1..], f)
  }

  /** Summing a pointwise sum is summing each part. */
  lemma {:induction false} SumOfPointwiseSum<T>(s: seq<T>, f: T -> int, g: T -> int, h: T -> int)
    requires forall x :: x in s ==> h(x) == f(x) + g(x)
    ensures Sum(s, h) == Sum(s, f) + Sum(s, g)
  {
    if s != [] {
      SumOfPointwiseSum(s[1..], f, g, h);
    }
  }

  /** A sequence built element by element from another sums to the same total. */
  lemma {:induction false} SumOfImage<T, U>(s: seq<T>, t: seq<U>, f: T -> int, g: U -> int)
    requires |t| == |s|
    requires forall k :: 0 <= k < |s| ==> g(t[k]) == f(s[k])
    ensures Sum(t, g) == Sum(s, f)
  {
    if s != [] {
      assert g(t[0]) == f(s[0]);
      SumOfImage(s[1..], t[1..], f, g);
    }
  }

  /** `s.slice(0, n)`. */
  function Take<T>(s: seq<T>, n: nat): (r: seq<T>)
    ensures |r| == if n < |s| then n else |s|
    ensures r == s[..|r|]
  {
    if n < |s| then s[..n] else s
  }

  /** `s.slice(-n)` for a positive `n`: the last `min(n, |s|)` elements. */
  function LastN<T>(s: seq<T>, n: nat): (r: seq<T>)
    ensures |r| == if n < |s| then n else |s|
    ensures r == s[|s| - |r|..]
  {
    if n < |s| then s[|s| - n..] else s
  }

  /** `ss.flat()`. */
  function Flatten<T>(ss: seq<seq<T>>): seq<T>
  {
    if ss == [] then [] else ss[0] + Flatten(ss[1..])
  }

  lemma {:induction false} FlattenSnoc<T>(ss: seq<seq<T>>, last: seq<T>)
    ensures Flatten(ss + [last]) == Flatten(ss) + last
  {
    if ss != [] {
      assert (ss + [last])[1..] == ss[1..] + [last];
      FlattenSnoc(ss[1..], last);
    }
  }

  // ---------------------------------------------------------------------------
  // Array.prototype.sort with a comparator, which is stable since ECMAScript 2019

  /** Places `x` before the first element it must precede, i.e. after every element it
      does not compare below. */
  function Insert<T>(x: T, s: seq<T>, lt: (T, T) -> bool): (r: seq<T>)
    ensures |r| == |s| + 1
    ensures multiset(r) == multiset(s) + multiset{x}
  {
    if s == [] then [x]
    else if lt(x, s[0]) then [x] + s
    else
      assert s == [s[0]] + s[1..];
      [s[0]] + Insert(x, s[1..], lt)
  }

  /** Insertion sort in input order; `lt(a, b)` stands for the comparator being negative. */
  function SortWith<T>(s: seq<T>, lt: (T, T) -> bool): (r: seq<T>)
    ensures |r| == |s|
    ensures multiset(r) == multiset(s)
  {
    if s == [] then []
    else
      assert s == s[..|s| - 1] + [s[|s| - 1]];
      Insert(s[|s| - 1], SortWith(s[..|s| - 1], lt), lt)
  }

  ghost predicate SortedBy<T>(s: seq<T>, key: T -> int) {
    forall i, j :: 0 <= i < j < |s| ==> key(s[i]) <= key(s[j])
  }

  /** `lt` is "strictly smaller key" on the elements of `s`. */
  ghost predicate LtIsKeyOrder<T(!new)>(s: seq<T>, lt: (T, T) -> bool, key: T -> int) {
    forall a, b :: a in s && b in s ==> (lt(a, b) <==> key(a) < key(b))
  }

  lemma {:induction false} InsertSorted<T(!new)>(x: T, s: seq<T>, lt: (T, T) -> bool, key: T -> int)
    requires SortedBy(s, key)
    requires LtIsKeyOrder(s + [x], lt, key)
    ensures SortedBy(Insert(x, s, lt), key)
    ensures forall y :: y in Insert(x, s, lt) <==> y in s || y == x
  {
    var r := Insert(x, s, lt);
    assert forall y :: y in s + [x] <==> y in s || y == x;
    if s != [] && !lt(x, s[0]) {
      var t := s[1..];
      assert SortedBy(t, key);
      forall a, b | a in t + [x] && b in t + [x]
        ensures lt(a, b) <==> key(a) < key(b)
      {
        assert a in s + [x] && b in s + [x];
      }
      InsertSorted(x, t, lt, key);
      var u := Insert(x, t, lt);
      assert r == [s[0]] + u;
      assert key(s[0]) <= key(x) by {
        assert s[0] in s + [x] && x in s + [x];
      }
      forall j | 0 <= j < |u|
        ensures key(s[0]) <= key(u[j])
      {
        assert u[j] in t || u[j] == x;
      }
    } else if s != [] {
      assert key(x) < key(s[0]) by {
        assert s[0] in s + [x] && x in s + [x];
      }
    }
  }

  /** With a comparator that orders by a key, the sort yields a key-ordered permutation. */
  lemma {:induction false} SortWithSorted<T(!new)>(s: seq<T>, lt: (T, T) -> bool, key: T -> int)
    requires LtIsKeyOrder(s, lt, key)
    ensures SortedBy(SortWith(s, lt), key)
    ensures multiset(SortWith(s, lt)) == multiset(s)
  {
    if s != [] {
      LastInsertOrder(s, lt, key);
      SortWithSorted(s[..|s| - 1], lt, key);
      InsertSorted(s[|s| - 1], SortWith(s[..|s| - 1], lt), lt, key);
    }
  }

  /** What inserting the last element into the sorted rest needs. */
  lemma LastInsertOrder<T(!new)>(s: seq<T>, lt: (T, T) -> bool, key: T -> int)
    requires s != [] && LtIsKeyOrder(s, lt, key)
    ensures LtIsKeyOrder(s[..|s| - 1], lt, key)
    ensures LtIsKeyOrder(SortWith(s[..|s| - 1], lt) + [s[|s| - 1]], lt, key)
  {
    var init := s[..|s| - 1];
    var x := s[|s| - 1];
    assert s == init + [x];
    assert forall a :: a in init ==> a in s;
    var sorted := SortWith(init, lt);
    forall a, b | a in sorted + [x] && b in sorted + [x]
      ensures lt(a, b) <==> key(a) < key(b)
    {
      assert a in multiset(sorted) || a == x;
      assert b in multiset(sorted) || b == x;
      assert a in s && b in s;
    }
  }

  /** The elements of `s` whose key is `k`, in their order in `s`. */
  function OfKey<T>(s: seq<T>, key: T -> int, k: int): (r: seq<T>)
  {
    if s == [] then [] else (if key(s[0]) == k then [s[0]] else []) + OfKey(s[1..], key, k)
  }

  lemma {:induction false} OfKeyAppend<T>(a: seq<T>, b: seq<T>, key: T -> int, k: int)
    ensures OfKey(a + b, key, k) == OfKey(a, key, k) + OfKey(b, key, k)
  {
    if a == [] {
      assert a + b == b;
    } else {
      var ab := a + b;
      assert ab[0] == a[0] && ab[1..] == a[1..] + b;
      OfKeyAppend(a[1..], b, key, k);
      OfKeyCons(ab, key, k);
      OfKeyCons(a, key, k);
      Associative(OfKey([a[0]], key, k), OfKey(a[1..], key, k), OfKey(b, key, k));
    }
  }

  lemma Associative<T>(x: seq<T>, y: seq<T>, z: seq<T>)
    ensures x + (y + z) == (x + y) + z
  {
  }

  lemma OfKeyCons<T>(s: seq<T>, key: T -> int, k: int)
    requires s != []
    ensures OfKey(s, key, k) == OfKey([s[0]], key, k) + OfKey(s[1..], key, k)
  {
    var h := if key(s[0]) == k then [s[0]] else [];
    assert [s[0]][1..] == [];
    assert OfKey([s[0]], key, k) == h + OfKey([], key, k);
    assert h + [] == h;
  }

  lemma {:induction false} OfKeyAbsent<T>(s: seq<T>, key: T -> int, k: int)
    requires forall i :: 0 <= i < |s| ==> key(s[i]) != k
    ensures OfKey(s, key, k) == []
  {
    if s != [] {
      OfKeyAbsent(s[1..], key, k);
    }
  }

  /** Inserting into a key-ordered sequence puts `x` after every element of its own key. */
  lemma {:induction false} InsertStable<T(!new)>(x: T, s: seq<T>, lt: (T, T) -> bool, key: T -> int, k: int)
    requires SortedBy(s, key)
    requires LtIsKeyOrder(s + [x], lt, key)
    ensures OfKey(Insert(x, s, lt), key, k) == OfKey(s, key, k) + (if key(x) == k then [x] else [])
  {
    if s == [] {
      assert OfKey([x], key, k) == (if key(x) == k then [x] else []) + OfKey([], key, k);
    } else if lt(x, s[0]) {
      InsertInFront(x, s, lt, key, k);
    } else {
      SortedTail(x, s, lt, key);
      InsertStable(x, s[1..], lt, key, k);
      assert Insert(x, s, lt) == [s[0]] + Insert(x, s[1..], lt);
      OfKeyBehind(s, Insert(x, s[1..], lt), if key(x) == k then [x] else [], key, k);
    }
  }

  lemma SortedTail<T(!new)>(x: T, s: seq<T>, lt: (T, T) -> bool, key: T -> int)
    requires s != [] && SortedBy(s, key) && LtIsKeyOrder(s + [x], lt, key)
    ensures SortedBy(s[1..], key) && LtIsKeyOrder(s[1..] + [x], lt, key)
  {
    var t := s[1..];
    forall a, b | a in t + [x] && b in t + [x]
      ensures lt(a, b) <==> key(a) < key(b)
    {
      assert a in s + [x] && b in s + [x];
    }
  }

  /** An element placed in front of a sequence adds its own contribution in front. */
  lemma OfKeyBehind<T>(s: seq<T>, u: seq<T>, t: seq<T>, key: T -> int, k: int)
    requires s != []
    requires OfKey(u, key, k) == OfKey(s[1..], key, k) + t
    ensures OfKey([s[0]] + u, key, k) == OfKey(s, key, k) + t
  {
    var r := [s[0]] + u;
    assert r[0] == s[0] && r[1..] == u;
    OfKeyCons(r, key, k);
    OfKeyCons(s, key, k);
  }

  /** `x` goes in front when it compares below the first element, so nothing after it shares
      its key. */
  lemma InsertInFront<T(!new)>(x: T, s: seq<T>, lt: (T, T) -> bool, key: T -> int, k: int)
    requires s != [] && lt(x, s[0])
    requires SortedBy(s, key)
    requires LtIsKeyOrder(s + [x], lt, key)
    ensures OfKey(Insert(x, s, lt), key, k) == OfKey(s, key, k) + (if key(x) == k then [x] else [])
  {
    assert key(x) < key(s[0]) by {
      assert s[0] in s + [x] && x in s + [x];
    }
    assert Insert(x, s, lt) == [x] + s;
    assert ([x] + s)[1..] == s;
    if key(x) == k {
      assert forall i :: 0 <= i < |s| ==> key(s[0]) <= key(s[i]);
      OfKeyAbsent(s, key, k);
    }
  }

  /** The sort is stable: the elements of each key keep their relative order. */
  lemma {:induction false} SortWithStable<T(!new)>(s: seq<T>, lt: (T, T) -> bool, key: T -> int, k: int)
    requires LtIsKeyOrder(s, lt, key)
    ensures OfKey(SortWith(s, lt), key, k) == OfKey(s, key, k)
  {
    if s != [] {
      var init := s[..|s| - 1];
      var x := s[|s| - 1];
      LastInsertOrder(s, lt, key);
      SortWithSorted(init, lt, key);
      SortWithStable(init, lt, key, k);
      var t := if key(x) == k then [x] else [];
      calc {
        OfKey(SortWith(s, lt), key, k);
        { assert SortWith(s, lt) == Insert(x, SortWith(init, lt), lt); }
        OfKey(Insert(x, SortWith(init, lt), lt), key, k);
        { InsertStable(x, SortWith(init, lt), lt, key, k); }
        OfKey(SortWith(init, lt), key, k) + t;
        OfKey(init, key, k) + t;
        { OfKeySnoc(init, x, key, k); }
        OfKey(init + [x], key, k);
        { LastSplit(s); }
        OfKey(s, key, k);
      }
    }
  }

  /** A non-empty sequence is its front followed by its last element. */
  lemma LastSplit<T>(s: seq<T>)
    requires s != []
    ensures s == s[..|s| - 1] + [s[|s| - 1]]
  {
  }

  lemma OfKeySnoc<T>(s: seq<T>, x: T, key: T -> int, k: int)
    ensures OfKey(s + [x], key, k) == OfKey(s, key, k) + (if key(x) == k then [x] else [])
  {
    OfKeyAppend(s, [x], key, k);
    assert [x][1..] == [];
    assert OfKey([x], key, k) == (if key(x) == k then [x] else []) + OfKey([], key, k);
  }

  // ---------------------------------------------------------------------------
  // counting by key

  /** How many elements of `s` have key `k`. */
  function CountKey<T, K(==)>(s: seq<T>, key: T -> K, k: K): nat
  {
    if s == [] then 0 else (if key(s[0]) == k then 1 else 0) + CountKey(s[1..], key, k)
  }

  lemma {:induction false} CountKeySnoc<T, K>(s: seq<T>, x: T, key: T -> K, k: K)
    ensures CountKey(s + [x], key, k) == CountKey(s, key, k) + (if key(x) == k then 1 else 0)
  {
    if s != [] {
      assert (s + [x])[1..] == s[1..] + [x];
      CountKeySnoc(s[1..], x, key, k);
    } else {
      assert s + [x] == [x];
    }
  }

  /** How many elements of `s` have a key among `ks`. */
  function CountKeyIn<T, K(==)>(s: seq<T>, key: T -> K, ks: seq<K>): (n: nat)
    ensures n <= |s|
  {
    if s == [] then 0 else (if key(s[0]) in ks then 1 else 0) + CountKeyIn(s[1..], key, ks)
  }

  /** The per-key counts for the keys `ks`, added up. */
  function SumOfCounts<T, K(==)>(s: seq<T>, key: T -> K, ks: seq<K>): nat
  {
    if ks == [] then 0 else CountKey(s, key, ks[0]) + SumOfCounts(s, key, ks[1..])
  }

  /** How often `v` occurs in `ks`: once or never when `ks` is distinct. */
  function Occurrences<K(==)>(ks: seq<K>, v: K): nat
  {
    if ks == [] then 0 else (if ks[0] == v then 1 else 0) + Occurrences(ks[1..], v)
  }

  lemma {:induction false} OccurrencesDistinct<K>(ks: seq<K>, v: K)
    requires Distinct(ks)
    ensures Occurrences(ks, v) == if v in ks then 1 else 0
  {
    if ks != [] {
      assert Distinct(ks[1..]);
      OccurrencesDistinct(ks[1..], v);
      if ks[0] == v {
        assert v !in ks[1..] by {
          forall j | 0 <= j < |ks[1..]| ensures ks[1..][j] != v {
            assert ks[1..][j] == ks[j + 1];
          }
        }
      }
    }
  }

  lemma {:induction false} SumOfCountsCons<T, K>(x: T, s: seq<T>, key: T -> K, ks: seq<K>)
    ensures SumOfCounts([x] + s, key, ks) == Occurrences(ks, key(x)) + SumOfCounts(s, key, ks)
  {
    if ks != [] {
      assert ([x] + s)[1..] == s;
      SumOfCountsCons(x, s, key, ks[1..]);
    }
  }

  /** Counting per distinct key and adding up counts each element at most once: exactly the
      elements whose key is among the keys. */
  lemma {:induction false} SumOfCountsIsCountIn<T, K>(s: seq<T>, key: T -> K, ks: seq<K>)
    requires Distinct(ks)
    ensures SumOfCounts(s, key, ks) == CountKeyIn(s, key, ks)
    ensures SumOfCounts(s, key, ks) <= |s|
  {
    if s == [] {
      SumOfCountsEmpty(key, ks);
    } else {
      assert s == [s[0]] + s[1..];
      SumOfCountsCons(s[0], s[1..], key, ks);
      OccurrencesDistinct(ks, key(s[0]));
      SumOfCountsIsCountIn(s[1..], key, ks);
    }
  }

  lemma {:induction false} SumOfCountsEmpty<T, K>(key: T -> K, ks: seq<K>)
    ensures SumOfCounts([], key, ks) == 0
  {
    if ks != [] {
      SumOfCountsEmpty(key, ks[1..]);
    }
  }
}
