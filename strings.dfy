/** The JavaScript string operations the portal relies on: truthiness, `startsWith`,
    `includes`, ASCII `toLowerCase`, `split`/`join`, `Number.prototype.toString`,
    `padStart(2, '0')` and `parseInt(s, 10)`. */
module Strings {
  import opened Wrappers

  /** A string is truthy in JavaScript iff it is not empty. */
  predicate Truthy(s: string) {
    s != ""
  }

  /** A field that may be `null`/`undefined` is truthy iff it holds a non-empty string. */
  predicate TruthyOpt(s: Option<string>) {
    s.Some? && s.value != ""
  }

  predicate StartsWith(s: string, prefix: string) {
    |prefix| <= |s| && s[..|prefix|] == prefix
  }

  /** `sep` occurs in `s` at index `j`. */
  predicate OccursAt(s: string, sep: string, j: int) {
    0 <= j && j + |sep| <= |s| && s[j..j + |sep|] == sep
  }

  /** `s.includes(t)`. */
  predicate Contains(s: string, t: string) {
    exists j :: 0 <= j <= |s| - |t| && OccursAt(s, t, j)
  }

  lemma EmptyIsContained(s: string)
    ensures Contains(s, "")
  {
    assert OccursAt(s, "", 0);
  }

  // ---------------------------------------------------------------------------
  // toLowerCase, restricted to ASCII letters

  function LowerChar(c: char): (r: char)
    ensures 'A' <= c <= 'Z' ==> r as int == c as int + 32
    ensures !('A' <= c <= 'Z') ==> r == c
  {
    if 'A' <= c <= 'Z' then (c as int + 32) as char else c
  }

  function ToLower(s: string): (r: string)
    ensures |r| == |s|
    ensures forall i :: 0 <= i < |s| ==> r[i] == LowerChar(s[i])
  {
    seq(|s|, i requires 0 <= i < |s| => LowerChar(s[i]))
  }

  /** Lower-casing leaves no upper-case ASCII letter behind, so doing it twice changes nothing. */
  lemma ToLowerIdempotent(s: string)
    ensures ToLower(ToLower(s)) == ToLower(s)
  {
  }

  // ---------------------------------------------------------------------------
  // split and join

  /** The first index at which `sep` occurs in `s`, as `String.prototype.indexOf` finds it. */
  function IndexOf(s: string, sep: string): (r: Option<nat>)
    requires sep != ""
    ensures r.Some? ==> OccursAt(s, sep, r.value)
    ensures r.Some? ==> forall j :: 0 <= j < r.value ==> !OccursAt(s, sep, j)
    ensures r.None? ==> forall j :: !OccursAt(s, sep, j)
    decreases |s|
  {
    if |s| < |sep| then None
    else if s[..|sep|] == sep then Some(0)
    else
      match IndexOf(s[1..], sep)
      case None =>
        assert forall j :: OccursAt(s, sep, j) ==> j == 0 || OccursAt(s[1..], sep, j - 1);
        None
      case Some(k) =>
        assert forall j :: 0 < j <= k ==> (OccursAt(s, sep, j) <==> OccursAt(s[1..], sep, j - 1));
        assert OccursAt(s[1..], sep, k) ==> OccursAt(s, sep, k + 1);
        Some(k + 1)
  }

  /** `s.split(sep)` for a non-empty separator: cut at each occurrence, scanning left to right. */
  function Split(s: string, sep: string): (parts: seq<string>)
    requires sep != ""
    ensures |parts| >= 1
    decreases |s|
  {
    match IndexOf(s, sep)
    case None => [s]
    case Some(i) => [s[..i]] + Split(s[i + |sep|..], sep)
  }

  /** `parts.join(sep)`. */
  function Join(parts: seq<string>, sep: string): string
  {
    if |parts| == 0 then ""
    else if |parts| == 1 then parts[0]
    else parts[0] + sep + Join(parts[1..], sep)
  }

  /** Joining the pieces of a split with the same separator gives back the original string. */
  lemma {:induction false} JoinSplit(s: string, sep: string)
    requires sep != ""
    ensures Join(Split(s, sep), sep) == s
    decreases |s|
  {
    match IndexOf(s, sep)
    case None =>
    case Some(i) =>
      var rest := s[i + |sep|..];
      SplitAtFirst(s, sep, i);
      JoinCons(s[..i], Split(rest, sep), sep);
      JoinSplit(rest, sep);
      ReassembleAt(s, sep, i);
  }

  lemma ReassembleAt(s: string, sep: string, i: nat)
    requires OccursAt(s, sep, i)
    ensures s == s[..i] + sep + s[i + |sep|..]
  {
    assert s == s[..i] + s[i..i + |sep|] + s[i + |sep|..];
  }

  lemma JoinCons(p: string, parts: seq<string>, sep: string)
    requires |parts| >= 1
    ensures Join([p] + parts, sep) == p + sep + Join(parts, sep)
  {
    assert ([p] + parts)[1..] == parts;
  }

  /** No piece of a split contains the separator. */
  lemma {:induction false} SplitPiecesAreFree(s: string, sep: string, k: nat)
    requires sep != ""
    requires k < |Split(s, sep)|
    ensures !Contains(Split(s, sep)[k], sep)
    decreases |s|
  {
    var piece := Split(s, sep)[k];
    match IndexOf(s, sep)
    case None =>
      assert piece == s;
    case Some(i) =>
      if k == 0 {
        assert piece == s[..i];
        if Contains(piece, sep) {
          var j :| 0 <= j <= |piece| - |sep| && OccursAt(piece, sep, j);
          assert s[j..j + |sep|] == piece[j..j + |sep|];
          assert OccursAt(s, sep, j);
          assert false;
        }
      } else {
        SplitPiecesAreFree(s[i + |sep|..], sep, k - 1);
      }
  }

  lemma NoIndexWithoutFirstChar(a: string, sep: string)
    requires sep != "" && sep[0] !in a
    ensures IndexOf(a, sep).None?
  {
  }

  lemma IndexOfAfterFreePrefix(a: string, sep: string, rest: string)
    requires sep != "" && sep[0] !in a
    ensures IndexOf(a + sep + rest, sep) == Some(|a|)
  {
    var s := a + sep + rest;
    var n := |a|;
    assert s[n..n + |sep|] == sep;
    forall j | 0 <= j < n
      ensures !OccursAt(s, sep, j)
    {
      assert s[j] == a[j];
    }
    assert OccursAt(s, sep, n);
    var r := IndexOf(s, sep);
    assert r.Some?;
    assert !(r.value < n) && !(r.value > n);
  }

  lemma SplitAtFirst(s: string, sep: string, i: nat)
    requires sep != "" && IndexOf(s, sep) == Some(i)
    ensures Split(s, sep) == [s[..i]] + Split(s[i + |sep|..], sep)
  {
  }

  /** A leading piece free of the separator's first character is the first piece of the split. */
  lemma SplitCons(a: string, sep: string, rest: string)
    requires sep != "" && sep[0] !in a
    ensures Split(a + sep + rest, sep) == [a] + Split(rest, sep)
  {
    var s := a + sep + rest;
    IndexOfAfterFreePrefix(a, sep, rest);
    SplitAtFirst(s, sep, |a|);
    assert s[..|a|] == a;
    assert s[|a| + |sep|..] == rest;
  }

  lemma SplitFree(a: string, sep: string)
    requires sep != "" && sep[0] !in a
    ensures Split(a, sep) == [a]
  {
    NoIndexWithoutFirstChar(a, sep);
  }

  /** Splitting a join gives back the parts, provided no part holds the separator's first character. */
  lemma {:induction false} SplitJoin(parts: seq<string>, sep: string)
    requires sep != "" && |parts| >= 1
    requires forall k :: 0 <= k < |parts| ==> sep[0] !in parts[k]
    ensures Split(Join(parts, sep), sep) == parts
  {
    var s := Join(parts, sep);
    if |parts| == 1 {
      NoIndexWithoutFirstChar(parts[0], sep);
    } else {
      var rest := Join(parts[1..], sep);
      assert s == parts[0] + sep + rest;
      var n := |parts[0]|;
      IndexOfAfterFreePrefix(parts[0], sep, rest);
      SplitAtFirst(s, sep, n);
      assert s[..n] == parts[0];
      assert s[n + |sep|..] == rest;
      SplitJoin(parts[1..], sep);
      assert parts == [parts[0]] + parts[1..];
    }
  }

  /** The text before the first occurrence of `c`, i.e. the first piece of `s.split(c)`. */
  function Before(s: string, c: char): (r: string)
    ensures StartsWith(s, r) && c !in r
    ensures |r| < |s| ==> s[|r|] == c
  {
    if s == "" then ""
    else if s[0] == c then ""
    else [s[0]] + Before(s[1..], c)
  }

  /** The first piece of a split on a one-character separator is the text before that character. */
  lemma {:induction false} SplitFirstIsBefore(s: string, c: char)
    ensures Split(s, [c])[0] == Before(s, c)
  {
    var b := Before(s, c);
    if |b| == |s| {
      assert b == s;
      assert forall j :: OccursAt(s, [c], j) ==> s[j] == c;
    } else {
      assert OccursAt(s, [c], |b|);
      forall j | 0 <= j < |b|
        ensures !OccursAt(s, [c], j)
      {
        assert s[j] == b[j];
      }
      assert IndexOf(s, [c]) == Some(|b|);
    }
  }

  // ---------------------------------------------------------------------------
  // Number.prototype.toString and padStart

  predicate IsDigit(c: char) {
    '0' <= c <= '9'
  }

  function DigitChar(d: nat): (c: char)
    requires d < 10
    ensures IsDigit(c) && c as int - '0' as int == d
  {
    (d + '0' as int) as char
  }

  /** Decimal representation of a natural number, without leading zeros. */
  function NatToString(n: nat): (r: string)
    ensures |r| >= 1
    ensures forall i :: 0 <= i < |r| ==> IsDigit(r[i])
    ensures n < 10 ==> |r| == 1
    ensures 10 <= n < 100 ==> |r| == 2
    decreases n
  {
    if n < 10 then [DigitChar(n)] else NatToString(n / 10) + [DigitChar(n % 10)]
  }

  /** `n.toString()` for an integral number. */
  function IntToString(n: int): (r: string)
    ensures |r| >= 1
  {
    if n < 0 then "-" + NatToString(-n) else NatToString(n)
  }

  /** `n.toString().padStart(2, '0')`. */
  function Pad2(n: nat): (r: string)
    ensures n < 100 ==> |r| == 2
  {
    var s := NatToString(n);
    if |s| < 2 then "0" + s else s
  }

  // ---------------------------------------------------------------------------
  // parseInt(s, 10)

  /** The characters ECMAScript's StrWhiteSpaceChar admits: white space and line terminators. */
  predicate IsJsWhiteSpace(c: char) {
    c == '\t' || c == '\n' || c == '\U{000B}' || c == '\U{000C}' || c == '\r' || c == ' ' ||
    c == '\U{00A0}' || c == '\U{1680}' || ('\U{2000}' <= c <= '\U{200A}') ||
    c == '\U{2028}' || c == '\U{2029}' || c == '\U{202F}' || c == '\U{205F}' ||
    c == '\U{3000}' || c == '\U{FEFF}'
  }

  function TrimStart(s: string): (r: string)
    ensures |r| <= |s| && r == s[|s| - |r|..]
    ensures r != "" ==> !IsJsWhiteSpace(r[0])
  {
    if s != "" && IsJsWhiteSpace(s[0]) then TrimStart(s[1..]) else s
  }

  /** The longest prefix of `s` made of decimal digits. */
  function LeadingDigits(s: string): (r: string)
    ensures StartsWith(s, r)
    ensures forall i :: 0 <= i < |r| ==> IsDigit(r[i])
    ensures |r| < |s| ==> !IsDigit(s[|r|])
  {
    if s != "" && IsDigit(s[0]) then [s[0]] + LeadingDigits(s[1..]) else ""
  }

  /** The value of a string of decimal digits, most significant first. */
  function DigitsValue(ds: string): nat
    requires forall i :: 0 <= i < |ds| ==> IsDigit(ds[i])
  {
    if ds == "" then 0
    else
      assert IsDigit(ds[|ds| - 1]);
      DigitsValue(ds[..|ds| - 1]) * 10 + (ds[|ds| - 1] as int - '0' as int)
  }

  /** `parseInt(s, 10)`: optional leading white space, an optional sign, then the leading
      decimal digits; `None` stands for `NaN` when there is no digit. */
  function ParseInt(s: string): (r: Option<int>)
    ensures r.None? <==> LeadingDigits(Unsigned(TrimStart(s))) == ""
  {
    ParseSigned(TrimStart(s))
  }

  /** `parseInt` after the leading white space. */
  function ParseSigned(t: string): (r: Option<int>)
    ensures r.None? <==> LeadingDigits(Unsigned(t)) == ""
  {
    var negative := t != "" && t[0] == '-';
    var ds := LeadingDigits(Unsigned(t));
    if ds == "" then None
    else if negative then Some(-(DigitsValue(ds) as int))
    else Some(DigitsValue(ds))
  }

  /** The string after an optional leading '+' or '-'. */
  function Unsigned(t: string): string {
    if t != "" && (t[0] == '-' || t[0] == '+') then t[1..] else t
  }

  lemma {:induction false} DigitsValueOfNatToString(n: nat)
    ensures DigitsValue(NatToString(n)) == n
    decreases n
  {
    var s := NatToString(n);
    if n >= 10 {
      DigitsValueOfNatToString(n / 10);
      assert s[..|s| - 1] == NatToString(n / 10);
    }
  }

  lemma {:induction false} AllDigitsLeading(ds: string)
    requires forall i :: 0 <= i < |ds| ==> IsDigit(ds[i])
    ensures LeadingDigits(ds) == ds
  {
    if ds != "" {
      AllDigitsLeading(ds[1..]);
    }
  }

  /** A string that does not start with white space is its own `trimStart`. */
  lemma NoLeadingWhiteSpace(s: string)
    requires s != "" && (IsDigit(s[0]) || s[0] == '-')
    ensures TrimStart(s) == s
  {
  }

  /** A non-empty string of digits parses to its value. */
  lemma ParseIntOfDigits(ds: string)
    requires ds != "" && forall i :: 0 <= i < |ds| ==> IsDigit(ds[i])
    ensures ParseInt(ds) == Some(DigitsValue(ds))
  {
    NoLeadingWhiteSpace(ds);
    assert ds[0] != '-' && ds[0] != '+';
    assert Unsigned(ds) == ds;
    AllDigitsLeading(ds);
    assert ParseSigned(ds) == Some(DigitsValue(ds));
    assert ParseInt(ds) == ParseSigned(TrimStart(ds));
  }

  /** `parseInt` reads back what `toString` writes, for every integer. */
  lemma ParseIntOfIntToString(n: int)
    ensures ParseInt(IntToString(n)) == Some(n)
  {
    var m: nat := if n < 0 then -n else n;
    var ds := NatToString(m);
    DigitsValueOfNatToString(m);
    if n < 0 {
      var s := "-" + ds;
      assert IntToString(n) == s;
      assert s[0] == '-' && s[1..] == ds;
      NoLeadingWhiteSpace(s);
      AllDigitsLeading(ds);
      assert ParseSigned(s) == Some(n);
    } else {
      ParseIntOfDigits(ds);
    }
  }

  /** `parseInt` also reads back a two-character zero-padded number. */
  lemma ParseIntOfPad2(n: nat)
    requires n < 100
    ensures ParseInt(Pad2(n)) == Some(n)
  {
    if n < 10 {
      var s := ['0', DigitChar(n)];
      assert Pad2(n) == s;
      PaddedDigitValue(n);
      ParseIntOfDigits(s);
    } else {
      DigitsValueOfNatToString(n);
      ParseIntOfDigits(NatToString(n));
    }
  }

  /** A digit after a leading zero keeps its value. */
  lemma PaddedDigitValue(d: nat)
    requires d < 10
    ensures DigitsValue(['0', DigitChar(d)]) == d
  {
    var s := ['0', DigitChar(d)];
    assert s[..1] == ['0'] && ['0'][..0] == [];
  }
}
