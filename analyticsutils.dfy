/** The helpers of src/components/analytics/utils.ts: the `DD.MM` date sort, the last thirty
    day keys and the zeroed daily statistics. Day keys are day numbers. */
module AnalyticsUtils {
  import opened Wrappers
  import opened Strings
  import opened Seqs

  /** `formatDate`: the keys already come as `DD.MM`. */
  function FormatDate(dateStr: string): (r: string)
    ensures r == dateStr
  {
    dateStr
  }

  /** `const [day, month] = date.split('.')`; a key without '.' has an `undefined` month. */
  function DayPart(date: string): string {
    Split(date, ".")[0]
  }

  function MonthPart(date: string): Option<string> {
    var parts := Split(date, ".");
    if |parts| > 1 then Some(parts[1]) else None
  }

  /** `parseInt` of a part that may be `undefined`. */
  function ParsePart(part: Option<string>): Option<int> {
    if part.Some? then ParseInt(part.value) else None
  }

  /** `a - b` on numbers that may be `NaN`. */
  function Minus(a: Option<int>, b: Option<int>): Option<int> {
    if a.Some? && b.Some? then Some(a.value - b.value) else None
  }

  /** The comparator: the months first when their texts differ, else the days; `None` is NaN. */
  function CompareDates(a: string, b: string): Option<int> {
    CompareParts(MonthPart(a), MonthPart(b),
      ParseInt(DayPart(a)), ParsePart(MonthPart(a)), ParseInt(DayPart(b)), ParsePart(MonthPart(b)))
  }

  /** The comparator once the parts are parsed: the month texts decide which numbers subtract. */
  function CompareParts(ma: Option<string>, mb: Option<string>,
    dayA: Option<int>, monthA: Option<int>, dayB: Option<int>, monthB: Option<int>): Option<int>
  {
    if ma != mb then Minus(monthA, monthB) else Minus(dayA, dayB)
  }

  /** The comparator is negative; `sort` moves `a` before `b` only then. */
  predicate DateBefore(a: string, b: string) {
    var c := CompareDates(a, b);
    c.Some? && c.value < 0
  }

  /** `[...data].sort(comparator)`: a sorted copy. */
  function SortDataByDate<T>(data: seq<T>, dateOf: T -> string): (r: seq<T>)
    ensures |r| == |data| && multiset(r) == multiset(data)
  {
    SortWith(data, (x, y) => DateBefore(dateOf(x), dateOf(y)))
  }

  /** A `DD.MM` key: two digits, a dot, two digits. */
  predicate IsDateKey(s: string) {
    |s| == 5 && IsDigit(s[0]) && IsDigit(s[1]) && s[2] == '.' && IsDigit(s[3]) && IsDigit(s[4])
  }

  function Day(s: string): int
    requires IsDateKey(s)
  {
    DigitsValue(s[..2])
  }

  function Month(s: string): int
    requires IsDateKey(s)
  {
    DigitsValue(s[3..])
  }

  /** Where a key falls in the year: month first, then day. */
  function Position(s: string): int
    requires IsDateKey(s)
  {
    Month(s) * 100 + Day(s)
  }

  lemma TwoDigitsValue(ds: string)
    requires |ds| == 2 && IsDigit(ds[0]) && IsDigit(ds[1])
    ensures DigitsValue(ds) == (ds[0] as int - '0' as int) * 10 + (ds[1] as int - '0' as int)
  {
    var a := ds[..1];
    assert a[..0] == "";
    assert DigitsValue(a) == a[0] as int - '0' as int;
    assert ds[..|ds| - 1] == a;
  }

  /** Two-digit strings with the same value are the same string. */
  lemma TwoDigitsInjective(x: string, y: string)
    requires |x| == 2 && IsDigit(x[0]) && IsDigit(x[1])
    requires |y| == 2 && IsDigit(y[0]) && IsDigit(y[1])
    ensures DigitsValue(x) == DigitsValue(y) <==> x == y
  {
    TwoDigitsValue(x);
    TwoDigitsValue(y);
    if DigitsValue(x) == DigitsValue(y) {
      assert x[0] == y[0] && x[1] == y[1];
      assert x == [x[0], x[1]] && y == [y[0], y[1]];
    }
  }

  /** A key splits at its dot into day and month. */
  lemma DateKeySplit(s: string)
    requires IsDateKey(s)
    ensures DayPart(s) == s[..2] && MonthPart(s) == Some(s[3..])
  {
    var d, m := s[..2], s[3..];
    assert d == [s[0], s[1]] && m == [s[3], s[4]];
    assert s == d + "." + m;
    assert '.' !in d && '.' !in m;
    SplitCons(d, ".", m);
    SplitFree(m, ".");
  }

  /** Day and month parse to their values. */
  lemma DateKeyValues(s: string)
    requires IsDateKey(s)
    ensures ParseInt(s[..2]) == Some(Day(s)) && ParseInt(s[3..]) == Some(Month(s))
    ensures Day(s) < 100 && Month(s) < 100
  {
    var d, m := s[..2], s[3..];
    assert d == [s[0], s[1]] && m == [s[3], s[4]];
    ParseIntOfDigits(d);
    ParseIntOfDigits(m);
    TwoDigitsValue(d);
    TwoDigitsValue(m);
  }

  /** The parts of a key and their numbers. */
  lemma KeyParts(s: string)
    requires IsDateKey(s)
    ensures DayPart(s) == s[..2] && MonthPart(s) == Some(s[3..])
    ensures ParseInt(s[..2]) == Some(Day(s)) && ParseInt(s[3..]) == Some(Month(s))
  {
    DateKeySplit(s);
    DateKeyValues(s);
  }

  /** The comparator on two keys, given the numbers of their parts. */
  lemma CompareOfValues(a: string, b: string, u: int, x: int, v: int, y: int)
    requires IsDateKey(a) && IsDateKey(b)
    requires u == Day(a) && x == Month(a) && v == Day(b) && y == Month(b)
    ensures x != y ==> CompareDates(a, b) == Some(x - y)
    ensures x == y ==> CompareDates(a, b) == Some(u - v)
  {
    var ma, mb := a[3..], b[3..];
    KeyParts(a);
    KeyParts(b);
    assert ma != mb <==> x != y by {
      TwoDigitsInjective(ma, mb);
    }
    assert CompareDates(a, b) == CompareParts(Some(ma), Some(mb), Some(u), Some(x), Some(v), Some(y));
    PartsDecide(ma, mb, u, x, v, y);
  }

  /** Parsed parts: different month texts subtract the months, equal ones the days. */
  lemma PartsDecide(ma: string, mb: string, u: int, x: int, v: int, y: int)
    requires ma != mb <==> x != y
    ensures x != y ==> CompareParts(Some(ma), Some(mb), Some(u), Some(x), Some(v), Some(y)) == Some(x - y)
    ensures x == y ==> CompareParts(Some(ma), Some(mb), Some(u), Some(x), Some(v), Some(y)) == Some(u - v)
  {
  }

  /** On keys, the comparator is the difference of the months, or of the days when the months
      are the same. */
  lemma CompareOfKeys(a: string, b: string)
    requires IsDateKey(a) && IsDateKey(b)
    ensures CompareDates(a, b).Some?
    ensures CompareDates(a, b).value == if Month(a) != Month(b) then Month(a) - Month(b) else Day(a) - Day(b)
  {
    CompareOfValues(a, b, Day(a), Month(a), Day(b), Month(b));
  }

  /** On keys, the comparator orders by month, then by day; in particular a smaller month comes
      first whatever the days. */
  lemma CompareIsMonthThenDay(a: string, b: string)
    requires IsDateKey(a) && IsDateKey(b)
    ensures DateBefore(a, b) <==> Position(a) < Position(b)
    ensures Month(a) < Month(b) ==> DateBefore(a, b)
  {
    CompareOfKeys(a, b);
    DateKeyValues(a);
    DateKeyValues(b);
  }

  /** `Position`, extended to every string. */
  function KeyPosition(s: string): int {
    if IsDateKey(s) then Position(s) else 0
  }

  /** Sorting keyed data gives a permutation ordered by month and then day. */
  lemma SortedByMonthThenDay<T(!new)>(data: seq<T>, dateOf: T -> string)
    requires forall x :: x in data ==> IsDateKey(dateOf(x))
    ensures multiset(SortDataByDate(data, dateOf)) == multiset(data)
    ensures var r := SortDataByDate(data, dateOf);
      forall i, j :: 0 <= i < j < |r| ==> KeyPosition(dateOf(r[i])) <= KeyPosition(dateOf(r[j]))
  {
    var lt := (x: T, y: T) => DateBefore(dateOf(x), dateOf(y));
    var key := (x: T) => KeyPosition(dateOf(x));
    forall a, b | a in data && b in data
      ensures lt(a, b) <==> key(a) < key(b)
    {
      CompareIsMonthThenDay(dateOf(a), dateOf(b));
    }
    SortWithSorted(data, lt, key);
  }

  // ---------------------------------------------------------------------------
  // the last thirty days

  /** `getDatesForLast30Days`: today and the 29 days before it, oldest first. */
  method DatesForLast30Days(today: int) returns (dates: seq<int>)
    ensures |dates| == 30
    ensures forall k :: 0 <= k < 30 ==> dates[k] == today - 29 + k
  {
    var pushed: seq<int> := [];
    for i := 0 to 30
      invariant |pushed| == i
      invariant forall k :: 0 <= k < i ==> pushed[k] == today - k
    {
      pushed := pushed + [today - i];
    }
    dates := Reversed(pushed);
  }

  /** `reverse()`. */
  function Reversed<T>(s: seq<T>): (r: seq<T>)
    ensures |r| == |s| && forall k :: 0 <= k < |s| ==> r[k] == s[|s| - 1 - k]
  {
    seq(|s|, k requires 0 <= k < |s| => s[|s| - 1 - k])
  }

  /** The thirty day keys `DatesForLast30Days` yields, as a function. */
  function Last30Days(today: int): (r: seq<int>)
    ensures |r| == 30 && Distinct(r)
    ensures forall k :: 0 <= k < 30 ==> r[k] == today - 29 + k
    ensures forall d :: d in r <==> today - 29 <= d <= today
  {
    var r := seq(30, k requires 0 <= k < 30 => today - 29 + k);
    forall d | today - 29 <= d <= today
      ensures d in r
    {
      assert r[d - today + 29] == d;
    }
    r
  }

  /** One day of the user graph; `newUsers` is the `new` field. */
  datatype DailyStat = DailyStat(date: int, total: int, newUsers: int, returning: int)

  /** `initializeDailyStats`: every day key with all counts at 0. */
  method InitializeDailyStats(today: int) returns (stats: map<int, DailyStat>)
    ensures stats.Keys == set d | d in Last30Days(today)
    ensures forall d :: d in stats ==> stats[d] == DailyStat(d, 0, 0, 0)
  {
    var dates := DatesForLast30Days(today);
    assert dates == Last30Days(today);
    stats := map[];
    for i := 0 to |dates|
      invariant stats.Keys == set k | k in dates[..i]
      invariant forall d :: d in stats ==> stats[d] == DailyStat(d, 0, 0, 0)
    {
      assert dates[..i + 1] == dates[..i] + [dates[i]];
      stats := stats[dates[i] := DailyStat(dates[i], 0, 0, 0)];
    }
    assert dates[..|dates|] == dates;
  }
}
