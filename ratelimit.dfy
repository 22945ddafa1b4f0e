/** The per-token request counter of src/utils/rateLimit.ts. The LRU cache is a plain map from
    token to count; eviction (by size or by age) is a separate operation that forgets a token,
    after which its counting starts again. */
module RateLimit {
  import opened Wrappers
  import opened Strings

  const DefaultCapacity: int := 500
  const DefaultInterval: int := 60000

  /** `value || fallback` for a numeric option: `undefined` and 0 fall back. */
  function OrDefault(value: Option<int>, fallback: int): (r: int)
    ensures value.Some? && value.value != 0 ==> r == value.value
    ensures value.None? || value.value == 0 ==> r == fallback
  {
    if value.Some? && value.value != 0 then value.value else fallback
  }

  /** The headers of the response `check` is given. */
  class ResponseHeaders {
    var values: map<string, string>

    constructor ()
      ensures values == map[]
    {
      values := map[];
    }

    method Set(name: string, value: string)
      modifies this
      ensures values == old(values)[name := value]
    {
      values := values[name := value];
    }
  }

  /** The count a token has: 0 when the cache does not hold it. */
  function CountOf(counts: map<string, nat>, token: string): nat {
    if token in counts then counts[token] else 0
  }

  /** The counts after one `check` for `token`. */
  function Counted(counts: map<string, nat>, token: string): (r: map<string, nat>)
    ensures r.Keys == counts.Keys + {token}
    ensures CountOf(r, token) == CountOf(counts, token) + 1
    ensures forall t :: t != token ==> CountOf(r, t) == CountOf(counts, t)
  {
    counts[token := CountOf(counts, token) + 1]
  }

  /** `X-RateLimit-Remaining`: what is left of the limit, never below 0. */
  function Remaining(limit: int, usage: int): (r: nat)
    ensures usage <= limit ==> r == limit - usage
    ensures usage > limit ==> r == 0
  {
    if limit - usage > 0 then limit - usage else 0
  }

  /** `rateLimit(options)`: the counter table with its two options. */
  class Limiter {
    var counts: map<string, nat>
    const capacity: int
    const interval: int

    constructor (interval: Option<int>, uniqueTokenPerInterval: Option<int>)
      ensures counts == map[]
      ensures this.capacity == OrDefault(uniqueTokenPerInterval, DefaultCapacity)
      ensures this.interval == OrDefault(interval, DefaultInterval)
    {
      counts := map[];
      capacity := OrDefault(uniqueTokenPerInterval, DefaultCapacity);
      this.interval := OrDefault(interval, DefaultInterval);
    }

    /** `check(response, limit, token)`: counts the call, writes both headers, and reports
        whether it throws 'Rate limit exceeded', which it does only after the headers are set. */
    method Check(headers: ResponseHeaders, limit: int, token: string) returns (exceeded: bool)
      modifies this, headers
      ensures counts == Counted(old(counts), token)
      ensures var usage := CountOf(counts, token);
        headers.values == old(headers.values)
          ["X-RateLimit-Limit" := IntToString(limit)]
          ["X-RateLimit-Remaining" := NatToString(Remaining(limit, usage))]
      ensures exceeded <==> CountOf(counts, token) > limit
    {
      var tokenCount := CountOf(counts, token);
      tokenCount := tokenCount + 1;
      counts := counts[token := tokenCount];
      var currentUsage := tokenCount;
      headers.Set("X-RateLimit-Limit", IntToString(limit));
      headers.Set("X-RateLimit-Remaining", NatToString(Remaining(limit, currentUsage)));
      exceeded := currentUsage > limit;
    }

    /** The cache forgets a token. */
    method Evict(token: string)
      modifies this
      ensures counts == old(counts) - {token}
      ensures CountOf(counts, token) == 0
    {
      counts := counts - {token};
    }
  }

  /** The counts after `n` checks for one token. */
  function CountedTimes(counts: map<string, nat>, token: string, n: nat): map<string, nat>
  {
    if n == 0 then counts else Counted(CountedTimes(counts, token, n - 1), token)
  }

  /** Counting a token `n` times adds exactly `n` to it and leaves every other token alone. */
  lemma {:induction false} CountedTimesAddsN(counts: map<string, nat>, token: string, n: nat)
    ensures CountOf(CountedTimes(counts, token, n), token) == CountOf(counts, token) + n
    ensures forall t :: t != token ==> CountOf(CountedTimes(counts, token, n), t) == CountOf(counts, t)
  {
    if n > 0 {
      CountedTimesAddsN(counts, token, n - 1);
    }
  }

  /** For a token the table does not hold, calls 1 to `limit` get through and every later call
      is refused, each with `Remaining` counting down to 0. */
  lemma NthCallIsRefusedPastTheLimit(counts: map<string, nat>, token: string, limit: int, n: nat)
    requires token !in counts && n >= 1
    ensures var usage := CountOf(CountedTimes(counts, token, n), token);
      usage == n && (usage > limit <==> n > limit) &&
      Remaining(limit, usage) == (if n <= limit then limit - n else 0)
  {
    CountedTimesAddsN(counts, token, n);
  }
}
