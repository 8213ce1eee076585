/** The fixed-window limiter: a counter per merchant and window that expires by itself. */
module RateLimit {
  import opened Store

  /** One call; `at` is the shared clock in milliseconds. */
  datatype Call = Call(merchantId: MerchantId, at: nat)
  datatype Config = Config(maxRequests: nat, windowSeconds: nat)
  datatype Counter = Counter(count: nat, expiresAt: nat)

  ghost predicate Positive(c: Config) {
    c.maxRequests > 0 && c.windowSeconds > 0
  }

  function Second(at: nat): nat {
    at / 1_000
  }

  function WindowOf(c: Config, at: nat): nat
    requires c.windowSeconds > 0
  {
    Second(at) / c.windowSeconds
  }

  /** `Math.max(1, windowSeconds - (nowSeconds % windowSeconds))`. */
  function ExpiresInSeconds(c: Config, at: nat): nat
    requires c.windowSeconds > 0
  {
    var left := c.windowSeconds - Second(at) % c.windowSeconds;
    if left > 1 then left else 1
  }

  // ---------- Windows ----------

  /** The first second of the window after the one that holds `at`. */
  function NextStart(c: Config, at: nat): nat
    requires c.windowSeconds > 0
  {
    (WindowOf(c, at) + 1) * c.windowSeconds
  }

  lemma WindowSpans(c: Config, at: nat)
    requires c.windowSeconds > 0
    ensures Second(at) + ExpiresInSeconds(c, at) == NextStart(c, at)
    ensures at < 1_000 * NextStart(c, at) <= at + 1_000 * ExpiresInSeconds(c, at)
  {
    var s, w := Second(at), c.windowSeconds;
    assert s == (s / w) * w + s % w;
    assert (s / w + 1) * w == (s / w) * w + w;
  }

  lemma {:induction false} MultiplyMonotonic(a: nat, b: nat, w: nat)
    requires a <= b
    ensures a * w <= b * w
  {
  }

  lemma QuotientAtLeast(a: nat, w: nat, q: nat)
    requires w > 0
    ensures a / w >= q <==> a >= q * w
  {
    var p := a / w;
    assert a == p * w + a % w;
    if p >= q {
      MultiplyMonotonic(q, p, w);
    } else {
      MultiplyMonotonic(p + 1, q, w);
      assert (p + 1) * w == p * w + w;
    }
  }

  lemma WindowIsMonotonic(c: Config, at: nat, later: nat)
    requires c.windowSeconds > 0 && at <= later
    ensures WindowOf(c, at) <= WindowOf(c, later)
  {
    QuotientAtLeast(Second(at), c.windowSeconds, WindowOf(c, at));
    QuotientAtLeast(Second(later), c.windowSeconds, WindowOf(c, at));
  }

  /** An instant is past a window exactly when it reaches the next window's start. */
  lemma LaterWindow(c: Config, at: nat, other: nat)
    requires c.windowSeconds > 0
    ensures WindowOf(c, other) > WindowOf(c, at) <==> other >= 1_000 * NextStart(c, at)
  {
    QuotientAtLeast(Second(other), c.windowSeconds, WindowOf(c, at) + 1);
  }

  /** The k-th of the intervals, `windowSeconds` long, into which the clock is cut from its zero on. */
  predicate InInterval(c: Config, k: nat, at: nat) {
    k * (1_000 * c.windowSeconds) <= at < (k + 1) * (1_000 * c.windowSeconds)
  }

  lemma WindowIsInterval(c: Config, at: nat)
    requires c.windowSeconds > 0
    ensures InInterval(c, WindowOf(c, at), at)
  {
    var w, q, s := c.windowSeconds, WindowOf(c, at), Second(at);
    assert s == q * w + s % w;
    assert q * (1_000 * w) == 1_000 * (q * w);
    assert (q + 1) * (1_000 * w) == 1_000 * (q * w) + 1_000 * w;
  }

  lemma IntervalsAreDisjoint(c: Config, k: nat, j: nat, at: nat)
    requires InInterval(c, k, at) && InInterval(c, j, at)
    ensures k == j
  {
    if k < j {
      MultiplyMonotonic(k + 1, j, 1_000 * c.windowSeconds);
    } else if j < k {
      MultiplyMonotonic(j + 1, k, 1_000 * c.windowSeconds);
    }
  }

  /** Two instants have one window exactly when they lie in the same interval. */
  lemma WindowsAreIntervals(c: Config, at: nat, other: nat)
    requires c.windowSeconds > 0
    ensures WindowOf(c, at) == WindowOf(c, other) <==>
            exists k: nat :: InInterval(c, k, at) && InInterval(c, k, other)
  {
    WindowIsInterval(c, at);
    WindowIsInterval(c, other);
    if k: nat :| InInterval(c, k, at) && InInterval(c, k, other) {
      IntervalsAreDisjoint(c, k, WindowOf(c, at), at);
      IntervalsAreDisjoint(c, k, WindowOf(c, other), other);
    }
  }

  // ---------- What is allowed ----------

  /** The calls of a merchant in one window. */
  function CountIn(c: Config, calls: seq<Call>, m: MerchantId, window: nat): nat
    requires c.windowSeconds > 0
  {
    if calls == [] then 0
    else
      CountIn(c, calls[..|calls| - 1], m, window)
      + (if calls[|calls| - 1].merchantId == m && WindowOf(c, calls[|calls| - 1].at) == window then 1 else 0)
  }

  /** The rule the limiter is for: a call is allowed while its merchant has made no more than
      `maxRequests` calls in its window, this one included. */
  predicate Allowed(c: Config, calls: seq<Call>, i: nat)
    requires c.windowSeconds > 0 && i < |calls|
  {
    CountIn(c, calls[..i + 1], calls[i].merchantId, WindowOf(c, calls[i].at)) <= c.maxRequests
  }

  /** How many calls of a merchant were allowed in one window. */
  function AllowedIn(c: Config, calls: seq<Call>, m: MerchantId, window: nat, n: nat): nat
    requires c.windowSeconds > 0 && n <= |calls|
  {
    if n == 0 then 0
    else
      AllowedIn(c, calls, m, window, n - 1)
      + (if calls[n - 1].merchantId == m && WindowOf(c, calls[n - 1].at) == window && Allowed(c, calls, n - 1)
         then 1 else 0)
  }

  /** No merchant gets more than `maxRequests` calls through in a window; the first ones get through. */
  lemma {:induction false} AllowedPerWindow(c: Config, calls: seq<Call>, m: MerchantId, window: nat, n: nat)
    requires c.windowSeconds > 0 && n <= |calls|
    ensures var made := CountIn(c, calls[..n], m, window);
            AllowedIn(c, calls, m, window, n) == if made <= c.maxRequests then made else c.maxRequests
    decreases n
  {
    if n > 0 {
      AllowedPerWindow(c, calls, m, window, n - 1);
      assert calls[..n][..n - 1] == calls[..n - 1];
    }
  }

  /** Only a merchant's own calls matter to it. */
  function Own(calls: seq<Call>, m: MerchantId): seq<Call> {
    if calls == [] then []
    else
      Own(calls[..|calls| - 1], m)
      + (if calls[|calls| - 1].merchantId == m then [calls[|calls| - 1]] else [])
  }

  lemma {:induction false} OthersDoNotCount(c: Config, calls: seq<Call>, m: MerchantId, window: nat)
    requires c.windowSeconds > 0
    ensures CountIn(c, calls, m, window) == CountIn(c, Own(calls, m), m, window)
    decreases |calls|
  {
    if calls != [] {
      var before, last := calls[..|calls| - 1], calls[|calls| - 1];
      OthersDoNotCount(c, before, m, window);
      if last.merchantId == m {
        assert (Own(before, m) + [last])[..|Own(before, m)|] == Own(before, m);
      } else {
        assert Own(before, m) + [] == Own(before, m);
      }
    }
  }

  // ---------- Any span of the window's length ----------

  /** How many calls of a merchant were allowed at or after `from` and less than `windowSeconds` later. */
  function AllowedInSpan(c: Config, calls: seq<Call>, m: MerchantId, from: nat, n: nat): nat
    requires c.windowSeconds > 0 && n <= |calls|
  {
    if n == 0 then 0
    else
      AllowedInSpan(c, calls, m, from, n - 1)
      + (if calls[n - 1].merchantId == m && from <= calls[n - 1].at < from + 1_000 * c.windowSeconds
            && Allowed(c, calls, n - 1) then 1 else 0)
  }

  lemma SpanMeetsTwoWindows(c: Config, from: nat, at: nat)
    requires c.windowSeconds > 0 && from <= at < from + 1_000 * c.windowSeconds
    ensures WindowOf(c, at) == WindowOf(c, from) || WindowOf(c, at) == WindowOf(c, from) + 1
  {
    var w, q := c.windowSeconds, WindowOf(c, from);
    WindowIsMonotonic(c, from, at);
    WindowSpans(c, from);
    assert (q + 2) * w == NextStart(c, from) + w;
    QuotientAtLeast(Second(at), w, q + 2);
  }

  lemma {:induction false} SpanIsCovered(c: Config, calls: seq<Call>, m: MerchantId, from: nat, n: nat)
    requires c.windowSeconds > 0 && n <= |calls|
    ensures AllowedInSpan(c, calls, m, from, n)
         <= AllowedIn(c, calls, m, WindowOf(c, from), n) + AllowedIn(c, calls, m, WindowOf(c, from) + 1, n)
    decreases n
  {
    if n > 0 {
      SpanIsCovered(c, calls, m, from, n - 1);
      if from <= calls[n - 1].at < from + 1_000 * c.windowSeconds {
        SpanMeetsTwoWindows(c, from, calls[n - 1].at);
      }
    }
  }

  /** In any span of `windowSeconds` a merchant gets at most twice `maxRequests` calls through. */
  lemma AllowedPerSpan(c: Config, calls: seq<Call>, m: MerchantId, from: nat)
    requires c.windowSeconds > 0
    ensures AllowedInSpan(c, calls, m, from, |calls|) <= 2 * c.maxRequests
  {
    SpanIsCovered(c, calls, m, from, |calls|);
    AllowedPerWindow(c, calls, m, WindowOf(c, from), |calls|);
    AllowedPerWindow(c, calls, m, WindowOf(c, from) + 1, |calls|);
  }

  // ---------- Retry-After ----------

  /** When a counter first incremented at `first` expires. */
  function Expiry(c: Config, first: nat): nat
    requires c.windowSeconds > 0
  {
    first + 1_000 * ExpiresInSeconds(c, first)
  }

  /** Redis answers TTL in seconds, rounded to the nearest one. */
  function Ttl(expiresAt: nat, now: nat): nat {
    if expiresAt <= now then 0 else (expiresAt - now + 500) / 1_000
  }

  function RetryAfter(expiresAt: nat, now: nat): nat {
    if Ttl(expiresAt, now) > 1 then Ttl(expiresAt, now) else 1
  }

  /** A wait from f into second s to g into second n, rounded. */
  lemma RoundedWait(s: nat, g: nat, n: nat, f: nat)
    requires s < n && f < 1_000 && g < 1_000
    ensures Ttl(1_000 * n + f, 1_000 * s + g) == n - s + if f >= g + 500 then 1 else if g > f + 500 then -1 else 0
  {
  }

  /** Waiting the returned time reaches a later window exactly unless the call came more than half a
      second later within its second than the counter's first call did within its own, before the
      window's last second. */
  lemma RetryReachesLaterWindow(c: Config, first: nat, now: nat)
    requires c.windowSeconds > 0 && first <= now && WindowOf(c, first) == WindowOf(c, now)
    ensures WindowOf(c, now + 1_000 * RetryAfter(Expiry(c, first), now)) > WindowOf(c, now) <==>
              now % 1_000 <= first % 1_000 + 500 || Second(now) + 1 == NextStart(c, now)
  {
    WindowSpans(c, first);
    WindowSpans(c, now);
    var n, s := NextStart(c, now), Second(now);
    assert Expiry(c, first) == 1_000 * n + first % 1_000 && now == 1_000 * s + now % 1_000;
    RoundedWait(s, now % 1_000, n, first % 1_000);
    LaterWindow(c, now, now + 1_000 * RetryAfter(Expiry(c, first), now));
  }

  /** On a clock of whole seconds it always does. */
  lemma RetryOnWholeSeconds(c: Config, first: nat, now: nat)
    requires c.windowSeconds > 0 && first <= now && WindowOf(c, first) == WindowOf(c, now)
    requires first % 1_000 == 0 && now % 1_000 == 0
    ensures WindowOf(c, now + 1_000 * RetryAfter(Expiry(c, first), now)) > WindowOf(c, now)
  {
    RetryReachesLaterWindow(c, first, now);
  }

  /** The time of a merchant's first call in a window. */
  function FirstIn(c: Config, calls: seq<Call>, m: MerchantId, window: nat): Option<nat>
    requires c.windowSeconds > 0
  {
    if calls == [] then None
    else
      var last := calls[|calls| - 1];
      var earlier := FirstIn(c, calls[..|calls| - 1], m, window);
      if earlier.None? && last.merchantId == m && WindowOf(c, last.at) == window then Some(last.at) else earlier
  }

  lemma {:induction false} FirstIsCounted(c: Config, calls: seq<Call>, m: MerchantId, window: nat)
    requires c.windowSeconds > 0
    ensures var first := FirstIn(c, calls, m, window);
            && (first.None? <==> CountIn(c, calls, m, window) == 0)
            && (first.Some? ==> WindowOf(c, first.value) == window)
    decreases |calls|
  {
    if calls != [] {
      FirstIsCounted(c, calls[..|calls| - 1], m, window);
    }
  }

  /** The wait that the i-th call is told. */
  function WaitFor(c: Config, calls: seq<Call>, i: nat): nat
    requires c.windowSeconds > 0 && i < |calls|
  {
    var first := FirstIn(c, calls[..i + 1], calls[i].merchantId, WindowOf(c, calls[i].at));
    if first.None? then 1 else RetryAfter(Expiry(c, first.value), calls[i].at)
  }

  /** n calls at the start of the clock. */
  function Burst(m: MerchantId, n: nat): seq<Call> {
    seq(n, _ => Call(m, 0))
  }

  lemma {:induction false} BurstCounts(c: Config, m: MerchantId, n: nat)
    requires c.windowSeconds > 0
    ensures CountIn(c, Burst(m, n), m, 0) == n
    ensures n > 0 ==> FirstIn(c, Burst(m, n), m, 0) == Some(0)
  {
    if n > 0 {
      BurstCounts(c, m, n - 1);
      assert Burst(m, n)[..n - 1] == Burst(m, n - 1);
      FirstIsCounted(c, Burst(m, n - 1), m, 0);
    }
  }

  /** With the default configuration: after 100 calls at the start of a window, the call 0.6 s into it is denied and
      told to wait 59 s; the call that does so is denied as well, since its window is still the same. */
  lemma RetryMayFallShort(m: MerchantId)
    ensures var c, calls := Config(100, 60), Burst(m, 100) + [Call(m, 600), Call(m, 600 + 1_000 * 59)];
            && !Allowed(c, calls, 100) && WaitFor(c, calls, 100) == 59 && !Allowed(c, calls, 101)
  {
    var c, burst := Config(100, 60), Burst(m, 100);
    var denied, again := Call(m, 600), Call(m, 600 + 1_000 * 59);
    var calls := burst + [denied, again];
    BurstCounts(c, m, 100);
    assert calls[..101] == burst + [denied] && calls[..102] == (burst + [denied]) + [again];
    CountSnoc(c, burst, denied, m, 0);
    CountSnoc(c, burst + [denied], again, m, 0);
    FirstSnoc(c, burst, denied, m, 0);
  }

  // ---------- The service ----------

  /** A counter holds the number of calls of its window and outlives the window. */
  ghost predicate CounterOk(c: Config, calls: seq<Call>, m: MerchantId, window: nat, counter: Counter)
    requires c.windowSeconds > 0
  {
    && counter.count == CountIn(c, calls, m, window)
    && var first := FirstIn(c, calls, m, window);
       first.Some? && first.value <= LastAt(calls) && counter.expiresAt == Expiry(c, first.value)
  }

  function LastAt(calls: seq<Call>): nat {
    if calls == [] then 0 else calls[|calls| - 1].at
  }

  ghost predicate CountersOk(c: Config, calls: seq<Call>, counters: map<(MerchantId, nat), Counter>)
    requires c.windowSeconds > 0
  {
    && (forall k: (MerchantId, nat) | k in counters :: CounterOk(c, calls, k.0, k.1, counters[k]))
    && (forall m, w: nat :: (m, w) !in counters ==> CountIn(c, calls, m, w) == 0)
  }

  lemma CountSnoc(c: Config, calls: seq<Call>, call: Call, m: MerchantId, window: nat)
    requires c.windowSeconds > 0
    ensures CountIn(c, calls + [call], m, window) ==
              CountIn(c, calls, m, window) + if call.merchantId == m && WindowOf(c, call.at) == window then 1 else 0
  {
    assert (calls + [call])[..|calls|] == calls;
  }

  lemma FirstSnoc(c: Config, calls: seq<Call>, call: Call, m: MerchantId, window: nat)
    requires c.windowSeconds > 0
    ensures FirstIn(c, calls + [call], m, window) ==
              var earlier := FirstIn(c, calls, m, window);
              if earlier.None? && call.merchantId == m && WindowOf(c, call.at) == window then Some(call.at) else earlier
  {
    assert (calls + [call])[..|calls|] == calls;
  }

  /** The counter never expires inside its own window. */
  lemma CounterOutlivesWindow(c: Config, first: nat, now: nat)
    requires c.windowSeconds > 0 && WindowOf(c, first) == WindowOf(c, now)
    ensures now < Expiry(c, first)
  {
    WindowSpans(c, first);
    WindowSpans(c, now);
  }

  lemma IncrementKeepsCounter(c: Config, calls: seq<Call>, call: Call, counter: Counter)
    requires c.windowSeconds > 0 && LastAt(calls) <= call.at
    requires CounterOk(c, calls, call.merchantId, WindowOf(c, call.at), counter)
    ensures CounterOk(c, calls + [call], call.merchantId, WindowOf(c, call.at), counter.(count := counter.count + 1))
  {
    CountSnoc(c, calls, call, call.merchantId, WindowOf(c, call.at));
    FirstSnoc(c, calls, call, call.merchantId, WindowOf(c, call.at));
  }

  lemma FirstCallStartsCounter(c: Config, calls: seq<Call>, call: Call)
    requires c.windowSeconds > 0 && LastAt(calls) <= call.at
    requires CountIn(c, calls, call.merchantId, WindowOf(c, call.at)) == 0
    ensures CounterOk(c, calls + [call], call.merchantId, WindowOf(c, call.at), Counter(1, Expiry(c, call.at)))
  {
    CountSnoc(c, calls, call, call.merchantId, WindowOf(c, call.at));
    FirstSnoc(c, calls, call, call.merchantId, WindowOf(c, call.at));
    FirstIsCounted(c, calls, call.merchantId, WindowOf(c, call.at));
  }

  lemma OtherCountersKeep(c: Config, calls: seq<Call>, call: Call, counters: map<(MerchantId, nat), Counter>,
                          counter: Counter)
    requires c.windowSeconds > 0 && LastAt(calls) <= call.at && CountersOk(c, calls, counters)
    requires CounterOk(c, calls + [call], call.merchantId, WindowOf(c, call.at), counter)
    ensures CountersOk(c, calls + [call], counters[(call.merchantId, WindowOf(c, call.at)) := counter])
  {
    var own := (call.merchantId, WindowOf(c, call.at));
    forall k: (MerchantId, nat) | k in counters && k != own ensures CounterOk(c, calls + [call], k.0, k.1, counters[k]) {
      CountSnoc(c, calls, call, k.0, k.1);
      FirstSnoc(c, calls, call, k.0, k.1);
      assert CounterOk(c, calls, k.0, k.1, counters[k]);
    }
    forall m, w: nat | (m, w) !in counters && (m, w) != own ensures CountIn(c, calls + [call], m, w) == 0 {
      CountSnoc(c, calls, call, m, w);
    }
  }

  class PaymentRateLimitService {
    const config: Config
    var counters: map<(MerchantId, nat), Counter>
    ghost var calls: seq<Call>

    ghost predicate Valid()
      reads this
    {
      Positive(config) && CountersOk(config, calls, counters)
    }

    constructor (config: Config)
      requires Positive(config)
      ensures Valid() && this.config == config && calls == []
    {
      this.config, counters, calls := config, map[], [];
    }

    /** `consume`: increments the counter of the merchant's present window, starting its expiry with the
        first increment. The answer is the rule's, and the wait is until the counter expires. */
    method Consume(m: MerchantId, now: nat) returns (allowed: bool, retryAfterSeconds: nat)
      requires Valid() && LastAt(calls) <= now
      modifies this
      ensures Valid() && calls == old(calls) + [Call(m, now)]
      ensures allowed == Allowed(config, calls, |calls| - 1)
      ensures retryAfterSeconds == WaitFor(config, calls, |calls| - 1)
    {
      var key := (m, WindowOf(config, now));
      ghost var call := Call(m, now);
      var counter := Counter(1, now + 1_000 * ExpiresInSeconds(config, now));
      FirstIsCounted(config, calls, m, key.1);
      if key in counters {
        assert CounterOk(config, calls, m, key.1, counters[key]);
        CounterOutlivesWindow(config, FirstIn(config, calls, m, key.1).value, now);
      }
      if key in counters && now < counters[key].expiresAt {
        counter := counters[key].(count := counters[key].count + 1);
        IncrementKeepsCounter(config, calls, call, counters[key]);
      } else {
        FirstCallStartsCounter(config, calls, call);
      }
      OtherCountersKeep(config, calls, call, counters, counter);
      counters, calls := counters[key := counter], calls + [call];
      assert calls[..|calls|] == calls;
      allowed := counter.count <= config.maxRequests;
      retryAfterSeconds := RetryAfter(counter.expiresAt, now);
    }
  }
}
