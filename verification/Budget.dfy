/** AbuseIPDB's daily budget (enrichment/providers.py, lines 108-206): the count is checked before an await and charged
    after it, so what the guard allows depends on how many callers are between the two. Time is in seconds. */
module Budget {
  import opened Prelude

  const DAY := 86400.0

  /** `_daily_count`, `_daily_reset`, `_rate_limited_until`. */
  datatype Meter = Meter(count: nat, reset: real, limitedUntil: real)

  function Day(t: real): int { (t / DAY).Floor }

  /** `now - (now % 86400) + 86400`, with Python's floor modulo. */
  function NextMidnight(now: real): real { now - (now - DAY * Day(now) as real) + DAY }

  /** The next reset is the least multiple of 86400 above the current time. */
  lemma NextMidnightIsNext(now: real, m: int)
    ensures NextMidnight(now) == DAY * (Day(now) + 1) as real && now < NextMidnight(now) <= now + DAY
    ensures now < DAY * m as real ==> NextMidnight(now) <= DAY * m as real
  {
    if now < DAY * m as real {
      assert now / DAY < m as real;
      assert Day(now) + 1 <= m;
    }
  }

  /** `_reset_daily_if_needed`. */
  function Roll(m: Meter, now: real): Meter {
    if now >= m.reset then m.(count := 0, reset := NextMidnight(now)) else m
  }

  /** Whether a lookup that misses the cache goes out, once the meter has been rolled. */
  predicate Admits(m: Meter, now: real, quota: nat) { m.count < quota && now >= m.limitedUntil }

  /** An answer arrived; a 429 carries a cooldown. */
  function Charge(m: Meter, limitedUntil: Option<real>): Meter {
    m.(count := m.count + 1, limitedUntil := if limitedUntil.Some? then limitedUntil.value else m.limitedUntil)
  }

  // ───────────────────────── concurrent callers ─────────────────────────

  /** k callers in one process; `flying[c]` is the day caller c's outstanding request was started on. `answered` (start
      days of answered requests) and `rolled` (day of the last budget check) are history. */
  datatype State = State(clock: real, meter: Meter, flying: seq<Option<int>>, answered: multiset<int>,
                         rolled: Option<int>)

  datatype Action =
    | Check(c: nat, now: real)
    | Answer(c: nat, now: real, limitedUntil: Option<real>)
    | Fail(c: nat, now: real)

  function Initial(k: nat): State { State(0.0, Meter(0, 0.0, 0.0), seq(k, _ => None), multiset{}, None) }

  function Next(s: State, a: Action, quota: nat): State {
    if a.now < s.clock || a.c >= |s.flying| then s else
    match a
    case Check(c, now) =>
      if s.flying[c].Some? then s else
      var m := Roll(s.meter, now);
      s.(clock := now, meter := m, rolled := Some(Day(now)),
         flying := if Admits(m, now, quota) then s.flying[c := Some(Day(now))] else s.flying)
    case Answer(c, now, limited) =>
      if s.flying[c].None? then s else
      s.(clock := now, meter := Charge(s.meter, limited), flying := s.flying[c := None],
         answered := s.answered + multiset{s.flying[c].value})
    case Fail(c, now) => s.(clock := now, flying := s.flying[c := None])
  }

  function Run(s: State, acts: seq<Action>, quota: nat): State {
    if acts == [] then s else Next(Run(s, acts[..|acts| - 1], quota), acts[|acts| - 1], quota)
  }

  /** Requests started on a day that are answered or still in flight. */
  function Spent(s: State, day: int): nat { s.answered[day] + Count(s.flying, Some(day)) }

  lemma {:induction false} CountUpdate<T>(s: seq<T>, i: nat, x: T, y: T)
    requires i < |s|
    ensures Count(s[i := x], y) + (if s[i] == y then 1 else 0) == Count(s, y) + (if x == y then 1 else 0)
  {
    var n := |s| - 1;
    if i == n {
      assert s[i := x][..n] == s[..n];
    } else {
      CountUpdate(s[..n], i, x, y);
      assert s[i := x][..n] == s[..n][i := x];
    }
  }

  lemma {:induction false} CountAtMost<T>(s: seq<T>, i: nat, y: T)
    requires i < |s| && s[i] != y
    ensures Count(s, y) <= |s| - 1
  {
    var n := |s| - 1;
    if i < n { CountAtMost(s[..n], i, y); } else { CountWithin(s[..n], y); }
  }

  lemma {:induction false} CountWithin<T>(s: seq<T>, y: T)
    ensures Count(s, y) <= |s|
  {
    if s != [] { CountWithin(s[..|s| - 1], y); }
  }

  lemma {:induction false} CountNone(s: seq<Option<int>>, d: int)
    requires forall i :: 0 <= i < |s| ==> s[i].None?
    ensures Count(s, Some(d)) == 0
  {
    if s != [] { CountNone(s[..|s| - 1], d); }
  }

  ghost predicate Inv(s: State, quota: nat) {
    && s.clock >= 0.0
    && (s.rolled.None? ==> s.meter.reset == 0.0)
    && (s.rolled.Some? ==>
          && s.meter.reset == DAY * (s.rolled.value + 1) as real
          && s.rolled.value <= Day(s.clock)
          && s.answered[s.rolled.value] <= s.meter.count)
    && (forall d :: s.rolled.None? || d > s.rolled.value ==> Spent(s, d) == 0)
    && (forall d :: Spent(s, d) <= quota + |s.flying| - 1 || Spent(s, d) == 0)
  }

  lemma CheckStep(s: State, c: nat, now: real, quota: nat)
    requires Inv(s, quota) && c < |s.flying| && now >= s.clock && s.flying[c].None?
    ensures Inv(Next(s, Check(c, now), quota), quota)
  {
    var s' := Next(s, Check(c, now), quota);
    var today := Day(now);
    assert Day(s.clock) <= today;
    assert s'.rolled == Some(today) && s'.meter.reset == DAY * (today + 1) as real;
    assert s.rolled.None? || today > s.rolled.value ==> Spent(s, today) == 0;
    assert s'.answered[today] <= s'.meter.count;
    forall d ensures Spent(s', d) == Spent(s, d) + (if s'.flying != s.flying && d == today then 1 else 0) {
      CountUpdate(s.flying, c, Some(today), Some(d));
    }
    CountAtMost(s.flying, c, Some(today));
  }

  lemma ReturnStep(s: State, a: Action, quota: nat)
    requires Inv(s, quota) && !a.Check?
    ensures Inv(Next(s, a, quota), quota)
  {
    var s' := Next(s, a, quota);
    if s' != s {
      assert Day(s.clock) <= Day(s'.clock);
      forall d ensures Spent(s', d) <= Spent(s, d) { CountUpdate(s.flying, a.c, None, Some(d)); }
    }
  }

  /** However many lookups overlap, requests started in one UTC day that are answered or in flight never exceed the
      quota by more than the number of other callers; a single caller never exceeds it. */
  lemma {:induction false} DailyBudgetHolds(k: nat, acts: seq<Action>, quota: nat, day: int)
    requires k >= 1
    ensures var s := Run(Initial(k), acts, quota);
            Inv(s, quota) && |s.flying| == k && Spent(s, day) <= quota + k - 1
  {
    if acts == [] {
      forall d ensures Spent(Initial(k), d) == 0 { CountNone(Initial(k).flying, d); }
    } else {
      var before := Run(Initial(k), acts[..|acts| - 1], quota);
      var a := acts[|acts| - 1];
      DailyBudgetHolds(k, acts[..|acts| - 1], quota, day);
      if a.Check? && a.now >= before.clock && a.c < k && before.flying[a.c].None? {
        CheckStep(before, a.c, a.now, quota);
      } else if !a.Check? {
        ReturnStep(before, a, quota);
      }
    }
  }

  // ───────────────────────── the bound is reached ─────────────────────────

  /** A set of states no step leaves, such as those some run reaches. */
  ghost predicate Closed(reached: State -> bool, quota: nat) {
    forall s, a :: reached(s) ==> reached(Next(s, a, quota))
  }

  /** Time stands still at the start of day 0, n requests have been answered, and callers 0 .. j - 1 have theirs out. */
  ghost predicate Early(s: State, k: nat, n: nat, j: nat) {
    && s.clock == 0.0 && s.answered[0] == s.meter.count == n && s.meter.limitedUntil == 0.0
    && (s.meter.reset == DAY || (n == 0 && s.meter.reset == 0.0))
    && |s.flying| == k && Count(s.flying, Some(0)) == j
    && forall c :: 0 <= c < k ==> s.flying[c] == if c < j then Some(0) else None
  }

  lemma EarlyCheck(s: State, k: nat, n: nat, j: nat, quota: nat)
    requires Early(s, k, n, j) && n < quota && j < k
    ensures var s' := Next(s, Check(j, 0.0), quota); Early(s', k, n, j + 1) && s'.meter.reset == DAY
  {
    assert Day(0.0) == 0;
    CountUpdate(s.flying, j, Some(0), Some(0));
  }

  lemma EarlyAnswer(s: State, k: nat, n: nat, quota: nat)
    requires Early(s, k, n, 1) && s.meter.reset == DAY && k >= 1
    ensures Early(Next(s, Answer(0, 0.0, None), quota), k, n + 1, 0)
  {
    CountUpdate(s.flying, 0, None, Some(0));
  }

  lemma {:induction false} OneByOne(reached: State -> bool, k: nat, n: nat, quota: nat) returns (s: State)
    requires Closed(reached, quota) && reached(Initial(k)) && k >= 1 && n < quota
    ensures reached(s) && Early(s, k, n, 0)
  {
    if n == 0 {
      s := Initial(k);
      CountNone(s.flying, 0);
    } else {
      s := OneByOne(reached, k, n - 1, quota);
      EarlyCheck(s, k, n - 1, 0, quota);
      EarlyAnswer(Next(s, Check(0, 0.0), quota), k, n - 1, quota);
      s := Next(Next(s, Check(0, 0.0), quota), Answer(0, 0.0, None), quota);
    }
  }

  lemma {:induction false} AllAtOnce(reached: State -> bool, k: nat, n: nat, j: nat, quota: nat) returns (s: State)
    requires Closed(reached, quota) && reached(Initial(k)) && 1 <= k && j <= k && n < quota
    ensures reached(s) && Early(s, k, n, j)
  {
    if j == 0 {
      s := OneByOne(reached, k, n, quota);
    } else {
      s := AllAtOnce(reached, k, n, j - 1, quota);
      EarlyCheck(s, k, n, j - 1, quota);
      s := Next(s, Check(j - 1, 0.0), quota);
    }
  }

  /** The bound is exact: k callers that check together after quota - 1 answers do spend quota + k - 1 in one day. */
  lemma BudgetBoundIsReached(k: nat, quota: nat)
    requires k >= 1 && quota >= 1
    ensures exists acts :: Spent(Run(Initial(k), acts, quota), 0) == quota + k - 1
  {
    var reached := s => exists acts :: Run(Initial(k), acts, quota) == s;
    forall s, a | reached(s) ensures reached(Next(s, a, quota)) {
      var acts :| Run(Initial(k), acts, quota) == s;
      assert (acts + [a])[..|acts|] == acts;
      assert Run(Initial(k), acts + [a], quota) == Next(s, a, quota);
    }
    assert Run(Initial(k), [], quota) == Initial(k);
    var _ := AllAtOnce(reached, k, quota - 1, k, quota);
  }

  // ───────────────────────── the provider object ─────────────────────────

  /** How a lookup begins: from the cache, without a key, as a stub that spends nothing, or with a request. */
  datatype Begun<E> = FromCache(e: E) | NoKey | QuotaExhausted | RateLimited | Sent

  /** Whether a lookup sends a request: nothing in the cache that is young enough, a key, a budget that is not spent
      once the day is taken into account, and no cooldown. */
  predicate Sends(cachedAt: Option<real>, ttl: real, key: bool, meter: Meter, quota: nat, now: real) {
    && !(cachedAt.Some? && now - cachedAt.value < ttl) && key
    && (meter.count < quota || (now >= meter.reset && quota > 0)) && now >= meter.limitedUntil
  }

  class AbuseIpdb<E> {
    const quota: nat
    const maxCache: nat
    const ttl: real
    var cache: map<string, E>
    var cacheTs: map<string, real>
    var meter: Meter

    predicate Valid() reads this { maxCache >= 1 && cache.Keys == cacheTs.Keys && |cache| <= maxCache }

    function CachedAt(ip: string): Option<real> reads this {
      if ip in cacheTs then Some(cacheTs[ip]) else None
    }

    constructor (quota: nat, maxCache: nat, ttl: real)
      requires maxCache >= 1
      ensures Valid() && meter == Initial(1).meter && this.quota == quota && this.maxCache == maxCache
          && this.ttl == ttl
      ensures cache == map[]
    {
      this.quota, this.maxCache, this.ttl := quota, maxCache, ttl;
      cache, cacheTs, meter := map[], map[], Meter(0, 0.0, 0.0);
    }

    /** `enrich` up to the await: only an answer younger than the ttl avoids the meter, and a request goes out exactly
        when the rolled meter admits it. */
    method Begin(ip: string, key: bool, now: real) returns (r: Begun<E>)
      requires Valid()
      modifies this`meter
      ensures Valid()
      ensures r.FromCache? <==> ip in cache && now - cacheTs[ip] < ttl
      ensures r.FromCache? ==> r.e == cache[ip]
      ensures meter == if r.FromCache? || r.NoKey? then old(meter) else Roll(old(meter), now)
      ensures r.Sent? <==> Sends(old(CachedAt(ip)), ttl, key, old(meter), quota, now)
      ensures r.NoKey? <==> !r.FromCache? && !key
      ensures r.QuotaExhausted? <==> !r.FromCache? && key && meter.count >= quota
    {
      if ip in cache && now - cacheTs[ip] < ttl { return FromCache(cache[ip]); }
      if !key { return NoKey; }
      if now >= meter.reset {
        meter := meter.(count := 0);
        meter := meter.(reset := now - (now - DAY * Day(now) as real) + DAY);
      }
      if meter.count >= quota { return QuotaExhausted; }
      if now < meter.limitedUntil { return RateLimited; }
      return Sent;
    }

    /** `enrich` after the await: any answer is charged, a failed request is not; a 429 is not cached. */
    method Finish(ip: string, e: E, answered: bool, limitedUntil: Option<real>, now: real)
      requires Valid() && (limitedUntil.Some? ==> answered)
      modifies this
      ensures Valid()
      ensures meter == if answered then Charge(old(meter), limitedUntil) else old(meter)
      ensures limitedUntil.Some? ==> cache == old(cache) && cacheTs == old(cacheTs)
      ensures limitedUntil.None? ==> ip in cache && cache[ip] == e && cacheTs[ip] == now
      ensures limitedUntil.None? && |old(cache)| < maxCache ==> cache == old(cache)[ip := e]
      ensures forall k :: k in cache && k != ip ==> k in old(cache) && cache[k] == old(cache)[k]
    {
      if answered { meter := meter.(count := meter.count + 1); }
      if limitedUntil.Some? {
        meter := meter.(limitedUntil := limitedUntil.value);
        return;
      }
      var _ := CachePut(ip, e, now);
    }

    /** `_cache_put`: the cache never outgrows its cap, the new answer is in it, at most one other entry goes, and that
        one was the oldest. */
    method CachePut(ip: string, e: E, now: real) returns (evicted: Option<string>)
      requires Valid()
      modifies this`cache, this`cacheTs
      ensures Valid()
      ensures evicted.Some? <==> |old(cache)| >= maxCache
      ensures evicted.Some? ==> evicted.value in old(cacheTs)
      ensures evicted.Some? ==> forall k :: k in old(cacheTs) ==> old(cacheTs)[evicted.value] <= old(cacheTs)[k]
      ensures cache == (if evicted.Some? then old(cache) - {evicted.value} else old(cache))[ip := e]
      ensures cacheTs == (if evicted.Some? then old(cacheTs) - {evicted.value} else old(cacheTs))[ip := now]
    {
      cache, cacheTs, evicted := PutCapped(cache, cacheTs, maxCache, ip, e, now);
    }
  }

  /** A cache that is full makes room by dropping the entry written longest ago. */
  method PutCapped<E>(cache: map<string, E>, cacheTs: map<string, real>, maxCache: nat, ip: string, e: E, now: real)
    returns (cache': map<string, E>, cacheTs': map<string, real>, evicted: Option<string>)
    requires maxCache >= 1 && cache.Keys == cacheTs.Keys && |cache| <= maxCache
    ensures cache'.Keys == cacheTs'.Keys && |cache'| <= maxCache
    ensures evicted.Some? <==> |cache| >= maxCache
    ensures evicted.Some? ==> evicted.value in cacheTs
    ensures evicted.Some? ==> forall k :: k in cacheTs ==> cacheTs[evicted.value] <= cacheTs[k]
    ensures cache' == (if evicted.Some? then cache - {evicted.value} else cache)[ip := e]
    ensures cacheTs' == (if evicted.Some? then cacheTs - {evicted.value} else cacheTs)[ip := now]
  {
    evicted := None;
    cache', cacheTs' := cache, cacheTs;
    if |cache| >= maxCache {
      var oldest := Oldest(cacheTs);
      evicted := Some(oldest);
      cache', cacheTs' := cache - {oldest}, cacheTs - {oldest};
      assert cache'.Keys == cache.Keys - {oldest};
    }
    assert (cache'[ip := e]).Keys == cache'.Keys + {ip};
    cache', cacheTs' := cache'[ip := e], cacheTs'[ip := now];
  }

  /** `min(ts, key=ts.get)`. */
  method Oldest(ts: map<string, real>) returns (oldest: string)
    requires |ts| > 0
    ensures oldest in ts && forall k :: k in ts ==> ts[oldest] <= ts[k]
  {
    oldest :| oldest in ts;
    var rest := ts.Keys - {oldest};
    while rest != {}
      invariant oldest in ts && rest <= ts.Keys
      invariant forall k :: k in ts && k !in rest ==> ts[oldest] <= ts[k]
      decreases |rest|
    {
      var k :| k in rest;
      if ts[k] < ts[oldest] { oldest := k; }
      rest := rest - {k};
    }
  }
}
