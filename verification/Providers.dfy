/** The Tier-2 providers on one lookup (enrichment/providers.py, lines 114-395): whether it is answered on the spot or
    sends a request, and what it answers. Time is in seconds. */
module Providers {
  import opened Prelude
  import opened Merge
  import B = Budget

  const GREYNOISE_TTL := 3600.0
  const ABUSEIPDB_RETRY := 3600.0

  /** The answer before anything is known. */
  const PLAIN := Enrichment(None, None, None, "unknown", 0.0, [], false, Raw(false, false))

  const RATE_LIMITED := PLAIN.(raw := Raw(true, false))
  const QUOTA_EXHAUSTED := PLAIN.(raw := Raw(false, true))
  const NO_KEY := PLAIN.(categories := ["api-key-missing"])

  /** A cached answer and the time it was stored. */
  datatype Cached = Cached(e: Enrichment, at: real)

  predicate Fresh(cached: Option<Cached>, ttl: real, now: real) { cached.Some? && now - cached.value.at < ttl }

  /** What GreyNoise holds that bears on one address. */
  datatype Community = Community(cached: Option<Cached>, limitedUntil: real)

  /** What AbuseIPDB or VirusTotal holds that bears on one address. */
  datatype Paid = Paid(name: string, cached: Option<Cached>, ttl: real, key: bool, meter: B.Meter, quota: nat)

  /** What a request meets with: no answer at all, a 429 with its Retry-After (0 if there is none), any other answer. */
  datatype Reply = Failed | Limited(retry: real) | Replied(e: Enrichment)

  /** One lookup: when it is made, and what a request would meet with. */
  datatype Call = Call(at: real, reply: Reply)

  /** What a lookup answers, and whether it sent a request for it. */
  datatype Turn = Turn(e: Enrichment, sent: bool)

  function AfterReply(reply: Reply): Enrichment {
    match reply
    case Failed => PLAIN
    case Limited(_) => RATE_LIMITED
    case Replied(e) => e
  }

  predicate GreyNoiseSends(p: Community, now: real) { !Fresh(p.cached, GREYNOISE_TTL, now) && now >= p.limitedUntil }

  predicate PaidSends(p: Paid, now: real) {
    B.Sends(if p.cached.Some? then Some(p.cached.value.at) else None, p.ttl, p.key, p.meter, p.quota, now)
  }

  function AskGreyNoise(p: Community, c: Call): Turn {
    if Fresh(p.cached, GREYNOISE_TTL, c.at) then Turn(p.cached.value.e, false)
    else if c.at < p.limitedUntil then Turn(RATE_LIMITED, false)
    else Turn(AfterReply(c.reply), true)
  }

  function AskPaid(p: Paid, c: Call): Turn {
    var m := B.Roll(p.meter, c.at);
    if Fresh(p.cached, p.ttl, c.at) then Turn(p.cached.value.e, false)
    else if !p.key then Turn(NO_KEY, false)
    else if m.count >= p.quota then Turn(QUOTA_EXHAUSTED, false)
    else if c.at < m.limitedUntil then Turn(RATE_LIMITED, false)
    else Turn(AfterReply(c.reply), true)
  }

  // ───────────────────────── the provider objects ─────────────────────────

  function RetryAfter(retry: real, otherwise: real): real { if retry == 0.0 then otherwise else retry }

  class GreyNoise {
    const maxCache: nat
    const cooldown: real
    var cache: map<string, Enrichment>
    var cacheTs: map<string, real>
    var limitedUntil: real

    predicate Valid() reads this { maxCache >= 1 && cache.Keys == cacheTs.Keys && |cache| <= maxCache }

    function Holds(ip: string): Community reads this requires Valid() {
      Community(if ip in cache then Some(Cached(cache[ip], cacheTs[ip])) else None, limitedUntil)
    }

    constructor (maxCache: nat, cooldown: real)
      requires maxCache >= 1
      ensures Valid() && this.maxCache == maxCache && this.cooldown == cooldown
      ensures forall ip :: Holds(ip) == Community(None, 0.0)
    {
      this.maxCache, this.cooldown := maxCache, cooldown;
      cache, cacheTs, limitedUntil := map[], map[], 0.0;
    }

    /** `enrich` up to the await: None means that a request goes out. */
    method Begin(ip: string, now: real) returns (r: Option<Enrichment>)
      requires Valid()
      ensures r.None? <==> GreyNoiseSends(Holds(ip), now)
      ensures forall reply :: AskGreyNoise(Holds(ip), Call(now, reply))
                           == if r.Some? then Turn(r.value, false) else Turn(AfterReply(reply), true)
    {
      if ip in cache && now - cacheTs[ip] < GREYNOISE_TTL { return Some(cache[ip]); }
      if now < limitedUntil { return Some(RATE_LIMITED); }
      return None;
    }

    /** `enrich` after the await: a 429 starts a cooldown, counted from the time of the lookup, and is not cached;
        anything else is, failures too. */
    method Finish(ip: string, now: real, reply: Reply, later: real) returns (e: Enrichment)
      requires Valid()
      modifies this
      ensures Valid() && e == AfterReply(reply)
      ensures limitedUntil == if !reply.Limited? then old(limitedUntil)
                              else if reply.retry == 0.0 then now + cooldown else now + reply.retry
      ensures reply.Limited? ==> cache == old(cache) && cacheTs == old(cacheTs)
      ensures !reply.Limited? ==> Holds(ip).cached == Some(Cached(e, later))
      ensures forall k :: k != ip ==> Holds(k).cached in {old(Holds(k)).cached, None}
    {
      if reply.Limited? {
        limitedUntil := now + RetryAfter(reply.retry, cooldown);
        return RATE_LIMITED;
      }
      e := if reply.Replied? then reply.e else PLAIN;
      ghost var evicted;
      cache, cacheTs, evicted := B.PutCapped(cache, cacheTs, maxCache, ip, e, later);
    }

    /** One undisturbed lookup. Once a request was sent for the address none is for the ttl, or the cooldown. */
    method Enrich(ip: string, c: Call, later: real) returns (t: Turn)
      requires Valid()
      modifies this
      ensures Valid() && t == AskGreyNoise(old(Holds(ip)), c) && (t.sent <==> GreyNoiseSends(old(Holds(ip)), c.at))
      ensures !t.sent ==> cache == old(cache) && cacheTs == old(cacheTs) && limitedUntil == old(limitedUntil)
      ensures t.sent && !c.reply.Limited? ==> forall u :: u < later + GREYNOISE_TTL ==> !GreyNoiseSends(Holds(ip), u)
      ensures t.sent && c.reply.Limited? ==>
                forall u, k :: u < c.at + (if c.reply.retry == 0.0 then cooldown else c.reply.retry) ==>
                                 !GreyNoiseSends(Holds(k), u)
    {
      var r := Begin(ip, c.at);
      if r.Some? { return Turn(r.value, false); }
      var e := Finish(ip, c.at, c.reply, later);
      return Turn(e, true);
    }
  }

  function AbuseIpdbHolds(p: B.AbuseIpdb<Enrichment>, ip: string, key: bool): Paid reads p requires p.Valid() {
    Paid("abuseipdb", if ip in p.cache then Some(Cached(p.cache[ip], p.cacheTs[ip])) else None, p.ttl, key, p.meter,
         p.quota)
  }

  /** One undisturbed lookup of AbuseIPDB: its budget is charged once for a request that was answered, by a 429 too. */
  method AskAbuseIpdb(p: B.AbuseIpdb<Enrichment>, ip: string, key: bool, c: Call, later: real) returns (t: Turn)
    requires p.Valid()
    modifies p
    ensures p.Valid() && t == AskPaid(old(AbuseIpdbHolds(p, ip, key)), c)
    ensures t.sent <==> PaidSends(old(AbuseIpdbHolds(p, ip, key)), c.at)
    ensures t.sent && !c.reply.Failed? ==> p.meter.count == B.Roll(old(p.meter), c.at).count + 1
    ensures t.sent && c.reply.Failed? ==> p.meter == B.Roll(old(p.meter), c.at)
    ensures !t.sent ==> p.meter in {old(p.meter), B.Roll(old(p.meter), c.at)}
    ensures t.sent && !c.reply.Limited? ==> forall u :: u < later + p.ttl ==> !PaidSends(AbuseIpdbHolds(p, ip, key), u)
    ensures t.sent && c.reply.Limited? ==>
              forall u, k :: u < later + (if c.reply.retry == 0.0 then ABUSEIPDB_RETRY else c.reply.retry) ==>
                               !PaidSends(AbuseIpdbHolds(p, k, key), u)
  {
    var r := p.Begin(ip, key, c.at);
    match r {
      case FromCache(e) => return Turn(e, false);
      case NoKey => return Turn(NO_KEY, false);
      case QuotaExhausted => return Turn(QUOTA_EXHAUSTED, false);
      case RateLimited => return Turn(RATE_LIMITED, false);
      case Sent =>
        var e := AfterReply(c.reply);
        p.Finish(ip, e, !c.reply.Failed?,
                 if c.reply.Limited? then Some(later + RetryAfter(c.reply.retry, ABUSEIPDB_RETRY)) else None, later);
        return Turn(e, true);
    }
  }
}
