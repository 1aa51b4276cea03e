/** The two-tier provider (enrichment/providers.py, `TieredProvider.enrich`) and the hourly selection that retries what
    it had to defer (enrichment/worker.py, `refresh_loop`). */
module Tiered {
  import opened Prelude
  import opened Merge
  import opened Providers
  import B = Budget

  datatype Gate = Gate(minEvents: int, minScore: real, highScore: real)

  /** What a Tier-1 feed's lookup does. */
  datatype Lookup = Miss | Hit(e: Enrichment) | Raises

  /** What the provider reports about its own run. */
  datatype Report = Report(flagged: bool, ran: seq<string>, deferred: seq<string>, geoSource: string)

  /** The stub test: the provider spent no quota. */
  predicate Deferred(r: Result) { r.Answer? && (r.e.raw.rateLimited || r.e.raw.quotaExhausted) }

  predicate Inconclusive(r: Result) { r.Error? || r.e.reputation == "unknown" }

  /** Tier-1 hits and failures, in consultation order. */
  function Tier1(lookups: seq<(string, Lookup)>): seq<(string, Result)> {
    if lookups == [] then []
    else
      var (name, l) := lookups[|lookups| - 1];
      Tier1(lookups[..|lookups| - 1])
      + (match l case Miss => [] case Hit(e) => [(name, Answer(e))] case Raises => [(name, Error)])
  }

  /** Tier 2 is asked only for active addresses, and the paid providers only for hot ones GreyNoise cannot place. */
  function Tier2(gate: Gate, events: int, score: real, greynoise: Result, paid: seq<(string, Result)>)
    : seq<(string, Result)>
  {
    if !(events >= gate.minEvents || score >= gate.minScore) then []
    else [("greynoise", greynoise)] + (if score >= gate.highScore && Inconclusive(greynoise) then paid else [])
  }

  function Names(rs: seq<(string, Result)>, deferred: bool): seq<string> {
    if rs == [] then []
    else Names(rs[..|rs| - 1], deferred) + (if Deferred(rs[|rs| - 1].1) == deferred then [rs[|rs| - 1].0] else [])
  }

  ghost predicate Alarming(rs: seq<(string, Result)>) {
    exists i :: 0 <= i < |rs| && rs[i].1.Answer? && Severity(rs[i].1.e.reputation) >= 2
  }

  ghost predicate AnyDeferred(rs: seq<(string, Result)>) { exists i :: 0 <= i < |rs| && Deferred(rs[i].1) }

  lemma NamesSnoc(rs: seq<(string, Result)>, x: (string, Result), deferred: bool)
    ensures Names(rs + [x], deferred) == Names(rs, deferred) + (if Deferred(x.1) == deferred then [x.0] else [])
  {
    assert (rs + [x])[..|rs|] == rs;
  }

  /** Feed i, unless it misses, comes right after what the feeds before it answered. */
  lemma {:induction false} Tier1At(lookups: seq<(string, Lookup)>, i: nat)
    requires i < |lookups| && !lookups[i].1.Miss?
    ensures var (name, l) := lookups[i];
            var k := |Tier1(lookups[..i])|;
            && k < |Tier1(lookups)|
            && Tier1(lookups)[k] == (name, if l.Hit? then Answer(l.e) else Error)
  {
    var n := |lookups| - 1;
    if i < n {
      assert lookups[..n][..i] == lookups[..i];
      Tier1At(lookups[..n], i);
    }
  }

  /** And nothing else does. */
  lemma {:induction false} Tier1Size(lookups: seq<(string, Lookup)>)
    ensures |Tier1(lookups)| == |set i | 0 <= i < |lookups| && !lookups[i].1.Miss?|
  {
    if lookups != [] {
      var n := |lookups| - 1;
      var before := set i | 0 <= i < n && !lookups[..n][i].1.Miss?;
      Tier1Size(lookups[..n]);
      assert (set i | 0 <= i < |lookups| && !lookups[i].1.Miss?)
          == before + (if lookups[n].1.Miss? then {} else {n});
      assert n !in before;
    }
  }

  /** Each result is booked under its provider's name, in order, as run or as deferred. */
  lemma {:induction false} BookedAt(rs: seq<(string, Result)>, i: nat)
    requires i < |rs|
    ensures var deferred := Deferred(rs[i].1);
            var k := |Names(rs[..i], deferred)|;
            k < |Names(rs, deferred)| && Names(rs, deferred)[k] == rs[i].0
  {
    var n := |rs| - 1;
    if i < n {
      assert rs[..n][..i] == rs[..i];
      BookedAt(rs[..n], i);
    }
  }

  lemma {:induction false} BookedOnce(rs: seq<(string, Result)>)
    ensures |Names(rs, true)| + |Names(rs, false)| == |rs|
  {
    if rs != [] { BookedOnce(rs[..|rs| - 1]); }
  }

  /** What a paid provider answers: what it has cached; that it has no key; a stub that counts as deferred if its budget
      is spent or a cooldown on; or what its request met with, of which only a 429 counts as deferred. */
  lemma PaidAnswers(p: Paid, c: Call)
    ensures var t, young := AskPaid(p, c), Fresh(p.cached, p.ttl, c.at);
            && (t.sent <==> PaidSends(p, c.at))
            && (young ==> t.e == p.cached.value.e)
            && (!young && !p.key ==> t.e.categories == ["api-key-missing"])
            && (!young && p.key && !t.sent ==> Deferred(Answer(t.e)))
            && (t.sent && c.reply.Replied? ==> t.e == c.reply.e)
            && (t.sent && !c.reply.Replied? ==> (Deferred(Answer(t.e)) <==> c.reply.Limited?))
            && (!young && !(t.sent && c.reply.Replied?) ==> t.e.reputation == "unknown" && Places(t.e) == {})
            && (!young && !p.key ==> !Deferred(Answer(t.e)))
  {
  }

  lemma GreyNoiseAnswers(p: Community, c: Call)
    ensures var t, young := AskGreyNoise(p, c), Fresh(p.cached, GREYNOISE_TTL, c.at);
            && (t.sent <==> GreyNoiseSends(p, c.at))
            && (young ==> t.e == p.cached.value.e)
            && (!young && !t.sent ==> Deferred(Answer(t.e)))
            && (t.sent && c.reply.Replied? ==> t.e == c.reply.e)
            && (t.sent && !c.reply.Replied? ==> (Deferred(Answer(t.e)) <==> c.reply.Limited?))
            && (!young && !(t.sent && c.reply.Replied?) ==> t.e.reputation == "unknown" && Places(t.e) == {})
  {
  }

  /** The country, AS and organisation of an answer, if any. */
  function Places(e: Enrichment): set<string> {
    (if e.country.Some? then {e.country.value} else {}) + (if e.asn.Some? then {e.asn.value} else {})
    + (if e.org.Some? then {e.org.value} else {})
  }

  predicate HasGeo(r: Result) { r.Answer? && (r.e.country.Some? || r.e.asn.Some?) }

  /** Every feed is consulted, in order; a raising one is recorded and passed over. */
  method ConsultFeeds(lookups: seq<(string, Lookup)>) returns (named: seq<(string, Result)>, flagged: bool)
    ensures named == Tier1(lookups)
    ensures flagged <==> Alarming(named)
  {
    named, flagged := [], false;
    for i := 0 to |lookups|
      invariant named == Tier1(lookups[..i])
      invariant flagged <==> Alarming(named)
    {
      var (name, l) := lookups[i];
      ghost var before := named;
      match l {
        case Miss =>
        case Raises => named := named + [(name, Error)];
        case Hit(e) =>
          named := named + [(name, Answer(e))];
          if Severity(e.reputation) >= 2 { flagged := true; }
          assert named[|named| - 1].1 == Answer(e);
      }
      assert forall k :: 0 <= k < |before| ==> named[k] == before[k];
      assert lookups[..i + 1][..i] == lookups[..i];
    }
    assert lookups[..|lookups|] == lookups;
  }

  /** Result i is the first with a country or an AS. */
  predicate IsFirstGeo(named: seq<(string, Result)>, i: nat)
    requires i < |named|
  {
    && named[i].1.Answer? && (named[i].1.e.country.Some? || named[i].1.e.asn.Some?)
    && forall j :: 0 <= j < i && named[j].1.Answer? ==> named[j].1.e.country.None? && named[j].1.e.asn.None?
  }

  /** The first feed that knows a country or an AS, or "none". */
  ghost predicate IsGeoSource(named: seq<(string, Result)>, source: string) {
    || (source == "none"
        && forall i :: 0 <= i < |named| && named[i].1.Answer? ==> named[i].1.e.country.None? && named[i].1.e.asn.None?)
    || exists i :: 0 <= i < |named| && IsFirstGeo(named, i) && source == named[i].0
  }

  /** The country or AS of the first feed that knows either is the merged one, where that feed has it. */
  lemma GeoIsMerged(named: seq<(string, Result)>, asked: seq<(string, Result)>, i: nat)
    requires i < |named| && IsFirstGeo(named, i)
    ensures var e, merged := named[i].1.e, MergeAll(named + asked);
            && (e.country.Some? ==> merged.country == e.country) && (e.asn.Some? ==> merged.asn == e.asn)
  {
    var all, e := named + asked, named[i].1.e;
    PlaceIs(all);
    assert forall j :: 0 <= j <= i ==> all[j] == named[j];
    if e.country.Some? { assert IsFirst(all, (x: Enrichment) => x.country, i); }
    if e.asn.Some? { assert IsFirst(all, (x: Enrichment) => x.asn, i); }
  }

  method GeoSource(named: seq<(string, Result)>) returns (source: string)
    ensures IsGeoSource(named, source)
  {
    for g := 0 to |named|
      invariant forall j :: 0 <= j < g ==> !HasGeo(named[j].1)
    {
      if HasGeo(named[g].1) { return named[g].0; }
    }
    return "none";
  }

  /** Tier 2 as gated; each answer is booked once, as run or as deferred. */
  method AskTier2(gate: Gate, events: int, score: real, greynoise: Result, paid: seq<(string, Result)>)
    returns (asked: seq<(string, Result)>, ran: seq<string>, deferred: seq<string>)
    ensures asked == Tier2(gate, events, score, greynoise, paid)
    ensures asked == if events < gate.minEvents && score < gate.minScore then []
                     else if score >= gate.highScore && (greynoise.Error? || greynoise.e.reputation == "unknown")
                     then [("greynoise", greynoise)] + paid else [("greynoise", greynoise)]
    ensures ran == Names(asked, false) && deferred == Names(asked, true)
  {
    asked, ran, deferred := [], [], [];
    if events >= gate.minEvents || score >= gate.minScore {
      asked := [("greynoise", greynoise)];
      if Deferred(greynoise) { deferred := ["greynoise"]; } else { ran := ["greynoise"]; }
      if score >= gate.highScore && Inconclusive(greynoise) {
        for i := 0 to |paid|
          invariant asked == [("greynoise", greynoise)] + paid[..i]
          invariant ran == Names(asked, false) && deferred == Names(asked, true)
        {
          NamesSnoc(asked, paid[i], false);
          NamesSnoc(asked, paid[i], true);
          asked := asked + [paid[i]];
          if Deferred(paid[i].1) { deferred := deferred + [paid[i].0]; } else { ran := ran + [paid[i].0]; }
        }
        assert paid[..|paid|] == paid;
      }
    }
  }

  /** One lookup of one address; `paid` are the answers the paid providers would give. The merged record is the merge of
      everything consulted, in that order. */
  method Enrich(gate: Gate, lookups: seq<(string, Lookup)>, events: int, score: real, greynoise: Result,
                paid: seq<(string, Result)>)
    returns (merged: Merged, report: Report)
    ensures merged == MergeAll(Tier1(lookups) + Tier2(gate, events, score, greynoise, paid))
    ensures report.ran == Names(Tier2(gate, events, score, greynoise, paid), false)
    ensures report.deferred == Names(Tier2(gate, events, score, greynoise, paid), true)
    ensures report.flagged <==> Alarming(Tier1(lookups))
    ensures IsGeoSource(Tier1(lookups), report.geoSource)
    ensures forall i :: 0 <= i < |Tier1(lookups)| && IsFirstGeo(Tier1(lookups), i) ==>
              var (name, r) := Tier1(lookups)[i];
              && report.geoSource == name
              && (r.e.country.Some? ==> merged.country == r.e.country) && (r.e.asn.Some? ==> merged.asn == r.e.asn)
  {
    var named, flagged := ConsultFeeds(lookups);
    var geoSource := GeoSource(named);
    var asked, ran, deferred := AskTier2(gate, events, score, greynoise, paid);
    forall i | 0 <= i < |named| && IsFirstGeo(named, i)
      ensures var e, all := named[i].1.e, MergeAll(named + asked);
              && geoSource == named[i].0
              && (e.country.Some? ==> all.country == e.country) && (e.asn.Some? ==> all.asn == e.asn)
    {
      GeoIsMerged(named, asked, i);
    }
    merged := MergeEnrichments(named + asked);
    report := Report(flagged, ran, deferred, geoSource);
  }

  // ───────────────────────── what a lookup spends ─────────────────────────

  /** What the Tier-2 providers hold that bears on the address when they are asked. */
  datatype Standing = Standing(greynoise: Community, paid: seq<Paid>)

  predicate Active(gate: Gate, events: int, score: real) { events >= gate.minEvents || score >= gate.minScore }

  function PaidTurns(paid: seq<Paid>, calls: seq<Call>): (turns: seq<(string, Turn)>)
    requires |calls| == |paid|
  {
    seq(|paid|, i requires 0 <= i < |paid| => (paid[i].name, AskPaid(paid[i], calls[i])))
  }

  function Results(turns: seq<(string, Turn)>): seq<(string, Result)> {
    seq(|turns|, i requires 0 <= i < |turns| => (turns[i].0, Answer(turns[i].1.e)))
  }

  /** The providers asked in one lookup, with what each answers and whether it sends a request for it. */
  function Turns(gate: Gate, events: int, score: real, st: Standing, c: Call, calls: seq<Call>): seq<(string, Turn)>
    requires |calls| == |st.paid|
  {
    var t := AskGreyNoise(st.greynoise, c);
    if !Active(gate, events, score) then []
    else [("greynoise", t)]
         + (if score >= gate.highScore && Inconclusive(Answer(t.e)) then PaidTurns(st.paid, calls) else [])
  }

  /** Requests sent out; a 429 answers one. */
  function Sent(turns: seq<(string, Turn)>): nat {
    if turns == [] then 0 else Sent(turns[..|turns| - 1]) + (if turns[|turns| - 1].1.sent then 1 else 0)
  }

  lemma {:induction false} SentNothingIff(turns: seq<(string, Turn)>)
    ensures Sent(turns) == 0 <==> forall i :: 0 <= i < |turns| ==> !turns[i].1.sent
  {
    if turns != [] {
      var front := turns[..|turns| - 1];
      SentNothingIff(front);
      assert forall i :: 0 <= i < |front| ==> front[i] == turns[i];
    }
  }

  lemma {:induction false} AllSent(turns: seq<(string, Turn)>)
    requires forall i :: 0 <= i < |turns| ==> turns[i].1.sent
    ensures Sent(turns) == |turns|
  {
    if turns != [] { AllSent(turns[..|turns| - 1]); }
  }

  lemma TurnsAreTier2(gate: Gate, events: int, score: real, st: Standing, c: Call, calls: seq<Call>)
    requires |calls| == |st.paid|
    ensures Results(Turns(gate, events, score, st, c, calls))
         == Tier2(gate, events, score, Answer(AskGreyNoise(st.greynoise, c).e), Results(PaidTurns(st.paid, calls)))
  {
    var t := AskGreyNoise(st.greynoise, c);
    if score >= gate.highScore && Inconclusive(Answer(t.e)) && Active(gate, events, score) {
      assert Turns(gate, events, score, st, c, calls)[1..] == PaidTurns(st.paid, calls);
    }
  }

  /** Known before any provider is asked, and whatever they would answer: the lookup sends no request. */
  predicate CostsNothing(gate: Gate, events: int, score: real, st: Standing, at: real, times: seq<real>)
    requires |times| == |st.paid|
  {
    var cached := Fresh(st.greynoise.cached, GREYNOISE_TTL, at);
    || (events < gate.minEvents && score < gate.minScore)
    || (cached && st.greynoise.cached.value.e.reputation != "unknown")
    || ((cached || at < st.greynoise.limitedUntil)
        && (score < gate.highScore || forall i :: 0 <= i < |st.paid| ==> !PaidSends(st.paid[i], times[i])))
  }

  function Times(calls: seq<Call>): seq<real> { seq(|calls|, i requires 0 <= i < |calls| => calls[i].at) }

  /** A lookup sends nothing if and only if the address is inactive, GreyNoise has a verdict in its cache, or GreyNoise
      has an unknown there or is in a cooldown and, if the address is hot, each paid provider has an answer cached,
      lacks a key, has spent its budget or is in a cooldown. */
  lemma SpendsNothingIff(gate: Gate, events: int, score: real, st: Standing, c: Call, calls: seq<Call>)
    requires |calls| == |st.paid|
    ensures Sent(Turns(gate, events, score, st, c, calls)) == 0
       <==> CostsNothing(gate, events, score, st, c.at, Times(calls))
  {
    var turns := Turns(gate, events, score, st, c, calls);
    SentNothingIff(turns);
    if turns != [] {
      assert turns[0].1 == AskGreyNoise(st.greynoise, c);
      GreyNoiseAnswers(st.greynoise, c);
      forall i | 0 <= i < |st.paid| ensures AskPaid(st.paid[i], calls[i]).sent <==> PaidSends(st.paid[i], calls[i].at) {
        PaidAnswers(st.paid[i], calls[i]);
      }
      if score >= gate.highScore && Inconclusive(Answer(turns[0].1.e)) {
        assert turns[1..] == PaidTurns(st.paid, calls);
        assert forall i :: 0 <= i < |st.paid| ==> turns[i + 1].1 == AskPaid(st.paid[i], calls[i]);
      }
    }
  }

  /** An address listed by a feed has its verdict from there, and still costs as much as any other. */
  lemma ListedSpendsNothingIff(gate: Gate, lookups: seq<(string, Lookup)>, events: int, score: real, st: Standing,
                               c: Call, calls: seq<Call>)
    requires Alarming(Tier1(lookups)) && |calls| == |st.paid|
    ensures var turns := Turns(gate, events, score, st, c, calls);
            && MergeAll(Tier1(lookups) + Results(turns)).reputation != "unknown"
            && (Sent(turns) == 0 <==> CostsNothing(gate, events, score, st, c.at, Times(calls)))
  {
    var t1, turns := Tier1(lookups), Turns(gate, events, score, st, c, calls);
    var i :| 0 <= i < |t1| && t1[i].1.Answer? && Severity(t1[i].1.e.reputation) >= 2;
    assert (t1 + Results(turns))[i] == t1[i];
    UnknownIsQuiet(t1 + Results(turns));
    SpendsNothingIff(gate, events, score, st, c, calls);
  }

  predicate UnspentPaid(p: Paid) { p.cached.None? && p.key && p.quota >= 1 && p.meter == B.Initial(1).meter }

  /** Nothing cached for the address, no cooldown, and of each paid provider a key and an untouched budget. */
  predicate Unspent(st: Standing) {
    st.greynoise == Community(None, 0.0) && forall i :: 0 <= i < |st.paid| ==> UnspentPaid(st.paid[i])
  }

  lemma UnspentSends(p: Paid, c: Call)
    requires UnspentPaid(p) && c.at >= 0.0
    ensures AskPaid(p, c).sent
  {
  }

  /** With providers just started, a listed, active address spends a GreyNoise request whatever comes back, and a hot
      one that GreyNoise has no verdict on a request of every paid provider besides. */
  lemma ListedAddressSpends(gate: Gate, lookups: seq<(string, Lookup)>, events: int, score: real, st: Standing,
                            c: Call, calls: seq<Call>)
    requires Alarming(Tier1(lookups)) && Active(gate, events, score) && Unspent(st) && |calls| == |st.paid|
    requires c.at >= 0.0 && forall i :: 0 <= i < |calls| ==> calls[i].at >= 0.0
    ensures var turns := Turns(gate, events, score, st, c, calls);
            && MergeAll(Tier1(lookups) + Results(turns)).reputation != "unknown"
            && Sent(turns) == 1 + (if score >= gate.highScore && AfterReply(c.reply).reputation == "unknown"
                                   then |st.paid| else 0)
  {
    var turns := Turns(gate, events, score, st, c, calls);
    ListedSpendsNothingIff(gate, lookups, events, score, st, c, calls);
    forall i | 0 <= i < |st.paid| ensures AskPaid(st.paid[i], calls[i]).sent {
      UnspentSends(st.paid[i], calls[i]);
    }
    AllSent(turns);
  }

  // ───────────────────────── the retry of what was deferred ─────────────────────────

  /** The columns of an ip_enrichment row the hourly selection reads. */
  datatype Row = Row(reputation: string, deferred: seq<string>, updatedAt: real)

  const HOUR := 3600.0

  /** The clause for rows that never got a verdict because a quota gate deferred the lookup. */
  predicate RetriesDeferred(row: Row, now: real) {
    row.reputation == "unknown" && |row.deferred| > 0 && row.updatedAt < now - 6.0 * HOUR
  }

  /** The WHERE clause; `stale` is the cache lifetime. */
  predicate Selected(row: Option<Row>, lastSeen: real, now: real, stale: real) {
    row.None?
    || (lastSeen > now - 24.0 * HOUR && row.value.updatedAt < now - stale)
    || RetriesDeferred(row.value, now)
  }

  /** An address without a row is always selected, one with a row if it was seen within a day and the row is stale, or
      if the lookup was deferred more than six hours ago and gave no verdict. */
  lemma SelectedIff(row: Option<Row>, lastSeen: real, now: real, stale: real)
    ensures row.None? ==> Selected(row, lastSeen, now, stale)
    ensures row.Some? ==>
              (Selected(row, lastSeen, now, stale)
               <==> (now - lastSeen < 86400.0 && now - row.value.updatedAt > stale)
                    || (row.value.reputation == "unknown" && row.value.deferred != []
                        && now - row.value.updatedAt > 21600.0))
  {
  }

  lemma {:induction false} NamesDeferred(rs: seq<(string, Result)>)
    ensures Names(rs, true) != [] <==> AnyDeferred(rs)
  {
    if rs != [] {
      var front := rs[..|rs| - 1];
      NamesDeferred(front);
      if AnyDeferred(front) {
        var i :| 0 <= i < |front| && Deferred(front[i].1);
        assert rs[i] == front[i];
      }
      if AnyDeferred(rs) && !Deferred(rs[|rs| - 1].1) {
        var i :| 0 <= i < |rs| && Deferred(rs[i].1);
        assert front[i] == rs[i];
      }
    }
  }

  lemma UnknownIsQuiet(rs: seq<(string, Result)>)
    ensures MergeAll(rs).reputation == "unknown" <==> !Alarming(rs)
  {
    VerdictIs(rs);
    if Reported(rs, "malicious") {
      var i :| 0 <= i < |rs| && rs[i].1.Answer? && rs[i].1.e.reputation == "malicious";
      assert Severity(rs[i].1.e.reputation) >= 2;
    }
    if Reported(rs, "suspicious") {
      var i :| 0 <= i < |rs| && rs[i].1.Answer? && rs[i].1.e.reputation == "suspicious";
      assert Severity(rs[i].1.e.reputation) >= 2;
    }
    if Alarming(rs) {
      var i :| 0 <= i < |rs| && rs[i].1.Answer? && Severity(rs[i].1.e.reputation) >= 2;
      assert rs[i].1.e.reputation == "malicious" || rs[i].1.e.reputation == "suspicious";
    }
  }

  /** A tiered result stored at `t` is due for the deferred retry more than six hours later, however long ago the
      address was last seen, if and only if some Tier-2 provider was deferred and no source at all reached suspicious or
      worse. A quiet address is selected for no other reason. */
  lemma DeferredRetryIff(gate: Gate, lookups: seq<(string, Lookup)>, events: int, score: real, greynoise: Result,
                         paid: seq<(string, Result)>, t: real, now: real, lastSeen: real, stale: real)
    requires now > t + 6.0 * HOUR
    ensures var t2 := Tier2(gate, events, score, greynoise, paid);
            var row := Row(MergeAll(Tier1(lookups) + t2).reputation, Names(t2, true), t);
            && (RetriesDeferred(row, now) <==> AnyDeferred(t2) && !Alarming(Tier1(lookups) + t2))
            && (RetriesDeferred(row, now) ==> Selected(Some(row), lastSeen, now, stale))
            && (lastSeen <= now - 24.0 * HOUR ==>
                  (Selected(Some(row), lastSeen, now, stale) <==> RetriesDeferred(row, now)))
  {
    var t2 := Tier2(gate, events, score, greynoise, paid);
    UnknownIsQuiet(Tier1(lookups) + t2);
    NamesDeferred(t2);
  }
}
