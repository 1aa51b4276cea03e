/** Merging provider answers (enrichment/providers.py, `merge_enrichments`) and the laws it obeys. */
module Merge {
  import opened Prelude

  /** What a provider's raw payload says about its own request, as the tiered provider reads it. */
  datatype Raw = Raw(rateLimited: bool, quotaExhausted: bool)

  /** `Enrichment`; a country, asn or org that Python takes for false (None or "") is None here. */
  datatype Enrichment = Enrichment(
    country: Option<string>, asn: Option<string>, org: Option<string>,
    reputation: string, confidence: real, categories: seq<string>, attacker: bool, raw: Raw)

  /** One provider's result: an answer or an exception. */
  datatype Result = Answer(e: Enrichment) | Error

  /** The merged record, and per provider name the reputation kept for audit (None for an exception). */
  datatype Merged = Merged(
    country: Option<string>, asn: Option<string>, org: Option<string>,
    reputation: string, confidence: real, categories: seq<string>, attacker: bool,
    audit: map<string, Option<string>>)

  const BLANK := Merged(None, None, None, "unknown", 0.0, [], false, map[])

  /** `_REP_SEVERITY.get(reputation, 0)`. */
  function Severity(reputation: string): nat {
    if reputation == "malicious" then 3 else if reputation == "suspicious" then 2
      else if reputation == "unknown" then 1 else 0
  }

  function Worse(a: string, b: string): string { if Severity(b) > Severity(a) then b else a }

  function FirstOf(a: Option<string>, b: Option<string>): Option<string> { if a.None? then b else a }

  /** Appends the named categories that are not there yet. */
  function AddAll(have: seq<string>, more: seq<string>): seq<string>
    decreases |more|
  {
    if more == [] then have
    else
      var c := more[0];
      AddAll(if c != "" && c !in have then have + [c] else have, more[1..])
  }

  function Step(m: Merged, name: string, r: Result): Merged {
    match r
    case Error => m.(audit := m.audit[name := None])
    case Answer(e) =>
      Merged(FirstOf(m.country, e.country), FirstOf(m.asn, e.asn), FirstOf(m.org, e.org),
             Worse(m.reputation, e.reputation), if e.confidence > m.confidence then e.confidence else m.confidence,
             AddAll(m.categories, e.categories), m.attacker || e.attacker, m.audit[name := Some(e.reputation)])
  }

  function Fold(m: Merged, rs: seq<(string, Result)>): Merged
    decreases |rs|
  {
    if rs == [] then m else Fold(Step(m, rs[0].0, rs[0].1), rs[1..])
  }

  /** What the merge of these results is. */
  function MergeAll(rs: seq<(string, Result)>): Merged { Fold(BLANK, rs) }

  lemma {:induction false} FoldAppend(m: Merged, xs: seq<(string, Result)>, ys: seq<(string, Result)>)
    ensures Fold(m, xs + ys) == Fold(Fold(m, xs), ys)
    decreases |xs|
  {
    if xs == [] {
      assert xs + ys == ys;
    } else {
      assert (xs + ys)[1..] == xs[1..] + ys;
      FoldAppend(Step(m, xs[0].0, xs[0].1), xs[1..], ys);
    }
  }

  /** The merging loop, field by field as the source writes it. */
  method MergeEnrichments(named: seq<(string, Result)>) returns (merged: Merged)
    ensures merged == MergeAll(named)
  {
    merged := BLANK;
    for i := 0 to |named|
      invariant merged == Fold(BLANK, named[..i])
    {
      var (name, result) := named[i];
      ghost var before := merged;
      if result.Error? {
        merged := merged.(audit := merged.audit[name := None]);
      } else {
        var e := result.e;
        merged := merged.(audit := merged.audit[name := Some(e.reputation)]);
        if Severity(e.reputation) > Severity(merged.reputation) { merged := merged.(reputation := e.reputation); }
        if e.confidence > merged.confidence { merged := merged.(confidence := e.confidence); }
        if e.attacker { merged := merged.(attacker := true); }
        if merged.country.None? && e.country.Some? { merged := merged.(country := e.country); }
        if merged.asn.None? && e.asn.Some? { merged := merged.(asn := e.asn); }
        if merged.org.None? && e.org.Some? { merged := merged.(org := e.org); }
        var cats := merged.categories;
        for j := 0 to |e.categories|
          invariant AddAll(cats, e.categories[j..]) == AddAll(merged.categories, e.categories)
        {
          var cat := e.categories[j];
          if cat != "" && cat !in cats { cats := cats + [cat]; }
        }
        merged := merged.(categories := cats);
      }
      assert merged == Step(before, name, result);
      FoldAppend(BLANK, named[..i], [named[i]]);
      assert named[..i + 1] == named[..i] + [named[i]];
    }
    assert named[..|named|] == named;
  }

  // ───────────────────────── the verdict ─────────────────────────

  lemma MergeSnoc(rs: seq<(string, Result)>)
    requires rs != []
    ensures MergeAll(rs) == Step(MergeAll(rs[..|rs| - 1]), rs[|rs| - 1].0, rs[|rs| - 1].1)
  {
    FoldAppend(BLANK, rs[..|rs| - 1], [rs[|rs| - 1]]);
    assert rs == rs[..|rs| - 1] + [rs[|rs| - 1]];
  }

  /** Some source reported this reputation. */
  ghost predicate Reported(rs: seq<(string, Result)>, reputation: string) {
    exists i :: 0 <= i < |rs| && rs[i].1.Answer? && rs[i].1.e.reputation == reputation
  }

  /** The merged verdict: malicious iff someone said so, else suspicious iff someone said so, else unknown, whatever
      else was said. It is never clean. */
  lemma {:induction false} VerdictIs(rs: seq<(string, Result)>)
    ensures MergeAll(rs).reputation == if Reported(rs, "malicious") then "malicious"
                                       else if Reported(rs, "suspicious") then "suspicious" else "unknown"
  {
    if rs != [] {
      var front, last := rs[..|rs| - 1], rs[|rs| - 1];
      VerdictIs(front);
      MergeSnoc(rs);
      forall rep ensures Reported(rs, rep) <==> Reported(front, rep) || (last.1.Answer? && last.1.e.reputation == rep) {
        if Reported(front, rep) {
          var i :| 0 <= i < |front| && front[i].1.Answer? && front[i].1.e.reputation == rep;
          assert rs[i] == front[i];
        }
        if Reported(rs, rep) && !(last.1.Answer? && last.1.e.reputation == rep) {
          var i :| 0 <= i < |rs| && rs[i].1.Answer? && rs[i].1.e.reputation == rep;
          assert front[i] == rs[i];
        }
      }
    }
  }

  // ───────────────────────── every other field ─────────────────────────

  /** Result i is the first answer that has this field. */
  ghost predicate IsFirst(rs: seq<(string, Result)>, field: Enrichment -> Option<string>, i: nat) {
    && i < |rs| && rs[i].1.Answer? && field(rs[i].1.e).Some?
    && forall j :: 0 <= j < i && rs[j].1.Answer? ==> field(rs[j].1.e).None?
  }

  /** `v` is the field of the first answer that has it, None if none has. */
  ghost predicate FirstGiven(rs: seq<(string, Result)>, field: Enrichment -> Option<string>, v: Option<string>) {
    && (v.None? <==> forall i :: 0 <= i < |rs| && rs[i].1.Answer? ==> field(rs[i].1.e).None?)
    && (forall i: nat :: IsFirst(rs, field, i) ==> field(rs[i].1.e) == v)
  }

  lemma FirstGivenSnoc(rs: seq<(string, Result)>, field: Enrichment -> Option<string>, v: Option<string>,
                       v': Option<string>)
    requires rs != [] && FirstGiven(rs[..|rs| - 1], field, v)
    requires v' == if v.None? && rs[|rs| - 1].1.Answer? then field(rs[|rs| - 1].1.e) else v
    ensures FirstGiven(rs, field, v')
  {
    var n := |rs| - 1;
    var front := rs[..n];
    assert forall i :: 0 <= i < n ==> front[i] == rs[i];
    assert v.None? <==> forall i :: 0 <= i < n && rs[i].1.Answer? ==> field(rs[i].1.e).None?;
    forall i: nat | IsFirst(rs, field, i) ensures field(rs[i].1.e) == v' {
      if i < n { assert IsFirst(front, field, i); }
    }
  }

  /** Whatever the answers, country, AS and organisation of a merge are those of the first answer that has one. */
  lemma {:induction false} PlaceIs(rs: seq<(string, Result)>)
    ensures FirstGiven(rs, (e: Enrichment) => e.country, MergeAll(rs).country)
    ensures FirstGiven(rs, (e: Enrichment) => e.asn, MergeAll(rs).asn)
    ensures FirstGiven(rs, (e: Enrichment) => e.org, MergeAll(rs).org)
  {
    if rs != [] {
      var front := rs[..|rs| - 1];
      PlaceIs(front);
      MergeSnoc(rs);
      FirstGivenSnoc(rs, (e: Enrichment) => e.country, MergeAll(front).country, MergeAll(rs).country);
      FirstGivenSnoc(rs, (e: Enrichment) => e.asn, MergeAll(front).asn, MergeAll(rs).asn);
      FirstGivenSnoc(rs, (e: Enrichment) => e.org, MergeAll(front).org, MergeAll(rs).org);
    }
  }

  /** Its confidence is the greatest of 0 and all confidences, and it is an attacker if any answer says so. */
  lemma {:induction false} ConfidenceIs(rs: seq<(string, Result)>)
    ensures var m := MergeAll(rs);
            && m.confidence >= 0.0
            && (forall i :: 0 <= i < |rs| && rs[i].1.Answer? ==> rs[i].1.e.confidence <= m.confidence)
            && (m.confidence == 0.0
                || exists i :: 0 <= i < |rs| && rs[i].1.Answer? && rs[i].1.e.confidence == m.confidence)
            && (m.attacker <==> exists i :: 0 <= i < |rs| && rs[i].1.Answer? && rs[i].1.e.attacker)
  {
    if rs != [] {
      var n := |rs| - 1;
      ConfidenceIs(rs[..n]);
      MergeSnoc(rs);
      assert forall i :: 0 <= i < n ==> rs[..n][i] == rs[i];
    }
  }

  /** Its categories are those of the answers, each once, without empty ones. */
  lemma {:induction false} CategoriesAre(rs: seq<(string, Result)>, c: string)
    ensures c in MergeAll(rs).categories
       <==> c != "" && exists i :: 0 <= i < |rs| && rs[i].1.Answer? && c in rs[i].1.e.categories
    ensures Distinct(MergeAll(rs).categories)
  {
    FoldProper(BLANK, rs);
    if rs != [] {
      var n := |rs| - 1;
      CategoriesAre(rs[..n], c);
      MergeSnoc(rs);
      CategoriesOfStep(MergeAll(rs[..n]), rs[n].0, rs[n].1, c);
      assert forall i :: 0 <= i < n ==> rs[..n][i] == rs[i];
    }
  }

  /** Result i is the last one of this source. */
  ghost predicate IsLast(rs: seq<(string, Result)>, name: string, i: nat) {
    i < |rs| && rs[i].0 == name && forall j :: i < j < |rs| ==> rs[j].0 != name
  }

  /** The audit keeps of every source the reputation it gave last, or None where it raised. */
  lemma {:induction false} AuditIs(rs: seq<(string, Result)>, name: string, i: nat)
    requires IsLast(rs, name, i)
    ensures name in MergeAll(rs).audit
    ensures MergeAll(rs).audit[name] == if rs[i].1.Answer? then Some(rs[i].1.e.reputation) else None
  {
    var n := |rs| - 1;
    MergeSnoc(rs);
    if i < n {
      assert rs[n].0 != name;
      assert IsLast(rs[..n], name, i);
      AuditIs(rs[..n], name, i);
    }
  }

  /** And of nothing else. */
  lemma {:induction false} AuditNames(rs: seq<(string, Result)>, name: string)
    requires name in MergeAll(rs).audit
    ensures exists i :: 0 <= i < |rs| && rs[i].0 == name
  {
    if rs != [] {
      var n := |rs| - 1;
      MergeSnoc(rs);
      if rs[n].0 != name {
        AuditNames(rs[..n], name);
        var i :| 0 <= i < n && rs[..n][i].0 == name;
        assert rs[i].0 == name;
      }
    }
  }

  // ───────────────────────── in any order ─────────────────────────

  /** Verdict, confidence and attacker flag of a merge, and which categories it carries. */
  ghost predicate SameVerdict(a: Merged, b: Merged) {
    && a.reputation == b.reputation && a.confidence == b.confidence && a.attacker == b.attacker
    && forall c :: c in a.categories <==> c in b.categories
  }

  lemma {:induction false} AddAllSet(have: seq<string>, more: seq<string>, c: string)
    ensures c in AddAll(have, more) <==> c in have || (c in more && c != "")
    decreases |more|
  {
    if more != [] {
      AddAllSet(if more[0] != "" && more[0] !in have then have + [more[0]] else have, more[1..], c);
    }
  }

  lemma CategoriesOfStep(m: Merged, name: string, r: Result, c: string)
    ensures c in Step(m, name, r).categories <==> c in m.categories || (r.Answer? && c in r.e.categories && c != "")
  {
    if r.Answer? { AddAllSet(m.categories, r.e.categories, c); }
  }

  /** Exchanging two neighbouring results changes neither the verdict fields nor the category set. */
  lemma SwapKeeps(m: Merged, a: (string, Result), b: (string, Result))
    requires Severity(m.reputation) >= 1
    ensures SameVerdict(Step(Step(m, a.0, a.1), b.0, b.1), Step(Step(m, b.0, b.1), a.0, a.1))
  {
    var ab, ba := Step(Step(m, a.0, a.1), b.0, b.1), Step(Step(m, b.0, b.1), a.0, a.1);
    forall c ensures c in ab.categories <==> c in ba.categories {
      CategoriesOfStep(m, a.0, a.1, c);
      CategoriesOfStep(m, b.0, b.1, c);
      CategoriesOfStep(Step(m, a.0, a.1), b.0, b.1, c);
      CategoriesOfStep(Step(m, b.0, b.1), a.0, a.1, c);
    }
  }

  lemma SameVerdictStep(m: Merged, m': Merged, name: string, r: Result)
    requires SameVerdict(m, m')
    ensures SameVerdict(Step(m, name, r), Step(m', name, r))
  {
    var s, s' := Step(m, name, r), Step(m', name, r);
    forall c ensures c in s.categories <==> c in s'.categories {
      CategoriesOfStep(m, name, r, c);
      CategoriesOfStep(m', name, r, c);
    }
  }

  lemma {:induction false} SameVerdictFold(m: Merged, m': Merged, rs: seq<(string, Result)>)
    requires SameVerdict(m, m')
    ensures SameVerdict(Fold(m, rs), Fold(m', rs))
    decreases |rs|
  {
    if rs != [] {
      SameVerdictStep(m, m', rs[0].0, rs[0].1);
      SameVerdictFold(Step(m, rs[0].0, rs[0].1), Step(m', rs[0].0, rs[0].1), rs[1..]);
    }
  }

  lemma SeverityStays(m: Merged, name: string, r: Result)
    ensures Severity(Step(m, name, r).reputation) >= Severity(m.reputation)
  {
  }

  /** Bringing any one result to the front keeps the verdict. */
  lemma {:induction false} FrontKeeps(m: Merged, xs: seq<(string, Result)>, x: (string, Result))
    requires Severity(m.reputation) >= 1
    ensures SameVerdict(Fold(m, xs + [x]), Fold(m, [x] + xs))
    decreases |xs|
  {
    if xs == [] {
      assert xs + [x] == [x] + xs;
    } else {
      var y := xs[0];
      assert (xs + [x])[1..] == xs[1..] + [x];
      SeverityStays(m, y.0, y.1);
      FrontKeeps(Step(m, y.0, y.1), xs[1..], x);
      assert ([x] + xs)[1..] == xs;
      assert ([x] + xs[1..])[1..] == xs[1..];
      SwapKeeps(m, y, x);
      SameVerdictFold(Step(Step(m, y.0, y.1), x.0, x.1), Step(Step(m, x.0, x.1), y.0, y.1), xs[1..]);
    }
  }

  /** The first of `xs` sits somewhere in a rearrangement `ys`; without it the rest are rearrangements of each other. */
  lemma TakeOut<X>(xs: seq<X>, ys: seq<X>) returns (before: seq<X>, after: seq<X>)
    requires xs != [] && multiset(xs) == multiset(ys)
    ensures ys == before + [xs[0]] + after && multiset(xs[1..]) == multiset(before + after)
  {
    var x := xs[0];
    assert x in multiset(xs);
    var i :| 0 <= i < |ys| && ys[i] == x;
    before, after := ys[..i], ys[i + 1..];
    assert ys == before + [x] + after;
    assert xs == [x] + xs[1..];
    assert multiset(xs) == multiset{x} + multiset(xs[1..]);
    assert multiset(ys) == multiset{x} + (multiset(before) + multiset(after));
    assert multiset(xs[1..]) == multiset(xs) - multiset{x};
    assert multiset(before + after) == multiset(ys) - multiset{x};
  }

  /** In whatever order the sources answer, the verdict, confidence, attacker flag and category set are the same. */
  lemma {:induction false} OrderDoesNotMatter(m: Merged, xs: seq<(string, Result)>, ys: seq<(string, Result)>)
    requires Severity(m.reputation) >= 1 && multiset(xs) == multiset(ys)
    ensures SameVerdict(Fold(m, xs), Fold(m, ys))
    decreases |xs|
  {
    if xs == [] {
      assert |multiset(ys)| == 0;
    } else {
      var x := xs[0];
      var before, after := TakeOut(xs, ys);
      SeverityStays(m, x.0, x.1);
      OrderDoesNotMatter(Step(m, x.0, x.1), xs[1..], before + after);
      FrontKeeps(m, before, x);
      SameVerdictFold(Fold(m, before + [x]), Fold(m, [x] + before), after);
      FoldAppend(m, before + [x], after);
      FoldAppend(m, [x] + before, after);
      assert ([x] + before + after)[1..] == before + after;
    }
  }

  // ───────────────────────── merging merges ─────────────────────────

  /** A merged record handed on as one provider's answer. */
  function AsResult(m: Merged): Result {
    Answer(Enrichment(m.country, m.asn, m.org, m.reputation, m.confidence, m.categories, m.attacker, Raw(false, false)))
  }

  /** Everything but the audit trail. */
  ghost predicate SameRecord(a: Merged, b: Merged) {
    && a.country == b.country && a.asn == b.asn && a.org == b.org && a.reputation == b.reputation
    && a.confidence == b.confidence && a.categories == b.categories && a.attacker == b.attacker
  }

  predicate Distinct(cats: seq<string>) {
    (forall i :: 0 <= i < |cats| ==> cats[i] != "") && (forall i, j :: 0 <= i < j < |cats| ==> cats[i] != cats[j])
  }

  /** A merge's categories are non-empty and distinct, its confidence is not negative, its severity at least unknown. */
  ghost predicate Proper(m: Merged) { Distinct(m.categories) && m.confidence >= 0.0 && Severity(m.reputation) >= 1 }

  lemma {:induction false} AddAllDistinct(have: seq<string>, more: seq<string>)
    requires Distinct(have)
    ensures Distinct(AddAll(have, more))
    decreases |more|
  {
    if more != [] { AddAllDistinct(if more[0] != "" && more[0] !in have then have + [more[0]] else have, more[1..]); }
  }

  lemma {:induction false} FoldProper(m: Merged, rs: seq<(string, Result)>)
    requires Proper(m)
    ensures Proper(Fold(m, rs))
    decreases |rs|
  {
    if rs != [] {
      if rs[0].1.Answer? { AddAllDistinct(m.categories, rs[0].1.e.categories); }
      FoldProper(Step(m, rs[0].0, rs[0].1), rs[1..]);
    }
  }

  lemma {:induction false} AddAllAppend(have: seq<string>, xs: seq<string>, ys: seq<string>)
    ensures AddAll(have, xs + ys) == AddAll(AddAll(have, xs), ys)
    decreases |xs|
  {
    if xs == [] {
      assert xs + ys == ys;
    } else {
      assert (xs + ys)[1..] == xs[1..] + ys;
      AddAllAppend(if xs[0] != "" && xs[0] !in have then have + [xs[0]] else have, xs[1..], ys);
    }
  }

  lemma AddOne(have: seq<string>, c: string)
    ensures AddAll(have, [c]) == if c != "" && c !in have then have + [c] else have
  {
    assert [c][1..] == [];
  }

  /** Adding what a deduplicated list kept of `more` is as good as adding `more`. */
  lemma {:induction false} AddAllTwice(have: seq<string>, kept: seq<string>, more: seq<string>)
    ensures AddAll(have, AddAll(kept, more)) == AddAll(AddAll(have, kept), more)
    decreases |more|
  {
    if more != [] {
      var c := more[0];
      var kept' := if c != "" && c !in kept then kept + [c] else kept;
      AddAllTwice(have, kept', more[1..]);
      AddAllSet(have, kept, c);
      AddAllAppend(have, kept, [c]);
      AddOne(AddAll(have, kept), c);
    }
  }

  /** Merging on top of `m` equals merging separately and then merging the two records. */
  lemma {:induction false} FoldIsOneStep(m: Merged, h: Merged, name: string, rs: seq<(string, Result)>)
    requires Proper(m) && Proper(h)
    ensures SameRecord(Fold(Step(m, name, AsResult(h)), rs), Step(m, name, AsResult(Fold(h, rs))))
    decreases |rs|
  {
    if rs != [] {
      var (n, r) := rs[0];
      if r.Answer? {
        AddAllTwice(m.categories, h.categories, r.e.categories);
        AddAllDistinct(h.categories, r.e.categories);
      }
      FoldIsOneStep(m, Step(h, n, r), name, rs[1..]);
      SameRecordFold(Step(Step(m, name, AsResult(h)), n, r), Step(m, name, AsResult(Step(h, n, r))), rs[1..]);
    }
  }

  lemma {:induction false} SameRecordFold(a: Merged, b: Merged, rs: seq<(string, Result)>)
    requires SameRecord(a, b)
    ensures SameRecord(Fold(a, rs), Fold(b, rs))
    decreases |rs|
  {
    if rs != [] { SameRecordFold(Step(a, rs[0].0, rs[0].1), Step(b, rs[0].0, rs[0].1), rs[1..]); }
  }

  /** Adding distinct new categories just appends them. */
  lemma {:induction false} DistinctStays(have: seq<string>, more: seq<string>)
    requires Distinct(have + more)
    ensures AddAll(have, more) == have + more
    decreases |more|
  {
    if more != [] {
      assert (have + more)[|have|] == more[0];
      forall i | 0 <= i < |have| ensures have[i] != more[0] { assert (have + more)[i] == have[i]; }
      assert have + [more[0]] + more[1..] == have + more;
      DistinctStays(have + [more[0]], more[1..]);
    }
  }

  /** Merging a single merged record gives that record back. */
  lemma RewrapKeeps(x: Merged, name: string)
    requires Proper(x)
    ensures SameRecord(Step(BLANK, name, AsResult(x)), x) && Proper(Step(BLANK, name, AsResult(x)))
  {
    assert [] + x.categories == x.categories;
    DistinctStays([], x.categories);
  }

  /** Merging a concatenation equals merging the two merged halves, on every field and even on category order. */
  lemma MergeOfHalves(xs: seq<(string, Result)>, ys: seq<(string, Result)>, left: string, right: string)
    ensures SameRecord(MergeAll(xs + ys), MergeAll([(left, AsResult(MergeAll(xs))), (right, AsResult(MergeAll(ys)))]))
  {
    var x, y := MergeAll(xs), MergeAll(ys);
    FoldAppend(BLANK, xs, ys);
    FoldProper(BLANK, xs);
    RewrapKeeps(x, left);
    var one := Step(BLANK, left, AsResult(x));
    FoldIsOneStep(one, BLANK, right, ys);
    SameRecordFold(x, Step(one, right, AsResult(BLANK)), ys);
    FoldTwo(BLANK, (left, AsResult(x)), (right, AsResult(y)));
  }

  lemma FoldTwo(m: Merged, a: (string, Result), b: (string, Result))
    ensures Fold(m, [a, b]) == Step(Step(m, a.0, a.1), b.0, b.1)
  {
    assert [a, b][1..] == [b];
    assert [b][1..] == [];
    assert Fold(m, [a, b]) == Fold(Step(m, a.0, a.1), [b]);
  }

  /** A metadata-only answer (no reputation, confidence, flag or categories) changes no verdict, wherever it is. */
  lemma MetadataIsNeutral(xs: seq<(string, Result)>, ys: seq<(string, Result)>, name: string, e: Enrichment)
    requires Severity(e.reputation) <= 1 && e.confidence <= 0.0 && !e.attacker
    requires forall c :: c in e.categories ==> c == ""
    ensures SameVerdict(MergeAll(xs + [(name, Answer(e))] + ys), MergeAll(xs + ys))
  {
    var m := MergeAll(xs);
    FoldProper(BLANK, xs);
    FoldAppend(BLANK, xs + [(name, Answer(e))], ys);
    FoldAppend(BLANK, xs, [(name, Answer(e))]);
    FoldAppend(BLANK, xs, ys);
    var m' := Step(m, name, Answer(e));
    assert Fold(m, [(name, Answer(e))]) == m' by { assert [(name, Answer(e))][1..] == []; }
    forall c ensures c in m'.categories <==> c in m.categories { CategoriesOfStep(m, name, Answer(e), c); }
    SameVerdictFold(m', m, ys);
  }
}
