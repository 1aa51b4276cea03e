/** VirusTotal's daily budget (enrichment/providers.py, lines 319-385): the same meter as AbuseIPDB's, but a caller that
    was admitted waits for the lock and for the pause since the last answer before it sends, maybe past midnight. Time
    is in seconds. */
module Quota {
  import opened Prelude
  import B = Budget

  /** The daily quota, and the pause kept after an answer (480 and 15.5 unless configured otherwise). */
  datatype Rules = Rules(quota: nat, gap: real)

  /** `budget.flying[c]` is the day caller c was admitted, `sent[c]` the day its request went out, None while it waits;
      `last` is the time of the last answer.
      History: `answered`, the send days of answered requests; `carried`, the callers and days for which such a request
      had been admitted on an earlier day. */
  datatype State = State(budget: B.State, sent: seq<Option<int>>, last: Option<real>,
                         answered: multiset<int>, carried: set<(nat, int)>)

  datatype Action =
    | Check(c: nat, now: real)
    | Send(c: nat, now: real)
    | Answer(c: nat, now: real, limitedUntil: Option<real>)
    | Fail(c: nat, now: real)

  function Initial(k: nat): State { State(B.Initial(k), seq(k, _ => None), None, multiset{}, {}) }

  predicate LockFree(s: State) { forall c :: 0 <= c < |s.sent| ==> s.sent[c].None? }

  predicate Enabled(s: State, a: Action, rules: Rules) {
    && a.now >= s.budget.clock && a.c < |s.sent| == |s.budget.flying|
    && match a
       case Check(c, _) => s.budget.flying[c].None?
       case Send(c, now) =>
         && s.budget.flying[c].Some? && LockFree(s)
         && (s.last.Some? ==> now >= s.last.value + rules.gap)
       case Answer(c, _, _) => s.budget.flying[c].Some? && s.sent[c].Some?
       case Fail(c, _) => true
  }

  function Next(s: State, a: Action, rules: Rules): State {
    if !Enabled(s, a, rules) then s else
    match a
    case Check(c, now) => s.(budget := B.Next(s.budget, B.Check(c, now), rules.quota))
    case Send(c, now) => s.(budget := s.budget.(clock := now), sent := s.sent[c := Some(B.Day(now))])
    case Answer(c, now, limited) =>
      var day := s.sent[c].value;
      State(B.Next(s.budget, B.Answer(c, now, limited), rules.quota), s.sent[c := None], Some(now),
            s.answered + multiset{day},
            if s.budget.flying[c].value < day then s.carried + {(c, day)} else s.carried)
    case Fail(c, now) => s.(budget := B.Next(s.budget, B.Fail(c, now), rules.quota), sent := s.sent[c := None])
  }

  function Run(s: State, acts: seq<Action>, rules: Rules): State {
    if acts == [] then s else Next(Run(s, acts[..|acts| - 1], rules), acts[|acts| - 1], rules)
  }

  /** Requests sent on a day that are answered or still in flight. */
  function SentOn(s: State, day: int): nat { s.answered[day] + Count(s.sent, Some(day)) }

  /** Callers that had an earlier admission answered on a request sent on this day. */
  function Carriers(s: State, day: int): set<nat> { set c | 0 <= c < |s.sent| && (c, day) in s.carried }

  /** Callers that have such a request in flight. */
  function Late(sent: seq<Option<int>>, flying: seq<Option<int>>, day: int): set<nat>
    requires |sent| == |flying|
  {
    set c | 0 <= c < |sent| && sent[c] == Some(day) && flying[c] != Some(day)
  }

  ghost predicate CallersFit(s: State) {
    && |s.sent| == |s.budget.flying|
    && (forall c :: 0 <= c < |s.sent| && s.sent[c].Some? ==>
          s.budget.flying[c].Some? && s.budget.flying[c].value <= s.sent[c].value)
    && (forall c :: 0 <= c < |s.sent| && s.budget.flying[c].Some? ==> s.budget.flying[c].value <= B.Day(s.budget.clock))
    && (forall x :: x in s.carried ==> x.1 <= B.Day(s.budget.clock))
    && (forall c: nat, d :: c < |s.sent| && (c, d) in s.carried && s.budget.flying[c].Some? ==>
          s.budget.flying[c].value >= d)
    && (forall c :: 0 <= c < |s.sent| && s.sent[c].Some? ==> s.sent[c].value <= B.Day(s.budget.clock))
  }

  ghost predicate AnswersFit(s: State) {
    forall d :: s.answered[d] <= s.budget.answered[d] + |Carriers(s, d)|
  }

  ghost predicate Inv(s: State, rules: Rules) { B.Inv(s.budget, rules.quota) && CallersFit(s) && AnswersFit(s) }

  lemma BudgetStep(s: State, a: Action, rules: Rules)
    requires B.Inv(s.budget, rules.quota) && Enabled(s, a, rules)
    ensures B.Inv(Next(s, a, rules).budget, rules.quota)
  {
    match a
    case Check(c, now) => B.CheckStep(s.budget, c, now, rules.quota);
    case Send(c, now) => LaterIsFine(s.budget, now, rules.quota);
    case Answer(c, now, limited) => B.ReturnStep(s.budget, B.Answer(c, now, limited), rules.quota);
    case Fail(c, now) => B.ReturnStep(s.budget, B.Fail(c, now), rules.quota);
  }

  lemma LaterIsFine(b: B.State, now: real, quota: nat)
    requires B.Inv(b, quota) && now >= b.clock
    ensures B.Inv(b.(clock := now), quota)
  {
    DayMonotone(b.clock, now);
    assert forall d :: B.Spent(b.(clock := now), d) == B.Spent(b, d);
  }

  lemma DayMonotone(t: real, u: real)
    requires t <= u
    ensures B.Day(t) <= B.Day(u)
  {
    assert t / B.DAY <= u / B.DAY;
  }

  lemma CallersStep(s: State, a: Action, rules: Rules)
    requires CallersFit(s) && Enabled(s, a, rules)
    ensures CallersFit(Next(s, a, rules))
  {
    DayMonotone(s.budget.clock, a.now);
  }

  lemma AnswersStep(s: State, a: Action, rules: Rules)
    requires CallersFit(s) && AnswersFit(s) && Enabled(s, a, rules)
    ensures AnswersFit(Next(s, a, rules))
  {
    var s' := Next(s, a, rules);
    forall d ensures s'.answered[d] <= s'.budget.answered[d] + |Carriers(s', d)| {
      assert s.answered[d] <= s.budget.answered[d] + |Carriers(s, d)|;
      CarriersStep(s, a, rules, d);
    }
  }

  /** Only a late answer adds a carrier, and it is a new one. */
  lemma CarriersStep(s: State, a: Action, rules: Rules, d: int)
    requires CallersFit(s) && Enabled(s, a, rules)
    ensures |Carriers(Next(s, a, rules), d)|
         == |Carriers(s, d)| + (if a.Answer? && s.sent[a.c] == Some(d) && s.budget.flying[a.c].value < d then 1 else 0)
  {
    var s' := Next(s, a, rules);
    if a.Answer? && s.sent[a.c] == Some(d) && s.budget.flying[a.c].value < d {
      assert Carriers(s', d) == Carriers(s, d) + {a.c} && a.c !in Carriers(s, d);
    } else {
      assert Carriers(s', d) == Carriers(s, d);
    }
  }

  lemma {:induction false} RunKeeps(k: nat, acts: seq<Action>, rules: Rules)
    requires k >= 1
    ensures var s := Run(Initial(k), acts, rules); Inv(s, rules) && |s.sent| == k
  {
    if acts == [] {
      B.DailyBudgetHolds(k, [], rules.quota, 0);
      assert forall d :: Carriers(Initial(k), d) == {};
    } else {
      var before, a := Run(Initial(k), acts[..|acts| - 1], rules), acts[|acts| - 1];
      RunKeeps(k, acts[..|acts| - 1], rules);
      if Enabled(before, a, rules) {
        BudgetStep(before, a, rules);
        CallersStep(before, a, rules);
        AnswersStep(before, a, rules);
      }
    }
  }

  lemma {:induction false} CountLate(sent: seq<Option<int>>, flying: seq<Option<int>>, day: int)
    requires |sent| == |flying|
    ensures Count(sent, Some(day)) <= Count(flying, Some(day)) + |Late(sent, flying, day)|
  {
    var n := |sent| - 1;
    if n >= 0 {
      CountLate(sent[..n], flying[..n], day);
      LateSnoc(sent, flying, day);
    }
  }

  lemma LateSnoc(sent: seq<Option<int>>, flying: seq<Option<int>>, day: int)
    requires |sent| == |flying| >= 1
    ensures var n := |sent| - 1;
            |Late(sent, flying, day)| == |Late(sent[..n], flying[..n], day)|
                                         + (if sent[n] == Some(day) && flying[n] != Some(day) then 1 else 0)
  {
    var n := |sent| - 1;
    var rest := Late(sent[..n], flying[..n], day);
    assert Late(sent, flying, day) == rest + (if sent[n] == Some(day) && flying[n] != Some(day) then {n} else {});
    assert n !in rest;
  }

  lemma {:induction false} WithinRange(xs: set<nat>, k: nat)
    requires forall c :: c in xs ==> c < k
    ensures |xs| <= k
  {
    if k == 0 {
      assert xs == {};
    } else {
      WithinRange(xs - {k - 1}, k - 1);
      assert xs <= (xs - {k - 1}) + {k - 1};
      if k - 1 in xs { assert |xs - {k - 1}| == |xs| - 1; } else { assert xs - {k - 1} == xs; }
    }
  }

  /** The callers that carried an admission over midnight into a request of this day. */
  function Carrying(s: State, day: int): set<nat>
    requires |s.sent| == |s.budget.flying|
  {
    Late(s.sent, s.budget.flying, day) + Carriers(s, day)
  }

  lemma SentAtMost(s: State, rules: Rules, day: int)
    requires Inv(s, rules) && |s.sent| >= 1
    ensures SentOn(s, day) <= rules.quota + |s.sent| - 1 + |Carrying(s, day)|
    ensures |Carrying(s, day)| <= |s.sent|
  {
    var late := Late(s.sent, s.budget.flying, day);
    CountLate(s.sent, s.budget.flying, day);
    assert s.answered[day] <= s.budget.answered[day] + |Carriers(s, day)|;
    assert late !! Carriers(s, day);
    WithinRange(Carrying(s, day), |s.sent|);
    assert |late + Carriers(s, day)| == |late| + |Carriers(s, day)|;
    assert B.Spent(s.budget, day) <= rules.quota + |s.sent| - 1;
  }

  /** However many lookups overlap, requests sent in one UTC day that are answered or in flight never exceed
      quota + k - 1 by more than the number of callers that carried an admission over midnight, hence never
      quota + 2k - 1. */
  lemma SendsPerDay(k: nat, acts: seq<Action>, rules: Rules, day: int)
    requires k >= 1
    ensures var s := Run(Initial(k), acts, rules);
            && |s.sent| == |s.budget.flying| == k
            && SentOn(s, day) <= rules.quota + k - 1 + |Carrying(s, day)|
            && SentOn(s, day) <= rules.quota + 2 * k - 1
  {
    RunKeeps(k, acts, rules);
    SentAtMost(Run(Initial(k), acts, rules), rules, day);
  }

  // ───────────────────────── when AbuseIPDB's bound holds ─────────────────────────

  /** A step sends nothing on the day that was admitted before it. */
  predicate Prompt(s: State, a: Action, rules: Rules, day: int) {
    a.Send? && Enabled(s, a, rules) && B.Day(a.now) == day ==> s.budget.flying[a.c] == Some(day)
  }

  /** Every request sent on the day was admitted on it. */
  predicate PromptRun(k: nat, acts: seq<Action>, rules: Rules, day: int) {
    acts == []
    || (PromptRun(k, acts[..|acts| - 1], rules, day)
        && Prompt(Run(Initial(k), acts[..|acts| - 1], rules), acts[|acts| - 1], rules, day))
  }

  lemma PromptStep(s: State, a: Action, rules: Rules, day: int)
    requires CallersFit(s) && Carrying(s, day) == {} && Prompt(s, a, rules, day)
    ensures |Next(s, a, rules).sent| == |Next(s, a, rules).budget.flying| && Carrying(Next(s, a, rules), day) == {}
  {
    assert forall c :: c in Carrying(Next(s, a, rules), day) ==> c in Carrying(s, day);
  }

  lemma {:induction false} PromptRunCarriesNothing(k: nat, acts: seq<Action>, rules: Rules, day: int)
    requires k >= 1 && PromptRun(k, acts, rules, day)
    ensures var s := Run(Initial(k), acts, rules);
            |s.sent| == |s.budget.flying| && Carrying(s, day) == {}
  {
    if acts != [] {
      PromptRunCarriesNothing(k, acts[..|acts| - 1], rules, day);
      RunKeeps(k, acts[..|acts| - 1], rules);
      PromptStep(Run(Initial(k), acts[..|acts| - 1], rules), acts[|acts| - 1], rules, day);
    }
  }

  /** If every request sent on the day was admitted on it, AbuseIPDB's bound holds here too. */
  lemma PromptSendsPerDay(k: nat, acts: seq<Action>, rules: Rules, day: int)
    requires k >= 1 && PromptRun(k, acts, rules, day)
    ensures SentOn(Run(Initial(k), acts, rules), day) <= rules.quota + k - 1
  {
    SendsPerDay(k, acts, rules, day);
    PromptRunCarriesNothing(k, acts, rules, day);
  }

  // ───────────────────────── the bound is reached ─────────────────────────

  /** A set of states no step leaves, such as those some run reaches. */
  ghost predicate Closed(reached: State -> bool, rules: Rules) {
    forall s, a :: reached(s) ==> reached(Next(s, a, rules))
  }

  /** The n-th request of day 1 goes out n pauses after midnight. */
  function At(rules: Rules, n: nat): real { if n == 0 then B.DAY else At(rules, n - 1) + rules.gap }

  /** Day 1 has room for `total` requests, one pause apart. */
  predicate Roomy(rules: Rules, total: nat) { rules.gap >= 0.0 && At(rules, total) < 2.0 * B.DAY }

  lemma {:induction false} RoomyIff(rules: Rules, total: nat)
    ensures At(rules, total) == B.DAY + rules.gap * total as real
    ensures Roomy(rules, total) <==> rules.gap >= 0.0 && rules.gap * total as real < B.DAY
  {
    if total > 0 {
      RoomyIff(rules, total - 1);
      assert rules.gap * total as real == rules.gap * (total - 1) as real + rules.gap;
    }
  }

  lemma {:induction false} AtIsDayOne(rules: Rules, n: nat, total: nat)
    requires Roomy(rules, total) && n <= total
    ensures B.Day(At(rules, n)) == 1 && B.DAY <= At(rules, n) < 2.0 * B.DAY
  {
    AtGrows(rules, 0, n);
    AtGrows(rules, n, total);
    assert 1.0 <= At(rules, n) / B.DAY < 2.0;
  }

  lemma {:induction false} AtGrows(rules: Rules, n: nat, m: nat)
    requires rules.gap >= 0.0 && n <= m
    ensures At(rules, n) <= At(rules, m)
  {
    if n < m { AtGrows(rules, n, m - 1); }
  }

  /** n requests have been answered on day 1, no one is sending, and the next may go out at its time. */
  ghost predicate Ready(s: State, rules: Rules, k: nat, n: nat) {
    && |s.sent| == |s.budget.flying| == k && LockFree(s) && s.answered[1] == n
    && s.budget.clock <= At(rules, n) && (s.last.Some? ==> s.last.value + rules.gap <= At(rules, n))
    && s.budget.meter.limitedUntil == 0.0
  }

  lemma SendAnswer(s: State, rules: Rules, k: nat, n: nat, c: nat, total: nat)
    requires Ready(s, rules, k, n) && c < k && s.budget.flying[c].Some? && n < total && Roomy(rules, total)
    ensures var s' := Next(Next(s, Send(c, At(rules, n)), rules), Answer(c, At(rules, n), None), rules);
            && Ready(s', rules, k, n + 1) && s'.budget.flying == s.budget.flying[c := None]
            && s'.budget.meter == B.Charge(s.budget.meter, None)
            && s'.carried == if s.budget.flying[c].value < 1 then s.carried + {(c, 1)} else s.carried
  {
    AtIsDayOne(rules, n, total);
    var s1 := Next(s, Send(c, At(rules, n)), rules);
    assert s1.sent == s.sent[c := Some(1)];
  }

  lemma CheckAdmits(s: State, rules: Rules, k: nat, n: nat, c: nat, total: nat)
    requires Ready(s, rules, k, n) && c < k && s.budget.flying[c].None? && n <= total && Roomy(rules, total)
    requires B.Roll(s.budget.meter, At(rules, n)).count < rules.quota
    ensures var s' := Next(s, Check(c, At(rules, n)), rules);
            && Ready(s', rules, k, n) && s'.budget.flying == s.budget.flying[c := Some(1)]
            && s'.budget.meter == B.Roll(s.budget.meter, At(rules, n)) && s'.carried == s.carried
  {
    AtIsDayOne(rules, n, total);
  }

  /** Callers lo .. hi - 1 wait with an admission of the given day, the others are free. */
  ghost predicate Waiting(s: State, lo: nat, hi: nat, day: int) {
    forall c :: 0 <= c < |s.budget.flying| ==> s.budget.flying[c] == if lo <= c < hi then Some(day) else None
  }

  /** Callers 0 .. m - 1 are admitted at the start of day 0. */
  ghost predicate Eve(s: State, rules: Rules, k: nat, m: nat) {
    && Ready(s, rules, k, 0) && Waiting(s, 0, m, 0) && s.carried == {}
    && s.budget.clock == 0.0 && s.budget.meter.count == 0 && s.budget.meter.reset <= B.DAY
  }

  lemma {:induction false} AdmittedEarly(reached: State -> bool, k: nat, m: nat, rules: Rules) returns (s: State)
    requires Closed(reached, rules) && reached(Initial(k)) && m <= k && rules.quota >= 1 && rules.gap >= 0.0
    ensures reached(s) && Eve(s, rules, k, m)
  {
    s := Initial(k);
    if m > 0 {
      s := AdmittedEarly(reached, k, m - 1, rules);
      OneEarly(s, rules, k, m - 1);
      s := Next(s, Check(m - 1, 0.0), rules);
    }
  }

  lemma OneEarly(s: State, rules: Rules, k: nat, m: nat)
    requires Eve(s, rules, k, m) && m < k && rules.quota >= 1 && rules.gap >= 0.0
    ensures Eve(Next(s, Check(m, 0.0), rules), rules, k, m + 1)
  {
    assert B.Day(0.0) == 0;
  }

  /** What callers 0 .. m - 1 carry over into day 1. */
  function First(m: nat): set<(nat, int)> { if m == 0 then {} else First(m - 1) + {(m - 1, 1)} }

  lemma {:induction false} InFirst(m: nat)
    ensures forall c: nat, d :: (c, d) in First(m) <==> c < m && d == 1
  {
    if m > 0 { InFirst(m - 1); }
  }

  lemma {:induction false} SizeOf(m: nat, xs: set<nat>)
    requires forall c: nat :: c in xs <==> c < m
    ensures |xs| == m
  {
    if m == 0 {
      assert xs == {};
    } else {
      SizeOf(m - 1, xs - {m - 1});
    }
  }

  /** From s to s', callers 0 .. c - 1 of the waiting ones have sent and been answered. */
  ghost predicate Worked(s: State, s': State, rules: Rules, k: nat, n: nat, c: nat, hi: nat, day: int) {
    && Ready(s', rules, k, n + c) && Waiting(s', c, hi, day)
    && s'.budget.meter == s.budget.meter.(count := s.budget.meter.count + c)
    && s'.carried == s.carried + (if day < 1 then First(c) else {})
  }

  lemma WorkedStep(reached: State -> bool, s: State, mid: State, rules: Rules, k: nat, n: nat, c: nat, hi: nat,
                   day: int, total: nat)
    returns (s': State)
    requires Closed(reached, rules) && reached(mid) && Worked(s, mid, rules, k, n, c, hi, day)
    requires c < hi <= k && day <= 1 && n + c < total && Roomy(rules, total)
    ensures reached(s') && Worked(s, s', rules, k, n, c + 1, hi, day)
  {
    var t := At(rules, n + c);
    SendAnswer(mid, rules, k, n + c, c, total);
    s' := Next(Next(mid, Send(c, t), rules), Answer(c, t, None), rules);
  }

  /** The waiting callers send and are answered one after the other. */
  lemma {:induction false} WorkedOff(reached: State -> bool, s: State, k: nat, n: nat, c: nat, hi: nat, day: int,
                                     total: nat, rules: Rules)
    returns (s': State)
    requires Closed(reached, rules) && reached(s) && Worked(s, s, rules, k, n, 0, hi, day)
    requires c <= hi <= k && day <= 1 && Roomy(rules, total) && n + hi <= total
    ensures reached(s') && Worked(s, s', rules, k, n, c, hi, day)
  {
    s' := s;
    if c > 0 {
      s' := WorkedOff(reached, s, k, n, c - 1, hi, day, total, rules);
      s' := WorkedStep(reached, s, s', rules, k, n, c - 1, hi, day, total);
    }
  }

  /** A meter whose reset time is that of day 1 or earlier. */
  predicate ForDayOne(m: B.Meter) { m.limitedUntil == 0.0 && (m.reset <= B.DAY || m.reset == 2.0 * B.DAY) }

  /** A meter rolled on day 1 is not rolled again on day 1. */
  lemma RollsOnce(m: B.Meter, t: real, u: real)
    requires B.Day(t) == B.Day(u) == 1 && B.DAY <= t <= u && ForDayOne(m)
    ensures ForDayOne(B.Roll(m, t)) && B.Roll(B.Roll(m, t), u) == B.Roll(m, t)
    ensures B.Roll(B.Charge(B.Roll(m, t), None), u).count == B.Roll(m, t).count + 1
  {
    B.NextMidnightIsNext(t, 2);
    assert u / B.DAY < 2.0;
  }

  /** No one waits, and the budget of day 1 has been charged `count` times when the next request may go out. */
  ghost predicate Idle(s: State, rules: Rules, k: nat, n: nat, count: nat) {
    && Ready(s, rules, k, n) && Waiting(s, 0, 0, 1) && ForDayOne(s.budget.meter)
    && B.Roll(s.budget.meter, At(rules, n)).count == count
  }

  lemma IdleStep(reached: State -> bool, s: State, rules: Rules, k: nat, n: nat, count: nat, total: nat)
    returns (s': State)
    requires Closed(reached, rules) && reached(s) && Idle(s, rules, k, n, count)
    requires k >= 1 && n < total && Roomy(rules, total) && count < rules.quota
    ensures reached(s') && Idle(s', rules, k, n + 1, count + 1) && s'.carried == s.carried
  {
    var t := At(rules, n);
    AtIsDayOne(rules, n, total);
    AtIsDayOne(rules, n + 1, total);
    CheckAdmits(s, rules, k, n, 0, total);
    SendAnswer(Next(s, Check(0, t), rules), rules, k, n, 0, total);
    RollsOnce(s.budget.meter, t, At(rules, n + 1));
    s' := Next(Next(Next(s, Check(0, t), rules), Send(0, t), rules), Answer(0, t, None), rules);
  }

  /** Caller 0 looks up q addresses in turn, out of a budget not yet charged on day 1. */
  lemma {:induction false} InTurn(reached: State -> bool, s: State, k: nat, n: nat, q: nat, total: nat, rules: Rules)
    returns (s': State)
    requires Closed(reached, rules) && reached(s) && Idle(s, rules, k, n, 0)
    requires k >= 1 && q < rules.quota && Roomy(rules, total) && n + q <= total
    ensures reached(s') && Idle(s', rules, k, n + q, q) && s'.carried == s.carried
  {
    s' := s;
    if q > 0 {
      s' := InTurn(reached, s, k, n, q - 1, total, rules);
      s' := IdleStep(reached, s', rules, k, n + q - 1, q - 1, total);
    }
  }

  /** From an idle state s, callers 0 .. j - 1 have been admitted together. */
  ghost predicate Gathered(s: State, s': State, rules: Rules, k: nat, n: nat, count: nat, j: nat) {
    && Ready(s', rules, k, n) && Waiting(s', 0, j, 1) && ForDayOne(s'.budget.meter)
    && B.Roll(s'.budget.meter, At(rules, n)).count == count && s'.carried == s.carried
  }

  lemma GatheredStep(s: State, mid: State, rules: Rules, k: nat, n: nat, count: nat, j: nat, total: nat)
    requires Gathered(s, mid, rules, k, n, count, j)
    requires j < k && count < rules.quota && n <= total && Roomy(rules, total)
    ensures Gathered(s, Next(mid, Check(j, At(rules, n)), rules), rules, k, n, count, j + 1)
  {
    AtIsDayOne(rules, n, total);
    CheckAdmits(mid, rules, k, n, j, total);
    RollsOnce(mid.budget.meter, At(rules, n), At(rules, n));
  }

  lemma {:induction false} Together(reached: State -> bool, s: State, k: nat, n: nat, j: nat, count: nat, total: nat,
                                    rules: Rules)
    returns (s': State)
    requires Closed(reached, rules) && reached(s) && Idle(s, rules, k, n, count)
    requires j <= k && Roomy(rules, total) && n <= total && count < rules.quota
    ensures reached(s') && Gathered(s, s', rules, k, n, count, j)
  {
    s' := s;
    if j > 0 {
      s' := Together(reached, s, k, n, j - 1, count, total, rules);
      GatheredStep(s, s', rules, k, n, count, j - 1, total);
      s' := Next(s', Check(j - 1, At(rules, n)), rules);
    }
  }

  lemma {:induction false} CountFree(sent: seq<Option<int>>, day: int)
    requires forall c :: 0 <= c < |sent| ==> sent[c].None?
    ensures Count(sent, Some(day)) == 0
  {
    if sent != [] { CountFree(sent[..|sent| - 1], day); }
  }

  lemma EveOver(s: State, s': State, rules: Rules, k: nat, m: nat, total: nat)
    requires Eve(s, rules, k, m) && Worked(s, s', rules, k, 0, m, m, 0) && m <= k && m <= total && Roomy(rules, total)
    ensures s'.carried == First(m) && Idle(s', rules, k, m, 0)
  {
    AtIsDayOne(rules, m, total);
  }

  lemma DayOver(s: State, s': State, rules: Rules, k: nat, m: nat, n: nat)
    requires Worked(s, s', rules, k, n, k, k, 1) && s.carried == First(m) && m <= k
    ensures |s'.sent| == |s'.budget.flying| == k && |Carrying(s', 1)| == m && SentOn(s', 1) == n + k
  {
    CountFree(s'.sent, 1);
    InFirst(m);
    SizeOf(m, Carriers(s', 1));
    assert Carrying(s', 1) == Carriers(s', 1);
  }

  lemma BoundIsReachedWithin(reached: State -> bool, k: nat, m: nat, rules: Rules) returns (s: State)
    requires Closed(reached, rules) && reached(Initial(k))
    requires 1 <= k && m <= k && rules.quota >= 1 && Roomy(rules, rules.quota + 2 * k)
    ensures reached(s) && |s.sent| == |s.budget.flying| == k
    ensures |Carrying(s, 1)| == m && SentOn(s, 1) == rules.quota + k - 1 + m
  {
    var total, q := rules.quota + 2 * k, rules.quota - 1;
    var eve := AdmittedEarly(reached, k, m, rules);
    var over := WorkedOff(reached, eve, k, 0, m, m, 0, total, rules);
    EveOver(eve, over, rules, k, m, total);
    var turns := InTurn(reached, over, k, m, q, total, rules);
    var all := Together(reached, turns, k, m + q, k, q, total, rules);
    s := WorkedOff(reached, all, k, m + q, k, k, 1, total, rules);
    DayOver(all, s, rules, k, m, m + q);
  }

  /** The bound is exact, for any number m of callers that carry an admission over midnight, with the lock taken and the
      pause kept: m callers are admitted on the eve and answered after midnight, quota - 1 lookups follow in turn, and
      then all k callers are admitted together. So AbuseIPDB's bound can be relied on only without carriers. The day
      must be long enough for the pauses. */
  lemma SendsBoundIsReached(k: nat, m: nat, rules: Rules)
    requires 1 <= k && m <= k && rules.quota >= 1 && Roomy(rules, rules.quota + 2 * k)
    ensures exists acts :: var s := Run(Initial(k), acts, rules);
            && |s.sent| == |s.budget.flying| == k && |Carrying(s, 1)| == m
            && SentOn(s, 1) == rules.quota + k - 1 + m
  {
    var reached := s => exists acts :: Run(Initial(k), acts, rules) == s;
    forall s, a | reached(s) ensures reached(Next(s, a, rules)) {
      var acts :| Run(Initial(k), acts, rules) == s;
      assert (acts + [a])[..|acts|] == acts;
      assert Run(Initial(k), acts + [a], rules) == Next(s, a, rules);
    }
    assert Run(Initial(k), [], rules) == Initial(k);
    var _ := BoundIsReachedWithin(reached, k, m, rules);
  }
}
