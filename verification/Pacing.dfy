/** VirusTotal's pacing (enrichment/providers.py, lines 298-361): any number of callers share a lock, and whoever holds
    it waits until 15.5 seconds have passed since the last answer before it sends. Time is in seconds. */
module Pacing {
  const INTERVAL := 15.5

  /** Where a caller stands. Asleep and Sent callers hold the lock. */
  datatype Caller = Away | Waiting | Asleep(until: real) | Sent

  /** `answers`, the times of all answers so far, is history. */
  datatype State = State(clock: real, lastRequest: real, callers: seq<Caller>, answers: seq<real>)

  /** Everything a caller can do; Fail is a request that raises, which leaves `_last_request` alone. */
  datatype Action =
    | Arrive(c: nat, now: real)
    | Lock(c: nat, now: real)
    | Wake(c: nat, now: real)
    | Answer(c: nat, now: real)
    | Fail(c: nat, now: real)

  function Initial(k: nat): State { State(0.0, 0.0, seq(k, _ => Away), []) }

  predicate HasLock(c: Caller) { c.Asleep? || c.Sent? }

  predicate LockFree(s: State) { forall c :: 0 <= c < |s.callers| ==> !HasLock(s.callers[c]) }

  predicate Enabled(s: State, a: Action) {
    && a.now >= s.clock && a.c < |s.callers|
    && match a
       case Arrive(c, _) => s.callers[c].Away?
       case Lock(c, _) => s.callers[c].Waiting? && LockFree(s)
       // asyncio.sleep returns no earlier than asked
       case Wake(c, now) => s.callers[c].Asleep? && now >= s.callers[c].until
       case Answer(c, _) => s.callers[c].Sent?
       case Fail(c, _) => s.callers[c].Sent?
  }

  function Next(s: State, a: Action): State {
    if !Enabled(s, a) then s else
    var s1 := s.(clock := a.now);
    match a
    case Arrive(c, _) => s1.(callers := s.callers[c := Waiting])
    case Lock(c, now) =>
      var elapsed := now - s.lastRequest;
      s1.(callers := s.callers[c := if elapsed < INTERVAL then Asleep(now + (INTERVAL - elapsed)) else Sent])
    case Wake(c, _) => s1.(callers := s.callers[c := Sent])
    case Answer(c, now) => s1.(callers := s.callers[c := Away], lastRequest := now, answers := s.answers + [now])
    case Fail(c, _) => s1.(callers := s.callers[c := Away])
  }

  function Run(s: State, acts: seq<Action>): State {
    if acts == [] then s else Next(Run(s, acts[..|acts| - 1]), acts[|acts| - 1])
  }

  ghost predicate Spaced(answers: seq<real>) {
    forall i :: 0 < i < |answers| ==> answers[i] >= answers[i - 1] + INTERVAL
  }

  ghost predicate Inv(s: State) {
    && Spaced(s.answers)
    && (s.answers != [] ==> s.answers[|s.answers| - 1] == s.lastRequest <= s.clock)
    && (forall c, d :: 0 <= c < d < |s.callers| ==> !(HasLock(s.callers[c]) && HasLock(s.callers[d])))
    && (forall c :: 0 <= c < |s.callers| && s.callers[c].Asleep? ==> s.callers[c].until >= s.lastRequest + INTERVAL)
    && (forall c :: 0 <= c < |s.callers| && s.callers[c].Sent? ==> s.clock >= s.lastRequest + INTERVAL)
  }

  lemma InvStep(s: State, a: Action)
    requires Inv(s)
    ensures Inv(Next(s, a))
  {
    if Enabled(s, a) && a.Answer? {
      assert forall d :: 0 <= d < |s.callers| && d != a.c ==> !HasLock(s.callers[d]);
    }
  }

  lemma {:induction false} RunKeeps(k: nat, acts: seq<Action>)
    ensures Inv(Run(Initial(k), acts))
  {
    if acts != [] {
      RunKeeps(k, acts[..|acts| - 1]);
      InvStep(Run(Initial(k), acts[..|acts| - 1]), acts[|acts| - 1]);
    }
  }

  /** A set of states no step leaves, such as those some run reaches. */
  ghost predicate Closed(reached: State -> bool) { forall s, a :: reached(s) ==> reached(Next(s, a)) }

  /** Caller 0 has been answered n times, as soon as the interval allows each time. */
  ghost predicate Regular(s: State, n: nat) {
    && |s.callers| >= 1 && (forall c :: 0 <= c < |s.callers| ==> s.callers[c].Away?)
    && s.clock == s.lastRequest == INTERVAL * n as real && |s.answers| == n
    && forall i :: 0 <= i < n ==> s.answers[i] == INTERVAL * (i + 1) as real
  }

  lemma RegularStep(s: State, n: nat)
    requires Regular(s, n)
    ensures var t := INTERVAL * n as real;
            var t' := INTERVAL * (n + 1) as real;
            Regular(Next(Next(Next(Next(s, Arrive(0, t)), Lock(0, t)), Wake(0, t')), Answer(0, t')), n + 1)
  {
    var t := INTERVAL * n as real;
    var t' := INTERVAL * (n + 1) as real;
    assert t' == t + INTERVAL;
    var s1 := Next(s, Arrive(0, t));
    var s2 := Next(s1, Lock(0, t));
    assert s2.callers == s.callers[0 := Asleep(t')];
    var s4 := Next(Next(s2, Wake(0, t')), Answer(0, t'));
    assert s4.callers == s.callers[0 := Away] && s4.answers == s.answers + [t'];
  }

  lemma {:induction false} Answered(reached: State -> bool, k: nat, n: nat) returns (s: State)
    requires Closed(reached) && reached(Initial(k)) && k >= 1
    ensures reached(s) && Regular(s, n)
  {
    if n == 0 {
      s := Initial(k);
    } else {
      s := Answered(reached, k, n - 1);
      RegularStep(s, n - 1);
      var t, t' := INTERVAL * (n - 1) as real, INTERVAL * n as real;
      s := Next(Next(Next(Next(s, Arrive(0, t)), Lock(0, t)), Wake(0, t')), Answer(0, t'));
    }
  }

  /** The pause costs no more than it must: any number of lookups can be answered, one every 15.5 seconds. */
  lemma AnswersCanGoOn(k: nat, n: nat) returns (acts: seq<Action>)
    requires k >= 1
    ensures var answers := Run(Initial(k), acts).answers;
            |answers| == n && forall i :: 0 <= i < n ==> answers[i] == INTERVAL * (i + 1) as real
  {
    var reached := s => exists acts :: Run(Initial(k), acts) == s;
    forall s, a | reached(s) ensures reached(Next(s, a)) {
      var more :| Run(Initial(k), more) == s;
      assert (more + [a])[..|more|] == more;
      assert Run(Initial(k), more + [a]) == Next(s, a);
    }
    assert Run(Initial(k), []) == Initial(k);
    var s := Answered(reached, k, n);
    acts :| Run(Initial(k), acts) == s;
  }

  /** Answers within [lo, hi]. */
  function Within(answers: seq<real>, lo: real, hi: real): nat {
    if answers == [] then 0
    else Within(answers[..|answers| - 1], lo, hi) + (if lo <= answers[|answers| - 1] <= hi then 1 else 0)
  }

  lemma {:induction false} SpacedGrows(answers: seq<real>, i: nat)
    requires Spaced(answers) && i < |answers|
    ensures answers[i] <= answers[|answers| - 1]
  {
    if i < |answers| - 1 {
      SpacedGrows(answers[..|answers| - 1], i);
    }
  }

  /** The n-th answer of a stretch lies at least n - 1 intervals into it. */
  lemma {:induction false} StretchIsLong(answers: seq<real>, lo: real, hi: real)
    requires Spaced(answers) && Within(answers, lo, hi) >= 1
    ensures exists i :: 0 <= i < |answers| && lo <= answers[i] <= hi
                     && answers[i] >= lo + INTERVAL * (Within(answers, lo, hi) - 1) as real
  {
    var n := |answers| - 1;
    var front := answers[..n];
    if lo <= answers[n] <= hi {
      if Within(front, lo, hi) >= 1 {
        StretchIsLong(front, lo, hi);
        var i :| 0 <= i < |front| && lo <= front[i] <= hi
                 && front[i] >= lo + INTERVAL * (Within(front, lo, hi) - 1) as real;
        SpacedGrows(front, i);
      }
    } else {
      StretchIsLong(front, lo, hi);
      var i :| 0 <= i < |front| && lo <= front[i] <= hi
               && front[i] >= lo + INTERVAL * (Within(front, lo, hi) - 1) as real;
      assert answers[i] == front[i];
    }
  }

  /** Any 60 seconds contain at most four answered requests, for any number of callers and any mix of failures. */
  lemma FourPerMinute(k: nat, acts: seq<Action>, lo: real)
    ensures Within(Run(Initial(k), acts).answers, lo, lo + 60.0) <= 4
  {
    RunKeeps(k, acts);
    var answers := Run(Initial(k), acts).answers;
    if Within(answers, lo, lo + 60.0) >= 1 { StretchIsLong(answers, lo, lo + 60.0); }
  }

  /** And four can be. */
  lemma FourInAMinute(k: nat) returns (acts: seq<Action>)
    requires k >= 1
    ensures Within(Run(Initial(k), acts).answers, INTERVAL, INTERVAL + 60.0) == 4
  {
    acts := AnswersCanGoOn(k, 4);
    var answers := Run(Initial(k), acts).answers;
    assert answers[..3][..2] == answers[..2] && answers[..2][..1] == answers[..1] && answers[..1][..0] == [];
    assert Within(answers[..1], INTERVAL, INTERVAL + 60.0) == 1;
    assert Within(answers[..2], INTERVAL, INTERVAL + 60.0) == 2;
    assert Within(answers[..3], INTERVAL, INTERVAL + 60.0) == 3;
  }
}
