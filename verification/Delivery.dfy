/** The enrichment queue (enrichment/worker.py, `handle_message`, `consume`, `reclaim_loop`, `enrich_one`): a stream
    with a consumer group, handled by any number of loops, where any step can fail and the process can be killed. */
module Delivery {
  /** A stream entry; its id is its position. `job` (which original request it descends from) and `settled` (a handler
      has decided about it) are history. */
  datatype Status = Undelivered | Pending | Acked
  datatype Entry = Entry(job: nat, force: bool, attempt: nat, status: Status, settled: bool)

  /** Why a request ended. */
  datatype Fate = Enriched | FoundFresh | Permanent | GaveUp

  /** Where one loop stands with the message it is handling. */
  datatype Handler = Idle | Working(id: nat) | Readding(id: nat) | Acking(id: nat)

  /** A loop: the messages it was handed and has not started, and the one it is handling. */
  datatype Loop = Loop(batch: set<nat>, handler: Handler)

  /** How `enrich_one` ends. */
  datatype Result = Success | Fresh | Raised(transient: bool)

  datatype State = State(
    entries: seq<Entry>, loops: seq<Loop>,
    // History, read by no step:
    jobs: nat, fates: set<(nat, Fate)>, failures: set<(nat, nat)>, readdFailed: set<nat>,
    handled: nat, repeats: nat)

  datatype Action =
    | Add(force: bool)
    | Deliver(l: nat, id: nat)
    | Reclaim(l: nat, id: nat)
    | Start(l: nat, id: nat)
    | Finish(l: nat, result: Result)
    | Readd(l: nat, ok: bool)
    | Ack(l: nat, ok: bool)
    | Kill

  function Initial(loops: nat): State {
    State([], seq(loops, _ => Loop({}, Idle)), 0, {}, {}, {}, 0, 0)
  }

  predicate Holds(l: Loop, id: nat) { id in l.batch || (!l.handler.Idle? && l.handler.id == id) }

  predicate Enabled(s: State, a: Action) {
    match a
    case Add(_) => true
    case Deliver(l, id) => l < |s.loops| && id < |s.entries| && s.entries[id].status.Undelivered?
    // a loop asks for more only when it is through with what it was handed
    case Reclaim(l, id) => l < |s.loops| && id < |s.entries| && s.entries[id].status.Pending? && !Holds(s.loops[l], id)
    case Start(l, id) => l < |s.loops| && s.loops[l].handler.Idle? && id in s.loops[l].batch && id < |s.entries|
    case Finish(l, r) => l < |s.loops| && s.loops[l].handler.Working? && s.loops[l].handler.id < |s.entries|
                         && (r.Fresh? ==> !s.entries[s.loops[l].handler.id].force)
    case Readd(l, _) => l < |s.loops| && s.loops[l].handler.Readding? && s.loops[l].handler.id < |s.entries|
    case Ack(l, _) => l < |s.loops| && s.loops[l].handler.Acking? && s.loops[l].handler.id < |s.entries|
    case Kill => true
  }

  function SetHandler(s: State, l: nat, h: Handler): State requires l < |s.loops| {
    s.(loops := s.loops[l := s.loops[l].(handler := h)])
  }

  /** A handler has decided about entry `id`: one more handling, or a repeat if some handler had decided before. */
  function Settle(s: State, id: nat): State requires id < |s.entries| {
    if s.entries[id].settled then s.(repeats := s.repeats + 1)
    else s.(handled := s.handled + 1, entries := s.entries[id := s.entries[id].(settled := true)])
  }

  /** What the `except` branch decides. */
  function DoFinish(s: State, l: nat, result: Result, maxAttempts: nat): State
    requires Enabled(s, Finish(l, result))
  {
    var id := s.loops[l].handler.id;
    var e := s.entries[id];
    match result
    case Success => Settle(SetHandler(s, l, Acking(id)), id).(fates := s.fates + {(e.job, Enriched)})
    case Fresh => Settle(SetHandler(s, l, Acking(id)), id).(fates := s.fates + {(e.job, FoundFresh)})
    case Raised(transient) =>
      if transient then
        var s1 := s.(failures := s.failures + {(e.job, e.attempt)});
        if e.attempt + 1 < maxAttempts then SetHandler(s1, l, Readding(id))
        else Settle(SetHandler(s1, l, Acking(id)), id).(fates := s.fates + {(e.job, GaveUp)})
      else Settle(SetHandler(s, l, Acking(id)), id).(fates := s.fates + {(e.job, Permanent)})
  }

  /** The message goes back to the stream one attempt older; a failing re-add is suppressed. */
  function DoReadd(s: State, l: nat, ok: bool): State
    requires Enabled(s, Readd(l, ok))
  {
    var id := s.loops[l].handler.id;
    var e := s.entries[id];
    var s1 := Settle(SetHandler(s, l, Acking(id)), id);
    if ok then s1.(entries := s1.entries + [Entry(e.job, e.force, e.attempt + 1, Undelivered, false)])
    else s1.(readdFailed := s.readdFailed + {e.job})
  }

  function DoAck(s: State, l: nat, ok: bool): State
    requires Enabled(s, Ack(l, ok))
  {
    var id := s.loops[l].handler.id;
    var s1 := SetHandler(s, l, Idle);
    if ok then s1.(entries := s1.entries[id := s1.entries[id].(status := Acked)]) else s1
  }

  function Next(s: State, a: Action, maxAttempts: nat): State {
    if !Enabled(s, a) then s else
    match a
    case Add(force) => s.(entries := s.entries + [Entry(s.jobs, force, 0, Undelivered, false)], jobs := s.jobs + 1)
    case Deliver(l, id) =>
      s.(entries := s.entries[id := s.entries[id].(status := Pending)],
         loops := s.loops[l := s.loops[l].(batch := s.loops[l].batch + {id})])
    case Reclaim(l, id) => s.(loops := s.loops[l := s.loops[l].(batch := s.loops[l].batch + {id})])
    case Start(l, id) => s.(loops := s.loops[l := Loop(s.loops[l].batch - {id}, Working(id))])
    case Finish(l, result) => DoFinish(s, l, result, maxAttempts)
    case Readd(l, ok) => DoReadd(s, l, ok)
    case Ack(l, ok) => DoAck(s, l, ok)
    case Kill => s.(loops := seq(|s.loops|, _ => Loop({}, Idle)))
  }

  function Run(s: State, acts: seq<Action>, maxAttempts: nat): State {
    if acts == [] then s else Next(Run(s, acts[..|acts| - 1], maxAttempts), acts[|acts| - 1], maxAttempts)
  }

  // ───────────────────────── no request is forgotten ─────────────────────────

  predicate Live(s: State, job: nat, id: int) {
    0 <= id < |s.entries| && s.entries[id].job == job && !s.entries[id].status.Acked?
  }

  ghost predicate Resolved(s: State, job: nat) { exists f :: (job, f) in s.fates }

  /** The request has ended, or lives on in an entry later than `id`. */
  ghost predicate Secured(s: State, job: nat, id: int) {
    Resolved(s, job) || job in s.readdFailed || exists k :: k > id && Live(s, job, k)
  }

  ghost predicate HandlersFit(s: State) {
    forall l :: 0 <= l < |s.loops| ==>
      && (forall id :: id in s.loops[l].batch ==> id < |s.entries|)
      && (!s.loops[l].handler.Idle? ==> s.loops[l].handler.id < |s.entries|)
  }

  ghost predicate JobsFit(s: State, maxAttempts: nat) {
    && (forall id :: 0 <= id < |s.entries| ==> s.entries[id].job < s.jobs)
    && (forall j :: 0 <= j < s.jobs ==> Secured(s, j, -1))
    && (forall l :: 0 <= l < |s.loops| && s.loops[l].handler.Acking? && s.loops[l].handler.id < |s.entries| ==>
          Secured(s, s.entries[s.loops[l].handler.id].job, s.loops[l].handler.id))
  }

  ghost predicate AllFailed(failures: set<(nat, nat)>, job: nat, upto: nat) {
    forall b :: 0 <= b < upto ==> (job, b) in failures
  }

  /** Every attempt below an entry's own has failed transiently, and giving up means that all of them did. */
  ghost predicate AttemptsFit(s: State, maxAttempts: nat) {
    && (forall id :: 0 <= id < |s.entries| ==>
          s.entries[id].attempt < maxAttempts && AllFailed(s.failures, s.entries[id].job, s.entries[id].attempt))
    && (forall l :: 0 <= l < |s.loops| && s.loops[l].handler.Readding? && s.loops[l].handler.id < |s.entries| ==>
          var e := s.entries[s.loops[l].handler.id];
          e.attempt + 1 < maxAttempts && AllFailed(s.failures, e.job, e.attempt + 1))
    && (forall j :: (j, GaveUp) in s.fates ==> AllFailed(s.failures, j, maxAttempts))
  }

  lemma HandlersStep(s: State, a: Action, maxAttempts: nat)
    requires HandlersFit(s)
    ensures HandlersFit(Next(s, a, maxAttempts)) && |Next(s, a, maxAttempts).loops| == |s.loops|
  {
  }

  lemma SecuredStep(s: State, a: Action, maxAttempts: nat, job: nat, id: int)
    requires HandlersFit(s) && JobsFit(s, maxAttempts) && Secured(s, job, id)
    ensures Secured(Next(s, a, maxAttempts), job, id)
  {
    var s' := Next(s, a, maxAttempts);
    if Resolved(s, job) {
      var f :| (job, f) in s.fates;
      assert (job, f) in s'.fates;
    } else if job !in s.readdFailed {
      var k :| k > id && Live(s, job, k);
      if !Live(s', job, k) {
        assert a.Ack? && s.loops[a.l].handler == Acking(k);
        var k' :| k' > k && Live(s, job, k');
        assert Live(s', job, k');
      }
    }
  }

  lemma JobsStep(s: State, a: Action, maxAttempts: nat)
    requires HandlersFit(s) && JobsFit(s, maxAttempts)
    ensures JobsFit(Next(s, a, maxAttempts), maxAttempts)
  {
    var s' := Next(s, a, maxAttempts);
    forall j | 0 <= j < s'.jobs ensures Secured(s', j, -1) {
      if j < s.jobs { SecuredStep(s, a, maxAttempts, j, -1); } else { assert Live(s', j, |s.entries|); }
    }
    forall l | 0 <= l < |s'.loops| && s'.loops[l].handler.Acking? && s'.loops[l].handler.id < |s'.entries|
      ensures Secured(s', s'.entries[s'.loops[l].handler.id].job, s'.loops[l].handler.id)
    {
      AckingStep(s, a, maxAttempts, l);
    }
    JobNumbersStep(s, a, maxAttempts);
  }

  lemma JobNumbersStep(s: State, a: Action, maxAttempts: nat)
    requires HandlersFit(s) && forall id :: 0 <= id < |s.entries| ==> s.entries[id].job < s.jobs
    ensures var s' := Next(s, a, maxAttempts);
            && (forall id :: 0 <= id < |s'.entries| ==> s'.entries[id].job < s'.jobs)
            && |s.entries| <= |s'.entries|
            && (forall id :: 0 <= id < |s.entries| ==> s'.entries[id].job == s.entries[id].job)
  {
  }

  lemma AckingStep(s: State, a: Action, maxAttempts: nat, l: nat)
    requires HandlersFit(s) && JobsFit(s, maxAttempts)
    requires var s' := Next(s, a, maxAttempts); l < |s'.loops| && s'.loops[l].handler.Acking?
    ensures var s' := Next(s, a, maxAttempts);
            var id := s'.loops[l].handler.id;
            id < |s'.entries| ==> Secured(s', s'.entries[id].job, id)
  {
    HandlersStep(s, a, maxAttempts);
    JobNumbersStep(s, a, maxAttempts);
    var h' := Next(s, a, maxAttempts).loops[l].handler;
    if s.loops[l].handler == h' {
      SecuredStep(s, a, maxAttempts, s.entries[h'.id].job, h'.id);
    } else if !s.loops[l].handler.Acking? {
      DecisionSecures(s, a, maxAttempts, l);
    }
  }

  /** When a handler turns to acknowledging, it has resolved the request or handed it to a younger entry. */
  lemma DecisionSecures(s: State, a: Action, maxAttempts: nat, l: nat)
    requires HandlersFit(s) && l < |s.loops| && !s.loops[l].handler.Acking?
    requires Next(s, a, maxAttempts).loops[l].handler.Acking?
    ensures var s' := Next(s, a, maxAttempts);
            var id := s'.loops[l].handler.id;
            id < |s'.entries| && Secured(s', s'.entries[id].job, id)
  {
    var s' := Next(s, a, maxAttempts);
    var job := s.entries[s'.loops[l].handler.id].job;
    if a.Readd? {
      if a.ok { assert Live(s', job, |s.entries|); }
    } else {
      assert (job, Enriched) in s'.fates || (job, FoundFresh) in s'.fates || (job, GaveUp) in s'.fates
          || (job, Permanent) in s'.fates;
    }
  }

  lemma AttemptsStep(s: State, a: Action, maxAttempts: nat)
    requires maxAttempts >= 1 && HandlersFit(s) && AttemptsFit(s, maxAttempts)
    ensures AttemptsFit(Next(s, a, maxAttempts), maxAttempts)
  {
    if Enabled(s, a) {
      match a
      case Finish(l, result) => AttemptsFinish(s, l, result, maxAttempts);
      case Readd(l, ok) => AttemptsReadd(s, l, ok, maxAttempts);
      case Add(_) =>
      case Deliver(_, _) =>
      case Reclaim(_, _) =>
      case Start(_, _) =>
      case Ack(_, _) =>
      case Kill =>
    }
  }

  lemma AttemptsReadd(s: State, l: nat, ok: bool, maxAttempts: nat)
    requires HandlersFit(s) && AttemptsFit(s, maxAttempts) && Enabled(s, Readd(l, ok))
    ensures AttemptsFit(DoReadd(s, l, ok), maxAttempts)
  {
  }

  lemma AttemptsFinish(s: State, l: nat, result: Result, maxAttempts: nat)
    requires HandlersFit(s) && AttemptsFit(s, maxAttempts) && Enabled(s, Finish(l, result))
    ensures AttemptsFit(DoFinish(s, l, result, maxAttempts), maxAttempts)
  {
    var e := s.entries[s.loops[l].handler.id];
    var failures' := s.failures + {(e.job, e.attempt)};
    assert AllFailed(failures', e.job, e.attempt + 1);
    assert forall j, n :: AllFailed(s.failures, j, n) ==> AllFailed(failures', j, n);
  }

  ghost predicate Inv(s: State, maxAttempts: nat) {
    HandlersFit(s) && JobsFit(s, maxAttempts) && AttemptsFit(s, maxAttempts)
  }

  /** Every reachable state keeps all invariants, whatever fails and whenever the process is killed. */
  lemma {:induction false} RunKeeps(loops: nat, acts: seq<Action>, maxAttempts: nat)
    requires maxAttempts >= 1
    ensures Inv(Run(Initial(loops), acts, maxAttempts), maxAttempts)
  {
    if acts != [] {
      var before := Run(Initial(loops), acts[..|acts| - 1], maxAttempts);
      RunKeeps(loops, acts[..|acts| - 1], maxAttempts);
      HandlersStep(before, acts[|acts| - 1], maxAttempts);
      JobsStep(before, acts[|acts| - 1], maxAttempts);
      AttemptsStep(before, acts[|acts| - 1], maxAttempts);
    }
  }

  /** A queued address stays undelivered or pending until it is enriched or found fresh, fails permanently, or ends a
      chain in which every one of the `maxAttempts` attempts failed transiently, unless one of its re-adds failed. */
  lemma NoRequestForgotten(loops: nat, acts: seq<Action>, maxAttempts: nat, job: nat)
    requires maxAttempts >= 1 && job < Run(Initial(loops), acts, maxAttempts).jobs
    ensures var s := Run(Initial(loops), acts, maxAttempts);
            || (exists id :: Live(s, job, id))
            || (job, Enriched) in s.fates || (job, FoundFresh) in s.fates || (job, Permanent) in s.fates
            || ((job, GaveUp) in s.fates && forall b :: 0 <= b < maxAttempts ==> (job, b) in s.failures)
            || job in s.readdFailed
  {
    RunKeeps(loops, acts, maxAttempts);
    var s := Run(Initial(loops), acts, maxAttempts);
    assert Secured(s, job, -1);
    if Resolved(s, job) {
      var f :| (job, f) in s.fates;
      match f
      case Enriched =>
      case FoundFresh =>
      case Permanent =>
      case GaveUp => assert AllFailed(s.failures, job, maxAttempts);
    } else if job !in s.readdFailed {
      var k :| k > -1 && Live(s, job, k);
    }
  }

  /** No attempt number on the stream reaches the limit. */
  lemma AttemptsBelowLimit(loops: nat, acts: seq<Action>, maxAttempts: nat, id: nat)
    requires maxAttempts >= 1 && id < |Run(Initial(loops), acts, maxAttempts).entries|
    ensures Run(Initial(loops), acts, maxAttempts).entries[id].attempt < maxAttempts
  {
    RunKeeps(loops, acts, maxAttempts);
  }

  // ───────────────────────── work is bounded ─────────────────────────

  /** Handlings an entry can still cause: none once a handler has decided about it. */
  function Weight(e: Entry, maxAttempts: nat): nat {
    if e.settled || e.attempt >= maxAttempts then 0 else maxAttempts - e.attempt
  }

  function Potential(entries: seq<Entry>, maxAttempts: nat): nat {
    if entries == [] then 0
    else Potential(entries[..|entries| - 1], maxAttempts) + Weight(entries[|entries| - 1], maxAttempts)
  }

  lemma {:induction false} PotentialUpdate(es: seq<Entry>, k: nat, e: Entry, maxAttempts: nat)
    requires k < |es|
    ensures Potential(es[k := e], maxAttempts) + Weight(es[k], maxAttempts)
         == Potential(es, maxAttempts) + Weight(e, maxAttempts)
  {
    var n := |es| - 1;
    if k == n {
      assert es[k := e][..n] == es[..n];
    } else {
      PotentialUpdate(es[..n], k, e, maxAttempts);
      assert es[k := e][..n] == es[..n][k := e];
    }
  }

  lemma PotentialAppend(es: seq<Entry>, e: Entry, maxAttempts: nat)
    ensures Potential(es + [e], maxAttempts) == Potential(es, maxAttempts) + Weight(e, maxAttempts)
  {
    assert (es + [e])[..|es|] == es;
  }

  function Budget(s: State, maxAttempts: nat): int {
    s.handled + Potential(s.entries, maxAttempts) - maxAttempts * s.repeats
  }

  /** Deciding about an entry for the first time uses up all of its weight, and that weight is at least one. */
  lemma SettleSpends(s: State, id: nat, maxAttempts: nat)
    requires id < |s.entries| && s.entries[id].attempt < maxAttempts
    ensures var s' := Settle(s, id);
            if s.entries[id].settled then s'.repeats == s.repeats + 1 && s'.handled == s.handled
              && s'.entries == s.entries
            else s'.repeats == s.repeats && s'.handled == s.handled + 1
                 && Potential(s'.entries, maxAttempts)
                    == Potential(s.entries, maxAttempts) - (maxAttempts - s.entries[id].attempt)
  {
    if !s.entries[id].settled { PotentialUpdate(s.entries, id, s.entries[id].(settled := true), maxAttempts); }
  }

  /** Only new requests and repeated handlings add to handlings done plus handlings to come. */
  lemma BudgetStep(s: State, a: Action, maxAttempts: nat)
    requires maxAttempts >= 1 && Inv(s, maxAttempts)
    ensures Budget(Next(s, a, maxAttempts), maxAttempts)
         <= Budget(s, maxAttempts) + (if a.Add? then maxAttempts else 0)
  {
    if Enabled(s, a) {
      match a
      case Add(force) => PotentialAppend(s.entries, Entry(s.jobs, force, 0, Undelivered, false), maxAttempts);
      case Deliver(_, id) => PotentialUpdate(s.entries, id, s.entries[id].(status := Pending), maxAttempts);
      case Finish(l, result) => BudgetFinish(s, l, result, maxAttempts);
      case Readd(l, ok) => BudgetReadd(s, l, ok, maxAttempts);
      case Ack(l, ok) =>
        var id := s.loops[l].handler.id;
        PotentialUpdate(s.entries, id, s.entries[id].(status := Acked), maxAttempts);
      case Reclaim(_, _) =>
      case Start(_, _) =>
      case Kill =>
    }
  }

  lemma RepeatsCost(maxAttempts: nat, repeats: nat)
    ensures maxAttempts * (repeats + 1) == maxAttempts * repeats + maxAttempts
  {
  }

  lemma BudgetFinish(s: State, l: nat, result: Result, maxAttempts: nat)
    requires maxAttempts >= 1 && Inv(s, maxAttempts) && Enabled(s, Finish(l, result))
    ensures Budget(DoFinish(s, l, result, maxAttempts), maxAttempts) <= Budget(s, maxAttempts)
  {
    var id := s.loops[l].handler.id;
    RepeatsCost(maxAttempts, s.repeats);
    if !s.entries[id].settled { PotentialUpdate(s.entries, id, s.entries[id].(settled := true), maxAttempts); }
  }

  lemma BudgetReadd(s: State, l: nat, ok: bool, maxAttempts: nat)
    requires maxAttempts >= 1 && Inv(s, maxAttempts) && Enabled(s, Readd(l, ok))
    ensures Budget(DoReadd(s, l, ok), maxAttempts) <= Budget(s, maxAttempts)
  {
    var id := s.loops[l].handler.id;
    var e := s.entries[id];
    RepeatsCost(maxAttempts, s.repeats);
    SettleSpends(SetHandler(s, l, Acking(id)), id, maxAttempts);
    PotentialAppend(Settle(SetHandler(s, l, Acking(id)), id).entries,
                    Entry(e.job, e.force, e.attempt + 1, Undelivered, false), maxAttempts);
  }

  lemma AddsOneJob(s: State, a: Action, maxAttempts: nat)
    ensures Next(s, a, maxAttempts).jobs == if a.Add? then s.jobs + 1 else s.jobs
  {
  }

  /** What is left of the allowance of `maxAttempts` handlings per request never goes down. */
  function Allowance(s: State, maxAttempts: nat): int { maxAttempts * s.jobs - Budget(s, maxAttempts) }

  lemma AllowanceStep(s: State, a: Action, maxAttempts: nat)
    requires maxAttempts >= 1 && Inv(s, maxAttempts)
    ensures Allowance(Next(s, a, maxAttempts), maxAttempts) >= Allowance(s, maxAttempts)
  {
    AddsOneJob(s, a, maxAttempts);
    BudgetStep(s, a, maxAttempts);
    RepeatsCost(maxAttempts, s.jobs);
  }

  lemma {:induction false} AllowanceHolds(loops: nat, acts: seq<Action>, maxAttempts: nat)
    requires maxAttempts >= 1
    ensures Allowance(Run(Initial(loops), acts, maxAttempts), maxAttempts) >= 0
  {
    if acts != [] {
      AllowanceHolds(loops, acts[..|acts| - 1], maxAttempts);
      RunKeeps(loops, acts[..|acts| - 1], maxAttempts);
      AllowanceStep(Run(Initial(loops), acts[..|acts| - 1], maxAttempts), acts[|acts| - 1], maxAttempts);
    }
  }

  /** In every run, handlings done and to come are bounded by `maxAttempts` per request and per repeated handling. */
  lemma HandlingsBounded(loops: nat, acts: seq<Action>, maxAttempts: nat)
    requires maxAttempts >= 1
    ensures var s := Run(Initial(loops), acts, maxAttempts);
            s.handled + Potential(s.entries, maxAttempts) <= maxAttempts * s.jobs + maxAttempts * s.repeats
  {
    AllowanceHolds(loops, acts, maxAttempts);
  }

  // ───────────────────────── repeated handlings ─────────────────────────

  /** The decisions a loop is still going to take about an entry. */
  function Due(l: Loop, id: nat): nat {
    (if id in l.batch then 1 else 0)
    + (if (l.handler.Working? || l.handler.Readding?) && l.handler.id == id then 1 else 0)
  }

  function DueOf(loops: seq<Loop>, id: nat): nat {
    if loops == [] then 0 else DueOf(loops[..|loops| - 1], id) + Due(loops[|loops| - 1], id)
  }

  lemma {:induction false} DueUpdate(loops: seq<Loop>, l: nat, x: Loop, id: nat)
    requires l < |loops|
    ensures DueOf(loops[l := x], id) + Due(loops[l], id) == DueOf(loops, id) + Due(x, id)
  {
    var n := |loops| - 1;
    if l == n {
      assert loops[l := x][..n] == loops[..n];
    } else {
      DueUpdate(loops[..n], l, x, id);
      assert loops[l := x][..n] == loops[..n][l := x];
    }
  }

  lemma {:induction false} DueZeroIff(loops: seq<Loop>, id: nat)
    ensures DueOf(loops, id) == 0 <==> forall l :: 0 <= l < |loops| ==> Due(loops[l], id) == 0
  {
    if loops != [] {
      var front := loops[..|loops| - 1];
      DueZeroIff(front, id);
      assert forall l :: 0 <= l < |front| ==> loops[l] == front[l];
    }
  }

  /** Of the decisions due about an entry, those beyond the first one ever. */
  function Surplus(loops: seq<Loop>, e: Entry, id: nat): nat {
    var due := DueOf(loops, id);
    if e.settled || due == 0 then due else due - 1
  }

  function Spare(loops: seq<Loop>, entries: seq<Entry>): nat {
    if entries == [] then 0
    else Spare(loops, entries[..|entries| - 1]) + Surplus(loops, entries[|entries| - 1], |entries| - 1)
  }

  /** If the surplus of at most one entry changes, the sum changes by as much. */
  lemma {:induction false} SpareMoves(loops: seq<Loop>, loops': seq<Loop>, es: seq<Entry>, es': seq<Entry>, id: nat)
    requires |es| == |es'|
    requires forall k :: 0 <= k < |es| && k != id ==> Surplus(loops, es[k], k) == Surplus(loops', es'[k], k)
    ensures Spare(loops', es') + (if id < |es| then Surplus(loops, es[id], id) else 0)
         == Spare(loops, es) + (if id < |es| then Surplus(loops', es'[id], id) else 0)
  {
    if es != [] { SpareMoves(loops, loops', es[..|es| - 1], es'[..|es| - 1], id); }
  }

  lemma {:induction false} SpareNone(loops: seq<Loop>, es: seq<Entry>)
    requires forall k :: 0 <= k < |es| ==> DueOf(loops, k) == 0
    ensures Spare(loops, es) == 0
  {
    if es != [] { SpareNone(loops, es[..|es| - 1]); }
  }

  lemma SpareAppend(loops: seq<Loop>, es: seq<Entry>, e: Entry)
    ensures Spare(loops, es + [e]) == Spare(loops, es) + Surplus(loops, e, |es|)
  {
    assert (es + [e])[..|es|] == es;
  }

  /** Nobody holds an undelivered entry, nor has anybody decided about it. */
  ghost predicate NewFit(s: State) {
    && HandlersFit(s)
    && forall id :: 0 <= id < |s.entries| && s.entries[id].status.Undelivered? ==>
         !s.entries[id].settled && forall l :: 0 <= l < |s.loops| ==> !Holds(s.loops[l], id)
  }

  lemma NewFitStep(s: State, a: Action, maxAttempts: nat)
    requires NewFit(s)
    ensures NewFit(Next(s, a, maxAttempts))
  {
    HandlersStep(s, a, maxAttempts);
    var s' := Next(s, a, maxAttempts);
    forall id | 0 <= id < |s'.entries| && s'.entries[id].status.Undelivered?
      ensures !s'.entries[id].settled && forall l :: 0 <= l < |s'.loops| ==> !Holds(s'.loops[l], id)
    {
      NewStays(s, a, maxAttempts, id);
    }
  }

  lemma NewStays(s: State, a: Action, maxAttempts: nat, id: nat)
    requires NewFit(s) && id < |Next(s, a, maxAttempts).entries|
        && Next(s, a, maxAttempts).entries[id].status.Undelivered?
    ensures var s' := Next(s, a, maxAttempts);
            !s'.entries[id].settled && forall l :: 0 <= l < |s'.loops| ==> !Holds(s'.loops[l], id)
  {
    HandlersStep(s, a, maxAttempts);
    NewEntry(s, a, maxAttempts, id);
    forall l | 0 <= l < |s.loops| ensures !Holds(Next(s, a, maxAttempts).loops[l], id) {
      if Holds(Next(s, a, maxAttempts).loops[l], id) { HandedBefore(s, a, maxAttempts, l, id); }
    }
  }

  /** An undelivered entry is new or was undelivered before, nobody has decided about it, and it was not handed out. */
  lemma NewEntry(s: State, a: Action, maxAttempts: nat, id: nat)
    requires NewFit(s) && id < |Next(s, a, maxAttempts).entries|
        && Next(s, a, maxAttempts).entries[id].status.Undelivered?
    ensures !Next(s, a, maxAttempts).entries[id].settled
    ensures id < |s.entries| ==> s.entries[id].status.Undelivered?
    ensures id < |s.entries| && Enabled(s, a) ==> !((a.Deliver? || a.Reclaim?) && a.id == id)
  {
  }

  /** Whatever a loop holds it held before, or was handed now. */
  lemma HandedBefore(s: State, a: Action, maxAttempts: nat, l: nat, id: nat)
    requires HandlersFit(s) && l < |s.loops| == |Next(s, a, maxAttempts).loops|
    requires Holds(Next(s, a, maxAttempts).loops[l], id)
    ensures Holds(s.loops[l], id) || (Enabled(s, a) && (a.Deliver? || a.Reclaim?) && a.id == id && id < |s.entries|)
  {
  }

  /** The reclaimed entry is undecided, and no loop is going to decide about it. */
  predicate Abandoned(s: State, id: nat) { id < |s.entries| && !s.entries[id].settled && DueOf(s.loops, id) == 0 }

  predicate Hasty(s: State, a: Action) { a.Reclaim? && Enabled(s, a) && !Abandoned(s, a.id) }

  /** Decisions taken and due beyond the first per entry: only a hasty reclaim adds one. */
  function Excess(s: State): nat { s.repeats + Spare(s.loops, s.entries) }

  lemma NobodyDue(loops: seq<Loop>, id: nat)
    requires forall l :: 0 <= l < |loops| ==> !Holds(loops[l], id)
    ensures DueOf(loops, id) == 0
  {
    DueZeroIff(loops, id);
  }

  lemma ExcessStep(s: State, a: Action, maxAttempts: nat)
    requires NewFit(s)
    ensures Excess(Next(s, a, maxAttempts)) <= Excess(s) + (if Hasty(s, a) then 1 else 0)
  {
    if Enabled(s, a) {
      match a
      case Add(force) =>
        NobodyDue(s.loops, |s.entries|);
        SpareAppend(s.loops, s.entries, Entry(s.jobs, force, 0, Undelivered, false));
      case Deliver(l, id) => ExcessHand(s, a, l, id, maxAttempts);
      case Reclaim(l, id) => ExcessHand(s, a, l, id, maxAttempts);
      case Start(l, id) => ExcessStart(s, l, id, maxAttempts);
      case Finish(l, result) => ExcessFinish(s, l, result, maxAttempts);
      case Readd(l, ok) => ExcessReadd(s, l, ok, maxAttempts);
      case Ack(l, ok) => ExcessAck(s, l, ok, maxAttempts);
      case Kill => ExcessKill(s, maxAttempts);
    }
  }

  /** Loop l changes: every other entry keeps its surplus if the loop owes it as much as before. */
  lemma LoopMoves(s: State, l: nat, x: Loop, es': seq<Entry>, id: nat)
    requires l < |s.loops| && id < |s.entries| == |es'| && es' == s.entries[id := es'[id]]
    requires forall k: nat :: k != id ==> Due(x, k) == Due(s.loops[l], k)
    ensures Spare(s.loops[l := x], es') + Surplus(s.loops, s.entries[id], id)
         == Spare(s.loops, s.entries) + Surplus(s.loops[l := x], es'[id], id)
    ensures DueOf(s.loops[l := x], id) + Due(s.loops[l], id) == DueOf(s.loops, id) + Due(x, id)
  {
    forall k | 0 <= k < |s.entries| && k != id
      ensures Surplus(s.loops, s.entries[k], k) == Surplus(s.loops[l := x], es'[k], k)
    {
      DueUpdate(s.loops, l, x, k);
    }
    SpareMoves(s.loops, s.loops[l := x], s.entries, es', id);
    DueUpdate(s.loops, l, x, id);
  }

  lemma ExcessHand(s: State, a: Action, l: nat, id: nat, maxAttempts: nat)
    requires NewFit(s) && Enabled(s, a) && (a == Deliver(l, id) || a == Reclaim(l, id))
    ensures Excess(Next(s, a, maxAttempts)) <= Excess(s) + (if Hasty(s, a) then 1 else 0)
  {
    var s' := Next(s, a, maxAttempts);
    if a.Deliver? { NobodyDue(s.loops, id); }
    assert s'.entries == s.entries[id := s'.entries[id]];
    LoopMoves(s, l, s'.loops[l], s'.entries, id);
  }

  lemma ExcessStart(s: State, l: nat, id: nat, maxAttempts: nat)
    requires NewFit(s) && Enabled(s, Start(l, id))
    ensures Excess(Next(s, Start(l, id), maxAttempts)) == Excess(s)
  {
    var s' := Next(s, Start(l, id), maxAttempts);
    assert s.entries == s.entries[id := s.entries[id]];
    LoopMoves(s, l, s'.loops[l], s.entries, id);
  }

  /** A decision uses up what was due. */
  lemma ExcessSettle(s: State, l: nat, id: nat)
    requires l < |s.loops| && id < |s.entries|
    requires s.loops[l].handler == Working(id) || s.loops[l].handler == Readding(id)
    ensures Excess(Settle(SetHandler(s, l, Acking(id)), id)) == Excess(s)
    ensures Settle(SetHandler(s, l, Acking(id)), id).loops == s.loops[l := s.loops[l].(handler := Acking(id))]
  {
    var s' := Settle(SetHandler(s, l, Acking(id)), id);
    assert s'.entries == s.entries[id := s'.entries[id]];
    LoopMoves(s, l, s.loops[l].(handler := Acking(id)), s'.entries, id);
  }

  lemma ExcessFinish(s: State, l: nat, result: Result, maxAttempts: nat)
    requires NewFit(s) && Enabled(s, Finish(l, result))
    ensures Excess(Next(s, Finish(l, result), maxAttempts)) == Excess(s)
  {
    var id := s.loops[l].handler.id;
    ExcessSettle(s, l, id);
    assert s.entries == s.entries[id := s.entries[id]];
    LoopMoves(s, l, s.loops[l].(handler := Readding(id)), s.entries, id);
  }

  lemma ExcessReadd(s: State, l: nat, ok: bool, maxAttempts: nat)
    requires NewFit(s) && Enabled(s, Readd(l, ok))
    ensures Excess(Next(s, Readd(l, ok), maxAttempts)) == Excess(s)
  {
    var id := s.loops[l].handler.id;
    var e := s.entries[id];
    ExcessSettle(s, l, id);
    var s1 := Settle(SetHandler(s, l, Acking(id)), id);
    NobodyDue(s1.loops, |s.entries|);
    SpareAppend(s1.loops, s1.entries, Entry(e.job, e.force, e.attempt + 1, Undelivered, false));
  }

  lemma ExcessAck(s: State, l: nat, ok: bool, maxAttempts: nat)
    requires NewFit(s) && Enabled(s, Ack(l, ok))
    ensures Excess(Next(s, Ack(l, ok), maxAttempts)) == Excess(s)
  {
    var s' := Next(s, Ack(l, ok), maxAttempts);
    var id := s.loops[l].handler.id;
    assert s'.entries == s.entries[id := s'.entries[id]];
    LoopMoves(s, l, s.loops[l].(handler := Idle), s'.entries, id);
  }

  lemma ExcessKill(s: State, maxAttempts: nat)
    ensures Excess(Next(s, Kill, maxAttempts)) <= Excess(s)
  {
    var s' := Next(s, Kill, maxAttempts);
    forall k | 0 <= k < |s'.entries| ensures DueOf(s'.loops, k) == 0 { NobodyDue(s'.loops, k); }
    SpareNone(s'.loops, s'.entries);
  }

  /** The hasty reclaims of a run. */
  function HastySteps(s: State, acts: seq<Action>, maxAttempts: nat): nat {
    if acts == [] then 0
    else
      HastySteps(s, acts[..|acts| - 1], maxAttempts)
      + (if Hasty(Run(s, acts[..|acts| - 1], maxAttempts), acts[|acts| - 1]) then 1 else 0)
  }

  function Reclaims(acts: seq<Action>): nat {
    if acts == [] then 0 else Reclaims(acts[..|acts| - 1]) + (if acts[|acts| - 1].Reclaim? then 1 else 0)
  }

  lemma {:induction false} HastyAreReclaims(s: State, acts: seq<Action>, maxAttempts: nat)
    ensures HastySteps(s, acts, maxAttempts) <= Reclaims(acts)
  {
    if acts != [] { HastyAreReclaims(s, acts[..|acts| - 1], maxAttempts); }
  }

  lemma {:induction false} ExcessRun(s: State, acts: seq<Action>, maxAttempts: nat)
    requires NewFit(s)
    ensures NewFit(Run(s, acts, maxAttempts))
    ensures Excess(Run(s, acts, maxAttempts)) <= Excess(s) + HastySteps(s, acts, maxAttempts)
  {
    if acts != [] {
      var front := acts[..|acts| - 1];
      ExcessRun(s, front, maxAttempts);
      NewFitStep(Run(s, front, maxAttempts), acts[|acts| - 1], maxAttempts);
      ExcessStep(Run(s, front, maxAttempts), acts[|acts| - 1], maxAttempts);
    }
  }

  /** Whatever fails and whenever the process is killed, decisions are repeated at most once per reclaim of an entry
      that was decided or in some loop's hands, let alone per reclaim. */
  lemma RepeatsAtMostReclaims(loops: nat, acts: seq<Action>, maxAttempts: nat)
    ensures Run(Initial(loops), acts, maxAttempts).repeats <= HastySteps(Initial(loops), acts, maxAttempts)
    ensures HastySteps(Initial(loops), acts, maxAttempts) <= Reclaims(acts)
  {
    ExcessRun(Initial(loops), acts, maxAttempts);
    HastyAreReclaims(Initial(loops), acts, maxAttempts);
  }

  /** All decisions together: `maxAttempts` per request, and as many and one more per hasty reclaim. */
  lemma DecisionsBounded(loops: nat, acts: seq<Action>, maxAttempts: nat)
    requires maxAttempts >= 1
    ensures var s := Run(Initial(loops), acts, maxAttempts);
            s.handled + s.repeats
            <= maxAttempts * s.jobs + (maxAttempts + 1) * HastySteps(Initial(loops), acts, maxAttempts)
  {
    HandlingsBounded(loops, acts, maxAttempts);
    RepeatsAtMostReclaims(loops, acts, maxAttempts);
    var s := Run(Initial(loops), acts, maxAttempts);
    AddUp(s.handled, Potential(s.entries, maxAttempts), s.jobs, s.repeats,
          HastySteps(Initial(loops), acts, maxAttempts), maxAttempts);
  }

  lemma AddUp(handled: nat, potential: nat, jobs: nat, repeats: nat, hasty: nat, m: nat)
    requires handled + potential <= m * jobs + m * repeats && repeats <= hasty
    ensures handled + repeats <= m * jobs + (m + 1) * hasty
  {
    assert (m + 1) * hasty == m * hasty + hasty;
    assert m * repeats <= m * hasty;
  }

  /** As long as reclaim takes over abandoned entries only, whatever else fails and however often the process is killed,
      no entry is decided twice and n requests are done with after at most `maxAttempts` * n handlings. */
  lemma OrderlyHandlings(loops: nat, acts: seq<Action>, maxAttempts: nat)
    requires maxAttempts >= 1 && HastySteps(Initial(loops), acts, maxAttempts) == 0
    ensures var s := Run(Initial(loops), acts, maxAttempts);
            s.repeats == 0 && s.handled + Potential(s.entries, maxAttempts) <= maxAttempts * s.jobs
  {
    RepeatsAtMostReclaims(loops, acts, maxAttempts);
    AllowanceHolds(loops, acts, maxAttempts);
    assert maxAttempts * 0 == 0;
  }

  // ───────────────────────── which reclaims repeat work ─────────────────────────

  lemma RunSnoc(s: State, acts: seq<Action>, a: Action, maxAttempts: nat)
    ensures Run(s, acts + [a], maxAttempts) == Next(Run(s, acts, maxAttempts), a, maxAttempts)
    ensures Reclaims(acts + [a]) == Reclaims(acts) + (if a.Reclaim? then 1 else 0)
  {
    assert (acts + [a])[..|acts|] == acts;
  }

  /** `acts` leads from s to s' without a reclaim. */
  ghost predicate Leads(s: State, acts: seq<Action>, s': State, maxAttempts: nat) {
    Run(s, acts, maxAttempts) == s' && Reclaims(acts) == 0
  }

  lemma LeadsOn(s: State, acts: seq<Action>, s': State, a: Action, maxAttempts: nat)
    requires Leads(s, acts, s', maxAttempts) && !a.Reclaim?
    ensures Leads(s, acts + [a], Next(s', a, maxAttempts), maxAttempts)
  {
    RunSnoc(s, acts, a, maxAttempts);
  }

  /** What loop l does leaves the other loops alone, and adds nothing to what is repeated or due to be. */
  ghost predicate Later(s: State, s': State, l: nat) {
    && NewFit(s') && |s'.loops| == |s.loops| && Excess(s') == Excess(s)
    && (forall m :: 0 <= m < |s.loops| && m != l ==> s'.loops[m] == s.loops[m])
  }

  /** A loop working on an entry decides about it. */
  lemma Decides(s0: State, acts: seq<Action>, s: State, l: nat, maxAttempts: nat) returns (more: seq<Action>, s': State)
    requires Leads(s0, acts, s, maxAttempts) && NewFit(s) && l < |s.loops|
    requires s.loops[l].handler.Working? || s.loops[l].handler.Readding?
    ensures Leads(s0, more, s', maxAttempts) && Later(s, s', l)
    ensures s'.loops[l] == Loop(s.loops[l].batch, Acking(s.loops[l].handler.id))
  {
    var a := if s.loops[l].handler.Working? then Finish(l, Success) else Readd(l, false);
    LeadsOn(s0, acts, s, a, maxAttempts);
    NewFitStep(s, a, maxAttempts);
    if s.loops[l].handler.Working? {
      ExcessFinish(s, l, Success, maxAttempts);
    } else {
      ExcessReadd(s, l, false, maxAttempts);
    }
    more, s' := acts + [a], Next(s, a, maxAttempts);
  }

  /** A busy loop brings its message to an end. */
  lemma FreesUp(s0: State, acts: seq<Action>, s: State, l: nat, maxAttempts: nat) returns (more: seq<Action>, s': State)
    requires Leads(s0, acts, s, maxAttempts) && NewFit(s) && l < |s.loops|
    ensures Leads(s0, more, s', maxAttempts) && Later(s, s', l)
    ensures s'.loops[l] == Loop(s.loops[l].batch, Idle)
  {
    more, s' := acts, s;
    if s.loops[l].handler.Working? || s.loops[l].handler.Readding? {
      more, s' := Decides(s0, more, s', l, maxAttempts);
    }
    if s'.loops[l].handler.Acking? {
      LeadsOn(s0, more, s', Ack(l, true), maxAttempts);
      NewFitStep(s', Ack(l, true), maxAttempts);
      ExcessAck(s', l, true, maxAttempts);
      more, s' := more + [Ack(l, true)], Next(s', Ack(l, true), maxAttempts);
    }
  }

  /** A loop works off everything it was handed. */
  lemma {:induction false} WorksOff(s0: State, acts: seq<Action>, s: State, l: nat, maxAttempts: nat)
    returns (more: seq<Action>, s': State)
    requires Leads(s0, acts, s, maxAttempts) && NewFit(s) && l < |s.loops|
    ensures Leads(s0, more, s', maxAttempts) && Later(s, s', l) && s'.loops[l] == Loop({}, Idle)
    decreases |s.loops[l].batch|
  {
    more, s' := FreesUp(s0, acts, s, l, maxAttempts);
    if s'.loops[l].batch != {} {
      var id :| id in s'.loops[l].batch;
      LeadsOn(s0, more, s', Start(l, id), maxAttempts);
      NewFitStep(s', Start(l, id), maxAttempts);
      ExcessStart(s', l, id, maxAttempts);
      more, s' := WorksOff(s0, more + [Start(l, id)], Next(s', Start(l, id), maxAttempts), l, maxAttempts);
    }
  }

  lemma {:induction false} AllWorkOff(s0: State, acts: seq<Action>, s: State, n: nat, maxAttempts: nat)
    returns (more: seq<Action>, s': State)
    requires Leads(s0, acts, s, maxAttempts) && NewFit(s) && n <= |s.loops|
    ensures Leads(s0, more, s', maxAttempts) && NewFit(s') && |s'.loops| == |s.loops| && Excess(s') == Excess(s)
    ensures forall l :: 0 <= l < n ==> s'.loops[l] == Loop({}, Idle)
  {
    more, s' := acts, s;
    if n > 0 {
      more, s' := AllWorkOff(s0, acts, s, n - 1, maxAttempts);
      more, s' := WorksOff(s0, more, s', n - 1, maxAttempts);
    }
  }

  /** From any state without another reclaim, repeats never come to more than the excess, and can come to exactly
      that. */
  lemma MostRepeats(s: State, maxAttempts: nat)
    requires NewFit(s)
    ensures forall more, s' :: Leads(s, more, s', maxAttempts) ==> s'.repeats <= Excess(s)
    ensures exists more, s' :: Leads(s, more, s', maxAttempts) && s'.repeats == Excess(s)
  {
    forall more, s' | Leads(s, more, s', maxAttempts) ensures s'.repeats <= Excess(s) {
      ExcessRun(s, more, maxAttempts);
      HastyAreReclaims(s, more, maxAttempts);
    }
    var more, s' := AllWorkOff(s, [], s, |s.loops|, maxAttempts);
    forall k | 0 <= k < |s'.entries| ensures DueOf(s'.loops, k) == 0 { NobodyDue(s'.loops, k); }
    SpareNone(s'.loops, s'.entries);
  }

  /** In every reachable state: a reclaim makes one more repeated decision possible, without any further reclaim, if and
      only if its entry has been decided or some loop is going to decide about it; otherwise it adds none. */
  lemma ReclaimRepeatsIff(loops: nat, acts: seq<Action>, maxAttempts: nat, l: nat, id: nat)
    requires Enabled(Run(Initial(loops), acts, maxAttempts), Reclaim(l, id))
    ensures var s := Run(Initial(loops), acts, maxAttempts);
            var s1 := Next(s, Reclaim(l, id), maxAttempts);
            && Excess(s1) == Excess(s) + (if Abandoned(s, id) then 0 else 1)
            && (forall more, s' :: Leads(s, more, s', maxAttempts) ==> s'.repeats <= Excess(s))
            && ((exists more, s' :: Leads(s1, more, s', maxAttempts) && s'.repeats > Excess(s)) <==> !Abandoned(s, id))
  {
    ExcessRun(Initial(loops), acts, maxAttempts);
    var s := Run(Initial(loops), acts, maxAttempts);
    NewFitStep(s, Reclaim(l, id), maxAttempts);
    ReclaimAdds(s, l, id, maxAttempts);
    MostRepeats(s, maxAttempts);
    MostRepeats(Next(s, Reclaim(l, id), maxAttempts), maxAttempts);
  }

  lemma ReclaimAdds(s: State, l: nat, id: nat, maxAttempts: nat)
    requires NewFit(s) && Enabled(s, Reclaim(l, id))
    ensures Excess(Next(s, Reclaim(l, id), maxAttempts)) == Excess(s) + (if Abandoned(s, id) then 0 else 1)
  {
    var s' := Next(s, Reclaim(l, id), maxAttempts);
    assert s.entries == s.entries[id := s.entries[id]];
    LoopMoves(s, l, s'.loops[l], s'.entries, id);
  }

  // ───────────────────────── forced requests ─────────────────────────

  /** All entries of one request agree on whether it was forced, and a forced one was never dismissed as fresh. */
  ghost predicate ForceFits(s: State) {
    && (forall id :: 0 <= id < |s.entries| ==> s.entries[id].job < s.jobs)
    && (forall j, f :: (j, f) in s.fates ==> j < s.jobs)
    && (forall id, id' :: 0 <= id < id' < |s.entries| && s.entries[id].job == s.entries[id'].job ==>
          s.entries[id].force == s.entries[id'].force)
    && (forall id :: 0 <= id < |s.entries| && s.entries[id].force ==> (s.entries[id].job, FoundFresh) !in s.fates)
  }

  lemma ForceStep(s: State, a: Action, maxAttempts: nat)
    requires ForceFits(s)
    ensures ForceFits(Next(s, a, maxAttempts))
  {
    if Enabled(s, a) {
      match a
      case Finish(l, result) => ForceFinish(s, l, result, maxAttempts);
      case Readd(l, ok) => ForceReadd(s, l, ok, maxAttempts);
      case _ =>
    }
  }

  lemma ForceFinish(s: State, l: nat, result: Result, maxAttempts: nat)
    requires ForceFits(s) && Enabled(s, Finish(l, result))
    ensures ForceFits(DoFinish(s, l, result, maxAttempts))
  {
    var s', e := DoFinish(s, l, result, maxAttempts), s.entries[s.loops[l].handler.id];
    assert |s'.entries| == |s.entries|;
    assert forall id :: 0 <= id < |s.entries| ==>
             s'.entries[id].job == s.entries[id].job && s'.entries[id].force == s.entries[id].force;
  }

  lemma ForceReadd(s: State, l: nat, ok: bool, maxAttempts: nat)
    requires ForceFits(s) && Enabled(s, Readd(l, ok))
    ensures ForceFits(DoReadd(s, l, ok))
  {
    var s', e := DoReadd(s, l, ok), s.entries[s.loops[l].handler.id];
    assert forall id :: 0 <= id < |s.entries| ==>
             s'.entries[id].job == s.entries[id].job && s'.entries[id].force == s.entries[id].force;
    assert ok ==> s'.entries[|s.entries|].job == e.job && s'.entries[|s.entries|].force == e.force;
  }

  /** However often it was retried, a forced request is never dismissed because its address was looked up lately. */
  lemma {:induction false} ForcedIsLookedUp(loops: nat, acts: seq<Action>, maxAttempts: nat)
    ensures ForceFits(Run(Initial(loops), acts, maxAttempts))
  {
    if acts != [] {
      ForcedIsLookedUp(loops, acts[..|acts| - 1], maxAttempts);
      ForceStep(Run(Initial(loops), acts[..|acts| - 1], maxAttempts), acts[|acts| - 1], maxAttempts);
    }
  }

  // ───────────────────────── every request can still end ─────────────────────────

  /** A set of states no step leaves, such as those that can follow a run. */
  ghost predicate Closed(reached: State -> bool, maxAttempts: nat) {
    forall s, a :: reached(s) ==> reached(Next(s, a, maxAttempts))
  }

  /** The first loop is free, and the entries before n are acknowledged. */
  ghost predicate CaughtUp(s: State, n: nat) {
    s.loops != [] && s.loops[0] == Loop({}, Idle) && n <= |s.entries|
    && forall id :: 0 <= id < n ==> s.entries[id].status.Acked?
  }

  /** An entry nobody has acknowledged is delivered, or reclaimed from whoever had it, and handled. */
  lemma OneMore(reached: State -> bool, s: State, n: nat, maxAttempts: nat) returns (s': State)
    requires Closed(reached, maxAttempts) && reached(s) && CaughtUp(s, n) && n < |s.entries|
    ensures reached(s') && CaughtUp(s', n + 1) && |s'.entries| == |s.entries| && s'.jobs == s.jobs
  {
    s' := s;
    if !s.entries[n].status.Acked? {
      var handed := Next(s, if s.entries[n].status.Undelivered? then Deliver(0, n) else Reclaim(0, n), maxAttempts);
      assert handed.loops[0] == Loop({n}, Idle) && handed.entries[n].status.Pending?;
      var started := Next(handed, Start(0, n), maxAttempts);
      assert started.loops[0] == Loop({}, Working(n));
      var done := Next(started, Finish(0, Success), maxAttempts);
      assert done.loops[0] == Loop({}, Acking(n)) && |done.entries| == |s.entries|;
      assert forall id :: 0 <= id < n ==> done.entries[id].status == s.entries[id].status;
      s' := Next(done, Ack(0, true), maxAttempts);
    }
  }

  lemma {:induction false} CatchesUp(reached: State -> bool, s: State, n: nat, maxAttempts: nat) returns (s': State)
    requires Closed(reached, maxAttempts) && reached(s) && CaughtUp(s, 0) && n <= |s.entries|
    ensures reached(s') && CaughtUp(s', n) && |s'.entries| == |s.entries| && s'.jobs == s.jobs
  {
    s' := s;
    if n > 0 {
      s' := CatchesUp(reached, s, n - 1, maxAttempts);
      s' := OneMore(reached, s', n - 1, maxAttempts);
    }
  }

  /** Whatever has happened, also if the process has just been killed with messages in every loop's hands: there is a
      way on after which nothing is left on the stream and every request has ended, or one of its re-adds had failed. */
  lemma EveryRequestCanEnd(loops: nat, acts: seq<Action>, maxAttempts: nat) returns (more: seq<Action>)
    requires loops >= 1 && maxAttempts >= 1
    ensures var s, s' := Run(Initial(loops), acts, maxAttempts), Run(Initial(loops), acts + more, maxAttempts);
            && s'.jobs == s.jobs && (forall id :: 0 <= id < |s'.entries| ==> s'.entries[id].status.Acked?)
            && (forall job :: 0 <= job < s.jobs ==> Resolved(s', job) || job in s'.readdFailed)
  {
    var s := Run(Initial(loops), acts, maxAttempts);
    var reached := x => exists on :: Run(Initial(loops), acts + on, maxAttempts) == x;
    forall x, a | reached(x) ensures reached(Next(x, a, maxAttempts)) {
      var on :| Run(Initial(loops), acts + on, maxAttempts) == x;
      RunSnoc(Initial(loops), acts + on, a, maxAttempts);
      assert acts + on + [a] == acts + (on + [a]);
      assert Run(Initial(loops), acts + (on + [a]), maxAttempts) == Next(x, a, maxAttempts);
    }
    assert acts + [] == acts;
    assert reached(s);
    LoopsStay(loops, acts, maxAttempts);
    var killed := Next(s, Kill, maxAttempts);
    var done := CatchesUp(reached, killed, |killed.entries|, maxAttempts);
    more :| Run(Initial(loops), acts + more, maxAttempts) == done;
    RunKeeps(loops, acts + more, maxAttempts);
    forall job | 0 <= job < s.jobs ensures Resolved(done, job) || job in done.readdFailed {
      assert Secured(done, job, -1);
    }
  }

  lemma {:induction false} LoopsStay(loops: nat, acts: seq<Action>, maxAttempts: nat)
    ensures |Run(Initial(loops), acts, maxAttempts).loops| == loops
  {
    if acts != [] { LoopsStay(loops, acts[..|acts| - 1], maxAttempts); }
  }

  // ───────────────────────── handle_message itself ─────────────────────────

  /** The machine's steps of one loop taking message `id` from delivery to acknowledgement. */
  function HandlingSteps(id: nat, result: Result, readdOk: bool, ackOk: bool): seq<Action> {
    [Start(0, id), Finish(0, result), Readd(0, readdOk), Ack(0, ackOk)]
  }

  /** A single loop about to handle message `id` of the given stream. */
  function Handed(entries: seq<Entry>, id: nat): State {
    Initial(1).(entries := entries, loops := [Loop({id}, Idle)])
  }

  lemma RunFour(s: State, a: Action, b: Action, c: Action, d: Action, maxAttempts: nat)
    ensures Run(s, [a, b, c, d], maxAttempts)
         == Next(Next(Next(Next(s, a, maxAttempts), b, maxAttempts), c, maxAttempts), d, maxAttempts)
  {
    assert [a, b, c, d][..3] == [a, b, c];
    assert [a, b, c][..2] == [a, b];
    assert [a, b][..1] == [a];
    assert [a][..0] == [];
    assert Run(s, [a], maxAttempts) == Next(s, a, maxAttempts);
    assert Run(s, [a, b], maxAttempts) == Next(Run(s, [a], maxAttempts), b, maxAttempts);
    assert Run(s, [a, b, c], maxAttempts) == Next(Run(s, [a, b], maxAttempts), c, maxAttempts);
  }

  /** The stream after those steps, spelled out. */
  function Handled(entries: seq<Entry>, id: nat, result: Result, readdOk: bool, ackOk: bool, maxAttempts: nat)
    : seq<Entry>
    requires id < |entries|
  {
    var e := entries[id];
    var again := result.Raised? && result.transient && e.attempt + 1 < maxAttempts;
    entries[id := e.(settled := true, status := if ackOk then Acked else e.status)]
    + (if again && readdOk then [Entry(e.job, e.force, e.attempt + 1, Undelivered, false)] else [])
  }

  lemma HandledIsRun(entries: seq<Entry>, id: nat, result: Result, readdOk: bool, ackOk: bool, maxAttempts: nat)
    requires id < |entries| && !entries[id].settled && (result.Fresh? ==> !entries[id].force)
    ensures Run(Handed(entries, id), HandlingSteps(id, result, readdOk, ackOk), maxAttempts).entries
         == Handled(entries, id, result, readdOk, ackOk, maxAttempts)
  {
    RunFour(Handed(entries, id), Start(0, id), Finish(0, result), Readd(0, readdOk), Ack(0, ackOk), maxAttempts);
    var e := entries[id];
    var s1 := Next(Handed(entries, id), Start(0, id), maxAttempts);
    assert |s1.loops| == 1 && s1.loops[0].handler == Working(id) && s1.entries == entries;
    DecisionIsHandled(s1, id, result, readdOk, maxAttempts);
    var s3 := Next(Next(s1, Finish(0, result), maxAttempts), Readd(0, readdOk), maxAttempts);
    assert Handled(entries, id, result, readdOk, true, maxAttempts)
        == s3.entries[id := s3.entries[id].(status := Acked)];
  }

  lemma DecisionIsHandled(s: State, id: nat, result: Result, readdOk: bool, maxAttempts: nat)
    requires |s.loops| == 1 && s.loops[0].handler == Working(id)
    requires id < |s.entries| && !s.entries[id].settled && (result.Fresh? ==> !s.entries[id].force)
    ensures var s' := Next(Next(s, Finish(0, result), maxAttempts), Readd(0, readdOk), maxAttempts);
            && |s'.loops| == 1 && s'.loops[0].handler == Acking(id)
            && s'.entries == Handled(s.entries, id, result, readdOk, false, maxAttempts)
  {
  }

  /** A complete handling lowers the potential of the stream by at least one. */
  lemma HandledSpends(entries: seq<Entry>, id: nat, result: Result, readdOk: bool, ackOk: bool, maxAttempts: nat)
    requires id < |entries| && !entries[id].settled && entries[id].attempt < maxAttempts
    ensures Potential(Handled(entries, id, result, readdOk, ackOk, maxAttempts), maxAttempts)
         < Potential(entries, maxAttempts)
  {
    var e := entries[id];
    var marked := entries[id := e.(settled := true, status := if ackOk then Acked else e.status)];
    PotentialUpdate(entries, id, marked[id], maxAttempts);
    PotentialAppend(marked, Entry(e.job, e.force, e.attempt + 1, Undelivered, false), maxAttempts);
    assert marked + [] == marked;
  }

  class Stream {
    var entries: seq<Entry>

    constructor (entries: seq<Entry>)
      ensures this.entries == entries
    {
      this.entries := entries;
    }

    /** One undisturbed call: whatever fails, the stream ends up as the machine's four steps leave it, and its
        potential has gone down. */
    method HandleMessage(id: nat, result: Result, readdOk: bool, ackOk: bool, maxAttempts: nat)
      requires id < |entries| && !entries[id].settled && entries[id].attempt < maxAttempts
      requires result.Fresh? ==> !entries[id].force
      modifies this
      ensures entries == Run(Handed(old(entries), id), HandlingSteps(id, result, readdOk, ackOk), maxAttempts).entries
      ensures Potential(entries, maxAttempts) < Potential(old(entries), maxAttempts)
    {
      HandledIsRun(entries, id, result, readdOk, ackOk, maxAttempts);
      HandledSpends(entries, id, result, readdOk, ackOk, maxAttempts);
      var e := entries[id];
      entries := entries[id := e.(settled := true)];
      if result.Raised? && result.transient && e.attempt + 1 < maxAttempts {
        if readdOk { entries := entries + [Entry(e.job, e.force, e.attempt + 1, Undelivered, false)]; }
      }
      if ackOk { entries := entries[id := entries[id].(status := Acked)]; }
      assert entries == Handled(old(entries), id, result, readdOk, ackOk, maxAttempts);
    }
  }
}
