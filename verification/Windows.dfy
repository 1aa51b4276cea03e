/** The engine's sliding windows (analytics/engine.py, `handle_event`, `gc_state`) against an engine that keeps every
    event for ever and never forgets what it reported: as long as no address is evicted and no address sends more than
    WINDOW_MAX_EVENTS events in WINDOW_KEEP_S, both report the same findings, whenever garbage is collected. */
module Windows {
  import opened Prelude
  import opened Detectors

  const KEEP := 300.0

  datatype Config = Config(maxEvents: nat, scan: ScanRules, attack: AttackRules)

  /** The event being handled; detectors run one after the other, with garbage collection possible in between. */
  datatype Stage = BeforeScan | BeforeAttack
  datatype Job = Job(ip: string, ev: Event, stage: Stage)

  /** A finding, and when a detector returned it. */
  datatype Report = Report(at: real, finding: Finding)

  function Stamped(now: real, fs: seq<Finding>): seq<Report> {
    seq(|fs|, i requires 0 <= i < |fs| => Report(now, fs[i]))
  }

  /** The engine. `window` is the local reference `win` of the event being handled. */
  datatype Bounded = Bounded(windows: map<string, seq<Event>>, scan: map<string, real>, attack: map<Key, real>,
                             window: seq<Event>, job: Option<Job>, clock: real, findings: seq<Report>)

  /** The engine with unbounded memory. */
  datatype Unbounded = Unbounded(history: map<string, seq<Event>>, scan: map<string, real>, attack: map<Key, real>,
                                 job: Option<Job>, clock: real, findings: seq<Report>)

  /** An event arrives (stamped at `recv`, trimmed at `now`); the next detector runs; gc_state runs; the address cap
      evicts windows to make room for an event about to arrive. */
  datatype Action =
    | Arrive(ip: string, ev: Event, now: real)
    | Detect(now: real)
    | Collect(now: real)
    | Evict(ips: set<string>, now: real)

  const START := Bounded(map[], map[], map[], [], None, 0.0, [])
  const START_UNBOUNDED := Unbounded(map[], map[], map[], None, 0.0, [])

  function Of(m: map<string, seq<Event>>, ip: string): seq<Event> { if ip in m then m[ip] else [] }

  /** Drops events from the front while they are older than the cutoff. */
  function Trim(window: seq<Event>, cutoff: real): seq<Event> {
    if window != [] && window[0].recv < cutoff then Trim(window[1..], cutoff) else window
  }

  /** A deque with a maximum length drops its first element when it overflows. */
  function Push(window: seq<Event>, ev: Event, maxEvents: nat): seq<Event> {
    var w := window + [ev];
    if |w| > maxEvents then w[1..] else w
  }

  function Slide(window: seq<Event>, ev: Event, now: real, maxEvents: nat): seq<Event> {
    Trim(Push(window, ev, maxEvents), now - KEEP)
  }

  predicate StaleWindow(window: seq<Event>, now: real) { window == [] || window[|window| - 1].recv < now - KEEP }

  predicate Enabled(clock: real, job: Option<Job>, a: Action) {
    && a.now >= clock
    && match a
       case Arrive(_, ev, now) => job.None? && clock <= ev.recv <= now
       case Detect(_) => job.Some?
       case Collect(_) => true
       case Evict(_, _) => job.None?
  }

  function Next(cfg: Config, b: Bounded, a: Action): Bounded {
    if !Enabled(b.clock, b.job, a) then b else
    match a
    case Arrive(ip, ev, now) =>
      var w := Slide(Of(b.windows, ip), ev, now, cfg.maxEvents);
      b.(windows := b.windows[ip := w], window := w, job := Some(Job(ip, ev, BeforeScan)), clock := now)
    case Detect(now) =>
      var j := b.job.value;
      if j.stage.BeforeScan? then
        var (scan', fs) := ScanStep(cfg.scan, b.scan, j.ip, b.window, now);
        b.(scan := scan', findings := b.findings + Stamped(now, fs), job := Some(j.(stage := BeforeAttack)),
           clock := now)
      else
        var (attack', fs) := AttackStep(cfg.attack, b.attack, j.ip, j.ev, b.window, now);
        b.(attack := attack', findings := b.findings + Stamped(now, fs), job := None, clock := now)
    case Collect(now) =>
      b.(windows := map ip | ip in b.windows && !StaleWindow(b.windows[ip], now) :: b.windows[ip],
         scan := Pruned(b.scan, now, cfg.scan.span), attack := Pruned(b.attack, now, cfg.attack.span), clock := now)
    case Evict(ips, now) => b.(windows := b.windows - ips, clock := now)
  }

  function NextUnbounded(cfg: Config, u: Unbounded, a: Action): Unbounded {
    if !Enabled(u.clock, u.job, a) then u else
    match a
    case Arrive(ip, ev, now) =>
      u.(history := u.history[ip := Of(u.history, ip) + [ev]], job := Some(Job(ip, ev, BeforeScan)), clock := now)
    case Detect(now) =>
      var j := u.job.value;
      if j.stage.BeforeScan? then
        var (scan', fs) := ScanStep(cfg.scan, u.scan, j.ip, Of(u.history, j.ip), now);
        u.(scan := scan', findings := u.findings + Stamped(now, fs), job := Some(j.(stage := BeforeAttack)),
           clock := now)
      else
        var (attack', fs) := AttackStep(cfg.attack, u.attack, j.ip, j.ev, Of(u.history, j.ip), now);
        u.(attack := attack', findings := u.findings + Stamped(now, fs), job := None, clock := now)
    case Collect(now) => u.(clock := now)
    case Evict(_, now) => u.(clock := now)
  }

  function Run(cfg: Config, acts: seq<Action>): Bounded {
    if acts == [] then START else Next(cfg, Run(cfg, acts[..|acts| - 1]), acts[|acts| - 1])
  }

  function RunUnbounded(cfg: Config, acts: seq<Action>): Unbounded {
    if acts == [] then START_UNBOUNDED else NextUnbounded(cfg, RunUnbounded(cfg, acts[..|acts| - 1]), acts[|acts| - 1])
  }

  /** No address has more than `maxEvents` events within any KEEP seconds. */
  ghost predicate Paced(h: seq<Event>, maxEvents: nat) {
    forall i, j :: 0 <= i < |h| && j == i + maxEvents && j < |h| ==> h[i].recv < h[j].recv - KEEP
  }

  // ───────────────────────── the window is what matters of the history ─────────────────────────

  ghost predicate Ordered(h: seq<Event>, clock: real) {
    && (forall i, j :: 0 <= i < j < |h| ==> h[i].recv <= h[j].recv)
    && (forall i :: 0 <= i < |h| ==> h[i].recv <= clock)
  }

  /** The window is an end piece of the history, and everything before it is older than KEEP. */
  ghost predicate Covers(w: seq<Event>, h: seq<Event>, clock: real) {
    && |w| <= |h| && w == h[|h| - |w|..]
    && forall i :: 0 <= i < |h| - |w| ==> h[i].recv < clock - KEEP
  }

  lemma {:induction false} TrimCovers(w: seq<Event>, h: seq<Event>, now: real)
    requires Covers(w, h, now)
    ensures Covers(Trim(w, now - KEEP), h, now)
    decreases |w|
  {
    if w != [] && w[0].recv < now - KEEP {
      assert h[|h| - |w|] == w[0];
      TrimCovers(w[1..], h, now);
    }
  }

  lemma SlideCovers(w: seq<Event>, h: seq<Event>, ev: Event, clock: real, now: real, maxEvents: nat)
    requires Covers(w, h, clock) && clock <= ev.recv <= now && |w| <= maxEvents && Paced(h + [ev], maxEvents)
    ensures Covers(Slide(w, ev, now, maxEvents), h + [ev], now)
  {
    var h' := h + [ev];
    var p := Push(w, ev, maxEvents);
    assert forall i :: 0 <= i < |h| ==> h'[i] == h[i];
    if |w| + 1 > maxEvents {
      var i := |h| - |w|;
      assert h'[i].recv < h'[i + maxEvents].recv - KEEP;
    }
    assert Covers(p, h', now);
    TrimCovers(p, h', now);
  }

  /** Trimming drops the events before the first one within the cutoff, and no other. */
  lemma {:induction false} TrimIs(w: seq<Event>, cutoff: real) returns (n: nat)
    ensures n <= |w| && Trim(w, cutoff) == w[n..]
    ensures (forall i :: 0 <= i < n ==> w[i].recv < cutoff) && (n < |w| ==> w[n].recv >= cutoff)
    decreases |w|
  {
    n := 0;
    if w != [] && w[0].recv < cutoff {
      var m := TrimIs(w[1..], cutoff);
      n := m + 1;
      assert forall i :: 0 <= i < m ==> w[1..][i] == w[i + 1];
    }
  }

  lemma {:induction false} TrimShortens(w: seq<Event>, cutoff: real)
    ensures |Trim(w, cutoff)| <= |w|
  {
    if w != [] && w[0].recv < cutoff { TrimShortens(w[1..], cutoff); }
  }

  lemma {:induction false} RecentAppend(a: seq<Event>, b: seq<Event>, now: real, span: real)
    ensures Recent(a + b, now, span) == Recent(a, now, span) + Recent(b, now, span)
  {
    if b == [] {
      assert a + b == a;
    } else {
      assert (a + b)[..|a + b| - 1] == a + b[..|b| - 1];
      RecentAppend(a, b[..|b| - 1], now, span);
    }
  }

  lemma {:induction false} NothingRecent(h: seq<Event>, now: real, span: real)
    requires forall i :: 0 <= i < |h| ==> now - h[i].recv > span
    ensures Recent(h, now, span) == []
  {
    if h != [] { NothingRecent(h[..|h| - 1], now, span); }
  }

  /** A detector whose span is within KEEP sees the same recent events in the window as in the history. */
  lemma CoversRecent(w: seq<Event>, h: seq<Event>, clock: real, now: real, span: real)
    requires Covers(w, h, clock) && now >= clock && span <= KEEP
    ensures Recent(w, now, span) == Recent(h, now, span)
  {
    var old' := h[..|h| - |w|];
    assert h == old' + w;
    RecentAppend(old', w, now, span);
    NothingRecent(old', now, span);
  }

  /** What was forgotten cannot make a duplicate any more. */
  ghost predicate Remembers<K(!new)>(b: map<K, real>, u: map<K, real>, clock: real, span: real) {
    && (forall k :: k in b ==> k in u && u[k] == b[k])
    && (forall k :: k in u ==> 0.0 <= u[k] <= clock && (k !in b ==> clock - u[k] >= span))
  }

  lemma RemembersDup<K(!new)>(b: map<K, real>, u: map<K, real>, key: K, clock: real, now: real, span: real)
    requires Remembers(b, u, clock, span) && now >= clock
    ensures Dup(b, key, now, span) == Dup(u, key, now, span)
  {
  }

  lemma PruneRemembers<K(!new)>(b: map<K, real>, u: map<K, real>, clock: real, now: real, span: real)
    requires Remembers(b, u, clock, span) && now >= clock
    ensures Remembers(Pruned(b, now, span), u, now, span)
  {
  }

  ghost predicate Matches(cfg: Config, b: Bounded, u: Unbounded) {
    && b.clock == u.clock >= 0.0 && b.job == u.job && b.findings == u.findings
    && (forall ip :: |Of(b.windows, ip)| <= cfg.maxEvents && Covers(Of(b.windows, ip), Of(u.history, ip), b.clock))
    && (forall ip :: Ordered(Of(u.history, ip), u.clock))
    && (b.job.Some? ==> Covers(b.window, Of(u.history, b.job.value.ip), b.clock))
    && Remembers(b.scan, u.scan, b.clock, cfg.scan.span)
    && Remembers(b.attack, u.attack, b.clock, cfg.attack.span)
  }

  lemma CoversLater(w: seq<Event>, h: seq<Event>, clock: real, now: real)
    requires Covers(w, h, clock) && now >= clock
    ensures Covers(w, h, now)
  {
  }

  lemma ArriveMatches(cfg: Config, b: Bounded, u: Unbounded, ip: string, ev: Event, now: real)
    requires Matches(cfg, b, u) && Enabled(b.clock, b.job, Arrive(ip, ev, now))
    requires Paced(Of(u.history, ip) + [ev], cfg.maxEvents)
    ensures Matches(cfg, Next(cfg, b, Arrive(ip, ev, now)), NextUnbounded(cfg, u, Arrive(ip, ev, now)))
  {
    MarkRemembers(b.scan, u.scan, ip, b.clock, now, cfg.scan.span);
    MarkRemembers(b.attack, u.attack, Key(ip, Exec), b.clock, now, cfg.attack.span);
    var h := Of(u.history, ip);
    assert Ordered(h, u.clock);
    ArriveHere(Of(b.windows, ip), h, ev, b.clock, now, cfg.maxEvents);
    WindowsLater(cfg, b, u, now);
    var w := Slide(Of(b.windows, ip), ev, now, cfg.maxEvents);
    var windows', history' := b.windows[ip := w], u.history[ip := h + [ev]];
    forall x
      ensures |Of(windows', x)| <= cfg.maxEvents && Covers(Of(windows', x), Of(history', x), now)
          && Ordered(Of(history', x), now)
    {
      OfUpdated(b.windows, ip, w, x);
      OfUpdated(u.history, ip, h + [ev], x);
    }
  }

  lemma OfUpdated(m: map<string, seq<Event>>, ip: string, s: seq<Event>, x: string)
    ensures Of(m[ip := s], x) == if x == ip then s else Of(m, x)
  {
  }

  lemma ArriveHere(w: seq<Event>, h: seq<Event>, ev: Event, clock: real, now: real, maxEvents: nat)
    requires Covers(w, h, clock) && Ordered(h, clock) && clock <= ev.recv <= now && |w| <= maxEvents
    requires Paced(h + [ev], maxEvents)
    ensures var w' := Slide(w, ev, now, maxEvents);
            |w'| <= maxEvents && Covers(w', h + [ev], now) && Ordered(h + [ev], now)
  {
    SlideCovers(w, h, ev, clock, now, maxEvents);
    TrimShortens(Push(w, ev, maxEvents), now - KEEP);
  }

  /** Marking the same key on both sides keeps them in step. */
  lemma MarkRemembers<K(!new)>(b: map<K, real>, u: map<K, real>, key: K, clock: real, now: real, span: real)
    requires Remembers(b, u, clock, span) && now >= clock >= 0.0
    ensures Remembers(b, u, now, span) && Remembers(b[key := now], u[key := now], now, span)
  {
  }

  lemma ScanSame(rules: ScanRules, b: map<string, real>, u: map<string, real>, ip: string,
                 w: seq<Event>, h: seq<Event>, clock: real, now: real)
    requires rules.span <= KEEP && Covers(w, h, clock) && Remembers(b, u, clock, rules.span) && now >= clock >= 0.0
    ensures ScanStep(rules, b, ip, w, now).1 == ScanStep(rules, u, ip, h, now).1
    ensures Remembers(ScanStep(rules, b, ip, w, now).0, ScanStep(rules, u, ip, h, now).0, now, rules.span)
  {
    CoversRecent(w, h, clock, now, rules.span);
    RemembersDup(b, u, ip, clock, now, rules.span);
    MarkRemembers(b, u, ip, clock, now, rules.span);
    assert IsScan(rules, w, now) == IsScan(rules, h, now);
    assert ScanFinding(rules, ip, w, now) == ScanFinding(rules, ip, h, now);
  }

  lemma AttackSame(rules: AttackRules, b: map<Key, real>, u: map<Key, real>, ip: string, ev: Event,
                   w: seq<Event>, h: seq<Event>, clock: real, now: real)
    requires rules.span <= KEEP && Covers(w, h, clock) && Remembers(b, u, clock, rules.span) && now >= clock >= 0.0
    ensures AttackStep(rules, b, ip, ev, w, now).1 == AttackStep(rules, u, ip, ev, h, now).1
    ensures Remembers(AttackStep(rules, b, ip, ev, w, now).0, AttackStep(rules, u, ip, ev, h, now).0, now, rules.span)
  {
    CoversRecent(w, h, clock, now, rules.span);
    RemembersDup(b, u, Key(ip, BruteForce), clock, now, rules.span);
    MarkRemembers(b, u, Key(ip, BruteForce), clock, now, rules.span);
    assert IsBruteForce(rules, ev, w, now) == IsBruteForce(rules, ev, h, now);
    assert BruteForceFinding(rules, ip, w, now) == BruteForceFinding(rules, ip, h, now);
    var bf := IsBruteForce(rules, ev, w, now) && !Dup(b, Key(ip, BruteForce), now, rules.span);
    var b1, u1 := Mark(b, Key(ip, BruteForce), now, bf), Mark(u, Key(ip, BruteForce), now, bf);
    RemembersDup(b1, u1, Key(ip, Exec), now, now, rules.span);
    MarkRemembers(b1, u1, Key(ip, Exec), now, now, rules.span);
  }

  lemma DetectMatches(cfg: Config, b: Bounded, u: Unbounded, now: real)
    requires cfg.scan.span <= KEEP && cfg.attack.span <= KEEP
    requires Matches(cfg, b, u) && Enabled(b.clock, b.job, Detect(now))
    ensures Matches(cfg, Next(cfg, b, Detect(now)), NextUnbounded(cfg, u, Detect(now)))
  {
    if b.job.value.stage.BeforeScan? { ScanMatches(cfg, b, u, now); } else { AttackMatches(cfg, b, u, now); }
  }

  lemma ScanMatches(cfg: Config, b: Bounded, u: Unbounded, now: real)
    requires cfg.scan.span <= KEEP && Matches(cfg, b, u) && now >= b.clock
    requires b.job.Some? && b.job.value.stage.BeforeScan?
    ensures Matches(cfg, Next(cfg, b, Detect(now)), NextUnbounded(cfg, u, Detect(now)))
  {
    var j := b.job.value;
    var h := Of(u.history, j.ip);
    ScanSame(cfg.scan, b.scan, u.scan, j.ip, b.window, h, b.clock, now);
    MarkRemembers(b.attack, u.attack, Key(j.ip, Exec), b.clock, now, cfg.attack.span);
    var (scan', fs) := ScanStep(cfg.scan, b.scan, j.ip, b.window, now);
    ResultsMatch(cfg, b, u, scan', ScanStep(cfg.scan, u.scan, j.ip, h, now).0, b.attack, u.attack, fs,
                 Some(j.(stage := BeforeAttack)), now);
  }

  lemma AttackMatches(cfg: Config, b: Bounded, u: Unbounded, now: real)
    requires cfg.attack.span <= KEEP && Matches(cfg, b, u) && now >= b.clock
    requires b.job.Some? && b.job.value.stage.BeforeAttack?
    ensures Matches(cfg, Next(cfg, b, Detect(now)), NextUnbounded(cfg, u, Detect(now)))
  {
    var j := b.job.value;
    var h := Of(u.history, j.ip);
    AttackSame(cfg.attack, b.attack, u.attack, j.ip, j.ev, b.window, h, b.clock, now);
    MarkRemembers(b.scan, u.scan, j.ip, b.clock, now, cfg.scan.span);
    var (attack', fs) := AttackStep(cfg.attack, b.attack, j.ip, j.ev, b.window, now);
    ResultsMatch(cfg, b, u, b.scan, u.scan, attack', AttackStep(cfg.attack, u.attack, j.ip, j.ev, h, now).0, fs, None,
                 now);
  }

  /** Both engines take on equal findings and memories that still agree. */
  lemma ResultsMatch(cfg: Config, b: Bounded, u: Unbounded, scan: map<string, real>, scanU: map<string, real>,
                     attack: map<Key, real>, attackU: map<Key, real>, fs: seq<Finding>, job: Option<Job>, now: real)
    requires Matches(cfg, b, u) && now >= b.clock && b.job.Some? && (job.Some? ==> job.value.ip == b.job.value.ip)
    requires Remembers(scan, scanU, now, cfg.scan.span) && Remembers(attack, attackU, now, cfg.attack.span)
    ensures Matches(cfg, b.(scan := scan, attack := attack, findings := b.findings + Stamped(now, fs), job := job,
                            clock := now),
                    u.(scan := scanU, attack := attackU, findings := u.findings + Stamped(now, fs), job := job,
                       clock := now))
  {
    WindowsLater(cfg, b, u, now);
    CoversLater(b.window, Of(u.history, b.job.value.ip), b.clock, now);
  }

  lemma WindowsLater(cfg: Config, b: Bounded, u: Unbounded, now: real)
    requires Matches(cfg, b, u) && now >= b.clock
    ensures forall x :: |Of(b.windows, x)| <= cfg.maxEvents && Covers(Of(b.windows, x), Of(u.history, x), now)
    ensures forall x :: Ordered(Of(u.history, x), now)
  {
    forall x
      ensures |Of(b.windows, x)| <= cfg.maxEvents && Covers(Of(b.windows, x), Of(u.history, x), now)
      ensures Ordered(Of(u.history, x), now)
    {
      assert Ordered(Of(u.history, x), u.clock);
      CoversLater(Of(b.windows, x), Of(u.history, x), b.clock, now);
    }
  }

  lemma CollectMatches(cfg: Config, b: Bounded, u: Unbounded, now: real)
    requires Matches(cfg, b, u) && Enabled(b.clock, b.job, Collect(now))
    ensures Matches(cfg, Next(cfg, b, Collect(now)), NextUnbounded(cfg, u, Collect(now)))
  {
    var b' := Next(cfg, b, Collect(now));
    PruneRemembers(b.scan, u.scan, b.clock, now, cfg.scan.span);
    PruneRemembers(b.attack, u.attack, b.clock, now, cfg.attack.span);
    forall x
      ensures |Of(b'.windows, x)| <= cfg.maxEvents && Covers(Of(b'.windows, x), Of(u.history, x), now)
      ensures Ordered(Of(u.history, x), now)
    {
      assert Ordered(Of(u.history, x), u.clock);
      CoversLater(Of(b.windows, x), Of(u.history, x), b.clock, now);
    }
    if b.job.Some? { CoversLater(b.window, Of(u.history, b.job.value.ip), b.clock, now); }
  }

  /** No window is evicted that holds an event of the last KEEP seconds. */
  predicate Harmless(b: Bounded, a: Action) {
    a.Evict? ==> forall ip :: ip in a.ips && ip in b.windows ==> StaleWindow(b.windows[ip], a.now)
  }

  predicate HarmlessRun(cfg: Config, acts: seq<Action>) {
    acts == [] || (HarmlessRun(cfg, acts[..|acts| - 1]) && Harmless(Run(cfg, acts[..|acts| - 1]), acts[|acts| - 1]))
  }

  lemma EvictMatches(cfg: Config, b: Bounded, u: Unbounded, ips: set<string>, now: real)
    requires Matches(cfg, b, u) && Enabled(b.clock, b.job, Evict(ips, now)) && Harmless(b, Evict(ips, now))
    ensures Matches(cfg, Next(cfg, b, Evict(ips, now)), NextUnbounded(cfg, u, Evict(ips, now)))
  {
    var windows' := b.windows - ips;
    MarkRemembers(b.scan, u.scan, "", b.clock, now, cfg.scan.span);
    MarkRemembers(b.attack, u.attack, Key("", Exec), b.clock, now, cfg.attack.span);
    forall x
      ensures |Of(windows', x)| <= cfg.maxEvents && Covers(Of(windows', x), Of(u.history, x), now)
      ensures Ordered(Of(u.history, x), now)
    {
      assert Ordered(Of(u.history, x), u.clock);
      CoversLater(Of(b.windows, x), Of(u.history, x), b.clock, now);
      if x in ips && x in b.windows { StaleCovers(b.windows[x], Of(u.history, x), now); }
    }
  }

  /** Forgetting a stale window forgets nothing recent. */
  lemma StaleCovers(w: seq<Event>, h: seq<Event>, now: real)
    requires Covers(w, h, now) && Ordered(h, now) && StaleWindow(w, now)
    ensures Covers([], h, now)
  {
    assert w != [] ==> h[|h| - 1] == w[|w| - 1];
  }

  /** For every schedule of events, detector runs and garbage collections in which each address stays within
      `maxEvents` per KEEP seconds, no detector looks further back than KEEP, and the address cap evicts no window that
      is still in use, the engine reports exactly the findings of the engine that never forgets anything. */
  lemma {:induction false} SameFindings(cfg: Config, acts: seq<Action>)
    requires cfg.scan.span <= KEEP && cfg.attack.span <= KEEP
    requires HarmlessRun(cfg, acts)
    requires forall ip :: Paced(Of(RunUnbounded(cfg, acts).history, ip), cfg.maxEvents)
    ensures Matches(cfg, Run(cfg, acts), RunUnbounded(cfg, acts))
    ensures Run(cfg, acts).findings == RunUnbounded(cfg, acts).findings
  {
    if acts != [] {
      var front, a := acts[..|acts| - 1], acts[|acts| - 1];
      var b, u := Run(cfg, front), RunUnbounded(cfg, front);
      var u' := RunUnbounded(cfg, acts);
      forall ip ensures Paced(Of(u.history, ip), cfg.maxEvents) {
        assert Paced(Of(u'.history, ip), cfg.maxEvents);
        assert Of(u.history, ip) <= Of(u'.history, ip);
      }
      SameFindings(cfg, front);
      if Enabled(b.clock, b.job, a) {
        match a
        case Arrive(ip, ev, now) =>
          assert Of(u'.history, ip) == Of(u.history, ip) + [ev];
          ArriveMatches(cfg, b, u, ip, ev, now);
        case Detect(now) => DetectMatches(cfg, b, u, now);
        case Collect(now) => CollectMatches(cfg, b, u, now);
        case Evict(ips, now) => EvictMatches(cfg, b, u, ips, now);
      }
    }
  }

  // ───────────────────────── what is reported, and when ─────────────────────────

  /** What a finding marks: the address of a scan; an address and a tag for brute force and for executed commands. */
  function ScanOf(f: Finding): Option<string> { if f.Scan? then Some(f.ip) else None }

  function TagOf(f: Finding): Option<Key> {
    if f.Attack? && f.kind in {"bruteforce", "cred_stuffing"} then Some(Key(f.ip, BruteForce))
    else if f.Attack? && f.kind == "post_auth_exec" then Some(Key(f.ip, Exec))
    else None
  }

  /** Something of this subject was reported less than a span ago. */
  ghost predicate Lately<K>(log: seq<Report>, about: Finding -> Option<K>, key: K, now: real, span: real) {
    exists i :: 0 <= i < |log| && about(log[i].finding) == Some(key) && now - log[i].at < span
  }

  predicate SameSubject<K(==)>(r: Report, r': Report, about: Finding -> Option<K>) {
    about(r.finding).Some? && about(r.finding) == about(r'.finding)
  }

  /** Reports of one subject lie at least a span apart. */
  ghost predicate Spaced<K>(log: seq<Report>, about: Finding -> Option<K>, span: real) {
    forall i, j :: 0 <= i < j < |log| && SameSubject(log[i], log[j], about) ==> log[j].at - log[i].at >= span
  }

  /** Each mark is the time of a report; a report without so late a mark lies a span back. */
  ghost predicate Noted<K(!new)>(log: seq<Report>, about: Finding -> Option<K>, marks: map<K, real>, clock: real,
                                 span: real) {
    && (forall k :: k in marks ==>
          exists i :: 0 <= i < |log| && about(log[i].finding) == Some(k) && log[i].at == marks[k])
    && (forall i :: 0 <= i < |log| && about(log[i].finding).Some? ==>
          var k := about(log[i].finding).value;
          log[i].at <= clock && ((k in marks && marks[k] >= log[i].at) || clock - log[i].at >= span))
    && Spaced(log, about, span)
  }

  lemma NotedLater<K(!new)>(log: seq<Report>, about: Finding -> Option<K>, marks: map<K, real>, clock: real, now: real,
                            span: real)
    requires Noted(log, about, marks, clock, span) && now >= clock
    ensures Noted(log, about, marks, now, span) && Noted(log, about, Pruned(marks, now, span), now, span)
  {
  }

  /** Nothing of this subject is marked within the span if and only if nothing of it was reported within the span. The
      clock has passed the first span of all. */
  lemma DupIsLately<K(!new)>(log: seq<Report>, about: Finding -> Option<K>, marks: map<K, real>, key: K, clock: real,
                             now: real, span: real)
    requires Noted(log, about, marks, clock, span) && now >= clock && now >= span
    ensures Dup(marks, key, now, span) <==> Lately(log, about, key, now, span)
  {
  }

  /** One more report: marked, if nothing of its subject was within the span. */
  lemma NotedMore<K(!new)>(log: seq<Report>, about: Finding -> Option<K>, marks: map<K, real>, clock: real, now: real,
                           span: real, f: Finding)
    requires Noted(log, about, marks, clock, span) && now >= clock
    requires about(f).Some? ==> !Dup(marks, about(f).value, now, span)
    ensures var marks' := if about(f).Some? then marks[about(f).value := now] else marks;
            Noted(log + [Report(now, f)], about, marks', now, span)
  {
    var log' := log + [Report(now, f)];
    var marks' := if about(f).Some? then marks[about(f).value := now] else marks;
    forall k | k in marks'
      ensures exists i :: 0 <= i < |log'| && about(log'[i].finding) == Some(k) && log'[i].at == marks'[k]
    {
      MarkedMore(log, about, marks, now, f, k);
    }
    SpacedMore(log, about, marks, clock, now, span, f);
  }

  lemma MarkedMore<K(!new)>(log: seq<Report>, about: Finding -> Option<K>, marks: map<K, real>, now: real, f: Finding,
                            k: K)
    requires about(f) == Some(k)
             || (k in marks
                 && exists i :: 0 <= i < |log| && about(log[i].finding) == Some(k) && log[i].at == marks[k])
    ensures var log', at := log + [Report(now, f)], if about(f) == Some(k) then now else marks[k];
            exists i :: 0 <= i < |log'| && about(log'[i].finding) == Some(k) && log'[i].at == at
  {
    var log' := log + [Report(now, f)];
    if about(f) == Some(k) {
      assert log'[|log|] == Report(now, f);
    } else {
      var i :| 0 <= i < |log| && about(log[i].finding) == Some(k) && log[i].at == marks[k];
      assert log'[i] == log[i];
    }
  }

  lemma SpacedMore<K(!new)>(log: seq<Report>, about: Finding -> Option<K>, marks: map<K, real>, clock: real, now: real,
                            span: real, f: Finding)
    requires Noted(log, about, marks, clock, span) && now >= clock
    requires about(f).Some? ==> !Dup(marks, about(f).value, now, span)
    ensures Spaced(log + [Report(now, f)], about, span)
  {
  }

  /** What one detector returns for one event: at most one report, marked as it should be. */
  lemma NotedStep<K(!new)>(log: seq<Report>, about: Finding -> Option<K>, marks: map<K, real>, marks': map<K, real>,
                           clock: real, now: real, span: real, fs: seq<Finding>)
    requires Noted(log, about, marks, clock, span) && now >= clock && |fs| <= 1
    requires fs != [] && about(fs[0]).Some? ==> !Dup(marks, about(fs[0]).value, now, span)
    requires marks' == if fs != [] && about(fs[0]).Some? then marks[about(fs[0]).value := now] else marks
    ensures Noted(log + Stamped(now, fs), about, marks', now, span)
  {
    if fs == [] {
      assert log + Stamped(now, fs) == log;
      NotedLater(log, about, marks, clock, now, span);
    } else {
      assert Stamped(now, fs) == [Report(now, fs[0])];
      NotedMore(log, about, marks, clock, now, span, fs[0]);
    }
  }

  /** The detectors' memories fit what has been reported. */
  ghost predicate LogFits(cfg: Config, b: Bounded) {
    && Noted(b.findings, ScanOf, b.scan, b.clock, cfg.scan.span)
    && Noted(b.findings, TagOf, b.attack, b.clock, cfg.attack.span)
  }

  lemma LogStep(cfg: Config, b: Bounded, a: Action)
    requires LogFits(cfg, b)
    ensures LogFits(cfg, Next(cfg, b, a))
  {
    if Enabled(b.clock, b.job, a) {
      NotedLater(b.findings, ScanOf, b.scan, b.clock, a.now, cfg.scan.span);
      NotedLater(b.findings, TagOf, b.attack, b.clock, a.now, cfg.attack.span);
      if a.Detect? {
        if b.job.value.stage.BeforeScan? { LogScan(cfg, b, a.now); } else { LogAttack(cfg, b, a.now); }
      }
    }
  }

  lemma LogScan(cfg: Config, b: Bounded, now: real)
    requires LogFits(cfg, b) && now >= b.clock && b.job.Some? && b.job.value.stage.BeforeScan?
    ensures LogFits(cfg, Next(cfg, b, Detect(now)))
  {
    var (marks, fs) := ScanStep(cfg.scan, b.scan, b.job.value.ip, b.window, now);
    NotedStep(b.findings, ScanOf, b.scan, marks, b.clock, now, cfg.scan.span, fs);
    NotedStep(b.findings, TagOf, b.attack, b.attack, b.clock, now, cfg.attack.span, fs);
  }

  lemma LogAttack(cfg: Config, b: Bounded, now: real)
    requires LogFits(cfg, b) && now >= b.clock && b.job.Some? && b.job.value.stage.BeforeAttack?
    ensures LogFits(cfg, Next(cfg, b, Detect(now)))
  {
    var j := b.job.value;
    var (marks, fs) := AttackStep(cfg.attack, b.attack, j.ip, j.ev, b.window, now);
    OneAttack(cfg.attack, b.attack, j.ip, j.ev, b.window, now);
    NotedStep(b.findings, ScanOf, b.scan, b.scan, b.clock, now, cfg.scan.span, fs);
    NotedStep(b.findings, TagOf, b.attack, marks, b.clock, now, cfg.attack.span, fs);
  }

  /** One event makes for one attack finding at most, and that is what gets marked. */
  lemma OneAttack(rules: AttackRules, marks: map<Key, real>, ip: string, ev: Event, window: seq<Event>, now: real)
    ensures var (marks', fs) := AttackStep(rules, marks, ip, ev, window, now);
            && |fs| <= 1 && (fs != [] ==> fs[0].Attack?)
            && (fs != [] && TagOf(fs[0]).Some? ==> !Dup(marks, TagOf(fs[0]).value, now, rules.span))
            && marks' == if fs != [] && TagOf(fs[0]).Some? then marks[TagOf(fs[0]).value := now] else marks
  {
    KindsDiffer();
  }

  lemma KindsDiffer()
    ensures "command" != "alert" && "login_attempt" != "command" && "login_success" != "command"
    ensures "login_attempt" != "alert" && "login_success" != "alert"
    ensures "exploit" !in {"bruteforce", "cred_stuffing", "post_auth_exec"}
    ensures "post_auth_exec" !in {"bruteforce", "cred_stuffing"}
  {
    assert |"command"| == 7 && |"alert"| == 5 && |"login_attempt"| == 13 && |"login_success"| == 13;
    assert |"exploit"| == 7 && |"bruteforce"| == 10 && |"cred_stuffing"| == 13 && |"post_auth_exec"| == 14;
  }

  lemma {:induction false} RunLogs(cfg: Config, acts: seq<Action>)
    ensures LogFits(cfg, Run(cfg, acts))
  {
    if acts != [] {
      RunLogs(cfg, acts[..|acts| - 1]);
      LogStep(cfg, Run(cfg, acts[..|acts| - 1]), acts[|acts| - 1]);
    }
  }

  /** Whatever was evicted or collected: scans of one address are reported at least a scan span apart, and brute force
      and executed commands of one address at least an attack span apart each. */
  lemma ReportsAreSpaced(cfg: Config, acts: seq<Action>)
    ensures Spaced(Run(cfg, acts).findings, ScanOf, cfg.scan.span)
    ensures Spaced(Run(cfg, acts).findings, TagOf, cfg.attack.span)
  {
    RunLogs(cfg, acts);
  }

  /** In every state of every run, the scan detector reports the address being handled if and only if its window shows
      at least `threshold` distinct ports among the events of the last span and no scan of it was reported within the
      last span; and then exactly those ports, with the services named, as a sweep from three services on. */
  lemma ScanReportedIff(cfg: Config, acts: seq<Action>, now: real)
    requires var b := Run(cfg, acts);
             && b.job.Some? && b.job.value.stage.BeforeScan? && now >= b.clock && now >= cfg.scan.span
    ensures var b := Run(cfg, acts);
            var ip, seen := b.job.value.ip, set e | e in b.window && now - e.recv <= cfg.scan.span;
            var ports, services := set e | e in seen && e.dstPort > 0 :: e.dstPort, set e | e in seen :: e.service;
            Next(cfg, b, Detect(now)).findings
            == if |ports| >= cfg.scan.threshold && !Lately(b.findings, ScanOf, ip, now, cfg.scan.span)
               then b.findings + [Report(now, Scan(ip, |services| >= 3, ports, services - {""}))]
               else b.findings
  {
    RunLogs(cfg, acts);
    var b := Run(cfg, acts);
    ScanStepIs(cfg.scan, b.scan, b.job.value.ip, b.window, now);
    DupIsLately(b.findings, ScanOf, b.scan, b.job.value.ip, b.clock, now, cfg.scan.span);
    var fs := ScanStep(cfg.scan, b.scan, b.job.value.ip, b.window, now).1;
    assert fs != [] ==> Stamped(now, fs) == [Report(now, fs[0])];
    assert fs == [] ==> b.findings + Stamped(now, fs) == b.findings;
  }

  /** Recent events are the same in the window as in the whole history of the address. */
  lemma WindowShowsHistory(cfg: Config, acts: seq<Action>, now: real, span: real)
    requires cfg.scan.span <= KEEP && cfg.attack.span <= KEEP && span <= KEEP && HarmlessRun(cfg, acts)
    requires forall ip :: Paced(Of(RunUnbounded(cfg, acts).history, ip), cfg.maxEvents)
    requires Run(cfg, acts).job.Some? && now >= Run(cfg, acts).clock
    ensures var b := Run(cfg, acts);
            var h := Of(RunUnbounded(cfg, acts).history, b.job.value.ip);
            (set e | e in b.window && now - e.recv <= span) == set e | e in h && now - e.recv <= span
  {
    SameFindings(cfg, acts);
    var b := Run(cfg, acts);
    var h := Of(RunUnbounded(cfg, acts).history, b.job.value.ip);
    CoversRecent(b.window, h, b.clock, now, span);
    forall e ensures e in b.window && now - e.recv <= span <==> e in h && now - e.recv <= span {
      RecentHas(b.window, now, span, e);
      RecentHas(h, now, span, e);
    }
  }

  /** So as long as addresses keep their pace and no window in use is evicted, a scan is reported if and only if the
      address, by all it has ever sent, fanned out over `threshold` ports within the last span, and had no scan reported
      in it. */
  lemma FanOutReportedIff(cfg: Config, acts: seq<Action>, now: real)
    requires cfg.scan.span <= KEEP && cfg.attack.span <= KEEP && HarmlessRun(cfg, acts)
    requires forall ip :: Paced(Of(RunUnbounded(cfg, acts).history, ip), cfg.maxEvents)
    requires var b := Run(cfg, acts);
             && b.job.Some? && b.job.value.stage.BeforeScan? && now >= b.clock && now >= cfg.scan.span
    ensures var b := Run(cfg, acts);
            var ip, h := b.job.value.ip, Of(RunUnbounded(cfg, acts).history, b.job.value.ip);
            var ports := set e | e in h && now - e.recv <= cfg.scan.span && e.dstPort > 0 :: e.dstPort;
            Next(cfg, b, Detect(now)).findings != b.findings
            <==> |ports| >= cfg.scan.threshold && !Lately(b.findings, ScanOf, ip, now, cfg.scan.span)
  {
    WindowShowsHistory(cfg, acts, now, cfg.scan.span);
    ScanReportedIff(cfg, acts, now);
    var b := Run(cfg, acts);
    var h := Of(RunUnbounded(cfg, acts).history, b.job.value.ip);
    var seen := set e | e in b.window && now - e.recv <= cfg.scan.span;
    var seenH := set e | e in h && now - e.recv <= cfg.scan.span;
    assert (set e | e in seen && e.dstPort > 0 :: e.dstPort)
        == set e | e in h && now - e.recv <= cfg.scan.span && e.dstPort > 0 :: e.dstPort by {
      assert seen == seenH;
    }
  }

  /** What the attack detector answers to an event, given which of its reports are too recent to repeat. */
  function Attacks(rules: AttackRules, ip: string, ev: Event, window: seq<Event>, now: real, bruteForced: bool,
                   executed: bool): seq<Finding>
  {
    var at := set i | 0 <= i < |window| && window[i].kind in {"login_attempt", "login_success"}
                      && now - window[i].recv <= rules.span;
    var users, services := set i | i in at :: window[i].username, set i | i in at :: window[i].service;
    if ev.kind in {"login_attempt", "login_success"} && |at| >= rules.threshold && !bruteForced
    then [Attack(ip, if |users| > 3 then "cred_stuffing" else "bruteforce", services - {""}, 2, |at|, users, "")]
    else if ev.kind == "command" && ev.command != "" && !executed
    then [Attack(ip, "post_auth_exec", {ev.service}, 3, 0, {},
                 if |ev.command| > 500 then ev.command[..500] else ev.command)]
    else if ev.kind == "alert" && ev.signature != ""
    then [Attack(ip, "exploit", {ev.service},
                 if ev.severity.Some? && ev.severity.value < 2 then 4 - ev.severity.value else 2, 0, {}, ev.signature)]
    else []
  }

  lemma AttacksAre(rules: AttackRules, marks: map<Key, real>, ip: string, ev: Event, window: seq<Event>, now: real)
    ensures AttackStep(rules, marks, ip, ev, window, now).1
         == Attacks(rules, ip, ev, window, now, Dup(marks, Key(ip, BruteForce), now, rules.span),
                    Dup(marks, Key(ip, Exec), now, rules.span))
  {
    AttackStepIs(rules, marks, ip, ev, window, now);
    KindsDiffer();
  }

  /** Likewise the attack detector: a login that makes `threshold` logins within the span, if no brute force of the
      address was reported within the span, with their number, users and services, as credential stuffing from four
      users on; a command, if none was reported within the span; an alert with a signature, always. */
  lemma AttackReportedIff(cfg: Config, acts: seq<Action>, now: real)
    requires var b := Run(cfg, acts);
             && b.job.Some? && b.job.value.stage.BeforeAttack? && now >= b.clock && now >= cfg.attack.span
    ensures var b := Run(cfg, acts);
            var ip, span := b.job.value.ip, cfg.attack.span;
            Next(cfg, b, Detect(now)).findings
            == b.findings
               + Stamped(now, Attacks(cfg.attack, ip, b.job.value.ev, b.window, now,
                                      Lately(b.findings, TagOf, Key(ip, BruteForce), now, span),
                                      Lately(b.findings, TagOf, Key(ip, Exec), now, span)))
  {
    RunLogs(cfg, acts);
    var b := Run(cfg, acts);
    var ip, span := b.job.value.ip, cfg.attack.span;
    AttacksAre(cfg.attack, b.attack, ip, b.job.value.ev, b.window, now);
    DupIsLately(b.findings, TagOf, b.attack, Key(ip, BruteForce), b.clock, now, span);
    DupIsLately(b.findings, TagOf, b.attack, Key(ip, Exec), b.clock, now, span);
  }
}
