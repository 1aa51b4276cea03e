/** Behavioural profiles (analytics/behavioral/profiler.py) and their batched persistence (analytics/engine.py,
    `flush_profiles`, `persist_profile`): a dirty set is flushed while events keep arriving, into rows that
    only rise. */
module Profiles {
  import opened Prelude
  import opened Detectors
  import opened Escalation

  const BRUTEFORCE_TACTIC_THRESHOLD := 5

  /** The in-memory profile of one address. */
  datatype Profile = Profile(commands: seq<string>, hints: set<string>, tactics: set<string>, services: set<string>,
                             sessions: set<string>, logins: nat, last: real)

  const EMPTY := Profile([], {}, {}, {}, {}, 0, 0.0)

  /** TACTIC_MAP. */
  function TacticOf(hint: string): Option<string> {
    if hint == "recon" then Some("TA0007-Discovery")
    else if hint == "wget_dropper" || hint == "shell_dropper" then Some("TA0011-C2/Download")
    else if hint == "mirai" then Some("TA0002-Execution")
    else if hint == "cryptominer" then Some("TA0040-Impact")
    else if hint == "hydra" then Some("TA0006-CredentialAccess")
    else if hint == "persistence" then Some("TA0003-Persistence")
    else if hint == "privesc" then Some("TA0004-PrivEscalation")
    else if hint == "cleanup" then Some("TA0005-DefenseEvasion")
    else None
  }

  /** The given tooling patterns: which of them a text matches. */
  type Signs = string -> set<string>

  function Tactics(hints: set<string>): set<string> { set h | h in hints && TacticOf(h).Some? :: TacticOf(h).value }

  /** The texts searched for tooling: a command, and a client banner or signature. */
  function Tooling(signs: Signs, ev: Event): set<string> {
    (if ev.kind == "command" && ev.command != "" then signs(ev.command) else {})
    + (if ev.signature != "" then signs(ev.signature) else {})
  }

  /** `update`. */
  function Update(signs: Signs, p: Profile, ev: Event, now: real): Profile {
    var logins := if IsLogin(ev) then p.logins + 1 else p.logins;
    Profile(if ev.kind == "command" && ev.command != "" && ev.command !in p.commands && |p.commands| < 200
            then p.commands + [Cut(ev.command, 300)] else p.commands,
            p.hints + Tooling(signs, ev),
            p.tactics
            + (if IsLogin(ev) && logins >= BRUTEFORCE_TACTIC_THRESHOLD then {"TA0006-CredentialAccess"} else {})
            + (if ev.kind == "login_success" then {"TA0001-InitialAccess"} else {})
            + Tactics(Tooling(signs, ev)),
            if ev.service != "" then p.services + {ev.service} else p.services,
            if ev.session != "" then p.sessions + {ev.session} else p.sessions,
            logins, now)
  }

  function MinReal(a: real, b: real): (m: real)
    ensures (a <= b ==> m == a) && (b <= a ==> m == b)
  {
    if a <= b then a else b
  }

  /** `score`, 0 .. 100. */
  function ThreatScore(p: Profile): real {
    var s := Min(6 * |p.services|, 30) as real + Min(5 * |p.commands|, 25) as real + Min(12 * |p.hints|, 36) as real
             + MinReal(p.logins as real * 1.5, 20.0) + (if "mirai" in p.hints then 10.0 else 0.0);
    MinReal(s, 100.0)
  }

  function Classify(p: Profile): string {
    if "mirai" in p.hints || "cryptominer" in p.hints then "exploiter"
    else if p.commands != [] then "intruder"
    else if "hydra" in p.hints || p.logins >= BRUTEFORCE_TACTIC_THRESHOLD then "bruteforcer"
    else if |p.services| >= 3 then "scanner"
    else "prober"
  }

  /** What `snapshot` hands to the database, and what a stored row holds. */
  datatype Snapshot = Snapshot(sessions: nat, logins: nat, hints: set<string>, tactics: set<string>, score: real,
                               cls: string)

  function SnapshotOf(p: Profile): Snapshot {
    Snapshot(|p.sessions|, p.logins, p.hints, p.tactics, ThreatScore(p), Classify(p))
  }

  /** Dominated in every stored column. */
  predicate Leq(a: Snapshot, b: Snapshot) {
    && a.sessions <= b.sessions && a.logins <= b.logins && a.hints <= b.hints && a.tactics <= b.tactics
    && a.score <= b.score && Rank(Some(a.cls)) <= Rank(Some(b.cls))
  }

  /** The upsert: greatest numbers, united sets, escalated class. */
  function Merge(old': Snapshot, new': Snapshot): Snapshot {
    Snapshot(Max(old'.sessions, new'.sessions), Max(old'.logins, new'.logins), old'.hints + new'.hints,
             old'.tactics + new'.tactics, if new'.score > old'.score then new'.score else old'.score,
             if Rank(Some(new'.cls)) >= Rank(Some(old'.cls)) then new'.cls else old'.cls)
  }

  lemma SubsetSize<X>(a: set<X>, b: set<X>)
    requires a <= b
    ensures |a| <= |b|
  {
    assert b == a + (b - a);
  }

  /** p' has everything p has. */
  ghost predicate Grown(p: Profile, p': Profile) {
    && p.services <= p'.services && p.sessions <= p'.sessions && p.hints <= p'.hints && p.tactics <= p'.tactics
    && |p.commands| <= |p'.commands| && p.logins <= p'.logins
  }

  lemma UpdateGrows(signs: Signs, p: Profile, ev: Event, now: real)
    ensures Grown(p, Update(signs, p, ev, now))
  {
  }

  /** An event never lowers anything a profile's snapshot shows. */
  lemma UpdateRises(signs: Signs, p: Profile, ev: Event, now: real)
    ensures Leq(SnapshotOf(p), SnapshotOf(Update(signs, p, ev, now)))
  {
    UpdateGrows(signs, p, ev, now);
    GrownRises(p, Update(signs, p, ev, now));
  }

  lemma GrownRises(p: Profile, p': Profile)
    requires Grown(p, p')
    ensures Leq(SnapshotOf(p), SnapshotOf(p'))
  {
    SubsetSize(p.sessions, p'.sessions);
    SubsetSize(p.services, p'.services);
    SubsetSize(p.hints, p'.hints);
    ScoreRises(p, p');
    ClassRises(p, p');
  }

  lemma ClassRises(p: Profile, p': Profile)
    requires Grown(p, p') && |p.services| <= |p'.services|
    ensures Rank(Some(Classify(p))) <= Rank(Some(Classify(p')))
  {
  }

  lemma ScoreRises(p: Profile, p': Profile)
    requires |p.services| <= |p'.services| && |p.commands| <= |p'.commands| && |p.hints| <= |p'.hints|
    requires p.hints <= p'.hints && p.logins <= p'.logins
    ensures ThreatScore(p) <= ThreatScore(p')
  {
  }

  /** The score stays within 0 .. 100. */
  lemma ScoreBounds(p: Profile)
    ensures 0.0 <= ThreatScore(p) <= 100.0
  {
  }

  // ───────────────────────── what a profile tells about its events ─────────────────────────

  /** An event, and when the profile took it in. */
  datatype Seen = Seen(ev: Event, now: real)

  /** The profile after a history of events. */
  function Told(signs: Signs, h: seq<Seen>): Profile {
    if h == [] then EMPTY else Update(signs, Told(signs, h[..|h| - 1]), h[|h| - 1].ev, h[|h| - 1].now)
  }

  predicate IsCommand(ev: Event) { ev.kind == "command" && ev.command != "" }

  function LoginsIn(h: seq<Seen>): set<nat> {
    set i | 0 <= i < |h| && h[i].ev.kind in {"login_attempt", "login_success"}
  }

  function ServicesIn(h: seq<Seen>): set<string> { set i | 0 <= i < |h| && h[i].ev.service != "" :: h[i].ev.service }

  function SessionsIn(h: seq<Seen>): set<string> { set i | 0 <= i < |h| && h[i].ev.session != "" :: h[i].ev.session }

  /** Some command or signature bears this sign. */
  predicate ShowsSign(signs: Signs, h: seq<Seen>, name: string) {
    exists i :: 0 <= i < |h| && ((IsCommand(h[i].ev) && name in signs(h[i].ev.command))
                                 || (h[i].ev.signature != "" && name in signs(h[i].ev.signature)))
  }

  /** A command as a profile keeps it. */
  function Kept(c: string): string { if |c| <= 300 then c else c[..300] }

  /** Command i is not spelled like one kept before; a longer one than is kept never is. */
  predicate IsNew(h: seq<Seen>, i: nat)
    requires i < |h|
  {
    IsCommand(h[i].ev) && forall j :: 0 <= j < i && IsCommand(h[j].ev) ==> Kept(h[j].ev.command) != h[i].ev.command
  }

  function NewCommands(h: seq<Seen>): seq<string> {
    if h == [] then []
    else NewCommands(h[..|h| - 1]) + (if IsNew(h, |h| - 1) then [Kept(h[|h| - 1].ev.command)] else [])
  }

  function FirstOf(xs: seq<string>, n: nat): seq<string> { if |xs| <= n then xs else xs[..n] }

  /** The signs a tactic is read off. */
  function SignsOf(tactic: string): set<string> {
    if tactic == "TA0002-Execution" then {"mirai"}
    else if tactic == "TA0003-Persistence" then {"persistence"}
    else if tactic == "TA0004-PrivEscalation" then {"privesc"}
    else if tactic == "TA0005-DefenseEvasion" then {"cleanup"}
    else if tactic == "TA0006-CredentialAccess" then {"hydra"}
    else if tactic == "TA0007-Discovery" then {"recon"}
    else if tactic == "TA0011-C2/Download" then {"wget_dropper", "shell_dropper"}
    else if tactic == "TA0040-Impact" then {"cryptominer"}
    else {}
  }

  lemma TacticIff(sign: string, tactic: string)
    ensures TacticOf(sign) == Some(tactic) <==> sign in SignsOf(tactic)
  {
    if sign in SignsOf(tactic) { TacticShows(sign, tactic); }
    if TacticOf(sign).Some? { SignShows(sign); }
  }

  lemma TacticShows(sign: string, tactic: string)
    requires sign in SignsOf(tactic)
    ensures TacticOf(sign) == Some(tactic)
  {
  }

  lemma SignShows(sign: string)
    requires TacticOf(sign).Some?
    ensures sign in SignsOf(TacticOf(sign).value)
  {
  }

  /** A successful login is among the events. */
  predicate GotIn(h: seq<Seen>) { exists i :: 0 <= i < |h| && h[i].ev.kind == "login_success" }

  /** Every tactic has its causes: a sign, five logins, or a successful one. */
  ghost predicate Caused(signs: Signs, h: seq<Seen>, tactic: string) {
    || (exists name :: name in SignsOf(tactic) && ShowsSign(signs, h, name))
    || (tactic == "TA0006-CredentialAccess" && |LoginsIn(h)| >= 5)
    || (tactic == "TA0001-InitialAccess" && GotIn(h))
  }

  /** What one more event adds. */
  lemma CountsSnoc(h: seq<Seen>)
    requires h != []
    ensures var n := |h| - 1;
            && LoginsIn(h) == LoginsIn(h[..n]) + (if IsLogin(h[n].ev) then {n} else {})
            && n !in LoginsIn(h[..n])
  {
  }

  lemma ServicesSnoc(h: seq<Seen>)
    requires h != []
    ensures var n := |h| - 1;
            ServicesIn(h) == ServicesIn(h[..n]) + (if h[n].ev.service != "" then {h[n].ev.service} else {})
  {
    assert forall i :: 0 <= i < |h| - 1 ==> h[..|h| - 1][i] == h[i];
  }

  lemma SessionsSnoc(h: seq<Seen>)
    requires h != []
    ensures var n := |h| - 1;
            SessionsIn(h) == SessionsIn(h[..n]) + (if h[n].ev.session != "" then {h[n].ev.session} else {})
  {
    assert forall i :: 0 <= i < |h| - 1 ==> h[..|h| - 1][i] == h[i];
  }

  lemma {:induction false} ToldCounts(signs: Signs, h: seq<Seen>)
    ensures var p := Told(signs, h);
            p.logins == |LoginsIn(h)| && p.services == ServicesIn(h) && p.sessions == SessionsIn(h)
  {
    if h != [] {
      ToldCounts(signs, h[..|h| - 1]);
      CountsSnoc(h);
      ServicesSnoc(h);
      SessionsSnoc(h);
    }
  }

  lemma ToldLast(signs: Signs, h: seq<Seen>)
    ensures Told(signs, h).last == if h == [] then 0.0 else h[|h| - 1].now
  {
  }

  lemma ShowsSignSnoc(signs: Signs, h: seq<Seen>, name: string)
    requires h != []
    ensures ShowsSign(signs, h, name)
       <==> ShowsSign(signs, h[..|h| - 1], name) || name in Tooling(signs, h[|h| - 1].ev)
  {
    var n := |h| - 1;
    assert forall i :: 0 <= i < n ==> h[..n][i] == h[i];
    if ShowsSign(signs, h[..n], name) {
      var i :| 0 <= i < n && ((IsCommand(h[..n][i].ev) && name in signs(h[..n][i].ev.command))
                              || (h[..n][i].ev.signature != "" && name in signs(h[..n][i].ev.signature)));
      assert h[i] == h[..n][i];
    }
  }

  lemma {:induction false} ToldHints(signs: Signs, h: seq<Seen>, name: string)
    ensures name in Told(signs, h).hints <==> ShowsSign(signs, h, name)
  {
    if h != [] {
      ToldHints(signs, h[..|h| - 1], name);
      ShowsSignSnoc(signs, h, name);
    }
  }

  /** Some command is kept as `c`. */
  predicate KeptAs(h: seq<Seen>, c: string) {
    exists i :: 0 <= i < |h| && IsCommand(h[i].ev) && Kept(h[i].ev.command) == c
  }

  lemma KeptAsSnoc(h: seq<Seen>, c: string)
    requires h != []
    ensures var n := |h| - 1;
            KeptAs(h, c) <==> KeptAs(h[..n], c) || (IsCommand(h[n].ev) && Kept(h[n].ev.command) == c)
  {
    var n := |h| - 1;
    assert forall i :: 0 <= i < n ==> h[..n][i] == h[i];
    if KeptAs(h[..n], c) {
      var i :| 0 <= i < n && IsCommand(h[..n][i].ev) && Kept(h[..n][i].ev.command) == c;
      assert h[i] == h[..n][i];
    }
  }

  lemma {:induction false} NewCommandsAre(h: seq<Seen>, c: string)
    ensures c in NewCommands(h) <==> KeptAs(h, c)
  {
    if h != [] {
      var n := |h| - 1;
      NewCommandsAre(h[..n], c);
      KeptAsSnoc(h, c);
      if IsCommand(h[n].ev) && Kept(h[n].ev.command) == c && !IsNew(h, n) {
        var j :| 0 <= j < n && IsCommand(h[j].ev) && Kept(h[j].ev.command) == h[n].ev.command;
        assert h[..n][j] == h[j];
        assert KeptAs(h[..n], c);
      }
    }
  }

  /** The commands kept are the first 200 new ones. */
  lemma {:induction false} ToldCommands(signs: Signs, h: seq<Seen>)
    ensures Told(signs, h).commands == FirstOf(NewCommands(h), 200)
  {
    if h != [] {
      var n := |h| - 1;
      ToldCommands(signs, h[..n]);
      if IsCommand(h[n].ev) {
        NewCommandsAre(h[..n], h[n].ev.command);
        NewIff(h);
      }
    }
  }

  lemma NewIff(h: seq<Seen>)
    requires h != [] && IsCommand(h[|h| - 1].ev)
    ensures IsNew(h, |h| - 1) <==> !KeptAs(h[..|h| - 1], h[|h| - 1].ev.command)
  {
    assert forall i :: 0 <= i < |h| - 1 ==> h[..|h| - 1][i] == h[i];
  }

  lemma TacticsAre(hints: set<string>, tactic: string)
    ensures tactic in Tactics(hints) <==> exists name :: name in SignsOf(tactic) && name in hints
  {
    forall name ensures TacticOf(name) == Some(tactic) <==> name in SignsOf(tactic) { TacticIff(name, tactic); }
  }

  lemma {:induction false} ToldTactics(signs: Signs, h: seq<Seen>, tactic: string)
    ensures tactic in Told(signs, h).tactics <==> Caused(signs, h, tactic)
  {
    if h != [] {
      ToldTactics(signs, h[..|h| - 1], tactic);
      CausedSnoc(signs, h, tactic);
      ToldCounts(signs, h);
    }
  }

  lemma CausedSnoc(signs: Signs, h: seq<Seen>, tactic: string)
    requires h != []
    ensures var n := |h| - 1;
            Caused(signs, h, tactic)
            <==> || Caused(signs, h[..n], tactic) || tactic in Tactics(Tooling(signs, h[n].ev))
                 || (tactic == "TA0006-CredentialAccess" && IsLogin(h[n].ev) && |LoginsIn(h)| >= 5)
                 || (tactic == "TA0001-InitialAccess" && h[n].ev.kind == "login_success")
  {
    var n := |h| - 1;
    TacticsAre(Tooling(signs, h[n].ev), tactic);
    SignsSnoc(signs, h);
    AccessSnoc(h);
    CountsSnoc(h);
  }

  lemma AccessSnoc(h: seq<Seen>)
    requires h != []
    ensures GotIn(h) <==> GotIn(h[..|h| - 1]) || h[|h| - 1].ev.kind == "login_success"
  {
    var n := |h| - 1;
    assert forall i :: 0 <= i < n ==> h[..n][i] == h[i];
    if GotIn(h[..n]) {
      var i :| 0 <= i < n && h[..n][i].ev.kind == "login_success";
      assert h[i] == h[..n][i];
    }
  }

  lemma SignsSnoc(signs: Signs, h: seq<Seen>)
    requires h != []
    ensures forall name :: ShowsSign(signs, h, name)
                      <==> ShowsSign(signs, h[..|h| - 1], name) || name in Tooling(signs, h[|h| - 1].ev)
  {
    forall name
      ensures ShowsSign(signs, h, name)
         <==> ShowsSign(signs, h[..|h| - 1], name) || name in Tooling(signs, h[|h| - 1].ev)
    {
      ShowsSignSnoc(signs, h, name);
    }
  }

  ghost predicate AnyCommand(h: seq<Seen>) { exists i :: 0 <= i < |h| && IsCommand(h[i].ev) }

  /** What a history of events comes to in the columns of a row. */
  ghost predicate IsShown(signs: Signs, h: seq<Seen>, snap: Snapshot) {
    var logins, services := |LoginsIn(h)|, |ServicesIn(h)|;
    && snap.sessions == |SessionsIn(h)| && snap.logins == logins
    && (forall name :: name in snap.hints <==> ShowsSign(signs, h, name))
    && (forall tactic :: tactic in snap.tactics <==> Caused(signs, h, tactic))
    && snap.score
       == MinReal((Min(6 * services, 30) + Min(5 * |NewCommands(h)|, 25) + Min(12 * |snap.hints|, 36)) as real
                  + MinReal(1.5 * logins as real, 20.0) + (if ShowsSign(signs, h, "mirai") then 10.0 else 0.0), 100.0)
    && snap.cls
       == if ShowsSign(signs, h, "mirai") || ShowsSign(signs, h, "cryptominer") then "exploiter"
          else if AnyCommand(h) then "intruder"
          else if ShowsSign(signs, h, "hydra") || logins >= 5 then "bruteforcer"
          else if services >= 3 then "scanner" else "prober"
  }

  lemma AnyNew(h: seq<Seen>)
    ensures NewCommands(h) != [] <==> AnyCommand(h)
  {
    if NewCommands(h) != [] { NewCommandsAre(h, NewCommands(h)[0]); }
    if i :| 0 <= i < |h| && IsCommand(h[i].ev) { NewCommandsAre(h, Kept(h[i].ev.command)); }
  }

  lemma ScoreTells(p: Profile, commands: seq<string>)
    requires p.commands == FirstOf(commands, 200)
    ensures ThreatScore(p)
         == MinReal((Min(6 * |p.services|, 30) + Min(5 * |commands|, 25) + Min(12 * |p.hints|, 36)) as real
                    + MinReal(1.5 * p.logins as real, 20.0) + (if "mirai" in p.hints then 10.0 else 0.0), 100.0)
  {
  }

  lemma ClassTells(p: Profile, commands: seq<string>)
    requires p.commands == FirstOf(commands, 200)
    ensures Classify(p)
         == if "mirai" in p.hints || "cryptominer" in p.hints then "exploiter"
            else if commands != [] then "intruder"
            else if "hydra" in p.hints || p.logins >= 5 then "bruteforcer"
            else if |p.services| >= 3 then "scanner" else "prober"
  {
  }

  /** The profile after any history of events shows exactly that. */
  lemma SnapshotTells(signs: Signs, h: seq<Seen>)
    ensures IsShown(signs, h, SnapshotOf(Told(signs, h)))
  {
    var p := Told(signs, h);
    ToldCounts(signs, h);
    ToldCommands(signs, h);
    AnyNew(h);
    ScoreTells(p, NewCommands(h));
    ClassTells(p, NewCommands(h));
    forall name ensures name in p.hints <==> ShowsSign(signs, h, name) { ToldHints(signs, h, name); }
    forall tactic ensures tactic in p.tactics <==> Caused(signs, h, tactic) { ToldTactics(signs, h, tactic); }
    Assemble(signs, h, p);
  }

  lemma Assemble(signs: Signs, h: seq<Seen>, p: Profile)
    requires p.logins == |LoginsIn(h)| && p.services == ServicesIn(h) && p.sessions == SessionsIn(h)
    requires forall name :: name in p.hints <==> ShowsSign(signs, h, name)
    requires forall tactic :: tactic in p.tactics <==> Caused(signs, h, tactic)
    requires p.commands == FirstOf(NewCommands(h), 200) && (NewCommands(h) != [] <==> AnyCommand(h))
    ensures IsShown(signs, h, SnapshotOf(p))
  {
    ScoreTells(p, NewCommands(h));
    ClassTells(p, NewCommands(h));
  }

  // ───────────────────────── a lattice of what is known ─────────────────────────

  predicate LeqO(a: Option<Snapshot>, b: Option<Snapshot>) { a.None? || (b.Some? && Leq(a.value, b.value)) }

  function MergeO(a: Option<Snapshot>, b: Option<Snapshot>): Option<Snapshot> {
    if a.None? then b else if b.None? then a else Some(Merge(a.value, b.value))
  }

  lemma MergeIsLeast(a: Option<Snapshot>, b: Option<Snapshot>, c: Option<Snapshot>)
    ensures LeqO(a, MergeO(a, b)) && LeqO(b, MergeO(a, b))
    ensures LeqO(a, c) && LeqO(b, c) ==> LeqO(MergeO(a, b), c)
  {
  }

  lemma LeqTrans(a: Option<Snapshot>, b: Option<Snapshot>, c: Option<Snapshot>)
    requires LeqO(a, b) && LeqO(b, c)
    ensures LeqO(a, c)
  {
  }

  // ───────────────────────── flushing while events arrive ─────────────────────────

  /** The profile write `flush_profiles` awaits. `cut` is history: the profile was discarded since the snapshot was
      taken. */
  datatype Write = Write(ip: string, snap: Snapshot, cut: bool)

  /** The engine's profiles and the rows. `work` is what is left of the list `flush_profiles` iterates. History: `peaks`
      is, per address, the merge of its first row and of every profile state that ever existed; `lost` are the addresses
      of which an update was thrown away; `missed` those whose last event has reached neither the row nor a list. */
  datatype State = State(profiles: map<string, Profile>, dirty: set<string>, work: set<string>,
                         writing: Option<Write>, rows: map<string, Snapshot>,
                         peaks: map<string, Snapshot>, lost: set<string>, missed: set<string>)

  /** Discard: the profile goes, by IP-cap eviction (`evict`, which also drops the dirty mark) or by the 24h collection.
      Failed: the write raised, having committed the row or not. Abort: the flush loop is cancelled at shutdown.
      Restart: the process is replaced. Both may find the awaited write committed or not. */
  datatype Action =
    | Observe(ip: string, ev: Event, now: real)
    | Discard(ip: string, evict: bool)
    | Begin
    | Take(ip: string)
    | Written
    | Failed(transient: bool, committed: bool)
    | Abort(committed: bool)
    | Restart(committed: bool)

  function Initial(rows: map<string, Snapshot>): State { State(map[], {}, {}, None, rows, rows, {}, {}) }

  predicate Writing(s: State, ip: string) { s.writing.Some? && s.writing.value.ip == ip }

  /** The profile is on a list. */
  predicate Marked(s: State, ip: string) { ip in s.dirty || ip in s.work }

  function Lookup<V>(m: map<string, V>, ip: string): Option<V> { if ip in m then Some(m[ip]) else None }

  function AddTo(m: map<string, Snapshot>, ip: string, snap: Snapshot): map<string, Snapshot> {
    m[ip := if ip in m then Merge(m[ip], snap) else snap]
  }

  /** The awaited write comes to nothing: what it held is thrown away unless the profile it was taken from is still
      there and stays on a list. */
  function Unwritten(s: State, marked: set<string>): set<string>
    requires s.writing.Some?
  {
    var w := s.writing.value;
    if w.cut || w.ip !in marked then {w.ip} else {}
  }

  function EndWrite(s: State, committed: bool): State
    requires s.writing.Some?
  {
    s.(writing := None, rows := if committed then AddTo(s.rows, s.writing.value.ip, s.writing.value.snap) else s.rows)
  }

  function DoFailed(s: State, transient: bool, committed: bool): State
    requires s.writing.Some?
  {
    var ip := s.writing.value.ip;
    var dirty' := if transient then s.dirty + {ip} else s.dirty;
    EndWrite(s, committed).(
      dirty := dirty',
      lost := if committed then s.lost else s.lost + Unwritten(s, dirty'),
      missed := if committed || ip in dirty' then s.missed else s.missed + {ip})
  }

  /** The flush stops: what is on its list and on no other is forgotten. */
  function DoAbort(s: State, committed: bool): State {
    var listed := set ip | ip in s.work && ip in s.profiles && ip !in s.dirty;
    var ended := if s.writing.Some? then EndWrite(s, committed) else s;
    ended.(work := {},
           lost := s.lost + listed + (if s.writing.Some? && !committed then Unwritten(s, s.dirty) else {}),
           missed := s.missed + listed
                     + (if s.writing.Some? && !committed && s.writing.value.ip !in s.dirty then {s.writing.value.ip}
                        else {}))
  }

  function DoRestart(s: State, committed: bool): State {
    var ended := if s.writing.Some? then EndWrite(s, committed) else s;
    ended.(profiles := map[], dirty := {}, work := {}, missed := {},
           lost := s.lost + (set ip | ip in s.profiles && Marked(s, ip))
                   + (if s.writing.Some? && !committed then {s.writing.value.ip} else {}))
  }

  function Next(signs: Signs, s: State, a: Action): State {
    match a
    case Observe(ip, ev, now) =>
      var p := Update(signs, if ip in s.profiles then s.profiles[ip] else EMPTY, ev, now);
      s.(profiles := s.profiles[ip := p], dirty := s.dirty + {ip}, peaks := AddTo(s.peaks, ip, SnapshotOf(p)),
         missed := s.missed - {ip})
    case Discard(ip, evict) =>
      if ip !in s.profiles then s else
      s.(profiles := s.profiles - {ip}, dirty := if evict then s.dirty - {ip} else s.dirty,
         writing := if Writing(s, ip) then Some(s.writing.value.(cut := true)) else s.writing,
         lost := if Marked(s, ip) then s.lost + {ip} else s.lost, missed := s.missed - {ip})
    case Begin => if s.work == {} && s.writing.None? then s.(dirty := {}, work := s.dirty) else s
    case Take(ip) =>
      if ip !in s.work || s.writing.Some? then s
      else if ip !in s.profiles then s.(work := s.work - {ip})
      else s.(work := s.work - {ip}, writing := Some(Write(ip, SnapshotOf(s.profiles[ip]), false)))
    case Written => if s.writing.None? then s else EndWrite(s, true)
    case Failed(transient, committed) => if s.writing.None? then s else DoFailed(s, transient, committed)
    case Abort(committed) => DoAbort(s, committed)
    case Restart(committed) => DoRestart(s, committed)
  }

  function Run(signs: Signs, s: State, acts: seq<Action>): State {
    if acts == [] then s else Next(signs, Run(signs, s, acts[..|acts| - 1]), acts[|acts| - 1])
  }

  // ───────────────────────── per address ─────────────────────────

  /** One address as the invariants see it: its row, its peak, its profile, whether that is on a list, the snapshot
      being written, and whether that is still the profile it was taken from. */
  datatype View = View(row: Option<Snapshot>, peak: Option<Snapshot>, prof: Option<Snapshot>, marked: bool,
                       write: Option<Snapshot>, cut: bool)

  function ViewOf(s: State, ip: string): View {
    View(Lookup(s.rows, ip), Lookup(s.peaks, ip), if ip in s.profiles then Some(SnapshotOf(s.profiles[ip])) else None,
         Marked(s, ip), if Writing(s, ip) then Some(s.writing.value.snap) else None,
         Writing(s, ip) && s.writing.value.cut)
  }

  /** The update an address still has coming from its lists. */
  function Coming(v: View): Option<Snapshot> { if v.marked then v.prof else None }

  /** Nothing exceeds the peak; a snapshot being written does not exceed the profile it was taken from. */
  ghost predicate Ordered(v: View) {
    && LeqO(v.row, v.peak) && LeqO(v.write, v.peak) && LeqO(v.prof, v.peak)
    && (v.write.Some? && !v.cut ==> v.prof.Some? && LeqO(v.write, v.prof))
  }

  /** Everything that was ever shown is stored, on a list or being written. */
  ghost predicate PeakKept(v: View) { LeqO(v.peak, MergeO(v.row, MergeO(Coming(v), v.write))) }

  /** The profile in memory is stored, on a list, or being written as it is. */
  ghost predicate ProfileKept(v: View) { v.marked || LeqO(v.prof, MergeO(v.row, if v.cut then None else v.write)) }

  ghost predicate Fits(s: State, ip: string) {
    var v := ViewOf(s, ip);
    Ordered(v) && (ip !in s.lost ==> PeakKept(v)) && (ip !in s.missed ==> ProfileKept(v))
  }

  /** An upper bound of the parts is one of the whole. */
  lemma Covered(v: View, bound: Option<Snapshot>)
    requires PeakKept(v) && LeqO(v.row, bound) && LeqO(Coming(v), bound) && LeqO(v.write, bound)
    ensures LeqO(v.peak, bound)
  {
    MergeIsLeast(Coming(v), v.write, bound);
    MergeIsLeast(v.row, MergeO(Coming(v), v.write), bound);
    LeqTrans(v.peak, MergeO(v.row, MergeO(Coming(v), v.write)), bound);
  }

  /** What is stored, coming or being written lies below what is kept. */
  lemma Parts(v: View)
    ensures var kept := MergeO(v.row, MergeO(Coming(v), v.write));
            LeqO(v.row, kept) && LeqO(Coming(v), kept) && LeqO(v.write, kept)
  {
    var kept := MergeO(v.row, MergeO(Coming(v), v.write));
    MergeIsLeast(Coming(v), v.write, None);
    MergeIsLeast(v.row, MergeO(Coming(v), v.write), None);
    LeqTrans(Coming(v), MergeO(Coming(v), v.write), kept);
    LeqTrans(v.write, MergeO(Coming(v), v.write), kept);
  }

  /** v' has a row, a coming update and a write that together cover those of v. */
  lemma StillKept(v: View, v': View)
    requires PeakKept(v) && v'.peak == v.peak
    requires LeqO(v.row, v'.row)
    requires LeqO(Coming(v), Coming(v')) || LeqO(Coming(v), v'.write) || LeqO(Coming(v), v'.row)
    requires LeqO(v.write, v'.write) || LeqO(v.write, v'.row) || LeqO(v.write, Coming(v'))
    ensures PeakKept(v')
  {
    var kept := MergeO(v'.row, MergeO(Coming(v'), v'.write));
    Parts(v');
    LeqTrans(v.row, v'.row, kept);
    if LeqO(Coming(v), Coming(v')) { LeqTrans(Coming(v), Coming(v'), kept); }
    if LeqO(Coming(v), v'.write) { LeqTrans(Coming(v), v'.write, kept); }
    if LeqO(Coming(v), v'.row) { LeqTrans(Coming(v), v'.row, kept); }
    if LeqO(v.write, v'.write) { LeqTrans(v.write, v'.write, kept); }
    if LeqO(v.write, v'.row) { LeqTrans(v.write, v'.row, kept); }
    if LeqO(v.write, Coming(v')) { LeqTrans(v.write, Coming(v'), kept); }
    Covered(v, kept);
  }

  /** A write ends, or there was none, and marks or the profile may go with it. */
  lemma EndKeeps(v: View, v': View, committed: bool)
    requires Ordered(v) && (v'.prof == v.prof || v'.prof.None?)
    requires v'.row == (if committed then MergeO(v.row, v.write) else v.row) && v'.peak == v.peak && v'.write.None?
        && !v'.cut
    ensures Ordered(v')
    ensures PeakKept(v) && LeqO(Coming(v), Coming(v'))
            && (committed || v.write.None? || (!v.cut && v'.marked && v'.prof == v.prof))
            ==> PeakKept(v')
    ensures ProfileKept(v) && LeqO(Coming(v), Coming(v')) && (committed || v.write.None? || v'.marked)
        ==> ProfileKept(v')
  {
    MergeIsLeast(v.row, v.write, v.peak);
    if PeakKept(v) && LeqO(Coming(v), Coming(v'))
       && (committed || v.write.None? || (!v.cut && v'.marked && v'.prof == v.prof))
    {
      StillKept(v, v');
    }
    if ProfileKept(v) && !v.marked && committed { EndKeepsProfile(v, v'); }
  }

  lemma EndKeepsProfile(v: View, v': View)
    requires Ordered(v) && ProfileKept(v) && !v.marked && v'.row == MergeO(v.row, v.write) && v'.write.None?
    requires v'.prof == v.prof || v'.prof.None?
    ensures ProfileKept(v')
  {
    MergeIsLeast(v.row, v.write, None);
    if v.cut { LeqTrans(v.prof, v.row, v'.row); }
  }

  lemma FitsStep(signs: Signs, s: State, a: Action, x: string)
    requires Fits(s, x)
    ensures Fits(Next(signs, s, a), x)
  {
    match a
    case Observe(ip, ev, now) => FitsObserve(signs, s, ip, ev, now, x);
    case Discard(ip, evict) => FitsDiscard(signs, s, ip, evict, x);
    case Begin =>
    case Take(ip) => FitsTake(signs, s, ip, x);
    case Written => FitsWritten(signs, s, x);
    case Failed(transient, committed) => FitsFailed(signs, s, transient, committed, x);
    case Abort(committed) => FitsAbort(signs, s, committed, x);
    case Restart(committed) => FitsRestart(signs, s, committed, x);
  }

  /** The profile rises to `rise` and is marked. */
  lemma RiseKeeps(v: View, rise: Option<Snapshot>)
    requires Ordered(v) && LeqO(v.prof, rise) && rise.Some?
    ensures var v' := v.(peak := MergeO(v.peak, rise), prof := rise, marked := true);
            Ordered(v') && ProfileKept(v') && (PeakKept(v) ==> PeakKept(v'))
  {
    var v' := v.(peak := MergeO(v.peak, rise), prof := rise, marked := true);
    MergeIsLeast(v.peak, rise, None);
    LeqTrans(v.row, v.peak, v'.peak);
    LeqTrans(v.write, v.peak, v'.peak);
    if v.write.Some? && !v.cut { LeqTrans(v.write, v.prof, rise); }
    if PeakKept(v) {
      var kept := MergeO(v'.row, MergeO(Coming(v'), v'.write));
      Parts(v');
      LeqTrans(Coming(v), rise, kept);
      Covered(v, kept);
      MergeIsLeast(v.peak, rise, kept);
    }
  }

  lemma FitsObserve(signs: Signs, s: State, ip: string, ev: Event, now: real, x: string)
    requires Fits(s, x)
    ensures Fits(Next(signs, s, Observe(ip, ev, now)), x)
  {
    var s' := Next(signs, s, Observe(ip, ev, now));
    if x == ip {
      UpdateRises(signs, if ip in s.profiles then s.profiles[ip] else EMPTY, ev, now);
      RiseKeeps(ViewOf(s, ip), Some(SnapshotOf(s'.profiles[ip])));
      assert ViewOf(s', ip).peak == MergeO(ViewOf(s, ip).peak, Some(SnapshotOf(s'.profiles[ip])));
    } else {
      assert ViewOf(s', x) == ViewOf(s, x);
    }
  }

  lemma FitsDiscard(signs: Signs, s: State, ip: string, evict: bool, x: string)
    requires Fits(s, x)
    ensures Fits(Next(signs, s, Discard(ip, evict)), x)
  {
    var s' := Next(signs, s, Discard(ip, evict));
    var v, v' := ViewOf(s, x), ViewOf(s', x);
    if x == ip && ip in s.profiles {
      if x !in s'.lost { StillKept(v, v'); }
    } else {
      assert v' == v;
    }
  }

  lemma FitsTake(signs: Signs, s: State, ip: string, x: string)
    requires Fits(s, x)
    ensures Fits(Next(signs, s, Take(ip)), x)
  {
    var s' := Next(signs, s, Take(ip));
    var v, v' := ViewOf(s, x), ViewOf(s', x);
    if x == ip && s' != s {
      if x !in s'.lost { StillKept(v, v'); }
      MergeIsLeast(v'.row, v'.write, None);
    } else {
      assert v' == v;
    }
  }

  lemma FitsWritten(signs: Signs, s: State, x: string)
    requires Fits(s, x)
    ensures Fits(Next(signs, s, Written), x)
  {
    EndKeeps(ViewOf(s, x), ViewOf(Next(signs, s, Written), x), s.writing.Some?);
  }

  lemma FitsFailed(signs: Signs, s: State, transient: bool, committed: bool, x: string)
    requires Fits(s, x)
    ensures Fits(Next(signs, s, Failed(transient, committed)), x)
  {
    EndKeeps(ViewOf(s, x), ViewOf(Next(signs, s, Failed(transient, committed)), x), s.writing.Some? && committed);
  }

  lemma FitsAbort(signs: Signs, s: State, committed: bool, x: string)
    requires Fits(s, x)
    ensures Fits(Next(signs, s, Abort(committed)), x)
  {
    EndKeeps(ViewOf(s, x), ViewOf(Next(signs, s, Abort(committed)), x), s.writing.Some? && committed);
  }

  lemma FitsRestart(signs: Signs, s: State, committed: bool, x: string)
    requires Fits(s, x)
    ensures Fits(Next(signs, s, Restart(committed)), x)
  {
    EndKeeps(ViewOf(s, x), ViewOf(Next(signs, s, Restart(committed)), x), s.writing.Some? && committed);
  }

  lemma {:induction false} RunFits(signs: Signs, rows: map<string, Snapshot>, acts: seq<Action>, x: string)
    ensures Fits(Run(signs, Initial(rows), acts), x)
  {
    if acts != [] {
      RunFits(signs, rows, acts[..|acts| - 1], x);
      FitsStep(signs, Run(signs, Initial(rows), acts[..|acts| - 1]), acts[|acts| - 1], x);
    }
  }

  // ───────────────────────── once the flush is through ─────────────────────────

  /** Nothing is marked, listed or being written. */
  predicate Quiet(s: State) { s.dirty == {} && s.work == {} && s.writing.None? }

  lemma QuietRow(s: State, ip: string)
    requires Fits(s, ip) && Quiet(s)
    ensures ip in s.profiles && ip !in s.missed ==> ip in s.rows && Leq(SnapshotOf(s.profiles[ip]), s.rows[ip])
    ensures ip in s.peaks && ip !in s.lost ==>
              ip in s.rows && Leq(s.peaks[ip], s.rows[ip]) && Leq(s.rows[ip], s.peaks[ip])
  {
  }

  /** Once the dirty set and the flush's work list are empty, whatever was evicted, collected or retried and whatever
      arrived during a flush: every profile in memory is dominated by its row, unless since its last event a write of it
      was permanently rejected before committing or a flush was aborted. */
  lemma QuiescentRowsCoverProfiles(signs: Signs, rows: map<string, Snapshot>, acts: seq<Action>, ip: string)
    ensures var s := Run(signs, Initial(rows), acts);
            Quiet(s) && ip in s.profiles && ip !in s.missed ==>
              ip in s.rows && Leq(SnapshotOf(s.profiles[ip]), s.rows[ip])
  {
    RunFits(signs, rows, acts, ip);
    var s := Run(signs, Initial(rows), acts);
    if Quiet(s) { QuietRow(s, ip); }
  }

  /** And the row of every address of which no update was thrown away equals the merge of everything its profiles ever
      showed, over all evictions, collections and restarts. */
  lemma QuiescentRowsAreComplete(signs: Signs, rows: map<string, Snapshot>, acts: seq<Action>, ip: string)
    ensures var s := Run(signs, Initial(rows), acts);
            Quiet(s) && ip in s.peaks && ip !in s.lost ==>
              ip in s.rows && Leq(s.peaks[ip], s.rows[ip]) && Leq(s.rows[ip], s.peaks[ip])
  {
    RunFits(signs, rows, acts, ip);
    var s := Run(signs, Initial(rows), acts);
    if Quiet(s) { QuietRow(s, ip); }
  }

  // ───────────────────────── what a row tells about the events ─────────────────────────

  /** The events of each of an address's profiles: a discard or a restart ends one, and the next event begins another.
      The last is the one in memory, if not empty. */
  function Lives(acts: seq<Action>, ip: string): (lives: seq<seq<Seen>>)
    ensures lives != []
  {
    if acts == [] then [[]]
    else
      var before := Lives(acts[..|acts| - 1], ip);
      match acts[|acts| - 1]
      case Observe(x, ev, now) =>
        if x == ip then before[|before| - 1 := before[|before| - 1] + [Seen(ev, now)]] else before
      case Discard(x, _) => if x == ip then before + [[]] else before
      case Restart(_) => before + [[]]
      case _ => before
  }

  /** What a life came to show, if anything. */
  function Shown(signs: Signs, h: seq<Seen>): Option<Snapshot> {
    if h == [] then None else Some(SnapshotOf(Told(signs, h)))
  }

  function AllShown(signs: Signs, lives: seq<seq<Seen>>): seq<Option<Snapshot>> {
    seq(|lives|, i requires 0 <= i < |lives| => Shown(signs, lives[i]))
  }

  /** `x` dominates the row and everything shown. */
  ghost predicate Bounds(row: Option<Snapshot>, shown: seq<Option<Snapshot>>, x: Option<Snapshot>) {
    LeqO(row, x) && forall i :: 0 <= i < |shown| ==> LeqO(shown[i], x)
  }

  /** `top` is the least that does. */
  ghost predicate IsLeast(row: Option<Snapshot>, shown: seq<Option<Snapshot>>, top: Option<Snapshot>) {
    forall x :: LeqO(top, x) <==> Bounds(row, shown, x)
  }

  /** The last life shows more: the least bound rises by just that. */
  lemma LastRises(row: Option<Snapshot>, shown: seq<Option<Snapshot>>, more: Option<Snapshot>, top: Option<Snapshot>)
    requires shown != [] && LeqO(shown[|shown| - 1], more) && IsLeast(row, shown, top)
    ensures IsLeast(row, shown[|shown| - 1 := more], MergeO(top, more))
  {
    var n := |shown| - 1;
    var shown' := shown[n := more];
    forall x ensures LeqO(MergeO(top, more), x) <==> Bounds(row, shown', x) {
      MergeBounds(top, more, x);
      assert LeqO(top, x) <==> Bounds(row, shown, x);
      LastBound(row, shown, more, x);
    }
  }

  lemma LastBound(row: Option<Snapshot>, shown: seq<Option<Snapshot>>, more: Option<Snapshot>, x: Option<Snapshot>)
    requires shown != [] && LeqO(shown[|shown| - 1], more)
    ensures Bounds(row, shown[|shown| - 1 := more], x) <==> Bounds(row, shown, x) && LeqO(more, x)
  {
    var n := |shown| - 1;
    var shown' := shown[n := more];
    assert shown'[n] == more;
    if LeqO(more, x) { LeqTrans(shown[n], more, x); }
    if Bounds(row, shown', x) {
      forall i | 0 <= i < |shown| ensures LeqO(shown[i], x) { assert i < n ==> shown'[i] == shown[i]; }
    }
  }

  lemma MergeBounds(a: Option<Snapshot>, b: Option<Snapshot>, x: Option<Snapshot>)
    ensures LeqO(MergeO(a, b), x) <==> LeqO(a, x) && LeqO(b, x)
  {
    MergeIsLeast(a, b, x);
    if LeqO(MergeO(a, b), x) {
      LeqTrans(a, MergeO(a, b), x);
      LeqTrans(b, MergeO(a, b), x);
    }
  }

  /** A life that has not begun shows nothing. */
  lemma NewLife(row: Option<Snapshot>, shown: seq<Option<Snapshot>>, top: Option<Snapshot>)
    requires IsLeast(row, shown, top)
    ensures IsLeast(row, shown + [None], top)
  {
    forall x ensures LeqO(top, x) <==> Bounds(row, shown + [None], x) {
      assert LeqO(top, x) <==> Bounds(row, shown, x);
      assert forall i :: 0 <= i < |shown| ==> (shown + [None])[i] == shown[i];
    }
  }

  /** The profile in memory is that of the last life. */
  ghost predicate InLife(signs: Signs, s: State, h: seq<Seen>, ip: string) {
    if ip in s.profiles then h != [] && s.profiles[ip] == Told(signs, h) else h == []
  }

  lemma ToldSnoc(signs: Signs, h: seq<Seen>, x: Seen)
    ensures Told(signs, h + [x]) == Update(signs, Told(signs, h), x.ev, x.now)
    ensures LeqO(Shown(signs, h), Shown(signs, h + [x]))
  {
    assert (h + [x])[..|h|] == h;
    UpdateRises(signs, Told(signs, h), x.ev, x.now);
  }

  ghost predicate Tells(signs: Signs, s: State, row: Option<Snapshot>, lives: seq<seq<Seen>>, ip: string)
    requires lives != []
  {
    && InLife(signs, s, lives[|lives| - 1], ip)
    && IsLeast(row, AllShown(signs, lives), Lookup(s.peaks, ip))
  }

  lemma {:induction false} RunTells(signs: Signs, rows: map<string, Snapshot>, acts: seq<Action>, ip: string)
    ensures Tells(signs, Run(signs, Initial(rows), acts), Lookup(rows, ip), Lives(acts, ip), ip)
  {
    if acts == [] {
      assert AllShown(signs, [[]]) == [None];
    } else {
      var front, a := acts[..|acts| - 1], acts[|acts| - 1];
      RunTells(signs, rows, front, ip);
      var s := Run(signs, Initial(rows), front);
      if a.Observe? && a.ip == ip {
        ObserveTells(signs, s, Lookup(rows, ip), Lives(front, ip), ip, a.ev, a.now);
      } else if a.Restart? || (a.Discard? && a.ip == ip) {
        EndTells(signs, s, a, Lookup(rows, ip), Lives(front, ip), ip);
      } else {
        OtherTells(signs, s, a, Lookup(rows, ip), Lives(front, ip), ip);
      }
    }
  }

  lemma ObserveTells(signs: Signs, s: State, row: Option<Snapshot>, lives: seq<seq<Seen>>, ip: string, ev: Event,
                     now: real)
    requires lives != [] && Tells(signs, s, row, lives, ip)
    ensures var n := |lives| - 1;
            Tells(signs, Next(signs, s, Observe(ip, ev, now)), row, lives[n := lives[n] + [Seen(ev, now)]], ip)
  {
    LifeGoesOn(signs, row, lives, Seen(ev, now), Lookup(s.peaks, ip));
    ToldSnoc(signs, lives[|lives| - 1], Seen(ev, now));
    PeakRises(signs, s, ip, ev, now);
  }

  lemma LifeGoesOn(signs: Signs, row: Option<Snapshot>, lives: seq<seq<Seen>>, x: Seen, top: Option<Snapshot>)
    requires lives != [] && IsLeast(row, AllShown(signs, lives), top)
    ensures var n := |lives| - 1;
            var h := lives[n] + [x];
            IsLeast(row, AllShown(signs, lives[n := h]), MergeO(top, Shown(signs, h)))
  {
    var n := |lives| - 1;
    var h := lives[n] + [x];
    ToldSnoc(signs, lives[n], x);
    LastRises(row, AllShown(signs, lives), Shown(signs, h), top);
    assert AllShown(signs, lives[n := h]) == AllShown(signs, lives)[n := Shown(signs, h)];
  }

  lemma PeakRises(signs: Signs, s: State, ip: string, ev: Event, now: real)
    ensures var s' := Next(signs, s, Observe(ip, ev, now));
            var p := Update(signs, if ip in s.profiles then s.profiles[ip] else EMPTY, ev, now);
            && ip in s'.profiles && s'.profiles[ip] == p
            && Lookup(s'.peaks, ip) == MergeO(Lookup(s.peaks, ip), Some(SnapshotOf(p)))
  {
  }

  lemma EndTells(signs: Signs, s: State, a: Action, row: Option<Snapshot>, lives: seq<seq<Seen>>, ip: string)
    requires lives != [] && Tells(signs, s, row, lives, ip) && (a.Restart? || (a.Discard? && a.ip == ip))
    ensures Tells(signs, Next(signs, s, a), row, lives + [[]], ip)
  {
    NewLife(row, AllShown(signs, lives), Lookup(s.peaks, ip));
    assert AllShown(signs, lives + [[]]) == AllShown(signs, lives) + [None];
  }

  lemma OtherTells(signs: Signs, s: State, a: Action, row: Option<Snapshot>, lives: seq<seq<Seen>>, ip: string)
    requires lives != [] && Tells(signs, s, row, lives, ip)
    requires !a.Restart? && (a.Observe? || a.Discard? ==> a.ip != ip)
    ensures Tells(signs, Next(signs, s, a), row, lives, ip)
  {
    var s' := Next(signs, s, a);
    assert Lookup(s'.peaks, ip) == Lookup(s.peaks, ip);
    assert ip in s'.profiles <==> ip in s.profiles;
  }

  /** Once the flush is through, the row of an address of which no update was thrown away is the least that dominates
      the row it started with and what each of its profiles came to show. */
  lemma RowTellsEvents(signs: Signs, rows: map<string, Snapshot>, acts: seq<Action>, ip: string)
    ensures var s := Run(signs, Initial(rows), acts);
            Quiet(s) && ip in s.peaks && ip !in s.lost ==>
              ip in s.rows && IsLeast(Lookup(rows, ip), AllShown(signs, Lives(acts, ip)), Some(s.rows[ip]))
  {
    QuiescentRowsAreComplete(signs, rows, acts, ip);
    RunTells(signs, rows, acts, ip);
    var s := Run(signs, Initial(rows), acts);
    if Quiet(s) && ip in s.peaks && ip !in s.lost {
      SameBounds(Lookup(rows, ip), AllShown(signs, Lives(acts, ip)), Some(s.peaks[ip]), Some(s.rows[ip]));
    }
  }

  lemma SameBounds(row: Option<Snapshot>, shown: seq<Option<Snapshot>>, top: Option<Snapshot>, top': Option<Snapshot>)
    requires IsLeast(row, shown, top) && LeqO(top, top') && LeqO(top', top)
    ensures IsLeast(row, shown, top')
  {
    forall x ensures LeqO(top', x) <==> Bounds(row, shown, x) {
      assert LeqO(top, x) <==> Bounds(row, shown, x);
      if LeqO(top', x) { LeqTrans(top, top', x); }
      if LeqO(top, x) { LeqTrans(top', top, x); }
    }
  }

  /** So the row of a new address whose profile was never discarded shows exactly its events: sessions, logins, signs,
      tactics, score and class. */
  lemma RowShowsEvents(signs: Signs, rows: map<string, Snapshot>, acts: seq<Action>, ip: string)
    requires ip !in rows && |Lives(acts, ip)| == 1 && Lives(acts, ip)[0] != []
    ensures var s := Run(signs, Initial(rows), acts);
            Quiet(s) && ip !in s.lost ==> ip in s.rows && IsShown(signs, Lives(acts, ip)[0], s.rows[ip])
  {
    var s, h := Run(signs, Initial(rows), acts), Lives(acts, ip)[0];
    var shown := SnapshotOf(Told(signs, h));
    RunTells(signs, rows, acts, ip);
    RowTellsEvents(signs, rows, acts, ip);
    SnapshotTells(signs, h);
    assert AllShown(signs, Lives(acts, ip)) == [Some(shown)];
    OnlyShown(shown, Lookup(s.peaks, ip));
    if Quiet(s) && ip !in s.lost { OnlyShown(shown, Some(s.rows[ip])); }
  }

  /** The least that dominates one snapshot whose class has a rank is that snapshot. */
  lemma OnlyShown(shown: Snapshot, top: Option<Snapshot>)
    requires IsLeast(None, [Some(shown)], top) && shown.cls in CLASS_RANK
    ensures top == Some(shown)
  {
    var all := [Some(shown)];
    assert Bounds(None, all, Some(shown));
    assert LeqO(top, Some(shown));
    assert !Bounds(None, all, None) by { assert !LeqO(all[0], None); }
    assert LeqO(top, top) && Bounds(None, all, top) && LeqO(all[0], top);
    SameRank(top.value.cls, shown.cls);
    assert top.value.hints == shown.hints && top.value.tactics == shown.tactics;
  }

  lemma SameRank(a: string, b: string)
    requires Rank(Some(a)) == Rank(Some(b)) && b in CLASS_RANK
    ensures a == b
  {
    RankIsPosition(a);
    RankIsPosition(b);
  }

  // ───────────────────────── a flush comes through ─────────────────────────

  /** A set of states no step leaves, such as those that can follow a run. */
  ghost predicate Closed(signs: Signs, reached: State -> bool) {
    forall s, a :: reached(s) ==> reached(Next(signs, s, a))
  }

  /** Nothing but lists, the awaited write and rows have changed. */
  predicate OnlyFlushed(s: State, s': State) { s'.profiles == s.profiles && s'.peaks == s.peaks && s'.lost == s.lost }

  lemma {:induction false} WorksOff(signs: Signs, reached: State -> bool, s: State) returns (s': State)
    requires Closed(signs, reached) && reached(s) && s.writing.None?
    ensures reached(s') && OnlyFlushed(s, s') && s'.work == {} && s'.dirty == s.dirty && s'.writing.None?
    decreases |s.work|
  {
    s' := s;
    if s.work != {} {
      var ip :| ip in s.work;
      var taken := Next(signs, s, Take(ip));
      assert taken.work == s.work - {ip};
      s' := WorksOff(signs, reached, Next(signs, taken, Written));
    }
  }

  lemma FlushesOut(signs: Signs, reached: State -> bool, s: State) returns (s': State)
    requires Closed(signs, reached) && reached(s)
    ensures reached(s') && OnlyFlushed(s, s') && Quiet(s')
  {
    s' := WorksOff(signs, reached, Next(signs, s, Written));
    s' := WorksOff(signs, reached, Next(signs, s', Begin));
  }

  lemma RunSnoc(signs: Signs, s: State, acts: seq<Action>, a: Action)
    ensures Run(signs, s, acts + [a]) == Next(signs, Run(signs, s, acts), a)
  {
    assert (acts + [a])[..|acts|] == acts;
  }

  /** From any state two undisturbed flushes leave nothing to be written, and throw nothing away. */
  lemma FlushComesThrough(signs: Signs, s: State) returns (acts: seq<Action>)
    ensures Quiet(Run(signs, s, acts)) && OnlyFlushed(s, Run(signs, s, acts))
  {
    var reached := x => exists more :: Run(signs, s, more) == x;
    forall x, a | reached(x) ensures reached(Next(signs, x, a)) {
      var more :| Run(signs, s, more) == x;
      RunSnoc(signs, s, more, a);
    }
    assert Run(signs, s, []) == s;
    var quiet := FlushesOut(signs, reached, s);
    acts :| Run(signs, s, acts) == quiet;
  }

  /** An eviction loses nothing, in that row and awaited write still cover all that the address ever showed, if and only
      if they cover the evicted profile. Having been persisted earlier is not enough. */
  lemma EvictionHarmlessIff(signs: Signs, rows: map<string, Snapshot>, acts: seq<Action>, ip: string, evict: bool)
    ensures var s := Run(signs, Initial(rows), acts);
            ip in s.profiles && ip !in s.lost ==>
              (PeakKept(ViewOf(Next(signs, s, Discard(ip, evict)), ip))
               <==> LeqO(Some(SnapshotOf(s.profiles[ip])), MergeO(ViewOf(s, ip).row, ViewOf(s, ip).write)))
  {
    RunFits(signs, rows, acts, ip);
    var s := Run(signs, Initial(rows), acts);
    if ip in s.profiles && ip !in s.lost { DiscardHarmlessIff(signs, s, ip, evict); }
  }

  lemma DiscardHarmlessIff(signs: Signs, s: State, ip: string, evict: bool)
    requires Fits(s, ip) && ip in s.profiles && ip !in s.lost
    ensures PeakKept(ViewOf(Next(signs, s, Discard(ip, evict)), ip))
       <==> LeqO(Some(SnapshotOf(s.profiles[ip])), MergeO(ViewOf(s, ip).row, ViewOf(s, ip).write))
  {
    var v, v' := ViewOf(s, ip), ViewOf(Next(signs, s, Discard(ip, evict)), ip);
    var kept := MergeO(v.row, v.write);
    assert MergeO(v'.row, MergeO(Coming(v'), v'.write)) == kept;
    if LeqO(v.prof, kept) {
      MergeIsLeast(v.row, v.write, None);
      Covered(v, kept);
    }
    if PeakKept(v') { LeqTrans(v.prof, v.peak, kept); }
  }

  /** The step throws no update away: no listed profile is discarded, a write that comes to nothing was of a profile
      that is still there and stays on a list, and nothing listed is dropped by an abort or a restart. */
  predicate Careful(s: State, a: Action) {
    match a
    case Discard(ip, _) => ip in s.profiles ==> !Marked(s, ip)
    case Failed(transient, committed) =>
      s.writing.Some? && !committed ==> !s.writing.value.cut && (transient || s.writing.value.ip in s.dirty)
    case Abort(committed) =>
      && (forall ip :: ip in s.work && ip in s.profiles ==> ip in s.dirty)
      && (s.writing.Some? && !committed ==> !s.writing.value.cut && s.writing.value.ip in s.dirty)
    case Restart(committed) =>
      && (forall ip :: ip in s.profiles ==> !Marked(s, ip))
      && (s.writing.Some? ==> committed)
    case _ => true
  }

  predicate CarefulRun(signs: Signs, s: State, acts: seq<Action>) {
    acts == []
    || (CarefulRun(signs, s, acts[..|acts| - 1]) && Careful(Run(signs, s, acts[..|acts| - 1]), acts[|acts| - 1]))
  }

  lemma CarefulStep(signs: Signs, s: State, a: Action)
    ensures s.lost <= Next(signs, s, a).lost
    ensures s.lost == {} ==> (Next(signs, s, a).lost == {} <==> Careful(s, a))
  {
    match a
    case Abort(committed) => CarefulAbort(s, committed);
    case Restart(committed) => CarefulRestart(s, committed);
    case _ =>
  }

  lemma CarefulAbort(s: State, committed: bool)
    ensures s.lost <= DoAbort(s, committed).lost
    ensures s.lost == {} ==> (DoAbort(s, committed).lost == {} <==> Careful(s, Abort(committed)))
  {
    var lost' := DoAbort(s, committed).lost;
    if !Careful(s, Abort(committed)) {
      if ip :| ip in s.work && ip in s.profiles && ip !in s.dirty { assert ip in lost'; }
    }
  }

  lemma CarefulRestart(s: State, committed: bool)
    ensures s.lost <= DoRestart(s, committed).lost
    ensures s.lost == {} ==> (DoRestart(s, committed).lost == {} <==> Careful(s, Restart(committed)))
  {
    var lost' := DoRestart(s, committed).lost;
    if !Careful(s, Restart(committed)) {
      if ip :| ip in s.profiles && Marked(s, ip) { assert ip in lost'; }
    }
  }

  /** A run throws no update away if and only if each of its steps is careful. */
  lemma {:induction false} NothingLost(signs: Signs, rows: map<string, Snapshot>, acts: seq<Action>)
    ensures Run(signs, Initial(rows), acts).lost == {} <==> CarefulRun(signs, Initial(rows), acts)
  {
    if acts != [] {
      NothingLost(signs, rows, acts[..|acts| - 1]);
      CarefulStep(signs, Run(signs, Initial(rows), acts[..|acts| - 1]), acts[|acts| - 1]);
    }
  }
}
