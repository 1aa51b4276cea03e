/** The two correlation detectors (analytics/correlation/scan_detector.py, attack_detector.py). Both see a window of one
    address's recent events and report at most once per window, remembering when they last did. Time is in seconds. */
module Detectors {
  import opened Prelude

  /** An event off the stream, whose fields are strings: an absent one arrives as "", a port that is not a positive
      number counts as 0, and a severity is absent or a number (the string "0" is not empty, so 0 is a number too). */
  datatype Event = Event(recv: real, kind: string, dstPort: nat, service: string, username: string,
                         command: string, signature: string, severity: Option<int>, session: string)

  datatype Finding =
    | Scan(ip: string, sweep: bool, ports: set<nat>, services: set<string>)
    | Attack(ip: string, kind: string, services: set<string>, severity: int, attempts: nat, users: set<string>,
             text: string)

  /** Events no older than `span`. */
  function Recent(window: seq<Event>, now: real, span: real): seq<Event> {
    if window == [] then []
    else Recent(window[..|window| - 1], now, span)
         + (if now - window[|window| - 1].recv <= span then [window[|window| - 1]] else [])
  }

  predicate IsLogin(e: Event) { e.kind == "login_attempt" || e.kind == "login_success" }

  function Logins(es: seq<Event>): seq<Event> {
    if es == [] then []
    else Logins(es[..|es| - 1]) + (if IsLogin(es[|es| - 1]) then [es[|es| - 1]] else [])
  }

  function Services(es: seq<Event>): set<string> { set e | e in es :: e.service }

  function Ports(es: seq<Event>): set<nat> { set e | e in es && e.dstPort > 0 :: e.dstPort }

  /** Reported less than one span ago; an address never reported counts as reported at the epoch. */
  predicate Dup<K>(reported: map<K, real>, key: K, now: real, span: real) {
    now - (if key in reported then reported[key] else 0.0) < span
  }

  /** Forget what was reported more than two spans ago. */
  function Pruned<K>(reported: map<K, real>, now: real, span: real): map<K, real> {
    map k | k in reported && !(reported[k] < now - span * 2.0) :: reported[k]
  }

  // ───────────────────────── scans ─────────────────────────

  datatype ScanRules = ScanRules(threshold: int, span: real)

  predicate IsScan(rules: ScanRules, window: seq<Event>, now: real) {
    |Ports(Recent(window, now, rules.span))| >= rules.threshold
  }

  function ScanFinding(rules: ScanRules, ip: string, window: seq<Event>, now: real): Finding {
    var recent := Recent(window, now, rules.span);
    Scan(ip, |Services(recent)| >= 3, Ports(recent), Services(recent) - {""})
  }

  /** What the scan detector remembers and reports for one event. */
  function ScanStep(rules: ScanRules, reported: map<string, real>, ip: string, window: seq<Event>, now: real)
    : (map<string, real>, seq<Finding>)
  {
    if IsScan(rules, window, now) && !Dup(reported, ip, now, rules.span)
    then (reported[ip := now], [ScanFinding(rules, ip, window, now)])
    else (reported, [])
  }

  lemma {:induction false} RecentHas(window: seq<Event>, now: real, span: real, e: Event)
    ensures e in Recent(window, now, span) <==> e in window && now - e.recv <= span
  {
    if window != [] {
      assert window == window[..|window| - 1] + [window[|window| - 1]];
      RecentHas(window[..|window| - 1], now, span, e);
    }
  }

  /** What a scan detector reports: with at least `threshold` distinct ports among the events no older than the span,
      and the address not reported within the span, one finding with just those ports and the services named, a sweep if
      three services or more; and the address is marked. Otherwise nothing. */
  lemma ScanStepIs(rules: ScanRules, reported: map<string, real>, ip: string, window: seq<Event>, now: real)
    ensures var seen := set e | e in window && now - e.recv <= rules.span;
            var ports, services := set e | e in seen && e.dstPort > 0 :: e.dstPort, set e | e in seen :: e.service;
            ScanStep(rules, reported, ip, window, now)
            == if |ports| >= rules.threshold && now - (if ip in reported then reported[ip] else 0.0) >= rules.span
               then (reported[ip := now], [Scan(ip, |services| >= 3, ports, services - {""})])
               else (reported, [])
  {
    var seen := set e | e in window && now - e.recv <= rules.span;
    var recent := Recent(window, now, rules.span);
    forall e ensures e in recent <==> e in seen { RecentHas(window, now, rules.span, e); }
    assert Ports(recent) == set e | e in seen && e.dstPort > 0 :: e.dstPort;
    assert Services(recent) == set e | e in seen :: e.service;
  }

  class ScanDetector {
    const rules: ScanRules
    var reported: map<string, real>

    constructor (rules: ScanRules)
      ensures this.rules == rules && reported == map[]
    {
      this.rules := rules;
      reported := map[];
    }

    method OnEvent(ip: string, window: seq<Event>, now: real) returns (findings: seq<Finding>)
      modifies this
      ensures (reported, findings) == ScanStep(rules, old(reported), ip, window, now)
    {
      var recent := Recent(window, now, rules.span);
      var ports := Ports(recent);
      if |ports| < rules.threshold { return []; }
      if now - (if ip in reported then reported[ip] else 0.0) < rules.span { return []; }
      reported := reported[ip := now];
      var services := Services(recent);
      findings := [Scan(ip, |services| >= 3, ports, services - {""})];
    }

    method Prune(now: real)
      modifies this
      ensures reported == Pruned(old(reported), now, rules.span)
      ensures reported == map k | k in old(reported) && old(reported)[k] >= now - rules.span * 2.0 :: old(reported)[k]
    {
      reported := ForgetOld(reported, now - rules.span * 2.0);
    }
  }

  /** Deletes the entries older than the cutoff, one by one. */
  method ForgetOld<K>(reported: map<K, real>, cutoff: real) returns (kept: map<K, real>)
    ensures kept == map k | k in reported && !(reported[k] < cutoff) :: reported[k]
  {
    kept := reported;
    var stale := set k | k in reported && reported[k] < cutoff;
    while stale != {}
      invariant stale <= kept.Keys <= reported.Keys
      invariant forall k :: k in kept ==> kept[k] == reported[k]
      invariant forall k :: k in stale ==> reported[k] < cutoff
      invariant forall k :: k in reported && (k in stale || !(reported[k] < cutoff)) ==> k in kept
      invariant forall k :: k in kept && reported[k] < cutoff ==> k in stale
      decreases |stale|
    {
      var k :| k in stale;
      kept := kept - {k};
      stale := stale - {k};
    }
  }

  // ───────────────────────── attacks ─────────────────────────

  datatype AttackRules = AttackRules(threshold: int, span: real)

  /** The `_reported` keys: an address and what was reported about it. */
  datatype Tag = BruteForce | Exec
  datatype Key = Key(ip: string, tag: Tag)

  predicate IsBruteForce(rules: AttackRules, ev: Event, window: seq<Event>, now: real) {
    IsLogin(ev) && |Logins(Recent(window, now, rules.span))| >= rules.threshold
  }

  function Users(es: seq<Event>): set<string> { set e | e in es :: e.username }

  function BruteForceFinding(rules: AttackRules, ip: string, window: seq<Event>, now: real): Finding {
    var logins := Logins(Recent(window, now, rules.span));
    Attack(ip, if |Users(logins)| > 3 then "cred_stuffing" else "bruteforce", Services(logins) - {""}, 2, |logins|,
           Users(logins), "")
  }

  function Cut(s: string, n: nat): string { if |s| > n then s[..n] else s }

  /** `max(2, 4 - int(severity or 2))`. */
  function ExploitSeverity(severity: Option<int>): int { Max(2, 4 - (if severity.Some? then severity.value else 2)) }

  function Mark(reported: map<Key, real>, key: Key, now: real, hit: bool): map<Key, real> {
    if hit then reported[key := now] else reported
  }

  /** What the attack detector remembers and reports for one event; exploit signatures are never suppressed. */
  function AttackStep(rules: AttackRules, reported: map<Key, real>, ip: string, ev: Event, window: seq<Event>,
                      now: real)
    : (map<Key, real>, seq<Finding>)
  {
    var bf := IsBruteForce(rules, ev, window, now) && !Dup(reported, Key(ip, BruteForce), now, rules.span);
    var reported1 := Mark(reported, Key(ip, BruteForce), now, bf);
    var ex := ev.kind == "command" && ev.command != "" && !Dup(reported1, Key(ip, Exec), now, rules.span);
    (Mark(reported1, Key(ip, Exec), now, ex),
     (if bf then [BruteForceFinding(rules, ip, window, now)] else [])
     + (if ex then [Attack(ip, "post_auth_exec", {ev.service}, 3, 0, {}, Cut(ev.command, 500))] else [])
     + (if ev.kind == "alert" && ev.signature != ""
        then [Attack(ip, "exploit", {ev.service}, ExploitSeverity(ev.severity), 0, {}, ev.signature)] else []))
  }

  /** Where in the window the recent logins are. */
  function LoginsAt(window: seq<Event>, now: real, span: real): set<nat> {
    set i | 0 <= i < |window| && window[i].kind in {"login_attempt", "login_success"} && now - window[i].recv <= span
  }

  lemma {:induction false} LoginsCount(window: seq<Event>, now: real, span: real)
    ensures |Logins(Recent(window, now, span))| == |LoginsAt(window, now, span)|
  {
    if window != [] {
      var n := |window| - 1;
      LoginsCount(window[..n], now, span);
      var recent := Recent(window[..n], now, span);
      LoginsSnoc(recent, window[n]);
      LoginsAtSnoc(window, now, span);
      assert recent + [] == recent;
    }
  }

  lemma {:induction false} LoginsHas(es: seq<Event>, e: Event)
    ensures e in Logins(es) <==> e in es && IsLogin(e)
  {
    if es != [] {
      assert es == es[..|es| - 1] + [es[|es| - 1]];
      LoginsHas(es[..|es| - 1], e);
    }
  }

  lemma LoginsAre(window: seq<Event>, now: real, span: real)
    ensures var logins, at := Logins(Recent(window, now, span)), LoginsAt(window, now, span);
            && |logins| == |at|
            && Users(logins) == (set i | i in at :: window[i].username)
            && Services(logins) == (set i | i in at :: window[i].service)
  {
    LoginsCount(window, now, span);
    var logins, at := Logins(Recent(window, now, span)), LoginsAt(window, now, span);
    forall e ensures e in logins <==> e in window && IsLogin(e) && now - e.recv <= span {
      LoginsHas(Recent(window, now, span), e);
      RecentHas(window, now, span, e);
    }
    assert forall i :: i in at ==> window[i] in logins;
  }

  lemma LoginsAtSnoc(window: seq<Event>, now: real, span: real)
    requires window != []
    ensures var n := |window| - 1;
            var front, at := LoginsAt(window[..n], now, span), LoginsAt(window, now, span);
            && at == front + (if IsLogin(window[n]) && now - window[n].recv <= span then {n} else {})
            && n !in front && forall i :: i in front ==> window[..n][i] == window[i]
  {
  }

  lemma LoginsSnoc(es: seq<Event>, e: Event)
    ensures Logins(es + [e]) == Logins(es) + (if IsLogin(e) then [e] else [])
  {
    assert (es + [e])[..|es|] == es;
  }

  /** What an attack detector reports. On a login, with at least `threshold` logins no older than the span and none
      reported within the span: their number, users and services, as credential stuffing if they show more than three
      users. On a command: the command, unless one was reported within the span. On an alert with a signature: always an
      exploit. What is reported of the first two kinds is marked. */
  lemma AttackStepIs(rules: AttackRules, reported: map<Key, real>, ip: string, ev: Event, window: seq<Event>, now: real)
    ensures var at := LoginsAt(window, now, rules.span);
            var users, services := set i | i in at :: window[i].username, set i | i in at :: window[i].service;
            var bf := ev.kind in {"login_attempt", "login_success"} && |at| >= rules.threshold
                      && now - (if Key(ip, BruteForce) in reported then reported[Key(ip, BruteForce)] else 0.0)
                         >= rules.span;
            var ex := ev.kind == "command" && ev.command != ""
                      && now - (if Key(ip, Exec) in reported then reported[Key(ip, Exec)] else 0.0) >= rules.span;
            AttackStep(rules, reported, ip, ev, window, now)
            == (var marked := if bf then reported[Key(ip, BruteForce) := now] else reported;
                if ex then marked[Key(ip, Exec) := now] else marked,
                (if bf then [Attack(ip, if |users| > 3 then "cred_stuffing" else "bruteforce", services - {""}, 2, |at|,
                                    users, "")]
                 else [])
                + (if ex then [Attack(ip, "post_auth_exec", {ev.service}, 3, 0, {},
                                      if |ev.command| > 500 then ev.command[..500] else ev.command)]
                   else [])
                + (if ev.kind == "alert" && ev.signature != ""
                   then [Attack(ip, "exploit", {ev.service},
                                if ev.severity.Some? && ev.severity.value < 2 then 4 - ev.severity.value else 2, 0, {},
                                ev.signature)]
                   else []))
  {
    LoginsAre(window, now, rules.span);
  }

  class AttackDetector {
    const rules: AttackRules
    var reported: map<Key, real>

    constructor (rules: AttackRules)
      ensures this.rules == rules && reported == map[]
    {
      this.rules := rules;
      reported := map[];
    }

    method OnEvent(ip: string, ev: Event, window: seq<Event>, now: real) returns (findings: seq<Finding>)
      modifies this
      ensures (reported, findings) == AttackStep(rules, old(reported), ip, ev, window, now)
    {
      findings := [];
      if ev.kind == "login_attempt" || ev.kind == "login_success" {
        var logins := Logins(Recent(window, now, rules.span));
        if |logins| >= rules.threshold {
          var dup := IsDup(Key(ip, BruteForce), now);
          if !dup { findings := findings + [BruteForceFinding(rules, ip, window, now)]; }
        }
      }
      if ev.kind == "command" && ev.command != "" {
        var dup := IsDup(Key(ip, Exec), now);
        if !dup { findings := findings + [Attack(ip, "post_auth_exec", {ev.service}, 3, 0, {}, Cut(ev.command, 500))]; }
      }
      if ev.kind == "alert" && ev.signature != "" {
        findings := findings + [Attack(ip, "exploit", {ev.service}, ExploitSeverity(ev.severity), 0, {}, ev.signature)];
      }
      assert reported == AttackStep(rules, old(reported), ip, ev, window, now).0;
      assert findings == AttackStep(rules, old(reported), ip, ev, window, now).1;
    }

    /** `_dup`: a key is marked exactly when it was not a duplicate. */
    method IsDup(key: Key, now: real) returns (dup: bool)
      modifies this
      ensures dup <==> Dup(old(reported), key, now, rules.span)
      ensures reported == Mark(old(reported), key, now, !dup)
    {
      if now - (if key in reported then reported[key] else 0.0) < rules.span { return true; }
      reported := reported[key := now];
      return false;
    }

    method Prune(now: real)
      modifies this
      ensures reported == Pruned(old(reported), now, rules.span)
      ensures reported == map k | k in old(reported) && old(reported)[k] >= now - rules.span * 2.0 :: old(reported)[k]
    {
      reported := ForgetOld(reported, now - rules.span * 2.0);
    }
  }
}
