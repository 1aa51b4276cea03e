/** One event's way through the engine (analytics/engine.py, `handle_event` and `gc_state`): window, detectors, profile,
    as the engine's own code, carried out step for step by the window machine. */
module Correlator {
  import opened Prelude
  import opened Detectors
  import E = Engine
  import W = Windows
  import P = Profiles

  /** Windows after a slide: those that went, and the one that changed. */
  lemma SlidWindows(before: map<string, seq<Event>>, after: map<string, seq<Event>>, ip: string)
    requires ip in after && (ip in before ==> before.Keys <= after.Keys)
    requires forall k :: k in after && k != ip ==> k in before && after[k] == before[k]
    ensures after == (before - (before.Keys - after.Keys))[ip := after[ip]]
    ensures W.Of(before - (before.Keys - after.Keys), ip) == W.Of(before, ip)
  {
  }

  /** What arriving after an eviction makes of the machine. */
  lemma ArriveIs(cfg: W.Config, b: W.Bounded, evicted: set<string>, ip: string, ev: Event, now: real)
    requires b.job.None? && b.clock <= ev.recv <= now && W.Of(b.windows - evicted, ip) == W.Of(b.windows, ip)
    ensures var w := W.Slide(W.Of(b.windows, ip), ev, now, cfg.maxEvents);
            W.Next(cfg, W.Next(cfg, b, W.Evict(evicted, ev.recv)), W.Arrive(ip, ev, now))
            == b.(windows := (b.windows - evicted)[ip := w], window := w, job := Some(W.Job(ip, ev, W.BeforeScan)),
                  clock := now)
  {
  }

  class Engine {
    const memory: E.Memory
    const scan: ScanDetector
    const attack: AttackDetector
    const cfg: W.Config
    var reported: seq<W.Report>         // every finding the detectors returned, and when
    var persisted: seq<Finding>         // those persist_finding wrote
    ghost var trace: seq<W.Action>
    ghost var world: W.Bounded

    ghost predicate Settled() reads this, memory, scan, attack {
      && world == W.Run(cfg, trace)
      && memory.Valid() && cfg == W.Config(memory.maxEvents, scan.rules, attack.rules)
      && world.windows == memory.windows && world.scan == scan.reported && world.attack == attack.reported
      && world.findings == reported
    }

    constructor (maxEvents: nat, maxIps: nat, maxProfiles: nat, signs: P.Signs, scanRules: ScanRules,
                 attackRules: AttackRules)
      requires maxIps >= 1 && maxProfiles >= 1
      ensures Settled() && world == W.START && trace == [] && fresh(memory) && fresh(scan) && fresh(attack)
      ensures cfg == W.Config(maxEvents, scanRules, attackRules) && memory.maxIps == maxIps
    {
      memory := new E.Memory(maxEvents, maxIps, maxProfiles, signs);
      scan := new ScanDetector(scanRules);
      attack := new AttackDetector(attackRules);
      cfg := W.Config(maxEvents, scanRules, attackRules);
      reported, persisted := [], [];
      world, trace := W.START, [];
    }

    ghost method Step(a: W.Action)
      requires world == W.Run(cfg, trace)
      modifies this`world, this`trace
      ensures world == W.Next(cfg, old(world), a) && world == W.Run(cfg, trace) && trace == old(trace) + [a]
    {
      assert (trace + [a])[..|trace|] == trace;
      world := W.Next(cfg, world, a);
      trace := trace + [a];
    }

    /** The event enters its address's window; a new address at the cap evicts the coldest windows first. */
    method Arrive(ip: string, ev: Event, now: real) returns (ghost evicted: set<string>)
      requires Settled() && world.job.None? && world.clock <= ev.recv <= now
      modifies this`world, this`trace, memory`windows
      ensures Settled() && trace == old(trace) + [W.Evict(evicted, ev.recv)] + [W.Arrive(ip, ev, now)]
      ensures evicted == old(memory.windows).Keys - memory.windows.Keys
      ensures ip in old(memory.windows) || |old(memory.windows)| < memory.maxIps ==> evicted == {}
      ensures ip in memory.windows
      ensures world.job == Some(W.Job(ip, ev, W.BeforeScan)) && world.window == memory.windows[ip] && world.clock == now
    {
      ghost var before := memory.windows;
      memory.SlideWindow(ip, ev, now);
      SlidWindows(before, memory.windows, ip);
      evicted := before.Keys - memory.windows.Keys;
      ArriveIs(cfg, world, evicted, ip, ev, now);
      Step(W.Evict(evicted, ev.recv));
      Step(W.Arrive(ip, ev, now));
    }

    /** The findings of one detector are persisted in order, until one fails: then the rest of them are dropped. */
    method Persist(found: seq<Finding>, written: nat)
      modifies this`persisted
      ensures persisted == old(persisted) + (if written < |found| then found[..written] else found)
    {
      var i := 0;
      while i < |found| && i < written
        invariant i <= |found| && i <= written && persisted == old(persisted) + found[..i]
      {
        persisted := persisted + [found[i]];
        i := i + 1;
        assert found[..i] == found[..i - 1] + [found[i - 1]];
      }
      assert found[..|found|] == found;
    }

    /** `win` is the list the detectors are given; `written` findings are persisted before one fails, if any does. */
    method RunScan(ip: string, ev: Event, win: seq<Event>, now: real, written: nat)
      requires Settled() && world.job == Some(W.Job(ip, ev, W.BeforeScan)) && world.window == win && world.clock <= now
      modifies this`reported, this`persisted, this`world, this`trace, scan
      ensures Settled() && trace == old(trace) + [W.Detect(now)]
      ensures world.job == Some(W.Job(ip, ev, W.BeforeAttack)) && world.window == win && world.clock == now
    {
      var found := scan.OnEvent(ip, win, now);
      reported := reported + W.Stamped(now, found);
      Persist(found, written);
      Step(W.Detect(now));
    }

    method RunAttack(ip: string, ev: Event, win: seq<Event>, now: real, written: nat)
      requires Settled() && world.job == Some(W.Job(ip, ev, W.BeforeAttack)) && world.window == win
          && world.clock <= now
      modifies this`reported, this`persisted, this`world, this`trace, attack
      ensures Settled() && trace == old(trace) + [W.Detect(now)] && world.job.None? && world.clock == now
    {
      var found := attack.OnEvent(ip, ev, win, now);
      reported := reported + W.Stamped(now, found);
      Persist(found, written);
      Step(W.Detect(now));
    }

    /** `gc_state`, which may run whenever the event's handling awaits. */
    method CollectGarbage(now: real)
      requires Settled() && world.clock <= now
      modifies this`world, this`trace, memory, scan, attack
      ensures Settled() && trace == old(trace) + [W.Collect(now)]
      ensures world.job == old(world).job && world.window == old(world).window && world.clock == now
    {
      memory.Collect(now);
      scan.Prune(now);
      attack.Prune(now);
      Step(W.Collect(now));
    }

    /** The profile takes in the event too. */
    method Track(ip: string, ev: Event, now: real)
      requires Settled()
      modifies memory`profiles, memory`dirty
      ensures Settled() && ip in memory.profiles && ip in memory.dirty
      ensures memory.profiles[ip] == P.Update(memory.signs, if ip in old(memory.profiles) then old(memory.profiles)[ip]
                                                            else P.EMPTY, ev, now)
    {
      memory.TrackProfile(ip, ev, now);
    }

    /** The detectors one after the other on the same window, with garbage collected at will in between. */
    method Detect(ip: string, ev: Event, win: seq<Event>, scanned: real, scanOk: nat, collect: bool, attacked: real,
                  attackOk: nat)
      requires Settled() && world.job == Some(W.Job(ip, ev, W.BeforeScan)) && world.window == win
      requires world.clock <= scanned <= attacked
      modifies this`reported, this`persisted, this`world, this`trace, memory, scan, attack
      ensures Settled() && world.job.None?
      ensures trace == old(trace) + [W.Detect(scanned)] + (if collect then [W.Collect(attacked)] else [])
                       + [W.Detect(attacked)]
    {
      RunScan(ip, ev, win, scanned, scanOk);
      if collect { CollectGarbage(attacked); }
      RunAttack(ip, ev, win, attacked, attackOk);
    }

    /** `handle_event`, with garbage collected at will between the detectors. */
    method HandleEvent(ip: string, ev: Event, arrived: real, scanned: real, scanOk: nat, collect: bool, attacked: real,
                       attackOk: nat)
      returns (ghost evicted: set<string>)
      requires Settled() && world.job.None? && world.clock <= ev.recv <= arrived <= scanned <= attacked
      modifies this`reported, this`persisted, this`world, this`trace, memory, scan, attack
      ensures Settled() && world.job.None? && ip in memory.profiles && ip in memory.dirty
      ensures ip in old(memory.windows) || |old(memory.windows)| < memory.maxIps ==> evicted == {}
      ensures trace == old(trace) + [W.Evict(evicted, ev.recv)] + [W.Arrive(ip, ev, arrived)] + [W.Detect(scanned)]
                       + (if collect then [W.Collect(attacked)] else []) + [W.Detect(attacked)]
    {
      evicted := Arrive(ip, ev, arrived);
      Detect(ip, ev, memory.windows[ip], scanned, scanOk, collect, attacked, attackOk);
      Track(ip, ev, attacked);
    }

    /** After any number of events handled and collections made: as long as every address keeps within `maxEvents` per
        KEEP seconds, no detector looks further back and no window in use is evicted, everything the detectors reported
        is what they report in an engine that keeps every event and never forgets what it reported. */
    lemma ReportedAsIfNothingWereForgotten()
      requires Settled() && cfg.scan.span <= W.KEEP && cfg.attack.span <= W.KEEP && W.HarmlessRun(cfg, trace)
      requires forall x :: W.Paced(W.Of(W.RunUnbounded(cfg, trace).history, x), cfg.maxEvents)
      ensures reported == W.RunUnbounded(cfg, trace).findings
    {
      W.SameFindings(cfg, trace);
    }
  }
}
