/** The engine's batched persistence as its own code (analytics/engine.py, `flush_profiles`, and the profile part of
    `handle_event`): every move is a step of the profile machine. Events keep arriving, and profiles may be evicted or
    collected, whenever a write is awaited. */
module Flusher {
  import opened Prelude
  import opened Detectors
  import P = Profiles

  /** How one `persist_profile` ends: it commits; or it raises, having committed or not. */
  datatype Outcome = Stored | Raised(transient: bool, committed: bool)

  function EndOf(end: Outcome): P.Action {
    if end.Stored? then P.Written else P.Failed(end.transient, end.committed)
  }

  /** What other tasks do while a write is awaited. */
  predicate Foreign(a: P.Action) { a.Observe? || a.Discard? }

  predicate AllForeign(acts: seq<P.Action>) { forall i :: 0 <= i < |acts| ==> Foreign(acts[i]) }

  /** The same write is awaited, whatever became of the profile. */
  predicate SameWrite(w: Option<P.Write>, w': Option<P.Write>) {
    if w.None? then w'.None? else w'.Some? && w'.value.ip == w.value.ip && w'.value.snap == w.value.snap
  }

  ghost predicate AllFit(s: P.State) { forall x :: P.Fits(s, x) }

  class Store {
    const signs: P.Signs
    var profiles: map<string, P.Profile>
    var dirty: set<string>                    // `_dirty`
    var rows: map<string, P.Snapshot>         // behavior_profiles
    ghost var world: P.State

    ghost predicate Mirrors() reads this { world.profiles == profiles && world.dirty == dirty && world.rows == rows }

    ghost predicate Valid() reads this { Mirrors() && AllFit(world) }

    constructor (signs: P.Signs, rows: map<string, P.Snapshot>)
      ensures Valid() && world == P.Initial(rows) && this.signs == signs
    {
      this.signs, this.rows, profiles, dirty := signs, rows, map[], {};
      world := P.Initial(rows);
      new;
      forall x ensures P.Fits(world, x) { P.RunFits(signs, rows, [], x); }
    }

    ghost method Step(a: P.Action)
      requires AllFit(world)
      modifies this`world
      ensures world == P.Next(signs, old(world), a) && AllFit(world)
    {
      forall x ensures P.Fits(P.Next(signs, world, a), x) { P.FitsStep(signs, world, a, x); }
      world := P.Next(signs, world, a);
    }

    /** An event is taken into its profile, or a profile goes. */
    method Interfere(a: P.Action)
      requires Valid() && Foreign(a)
      modifies this`profiles, this`dirty, this`world
      ensures Valid() && world == P.Next(signs, old(world), a)
      ensures world.work == old(world).work && SameWrite(old(world).writing, world.writing)
    {
      match a {
        case Observe(ip, ev, now) =>
          profiles := profiles[ip := P.Update(signs, if ip in profiles then profiles[ip] else P.EMPTY, ev, now)];
          dirty := dirty + {ip};
        case Discard(ip, evict) =>
          if ip in profiles {
            profiles := profiles - {ip};
            if evict { dirty := dirty - {ip}; }
          }
      }
      Step(a);
    }

    method Await(others: seq<P.Action>)
      requires Valid() && AllForeign(others)
      modifies this`profiles, this`dirty, this`world
      ensures Valid() && world.work == old(world).work && SameWrite(old(world).writing, world.writing)
    {
      for i := 0 to |others|
        invariant Valid() && world.work == old(world).work && SameWrite(old(world).writing, world.writing)
      {
        Interfere(others[i]);
      }
    }

    /** The awaited write ends: a transient failure puts the address back on the list. */
    method EndWrite(ip: string, snap: P.Snapshot, end: Outcome)
      requires Valid() && world.writing.Some? && world.writing.value.ip == ip && world.writing.value.snap == snap
      modifies this`dirty, this`rows, this`world
      ensures Valid() && world == P.Next(signs, old(world), EndOf(end))
      ensures world.writing.None? && world.work == old(world).work
    {
      if end.Stored? || end.committed { rows := P.AddTo(rows, ip, snap); }
      if end.Raised? && end.transient { dirty := dirty + {ip}; }
      Step(EndOf(end));
    }

    /** One address off the list: snapshot the profile, if it is still there, and write it. */
    method FlushOne(ip: string, others: seq<P.Action>, end: Outcome)
      requires Valid() && AllForeign(others) && ip in world.work && world.writing.None?
      modifies this
      ensures Valid() && world.work == old(world).work - {ip} && world.writing.None?
    {
      if ip !in profiles {
        Step(P.Take(ip));
        return;
      }
      var snap := P.SnapshotOf(profiles[ip]);
      Step(P.Take(ip));
      Await(others);
      EndWrite(ip, snap, end);
    }

    /** `flush_profiles`. If nothing is left marked when it ends, each profile in memory is dominated by its row, unless
        a write of it was permanently rejected before committing, or a flush aborted, since its last event. */
    method FlushProfiles(others: string -> seq<P.Action>, ends: string -> Outcome)
      requires Valid() && world.work == {} && world.writing.None? && forall ip :: AllForeign(others(ip))
      modifies this
      ensures Valid() && world.work == {} && world.writing.None?
      ensures dirty == {} ==> forall ip :: ip in profiles && ip !in world.missed ==>
                ip in rows && P.Leq(P.SnapshotOf(profiles[ip]), rows[ip])
    {
      var batch := dirty;
      dirty := {};
      Step(P.Begin);
      while batch != {}
        invariant Valid() && world.work == batch && world.writing.None?
        decreases |batch|
      {
        var ip :| ip in batch;
        FlushOne(ip, others(ip), ends(ip));
        batch := batch - {ip};
      }
      if dirty == {} {
        forall ip | ip in profiles && ip !in world.missed
          ensures ip in rows && P.Leq(P.SnapshotOf(profiles[ip]), rows[ip])
        {
          P.QuietRow(world, ip);
        }
      }
    }
  }
}
