/** The analytics engine's per-address memory (analytics/engine.py, `handle_event`, `_evict_windows`, `_evict_profiles`,
    `gc_state`): hard caps, kept by evicting the least recently seen addresses. Time is in seconds. */
module Engine {
  import opened Prelude
  import opened Detectors
  import W = Windows
  import P = Profiles

  function Last(window: seq<Event>): Event requires window != [] { window[|window| - 1] }

  function LastSeen(window: seq<Event>): real { if window == [] then 0.0 else window[|window| - 1].recv }

  function LastOf(p: P.Profile): real { p.last }

  /** The key with the least age. */
  method Coldest<V>(m: map<string, V>, age: V -> real) returns (coldest: string)
    requires |m| > 0
    ensures coldest in m && forall k :: k in m ==> age(m[coldest]) <= age(m[k])
  {
    coldest :| coldest in m;
    var rest := m.Keys - {coldest};
    while rest != {}
      invariant coldest in m && rest <= m.Keys
      invariant forall k :: k in m && k !in rest ==> age(m[coldest]) <= age(m[k])
      decreases |rest|
    {
      var k :| k in rest;
      if age(m[k]) < age(m[coldest]) { coldest := k; }
      rest := rest - {k};
    }
  }

  /** Deletes the first n entries in age order: whatever goes was seen no later than whatever stays. */
  method EvictColdest<V>(m: map<string, V>, age: V -> real, n: nat) returns (kept: map<string, V>)
    ensures kept.Keys <= m.Keys && forall k :: k in kept ==> kept[k] == m[k]
    ensures forall e, k :: e in m && e !in kept && k in kept ==> age(m[e]) <= age(m[k])
    ensures |kept| == if |m| > n then |m| - n else 0
  {
    kept := m;
    var i := 0;
    while i < n && |kept| > 0
      invariant i <= n && |kept| + i == |m| && kept.Keys <= m.Keys
      invariant forall k :: k in kept ==> kept[k] == m[k]
      invariant forall e, k :: e in m && e !in kept && k in kept ==> age(m[e]) <= age(m[k])
    {
      var coldest := Coldest(kept, age);
      ghost var before := kept;
      kept := kept - {coldest};
      assert kept.Keys == before.Keys - {coldest};
      i := i + 1;
    }
  }

  lemma Admitted<V>(m: map<string, V>, ip: string, v: V, cap: nat)
    requires |m| <= cap && (ip in m || |m| < cap)
    ensures |m[ip := v]| <= cap && m[ip := v].Keys == m.Keys + {ip}
  {
    var m' := m[ip := v];
    assert m'.Keys == m.Keys + {ip};
    if ip in m { assert m'.Keys == m.Keys; }
    assert |m'| == |m'.Keys|;
  }

  /** Sets the entry of one address under a cap: a known address just changes; a new one always gets in, at the cost of
      the coldest tenth when the cap is reached. */
  method Put<V>(m: map<string, V>, ip: string, v: V, cap: nat, age: V -> real) returns (m': map<string, V>)
    requires cap >= 1 && |m| <= cap
    ensures |m'| <= cap && ip in m' && m'[ip] == v && m'.Keys <= m.Keys + {ip}
    ensures forall k :: k in m' && k != ip ==> m'[k] == m[k]
    ensures forall e, k :: e in m && e !in m' && k in m' && k != ip ==> age(m[e]) <= age(m'[k])
    ensures ip in m || |m| < cap ==> m'.Keys == m.Keys + {ip}
    ensures ip !in m && |m| == cap ==> |m'| == cap - Max(1, cap / 10) + 1
  {
    m' := m;
    if ip !in m && |m| >= cap { m' := EvictColdest(m, age, Max(1, cap / 10)); }
    Admitted(m', ip, v, cap);
    m' := m'[ip := v];
  }

  /** The deque of one address takes in an event: the oldest goes if it is full, then all that are too old. */
  method Slid(window: seq<Event>, ev: Event, now: real, maxEvents: nat) returns (win: seq<Event>)
    requires |window| <= maxEvents
    ensures win == W.Slide(window, ev, now, maxEvents) && |win| <= maxEvents
    ensures win == [] || win[0].recv >= now - W.KEEP
  {
    win := window + [ev];
    if |win| > maxEvents { win := win[1..]; }
    ghost var pushed := win;
    while win != [] && win[0].recv < now - W.KEEP
      invariant W.Trim(win, now - W.KEEP) == W.Trim(pushed, now - W.KEEP)
      invariant |win| <= maxEvents
      decreases |win|
    {
      win := win[1..];
    }
  }

  class Memory {
    const maxEvents: nat
    const maxIps: nat
    const maxProfiles: nat
    const signs: P.Signs
    var windows: map<string, seq<Event>>
    var profiles: map<string, P.Profile>
    var dirty: set<string>

    ghost predicate Valid() reads this {
      && maxIps >= 1 && maxProfiles >= 1
      && |windows| <= maxIps && |profiles| <= maxProfiles
      && forall ip :: ip in windows ==> |windows[ip]| <= maxEvents
    }

    constructor (maxEvents: nat, maxIps: nat, maxProfiles: nat, signs: P.Signs)
      requires maxIps >= 1 && maxProfiles >= 1
      ensures Valid() && windows == map[] && profiles == map[] && dirty == {}
      ensures this.maxEvents == maxEvents && this.maxIps == maxIps && this.maxProfiles == maxProfiles
          && this.signs == signs
    {
      this.maxEvents, this.maxIps, this.maxProfiles, this.signs := maxEvents, maxIps, maxProfiles, signs;
      windows, profiles, dirty := map[], map[], {};
    }

    /** The event's address always gets in; others lose their window only when a new address arrives at the cap, and
        then none of them was seen later than any that stays. */
    method SlideWindow(ip: string, ev: Event, now: real)
      requires Valid()
      modifies this`windows
      ensures Valid()
      ensures ip in windows && windows[ip] == W.Slide(W.Of(old(windows), ip), ev, now, maxEvents)
      ensures windows[ip] == [] || windows[ip][0].recv >= now - W.KEEP
      ensures forall k :: k in windows && k != ip ==> k in old(windows) && windows[k] == old(windows)[k]
      ensures forall e, k :: e in old(windows) && e !in windows && k in windows && k != ip && old(windows)[e] != [] ==>
                if windows[k] == [] then Last(old(windows)[e]).recv <= 0.0
                else Last(old(windows)[e]).recv <= Last(windows[k]).recv
      ensures ip in old(windows) || |old(windows)| < maxIps ==> windows.Keys == old(windows).Keys + {ip}
      ensures ip !in old(windows) && |old(windows)| == maxIps ==> |windows| == maxIps - Max(1, maxIps / 10) + 1
    {
      var win := Slid(if ip in windows then windows[ip] else [], ev, now, maxEvents);
      windows := Put(windows, ip, win, maxIps, LastSeen);
    }

    /** The profile takes in the event and is marked; an evicted profile loses its mark with it. */
    method TrackProfile(ip: string, ev: Event, now: real)
      requires Valid()
      modifies this`profiles, this`dirty
      ensures Valid()
      ensures ip in profiles
              && profiles[ip] == P.Update(signs, if ip in old(profiles) then old(profiles)[ip] else P.EMPTY, ev, now)
      ensures forall k :: k in profiles && k != ip ==> k in old(profiles) && profiles[k] == old(profiles)[k]
      ensures forall e, k :: e in old(profiles) && e !in profiles && k in profiles && k != ip ==>
                old(profiles)[e].last <= profiles[k].last
      ensures ip in old(profiles) || |old(profiles)| < maxProfiles ==> profiles.Keys == old(profiles).Keys + {ip}
      ensures ip !in old(profiles) && |old(profiles)| == maxProfiles ==>
                |profiles| == maxProfiles - Max(1, maxProfiles / 10) + 1
      ensures dirty == old(dirty) - (old(profiles).Keys - profiles.Keys) + {ip}
    {
      var p := P.Update(signs, if ip in profiles then profiles[ip] else P.EMPTY, ev, now);
      var kept := Put(profiles, ip, p, maxProfiles, LastOf);
      dirty := dirty - (profiles.Keys - kept.Keys) + {ip};
      profiles := kept;
    }

    /** `gc_state` for windows and profiles: exactly the stale ones go; dirty marks stay. */
    method Collect(now: real)
      requires Valid()
      modifies this`windows, this`profiles
      ensures Valid()
      ensures windows == map ip | ip in old(windows) && !W.StaleWindow(old(windows)[ip], now) :: old(windows)[ip]
      ensures windows == map ip | ip in old(windows) && old(windows)[ip] != []
                                  && Last(old(windows)[ip]).recv >= now - W.KEEP :: old(windows)[ip]
      ensures profiles == map ip | ip in old(profiles) && !(old(profiles)[ip].last < now - 86400.0) :: old(profiles)[ip]
    {
      windows := DropStale(windows, set ip | ip in windows && W.StaleWindow(windows[ip], now));
      profiles := DropStale(profiles, set ip | ip in profiles && profiles[ip].last < now - 86400.0);
    }
  }

  /** Deletes these entries. */
  method DropStale<V>(m: map<string, V>, stale: set<string>) returns (kept: map<string, V>)
    ensures kept == (map k | k in m && k !in stale :: m[k]) && |kept| <= |m|
  {
    kept := m - stale;
    P.SubsetSize(kept.Keys, m.Keys);
  }
}
