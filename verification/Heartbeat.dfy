/** Liveness (pipeline/heartbeat.py): loops record rate-limited beats in files, and a watchdog polls their age. Time is
    in seconds and monotone. */
module Heartbeat {
  import opened Prelude

  const MIN_BEAT_INTERVAL := 1.0

  /** `_last` (in memory) and the beat files' modification times. */
  datatype Beats = Beats(last: map<string, real>, files: map<string, real>)

  predicate RateLimited(b: Beats, name: string, now: real) {
    now - (if name in b.last then b.last[name] else 0.0) < MIN_BEAT_INTERVAL
  }

  /** One call of `beat`; `written` says whether the file write succeeds. */
  function Beat(b: Beats, name: string, now: real, written: bool): Beats {
    if RateLimited(b, name, now) then b
    else Beats(b.last[name := now], if written then b.files[name := now] else b.files)
  }

  predicate IsStale(b: Beats, name: string, now: real, threshold: real) {
    name !in b.files || now - b.files[name] > threshold
  }

  class Monitor {
    var last: map<string, real>
    var files: map<string, real>

    function View(): Beats reads this { Beats(last, files) }

    constructor ()
      ensures View() == Beats(map[], map[])
    {
      last, files := map[], map[];
    }

    method BeatNow(name: string, now: real, written: bool)
      modifies this
      ensures View() == Beat(old(View()), name, now, written)
      ensures var quiet := now - (if name in old(last) then old(last)[name] else 0.0) < MIN_BEAT_INTERVAL;
              && last == (if quiet then old(last) else old(last)[name := now])
              && files == if quiet || !written then old(files) else old(files)[name := now]
    {
      if now - (if name in last then last[name] else 0.0) < MIN_BEAT_INTERVAL { return; }
      last := last[name := now];
      if written { files := files[name := now]; }
    }

    /** `start` with working writes: every named loop reads as having just beaten, and no other is touched. */
    method Start(names: seq<string>, now: real)
      requires now >= MIN_BEAT_INTERVAL
      modifies this
      ensures forall n :: n in names ==> n in last && n in files && last[n] == files[n] == now
      ensures forall n :: n !in names ==> (n in last <==> n in old(last)) && (n in last ==> last[n] == old(last)[n])
      ensures forall n :: n !in names ==>
                (n in files <==> n in old(files)) && (n in files ==> files[n] == old(files)[n])
    {
      for i := 0 to |names|
        invariant forall n :: n in names[..i] ==> n in last && n in files && last[n] == files[n] == now
        invariant forall n :: n !in names[..i] ==>
                    (n in last <==> n in old(last)) && (n in last ==> last[n] == old(last)[n])
        invariant forall n :: n !in names[..i] ==>
                    (n in files <==> n in old(files)) && (n in files ==> files[n] == old(files)[n])
      {
        last := last - {names[i]};
        BeatNow(names[i], now, true);
        assert names[..i + 1] == names[..i] + [names[i]];
      }
      assert names[..|names|] == names;
    }

    /** `stale`: the first loop past its threshold, if any loop is. */
    method FirstStale(specs: seq<(string, real)>, now: real) returns (bad: Option<nat>)
      ensures bad.None? <==> forall i :: 0 <= i < |specs| ==> !IsStale(View(), specs[i].0, now, specs[i].1)
      ensures bad.Some? ==> bad.value < |specs| && IsStale(View(), specs[bad.value].0, now, specs[bad.value].1)
      ensures bad.Some? ==> forall i :: 0 <= i < bad.value ==> !IsStale(View(), specs[i].0, now, specs[i].1)
      ensures forall i :: 0 <= i < |specs| && specs[i].0 !in files ==> bad.Some? && bad.value <= i
    {
      for i := 0 to |specs|
        invariant forall j :: 0 <= j < i ==> !IsStale(View(), specs[j].0, now, specs[j].1)
      {
        var (name, threshold) := specs[i];
        if name !in files || now - files[name] > threshold { return Some(i); }
      }
      return None;
    }
  }

  // ───────────────────────── one loop against the watchdog ─────────────────────────

  /** The calls of `beat` one loop makes after `start` has seeded it at `seeded`, all file writes succeeding. */
  function After(name: string, seeded: real, calls: seq<real>): Beats {
    if calls == [] then Beats(map[name := seeded], map[name := seeded])
    else Beat(After(name, seeded, calls[..|calls| - 1]), name, calls[|calls| - 1], true)
  }

  ghost predicate Monotone(seeded: real, calls: seq<real>) {
    && (forall i :: 0 <= i < |calls| ==> calls[i] >= seeded)
    && (forall i, j :: 0 <= i < j < |calls| ==> calls[i] <= calls[j])
  }

  function LastCall(seeded: real, calls: seq<real>): real { if calls == [] then seeded else calls[|calls| - 1] }

  /** The file is never younger than the last call and never a full second older. */
  lemma {:induction false} FileFollowsCalls(name: string, seeded: real, calls: seq<real>)
    requires Monotone(seeded, calls)
    ensures var b := After(name, seeded, calls);
            && name in b.files && name in b.last && b.files[name] == b.last[name]
            && b.files[name] <= LastCall(seeded, calls) < b.files[name] + MIN_BEAT_INTERVAL
  {
    if calls != [] { FileFollowsCalls(name, seeded, calls[..|calls| - 1]); }
  }

  /** A loop whose last call is at most D old is not declared stale, provided D + 1 does not exceed its threshold. */
  lemma PunctualLoopIsNeverStale(name: string, seeded: real, calls: seq<real>, now: real, d: real, threshold: real)
    requires Monotone(seeded, calls) && LastCall(seeded, calls) <= now <= LastCall(seeded, calls) + d
    requires d + MIN_BEAT_INTERVAL <= threshold
    ensures !IsStale(After(name, seeded, calls), name, now, threshold)
  {
    FileFollowsCalls(name, seeded, calls);
  }

  /** The watchdog's checks: `asyncio.sleep(poll)` returns no earlier than asked and at most `slack` later; the first
      check is at most that long after `from`. */
  ghost predicate Polls(checks: seq<real>, from: real, poll: real, slack: real) {
    && (forall i :: 0 < i < |checks| ==> checks[i - 1] + poll <= checks[i])
    && (forall i :: 0 <= i < |checks| ==> (if i == 0 then from else checks[i - 1]) <= checks[i])
    && (forall i :: 0 <= i < |checks| ==> checks[i] <= (if i == 0 then from else checks[i - 1]) + poll + slack)
  }

  /** A loop that stops beating is declared stale by a check no later than its threshold plus one poll period, with the
      slack of one sleep, after its last call, whenever the watchdog keeps polling that long. */
  lemma SilentLoopIsCaught(name: string, seeded: real, calls: seq<real>, checks: seq<real>, poll: real, slack: real,
                           threshold: real)
    requires Monotone(seeded, calls) && poll >= 0.0 && slack >= 0.0 && threshold >= 0.0
    requires Polls(checks, LastCall(seeded, calls), poll, slack)
    requires checks != [] && checks[|checks| - 1] > LastCall(seeded, calls) + threshold
    ensures exists i :: 0 <= i < |checks| && checks[i] <= LastCall(seeded, calls) + threshold + poll + slack
                     && IsStale(After(name, seeded, calls), name, checks[i], threshold)
  {
    FileFollowsCalls(name, seeded, calls);
    var limit := LastCall(seeded, calls) + threshold;
    var i := 0;
    while checks[i] <= limit
      invariant 0 <= i < |checks|
      invariant forall j :: 0 <= j < i ==> checks[j] <= limit
      decreases |checks| - i
    {
      i := i + 1;
    }
    assert checks[i] <= (if i == 0 then LastCall(seeded, calls) else checks[i - 1]) + poll + slack;
    assert IsStale(After(name, seeded, calls), name, checks[i], threshold);
  }
}
