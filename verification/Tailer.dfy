/** One tail's own code (pipeline/ingestor.py, `_tail_once`, `_resume_position`, `_save_checkpoint`), loops and branches
    as they stand, carried out step for step by the tail machine. Whatever other processes do to the files happens while
    the tail awaits. */
module Tailer {
  import opened Prelude
  import opened Records
  import T = Tails

  /** What other processes do to the log volume. */
  predicate Foreign(a: T.Action) { a.Append? || a.Unlink? || a.Create? }

  predicate AllForeign(acts: seq<T.Action>) { forall i :: 0 <= i < |acts| ==> Foreign(acts[i]) }

  /** The open handle, the read offset and the line in hand make sense. */
  predicate Placed(t: T.Tail) {
    && (t.present ==> t.files != [])
    && (T.IsOpen(t.phase) ==> t.inode < |t.files| && t.offset <= |t.files[t.inode]|)
    && (T.InHand(t.phase) ==> t.offset > 0)
  }

  lemma {:induction false} RunStaysInOrder(t: T.Tail, acts: seq<T.Action>, every: nat)
    requires T.Covered(t) && T.InOrder(t)
    ensures T.Covered(T.Run(t, acts, every)) && T.InOrder(T.Run(t, acts, every))
  {
    if acts != [] {
      RunStaysInOrder(t, acts[..|acts| - 1], every);
      T.CoveredStep(T.Run(t, acts[..|acts| - 1], every), acts[|acts| - 1], every);
      T.InOrderStep(T.Run(t, acts[..|acts| - 1], every), acts[|acts| - 1], every);
    }
  }

  lemma RunStaysPlaced(t: T.Tail, acts: seq<T.Action>, every: nat)
    requires T.Covered(t) && T.InOrder(t)
    ensures Placed(T.Run(t, acts, every))
  {
    RunStaysInOrder(t, acts, every);
  }

  /** Opening the path, spelled out. */
  lemma OpenIs(t: T.Tail, saved: bool, every: nat)
    requires t.phase.Down? && t.present && t.files != []
    ensures var t' := T.Next(t, T.Open(saved), every);
            var g := |t.files| - 1;
            && t'.phase.Reading? && t'.files == t.files && t'.present && t'.life == [] && t'.inode == g
              && t'.unsaved == 0
            && t'.offset == T.ResumePosition(t.disk, g, |t.files[g]|)
            && t'.disk == if saved then Some(T.Checkpoint(g, t'.offset)) else t.disk
  {
  }

  /** Entering the newest file at its start, spelled out. */
  lemma ReopenIs(t: T.Tail, saved: bool, every: nat)
    requires t.phase.Closed? && t.present && t.files != []
    ensures var t' := T.Next(t, T.Reopen(saved), every);
            && t'.phase.Reading? && t'.files == t.files && t'.present && t'.life == t.life
            && t'.inode == |t.files| - 1 && t'.offset == 0 && t'.unsaved == 0
            && t'.disk == if saved then Some(T.Checkpoint(|t.files| - 1, 0)) else t.disk
  {
  }

  /** Enqueueing the line in hand, spelled out. */
  lemma PutIs(t: T.Tail, every: nat)
    requires T.InHand(t.phase) && t.offset > 0
    ensures var t' := T.Next(t, T.Put, every);
            && t'.phase == (if t.phase.Holding? then T.Placed else T.Draining)
            && t'.files == t.files && t'.present == t.present && t'.disk == t.disk && t'.inode == t.inode
            && t'.offset == t.offset && t'.unsaved == t.unsaved && t'.life == t.life + [T.Place(t.inode, t.offset - 1)]
  {
  }

  class Tail {
    const every: nat
    var files: seq<seq<Line>>               // the log volume
    var present: bool
    var disk: Option<T.Checkpoint>          // the state volume
    var inode: nat                          // the open handle
    var offset: nat
    var unsaved: nat
    var out: seq<T.Place>                   // what this call has put on the queue
    ghost const origin: T.Tail
    ghost var trace: seq<T.Action>
    ghost var world: T.Tail

    ghost predicate Valid() reads this {
      && T.Covered(origin) && T.InOrder(origin) && world == T.Run(origin, trace, every)
      && Mirrors(world)
    }

    ghost predicate Mirrors(t: T.Tail) reads this {
      && t.files == files && t.present == present && t.disk == disk
      && (!t.phase.Down? ==> t.inode == inode && t.offset == offset && t.unsaved == unsaved && t.life == out)
    }

    constructor (every: nat, ghost start: T.Tail, files: seq<seq<Line>>, present: bool, disk: Option<T.Checkpoint>)
      requires T.Covered(start) && T.InOrder(start) && start.phase.Down?
      requires start.files == files && start.present == present && start.disk == disk
      ensures Valid() && origin == world == start && trace == [] && this.every == every
    {
      this.every, this.files, this.present, this.disk := every, files, present, disk;
      inode, offset, unsaved, out := 0, 0, 0, [];
      origin, world, trace := start, start, [];
    }

    ghost method Step(a: T.Action)
      requires world == T.Run(origin, trace, every)
      modifies this`world, this`trace
      ensures world == T.Next(old(world), a, every) && world == T.Run(origin, trace, every)
      ensures trace == old(trace) + [a]
    {
      assert (trace + [a])[..|trace|] == trace;
      world := T.Next(world, a, every);
      trace := trace + [a];
    }

    /** One thing another process does. */
    method Interfere(a: T.Action)
      requires Valid() && Foreign(a)
      modifies this`files, this`present, this`world, this`trace
      ensures Valid() && trace == old(trace) + [a] && world.phase == old(world).phase
    {
      match a {
        case Append(f, l) => if f < |files| { files := files[f := files[f] + [l]]; }
        case Unlink => present := false;
        case Create => if !present { files, present := files + [[]], true; }
      }
      Step(a);
    }

    /** The tail awaits; other processes append, rotate and create files. */
    method Await(others: seq<T.Action>)
      requires Valid() && AllForeign(others)
      modifies this`files, this`present, this`world, this`trace
      ensures Valid() && trace == old(trace) + others && world.phase == old(world).phase
    {
      for i := 0 to |others|
        invariant Valid() && trace == old(trace) + others[..i] && world.phase == old(world).phase
      {
        Interfere(others[i]);
        assert others[..i + 1] == others[..i] + [others[i]];
      }
      assert others[..|others|] == others;
    }

    /** Opening the path and seeking, then saving that position at once. */
    method OpenAndResume(saved: bool)
      requires Valid() && world.phase.Down? && present && files != []
      modifies this
      ensures Valid() && trace == old(trace) + [T.Open(saved)]
      ensures world.phase.Reading? && out == [] && files == old(files) && present
    {
      OpenIs(world, saved, every);
      inode := |files| - 1;
      offset := T.ResumePosition(disk, inode, |files[inode]|);
      unsaved, out := 0, [];
      if saved { disk := Some(T.Checkpoint(inode, offset)); }
      Step(T.Open(saved));
    }

    /** readline: the next line, or None at the end of what has been written. */
    method ReadLine() returns (line: Option<Line>)
      requires Valid() && (world.phase.Reading? || world.phase.Draining?)
      modifies this`offset, this`world, this`trace
      ensures Valid()
      ensures inode < |files| && old(offset) <= |files[inode]|
      ensures line == if old(offset) == |files[inode]| then None else Some(files[inode][old(offset)])
      ensures trace == if line.None? then old(trace) else old(trace) + [T.Read]
      ensures line.None? ==> world == old(world) && offset == old(offset)
      ensures line.Some? && line.value.Parsed? ==>
                world.phase == if old(world).phase.Reading? then T.Holding else T.DrainHolding
      ensures line.Some? && line.value.Junk? ==>
                world.phase == if old(world).phase.Reading? then T.Placed else T.Draining
    {
      RunStaysPlaced(origin, trace, every);
      if offset >= |files[inode]| { return None; }
      line := Some(files[inode][offset]);
      offset := offset + 1;
      Step(T.Read);
    }

    /** The blocked put completes. */
    method CompletePut()
      requires Valid() && T.InHand(world.phase)
      modifies this`out, this`world, this`trace
      ensures Valid() && trace == old(trace) + [T.Put]
      ensures world.phase == if old(world).phase.Holding? then T.Placed else T.Draining
    {
      RunStaysPlaced(origin, trace, every);
      PutIs(world, every);
      out := out + [T.Place(inode, offset - 1)];
      Step(T.Put);
    }

    /** Counting a line, with a checkpoint every `every` of them. */
    method CountLine(saved: bool)
      requires Valid() && world.phase.Placed?
      modifies this`unsaved, this`disk, this`world, this`trace
      ensures Valid() && trace == old(trace) + [T.Account(saved)] && world.phase.Reading?
    {
      unsaved := unsaved + 1;
      if unsaved >= every {
        if saved { disk := Some(T.Checkpoint(inode, offset)); }
        unsaved := 0;
      }
      Step(T.Account(saved));
    }

    /** The end of the file: save if anything is unsaved, and sleep. */
    method CatchUp(saved: bool)
      requires Valid() && world.phase.Reading? && inode < |files| && offset == |files[inode]|
      modifies this`unsaved, this`disk, this`world, this`trace
      ensures Valid() && trace == old(trace) + [T.CaughtUp(saved)] && world.phase.Idle?
    {
      if unsaved > 0 {
        if saved { disk := Some(T.Checkpoint(inode, offset)); }
        unsaved := 0;
      }
      Step(T.CaughtUp(saved));
    }

    /** After the sleep: has the path come to name another file? */
    method CheckRotation() returns (rotated: bool)
      requires Valid() && world.phase.Idle?
      modifies this`world, this`trace
      ensures Valid() && trace == old(trace) + [T.Poll]
      ensures rotated == (present && |files| != inode + 1)
      ensures if rotated then world.phase.Draining? else world.phase.Reading?
    {
      rotated := present && |files| != inode + 1;
      Step(T.Poll);
    }

    /** The drain's empty read: the rotated file is closed. */
    method EndDrain()
      requires Valid() && world.phase.Draining? && inode < |files| && offset == |files[inode]|
      modifies this`world, this`trace
      ensures Valid() && trace == old(trace) + [T.DrainEnd] && world.phase.Closed?
    {
      Step(T.DrainEnd);
    }

    /** Reads the rotated file until a read comes back empty, for `rounds` rounds at most. */
    method Drain(rounds: nat, others: nat -> seq<T.Action>) returns (drained: bool)
      requires Valid() && world.phase.Draining? && forall n :: AllForeign(others(n))
      modifies this`files, this`present, this`offset, this`out, this`world, this`trace
      ensures Valid() && old(trace) <= trace && (if drained then world.phase.Closed? else world.phase.Draining?)
      ensures drained ==> inode < |files| && offset == |files[inode]|
    {
      for n := 0 to rounds
        invariant Valid() && old(trace) <= trace && world.phase.Draining?
      {
        var line := ReadLine();
        if line.None? {
          EndDrain();
          return true;
        }
        if line.value.Parsed? {
          Await(others(n));
          CompletePut();
        }
      }
      return false;
    }

    /** The new file is entered at its start, and that position saved at once. */
    method OpenNext(saved: bool)
      requires Valid() && world.phase.Closed? && present
      modifies this`inode, this`offset, this`unsaved, this`disk, this`world, this`trace
      ensures Valid() && trace == old(trace) + [T.Reopen(saved)] && world.phase.Reading? && offset == 0
    {
      RunStaysPlaced(origin, trace, every);
      ReopenIs(world, saved, every);
      inode, offset, unsaved := |files| - 1, 0, 0;
      if saved { disk := Some(T.Checkpoint(inode, 0)); }
      Step(T.Reopen(saved));
    }

    /** The path names another file: read the old one out, close it, wait for the new one and open it. The waits end,
        if `running`, when the path exists again; at most `rounds` lines and polls are awaited. */
    method FollowRotation(rounds: nat, others: nat -> seq<T.Action>, saved: bool) returns (running: bool)
      requires Valid() && world.phase.Draining? && forall k :: AllForeign(others(k))
      modifies this
      ensures Valid() && old(trace) <= trace && !world.phase.Down?
      ensures if running then world.phase.Reading? && offset == 0
              else world.phase.Draining? || (world.phase.Closed? && !present)
    {
      var drained := Drain(rounds, others);
      if !drained { return false; }
      for n := 0 to rounds
        invariant Valid() && old(trace) <= trace && world.phase.Closed?
      {
        if present { break; }
        Await(others(n));
      }
      if !present { return false; }
      OpenNext(saved);
      return true;
    }

    /** A line was read: put it on the queue if it parses, and count it. */
    method TakeLine(line: Line, others: seq<T.Action>, saved: bool)
      requires Valid() && AllForeign(others) && world.phase == if line.Parsed? then T.Holding else T.Placed
      modifies this
      ensures Valid() && old(trace) <= trace && world.phase.Reading?
    {
      if line.Parsed? {
        Await(others);
        CompletePut();
      }
      CountLine(saved);
    }

    /** One round of the endless loop; false when it is still in the middle of a rotation. */
    method Round(n: nat, rounds: nat, others: nat -> seq<T.Action>, saved: bool) returns (running: bool)
      requires Valid() && world.phase.Reading? && forall k :: AllForeign(others(k))
      modifies this
      ensures Valid() && old(trace) <= trace && !world.phase.Down? && (running ==> world.phase.Reading?)
    {
      var line := ReadLine();
      if line.Some? {
        TakeLine(line.value, others(n), saved);
        return true;
      }
      CatchUp(saved);
      Await(others(n));
      var rotated := CheckRotation();
      if !rotated { return true; }
      running := FollowRotation(rounds, others, saved);
    }

    /** `rounds` rounds of the endless loop, starting with the open. Every move is a step of the machine, and what is
        enqueued is, file after file and in file order, exactly the parseable lines read. */
    method TailOnce(rounds: nat, others: nat -> seq<T.Action>, saves: nat -> bool)
      requires Valid() && world.phase.Down? && present && files != [] && forall n :: AllForeign(others(n))
      modifies this
      ensures Valid() && old(trace) + [T.Open(saves(0))] <= trace && !world.phase.Down?
      ensures T.IsOpen(world.phase) ==> T.OpenOrder(files, world.segments, out, inode, world.start, T.Done(world))
    {
      OpenAndResume(saves(0));
      for n := 0 to rounds
        invariant Valid() && old(trace) + [T.Open(saves(0))] <= trace && world.phase.Reading?
      {
        var running := Round(n, rounds, others, saves(n + 1));
        if !running { break; }
      }
      RunStaysInOrder(origin, trace, every);
    }
  }
}
