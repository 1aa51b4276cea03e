/** Runs in which the code falls short of what its comments or documentation promise, one per promise. */
module Shortfalls {
  import opened Prelude
  import opened Records
  import T = Tails
  import R = Restarts
  import I = Ingest
  import D = Delivery
  import F = Feeds
  import P = Profiles
  import Detectors

  // ───────────────────────── ingest ─────────────────────────

  lemma IngestSnoc(cfg: I.Config, s: I.State, acts: seq<I.Action>, a: I.Action)
    ensures I.Run(cfg, s, acts + [a]) == I.Next(cfg, I.Run(cfg, s, acts), a)
  {
    assert (acts + [a])[..|acts|] == acts;
  }

  /** The only tail of a process moves, in a way that neither queues nor gives up anything. */
  lemma TailMoves(cfg: I.Config, s: I.State, a: T.Action)
    requires |s.tails| == 1 && !s.stopping && !a.Put? && !a.Fail? && !a.Unlink?
    ensures I.Next(cfg, s, I.Tail(0, a)) == s.(tails := [T.Next(s.tails[0], a, cfg.every)])
  {
  }

  /** A first line has been read and is in hand. */
  function FirstLine(every: nat, r: Record): T.Tail {
    T.Next(T.Next(T.Next(T.Next(T.INITIAL, T.Create, every), T.Open(true), every), T.Append(0, Parsed(r)), every),
           T.Read, every)
  }

  lemma FirstLineIs(every: nat, r: Record)
    ensures var t := FirstLine(every, r);
            && t.phase == T.Holding && t.files == [[Parsed(r)]] && t.present && t.disk == Some(T.Checkpoint(0, 0))
            && t.inode == 0 && t.offset == 1 && t.unsaved == 0 && t.log == {} && t.spans == map[0 := T.Span(0, 0)]
  {
    var t1 := T.Next(T.INITIAL, T.Create, every);
    assert t1.files == [[]];
    var t2 := T.Next(t1, T.Open(true), every);
    assert t2.files == [[]] && t2.spans == map[0 := T.Span(0, 0)];
    assert t2.files[0] + [Parsed(r)] == [Parsed(r)];
    var t3 := T.Next(t2, T.Append(0, Parsed(r)), every);
    assert t3.files == [[Parsed(r)]];
  }

  /** One tail, one consumer: the first line ever written is in the tail's hand. */
  lemma ReadsFirstLine(cfg: I.Config, r: Record) returns (acts: seq<I.Action>)
    ensures I.Run(cfg, I.Initial(1, 1), acts) == I.Initial(1, 1).(tails := [FirstLine(cfg.every, r)])
  {
    var s0 := I.Initial(1, 1);
    assert s0.tails == [T.INITIAL];
    acts := [] + [I.Tail(0, T.Create)];
    IngestSnoc(cfg, s0, [], I.Tail(0, T.Create));
    TailMoves(cfg, s0, T.Create);
    IngestSnoc(cfg, s0, acts, I.Tail(0, T.Open(true)));
    TailMoves(cfg, I.Run(cfg, s0, acts), T.Open(true));
    acts := acts + [I.Tail(0, T.Open(true))];
    IngestSnoc(cfg, s0, acts, I.Tail(0, T.Append(0, Parsed(r))));
    TailMoves(cfg, I.Run(cfg, s0, acts), T.Append(0, Parsed(r)));
    acts := acts + [I.Tail(0, T.Append(0, Parsed(r)))];
    IngestSnoc(cfg, s0, acts, I.Tail(0, T.Read));
    TailMoves(cfg, I.Run(cfg, s0, acts), T.Read);
    acts := acts + [I.Tail(0, T.Read)];
  }

  lemma PutMoves(cfg: I.Config, s: I.State, r: Record)
    requires |s.tails| == 1 && !s.stopping && s.queue == [] && cfg.queueMax >= 1
    requires T.InHand(s.tails[0].phase) && s.tails[0].inode == 0 && s.tails[0].offset == 1
        && s.tails[0].files == [[Parsed(r)]]
    ensures I.Next(cfg, s, I.Tail(0, T.Put))
         == s.(tails := [T.Next(s.tails[0], T.Put, cfg.every)], queue := [I.Item(0, T.Place(0, 0), r)],
               unfinished := s.unfinished + 1)
  {
    assert T.ParsedAt(s.tails[0].files, T.Place(0, 0));
  }

  /** From the put on: counted, and saved at the end of the file. */
  function Saved(t: T.Tail, every: nat): T.Tail {
    T.Next(T.Next(T.Next(t, T.Put, every), T.Account(true), every), T.CaughtUp(true), every)
  }

  lemma SavedIs(every: nat, r: Record)
    ensures var t := Saved(FirstLine(every, r), every);
            t.disk == Some(T.Checkpoint(0, 1)) && t.files == [[Parsed(r)]] && t.present
  {
    FirstLineIs(every, r);
    var t5 := T.Next(FirstLine(every, r), T.Put, every);
    assert t5.phase == T.Placed && t5.offset == 1 && t5.inode == 0 && t5.files == [[Parsed(r)]] && t5.present;
    var t6 := T.Next(t5, T.Account(true), every);
    assert t6.phase == T.Reading && t6.offset == 1 && t6.inode == 0 && t6.files == t5.files && t6.present;
    assert t6.unsaved == 1 || t6.disk == Some(T.Checkpoint(0, 1));
  }

  /** A checkpoint does pass a queued record: a line is read, queued, counted and checkpointed at end of file; a kill
      then loses it, and the restart begins beyond it. */
  lemma CheckpointPassesQueued(cfg: I.Config, r: Record) returns (acts: seq<I.Action>)
    requires I.Sound(cfg) && (r.shape.Raises? || Wanted(cfg.rules, r.shape))
    ensures var s := I.Run(cfg, I.Initial(1, 1), acts);
            var it := I.Item(0, T.Place(0, 0), r);
            && s.queue == [it] && |s.tails| == 1 && s.tails[0].disk == Some(T.Checkpoint(0, 1))
            && I.Next(cfg, s, I.Kill).lost == {it} && s.lost == {} && s.db.rows == []
  {
    var s0 := I.Initial(1, 1);
    acts := ReadsFirstLine(cfg, r);
    FirstLineIs(cfg.every, r);
    SavedIs(cfg.every, r);
    IngestSnoc(cfg, s0, acts, I.Tail(0, T.Put));
    PutMoves(cfg, I.Run(cfg, s0, acts), r);
    acts := SavesAtEnd(cfg, acts + [I.Tail(0, T.Put)]);
    KillTakes(cfg, I.Run(cfg, s0, acts), I.Item(0, T.Place(0, 0), r));
  }

  lemma SavesAtEnd(cfg: I.Config, acts: seq<I.Action>) returns (more: seq<I.Action>)
    requires var s := I.Run(cfg, I.Initial(1, 1), acts); |s.tails| == 1 && !s.stopping
    ensures var s := I.Run(cfg, I.Initial(1, 1), acts);
            I.Run(cfg, I.Initial(1, 1), more)
            == s.(tails := [T.Next(T.Next(s.tails[0], T.Account(true), cfg.every), T.CaughtUp(true), cfg.every)])
  {
    var s0 := I.Initial(1, 1);
    IngestSnoc(cfg, s0, acts, I.Tail(0, T.Account(true)));
    TailMoves(cfg, I.Run(cfg, s0, acts), T.Account(true));
    IngestSnoc(cfg, s0, acts + [I.Tail(0, T.Account(true))], I.Tail(0, T.CaughtUp(true)));
    TailMoves(cfg, I.Run(cfg, s0, acts + [I.Tail(0, T.Account(true))]), T.CaughtUp(true));
    more := acts + [I.Tail(0, T.Account(true))] + [I.Tail(0, T.CaughtUp(true))];
  }

  lemma KillTakes(cfg: I.Config, s: I.State, it: I.Item)
    requires |s.tails| == 1 && s.queue == [it] && I.Held(s.consumers) == {} && s.lost == {} && it.sensor == 0
    requires s.db.rows == [] && s.drops == {} && !I.Discarded(cfg, it)
    requires s.tails[0].disk == Some(T.Checkpoint(0, 1)) && it.place == T.Place(0, 0) && |s.tails[0].files| == 1
    requires |s.tails[0].files[0]| == 1
    ensures I.Next(cfg, s, I.Kill).lost == {it}
  {
    assert I.InProcess(s) == {it};
    assert !I.ReadAgain(I.StopTails(s.tails), it);
  }

  /** A wanted event of this address whose timestamp does not parse. */
  predicate StampedByClock(cfg: I.Config, r: Record, ip: string) {
    Wanted(cfg.rules, r.shape) && r.shape.address.canonical == ip && r.shape.ts.None?
  }

  /** The only consumer takes a queued record up and stores it at time `now`. */
  lemma Stores(cfg: I.Config, acts: seq<I.Action>, it: I.Item, ip: string, now: int) returns (more: seq<I.Action>)
    requires var s := I.Run(cfg, I.Initial(1, 1), acts);
             && s.queue == [it] && s.consumers == [I.Free] && StampedByClock(cfg, it.record, ip)
             && !I.HasKey(s.db.rows, I.Key(now, IdOf(it.sensor, it.record)))
    ensures var s, s' := I.Run(cfg, I.Initial(1, 1), acts), I.Run(cfg, I.Initial(1, 1), more);
            && s'.db.rows == s.db.rows + [I.Row(I.Key(now, IdOf(it.sensor, it.record)), ip)]
            && s'.tails == s.tails && s'.stopping == s.stopping && |s'.consumers| == 1 && s'.queue == []
  {
    var s0 := I.Initial(1, 1);
    var s := I.Run(cfg, s0, acts);
    IngestSnoc(cfg, s0, acts, I.Get(0));
    IngestSnoc(cfg, s0, acts + [I.Get(0)], I.Work(0, I.Fine, now));
    IngestSnoc(cfg, s0, acts + [I.Get(0)] + [I.Work(0, I.Fine, now)], I.Work(0, I.Fine, now));
    more := acts + [I.Get(0)] + [I.Work(0, I.Fine, now)] + [I.Work(0, I.Fine, now)];
    StoringIs(cfg, s, it, ip, now);
  }

  lemma StoringIs(cfg: I.Config, s: I.State, it: I.Item, ip: string, now: int)
    requires s.queue == [it] && s.consumers == [I.Free] && StampedByClock(cfg, it.record, ip)
    requires !I.HasKey(s.db.rows, I.Key(now, IdOf(it.sensor, it.record)))
    ensures var work := I.Work(0, I.Fine, now);
            var s' := I.Next(cfg, I.Next(cfg, I.Next(cfg, s, I.Get(0)), work), work);
            && s'.db.rows == s.db.rows + [I.Row(I.Key(now, IdOf(it.sensor, it.record)), ip)]
            && s'.tails == s.tails && s'.stopping == s.stopping && |s'.consumers| == 1 && s'.queue == []
  {
    var s1 := I.Next(cfg, s, I.Get(0));
    assert s1 == s.(queue := [], consumers := [I.Busy(it, 1, I.Begin)]);
    var s2 := I.Next(cfg, s1, I.Work(0, I.Fine, now));
    assert s2 == s1.(consumers := [I.Busy(it, 1, I.Insert(ip, None))]);
  }

  lemma DeathIs(cfg: I.Config, s: I.State)
    requires |s.tails| == 1 && |s.consumers| == 1
    ensures var s' := I.Next(cfg, s, I.Kill);
            && s'.tails == [s.tails[0].(phase := T.Down)] && s'.queue == [] && s'.consumers == [I.Free] && !s'.stopping
            && s'.db == s.db
  {
  }

  /** The line in hand is the first of the file, again. */
  lemma ReadsAgain(every: nat, r: Record)
    ensures var t := T.Next(T.Next(Stopped(every, r), T.Open(true), every), T.Read, every);
            T.InHand(t.phase) && t.inode == 0 && t.offset == 1 && t.files == [[Parsed(r)]]
  {
    FirstLineIs(every, r);
    assert Stopped(every, r).disk == Some(T.Checkpoint(0, 0));
  }

  /** The tail that queued the first line dies before its position is saved. */
  function Stopped(every: nat, r: Record): T.Tail { T.Next(FirstLine(every, r), T.Put, every).(phase := T.Down) }

  /** A record whose timestamp does not parse is stored twice: its line is read, stored at time 1, read again after a
      kill that came before the position was saved, and stored at time 2. */
  lemma ReplayDuplicates(cfg: I.Config, r: Record, ip: string) returns (acts: seq<I.Action>)
    requires I.Sound(cfg) && StampedByClock(cfg, r, ip)
    ensures var rows := I.Run(cfg, I.Initial(1, 1), acts).db.rows;
            && |rows| == 2 && rows[0].key.id == rows[1].key.id == IdOf(0, r) && rows[0].key.ts == 1
              && rows[1].key.ts == 2
  {
    var s0, it := I.Initial(1, 1), I.Item(0, T.Place(0, 0), r);
    acts := ReadsFirstLine(cfg, r);
    FirstLineIs(cfg.every, r);
    IngestSnoc(cfg, s0, acts, I.Tail(0, T.Put));
    PutMoves(cfg, I.Run(cfg, s0, acts), r);
    acts := acts + [I.Tail(0, T.Put)];
    assert I.Run(cfg, s0, acts).consumers == [I.Free];
    acts := Stores(cfg, acts, it, ip, 1);
    IngestSnoc(cfg, s0, acts, I.Kill);
    DeathIs(cfg, I.Run(cfg, s0, acts));
    acts := acts + [I.Kill];
    assert I.Run(cfg, s0, acts).tails == [Stopped(cfg.every, r)];
    acts := ReadsAndQueuesAgain(cfg, acts, r);
    acts := Stores(cfg, acts, it, ip, 2);
  }

  lemma ReadsAndQueuesAgain(cfg: I.Config, acts: seq<I.Action>, r: Record) returns (more: seq<I.Action>)
    requires I.Sound(cfg)
    requires var s := I.Run(cfg, I.Initial(1, 1), acts);
             s.tails == [Stopped(cfg.every, r)] && !s.stopping && s.queue == []
    ensures var s, s' := I.Run(cfg, I.Initial(1, 1), acts), I.Run(cfg, I.Initial(1, 1), more);
            s'.queue == [I.Item(0, T.Place(0, 0), r)] && s'.consumers == s.consumers && s'.db == s.db
  {
    var s0 := I.Initial(1, 1);
    IngestSnoc(cfg, s0, acts, I.Tail(0, T.Open(true)));
    TailMoves(cfg, I.Run(cfg, s0, acts), T.Open(true));
    more := acts + [I.Tail(0, T.Open(true))];
    IngestSnoc(cfg, s0, more, I.Tail(0, T.Read));
    TailMoves(cfg, I.Run(cfg, s0, more), T.Read);
    more := more + [I.Tail(0, T.Read)];
    ReadsAgain(cfg.every, r);
    IngestSnoc(cfg, s0, more, I.Tail(0, T.Put));
    PutMoves(cfg, I.Run(cfg, s0, more), r);
    more := more + [I.Tail(0, T.Put)];
  }

  // ───────────────────────── enrichment ─────────────────────────

  /** One request is delivered to one loop, and reclaimed by another before the first gets to it. */
  lemma HandedTwice() returns (acts: seq<D.Action>)
    ensures var s := D.Run(D.Initial(2), acts, 1);
            && s.entries == [D.Entry(0, false, 0, D.Pending, false)]
              && s.loops == [D.Loop({0}, D.Idle), D.Loop({0}, D.Idle)]
            && s.jobs == 1 && s.handled == 0 && s.repeats == 0
    ensures forall a :: a in acts ==> !a.Kill? && !a.Ack?
  {
    var s0 := D.Initial(2);
    assert s0.loops == [D.Loop({}, D.Idle), D.Loop({}, D.Idle)];
    acts := [];
    D.RunSnoc(s0, acts, D.Add(false), 1);
    acts := acts + [D.Add(false)];
    D.RunSnoc(s0, acts, D.Deliver(0, 0), 1);
    acts := acts + [D.Deliver(0, 0)];
    var s2 := D.Run(s0, acts, 1);
    var none: set<nat> := {};
    assert none + {0} == {0};
    assert s2.loops == [D.Loop({0}, D.Idle), D.Loop({}, D.Idle)];
    D.RunSnoc(s0, acts, D.Reclaim(1, 0), 1);
    acts := acts + [D.Reclaim(1, 0)];
  }

  /** A reclaim of a message still in another loop's hands has it handled twice: two decisions for one request that was
      allowed one attempt, without a kill and without a failed acknowledgement. */
  lemma ReclaimHandlesTwice() returns (acts: seq<D.Action>)
    ensures var s := D.Run(D.Initial(2), acts, 1); s.jobs == 1 && s.handled + s.repeats == 2
    ensures forall a :: a in acts ==> !a.Kill? && !a.Ack?
  {
    var s0 := D.Initial(2);
    acts := HandedTwice();
    D.RunSnoc(s0, acts, D.Start(0, 0), 1);
    acts := acts + [D.Start(0, 0)];
    D.RunSnoc(s0, acts, D.Start(1, 0), 1);
    acts := acts + [D.Start(1, 0)];
    var s5 := D.Run(s0, acts, 1);
    var one: set<nat> := {0};
    assert one - {0} == {};
    assert s5.loops == [D.Loop({}, D.Working(0)), D.Loop({}, D.Working(0))];
    D.RunSnoc(s0, acts, D.Finish(0, D.Success), 1);
    acts := acts + [D.Finish(0, D.Success)];
    D.RunSnoc(s0, acts, D.Finish(1, D.Success), 1);
    acts := acts + [D.Finish(1, D.Success)];
  }

  /** A parser for one address with two spellings. */
  function TwoSpellings(s: string): Option<string> { if s == "::1" || s == "0::1" then Some("::1") else None }

  lemma FeedsSnoc<M>(parse: F.Parser, refuseEmpty: bool, evs: seq<F.Event<M>>, ev: F.Event<M>)
    ensures F.Run(parse, refuseEmpty, F.Initial(), evs + [ev])
         == F.Next(parse, refuseEmpty, F.Run(parse, refuseEmpty, F.Initial(), evs), ev)
  {
    assert (evs + [ev])[..|evs|] == evs;
  }

  /** A listed address is not found: the feed spelled it otherwise than the lookup does. */
  lemma SpellingHides<M>(refuseEmpty: bool, m: M)
    ensures var s := F.Run(TwoSpellings, refuseEmpty, F.Initial(), [F.Refresh(Some([("0::1", m)]), F.Committed)]);
            F.Get(s.table, "::1") == Some(m) && F.Get(s.mem, "::1") == None
  {
    var rows := [("0::1", m)];
    FeedsSnoc(TwoSpellings, refuseEmpty, [], F.Refresh(Some(rows), F.Committed));
    assert [] + [F.Refresh(Some(rows), F.Committed)] == [F.Refresh(Some(rows), F.Committed)];
    assert rows[..0] == [];
    F.ReplacedFront(TwoSpellings, rows);
    assert F.Replaced(TwoSpellings, rows[..0]) == map[];
    assert F.Index(rows) == map["0::1" := m];
  }

  /** A restart whose load fails does not find what is stored. */
  lemma FailedLoadHides<M>(refuseEmpty: bool, m: M)
    ensures var evs := [F.Refresh(Some([("::1", m)]), F.Committed)] + [F.Restart] + [F.Load(false)];
            var s := F.Run(TwoSpellings, refuseEmpty, F.Initial(), evs);
            F.Get(s.table, "::1") == Some(m) && F.Get(s.mem, "::1") == None
  {
    var rows := [("::1", m)];
    var first: seq<F.Event<M>> := [] + [F.Refresh(Some(rows), F.Committed)];
    FeedsSnoc(TwoSpellings, refuseEmpty, [], F.Refresh(Some(rows), F.Committed));
    FeedsSnoc(TwoSpellings, refuseEmpty, first, F.Restart);
    FeedsSnoc(TwoSpellings, refuseEmpty, first + [F.Restart], F.Load(false));
    assert first == [F.Refresh(Some(rows), F.Committed)];
    assert rows[..0] == [];
    F.ReplacedFront(TwoSpellings, rows);
    assert F.Replaced(TwoSpellings, rows[..0]) == map[];
  }

  // ───────────────────────── analytics ─────────────────────────

  /** An evicted profile need not have been persisted: an event is taken in, its profile evicted, and nothing is left to
      be written, nor was anything. */
  lemma EvictionLoses(signs: P.Signs, ev: Detectors.Event, ip: string, now: real)
    ensures var s := P.Run(signs, P.Initial(map[]), [P.Observe(ip, ev, now)] + [P.Discard(ip, true)]);
            P.Quiet(s) && ip in s.peaks && ip !in s.rows && s.lost == {ip}
  {
    var acts, s0 := [P.Observe(ip, ev, now)], P.Initial(map[]);
    assert acts[..0] == [];
    assert P.Run(signs, s0, acts) == P.Next(signs, s0, P.Observe(ip, ev, now));
    assert (acts + [P.Discard(ip, true)])[..1] == acts;
    OnlyObserved(signs, ev, ip, now);
    DiscardedUnseen(signs, P.Next(signs, s0, P.Observe(ip, ev, now)), ip);
  }

  /** Nothing is known of any address but one, whose profile waits for its first flush. */
  ghost predicate Unseen(s: P.State, ip: string) {
    && s.dirty == {ip} && s.work == {} && s.writing.None? && ip in s.profiles && ip in s.peaks && s.rows == map[]
    && s.lost == {}
  }

  lemma OnlyObserved(signs: P.Signs, ev: Detectors.Event, ip: string, now: real)
    ensures Unseen(P.Next(signs, P.Initial(map[]), P.Observe(ip, ev, now)), ip)
  {
  }

  lemma DiscardedUnseen(signs: P.Signs, s: P.State, ip: string)
    requires Unseen(s, ip)
    ensures var s' := P.Next(signs, s, P.Discard(ip, true));
            P.Quiet(s') && ip in s'.peaks && ip !in s'.rows && s'.lost == {ip}
  {
  }
}
