/** One consumer's own code (pipeline/ingestor.py, `_consume_one`, `_handle`, `_upsert_ip`), loop and branches as they
    stand, carried out step for step by the ingest machine. */
module Handler {
  import opened Prelude
  import opened Records
  import I = Ingest

  /** How `_handle` ends: it returns, or raises something worth a retry or not. */
  datatype Ending = Returned | Raised(transient: bool)

  /** A database or stream effect committing or failing, as the machine's step has it. */
  lemma EffectIs(cfg: I.Config, s: I.State, c: nat, out: I.Outcome, now: int)
    requires c < |s.consumers| && s.consumers[c].Busy? && !s.consumers[c].pc.Begin?
    ensures var b := s.consumers[c];
            var s' := I.DoWork(cfg, s, c, out, now);
            var (db', pc') := I.Commit(s.db, b.item, b.pc, now);
            && s'.db == (if out.Before? then s.db else db') && |s'.consumers| == |s.consumers|
            && (out.Fine? ==> s'.consumers[c] == if pc'.Done? then I.Free else b.(pc := pc'))
            && (!out.Fine? ==>
                  if out.transient && b.attempt < cfg.maxAttempts then
                    s'.consumers[c] == I.Busy(b.item, b.attempt + 1, I.Begin)
                  else s'.consumers[c] == I.Free && I.Drop(b.item, out.transient, b.attempt) in s'.drops)
  {
  }

  /** The row of a wanted event: its canonical address under its own timestamp, or the clock's reading if that does not
      parse. */
  function OwnRow(item: I.Item, now: int): I.Row
    requires item.record.shape.Event? && item.record.shape.address.Valid?
  {
    var shape := item.record.shape;
    I.Row(I.Key(if shape.ts.Some? then shape.ts.value else now, IdOf(item.sensor, item.record)),
          shape.address.canonical)
  }

  /** One event more for the address, an entry on the bus, and for a new address one on the enrichment queue. */
  function Announced(db: I.Db, item: I.Item, ip: string): I.Db {
    I.Db(db.rows, db.counts[ip := if ip in db.counts then db.counts[ip] + 1 else 1], db.published + multiset{ip},
         if ip in db.counts then db.queued else db.queued + multiset{ip},
         db.sent + multiset{IdOf(item.sensor, item.record)})
  }

  /** The first decisions of a run, as the machine takes them. */
  lemma DecisionIs(cfg: I.Config, s: I.State, c: nat)
    requires c < |s.consumers| && s.consumers[c].Busy? && s.consumers[c].pc.Begin?
    ensures var b := s.consumers[c];
            var s', shape := I.DoWork(cfg, s, c, I.Fine, 0), s.consumers[c].item.record.shape;
            && s'.db == s.db && |s'.consumers| == |s.consumers|
            && (shape.Raises? ==> s'.consumers[c].Free? && I.Drop(b.item, false, b.attempt) in s'.drops)
            && (!shape.Raises? && !Wanted(cfg.rules, shape) ==> s'.consumers[c].Free?)
            && (Wanted(cfg.rules, shape) ==>
                  s'.consumers[c] == I.Busy(b.item, b.attempt, I.Insert(shape.address.canonical, shape.ts)))
  {
  }

  class Consumer {
    const cfg: I.Config
    const c: nat
    var db: I.Db
    ghost var origin: I.State
    ghost var trace: seq<I.Action>
    ghost var world: I.State

    /** The stores are those of the machine after the steps taken so far, all of them this consumer's. */
    ghost predicate Valid() reads this {
      && world == I.Run(cfg, origin, trace) && world.db == db
      && c < |world.consumers|
      && forall i :: 0 <= i < |trace| ==> trace[i].Work? && trace[i].c == c
    }

    ghost predicate Holds(item: I.Item, attempt: nat, pc: I.Pc)
      reads this
    {
      c < |world.consumers| && world.consumers[c] == I.Busy(item, attempt, pc)
    }

    constructor (cfg: I.Config, c: nat, ghost start: I.State, db: I.Db)
      requires c < |start.consumers| && start.db == db
      ensures Valid() && world == origin == start && trace == [] && this.cfg == cfg && this.c == c && this.db == db
    {
      this.cfg, this.c, this.db := cfg, c, db;
      origin, world, trace := start, start, [];
    }

    ghost method Step(out: I.Outcome, now: int)
      requires world == I.Run(cfg, origin, trace) && c < |world.consumers| && world.consumers[c].Busy?
      requires forall i :: 0 <= i < |trace| ==> trace[i].Work? && trace[i].c == c
      modifies this`world, this`trace
      ensures world == I.DoWork(cfg, old(world), c, out, now) == I.Run(cfg, origin, trace)
      ensures forall i :: 0 <= i < |trace| ==> trace[i].Work? && trace[i].c == c
    {
      var a := I.Work(c, out, now);
      assert (trace + [a])[..|trace|] == trace;
      world := I.Next(cfg, world, a);
      trace := trace + [a];
    }

    /** The consumer after a failed attempt: at the start of the next one, or free with the record given up. */
    ghost predicate Failed(item: I.Item, attempt: nat, transient: bool)
      reads this
    {
      && c < |world.consumers|
      && if transient && attempt < cfg.maxAttempts then Holds(item, attempt + 1, I.Begin)
         else world.consumers[c].Free? && I.Drop(item, transient, attempt) in world.drops
    }

    /** What one effect left behind: its failure, or the run at `next`. */
    ghost predicate Moved(item: I.Item, attempt: nat, out: I.Outcome, next: I.Pc)
      reads this
    {
      && c < |world.consumers|
      && if out.Fine? then (if next.Done? then world.consumers[c].Free? else Holds(item, attempt, next))
         else Failed(item, attempt, out.transient)
    }

    /** INSERT .. ON CONFLICT DO NOTHING. */
    method InsertEvent(item: I.Item, attempt: nat, ip: string, ts: Option<int>, out: I.Outcome, now: int)
        returns (stored: bool)
      requires Valid() && Holds(item, attempt, I.Insert(ip, ts))
      modifies this
      ensures Valid() && origin == old(origin)
      ensures Moved(item, attempt, out, if stored then I.Upsert(ip) else I.Done)
      ensures !out.Before? ==> I.Stored(db.rows, item)
      ensures var key := I.Key(if ts.Some? then ts.value else now, IdOf(item.sensor, item.record));
              && stored == (!out.Before? && !I.HasKey(old(db).rows, key))
              && db == if stored then old(db).(rows := old(db).rows + [I.Row(key, ip)]) else old(db)
    {
      stored := false;
      if !out.Before? {
        var key := I.Key(if ts.Some? then ts.value else now, IdOf(item.sensor, item.record));
        stored := !I.HasKey(db.rows, key);
        if stored {
          db := db.(rows := db.rows + [I.Row(key, ip)]);
          assert db.rows[|db.rows| - 1].key == key;
        }
      }
      EffectIs(cfg, world, c, out, now);
      Step(out, now);
    }

    /** INSERT .. ON CONFLICT DO UPDATE: one row per address, counting its events. */
    method CountEvent(ip: string)
      modifies this`db
      ensures forall item, now :: db == I.Commit(old(db), item, I.Upsert(ip), now).0
      ensures db == old(db).(counts := old(db).counts[ip := I.CountOf(old(db).counts, ip) + 1])
    {
      db := db.(counts := db.counts[ip := if ip in db.counts then db.counts[ip] + 1 else 1]);
    }

    /** `_upsert_ip`: counts the event and tells whether the address is new. */
    method UpsertIp(item: I.Item, attempt: nat, ip: string, out: I.Outcome, now: int) returns (isNew: bool)
      requires Valid() && Holds(item, attempt, I.Upsert(ip))
      modifies this
      ensures Valid() && origin == old(origin)
      ensures Moved(item, attempt, out, I.Publish(ip, isNew)) && (isNew <==> ip !in old(db).counts)
      ensures db == if out.Before? then old(db)
                    else old(db).(counts := old(db).counts[ip := I.CountOf(old(db).counts, ip) + 1])
    {
      isNew := ip !in db.counts;
      if !out.Before? { CountEvent(ip); }
      EffectIs(cfg, world, c, out, now);
      Step(out, now);
    }

    /** XADD to the events stream. */
    method PublishEvent(item: I.Item, attempt: nat, ip: string, isNew: bool, out: I.Outcome, now: int)
      requires Valid() && Holds(item, attempt, I.Publish(ip, isNew))
      modifies this
      ensures Valid() && origin == old(origin)
      ensures Moved(item, attempt, out, if isNew then I.Enqueue(ip) else I.Done)
      ensures db == if out.Before? then old(db)
                    else old(db).(published := old(db).published + multiset{ip},
                                  sent := old(db).sent + multiset{IdOf(item.sensor, item.record)})
    {
      if !out.Before? {
        db := db.(published := db.published + multiset{ip}, sent := db.sent + multiset{IdOf(item.sensor, item.record)});
      }
      EffectIs(cfg, world, c, out, now);
      Step(out, now);
    }

    /** XADD to the enrichment queue. */
    method QueueAddress(item: I.Item, attempt: nat, ip: string, out: I.Outcome, now: int)
      requires Valid() && Holds(item, attempt, I.Enqueue(ip))
      modifies this
      ensures Valid() && origin == old(origin)
      ensures Moved(item, attempt, out, I.Done)
      ensures db == if out.Before? then old(db) else old(db).(queued := old(db).queued + multiset{ip})
    {
      if !out.Before? { db := db.(queued := db.queued + multiset{ip}); }
      EffectIs(cfg, world, c, out, now);
      Step(out, now);
    }

    /** What `_handle` decides before it touches the database. */
    method Decide(item: I.Item, attempt: nat) returns (verdict: Verdict)
      requires Valid() && Holds(item, attempt, I.Begin)
      modifies this`world, this`trace
      ensures Valid()
      ensures verdict == if item.record.shape.Raises? then Reject
                         else if !Wanted(cfg.rules, item.record.shape) then Discard
                         else Keep(item.record.shape.address.canonical, item.record.shape.ts)
      ensures match verdict
              case Reject => Failed(item, attempt, false)
              case Discard => world.consumers[c].Free?
              case Keep(ip, ts) => Holds(item, attempt, I.Insert(ip, ts))
    {
      verdict := Classify(cfg.rules, item.record);
      DecisionIs(cfg, world, c);
      Step(I.Fine, 0);
    }

    /** `_handle`. `outs` and `clock` say how the effects of this attempt end and what the clock reads at each. */
    method Handle(item: I.Item, attempt: nat, outs: nat -> I.Outcome, clock: nat -> int) returns (r: Ending)
      requires Valid() && Holds(item, attempt, I.Begin)
      modifies this
      ensures Valid() && origin == old(origin)
      ensures r.Returned? ==> world.consumers[c].Free? && (I.Discarded(cfg, item) || I.Stored(db.rows, item))
      ensures r.Raised? ==> Failed(item, attempt, r.transient)
      ensures !Wanted(cfg.rules, item.record.shape) ==>
                db == old(db) && r == if item.record.shape.Raises? then Raised(false) else Returned
      ensures Wanted(cfg.rules, item.record.shape) && (forall i :: outs(i).Fine?) ==>
                && r.Returned?
                && if I.HasKey(old(db).rows, OwnRow(item, clock(0)).key)
                   then db == old(db)
                   else db == Announced(old(db).(rows := old(db).rows + [OwnRow(item, clock(0))]), item,
                                        item.record.shape.address.canonical)
      ensures Wanted(cfg.rules, item.record.shape) ==>
                db.rows == old(db).rows || db.rows == old(db).rows + [OwnRow(item, clock(0))]
    {
      var verdict := Decide(item, attempt);
      if verdict.Reject? { return Raised(false); }
      if verdict.Discard? { return Returned; }
      var ip, ts := verdict.ip, verdict.ts;
      var stored := InsertEvent(item, attempt, ip, ts, outs(0), clock(0));
      if !outs(0).Fine? { return Raised(outs(0).transient); }
      if !stored { return Returned; }
      r := Announce(item, attempt, ip, outs, clock);
    }

    /** `_handle` from the stored row on: count it, put it on the bus, and queue a new address. */
    method Announce(item: I.Item, attempt: nat, ip: string, outs: nat -> I.Outcome, clock: nat -> int)
        returns (r: Ending)
      requires Valid() && Holds(item, attempt, I.Upsert(ip))
      modifies this
      ensures Valid() && origin == old(origin) && db.rows == old(db).rows
      ensures r.Returned? ==> world.consumers[c].Free?
      ensures r.Raised? ==> Failed(item, attempt, r.transient)
      ensures (forall i :: outs(i).Fine?) ==> r.Returned? && db == Announced(old(db), item, ip)
    {
      var isNew := UpsertIp(item, attempt, ip, outs(1), clock(1));
      if !outs(1).Fine? { return Raised(outs(1).transient); }
      PublishEvent(item, attempt, ip, isNew, outs(2), clock(2));
      if !outs(2).Fine? { return Raised(outs(2).transient); }
      if isNew {
        QueueAddress(item, attempt, ip, outs(3), clock(3));
        if !outs(3).Fine? { return Raised(outs(3).transient); }
      }
      return Returned;
    }

    /** `_consume_one`: whatever fails and whenever, at most `maxAttempts` attempts later the consumer is free and the
        record is stored, discarded by rule, or given up; and everything done is a run of the machine's own steps. */
    method ConsumeOne(item: I.Item, outs: nat -> nat -> I.Outcome, clock: nat -> nat -> int) returns (attempts: nat)
      requires Valid() && Holds(item, 1, I.Begin) && cfg.maxAttempts >= 1
      modifies this
      ensures Valid() && origin == old(origin)
      ensures world.consumers[c].Free? && 1 <= attempts <= cfg.maxAttempts
      ensures I.Discarded(cfg, item) || I.Stored(db.rows, item) || I.GivenUp(world.drops, item)
      ensures !Wanted(cfg.rules, item.record.shape) ==> db == old(db) && attempts == 1
    {
      attempts := 1;
      while true
        invariant Valid() && origin == old(origin) && Holds(item, attempts, I.Begin) && 1 <= attempts <= cfg.maxAttempts
        invariant !Wanted(cfg.rules, item.record.shape) ==> db == old(db) && attempts == 1
        decreases cfg.maxAttempts - attempts
      {
        var r := Handle(item, attempts, outs(attempts), clock(attempts));
        if r.Returned? { return; }
        if !r.transient || attempts >= cfg.maxAttempts { return; }
        attempts := attempts + 1;
      }
    }
  }
}
