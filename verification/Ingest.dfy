/** The ingestor as a whole (pipeline/ingestor.py): several tails feed one bounded queue, several consumers write each
    record through four separately committed effects, and any effect can fail before or after it commits. A hard kill
    may fall between any two steps. Steps of different tasks interleave freely. */
module Ingest {
  import opened Prelude
  import opened Records
  import T = Tails
  import R = Restarts

  datatype Config = Config(queueMax: nat, maxAttempts: nat, every: nat, rules: Rules)

  /** A queued record, with the log line it was read from. */
  datatype Item = Item(sensor: nat, place: T.Place, record: Record)

  datatype Key = Key(ts: int, id: EventId)
  datatype Row = Row(key: Key, ip: string)

  /** The effect a handler run performs next. */
  datatype Pc =
    | Begin
    | Insert(ip: string, ts: Option<int>)
    | Upsert(ip: string)
    | Publish(ip: string, isNew: bool)
    | Enqueue(ip: string)
    | Done

  datatype Consumer = Free | Busy(item: Item, attempt: nat, pc: Pc)

  /** Postgres and Redis: `events` rows, `ips.event_count`, both streams by source address, and the event ids sent on
      the `events` stream. */
  datatype Db = Db(rows: seq<Row>, counts: map<string, nat>, published: multiset<string>, queued: multiset<string>,
                   sent: multiset<EventId>)

  /** Handler runs cut off after one effect and before the next, by source address. */
  datatype Cuts = Cuts(beforeUpsert: multiset<string>, beforePublish: multiset<string>, beforeEnqueue: multiset<string>)

  /** A record given up on. */
  datatype Drop = Drop(item: Item, transient: bool, attempt: nat)

  datatype State = State(
    tails: seq<T.Tail>, queue: seq<Item>, unfinished: nat, consumers: seq<Consumer>, stopping: bool, db: Db,
    // History, read by no step:
    cuts: Cuts, drops: set<Drop>,
    lost: set<Item>,            // in a process when it was killed, unresolved, and not to be read again
    orphans: set<Item>)         // were to be read a second time when their file stopped being the one at the path

  /** How one effect ends for its caller: it commits; it fails without committing; it commits and the reply is lost. */
  datatype Outcome = Fine | Before(transient: bool) | After(transient: bool)

  datatype Action =
    | Tail(k: nat, a: T.Action)
    | Get(c: nat)
    | Work(c: nat, out: Outcome, now: int)
    | StopReading
    | Kill

  function Initial(sensors: nat, consumers: nat): State {
    State(seq(sensors, _ => T.INITIAL), [], 0, seq(consumers, _ => Free), false,
          Db([], map[], multiset{}, multiset{}, multiset{}), Cuts(multiset{}, multiset{}, multiset{}), {}, {}, {})
  }

  // ───────────────────────── the handler ─────────────────────────

  predicate HasKey(rows: seq<Row>, key: Key) { exists i :: 0 <= i < |rows| && rows[i].key == key }

  /** One database or stream effect committing, and what the handler does next. */
  function Commit(db: Db, item: Item, pc: Pc, now: int): (Db, Pc) {
    match pc
    case Insert(ip, ts) =>
      var key := Key(if ts.Some? then ts.value else now, IdOf(item.sensor, item.record));
      // ON CONFLICT DO NOTHING: no row comes back, and the handler returns
      if HasKey(db.rows, key) then (db, Done) else (db.(rows := db.rows + [Row(key, ip)]), Upsert(ip))
    case Upsert(ip) =>
      var n := if ip in db.counts then db.counts[ip] else 0;
      (db.(counts := db.counts[ip := n + 1]), Publish(ip, ip !in db.counts))
    case Publish(ip, isNew) =>
      (db.(published := db.published + multiset{ip}, sent := db.sent + multiset{IdOf(item.sensor, item.record)}),
       if isNew then Enqueue(ip) else Done)
    case Enqueue(ip) => (db.(queued := db.queued + multiset{ip}), Done)
    case Begin => (db, pc)
    case Done => (db, pc)
  }

  /** A run abandoned at `pc` leaves the remaining effects undone. */
  function Cut(cuts: Cuts, pc: Pc): Cuts {
    match pc
    case Upsert(ip) => cuts.(beforeUpsert := cuts.beforeUpsert + multiset{ip})
    case Publish(ip, isNew) =>
      cuts.(beforePublish := cuts.beforePublish + multiset{ip},
            beforeEnqueue := if isNew then cuts.beforeEnqueue + multiset{ip} else cuts.beforeEnqueue)
    case Enqueue(ip) => cuts.(beforeEnqueue := cuts.beforeEnqueue + multiset{ip})
    case _ => cuts
  }

  function CutAll(cuts: Cuts, cs: seq<Consumer>): Cuts
    decreases |cs|
  {
    if cs == [] then cuts
    else
      var c := cs[|cs| - 1];
      CutAll(if c.Busy? then Cut(cuts, c.pc) else cuts, cs[..|cs| - 1])
  }

  /** `queue.task_done()`. */
  function Finish(s: State, c: nat): State requires c < |s.consumers| {
    s.(consumers := s.consumers[c := Free], unfinished := if s.unfinished > 0 then s.unfinished - 1 else 0)
  }

  /** The handler raised: retry, or log and give up. */
  function Raise(cfg: Config, s: State, c: nat, transient: bool): State
    requires c < |s.consumers| && s.consumers[c].Busy?
  {
    var b := s.consumers[c];
    if !transient || b.attempt >= cfg.maxAttempts
    then Finish(s.(drops := s.drops + {Drop(b.item, transient, b.attempt)}), c)
    else s.(consumers := s.consumers[c := Busy(b.item, b.attempt + 1, Begin)])
  }

  function Advance(s: State, c: nat, pc: Pc): State
    requires c < |s.consumers| && s.consumers[c].Busy?
  {
    if pc.Done? then Finish(s, c) else s.(consumers := s.consumers[c := s.consumers[c].(pc := pc)])
  }

  function DoWork(cfg: Config, s: State, c: nat, out: Outcome, now: int): State
    requires c < |s.consumers| && s.consumers[c].Busy?
  {
    var b := s.consumers[c];
    if b.pc.Begin? then
      match Classify(cfg.rules, b.item.record)
      case Reject => Raise(cfg, s, c, false)
      case Discard => Finish(s, c)
      case Keep(ip, ts) => Advance(s, c, Insert(ip, ts))
    else
      var (db', pc') := Commit(s.db, b.item, b.pc, now);
      match out
      case Fine => Advance(s.(db := db'), c, pc')
      case Before(transient) => Raise(cfg, s.(cuts := Cut(s.cuts, b.pc)), c, transient)
      case After(transient) => Raise(cfg, s.(db := db', cuts := Cut(s.cuts, pc')), c, transient)
  }

  // ───────────────────────── the whole process ─────────────────────────

  predicate Outside(a: T.Action) { a.Append? || a.Unlink? || a.Create? }

  /** `queue.put` completes only while there is room. */
  predicate CanPut(cfg: Config, s: State, t: T.Tail) {
    T.InHand(t.phase) && t.offset > 0 && T.ParsedAt(t.files, T.Place(t.inode, t.offset - 1)) && |s.queue| < cfg.queueMax
  }

  function DoPut(cfg: Config, s: State, k: nat): State
    requires k < |s.tails|
  {
    var t := s.tails[k];
    if CanPut(cfg, s, t) then
      s.(tails := s.tails[k := T.Next(t, T.Put, cfg.every)],
         queue := s.queue + [Item(k, T.Place(t.inode, t.offset - 1), t.files[t.inode][t.offset - 1].record)],
         unfinished := s.unfinished + 1)
    else s
  }

  function StopTails(tails: seq<T.Tail>): seq<T.Tail> {
    seq(|tails|, k requires 0 <= k < |tails| => tails[k].(phase := T.Down))
  }

  function Held(cs: seq<Consumer>): set<Item> { set c | c in cs && c.Busy? :: c.item }

  /** What a kill would take with it. */
  function InProcess(s: State): set<Item> { (set i | i in s.queue) + Held(s.consumers) }

  ghost predicate Stored(rows: seq<Row>, it: Item) {
    exists i :: 0 <= i < |rows| && rows[i].key.id == IdOf(it.sensor, it.record)
  }

  ghost predicate GivenUp(drops: set<Drop>, it: Item) { exists d :: d in drops && d.item == it }

  /** The normalizer accepts or declines the record, and it is nothing to be kept. */
  predicate Discarded(cfg: Config, it: Item) {
    !it.record.shape.Raises? && !Wanted(cfg.rules, it.record.shape)
  }

  /** Stored, discarded by rule, or given up. */
  ghost predicate Resolved(cfg: Config, s: State, it: Item) {
    Stored(s.db.rows, it) || Discarded(cfg, it) || GivenUp(s.drops, it)
  }

  /** The tail that read this line, or its restart on the files as they are, reads it again. */
  predicate ReadAgain(tails: seq<T.Tail>, it: Item) { it.sensor < |tails| && R.Ahead(tails[it.sensor], it.place) }

  function ItemAt(tails: seq<T.Tail>, k: nat, p: T.Place): Item
    requires k < |tails| && T.ParsedAt(tails[k].files, p)
  {
    Item(k, p, tails[k].files[p.inode][p.index].record)
  }

  /** Enqueued lines that were to be read a second time, and no longer are. */
  function Orphaned(tails: seq<T.Tail>, tails': seq<T.Tail>): set<Item>
    requires |tails| == |tails'|
  {
    set k, p | 0 <= k < |tails| && p in tails[k].log && T.ParsedAt(tails[k].files, p)
               && R.Ahead(tails[k], p) && !R.Ahead(tails'[k], p) :: ItemAt(tails, k, p)
  }

  /** Tails die, or a dead tail's path goes. */
  function Leave(s: State, tails': seq<T.Tail>): State
    requires |s.tails| == |tails'|
  {
    s.(tails := tails', orphans := s.orphans + Orphaned(s.tails, tails'))
  }

  /** The process dies: the queue, whatever consumers hold and every read position are gone; files, checkpoints and
      stores stay. It then starts again. */
  ghost function DoKill(cfg: Config, s: State): State {
    Leave(s, StopTails(s.tails)).(
      queue := [], unfinished := 0, consumers := seq(|s.consumers|, _ => Free),
      stopping := false, cuts := CutAll(s.cuts, s.consumers),
      lost := s.lost + set it | it in InProcess(s) && !Resolved(cfg, s, it) && !ReadAgain(StopTails(s.tails), it))
  }

  ghost function Next(cfg: Config, s: State, a: Action): State {
    match a
    case Tail(k, ta) =>
      if k >= |s.tails| || (s.stopping && !Outside(ta)) then s
      else if ta.Put? then DoPut(cfg, s, k)
      else
        var tails' := s.tails[k := T.Next(s.tails[k], ta, cfg.every)];
        if ta.Fail? || ta.Unlink? then Leave(s, tails') else s.(tails := tails')
    case Get(c) =>
      if c < |s.consumers| && s.consumers[c].Free? && s.queue != []
      then s.(queue := s.queue[1..], consumers := s.consumers[c := Busy(s.queue[0], 1, Begin)])
      else s
    case Work(c, out, now) =>
      if c < |s.consumers| && s.consumers[c].Busy? then DoWork(cfg, s, c, out, now) else s
    case StopReading => Leave(s, StopTails(s.tails)).(stopping := true)
    case Kill => DoKill(cfg, s)
  }

  ghost function Run(cfg: Config, s: State, acts: seq<Action>): State {
    if acts == [] then s else Next(cfg, Run(cfg, s, acts[..|acts| - 1]), acts[|acts| - 1])
  }

  // ───────────────────────── counting handler runs ─────────────────────────

  function RowsOf(rows: seq<Row>, ip: string): nat {
    if rows == [] then 0 else RowsOf(rows[..|rows| - 1], ip) + (if rows[|rows| - 1].ip == ip then 1 else 0)
  }

  function CountOf(counts: map<string, nat>, ip: string): nat { if ip in counts then counts[ip] else 0 }

  function Known(db: Db, ip: string): nat { if ip in db.counts then 1 else 0 }

  /** Runs that have done one effect and not the next: per address, and (Owing) per event between insert and publish. */
  datatype Stage = Inserted(ip: string) | Upserted(ip: string) | New(ip: string) | Owing(id: EventId)

  predicate At(c: Consumer, st: Stage) {
    c.Busy? && match st
               case Inserted(ip) => c.pc == Upsert(ip)
               case Upserted(ip) => c.pc.Publish? && c.pc.ip == ip
               case New(ip) => c.pc == Publish(ip, true) || c.pc == Enqueue(ip)
               case Owing(id) => (c.pc.Upsert? || c.pc.Publish?) && IdOf(c.item.sensor, c.item.record) == id
  }

  function Owes(c: Consumer, st: Stage): nat { if At(c, st) then 1 else 0 }

  function InFlight(cs: seq<Consumer>, st: Stage): nat {
    if cs == [] then 0 else InFlight(cs[..|cs| - 1], st) + Owes(cs[|cs| - 1], st)
  }

  lemma {:induction false} InFlightUpdate(cs: seq<Consumer>, c: nat, x: Consumer, st: Stage)
    requires c < |cs|
    ensures InFlight(cs[c := x], st) + Owes(cs[c], st) == InFlight(cs, st) + Owes(x, st)
  {
    var n := |cs| - 1;
    if c == n {
      assert cs[c := x][..n] == cs[..n];
    } else {
      InFlightUpdate(cs[..n], c, x, st);
      assert cs[c := x][..n] == cs[..n][c := x];
    }
  }

  lemma InFlightUpdates(cs: seq<Consumer>, c: nat, x: Consumer)
    requires c < |cs|
    ensures forall st {:trigger InFlight(cs[c := x], st)} ::
              InFlight(cs[c := x], st) + Owes(cs[c], st) == InFlight(cs, st) + Owes(x, st)
  {
    forall st
      ensures InFlight(cs[c := x], st) + Owes(cs[c], st) == InFlight(cs, st) + Owes(x, st)
    {
      InFlightUpdate(cs, c, x, st);
    }
  }

  lemma {:induction false} InFlightFree(n: nat, st: Stage)
    ensures InFlight(seq(n, _ => Free), st) == 0
  {
    if n > 0 {
      InFlightFree(n - 1, st);
      assert seq(n, _ => Free)[..n - 1] == seq(n - 1, _ => Free);
    }
  }

  lemma {:induction false} CutAllCounts(cuts: Cuts, cs: seq<Consumer>, ip: string)
    ensures CutAll(cuts, cs).beforeUpsert[ip] == cuts.beforeUpsert[ip] + InFlight(cs, Inserted(ip))
    ensures CutAll(cuts, cs).beforePublish[ip] == cuts.beforePublish[ip] + InFlight(cs, Upserted(ip))
    ensures CutAll(cuts, cs).beforeEnqueue[ip] == cuts.beforeEnqueue[ip] + InFlight(cs, New(ip))
    decreases |cs|
  {
    if cs != [] {
      var c := cs[|cs| - 1];
      CutAllCounts(if c.Busy? then Cut(cuts, c.pc) else cuts, cs[..|cs| - 1], ip);
    }
  }

  function BusyCount(cs: seq<Consumer>): nat {
    if cs == [] then 0 else BusyCount(cs[..|cs| - 1]) + (if cs[|cs| - 1].Busy? then 1 else 0)
  }

  lemma {:induction false} BusyCountUpdate(cs: seq<Consumer>, c: nat, x: Consumer)
    requires c < |cs|
    ensures BusyCount(cs[c := x]) + (if cs[c].Busy? then 1 else 0) == BusyCount(cs) + (if x.Busy? then 1 else 0)
  {
    var n := |cs| - 1;
    if c == n {
      assert cs[c := x][..n] == cs[..n];
    } else {
      BusyCountUpdate(cs[..n], c, x);
      assert cs[c := x][..n] == cs[..n][c := x];
    }
  }

  lemma {:induction false} BusyCountFree(n: nat)
    ensures BusyCount(seq(n, _ => Free)) == 0
  {
    if n > 0 {
      BusyCountFree(n - 1);
      assert seq(n, _ => Free)[..n - 1] == seq(n - 1, _ => Free);
    }
  }

  lemma {:induction false} BusyCountZero(cs: seq<Consumer>)
    requires BusyCount(cs) == 0
    ensures forall c :: 0 <= c < |cs| ==> cs[c].Free?
  {
    if cs != [] { BusyCountZero(cs[..|cs| - 1]); }
  }

  // ───────────────────────── the ledger: stored, counted, published ─────────────────────────

  /** Per address: every stored row was counted, or its run was cut off before the upsert, or is about to count it;
      likewise counted against published, and existence of the ips row against the enrichment queue. */
  ghost predicate Balanced(db: Db, cuts: Cuts, cs: seq<Consumer>, ip: string) {
    && RowsOf(db.rows, ip) == CountOf(db.counts, ip) + cuts.beforeUpsert[ip] + InFlight(cs, Inserted(ip))
    && CountOf(db.counts, ip) == db.published[ip] + cuts.beforePublish[ip] + InFlight(cs, Upserted(ip))
    && Known(db, ip) == db.queued[ip] + cuts.beforeEnqueue[ip] + InFlight(cs, New(ip))
  }

  /** Per event: what was sent plus what is still going to be sent never exceeds the rows stored for it. */
  ghost predicate SentAtMost(db: Db, cs: seq<Consumer>, id: EventId) {
    db.sent[id] + InFlight(cs, Owing(id)) <= RowsWithId(db.rows, id)
  }

  function RowsWithId(rows: seq<Row>, id: EventId): nat {
    if rows == [] then 0 else RowsWithId(rows[..|rows| - 1], id) + (if rows[|rows| - 1].key.id == id then 1 else 0)
  }

  /** Replacing a run by one that owes nothing, its unfinished effects going to the cuts, keeps the books. */
  lemma Abandon(db: Db, cuts: Cuts, cs: seq<Consumer>, c: nat, x: Consumer, ip: string, id: EventId)
    requires Balanced(db, cuts, cs, ip) && SentAtMost(db, cs, id) && c < |cs| && cs[c].Busy?
    requires x.Busy? ==> x.pc.Begin? || x.pc.Insert?
    ensures Balanced(db, Cut(cuts, cs[c].pc), cs[c := x], ip) && SentAtMost(db, cs[c := x], id)
  {
    InFlightUpdates(cs, c, x);
  }

  /** One effect committing keeps the books, as long as the run stays on hand. */
  lemma CommitBalances(db: Db, cuts: Cuts, cs: seq<Consumer>, c: nat, now: int, ip: string)
    requires Balanced(db, cuts, cs, ip) && c < |cs| && cs[c].Busy?
    ensures var (db', pc') := Commit(db, cs[c].item, cs[c].pc, now);
            Balanced(db', cuts, cs[c := cs[c].(pc := pc')], ip)
  {
    var (db', pc') := Commit(db, cs[c].item, cs[c].pc, now);
    var cs' := cs[c := cs[c].(pc := pc')];
    InFlightUpdate(cs, c, cs'[c], Inserted(ip));
    InFlightUpdate(cs, c, cs'[c], Upserted(ip));
    InFlightUpdate(cs, c, cs'[c], New(ip));
    CommitMoves(db, cs[c], now, ip);
  }

  ghost predicate Moves(db: Db, db': Db, b: Consumer, x: Consumer, ip: string) {
    && RowsOf(db'.rows, ip) + CountOf(db.counts, ip) + Owes(b, Inserted(ip))
       == RowsOf(db.rows, ip) + CountOf(db'.counts, ip) + Owes(x, Inserted(ip))
    && CountOf(db'.counts, ip) + db.published[ip] + Owes(b, Upserted(ip))
       == CountOf(db.counts, ip) + db'.published[ip] + Owes(x, Upserted(ip))
    && Known(db', ip) + db.queued[ip] + Owes(b, New(ip)) == Known(db, ip) + db'.queued[ip] + Owes(x, New(ip))
  }

  /** What one commit adds to each column of the ledger for an address is what its run stops or starts owing. */
  lemma CommitMoves(db: Db, b: Consumer, now: int, ip: string)
    requires b.Busy?
    ensures var (db', pc') := Commit(db, b.item, b.pc, now); Moves(db, db', b, b.(pc := pc'), ip)
  {
    match b.pc
    case Insert(_, _) => InsertMoves(db, b, now, ip);
    case Upsert(_) => UpsertMoves(db, b, now, ip);
    case Publish(_, _) =>
    case Enqueue(_) =>
    case _ =>
  }

  lemma InsertMoves(db: Db, b: Consumer, now: int, ip: string)
    requires b.Busy? && b.pc.Insert?
    ensures var (db', pc') := Commit(db, b.item, b.pc, now); Moves(db, db', b, b.(pc := pc'), ip)
  {
    var key := Key(if b.pc.ts.Some? then b.pc.ts.value else now, IdOf(b.item.sensor, b.item.record));
    if !HasKey(db.rows, key) { RowMoves(db, b, Row(key, b.pc.ip), ip); }
  }

  lemma RowMoves(db: Db, b: Consumer, row: Row, ip: string)
    requires b.Busy? && b.pc.Insert?
    ensures Moves(db, db.(rows := db.rows + [row]), b, b.(pc := Upsert(row.ip)), ip)
  {
    var db', x := db.(rows := db.rows + [row]), b.(pc := Upsert(row.ip));
    OneMoreRow(db.rows, row, ip);
    assert CountOf(db'.counts, ip) == CountOf(db.counts, ip) && Known(db', ip) == Known(db, ip);
    assert Owes(b, Inserted(ip)) == Owes(b, Upserted(ip)) == Owes(b, New(ip)) == 0;
    assert Owes(x, Upserted(ip)) == Owes(x, New(ip)) == 0;
    assert Owes(x, Inserted(ip)) == if row.ip == ip then 1 else 0;
  }

  lemma OneMoreRow(rows: seq<Row>, row: Row, ip: string)
    ensures RowsOf(rows + [row], ip) == RowsOf(rows, ip) + (if row.ip == ip then 1 else 0)
  {
    assert (rows + [row])[..|rows|] == rows;
  }

  lemma UpsertMoves(db: Db, b: Consumer, now: int, ip: string)
    requires b.Busy? && b.pc.Upsert?
    ensures var (db', pc') := Commit(db, b.item, b.pc, now); Moves(db, db', b, b.(pc := pc'), ip)
  {
  }

  lemma CommitSends(db: Db, cs: seq<Consumer>, c: nat, now: int, id: EventId)
    requires SentAtMost(db, cs, id) && c < |cs| && cs[c].Busy?
    ensures var (db', pc') := Commit(db, cs[c].item, cs[c].pc, now);
            SentAtMost(db', cs[c := cs[c].(pc := pc')], id)
  {
    var (db', pc') := Commit(db, cs[c].item, cs[c].pc, now);
    InFlightUpdate(cs, c, cs[c].(pc := pc'), Owing(id));
    SendMoves(db, cs[c], now, id);
  }

  /** What one commit adds to what was sent for an event, or to its rows, its run stops or starts owing. */
  lemma SendMoves(db: Db, b: Consumer, now: int, id: EventId)
    requires b.Busy?
    ensures var (db', pc') := Commit(db, b.item, b.pc, now);
            db'.sent[id] + RowsWithId(db.rows, id) + Owes(b.(pc := pc'), Owing(id))
            == db.sent[id] + RowsWithId(db'.rows, id) + Owes(b, Owing(id))
  {
    match b.pc
    case Insert(_, _) => InsertSends(db, b, now, id);
    case Publish(_, _) => PublishSends(db, b, now, id);
    case _ =>
  }

  lemma InsertSends(db: Db, b: Consumer, now: int, id: EventId)
    requires b.Busy? && b.pc.Insert?
    ensures var (db', pc') := Commit(db, b.item, b.pc, now);
            && db'.sent == db.sent
            && RowsWithId(db'.rows, id) == RowsWithId(db.rows, id) + Owes(b.(pc := pc'), Owing(id))
            && Owes(b, Owing(id)) == 0
  {
    var own := IdOf(b.item.sensor, b.item.record);
    var key := Key(if b.pc.ts.Some? then b.pc.ts.value else now, own);
    assert Owes(b, Owing(id)) == 0 && Owes(b.(pc := Done), Owing(id)) == 0;
    assert Owes(b.(pc := Upsert(b.pc.ip)), Owing(id)) == if own == id then 1 else 0;
    OneMoreWithId(db.rows, Row(key, b.pc.ip), id);
  }

  lemma OneMoreWithId(rows: seq<Row>, row: Row, id: EventId)
    ensures RowsWithId(rows + [row], id) == RowsWithId(rows, id) + (if row.key.id == id then 1 else 0)
  {
    assert (rows + [row])[..|rows|] == rows;
  }

  lemma PublishSends(db: Db, b: Consumer, now: int, id: EventId)
    requires b.Busy? && b.pc.Publish?
    ensures var (db', pc') := Commit(db, b.item, b.pc, now);
            && db'.rows == db.rows && db'.sent[id] == db.sent[id] + Owes(b, Owing(id))
            && Owes(b.(pc := pc'), Owing(id)) == 0
  {
  }

  /** The books balance after every step of every task, for every address and every event. */
  lemma LedgerStep(cfg: Config, s: State, a: Action, ip: string, id: EventId)
    requires Balanced(s.db, s.cuts, s.consumers, ip) && SentAtMost(s.db, s.consumers, id)
    ensures var s' := Next(cfg, s, a);
            Balanced(s'.db, s'.cuts, s'.consumers, ip) && SentAtMost(s'.db, s'.consumers, id)
  {
    match a
    case Tail(_, _) =>
    case StopReading =>
    case Get(c) => LedgerGet(cfg, s, c, ip, id);
    case Work(c, out, now) =>
      if c < |s.consumers| && s.consumers[c].Busy? { LedgerWork(cfg, s, c, out, now, ip, id); }
    case Kill => LedgerKill(cfg, s, ip, id);
  }

  lemma LedgerGet(cfg: Config, s: State, c: nat, ip: string, id: EventId)
    requires Balanced(s.db, s.cuts, s.consumers, ip) && SentAtMost(s.db, s.consumers, id)
    ensures var s' := Next(cfg, s, Get(c));
            Balanced(s'.db, s'.cuts, s'.consumers, ip) && SentAtMost(s'.db, s'.consumers, id)
  {
    if c < |s.consumers| && s.consumers[c].Free? && s.queue != [] {
      InFlightUpdates(s.consumers, c, Busy(s.queue[0], 1, Begin));
    }
  }

  lemma LedgerKill(cfg: Config, s: State, ip: string, id: EventId)
    requires Balanced(s.db, s.cuts, s.consumers, ip) && SentAtMost(s.db, s.consumers, id)
    ensures var s' := DoKill(cfg, s);
            Balanced(s'.db, s'.cuts, s'.consumers, ip) && SentAtMost(s'.db, s'.consumers, id)
  {
    CutAllCounts(s.cuts, s.consumers, ip);
    InFlightFree(|s.consumers|, Inserted(ip));
    InFlightFree(|s.consumers|, Upserted(ip));
    InFlightFree(|s.consumers|, New(ip));
    InFlightFree(|s.consumers|, Owing(id));
  }

  lemma LedgerWork(cfg: Config, s: State, c: nat, out: Outcome, now: int, ip: string, id: EventId)
    requires Balanced(s.db, s.cuts, s.consumers, ip) && SentAtMost(s.db, s.consumers, id)
    requires c < |s.consumers| && s.consumers[c].Busy?
    ensures var s' := DoWork(cfg, s, c, out, now);
            Balanced(s'.db, s'.cuts, s'.consumers, ip) && SentAtMost(s'.db, s'.consumers, id)
  {
    var b := s.consumers[c];
    if b.pc.Begin? || out.Before? {
      var s' := DoWork(cfg, s, c, out, now);
      assert s'.consumers == s.consumers[c := s'.consumers[c]];
      Abandon(s.db, s.cuts, s.consumers, c, s'.consumers[c], ip, id);
    } else {
      CommitBalances(s.db, s.cuts, s.consumers, c, now, ip);
      CommitSends(s.db, s.consumers, c, now, id);
      LedgerReply(cfg, s, c, out, now, ip, id);
    }
  }

  /** After the effect committed: the run goes on, ends, or raises because the reply was lost. */
  lemma LedgerReply(cfg: Config, s: State, c: nat, out: Outcome, now: int, ip: string, id: EventId)
    requires c < |s.consumers| && s.consumers[c].Busy? && !s.consumers[c].pc.Begin? && !out.Before?
    requires var b := s.consumers[c];
             var (db', pc') := Commit(s.db, b.item, b.pc, now);
             var cs' := s.consumers[c := b.(pc := pc')];
             Balanced(db', s.cuts, cs', ip) && SentAtMost(db', cs', id)
    ensures var s' := DoWork(cfg, s, c, out, now);
            Balanced(s'.db, s'.cuts, s'.consumers, ip) && SentAtMost(s'.db, s'.consumers, id)
  {
    var b := s.consumers[c];
    var s' := DoWork(cfg, s, c, out, now);
    var (db', pc') := Commit(s.db, b.item, b.pc, now);
    var cs' := s.consumers[c := b.(pc := pc')];
    assert cs'[c := s'.consumers[c]] == s'.consumers;
    if out.After? || pc'.Done? { Abandon(db', s.cuts, cs', c, s'.consumers[c], ip, id); }
  }

  // ───────────────────────── stored rows and running handlers ─────────────────────────

  /** A record with a parseable timestamp is stored under that timestamp. */
  predicate KeyFits(key: Key) {
    key.id.shape.Event? && (key.id.shape.ts.Some? ==> key.ts == key.id.shape.ts.value)
  }

  ghost predicate RowsFit(rows: seq<Row>) {
    && (forall i :: 0 <= i < |rows| ==> KeyFits(rows[i].key))
    && (forall i, j :: 0 <= i < j < |rows| ==> rows[i].key != rows[j].key)
  }

  ghost predicate WorkerFits(cfg: Config, rows: seq<Row>, b: Consumer) {
    b.Busy? ==>
      && 1 <= b.attempt <= cfg.maxAttempts
      && (match b.pc
          case Begin => true
          case Insert(_, ts) => b.item.record.shape.Event? && ts == b.item.record.shape.ts
          case Done => false
          case _ => Stored(rows, b.item))
  }

  ghost predicate StoreFits(cfg: Config, s: State) {
    && RowsFit(s.db.rows)
    && (forall c :: 0 <= c < |s.consumers| ==> WorkerFits(cfg, s.db.rows, s.consumers[c]))
    && (forall d :: d in s.drops ==> !d.transient || d.attempt == cfg.maxAttempts)
  }

  lemma StoredStays(rows: seq<Row>, rows': seq<Row>, it: Item)
    requires rows <= rows' && Stored(rows, it)
    ensures Stored(rows', it)
  {
    var i :| 0 <= i < |rows| && rows[i].key.id == IdOf(it.sensor, it.record);
    assert rows'[i] == rows[i];
  }

  /** What a commit does to the rows: nothing, or one new row whose key was free. */
  lemma CommitRows(cfg: Config, db: Db, b: Consumer, now: int)
    requires RowsFit(db.rows) && b.Busy? && WorkerFits(cfg, db.rows, b)
    ensures var (db', pc') := Commit(db, b.item, b.pc, now);
            && db.rows <= db'.rows && RowsFit(db'.rows)
            && (!b.pc.Begin? ==> Stored(db'.rows, b.item) && !pc'.Insert? && !pc'.Begin?)
  {
    var (db', pc') := Commit(db, b.item, b.pc, now);
    match b.pc
    case Insert(ip, ts) =>
      var key := Key(if ts.Some? then ts.value else now, IdOf(b.item.sensor, b.item.record));
      if HasKey(db.rows, key) {
        var i :| 0 <= i < |db.rows| && db.rows[i].key == key;
      } else {
        assert db'.rows[|db.rows|].key == key;
      }
    case _ =>
  }

  lemma StoreStep(cfg: Config, s: State, a: Action)
    requires cfg.maxAttempts >= 1 && StoreFits(cfg, s)
    ensures StoreFits(cfg, Next(cfg, s, a)) && s.db.rows <= Next(cfg, s, a).db.rows
  {
    match a
    case Tail(_, _) =>
    case StopReading =>
    case Kill =>
    case Get(_) =>
    case Work(c, out, now) =>
      if c < |s.consumers| && s.consumers[c].Busy? { StoreWork(cfg, s, c, out, now); }
  }

  lemma StoreWork(cfg: Config, s: State, c: nat, out: Outcome, now: int)
    requires cfg.maxAttempts >= 1 && StoreFits(cfg, s) && c < |s.consumers| && s.consumers[c].Busy?
    ensures var s' := DoWork(cfg, s, c, out, now); StoreFits(cfg, s') && s.db.rows <= s'.db.rows
  {
    var s' := DoWork(cfg, s, c, out, now);
    StoreWorker(cfg, s, c, out, now);
    forall k | 0 <= k < |s'.consumers| ensures WorkerFits(cfg, s'.db.rows, s'.consumers[k]) {
      if k != c {
        var w := s.consumers[k];
        assert s'.consumers[k] == w && WorkerFits(cfg, s.db.rows, w);
        if w.Busy? && !w.pc.Begin? && !w.pc.Insert? { StoredStays(s.db.rows, s'.db.rows, w.item); }
      }
    }
  }

  ghost predicate WorkerMoved(cfg: Config, s: State, s': State, c: nat) {
    && RowsFit(s'.db.rows) && s.db.rows <= s'.db.rows
    && |s'.consumers| == |s.consumers|
    && (c < |s.consumers| ==> WorkerFits(cfg, s'.db.rows, s'.consumers[c]))
    && (forall k :: 0 <= k < |s.consumers| && k != c ==> s'.consumers[k] == s.consumers[k])
    && (forall d :: d in s'.drops ==> d in s.drops || !d.transient || d.attempt == cfg.maxAttempts)
  }

  lemma StoreWorker(cfg: Config, s: State, c: nat, out: Outcome, now: int)
    requires cfg.maxAttempts >= 1 && RowsFit(s.db.rows)
    requires c < |s.consumers| && s.consumers[c].Busy? && WorkerFits(cfg, s.db.rows, s.consumers[c])
    ensures WorkerMoved(cfg, s, DoWork(cfg, s, c, out, now), c)
  {
    if s.consumers[c].pc.Begin? { StoreBegin(cfg, s, c, out, now); } else { StoreCommit(cfg, s, c, out, now); }
  }

  lemma StoreBegin(cfg: Config, s: State, c: nat, out: Outcome, now: int)
    requires cfg.maxAttempts >= 1 && RowsFit(s.db.rows)
    requires c < |s.consumers| && s.consumers[c].Busy? && WorkerFits(cfg, s.db.rows, s.consumers[c])
        && s.consumers[c].pc.Begin?
    ensures WorkerMoved(cfg, s, DoWork(cfg, s, c, out, now), c)
  {
    if Classify(cfg.rules, s.consumers[c].item.record).Reject? { RaiseFits(cfg, s, c, false); }
  }

  lemma StoreCommit(cfg: Config, s: State, c: nat, out: Outcome, now: int)
    requires cfg.maxAttempts >= 1 && RowsFit(s.db.rows)
    requires c < |s.consumers| && s.consumers[c].Busy? && WorkerFits(cfg, s.db.rows, s.consumers[c])
        && !s.consumers[c].pc.Begin?
    ensures WorkerMoved(cfg, s, DoWork(cfg, s, c, out, now), c)
  {
    var b := s.consumers[c];
    CommitRows(cfg, s.db, b, now);
    var (db', pc') := Commit(s.db, b.item, b.pc, now);
    match out
    case Fine =>
    case Before(transient) => RaiseFits(cfg, s.(cuts := Cut(s.cuts, b.pc)), c, transient);
    case After(transient) => RaiseFits(cfg, s.(db := db', cuts := Cut(s.cuts, pc')), c, transient);
  }

  /** A raising handler leaves its consumer at the start of a further attempt, or free with the record given up. */
  lemma RaiseFits(cfg: Config, s: State, c: nat, transient: bool)
    requires cfg.maxAttempts >= 1 && RowsFit(s.db.rows)
    requires c < |s.consumers| && s.consumers[c].Busy? && s.consumers[c].attempt <= cfg.maxAttempts
    ensures Raise(cfg, s, c, transient).db == s.db && WorkerMoved(cfg, s, Raise(cfg, s, c, transient), c)
  {
  }

  // ───────────────────────── only what is wanted is stored ─────────────────────────

  /** A row holds a wanted event under its canonical address. */
  ghost predicate LawfulRow(rules: Rules, row: Row) {
    Wanted(rules, row.key.id.shape) && row.ip == row.key.id.shape.address.canonical
  }

  /** A handler that has got beyond its first decisions holds a wanted event, and works under its canonical address. */
  ghost predicate LawfulWorker(rules: Rules, b: Consumer) {
    b.Busy? && !b.pc.Begin? && !b.pc.Done? ==>
      Wanted(rules, b.item.record.shape) && b.pc.ip == b.item.record.shape.address.canonical
  }

  ghost predicate LawfulDb(rules: Rules, db: Db) {
    && (forall i :: 0 <= i < |db.rows| ==> LawfulRow(rules, db.rows[i]))
    && (forall id :: id in db.sent ==> Wanted(rules, id.shape))
    && (forall ip :: ip in db.counts ==> db.counts[ip] >= 1)
  }

  ghost predicate Lawful(cfg: Config, s: State) {
    LawfulDb(cfg.rules, s.db) && forall c :: 0 <= c < |s.consumers| ==> LawfulWorker(cfg.rules, s.consumers[c])
  }

  lemma LawfulCommit(rules: Rules, db: Db, b: Consumer, now: int)
    requires LawfulDb(rules, db) && b.Busy? && LawfulWorker(rules, b)
    ensures var (db', pc') := Commit(db, b.item, b.pc, now);
            LawfulDb(rules, db') && LawfulWorker(rules, b.(pc := pc'))
  {
  }

  lemma LawfulStep(cfg: Config, s: State, a: Action)
    requires Lawful(cfg, s)
    ensures Lawful(cfg, Next(cfg, s, a))
  {
    match a
    case Tail(_, _) =>
    case StopReading =>
    case Kill =>
    case Get(_) =>
    case Work(c, out, now) =>
      if c < |s.consumers| && s.consumers[c].Busy? { LawfulWork(cfg, s, c, out, now); }
  }

  lemma LawfulWork(cfg: Config, s: State, c: nat, out: Outcome, now: int)
    requires Lawful(cfg, s) && c < |s.consumers| && s.consumers[c].Busy?
    ensures Lawful(cfg, DoWork(cfg, s, c, out, now))
  {
    var s' := DoWork(cfg, s, c, out, now);
    LawfulCommit(cfg.rules, s.db, s.consumers[c], now);
    LawfulDone(cfg, s, c, out, now);
    assert s'.consumers == s.consumers[c := s'.consumers[c]];
  }

  /** Whatever becomes of the run, what it did was lawful. */
  lemma LawfulDone(cfg: Config, s: State, c: nat, out: Outcome, now: int)
    requires LawfulDb(cfg.rules, s.db) && c < |s.consumers| && s.consumers[c].Busy?
    requires LawfulWorker(cfg.rules, s.consumers[c])
    requires var b := s.consumers[c];
             var (db', pc') := Commit(s.db, b.item, b.pc, now);
             LawfulDb(cfg.rules, db') && LawfulWorker(cfg.rules, b.(pc := pc'))
    ensures var s' := DoWork(cfg, s, c, out, now);
            LawfulDb(cfg.rules, s'.db) && |s'.consumers| == |s.consumers| && LawfulWorker(cfg.rules, s'.consumers[c])
  {
  }

  lemma {:induction false} RunLawful(cfg: Config, sensors: nat, consumers: nat, acts: seq<Action>)
    ensures Lawful(cfg, Run(cfg, Initial(sensors, consumers), acts))
  {
    if acts != [] {
      RunLawful(cfg, sensors, consumers, acts[..|acts| - 1]);
      LawfulStep(cfg, Run(cfg, Initial(sensors, consumers), acts[..|acts| - 1]), acts[|acts| - 1]);
    }
  }

  lemma {:induction false} CountedRow(rows: seq<Row>, ip: string)
    ensures RowsOf(rows, ip) > 0 <==> exists i :: 0 <= i < |rows| && rows[i].ip == ip
  {
    if rows != [] {
      CountedRow(rows[..|rows| - 1], ip);
      assert forall i :: 0 <= i < |rows| - 1 ==> rows[..|rows| - 1][i] == rows[i];
    }
  }

  // ───────────────────────── where every enqueued line is ─────────────────────────

  /** Resolved, on its way, or lost with a killed process. */
  ghost predicate Accounted(cfg: Config, s: State, it: Item) {
    Resolved(cfg, s, it) || it in s.queue || it in Held(s.consumers) || it in s.lost
  }

  /** Every line ever enqueued is accounted for, or it is read again, or it was to be and its file has gone. */
  ghost predicate Traced(cfg: Config, s: State, it: Item) {
    Accounted(cfg, s, it) || ReadAgain(s.tails, it) || it in s.orphans
  }

  /** An item is the enqueued line it was read from. */
  predicate ItemFits(tails: seq<T.Tail>, it: Item) {
    && it.sensor < |tails| && it.place in tails[it.sensor].log
    && T.ParsedAt(tails[it.sensor].files, it.place) && it == ItemAt(tails, it.sensor, it.place)
  }

  /** What is lost is never read again and nowhere in the process; what is orphaned never comes back either. */
  ghost predicate LossFits(s: State) {
    && (forall it :: it in s.queue || it in Held(s.consumers) ==> ItemFits(s.tails, it) && it !in s.lost)
    && (forall it :: it in s.lost ==> ItemFits(s.tails, it) && R.Behind(s.tails[it.sensor], it.place))
    && (forall it :: it in s.orphans ==> ItemFits(s.tails, it) && R.Abandoned(s.tails[it.sensor], it.place))
  }

  ghost predicate FlowFits(cfg: Config, s: State) {
    && |s.queue| <= cfg.queueMax
    && s.unfinished == |s.queue| + BusyCount(s.consumers)
    && (forall k :: 0 <= k < |s.tails| ==> R.Fits(s.tails[k]))
    && (forall k, p :: 0 <= k < |s.tails| && p in s.tails[k].log ==>
          T.ParsedAt(s.tails[k].files, p) && Traced(cfg, s, ItemAt(s.tails, k, p)))
    && LossFits(s)
  }

  /** What tail k does, if anything, when the process takes a step. */
  ghost function Heard(cfg: Config, s: State, a: Action, k: nat): Option<T.Action>
    requires k < |s.tails|
  {
    match a
    case Tail(j, ta) =>
      if j != k || (s.stopping && !Outside(ta)) || (ta.Put? && !CanPut(cfg, s, s.tails[k])) then None else Some(ta)
    case StopReading => Some(T.Fail)
    case Kill => Some(T.Fail)
    case Get(_) => None
    case Work(_, _, _) => None
  }

  lemma HeardIs(cfg: Config, s: State, a: Action, k: nat)
    requires k < |s.tails|
    ensures |Next(cfg, s, a).tails| == |s.tails|
    ensures Next(cfg, s, a).tails[k]
         == if Heard(cfg, s, a, k).None? then s.tails[k] else T.Next(s.tails[k], Heard(cfg, s, a, k).value, cfg.every)
  {
  }

  /** A resolved line stays resolved; one that is on its way is only taken from the process by a kill. */
  lemma AccountedStep(cfg: Config, s: State, a: Action, it: Item)
    requires cfg.maxAttempts >= 1 && StoreFits(cfg, s) && Accounted(cfg, s, it)
    ensures Accounted(cfg, Next(cfg, s, a), it) || (a.Kill? && ReadAgain(Next(cfg, s, a).tails, it))
  {
    StoreStep(cfg, s, a);
    var s' := Next(cfg, s, a);
    if Stored(s.db.rows, it) {
      StoredStays(s.db.rows, s'.db.rows, it);
    } else {
      match a
      case Tail(_, _) =>
      case StopReading =>
      case Kill =>
      case Get(c) => AccountedGet(cfg, s, c, it);
      case Work(c, out, now) =>
        if c < |s.consumers| && s.consumers[c].Busy? { AccountedWork(cfg, s, c, out, now, it); }
    }
  }

  lemma AccountedGet(cfg: Config, s: State, c: nat, it: Item)
    requires Accounted(cfg, s, it)
    ensures Accounted(cfg, Next(cfg, s, Get(c)), it)
  {
    var s' := Next(cfg, s, Get(c));
    if s' != s {
      assert s'.consumers[c] in s'.consumers;
      forall x | x in Held(s.consumers) ensures x in Held(s'.consumers) {
        HeldElsewhere(s.consumers, c, s'.consumers[c], x);
      }
    }
  }

  /** No step loses track of a line. */
  lemma TracedStep(cfg: Config, s: State, a: Action, it: Item)
    requires Sound(cfg) && StoreFits(cfg, s) && (forall k :: 0 <= k < |s.tails| ==> R.Fits(s.tails[k]))
    requires ItemFits(s.tails, it) && Traced(cfg, s, it)
    ensures Traced(cfg, Next(cfg, s, a), it)
  {
    var s' := Next(cfg, s, a);
    if Accounted(cfg, s, it) {
      AccountedStep(cfg, s, a, it);
    } else if ReadAgain(s.tails, it) {
      ReadAgainStep(cfg, s, a, it);
    }
  }

  lemma ReadAgainStep(cfg: Config, s: State, a: Action, it: Item)
    requires (forall k :: 0 <= k < |s.tails| ==> R.Fits(s.tails[k])) && ItemFits(s.tails, it) && ReadAgain(s.tails, it)
    ensures var s' := Next(cfg, s, a); ReadAgain(s'.tails, it) || it in s'.queue || it in s'.orphans
  {
    var k := it.sensor;
    var heard := Heard(cfg, s, a, k);
    HeardIs(cfg, s, a, k);
    if heard.Some? && (heard.value.Fail? || heard.value.Unlink?) {
      LeavingOrphans(cfg, s, a, it);
    } else if heard.Some? {
      R.AheadStep(s.tails[k], heard.value, cfg.every, it.place);
      if heard.value.Put? { InHandIsQueued(cfg, s, a, it); }
    }
  }

  lemma LeavingOrphans(cfg: Config, s: State, a: Action, it: Item)
    requires ItemFits(s.tails, it) && ReadAgain(s.tails, it) && Heard(cfg, s, a, it.sensor).Some?
    requires Heard(cfg, s, a, it.sensor).value.Fail? || Heard(cfg, s, a, it.sensor).value.Unlink?
    ensures ReadAgain(Next(cfg, s, a).tails, it) || it in Next(cfg, s, a).orphans
  {
    SizesStay(cfg, s, a);
  }

  lemma InHandIsQueued(cfg: Config, s: State, a: Action, it: Item)
    requires ItemFits(s.tails, it) && Heard(cfg, s, a, it.sensor) == Some(T.Put)
    ensures var t := s.tails[it.sensor];
            T.InHand(t.phase) && t.offset > 0
            && (it.place == T.Place(t.inode, t.offset - 1) ==> it in Next(cfg, s, a).queue)
  {
    assert a == Tail(it.sensor, T.Put);
  }

  lemma HeldElsewhere(cs: seq<Consumer>, c: nat, x: Consumer, it: Item)
    requires c < |cs| && it in Held(cs) && (cs[c].Busy? ==> cs[c].item != it)
    ensures it in Held(cs[c := x])
  {
    var b :| b in cs && b.Busy? && b.item == it;
    var k :| 0 <= k < |cs| && cs[k] == b;
    assert cs[c := x][k] == b;
  }

  lemma AccountedWork(cfg: Config, s: State, c: nat, out: Outcome, now: int, it: Item)
    requires StoreFits(cfg, s) && c < |s.consumers| && s.consumers[c].Busy? && Accounted(cfg, s, it)
    requires !Stored(s.db.rows, it)
    ensures Accounted(cfg, DoWork(cfg, s, c, out, now), it)
  {
    var b := s.consumers[c];
    var s' := DoWork(cfg, s, c, out, now);
    CommitRows(cfg, s.db, b, now);
    if GivenUp(s.drops, it) {
      var d :| d in s.drops && d.item == it;
      assert d in s'.drops;
    } else if it in Held(s.consumers) {
      if b.item != it {
        HeldElsewhere(s.consumers, c, s'.consumers[c], it);
      } else {
        WorkerAccounted(cfg, s, c, out, now);
      }
    }
  }

  /** The record being worked on stays in hand, or is stored, discarded or given up. */
  lemma WorkerAccounted(cfg: Config, s: State, c: nat, out: Outcome, now: int)
    requires c < |s.consumers| && s.consumers[c].Busy?
    requires var (db', pc') := Commit(s.db, s.consumers[c].item, s.consumers[c].pc, now);
             !s.consumers[c].pc.Begin? ==> Stored(db'.rows, s.consumers[c].item)
    ensures Accounted(cfg, DoWork(cfg, s, c, out, now), s.consumers[c].item)
  {
    var b, s' := s.consumers[c], DoWork(cfg, s, c, out, now);
    if s'.consumers[c].Busy? {
      assert s'.consumers[c] in s'.consumers;
    } else if Drop(b.item, true, b.attempt) in s'.drops || Drop(b.item, false, b.attempt) in s'.drops {
      assert GivenUp(s'.drops, b.item);
    }
  }

  predicate Sound(cfg: Config) { cfg.queueMax >= 1 && cfg.maxAttempts >= 1 && cfg.every >= 1 }

  lemma TailsStep(cfg: Config, s: State, a: Action)
    requires forall k :: 0 <= k < |s.tails| ==> R.Fits(s.tails[k])
    ensures var s' := Next(cfg, s, a);
            && |s'.tails| == |s.tails|
            && (forall k :: 0 <= k < |s.tails| ==>
                  && R.Fits(s'.tails[k]) && s.tails[k].log <= s'.tails[k].log
                  && |s.tails[k].files| <= |s'.tails[k].files|
                  && forall g :: 0 <= g < |s.tails[k].files| ==> s.tails[k].files[g] <= s'.tails[k].files[g])
  {
    SizesStay(cfg, s, a);
    forall k | 0 <= k < |s.tails|
      ensures var t, t' := s.tails[k], Next(cfg, s, a).tails[k];
              && R.Fits(t') && t.log <= t'.log && |t.files| <= |t'.files|
              && forall g :: 0 <= g < |t.files| ==> t.files[g] <= t'.files[g]
    {
      HeardIs(cfg, s, a, k);
      var heard := Heard(cfg, s, a, k);
      if heard.Some? {
        R.FitsStep(s.tails[k], heard.value, cfg.every);
        T.FilesGrow(s.tails[k], heard.value, cfg.every);
        T.LogGrows(s.tails[k], heard.value, cfg.every);
      }
    }
  }

  lemma ItemStays(cfg: Config, s: State, a: Action, it: Item)
    requires (forall k :: 0 <= k < |s.tails| ==> R.Fits(s.tails[k])) && ItemFits(s.tails, it)
    ensures ItemFits(Next(cfg, s, a).tails, it)
  {
    TailsStep(cfg, s, a);
    assert s.tails[it.sensor].files[it.place.inode] <= Next(cfg, s, a).tails[it.sensor].files[it.place.inode];
  }

  /** The tails' logs grow by nothing but the line that is put on the queue. */
  lemma LogStep(cfg: Config, s: State, a: Action, k: nat, p: T.Place)
    requires k < |s.tails| && R.Fits(s.tails[k])
    requires p in Next(cfg, s, a).tails[k].log && p !in s.tails[k].log
    ensures var s' := Next(cfg, s, a);
            T.ParsedAt(s'.tails[k].files, p) && ItemAt(s'.tails, k, p) in s'.queue
  {
    HeardIs(cfg, s, a, k);
    var heard := Heard(cfg, s, a, k);
    if heard.Some? && !heard.value.Put? { T.FilesGrow(s.tails[k], heard.value, cfg.every); }
  }

  /** Only a completed put adds to the queue. */
  lemma OnlyPutsQueue(cfg: Config, s: State, a: Action, it: Item)
    requires it in Next(cfg, s, a).queue && it !in s.queue
    ensures a.Tail? && a.a.Put? && a.k < |s.tails| && CanPut(cfg, s, s.tails[a.k]) && !s.stopping
  {
  }

  /** What comes onto the queue is the line in hand of some tail. */
  lemma QueuedIsInHand(cfg: Config, s: State, a: Action, it: Item)
    requires (forall k :: 0 <= k < |s.tails| ==> R.Fits(s.tails[k])) && it in Next(cfg, s, a).queue && it !in s.queue
    ensures ItemFits(Next(cfg, s, a).tails, it) && ReadAgain(s.tails, it)
  {
    OnlyPutsQueue(cfg, s, a, it);
    PutQueues(cfg, s, a.k, it);
  }

  lemma PutQueues(cfg: Config, s: State, k: nat, it: Item)
    requires k < |s.tails| && R.Fits(s.tails[k]) && CanPut(cfg, s, s.tails[k]) && it in DoPut(cfg, s, k).queue
        && it !in s.queue
    ensures ItemFits(DoPut(cfg, s, k).tails, it) && ReadAgain(s.tails, it)
  {
    var t := s.tails[k];
    assert it == ItemAt(s.tails, k, T.Place(t.inode, t.offset - 1));
  }

  lemma HeldStep(cfg: Config, s: State, a: Action, it: Item)
    requires it in Held(Next(cfg, s, a).consumers)
    ensures it in InProcess(s)
  {
    var s' := Next(cfg, s, a);
    var x :| x in s'.consumers && x.Busy? && x.item == it;
    var j :| 0 <= j < |s'.consumers| && s'.consumers[j] == x;
    HolderStep(cfg, s, a, j);
    if s.consumers[j].Busy? { assert s.consumers[j] in s.consumers; }
  }

  lemma HolderStep(cfg: Config, s: State, a: Action, j: nat)
    requires j < |Next(cfg, s, a).consumers| && Next(cfg, s, a).consumers[j].Busy?
    ensures var it := Next(cfg, s, a).consumers[j].item;
            j < |s.consumers| && if s.consumers[j].Busy? then s.consumers[j].item == it else it in s.queue
  {
  }

  lemma LossStep(cfg: Config, s: State, a: Action)
    requires (forall k :: 0 <= k < |s.tails| ==> R.Fits(s.tails[k])) && LossFits(s)
    ensures LossFits(Next(cfg, s, a))
  {
    var s' := Next(cfg, s, a);
    SizesStay(cfg, s, a);
    forall it | it in s'.queue || it in Held(s'.consumers) ensures ItemFits(s'.tails, it) && it !in s'.lost {
      ProcessLossStep(cfg, s, a, it);
    }
    forall it | it in s'.lost ensures ItemFits(s'.tails, it) && R.Behind(s'.tails[it.sensor], it.place) {
      LostStep(cfg, s, a, it);
    }
    forall it | it in s'.orphans ensures ItemFits(s'.tails, it) && R.Abandoned(s'.tails[it.sensor], it.place) {
      OrphanStep(cfg, s, a, it);
    }
  }

  lemma OnlyKillsLose(cfg: Config, s: State, a: Action)
    ensures if a.Kill? then InProcess(Next(cfg, s, a)) == {} else Next(cfg, s, a).lost == s.lost
  {
  }

  lemma ProcessLossStep(cfg: Config, s: State, a: Action, it: Item)
    requires (forall k :: 0 <= k < |s.tails| ==> R.Fits(s.tails[k])) && LossFits(s)
    requires it in InProcess(Next(cfg, s, a))
    ensures ItemFits(Next(cfg, s, a).tails, it) && it !in Next(cfg, s, a).lost
  {
    OnlyKillsLose(cfg, s, a);
    if it in Held(Next(cfg, s, a).consumers) { HeldStep(cfg, s, a, it); }
    if it in InProcess(s) {
      assert ItemFits(s.tails, it);
      ItemStays(cfg, s, a, it);
    } else {
      QueuedIsInHand(cfg, s, a, it);
    }
  }

  lemma LostStep(cfg: Config, s: State, a: Action, it: Item)
    requires (forall k :: 0 <= k < |s.tails| ==> R.Fits(s.tails[k])) && LossFits(s) && it in Next(cfg, s, a).lost
    ensures var s' := Next(cfg, s, a); ItemFits(s'.tails, it) && R.Behind(s'.tails[it.sensor], it.place)
  {
    OnlyKillsLose(cfg, s, a);
    if it in s.lost { StaysBehind(cfg, s, a, it); } else { NewlyLost(cfg, s, it); }
  }

  lemma StaysBehind(cfg: Config, s: State, a: Action, it: Item)
    requires (forall k :: 0 <= k < |s.tails| ==> R.Fits(s.tails[k]))
    requires ItemFits(s.tails, it) && R.Behind(s.tails[it.sensor], it.place)
    ensures var s' := Next(cfg, s, a); ItemFits(s'.tails, it) && R.Behind(s'.tails[it.sensor], it.place)
  {
    ItemStays(cfg, s, a, it);
    HeardIs(cfg, s, a, it.sensor);
    var heard := Heard(cfg, s, a, it.sensor);
    if heard.Some? { R.BehindStep(s.tails[it.sensor], heard.value, cfg.every, it.place); }
  }

  lemma NewlyLost(cfg: Config, s: State, it: Item)
    requires (forall k :: 0 <= k < |s.tails| ==> R.Fits(s.tails[k])) && LossFits(s)
    requires it in DoKill(cfg, s).lost && it !in s.lost
    ensures var s' := DoKill(cfg, s); ItemFits(s'.tails, it) && R.Behind(s'.tails[it.sensor], it.place)
  {
    assert ItemFits(s.tails, it);
    ItemStays(cfg, s, Kill, it);
    HeardAtDeath(cfg, s);
  }

  lemma OrphanStep(cfg: Config, s: State, a: Action, it: Item)
    requires (forall k :: 0 <= k < |s.tails| ==> R.Fits(s.tails[k])) && LossFits(s) && it in Next(cfg, s, a).orphans
    ensures var s' := Next(cfg, s, a); ItemFits(s'.tails, it) && R.Abandoned(s'.tails[it.sensor], it.place)
  {
    if it in s.orphans {
      StaysAbandoned(cfg, s, a, it);
    } else {
      NewOrphan(cfg, s, a, it);
      ItemStays(cfg, s, a, it);
      HeardIs(cfg, s, a, it.sensor);
      R.AheadEnds(s.tails[it.sensor], Heard(cfg, s, a, it.sensor).value, cfg.every, it.place);
    }
  }

  lemma StaysAbandoned(cfg: Config, s: State, a: Action, it: Item)
    requires (forall k :: 0 <= k < |s.tails| ==> R.Fits(s.tails[k]))
    requires ItemFits(s.tails, it) && R.Abandoned(s.tails[it.sensor], it.place)
    ensures var s' := Next(cfg, s, a); ItemFits(s'.tails, it) && R.Abandoned(s'.tails[it.sensor], it.place)
  {
    ItemStays(cfg, s, a, it);
    HeardIs(cfg, s, a, it.sensor);
    var heard := Heard(cfg, s, a, it.sensor);
    if heard.Some? { R.AbandonedStep(s.tails[it.sensor], heard.value, cfg.every, it.place); }
  }

  /** A line is orphaned when its tail dies or its path goes, while it was to be read again. */
  lemma NewOrphan(cfg: Config, s: State, a: Action, it: Item)
    requires it in Next(cfg, s, a).orphans && it !in s.orphans
    ensures ItemFits(s.tails, it) && ReadAgain(s.tails, it) && !ReadAgain(Next(cfg, s, a).tails, it)
    ensures Heard(cfg, s, a, it.sensor).Some?
    ensures Heard(cfg, s, a, it.sensor).value.Fail? || Heard(cfg, s, a, it.sensor).value.Unlink?
  {
    SizesStay(cfg, s, a);
    HeardIs(cfg, s, a, it.sensor) by { assert it.sensor < |s.tails|; }
  }

  lemma QueueStep(cfg: Config, s: State, a: Action)
    requires |s.queue| <= cfg.queueMax && s.unfinished == |s.queue| + BusyCount(s.consumers)
    ensures var s' := Next(cfg, s, a);
            |s'.queue| <= cfg.queueMax && s'.unfinished == |s'.queue| + BusyCount(s'.consumers)
  {
    match a
    case Tail(_, _) =>
    case StopReading =>
    case Kill => BusyCountFree(|s.consumers|);
    case Get(c) =>
      if c < |s.consumers| && s.queue != [] { BusyCountUpdate(s.consumers, c, Busy(s.queue[0], 1, Begin)); }
    case Work(c, out, now) =>
      if c < |s.consumers| && s.consumers[c].Busy? { QueueWork(cfg, s, c, out, now); }
  }

  lemma QueueWork(cfg: Config, s: State, c: nat, out: Outcome, now: int)
    requires s.unfinished == |s.queue| + BusyCount(s.consumers) && c < |s.consumers| && s.consumers[c].Busy?
    ensures var s' := DoWork(cfg, s, c, out, now);
            s'.queue == s.queue && s'.unfinished == |s'.queue| + BusyCount(s'.consumers)
  {
    var s' := DoWork(cfg, s, c, out, now);
    assert s'.consumers == s.consumers[c := s'.consumers[c]];
    BusyCountUpdate(s.consumers, c, s'.consumers[c]);
  }

  lemma FlowStep(cfg: Config, s: State, a: Action)
    requires Sound(cfg) && StoreFits(cfg, s) && FlowFits(cfg, s)
    ensures FlowFits(cfg, Next(cfg, s, a))
  {
    var s' := Next(cfg, s, a);
    QueueStep(cfg, s, a);
    TailsStep(cfg, s, a);
    LossStep(cfg, s, a);
    forall k, p | 0 <= k < |s'.tails| && p in s'.tails[k].log
      ensures T.ParsedAt(s'.tails[k].files, p) && Traced(cfg, s', ItemAt(s'.tails, k, p))
    {
      if p in s.tails[k].log {
        var it := ItemAt(s.tails, k, p);
        TracedStep(cfg, s, a, it);
        ItemStays(cfg, s, a, it);
      } else {
        LogStep(cfg, s, a, k, p);
      }
    }
  }

  // ───────────────────────── what holds in every run ─────────────────────────

  ghost predicate LedgerFits(s: State) {
    && (forall ip :: Balanced(s.db, s.cuts, s.consumers, ip))
    && (forall id :: SentAtMost(s.db, s.consumers, id))
  }

  ghost predicate Inv(cfg: Config, s: State) { StoreFits(cfg, s) && FlowFits(cfg, s) && LedgerFits(s) }

  lemma InitialInv(cfg: Config, sensors: nat, consumers: nat)
    ensures Inv(cfg, Initial(sensors, consumers))
  {
    var s := Initial(sensors, consumers);
    BusyCountFree(consumers);
    forall ip ensures Balanced(s.db, s.cuts, s.consumers, ip) {
      InFlightFree(consumers, Inserted(ip));
      InFlightFree(consumers, Upserted(ip));
      InFlightFree(consumers, New(ip));
    }
    forall id ensures SentAtMost(s.db, s.consumers, id) { InFlightFree(consumers, Owing(id)); }
  }

  lemma InvStep(cfg: Config, s: State, a: Action)
    requires Sound(cfg) && Inv(cfg, s)
    ensures Inv(cfg, Next(cfg, s, a))
  {
    var s' := Next(cfg, s, a);
    StoreStep(cfg, s, a);
    FlowStep(cfg, s, a);
    var anyIp, anyId := "", EventId(0, "", Raises);
    forall ip ensures Balanced(s'.db, s'.cuts, s'.consumers, ip) { LedgerStep(cfg, s, a, ip, anyId); }
    forall id ensures SentAtMost(s'.db, s'.consumers, id) { LedgerStep(cfg, s, a, anyIp, id); }
  }

  lemma SizesStay(cfg: Config, s: State, a: Action)
    ensures |Next(cfg, s, a).tails| == |s.tails| && |Next(cfg, s, a).consumers| == |s.consumers|
  {
  }

  /** Every state any interleaving can reach keeps the flow, the store and the ledger. */
  lemma {:induction false} RunKeeps(cfg: Config, sensors: nat, consumers: nat, acts: seq<Action>)
    requires Sound(cfg)
    ensures var s := Run(cfg, Initial(sensors, consumers), acts);
            |s.tails| == sensors && |s.consumers| == consumers && Inv(cfg, s)
  {
    if acts == [] {
      InitialInv(cfg, sensors, consumers);
    } else {
      var before := Run(cfg, Initial(sensors, consumers), acts[..|acts| - 1]);
      RunKeeps(cfg, sensors, consumers, acts[..|acts| - 1]);
      InvStep(cfg, before, acts[|acts| - 1]);
      SizesStay(cfg, before, acts[|acts| - 1]);
    }
  }

  /** What tail k has done by the end of a run of the whole process. */
  ghost function Project(cfg: Config, s: State, acts: seq<Action>, k: nat): seq<T.Action> {
    if acts == [] then []
    else
      var before := Run(cfg, s, acts[..|acts| - 1]);
      var heard := if k < |before.tails| then Heard(cfg, before, acts[|acts| - 1], k) else None;
      Project(cfg, s, acts[..|acts| - 1], k) + (if heard.Some? then [heard.value] else [])
  }

  /** Inside the process each tail goes through a run of its own, so that everything proved about the runs of a tail
      holds here too. */
  lemma {:induction false} Projection(cfg: Config, sensors: nat, consumers: nat, acts: seq<Action>, k: nat)
    requires k < sensors
    ensures var s := Run(cfg, Initial(sensors, consumers), acts);
            && |s.tails| == sensors
            && s.tails[k] == T.Run(T.INITIAL, Project(cfg, Initial(sensors, consumers), acts, k), cfg.every)
  {
    if acts != [] {
      var start, front := Initial(sensors, consumers), acts[..|acts| - 1];
      Projection(cfg, sensors, consumers, front, k);
      ProjectionStep(cfg, Run(cfg, start, front), acts[|acts| - 1], k, Project(cfg, start, front, k));
    }
  }

  lemma ProjectionStep(cfg: Config, s: State, a: Action, k: nat, done: seq<T.Action>)
    requires k < |s.tails| && s.tails[k] == T.Run(T.INITIAL, done, cfg.every)
    ensures |Next(cfg, s, a).tails| == |s.tails|
    ensures Next(cfg, s, a).tails[k]
         == T.Run(T.INITIAL, done + (if Heard(cfg, s, a, k).Some? then [Heard(cfg, s, a, k).value] else []), cfg.every)
  {
    HeardIs(cfg, s, a, k);
    var heard := Heard(cfg, s, a, k);
    if heard.Some? { T.RunAppend(done, heard.value, cfg.every); } else { assert done + [] == done; }
  }

  /** In every reachable state, for every parseable line from where the checkpointed file was first entered up to the
      saved offset: unless a restart passed it over, it is stored, discarded by rule, given up, queued, held, or lost
      with a killed process; and if every restart on that file found a checkpoint or nothing unread, none was. */
  lemma EveryLineAccountedFor(cfg: Config, sensors: nat, consumers: nat, acts: seq<Action>, k: nat, i: nat)
    requires Sound(cfg) && k < sensors
    requires var s := Run(cfg, Initial(sensors, consumers), acts);
             && |s.tails| == sensors
             && var t := s.tails[k];
                && t.disk.Some? && t.disk.value.inode in t.past.entry
                && t.past.entry[t.disk.value.inode] <= i < t.disk.value.offset
                && T.ParsedAt(t.files, T.Place(t.disk.value.inode, i))
    ensures var s := Run(cfg, Initial(sensors, consumers), acts);
            var p := T.Place(s.tails[k].disk.value.inode, i);
            && (p !in s.tails[k].past.skips ==> Accounted(cfg, s, ItemAt(s.tails, k, p)))
            && (R.SafeRun(Project(cfg, Initial(sensors, consumers), acts, k), cfg.every, p.inode)
                ==> p !in s.tails[k].past.skips)
  {
    RunKeeps(cfg, sensors, consumers, acts);
    Projection(cfg, sensors, consumers, acts, k);
    var s := Run(cfg, Initial(sensors, consumers), acts);
    var p := T.Place(s.tails[k].disk.value.inode, i);
    R.SkipsIff(Project(cfg, Initial(sensors, consumers), acts, k), cfg.every, p.inode);
    if p !in s.tails[k].past.skips { PassedIsAccounted(cfg, s, k, p); }
  }

  /** An enqueued line below the checkpoint of its file is accounted for. */
  lemma PassedIsAccounted(cfg: Config, s: State, k: nat, p: T.Place)
    requires FlowFits(cfg, s) && k < |s.tails| && s.tails[k].disk.Some? && s.tails[k].disk.value.inode == p.inode
    requires p.inode in s.tails[k].past.entry
    requires s.tails[k].past.entry[p.inode] <= p.index < s.tails[k].disk.value.offset
    requires T.ParsedAt(s.tails[k].files, p) && p !in s.tails[k].past.skips
    ensures Accounted(cfg, s, ItemAt(s.tails, k, p))
  {
    assert R.Fits(s.tails[k]);
    assert p in s.tails[k].log;
    assert Traced(cfg, s, ItemAt(s.tails, k, p));
    R.BelowCheckpoint(s.tails[k], p);
  }

  lemma {:induction false} HeldBounded(cs: seq<Consumer>)
    ensures |Held(cs)| <= BusyCount(cs) <= |cs|
  {
    if cs == [] {
      assert Held(cs) == {};
    } else {
      var front, last := cs[..|cs| - 1], cs[|cs| - 1];
      HeldBounded(front);
      assert cs == front + [last];
      assert Held(cs) == Held(front) + (if last.Busy? then {last.item} else {});
    }
  }

  /** The file is not the one at the path, no checkpoint is on disk, or the line lies below the checkpoint. */
  predicate Beyond(t: T.Tail, p: T.Place) {
    || !t.present || p.inode + 1 != |t.files| || t.disk.None?
    || (t.disk.value.inode == p.inode && p.index < t.disk.value.offset)
  }

  /** A line is lost by a kill if and only if it is queued or held and not resolved, and its file is no longer the one
      at the path, or no checkpoint is on disk, or it lies below the checkpoint. */
  lemma KillLosesIff(cfg: Config, sensors: nat, consumers: nat, acts: seq<Action>, it: Item)
    requires Sound(cfg)
    ensures var s := Run(cfg, Initial(sensors, consumers), acts);
            it in Next(cfg, s, Kill).lost && it !in s.lost
            <==> it in InProcess(s) && !Resolved(cfg, s, it)
                 && it.sensor < |s.tails| && Beyond(s.tails[it.sensor], it.place)
  {
    RunKeeps(cfg, sensors, consumers, acts);
    DeathLosesIff(cfg, Run(cfg, Initial(sensors, consumers), acts), it);
  }

  lemma DeathLosesIff(cfg: Config, s: State, it: Item)
    requires (forall k :: 0 <= k < |s.tails| ==> R.Fits(s.tails[k])) && LossFits(s)
    ensures it in Next(cfg, s, Kill).lost && it !in s.lost
       <==> it in InProcess(s) && !Resolved(cfg, s, it) && it.sensor < |s.tails| && Beyond(s.tails[it.sensor], it.place)
  {
    HeardAtDeath(cfg, s);
    if it in InProcess(s) {
      assert ItemFits(s.tails, it);
      var t := s.tails[it.sensor];
      if t.present { R.RestartSkipsIff(t, true, cfg.every, it.place); }
    }
  }

  lemma HeardAtDeath(cfg: Config, s: State)
    ensures StopTails(s.tails) == Next(cfg, s, Kill).tails
    ensures forall k :: 0 <= k < |s.tails| ==> StopTails(s.tails)[k] == T.Next(s.tails[k], T.Fail, cfg.every)
  {
  }

  /** A kill followed by a restart of the tail skips a line queued or held if and only if it lies there; otherwise the
      restart reads it again. */
  lemma KillThenOpenSkipsIff(cfg: Config, sensors: nat, consumers: nat, acts: seq<Action>, it: Item, saved: bool)
    requires Sound(cfg)
    requires var s := Run(cfg, Initial(sensors, consumers), acts);
             it in InProcess(s) && it.sensor < |s.tails| && s.tails[it.sensor].present && s.tails[it.sensor].files != []
    ensures var s := Run(cfg, Initial(sensors, consumers), acts);
            var t := s.tails[it.sensor];
            var s' := Next(cfg, Next(cfg, s, Kill), Tail(it.sensor, T.Open(saved)));
            && |s'.tails| == |s.tails|
            && var t' := s'.tails[it.sensor];
               && t'.phase.Reading?
               && (t'.inode != it.place.inode || t'.offset > it.place.index <==> Beyond(t, it.place))
  {
    RunKeeps(cfg, sensors, consumers, acts);
    DeathThenOpen(cfg, Run(cfg, Initial(sensors, consumers), acts), it, saved);
  }

  lemma DeathThenOpen(cfg: Config, s: State, it: Item, saved: bool)
    requires (forall k :: 0 <= k < |s.tails| ==> R.Fits(s.tails[k])) && LossFits(s) && it in InProcess(s)
    requires it.sensor < |s.tails| && s.tails[it.sensor].present && s.tails[it.sensor].files != []
    ensures var t := s.tails[it.sensor];
            var s' := Next(cfg, Next(cfg, s, Kill), Tail(it.sensor, T.Open(saved)));
            && |s'.tails| == |s.tails|
            && var t' := s'.tails[it.sensor];
               && t'.phase.Reading?
               && (t'.inode != it.place.inode || t'.offset > it.place.index <==> Beyond(t, it.place))
  {
    assert ItemFits(s.tails, it);
    R.RestartSkipsIff(s.tails[it.sensor], saved, cfg.every, it.place);
    DiesThenOpens(cfg, s, it.sensor, saved);
  }

  lemma DiesThenOpens(cfg: Config, s: State, k: nat, saved: bool)
    requires k < |s.tails|
    ensures var s' := Next(cfg, Next(cfg, s, Kill), Tail(k, T.Open(saved)));
            && |s'.tails| == |s.tails|
            && s'.tails[k] == T.Next(T.Next(s.tails[k], T.Fail, cfg.every), T.Open(saved), cfg.every)
  {
    var killed := Next(cfg, s, Kill);
    HeardIs(cfg, s, Kill, k);
    assert Heard(cfg, killed, Tail(k, T.Open(saved)), k) == Some(T.Open(saved));
    HeardIs(cfg, killed, Tail(k, T.Open(saved)), k);
  }

  /** What is lost is lost for good: it is in no queue and in no consumer's hands, and no tail or restart reads it. */
  lemma LostForGood(cfg: Config, sensors: nat, consumers: nat, acts: seq<Action>, it: Item)
    requires Sound(cfg) && it in Run(cfg, Initial(sensors, consumers), acts).lost
    ensures var s := Run(cfg, Initial(sensors, consumers), acts);
            it !in InProcess(s) && !ReadAgain(s.tails, it) && it.sensor < |s.tails|
              && R.Behind(s.tails[it.sensor], it.place)
  {
    RunKeeps(cfg, sensors, consumers, acts);
  }

  /** A kill loses at most QUEUE_MAX + CONSUMERS lines, and nothing that is resolved is undone by it. */
  lemma KillLosesAtMost(cfg: Config, sensors: nat, consumers: nat, acts: seq<Action>)
    requires Sound(cfg)
    ensures var s := Run(cfg, Initial(sensors, consumers), acts);
            var s' := Next(cfg, s, Kill);
            |s'.lost - s.lost| <= cfg.queueMax + consumers && s'.db == s.db && s'.drops == s.drops
  {
    RunKeeps(cfg, sensors, consumers, acts);
    QueueBounded(cfg, Run(cfg, Initial(sensors, consumers), acts));
    DeathTakesAtMost(cfg, Run(cfg, Initial(sensors, consumers), acts));
  }

  lemma QueueBounded(cfg: Config, s: State)
    requires FlowFits(cfg, s)
    ensures |s.queue| <= cfg.queueMax
  {
  }

  lemma DeathTakesAtMost(cfg: Config, s: State)
    ensures var s' := Next(cfg, s, Kill);
            |s'.lost - s.lost| <= |s.queue| + |s.consumers| && s'.db == s.db && s'.drops == s.drops
  {
    ElementsBounded(s.queue);
    HeldBounded(s.consumers);
    Cardinality(DoKill(cfg, s).lost - s.lost, (set i | i in s.queue), Held(s.consumers));
  }

  lemma Cardinality<X>(a: set<X>, b: set<X>, c: set<X>)
    requires a <= b + c
    ensures |a| <= |b| + |c|
  {
    var d := b + c - a;
    assert a + d == b + c && a !! d;
    assert |b + c| <= |b| + |c| by { assert b + c == b + (c - b); assert c == (c - b) + (c * b); }
  }

  /** A shutdown whose drain completes (`queue.join` returns) loses nothing: no line is lost by it, no handler run is
      cut off, and every line ever enqueued is resolved, unless an earlier kill lost it, or its second reading, due to
      an earlier kill, is still to come or has fallen to a rotation. */
  lemma DrainedShutdownLosesNothing(cfg: Config, sensors: nat, consumers: nat, acts: seq<Action>)
    requires Sound(cfg) && Run(cfg, Initial(sensors, consumers), acts).unfinished == 0
    ensures var s := Run(cfg, Initial(sensors, consumers), acts);
            var s' := Next(cfg, s, Kill);
            && s'.lost == s.lost && s'.cuts == s.cuts && |s.tails| == sensors
            && forall k, p :: 0 <= k < sensors && p in s.tails[k].log ==>
                 && T.ParsedAt(s.tails[k].files, p)
                 && var it := ItemAt(s.tails, k, p);
                    Resolved(cfg, s, it) || it in s.lost || it in s.orphans || ReadAgain(s.tails, it)
  {
    RunKeeps(cfg, sensors, consumers, acts);
    var s := Run(cfg, Initial(sensors, consumers), acts);
    BusyCountZero(s.consumers);
    CutNone(s.cuts, s.consumers);
    assert Held(s.consumers) == {};
    assert InProcess(s) == {};
  }

  lemma {:induction false} CutNone(cuts: Cuts, cs: seq<Consumer>)
    requires forall c :: 0 <= c < |cs| ==> cs[c].Free?
    ensures CutAll(cuts, cs) == cuts
    decreases |cs|
  {
    if cs != [] { CutNone(cuts, cs[..|cs| - 1]); }
  }

  /** Under any interleaving of consumers, replays, retries, faults and kills, a record with a parseable timestamp has
      at most one events row, and is published at most once. */
  lemma AtMostOneRow(cfg: Config, sensors: nat, consumers: nat, acts: seq<Action>, id: EventId)
    requires Sound(cfg) && id.shape.Event? && id.shape.ts.Some?
    ensures var s := Run(cfg, Initial(sensors, consumers), acts);
            && (forall i, j :: 0 <= i < j < |s.db.rows| ==> s.db.rows[i].key.id != id || s.db.rows[j].key.id != id)
            && s.db.sent[id] <= 1
  {
    RunKeeps(cfg, sensors, consumers, acts);
    var s := Run(cfg, Initial(sensors, consumers), acts);
    assert SentAtMost(s.db, s.consumers, id);
    RowsWithIdAtMostOne(s.db.rows, id);
  }

  lemma {:induction false} RowsWithIdAtMostOne(rows: seq<Row>, id: EventId)
    requires RowsFit(rows) && id.shape.Event? && id.shape.ts.Some?
    ensures RowsWithId(rows, id) <= 1
    ensures RowsWithId(rows, id) == 0 <==> forall i :: 0 <= i < |rows| ==> rows[i].key.id != id
  {
    if rows != [] {
      var front, last := rows[..|rows| - 1], rows[|rows| - 1];
      RowsWithIdAtMostOne(front, id);
      if last.key.id == id {
        assert forall i :: 0 <= i < |front| ==> rows[i] == front[i] && KeyFits(rows[i].key) && rows[i].key != last.key;
      } else {
        assert forall i :: 0 <= i < |front| ==> rows[i] == front[i];
      }
    }
  }

  /** Per source address: published events <= event_count <= stored rows, each gap being exactly the handler runs cut
      off, or still running, between the two effects. */
  lemma CountsLag(cfg: Config, sensors: nat, consumers: nat, acts: seq<Action>, ip: string)
    requires Sound(cfg)
    ensures var s := Run(cfg, Initial(sensors, consumers), acts);
            && s.db.published[ip] <= CountOf(s.db.counts, ip) <= RowsOf(s.db.rows, ip)
            && RowsOf(s.db.rows, ip) == CountOf(s.db.counts, ip) + s.cuts.beforeUpsert[ip]
              + InFlight(s.consumers, Inserted(ip))
            && CountOf(s.db.counts, ip) == s.db.published[ip] + s.cuts.beforePublish[ip]
              + InFlight(s.consumers, Upserted(ip))
  {
    RunKeeps(cfg, sensors, consumers, acts);
    var s := Run(cfg, Initial(sensors, consumers), acts);
    assert Balanced(s.db, s.cuts, s.consumers, ip);
  }

  /** In every reachable state each row holds an event whose address parses, is none of our own and is not private where
      private ones are dropped, under the canonical address and its own timestamp; nothing else was sent to the bus; and
      every address counted, published or queued for enrichment has such a row. So a line counted as discarded was not
      stored. */
  lemma OnlyWantedIsStored(cfg: Config, sensors: nat, consumers: nat, acts: seq<Action>, ip: string)
    requires Sound(cfg)
    ensures var db := Run(cfg, Initial(sensors, consumers), acts).db;
            && (forall i :: 0 <= i < |db.rows| ==>
                  var shape := db.rows[i].key.id.shape;
                  && shape.Event? && shape.address.Valid? && shape.ip !in cfg.rules.selfIps
                  && !(cfg.rules.dropPrivate && shape.address.isPrivate)
                  && db.rows[i].ip == shape.address.canonical
                  && (shape.ts.Some? ==> db.rows[i].key.ts == shape.ts.value))
            && (forall id :: id in db.sent ==> Wanted(cfg.rules, id.shape))
            && (ip in db.counts || db.published[ip] > 0 || db.queued[ip] > 0 ==>
                  exists i :: 0 <= i < |db.rows| && db.rows[i].ip == ip)
            && (forall it :: Discarded(cfg, it) ==> !Stored(db.rows, it) && db.sent[IdOf(it.sensor, it.record)] == 0)
  {
    RunKeeps(cfg, sensors, consumers, acts);
    RunLawful(cfg, sensors, consumers, acts);
    var s := Run(cfg, Initial(sensors, consumers), acts);
    assert Balanced(s.db, s.cuts, s.consumers, ip);
    CountedRow(s.db.rows, ip);
    forall i | 0 <= i < |s.db.rows| ensures LawfulRow(cfg.rules, s.db.rows[i]) && KeyFits(s.db.rows[i].key) {}
    forall it | Discarded(cfg, it) ensures !Stored(s.db.rows, it) && s.db.sent[IdOf(it.sensor, it.record)] == 0 {
      assert IdOf(it.sensor, it.record).shape == it.record.shape;
    }
  }

  /** An address is queued for enrichment at most once, and one with an ips row is missing from that queue exactly when
      the run that created the row was cut off, or is still on its way there. */
  lemma QueuedOnce(cfg: Config, sensors: nat, consumers: nat, acts: seq<Action>, ip: string)
    requires Sound(cfg)
    ensures var s := Run(cfg, Initial(sensors, consumers), acts);
            && s.db.queued[ip] <= 1
            && (ip in s.db.counts ==>
                  (s.db.queued[ip] == 0 <==> s.cuts.beforeEnqueue[ip] + InFlight(s.consumers, New(ip)) == 1))
  {
    RunKeeps(cfg, sensors, consumers, acts);
    var s := Run(cfg, Initial(sensors, consumers), acts);
    assert Balanced(s.db, s.cuts, s.consumers, ip);
  }

  /** In every reachable state, inserting a stored record again adds nothing if and only if its timestamp parses, or the
      clock reads exactly what an earlier insert of it read. */
  lemma ReplayCollapsesIff(cfg: Config, sensors: nat, consumers: nat, acts: seq<Action>, item: Item, ip: string,
                           now: int)
    requires Sound(cfg) && item.record.shape.Event? && Stored(Run(cfg, Initial(sensors, consumers), acts).db.rows, item)
    ensures var db := Run(cfg, Initial(sensors, consumers), acts).db;
            var ts := item.record.shape.ts;
            Commit(db, item, Insert(ip, ts), now).0 == db
            <==> ts.Some? || HasKey(db.rows, Key(now, IdOf(item.sensor, item.record)))
  {
    RunKeeps(cfg, sensors, consumers, acts);
    var db := Run(cfg, Initial(sensors, consumers), acts).db;
    var i :| 0 <= i < |db.rows| && db.rows[i].key.id == IdOf(item.sensor, item.record);
    assert KeyFits(db.rows[i].key);
  }
}
