/** One sensor's tail (pipeline/ingestor.py, `_tail_once`, `tail`, the checkpoint functions) as a state machine.
    Appends are whole lines, so an offset counts lines; inodes are never reused, so the k-th file ever created at
    the path has inode k. Every run is a sequence of actions; an action that is not enabled changes nothing. */
module Tails {
  import opened Prelude
  import opened Records

  datatype Checkpoint = Checkpoint(inode: nat, offset: nat)

  /** Where a log line lives. */
  datatype Place = Place(inode: nat, index: nat)

  /** Lines [first, next) of a file have been read, and the parseable ones among them enqueued. */
  datatype Span = Span(first: nat, next: nat)

  /** A file left behind by a live rotation: lines [from, upto) were read, `upto` being its length at the last empty
      read. */
  datatype Segment = Segment(inode: nat, from: nat, upto: nat)

  /** Where `_tail_once` stands. Reading: about to call readline; Holding: blocked in queue.put; Placed: put has
      returned, the line is not counted yet; Idle: sleeping after an empty read; Draining/DrainHolding: the same in
      the rotation drain; Closed: the rotated file is closed, the new one not open yet. */
  datatype Phase = Down | Reading | Holding | Placed | Idle | Draining | DrainHolding | Closed

  /** What is remembered of each file since it was first entered, never reset: where that was (`entry`), which of its
      lines a restart passed over (`skips`), and its enqueued lines in the order they were first enqueued (`news`). */
  datatype Past = Past(entry: map<nat, nat>, skips: set<Place>, news: map<nat, seq<Place>>)

  datatype Tail = Tail(
    files: seq<seq<Line>>,      // every file ever created at the path, by inode
    present: bool,              // whether the path currently names the newest of them
    disk: Option<Checkpoint>,   // the persisted checkpoint
    phase: Phase, inode: nat, offset: nat, unsaved: nat,
    // History, read by no step:
    spans: map<nat, Span>,      // per inode, the last stretch without a gap
    past: Past,                 // per inode, over all lifetimes
    log: set<Place>,            // every line ever enqueued
    start: nat,                 // where the open file was entered in this lifetime
    segments: seq<Segment>,     // files rotated away in this lifetime
    life: seq<Place>,           // what this lifetime has enqueued, in order
    allSaved: bool)             // no checkpoint write has failed

  /** What can happen; `saved` says whether the checkpoint write succeeds. Fail covers a raising tail, its
      cancellation and the death of the process: volatile state is gone. */
  datatype Action =
    | Append(file: nat, line: Line) | Unlink | Create
    | Open(saved: bool) | Read | Put | Account(saved: bool) | CaughtUp(saved: bool) | Poll
    | DrainEnd | Reopen(saved: bool) | Fail

  const INITIAL := Tail([], false, None, Down, 0, 0, 0, map[], Past(map[], {}, map[]), {}, 0, [], [], true)

  /** `_resume_position`: where a file of the given size is entered. */
  function ResumePosition(disk: Option<Checkpoint>, inode: nat, size: nat): nat {
    match disk
    case None => size
    case Some(c) => if c.inode != inode then 0 else if c.offset > size then 0 else c.offset
  }

  /** The checkpointed file is entered where it was left, one that has become shorter and any other from the start, and
      without a checkpoint at the end. */
  lemma ResumeIs(disk: Option<Checkpoint>, inode: nat, size: nat)
    ensures var at := ResumePosition(disk, inode, size);
            && at <= size && (disk.None? ==> at == size)
            && (disk.Some? && disk.value.inode == inode && disk.value.offset <= size ==> at == disk.value.offset)
            && (disk.Some? && (disk.value.inode != inode || disk.value.offset > size) ==> at == 0)
  {
  }

  function Current(t: Tail): nat requires t.files != [] { |t.files| - 1 }

  predicate IsOpen(p: Phase) { !p.Down? && !p.Closed? }

  /** The line handed out by the last readline is not enqueued yet. */
  predicate InHand(p: Phase) { p.Holding? || p.DrainHolding? }

  /** First line of the open file that is neither enqueued nor skipped as unparseable. */
  function Done(t: Tail): int { if InHand(t.phase) then t.offset - 1 else t.offset }

  predicate Enabled(t: Tail, a: Action) {
    match a
    case Append(f, _) => f < |t.files|
    case Unlink => t.present
    case Create => !t.present
    case Open(_) => t.phase.Down? && t.present && t.files != []
    case Read => (t.phase.Reading? || t.phase.Draining?) && t.inode < |t.files| && t.offset < |t.files[t.inode]|
    case Put => InHand(t.phase)
    case Account(_) => t.phase.Placed?
    case CaughtUp(_) => t.phase.Reading? && t.inode < |t.files| && t.offset >= |t.files[t.inode]|
    case Poll => t.phase.Idle?
    case DrainEnd => t.phase.Draining? && t.inode < |t.files| && t.offset >= |t.files[t.inode]|
    case Reopen(_) => t.phase.Closed? && t.present && t.files != []
    case Fail => true
  }

  function Save(t: Tail, saved: bool): Tail {
    if saved then t.(disk := Some(Checkpoint(t.inode, t.offset))) else t.(allSaved := false)
  }

  function Extend(spans: map<nat, Span>, inode: nat, next: nat): map<nat, Span> {
    if inode in spans && spans[inode].next < next then spans[inode := Span(spans[inode].first, next)] else spans
  }

  /** Entering a file inside what is already covered keeps the span; entering it beyond starts a new one. */
  function Enter(spans: map<nat, Span>, inode: nat, at: nat): map<nat, Span> {
    if inode in spans && spans[inode].first <= at <= spans[inode].next then spans else spans[inode := Span(at, at)]
  }

  function Between(inode: nat, from: nat, upto: nat): set<Place> { set i | from <= i < upto :: Place(inode, i) }

  /** Entering a file beyond what is covered passes over the lines in between. */
  function Entered(past: Past, spans: map<nat, Span>, inode: nat, at: nat): Past {
    if inode in past.entry && inode in spans then past.(skips := past.skips + Between(inode, spans[inode].next, at))
    else Past(past.entry[inode := at], past.skips, past.news[inode := []])
  }

  function Enqueued(past: Past, log: set<Place>, p: Place): Past {
    if p in log || p.inode !in past.news then past
    else past.(news := past.news[p.inode := past.news[p.inode] + [p]])
  }

  function DoOpen(t: Tail, saved: bool): Tail requires t.files != [] {
    var g := Current(t);
    var at := ResumePosition(t.disk, g, |t.files[g]|);
    Save(t.(phase := Reading, inode := g, offset := at, unsaved := 0, start := at, segments := [], life := [],
            spans := Enter(t.spans, g, at), past := Entered(t.past, t.spans, g, at)), saved)
  }

  /** readline returns a line: a parseable one is put on the queue, any other is only counted. */
  function DoRead(t: Tail): Tail
    requires Enabled(t, Read)
  {
    var t' := t.(offset := t.offset + 1);
    if t.files[t.inode][t.offset].Parsed?
    then t'.(phase := if t.phase.Reading? then Holding else DrainHolding)
    else t'.(phase := if t.phase.Reading? then Placed else Draining, spans := Extend(t.spans, t.inode, t.offset + 1))
  }

  function DoPut(t: Tail): Tail
    requires InHand(t.phase) && t.offset > 0
  {
    var p := Place(t.inode, t.offset - 1);
    t.(phase := if t.phase.Holding? then Placed else Draining, life := t.life + [p], log := t.log + {p},
       spans := Extend(t.spans, t.inode, t.offset), past := Enqueued(t.past, t.log, p))
  }

  function DoAccount(t: Tail, saved: bool, every: nat): Tail {
    var t' := t.(phase := Reading, unsaved := t.unsaved + 1);
    if t'.unsaved >= every then Save(t', saved).(unsaved := 0) else t'
  }

  function Next(t: Tail, a: Action, every: nat): Tail {
    if !Enabled(t, a) then t else
    match a
    case Append(f, l) => t.(files := t.files[f := t.files[f] + [l]])
    case Unlink => t.(present := false)
    case Create => t.(files := t.files + [[]], present := true)
    case Open(saved) => DoOpen(t, saved)
    case Read => DoRead(t)
    case Put => if t.offset > 0 then DoPut(t) else t
    case Account(saved) => DoAccount(t, saved, every)
    case CaughtUp(saved) => (if t.unsaved > 0 then Save(t, saved) else t).(phase := Idle, unsaved := 0)
    // os.stat raises while the path is missing; the handle is open, so the loop just goes on
    case Poll => t.(phase := if t.present && |t.files| != t.inode + 1 then Draining else Reading)
    case DrainEnd => t.(phase := Closed, segments := t.segments + [Segment(t.inode, t.start, t.offset)])
    case Reopen(saved) =>
      var g := Current(t);
      Save(t.(phase := Reading, inode := g, offset := 0, unsaved := 0, start := 0,
              spans := Enter(t.spans, g, 0), past := Entered(t.past, t.spans, g, 0)), saved)
    case Fail => t.(phase := Down)
  }

  function Run(t: Tail, acts: seq<Action>, every: nat): Tail {
    if acts == [] then t else Next(Run(t, acts[..|acts| - 1], every), acts[|acts| - 1], every)
  }

  /** The parseable lines of `file[from..upto]`, in file order. */
  function Parseable(file: seq<Line>, inode: nat, from: nat, upto: int): seq<Place>
    requires upto <= |file|
    decreases upto
  {
    if upto <= from then []
    else Parseable(file, inode, from, upto - 1) + (if file[upto - 1].Parsed? then [Place(inode, upto - 1)] else [])
  }

  ghost predicate SegmentsFit(files: seq<seq<Line>>, segs: seq<Segment>) {
    && (forall k :: 0 <= k < |segs| ==> segs[k].inode < |files| && segs[k].upto <= |files[segs[k].inode]|)
    && (forall k :: 0 < k < |segs| ==> segs[k].from == 0)
    && (forall j, k :: 0 <= j < k < |segs| ==> segs[j].inode < segs[k].inode)
  }

  function Flatten(files: seq<seq<Line>>, segs: seq<Segment>): seq<Place>
    requires forall k :: 0 <= k < |segs| ==> segs[k].inode < |files| && segs[k].upto <= |files[segs[k].inode]|
  {
    if segs == [] then []
    else
      var s := segs[|segs| - 1];
      Flatten(files, segs[..|segs| - 1]) + Parseable(files[s.inode], s.inode, s.from, s.upto)
  }

  // ───────────────────────── invariants ─────────────────────────

  predicate ParsedAt(files: seq<seq<Line>>, p: Place) {
    p.inode < |files| && p.index < |files[p.inode]| && files[p.inode][p.index].Parsed?
  }

  predicate InSpan(spans: map<nat, Span>, p: Place) {
    p.inode in spans && spans[p.inode].first <= p.index < spans[p.inode].next
  }

  ghost predicate SpansFit(files: seq<seq<Line>>, spans: map<nat, Span>) {
    forall g :: g in spans ==> g < |files| && spans[g].first <= spans[g].next <= |files[g]|
  }

  /** Everything parseable inside a span was enqueued, and only parseable lines are. */
  ghost predicate LogFits(files: seq<seq<Line>>, spans: map<nat, Span>, log: set<Place>) {
    && (forall p :: InSpan(spans, p) && ParsedAt(files, p) ==> p in log)
    && (forall p :: p in log ==> ParsedAt(files, p))
  }

  predicate DiskFits(disk: Option<Checkpoint>, spans: map<nat, Span>) {
    disk.Some? ==>
      && disk.value.inode in spans
      && spans[disk.value.inode].first <= disk.value.offset <= spans[disk.value.inode].next
  }

  ghost predicate PositionFits(t: Tail) {
    && (t.present ==> t.files != [])
    && (IsOpen(t.phase) ==>
          && t.inode < |t.files| && t.offset <= |t.files[t.inode]| && t.inode in t.spans
          && t.spans[t.inode].first <= t.start <= Done(t) <= t.spans[t.inode].next)
    && (InHand(t.phase) ==> t.offset > 0 && t.files[t.inode][t.offset - 1].Parsed?)
    && (!t.phase.Down? ==> forall g :: g in t.spans ==> g <= t.inode)
    && (t.phase.Draining? || t.phase.DrainHolding? || t.phase.Closed? ==> t.inode + 1 < |t.files|)
  }

  /** Coverage: spans lie inside their files, everything parseable in them was enqueued, and both the checkpoint and
      the tail's own position lie inside the span of their file. */
  ghost predicate Covered(t: Tail) {
    && SpansFit(t.files, t.spans)
    && LogFits(t.files, t.spans, t.log)
    && DiskFits(t.disk, t.spans)
    && PositionFits(t)
  }

  /** The lifetime's output is the rotated-away files' lines followed by lines [start, done) of file `g`. */
  ghost predicate OpenOrder(files: seq<seq<Line>>, segs: seq<Segment>, life: seq<Place>, g: nat, start: nat,
                            done: int) {
    && SegmentsFit(files, segs)
    && g < |files| && done <= |files[g]|
    && (segs != [] ==> start == 0 && segs[|segs| - 1].inode < g)
    && life == Flatten(files, segs) + Parseable(files[g], g, start, done)
  }

  ghost predicate ClosedOrder(files: seq<seq<Line>>, segs: seq<Segment>, life: seq<Place>, g: nat) {
    && SegmentsFit(files, segs)
    && segs != [] && segs[|segs| - 1].inode == g
    && life == Flatten(files, segs)
  }

  /** Order: what this lifetime enqueued is, file after file and in file order, exactly what it read. */
  ghost predicate InOrder(t: Tail) {
    && (IsOpen(t.phase) ==> OpenOrder(t.files, t.segments, t.life, t.inode, t.start, Done(t)))
    && (t.phase.Closed? ==> ClosedOrder(t.files, t.segments, t.life, t.inode))
  }

  /** Replay: while no checkpoint write failed, the checkpoint names the last file opened and trails by fewer than
      `every`. */
  ghost predicate Tight(t: Tail, every: nat) {
    t.allSaved ==>
      && (t.spans != map[] ==> t.disk.Some?)
      && (forall g :: g in t.spans ==> g <= t.disk.value.inode)
      && (!t.phase.Down? ==> t.disk.Some? && t.disk.value.inode == t.inode)
      && (t.phase.Reading? || t.phase.Holding? || t.phase.Placed? || t.phase.Idle? ==>
            && t.disk.value.offset + t.unsaved + (if t.phase.Holding? || t.phase.Placed? then 1 else 0) == t.offset
            && t.unsaved < every)
      && (t.disk.Some? && t.disk.value.inode in t.spans
            && (t.phase.Reading? || t.phase.Holding? || t.phase.Placed? || t.phase.Idle?
                || t.disk.value.inode + 1 == |t.files|)
          ==> t.spans[t.disk.value.inode].next <= t.disk.value.offset + every)
  }

  /** Moving the furthest line read on by one keeps the spans and the log in step. */
  lemma ExtendKeeps(files: seq<seq<Line>>, spans: map<nat, Span>, log: set<Place>, g: nat, next: nat)
    requires SpansFit(files, spans) && LogFits(files, spans, log)
    requires g in spans && next <= |files[g]| && next <= spans[g].next + 1
    requires next > 0 && ParsedAt(files, Place(g, next - 1)) ==> Place(g, next - 1) in log
    ensures SpansFit(files, Extend(spans, g, next)) && LogFits(files, Extend(spans, g, next), log)
  {
    var spans' := Extend(spans, g, next);
    forall p | InSpan(spans', p) && ParsedAt(files, p) ensures p in log {
      if !InSpan(spans, p) { assert p == Place(g, next - 1); }
    }
  }

  lemma EnterKeeps(files: seq<seq<Line>>, spans: map<nat, Span>, log: set<Place>, g: nat, at: nat)
    requires SpansFit(files, spans) && LogFits(files, spans, log) && g < |files| && at <= |files[g]|
    ensures SpansFit(files, Enter(spans, g, at)) && LogFits(files, Enter(spans, g, at), log)
  {
    var spans' := Enter(spans, g, at);
    assert forall p :: InSpan(spans', p) ==> InSpan(spans, p);
  }

  lemma GrowKeeps(files: seq<seq<Line>>, files': seq<seq<Line>>, spans: map<nat, Span>, log: set<Place>)
    requires SpansFit(files, spans) && LogFits(files, spans, log)
    requires |files| <= |files'|
    requires forall g :: 0 <= g < |files| ==> files[g] <= files'[g]
    ensures SpansFit(files', spans) && LogFits(files', spans, log)
  {
    forall p | InSpan(spans, p) && ParsedAt(files', p) ensures p in log { assert ParsedAt(files, p); }
    forall p | p in log ensures ParsedAt(files', p) { assert ParsedAt(files, p); }
  }

  lemma CoveredStep(t: Tail, a: Action, every: nat)
    requires Covered(t)
    ensures Covered(Next(t, a, every))
  {
    if Enabled(t, a) {
      match a
      case Append(f, l) => GrowKeeps(t.files, t.files[f := t.files[f] + [l]], t.spans, t.log);
      case Create => GrowKeeps(t.files, t.files + [[]], t.spans, t.log);
      case Open(saved) => CoveredOpen(t, saved, every);
      case Reopen(saved) => CoveredReopen(t, saved, every);
      case Read => CoveredRead(t, every);
      case Put => CoveredPut(t, every);
      case Account(saved) => CoveredAccount(t, saved, every);
      case CaughtUp(saved) => CoveredCaughtUp(t, saved, every);
      case Unlink =>
      case Poll =>
      case DrainEnd =>
      case Fail =>
    }
  }

  lemma CoveredOpen(t: Tail, saved: bool, every: nat)
    requires Covered(t) && Enabled(t, Open(saved))
    ensures Covered(Next(t, Open(saved), every))
  {
    var g := Current(t);
    EnterKeeps(t.files, t.spans, t.log, g, ResumePosition(t.disk, g, |t.files[g]|));
  }

  lemma CoveredReopen(t: Tail, saved: bool, every: nat)
    requires Covered(t) && Enabled(t, Reopen(saved))
    ensures Covered(Next(t, Reopen(saved), every))
  {
    EnterKeeps(t.files, t.spans, t.log, Current(t), 0);
  }

  lemma CoveredRead(t: Tail, every: nat)
    requires Covered(t) && Enabled(t, Read)
    ensures Covered(Next(t, Read, every))
  {
    if !t.files[t.inode][t.offset].Parsed? {
      ExtendKeeps(t.files, t.spans, t.log, t.inode, t.offset + 1);
    }
  }

  lemma CoveredPut(t: Tail, every: nat)
    requires Covered(t) && Enabled(t, Put)
    ensures Covered(Next(t, Put, every))
  {
    var log' := t.log + {Place(t.inode, t.offset - 1)};
    assert ParsedAt(t.files, Place(t.inode, t.offset - 1));
    assert LogFits(t.files, t.spans, log');
    ExtendKeeps(t.files, t.spans, log', t.inode, t.offset);
  }

  lemma CoveredAccount(t: Tail, saved: bool, every: nat)
    requires Covered(t) && Enabled(t, Account(saved))
    ensures Covered(Next(t, Account(saved), every))
  {
  }

  lemma CoveredCaughtUp(t: Tail, saved: bool, every: nat)
    requires Covered(t) && Enabled(t, CaughtUp(saved))
    ensures Covered(Next(t, CaughtUp(saved), every))
  {
  }

  lemma {:induction false} ParseableStable(file: seq<Line>, file': seq<Line>, g: nat, from: nat, upto: int)
    requires upto <= |file| && file <= file'
    ensures Parseable(file, g, from, upto) == Parseable(file', g, from, upto)
    decreases upto
  {
    if upto > from { ParseableStable(file, file', g, from, upto - 1); }
  }

  lemma {:induction false} FlattenStable(files: seq<seq<Line>>, files': seq<seq<Line>>, segs: seq<Segment>)
    requires |files| <= |files'| && forall g :: 0 <= g < |files| ==> files[g] <= files'[g]
    requires forall k :: 0 <= k < |segs| ==> segs[k].inode < |files| && segs[k].upto <= |files[segs[k].inode]|
    ensures forall k :: 0 <= k < |segs| ==> segs[k].upto <= |files'[segs[k].inode]|
    ensures Flatten(files, segs) == Flatten(files', segs)
  {
    if segs != [] {
      var s := segs[|segs| - 1];
      FlattenStable(files, files', segs[..|segs| - 1]);
      ParseableStable(files[s.inode], files'[s.inode], s.inode, s.from, s.upto);
    }
  }

  lemma InOrderStep(t: Tail, a: Action, every: nat)
    requires Covered(t) && InOrder(t)
    ensures InOrder(Next(t, a, every))
  {
    if Enabled(t, a) {
      match a
      case Append(f, l) => InOrderGrow(t, Next(t, a, every));
      case Create => InOrderGrow(t, Next(t, a, every));
      case Open(saved) => InOrderOpen(t, saved, every);
      case Reopen(saved) => InOrderReopen(t, saved, every);
      case Read => InOrderRead(t, every);
      case Put => InOrderPut(t, every);
      case DrainEnd => InOrderDrainEnd(t.files, t.segments, t.life, t.inode, t.start, t.offset);
      case Account(saved) => InOrderSave(t, a, every);
      case CaughtUp(saved) => InOrderSave(t, a, every);
      case Unlink =>
      case Poll =>
      case Fail =>
    }
  }

  lemma InOrderSave(t: Tail, a: Action, every: nat)
    requires InOrder(t) && Enabled(t, a) && (a.Account? || a.CaughtUp?)
    ensures InOrder(Next(t, a, every))
  {
    SavingMovesNothing(t, a, every);
    InOrderSame(t, Next(t, a, every));
  }

  ghost predicate SamePlace(t: Tail, t': Tail) {
    && IsOpen(t.phase) && IsOpen(t'.phase) && Done(t') == Done(t)
    && t'.files == t.files && t'.segments == t.segments && t'.life == t.life && t'.inode == t.inode
      && t'.start == t.start
  }

  lemma SavingMovesNothing(t: Tail, a: Action, every: nat)
    requires Enabled(t, a) && (a.Account? || a.CaughtUp?)
    ensures SamePlace(t, Next(t, a, every))
  {
  }

  lemma InOrderSame(t: Tail, t': Tail)
    requires InOrder(t) && SamePlace(t, t')
    ensures InOrder(t')
  {
  }

  lemma InOrderOpen(t: Tail, saved: bool, every: nat)
    requires Covered(t) && Enabled(t, Open(saved))
    ensures InOrder(Next(t, Open(saved), every))
  {
  }

  lemma InOrderReopen(t: Tail, saved: bool, every: nat)
    requires Covered(t) && InOrder(t) && Enabled(t, Reopen(saved))
    ensures InOrder(Next(t, Reopen(saved), every))
  {
  }

  /** Reading alone never changes what is owed to the queue: a parseable line stays in hand, junk is skipped. */
  lemma InOrderRead(t: Tail, every: nat)
    requires Covered(t) && InOrder(t) && Enabled(t, Read)
    ensures InOrder(Next(t, Read, every))
  {
    var file := t.files[t.inode];
    assert Parseable(file, t.inode, t.start, t.offset + 1)
        == Parseable(file, t.inode, t.start, t.offset)
           + (if file[t.offset].Parsed? then [Place(t.inode, t.offset)] else []);
  }

  lemma InOrderPut(t: Tail, every: nat)
    requires Covered(t) && InOrder(t) && Enabled(t, Put)
    ensures InOrder(Next(t, Put, every))
  {
    var file := t.files[t.inode];
    assert Parseable(file, t.inode, t.start, t.offset)
        == Parseable(file, t.inode, t.start, t.offset - 1) + [Place(t.inode, t.offset - 1)];
  }

  lemma InOrderDrainEnd(files: seq<seq<Line>>, segs: seq<Segment>, life: seq<Place>, g: nat, start: nat, done: nat)
    requires OpenOrder(files, segs, life, g, start, done)
    ensures ClosedOrder(files, segs + [Segment(g, start, done)], life, g)
  {
    var segs' := segs + [Segment(g, start, done)];
    assert segs'[..|segs|] == segs;
  }

  lemma InOrderGrow(t: Tail, t': Tail)
    requires InOrder(t) && t' == t.(files := t'.files, present := t'.present)
    requires |t.files| <= |t'.files| && forall g :: 0 <= g < |t.files| ==> t.files[g] <= t'.files[g]
    ensures InOrder(t')
  {
    if IsOpen(t.phase) {
      OpenGrow(t.files, t'.files, t.segments, t.life, t.inode, t.start, Done(t));
    } else if t.phase.Closed? {
      FlattenStable(t.files, t'.files, t.segments);
    }
  }

  lemma OpenGrow(files: seq<seq<Line>>, files': seq<seq<Line>>, segs: seq<Segment>, life: seq<Place>, g: nat,
                 start: nat, done: int)
    requires OpenOrder(files, segs, life, g, start, done)
    requires |files| <= |files'| && forall k :: 0 <= k < |files| ==> files[k] <= files'[k]
    ensures OpenOrder(files', segs, life, g, start, done)
  {
    FlattenStable(files, files', segs);
    ParseableStable(files[g], files'[g], g, start, done);
  }

  lemma TightStep(t: Tail, a: Action, every: nat)
    requires every >= 1 && Covered(t) && Tight(t, every)
    ensures Tight(Next(t, a, every), every)
  {
    if Enabled(t, a) {
      match a
      case Open(saved) => TightOpen(t, saved, every);
      case Read => TightAdvance(t, a, every);
      case Put => TightAdvance(t, a, every);
      case Account(saved) => TightAdvance(t, a, every);
      case Reopen(_) =>
      case CaughtUp(_) =>
      case Append(_, _) =>
      case Create =>
      case DrainEnd =>
      case Unlink =>
      case Poll =>
      case Fail =>
    }
  }

  lemma TightOpen(t: Tail, saved: bool, every: nat)
    requires every >= 1 && Covered(t) && Tight(t, every) && Enabled(t, Open(saved))
    ensures Tight(Next(t, Open(saved), every), every)
  {
  }

  lemma TightAdvance(t: Tail, a: Action, every: nat)
    requires every >= 1 && Covered(t) && Tight(t, every) && Enabled(t, a) && (a.Read? || a.Put? || a.Account?)
    ensures Tight(Next(t, a, every), every)
  {
  }

  /** Files only grow, and only a completed put adds to the log. */
  lemma FilesGrow(t: Tail, a: Action, every: nat)
    ensures var t' := Next(t, a, every);
            && |t.files| <= |t'.files|
            && (forall g :: 0 <= g < |t.files| ==> t.files[g] <= t'.files[g])
            && (!a.Put? ==> t'.log == t.log)
  {
    match a
    case Open(_) =>
    case Reopen(_) =>
    case Account(_) =>
    case CaughtUp(_) =>
    case _ =>
  }

  lemma LogGrows(t: Tail, a: Action, every: nat)
    ensures t.log <= Next(t, a, every).log
  {
    match a
    case Open(_) =>
    case Reopen(_) =>
    case Account(_) =>
    case CaughtUp(_) =>
    case _ =>
  }

  // ───────────────────────── what holds in every run ─────────────────────────

  /** Every state a run of one tail can reach keeps all three invariants. */
  lemma {:induction false} RunKeeps(acts: seq<Action>, every: nat)
    requires every >= 1
    ensures var t := Run(INITIAL, acts, every); Covered(t) && InOrder(t) && Tight(t, every)
  {
    if acts != [] {
      var before := Run(INITIAL, acts[..|acts| - 1], every);
      var a := acts[|acts| - 1];
      RunKeeps(acts[..|acts| - 1], every);
      CoveredStep(before, a, every);
      InOrderStep(before, a, every);
      TightStep(before, a, every);
    }
  }

  /** A restart leaves no gap in a file it had already read if and only if a checkpoint is on disk, or nothing was
      written since: without one the tail starts at end of file. */
  lemma RestartLeavesNoGapIff(acts: seq<Action>, saved: bool, every: nat)
    requires every >= 1
    requires var t := Run(INITIAL, acts, every); Enabled(t, Open(saved)) && Current(t) in t.spans
    ensures var t := Run(INITIAL, acts, every);
            var g := Current(t);
            Next(t, Open(saved), every).offset <= t.spans[g].next <==> t.disk.Some? || t.spans[g].next == |t.files[g]|
  {
    RunKeeps(acts, every);
  }

  /** If no checkpoint write failed, a restart leaves no gap and repeats at most `every` lines of the current file. */
  lemma RestartRepeatsAtMost(acts: seq<Action>, saved: bool, every: nat)
    requires every >= 1
    requires var t := Run(INITIAL, acts, every); t.allSaved && Enabled(t, Open(saved)) && Current(t) in t.spans
    ensures var t := Run(INITIAL, acts, every);
            0 <= t.spans[Current(t)].next - Next(t, Open(saved), every).offset <= every
  {
    RunKeeps(acts, every);
  }

  /** A lifetime's output: whole stretches of parseable lines, file after file in order, every file after the first
      from its start, and each file left behind in full up to its last empty read. */
  lemma LifetimeOutput(acts: seq<Action>, every: nat)
    requires every >= 1 && IsOpen(Run(INITIAL, acts, every).phase)
    ensures var t := Run(INITIAL, acts, every);
            OpenOrder(t.files, t.segments, t.life, t.inode, t.start, Done(t))
  {
    RunKeeps(acts, every);
  }

  /** Live rotation: when the drain ends, every parseable line the old file holds at that moment (from where this
      lifetime entered it) is the last thing enqueued, in file order; nothing more is enqueued before the new file is
      open, and that one is read from offset 0. */
  lemma RotationDrainsOldFile(acts: seq<Action>, wait: seq<Action>, saved: bool, every: nat)
    requires every >= 1 && Enabled(Run(INITIAL, acts, every), DrainEnd)
    requires forall k :: 0 <= k < |wait| ==> wait[k].Append? || wait[k].Unlink? || wait[k].Create?
    requires Enabled(Run(INITIAL, acts + [DrainEnd] + wait, every), Reopen(saved))
    ensures var t := Run(INITIAL, acts, every);
            var t' := Run(INITIAL, acts + [DrainEnd] + wait + [Reopen(saved)], every);
            && t.inode < |t.files| && SegmentsFit(t.files, t.segments)
            && t'.life
               == Flatten(t.files, t.segments) + Parseable(t.files[t.inode], t.inode, t.start, |t.files[t.inode]|)
            && t'.inode > t.inode && t'.offset == 0 && t'.phase.Reading?
            && t'.segments == t.segments + [Segment(t.inode, t.start, |t.files[t.inode]|)]
  {
    RunKeeps(acts, every);
    RunKeeps(acts + [DrainEnd] + wait, every);
    DrainEnds(Run(INITIAL, acts, every), every);
    RunAppend(acts, DrainEnd, every);
    WaitingEnqueuesNothing(acts + [DrainEnd], wait, every);
    ReopenStarts(Run(INITIAL, acts + [DrainEnd] + wait, every), saved, every);
    RunAppend(acts + [DrainEnd] + wait, Reopen(saved), every);
  }

  lemma RunAppend(acts: seq<Action>, a: Action, every: nat)
    ensures Run(INITIAL, acts + [a], every) == Next(Run(INITIAL, acts, every), a, every)
  {
    assert (acts + [a])[..|acts|] == acts;
  }

  lemma DrainEnds(t: Tail, every: nat)
    requires Covered(t) && InOrder(t) && Enabled(t, DrainEnd)
    ensures t.inode < |t.files| && SegmentsFit(t.files, t.segments)
    ensures var t' := Next(t, DrainEnd, every);
            && t'.inode == t.inode && t'.life == t.life
            && t'.segments == t.segments + [Segment(t.inode, t.start, |t.files[t.inode]|)]
            && t'.life
               == Flatten(t.files, t.segments) + Parseable(t.files[t.inode], t.inode, t.start, |t.files[t.inode]|)
  {
    assert OpenOrder(t.files, t.segments, t.life, t.inode, t.start, |t.files[t.inode]|);
  }

  lemma ReopenStarts(t: Tail, saved: bool, every: nat)
    requires Covered(t) && Enabled(t, Reopen(saved))
    ensures var t' := Next(t, Reopen(saved), every);
            t'.life == t.life && t'.segments == t.segments && t'.inode > t.inode && t'.offset == 0 && t'.phase.Reading?
  {
  }

  lemma {:induction false} WaitingEnqueuesNothing(acts: seq<Action>, wait: seq<Action>, every: nat)
    requires forall k :: 0 <= k < |wait| ==> wait[k].Append? || wait[k].Unlink? || wait[k].Create?
    ensures var t := Run(INITIAL, acts, every);
            var t' := Run(INITIAL, acts + wait, every);
            t'.life == t.life && t'.segments == t.segments && t'.phase == t.phase && t'.inode == t.inode
  {
    if wait == [] {
      assert acts + wait == acts;
    } else {
      WaitingEnqueuesNothing(acts, wait[..|wait| - 1], every);
      assert (acts + wait)[..|acts + wait| - 1] == acts + wait[..|wait| - 1];
    }
  }
}
