/** One tail over all its lifetimes (pipeline/ingestor.py, `tail`, `_resume_position`): what kills and restarts leave
    out, what they repeat, and in which order a file's lines first reach the queue. */
module Restarts {
  import opened Prelude
  import opened Records
  import opened Tails

  /** The parseable lines of `file[from..upto]` that no restart passed over, in file order. */
  function Owed(file: seq<Line>, inode: nat, from: nat, upto: int, skips: set<Place>): seq<Place>
    requires upto <= |file|
    decreases upto
  {
    if upto <= from then []
    else
      Owed(file, inode, from, upto - 1, skips)
      + (if file[upto - 1].Parsed? && Place(inode, upto - 1) !in skips then [Place(inode, upto - 1)] else [])
  }

  // ───────────────────────── invariants ─────────────────────────

  /** Files are remembered from the first entry on, and the current stretch begins no earlier. */
  ghost predicate EntriesFit(past: Past, spans: map<nat, Span>) {
    && (forall g :: g in spans <==> g in past.entry)
    && (forall g :: g in spans <==> g in past.news)
    && (forall g :: g in spans ==> past.entry[g] <= spans[g].first <= spans[g].next)
    && (forall p :: p in past.skips ==> p.inode in spans && past.entry[p.inode] <= p.index < spans[p.inode].first)
  }

  /** Between its first entry and the furthest line read, a file's parseable lines were enqueued or passed over by a
      restart, and never both. */
  ghost predicate KeptOrSkipped(files: seq<seq<Line>>, spans: map<nat, Span>, past: Past, log: set<Place>)
    requires EntriesFit(past, spans)
  {
    && (forall p :: p in log ==>
          p.inode in spans && past.entry[p.inode] <= p.index < spans[p.inode].next && p !in past.skips)
    && (forall p: Place :: p.inode in spans && past.entry[p.inode] <= p.index < spans[p.inode].next
          && ParsedAt(files, p)
          ==> p in log || p in past.skips)
  }

  /** The lines of a file first reach the queue in file order, each once. */
  ghost predicate NewsFits(files: seq<seq<Line>>, spans: map<nat, Span>, past: Past)
    requires EntriesFit(past, spans) && SpansFit(files, spans)
  {
    forall g :: g in spans ==> past.news[g] == Owed(files[g], g, past.entry[g], spans[g].next, past.skips)
  }

  ghost predicate PastFits(files: seq<seq<Line>>, spans: map<nat, Span>, past: Past, log: set<Place>) {
    && SpansFit(files, spans) && EntriesFit(past, spans)
    && KeptOrSkipped(files, spans, past, log) && NewsFits(files, spans, past)
  }

  /** A checkpoint never lies beyond the reading position, a file opened after the checkpointed one was entered at its
      start, and a tail that has no checkpoint is not repeating anything. */
  ghost predicate MarksFit(t: Tail) {
    && (t.disk.Some? && IsOpen(t.phase) && t.disk.value.inode == t.inode ==> t.disk.value.offset <= Done(t))
    && (t.disk.None? && IsOpen(t.phase) ==> t.inode in t.spans && Done(t) == t.spans[t.inode].next)
    && (t.disk.Some? ==> forall g :: g in t.spans && g > t.disk.value.inode ==> t.spans[g].first == 0)
  }

  ghost predicate Fits(t: Tail) { Covered(t) && MarksFit(t) && PastFits(t.files, t.spans, t.past, t.log) }

  lemma MarksStep(t: Tail, a: Action, every: nat)
    requires Covered(t) && MarksFit(t)
    ensures MarksFit(Next(t, a, every))
  {
    if Enabled(t, a) {
      match a
      case Open(_) =>
      case Reopen(_) =>
      case Read => MarksAdvance(t, a, every);
      case Put => MarksAdvance(t, a, every);
      case Account(_) => MarksSave(t, a, every);
      case CaughtUp(_) => MarksSave(t, a, every);
      case Append(_, _) =>
      case Create =>
      case Unlink =>
      case Poll =>
      case DrainEnd =>
      case Fail =>
    }
  }

  lemma MarksAdvance(t: Tail, a: Action, every: nat)
    requires Covered(t) && MarksFit(t) && Enabled(t, a) && (a.Read? || a.Put?)
    ensures MarksFit(Next(t, a, every))
  {
  }

  lemma MarksSave(t: Tail, a: Action, every: nat)
    requires Covered(t) && MarksFit(t) && Enabled(t, a) && (a.Account? || a.CaughtUp?)
    ensures MarksFit(Next(t, a, every))
  {
  }

  // Each step leaves files, spans and past alone, lets the files grow, enters a file, or moves past one line.

  lemma {:induction false} OwedSame(file: seq<Line>, file': seq<Line>, g: nat, from: nat, upto: int, skips: set<Place>,
                                    skips': set<Place>)
    requires upto <= |file| && file <= file'
    requires forall i: nat :: from <= i < upto ==> (Place(g, i) in skips <==> Place(g, i) in skips')
    ensures Owed(file, g, from, upto, skips) == Owed(file', g, from, upto, skips')
    decreases upto
  {
    if upto > from { OwedSame(file, file', g, from, upto - 1, skips, skips'); }
  }

  /** Skipped lines are owed to nobody. */
  lemma {:induction false} OwedSkips(file: seq<Line>, g: nat, from: nat, mid: nat, upto: nat, skips: set<Place>)
    requires from <= mid <= upto <= |file| && forall i :: mid <= i < upto ==> Place(g, i) in skips
    ensures Owed(file, g, from, upto, skips) == Owed(file, g, from, mid, skips)
  {
    if upto > mid { OwedSkips(file, g, from, mid, upto - 1, skips); }
  }

  lemma PastGrows(files: seq<seq<Line>>, files': seq<seq<Line>>, spans: map<nat, Span>, past: Past, log: set<Place>)
    requires PastFits(files, spans, past, log)
    requires |files| <= |files'| && forall g :: 0 <= g < |files| ==> files[g] <= files'[g]
    ensures PastFits(files', spans, past, log)
  {
    forall p: Place | p.inode in spans && past.entry[p.inode] <= p.index < spans[p.inode].next && ParsedAt(files', p)
      ensures p in log || p in past.skips
    {
      assert ParsedAt(files, p);
    }
    forall g | g in spans ensures past.news[g] == Owed(files'[g], g, past.entry[g], spans[g].next, past.skips) {
      OwedSame(files[g], files'[g], g, past.entry[g], spans[g].next, past.skips, past.skips);
    }
  }

  lemma EntriesEnter(past: Past, spans: map<nat, Span>, g: nat, at: nat)
    requires EntriesFit(past, spans) && (g in spans ==> spans[g].first <= at)
    ensures EntriesFit(Entered(past, spans, g, at), Enter(spans, g, at))
  {
  }

  lemma KeptEnter(files: seq<seq<Line>>, spans: map<nat, Span>, past: Past, log: set<Place>, g: nat, at: nat)
    requires EntriesFit(past, spans) && KeptOrSkipped(files, spans, past, log) && (g in spans ==> spans[g].first <= at)
    ensures EntriesFit(Entered(past, spans, g, at), Enter(spans, g, at))
    ensures KeptOrSkipped(files, Enter(spans, g, at), Entered(past, spans, g, at), log)
  {
    EntriesEnter(past, spans, g, at);
    var spans', past' := Enter(spans, g, at), Entered(past, spans, g, at);
    forall p: Place | p.inode in spans' && past'.entry[p.inode] <= p.index < spans'[p.inode].next && ParsedAt(files, p)
      ensures p in log || p in past'.skips
    {
      if p.inode == g && g in spans && p.index >= spans[g].next { assert p in Between(g, spans[g].next, at); }
    }
    forall p | p in log ensures p !in past'.skips {
      if g in spans { assert p !in Between(g, spans[g].next, at); }
    }
  }

  lemma NewsEnter(files: seq<seq<Line>>, spans: map<nat, Span>, past: Past, g: nat, at: nat)
    requires SpansFit(files, spans) && EntriesFit(past, spans) && NewsFits(files, spans, past)
    requires (g in spans ==> spans[g].first <= at) && g < |files| && at <= |files[g]|
    ensures SpansFit(files, Enter(spans, g, at)) && EntriesFit(Entered(past, spans, g, at), Enter(spans, g, at))
    ensures NewsFits(files, Enter(spans, g, at), Entered(past, spans, g, at))
  {
    EntriesEnter(past, spans, g, at);
    var spans', past' := Enter(spans, g, at), Entered(past, spans, g, at);
    forall f | f in spans' ensures past'.news[f] == Owed(files[f], f, past'.entry[f], spans'[f].next, past'.skips) {
      if f in spans {
        forall i: nat | past.entry[f] <= i < spans[f].next
          ensures Place(f, i) in past.skips <==> Place(f, i) in past'.skips
        {
          if g in spans { assert f == g ==> Place(f, i) !in Between(g, spans[g].next, at); }
        }
        OwedSame(files[f], files[f], f, past.entry[f], spans[f].next, past.skips, past'.skips);
        if f == g && spans[g].next < at {
          assert forall i :: spans[g].next <= i < at ==> Place(g, i) in Between(g, spans[g].next, at);
          OwedSkips(files[g], g, past.entry[g], spans[g].next, at, past'.skips);
        }
      }
    }
  }

  lemma PastEnters(files: seq<seq<Line>>, spans: map<nat, Span>, past: Past, log: set<Place>, g: nat, at: nat)
    requires PastFits(files, spans, past, log) && (g in spans ==> spans[g].first <= at) && g < |files|
        && at <= |files[g]|
    ensures PastFits(files, Enter(spans, g, at), Entered(past, spans, g, at), log)
  {
    KeptEnter(files, spans, past, log, g, at);
    NewsEnter(files, spans, past, g, at);
  }

  /** Passing one line that need not be enqueued. */
  lemma PastSkipsJunk(files: seq<seq<Line>>, spans: map<nat, Span>, past: Past, log: set<Place>, g: nat, next: nat)
    requires PastFits(files, spans, past, log) && g in spans && 0 < next <= |files[g]| && next <= spans[g].next + 1
    requires files[g][next - 1].Junk?
    ensures PastFits(files, Extend(spans, g, next), past, log)
  {
    EntriesExtend(past, spans, g, next, past);
    assert !ParsedAt(files, Place(g, next - 1));
    KeptExtend(files, spans, past, log, g, next, past, log);
    NewsExtend(files, spans, past, g, next, past);
  }

  lemma EntriesExtend(past: Past, spans: map<nat, Span>, g: nat, next: nat, past': Past)
    requires EntriesFit(past, spans) && past'.entry == past.entry && past'.skips == past.skips
        && past'.news.Keys == past.news.Keys
    ensures EntriesFit(past', Extend(spans, g, next))
  {
  }

  /** The file's enqueued lines grow by the line passed, if that is parseable and new. */
  lemma NewsExtend(files: seq<seq<Line>>, spans: map<nat, Span>, past: Past, g: nat, next: nat, past': Past)
    requires SpansFit(files, spans) && EntriesFit(past, spans) && NewsFits(files, spans, past)
    requires g in spans && 0 < next <= |files[g]| && next <= spans[g].next + 1
    requires past'.entry == past.entry && past'.skips == past.skips && EntriesFit(past', Extend(spans, g, next))
    requires past'.news == if next == spans[g].next + 1 && files[g][next - 1].Parsed?
                           then past.news[g := past.news[g] + [Place(g, next - 1)]] else past.news
    ensures SpansFit(files, Extend(spans, g, next)) && NewsFits(files, Extend(spans, g, next), past')
  {
    SpansExtend(files, spans, g, next);
    if next == spans[g].next + 1 {
      NewsNext(files, spans, past, g, past');
      NewsUpdated(files, spans, past, g, Extend(spans, g, next), past');
    } else {
      assert Extend(spans, g, next) == spans;
    }
  }

  lemma SpansExtend(files: seq<seq<Line>>, spans: map<nat, Span>, g: nat, next: nat)
    requires SpansFit(files, spans) && g in spans && next <= |files[g]|
    ensures SpansFit(files, Extend(spans, g, next))
  {
  }

  lemma NewsNext(files: seq<seq<Line>>, spans: map<nat, Span>, past: Past, g: nat, past': Past)
    requires SpansFit(files, spans) && EntriesFit(past, spans) && NewsFits(files, spans, past)
    requires g in spans && spans[g].next < |files[g]| && g in past'.news
    requires past'.news[g]
          == past.news[g] + (if files[g][spans[g].next].Parsed? then [Place(g, spans[g].next)] else [])
    ensures past'.news[g] == Owed(files[g], g, past.entry[g], spans[g].next + 1, past.skips)
  {
    assert Place(g, spans[g].next) !in past.skips;
    OwedOneMore(files[g], g, past.entry[g], spans[g].next + 1, past.skips);
  }

  /** One file's lines have moved on, and the others' are as they were. */
  lemma NewsUpdated(files: seq<seq<Line>>, spans: map<nat, Span>, past: Past, g: nat, spans': map<nat, Span>,
                    past': Past)
    requires SpansFit(files, spans) && EntriesFit(past, spans) && NewsFits(files, spans, past)
    requires SpansFit(files, spans') && EntriesFit(past', spans') && g in spans && g in spans'
    requires forall f :: f in spans' && f != g ==> f in spans && spans'[f] == spans[f] && past'.news[f] == past.news[f]
    requires past'.entry == past.entry && past'.skips == past.skips
    requires past'.news[g] == Owed(files[g], g, past.entry[g], spans'[g].next, past.skips)
    ensures NewsFits(files, spans', past')
  {
  }

  lemma OwedOneMore(file: seq<Line>, g: nat, from: nat, next: nat, skips: set<Place>)
    requires from < next <= |file| && Place(g, next - 1) !in skips
    ensures Owed(file, g, from, next, skips)
         == Owed(file, g, from, next - 1, skips) + (if file[next - 1].Parsed? then [Place(g, next - 1)] else [])
  {
  }

  /** The stretch grows by a line that is unparseable, known already, or enqueued now. */
  lemma KeptExtend(files: seq<seq<Line>>, spans: map<nat, Span>, past: Past, log: set<Place>, g: nat, next: nat,
                   past': Past, log': set<Place>)
    requires EntriesFit(past, spans) && KeptOrSkipped(files, spans, past, log) && g in spans
        && 0 < next <= spans[g].next + 1
    requires past'.entry == past.entry && past'.skips == past.skips && EntriesFit(past', Extend(spans, g, next))
    requires log <= log' <= log + {Place(g, next - 1)}
    requires log' != log ==> past.entry[g] <= next - 1 && Place(g, next - 1) !in past.skips
    requires ParsedAt(files, Place(g, next - 1)) && next == spans[g].next + 1 ==> Place(g, next - 1) in log'
    ensures KeptOrSkipped(files, Extend(spans, g, next), past', log')
  {
    var spans' := Extend(spans, g, next);
    forall p: Place | p.inode in spans' && past.entry[p.inode] <= p.index < spans'[p.inode].next && ParsedAt(files, p)
      ensures p in log' || p in past.skips
    {
      assert p == Place(g, next - 1) || p.index < spans[p.inode].next;
    }
  }

  /** Enqueueing one line: it is either a repeat or the next line of the file. */
  lemma PastPuts(files: seq<seq<Line>>, spans: map<nat, Span>, past: Past, log: set<Place>, g: nat, next: nat)
    requires PastFits(files, spans, past, log) && LogFits(files, spans, log)
    requires g in spans && 0 < next <= |files[g]| && spans[g].first < next <= spans[g].next + 1
    requires files[g][next - 1].Parsed?
    ensures PastFits(files, Extend(spans, g, next), Enqueued(past, log, Place(g, next - 1)), log + {Place(g, next - 1)})
  {
    var p := Place(g, next - 1);
    assert ParsedAt(files, p);
    if next <= spans[g].next {
      assert InSpan(spans, p) && p in log;
      assert log + {p} == log;
    } else {
      assert p !in log && p !in past.skips;
      NextIsNew(files, spans, past, log, g, next);
    }
  }

  lemma NextIsNew(files: seq<seq<Line>>, spans: map<nat, Span>, past: Past, log: set<Place>, g: nat, next: nat)
    requires PastFits(files, spans, past, log) && g in spans && next == spans[g].next + 1 && next <= |files[g]|
    requires files[g][next - 1].Parsed?
    ensures PastFits(files, Extend(spans, g, next), Enqueued(past, log, Place(g, next - 1)), log + {Place(g, next - 1)})
  {
    var p := Place(g, next - 1);
    assert p !in log && p !in past.skips;
    var past' := Enqueued(past, log, p);
    assert past'.news.Keys == past.news.Keys;
    EntriesExtend(past, spans, g, next, past');
    KeptExtend(files, spans, past, log, g, next, past', log + {p});
    NewsExtend(files, spans, past, g, next, past');
  }

  lemma PastStep(t: Tail, a: Action, every: nat)
    requires Fits(t)
    ensures var t' := Next(t, a, every); PastFits(t'.files, t'.spans, t'.past, t'.log)
  {
    if Enabled(t, a) {
      match a
      case Append(f, l) => PastGrows(t.files, t.files[f := t.files[f] + [l]], t.spans, t.past, t.log);
      case Create => PastGrows(t.files, t.files + [[]], t.spans, t.past, t.log);
      case Open(saved) => PastOpen(t, saved, every);
      case Reopen(saved) => PastEnters(t.files, t.spans, t.past, t.log, Current(t), 0);
      case Read => PastRead(t, every);
      case Put => PastPut(t, every);
      case Account(_) =>
      case CaughtUp(_) =>
      case Unlink =>
      case Poll =>
      case DrainEnd =>
      case Fail =>
    }
  }

  /** A restart enters a file no earlier than its current stretch; it passes lines over only without a checkpoint. */
  lemma OpensForward(t: Tail)
    requires Covered(t) && MarksFit(t) && t.files != []
    ensures var g := Current(t);
            var at := ResumePosition(t.disk, g, |t.files[g]|);
            && at <= |t.files[g]|
            && (g in t.spans ==> t.spans[g].first <= at)
            && (g in t.spans && t.disk.Some? ==> at <= t.spans[g].next)
  {
  }

  lemma PastOpen(t: Tail, saved: bool, every: nat)
    requires Fits(t) && Enabled(t, Open(saved))
    ensures var t' := Next(t, Open(saved), every); PastFits(t'.files, t'.spans, t'.past, t'.log)
  {
    OpensForward(t);
    var g := Current(t);
    PastEnters(t.files, t.spans, t.past, t.log, g, ResumePosition(t.disk, g, |t.files[g]|));
  }

  lemma PastRead(t: Tail, every: nat)
    requires Fits(t) && Enabled(t, Read)
    ensures var t' := Next(t, Read, every); PastFits(t'.files, t'.spans, t'.past, t'.log)
  {
    JustRead(t, every);
    if t.files[t.inode][t.offset].Junk? {
      PastSkipsJunk(t.files, t.spans, t.past, t.log, t.inode, t.offset + 1);
    }
  }

  /** What a read leaves alone. */
  lemma JustRead(t: Tail, every: nat)
    requires Enabled(t, Read)
    ensures var t', line := Next(t, Read, every), t.files[t.inode][t.offset];
            && t'.files == t.files && t'.past == t.past && t'.log == t.log
            && t'.spans == if line.Parsed? then t.spans else Extend(t.spans, t.inode, t.offset + 1)
  {
  }

  lemma PastPut(t: Tail, every: nat)
    requires Fits(t) && Enabled(t, Put)
    ensures var t' := Next(t, Put, every); PastFits(t'.files, t'.spans, t'.past, t'.log)
  {
    PastPuts(t.files, t.spans, t.past, t.log, t.inode, t.offset);
  }

  lemma FitsStep(t: Tail, a: Action, every: nat)
    requires Fits(t)
    ensures Fits(Next(t, a, every))
  {
    CoveredStep(t, a, every);
    MarksStep(t, a, every);
    PastStep(t, a, every);
  }

  lemma {:induction false} RunFits(acts: seq<Action>, every: nat)
    ensures Fits(Run(INITIAL, acts, every))
  {
    if acts != [] {
      RunFits(acts[..|acts| - 1], every);
      FitsStep(Run(INITIAL, acts[..|acts| - 1], every), acts[|acts| - 1], every);
    }
  }

  // ───────────────────────── across any number of kills and restarts ─────────────────────────

  lemma RunAppended(acts: seq<Action>, more: seq<Action>, every: nat)
    requires more != []
    ensures Run(INITIAL, acts + more, every)
         == Next(Run(INITIAL, acts + more[..|more| - 1], every), more[|more| - 1], every)
  {
    assert (acts + more)[..|acts + more| - 1] == acts + more[..|more| - 1];
  }

  lemma EntryStays(t: Tail, a: Action, every: nat, g: nat)
    requires Fits(t) && g in t.spans
    ensures var t' := Next(t, a, every);
            g in t'.spans && g in t'.past.entry && t'.past.entry[g] == t.past.entry[g]
              && t.spans[g].next <= t'.spans[g].next
  {
    if Enabled(t, a) {
      match a
      case Open(saved) => EntryOpens(t, saved, every, g);
      case Reopen(_) =>
      case Put => EntryReads(t, a, every, g);
      case Read => EntryReads(t, a, every, g);
      case _ =>
    }
  }

  lemma EntryReads(t: Tail, a: Action, every: nat, g: nat)
    requires g in t.past.entry && g in t.spans && (a.Put? || a.Read?)
    ensures var t' := Next(t, a, every);
            g in t'.spans && g in t'.past.entry && t'.past.entry[g] == t.past.entry[g]
              && t.spans[g].next <= t'.spans[g].next
  {
  }

  lemma EntryOpens(t: Tail, saved: bool, every: nat, g: nat)
    requires Fits(t) && g in t.spans && Enabled(t, Open(saved))
    ensures var t' := Next(t, Open(saved), every);
            g in t'.spans && g in t'.past.entry && t'.past.entry[g] == t.past.entry[g]
              && t.spans[g].next <= t'.spans[g].next
  {
    OpensForward(t);
  }

  /** Whatever fails and however often the tail is killed and restarted, where a file was first entered stands for good,
      and the furthest line read of it is never taken back. */
  lemma {:induction false} FirstStartStands(acts: seq<Action>, more: seq<Action>, every: nat, g: nat)
    requires g in Run(INITIAL, acts, every).spans
    ensures var t, t' := Run(INITIAL, acts, every), Run(INITIAL, acts + more, every);
            && g in t.past.entry && g in t'.spans && g in t'.past.entry && t'.past.entry[g] == t.past.entry[g]
            && t.spans[g].next <= t'.spans[g].next
  {
    RunFits(acts, every);
    if more == [] {
      assert acts + more == acts;
    } else {
      FirstStartStands(acts, more[..|more| - 1], every, g);
      RunFits(acts + more[..|more| - 1], every);
      RunAppended(acts, more, every);
      EntryStays(Run(INITIAL, acts + more[..|more| - 1], every), more[|more| - 1], every, g);
    }
  }

  predicate NothingUnread(file: seq<Line>, from: nat) { forall i :: from <= i < |file| ==> file[i].Junk? }

  /** Opening file g is safe: it has not been read before, a checkpoint is on disk, or nothing parseable was written
      beyond what was read of it. */
  predicate SafeOpen(t: Tail, a: Action, g: nat) {
    a.Open? && Enabled(t, a) && Current(t) == g && g in t.spans ==>
      t.disk.Some? || NothingUnread(t.files[g], t.spans[g].next)
  }

  predicate SafeRun(acts: seq<Action>, every: nat, g: nat) {
    acts == []
    || (SafeRun(acts[..|acts| - 1], every, g) && SafeOpen(Run(INITIAL, acts[..|acts| - 1], every), acts[|acts| - 1], g))
  }

  /** No restart has passed over a parseable line of file g. */
  ghost predicate NothingSkipped(t: Tail, g: nat) {
    forall p: Place :: p in t.past.skips && p.inode == g ==> !ParsedAt(t.files, p)
  }

  /** A single step passes over a parseable line of g if and only if it opens g unsafely. */
  lemma SkipStep(t: Tail, a: Action, every: nat, g: nat)
    requires Fits(t)
    ensures NothingSkipped(Next(t, a, every), g) <==> NothingSkipped(t, g) && SafeOpen(t, a, g)
  {
    if Enabled(t, a) && a.Open? {
      SkipOpen(t, a.saved, every, g);
    } else {
      FilesGrow(t, a, every);
      FilesKeepLines(t.files, Next(t, a, every).files, t.past.skips, t);
      NothingElseSkips(t, a, every);
    }
  }

  lemma NothingElseSkips(t: Tail, a: Action, every: nat)
    requires Fits(t) && !(Enabled(t, a) && a.Open?)
    ensures Next(t, a, every).past.skips == t.past.skips
  {
    match a
    case Open(_) =>
    case Reopen(_) =>
    case Put =>
    case Read =>
    case _ =>
  }

  lemma FilesKeepLines(files: seq<seq<Line>>, files': seq<seq<Line>>, skips: set<Place>, t: Tail)
    requires Fits(t) && t.files == files && t.past.skips == skips
    requires |files| <= |files'| && forall g :: 0 <= g < |files| ==> files[g] <= files'[g]
    ensures forall p :: p in skips ==> (ParsedAt(files, p) <==> ParsedAt(files', p))
  {
  }

  lemma SkipOpen(t: Tail, saved: bool, every: nat, g: nat)
    requires Fits(t) && Enabled(t, Open(saved))
    ensures NothingSkipped(Next(t, Open(saved), every), g) <==> NothingSkipped(t, g) && SafeOpen(t, Open(saved), g)
  {
    OpensForward(t);
    var f := Current(t);
    var at := ResumePosition(t.disk, f, |t.files[f]|);
    var t' := Next(t, Open(saved), every);
    if f in t.spans {
      var passed := Between(f, t.spans[f].next, at);
      assert t'.past.skips == t.past.skips + passed;
      assert forall p: Place :: p in passed <==> p.inode == f && t.spans[f].next <= p.index < at;
      if f == g && t.disk.None? {
        assert forall i: nat :: t.spans[f].next <= i < |t.files[f]| ==>
                 (t.files[f][i].Parsed? <==> ParsedAt(t.files, Place(f, i)));
        if !NothingUnread(t.files[f], t.spans[f].next) {
          var i :| t.spans[f].next <= i < |t.files[f]| && !t.files[f][i].Junk?;
          assert Place(f, i) in t'.past.skips && ParsedAt(t'.files, Place(f, i));
        }
      }
    }
  }

  lemma {:induction false} SkipsIff(acts: seq<Action>, every: nat, g: nat)
    ensures NothingSkipped(Run(INITIAL, acts, every), g) <==> SafeRun(acts, every, g)
  {
    if acts != [] {
      SkipsIff(acts[..|acts| - 1], every, g);
      RunFits(acts[..|acts| - 1], every);
      SkipStep(Run(INITIAL, acts[..|acts| - 1], every), acts[|acts| - 1], every, g);
    }
  }

  /** Every parseable line of file g from where it was first entered to the furthest line read has been enqueued. */
  ghost predicate GapFree(t: Tail, g: nat)
    requires g in t.spans && g in t.past.entry
  {
    forall i: nat :: t.past.entry[g] <= i < t.spans[g].next && ParsedAt(t.files, Place(g, i)) ==> Place(g, i) in t.log
  }

  /** Across any number of kills, restarts and failing saves, a file is enqueued without a gap if and only if each
      restart on it found a checkpoint on disk or no parseable line beyond what had been read. */
  lemma NoGapAcrossRestarts(acts: seq<Action>, every: nat, g: nat)
    requires g in Run(INITIAL, acts, every).spans
    ensures var t := Run(INITIAL, acts, every);
            && g in t.past.entry
            && (GapFree(t, g) <==> SafeRun(acts, every, g))
            && (IsOpen(t.phase) && t.inode == g ==> Done(t) <= t.spans[g].next)
  {
    RunFits(acts, every);
    SkipsIff(acts, every, g);
    var t := Run(INITIAL, acts, every);
    if GapFree(t, g) {
      forall p: Place | p in t.past.skips && p.inode == g ensures !ParsedAt(t.files, p) {
        assert p == Place(g, p.index);
      }
    }
  }

  /** In whatever way a file was read, its lines first reach the queue in file order and once each: exactly the
      parseable ones from the first entry to the furthest line read, but for those a restart passed over; all of them if
      every restart was safe. */
  lemma InOrderAcrossRestarts(acts: seq<Action>, every: nat, g: nat)
    requires g in Run(INITIAL, acts, every).spans
    ensures var t := Run(INITIAL, acts, every);
            && g < |t.files| && g in t.past.entry && g in t.past.news && t.spans[g].next <= |t.files[g]|
            && t.past.news[g] == Owed(t.files[g], g, t.past.entry[g], t.spans[g].next, t.past.skips)
            && (forall p: Place :: p.inode == g ==> (p in t.log <==> p in t.past.news[g]))
            && (SafeRun(acts, every, g) ==>
                  t.past.news[g] == Parseable(t.files[g], g, t.past.entry[g], t.spans[g].next))
  {
    RunFits(acts, every);
    SkipsIff(acts, every, g);
    var t := Run(INITIAL, acts, every);
    forall p: Place | p.inode == g ensures p in t.log <==> p in t.past.news[g] {
      OwedHas(t.files[g], g, t.past.entry[g], t.spans[g].next, t.past.skips, p);
    }
    if SafeRun(acts, every, g) { OwedAll(t.files, g, t.past.entry[g], t.spans[g].next, t.past.skips); }
  }

  lemma {:induction false} OwedHas(file: seq<Line>, g: nat, from: nat, upto: int, skips: set<Place>, p: Place)
    requires upto <= |file|
    ensures p in Owed(file, g, from, upto, skips)
       <==> p.inode == g && from <= p.index < upto && file[p.index].Parsed? && p !in skips
    decreases upto
  {
    if upto > from { OwedHas(file, g, from, upto - 1, skips, p); }
  }

  lemma {:induction false} OwedAll(files: seq<seq<Line>>, g: nat, from: nat, upto: int, skips: set<Place>)
    requires g < |files| && upto <= |files[g]|
    requires forall p: Place :: p in skips && p.inode == g ==> !ParsedAt(files, p)
    ensures Owed(files[g], g, from, upto, skips) == Parseable(files[g], g, from, upto)
    decreases upto
  {
    if upto > from {
      OwedAll(files, g, from, upto - 1, skips);
      assert files[g][upto - 1].Parsed? ==> ParsedAt(files, Place(g, upto - 1));
    }
  }

  /** At every moment of every run, a parseable line from where the checkpointed file was first entered up to the saved
      offset has been enqueued if and only if no restart passed it over; and if every restart was safe, it has been. */
  lemma CheckpointNeverPassesUnread(acts: seq<Action>, every: nat, i: nat)
    requires var t := Run(INITIAL, acts, every);
             && t.disk.Some? && t.disk.value.inode in t.past.entry
             && t.past.entry[t.disk.value.inode] <= i < t.disk.value.offset
               && ParsedAt(t.files, Place(t.disk.value.inode, i))
    ensures var t := Run(INITIAL, acts, every);
            var p := Place(t.disk.value.inode, i);
            && (p in t.log <==> p !in t.past.skips)
            && (SafeRun(acts, every, p.inode) ==> p in t.log)
  {
    RunFits(acts, every);
    SkipsIff(acts, every, Run(INITIAL, acts, every).disk.value.inode);
  }

  // ───────────────────────── what is read again ─────────────────────────

  /** The tail, or the restart of a dead tail on the files as they are, reads line p. */
  predicate Ahead(t: Tail, p: Place) {
    if t.phase.Closed? then false
    else if t.phase.Down? then
      && t.present && t.files != [] && p.inode == Current(t)
      && ResumePosition(t.disk, p.inode, |t.files[p.inode]|) <= p.index
    else p.inode == t.inode && Done(t) <= p.index
  }

  /** Neither the tail nor any restart of it reads line p any more. */
  predicate Behind(t: Tail, p: Place) {
    !Ahead(t, p) && !Ahead(t.(phase := Down), p) && (t.phase.Down? || p.inode <= t.inode)
  }

  /** The path has come to name another file than p's, or none, and no handle on p's file is open. */
  predicate MovedOn(t: Tail, p: Place) {
    if t.phase.Down? then t.files != [] && (Current(t) > p.inode || (Current(t) == p.inode && !t.present))
      else p.inode < t.inode
  }

  /** The path has moved on before any checkpoint passed line p. */
  predicate Abandoned(t: Tail, p: Place) {
    MovedOn(t, p) && !(t.disk.Some? && t.disk.value.inode == p.inode && p.index < t.disk.value.offset)
  }

  /** A line that is ahead stays ahead until it is put on the queue, its tail dies, or the path goes while it is. */
  lemma AheadStep(t: Tail, a: Action, every: nat, p: Place)
    requires Fits(t) && p in t.log && Ahead(t, p) && !a.Fail? && !(a.Unlink? && t.phase.Down?)
    ensures Ahead(Next(t, a, every), p) || (a.Put? && p == Place(t.inode, t.offset - 1))
  {
    if Enabled(t, a) {
      match a
      case Open(saved) => AheadOpens(t, saved, every, p);
      case Account(_) => AheadSaves(t, a, every, p);
      case CaughtUp(_) => AheadSaves(t, a, every, p);
      case Read => AheadReads(t, every, p);
      case Append(_, _) => AheadArrives(t, a, every, p);
      case Create => AheadArrives(t, a, every, p);
      case Put =>
      case _ =>
    }
  }

  lemma AheadArrives(t: Tail, a: Action, every: nat, p: Place)
    requires Fits(t) && Ahead(t, p) && p in t.log && Enabled(t, a) && (a.Append? || a.Create?)
    ensures Ahead(Next(t, a, every), p)
  {
  }

  /** Resuming enters the file where a line ahead of the restart is still ahead. */
  lemma AheadOpens(t: Tail, saved: bool, every: nat, p: Place)
    requires Enabled(t, Open(saved))
    ensures Ahead(Next(t, Open(saved), every), p) <==> Ahead(t, p)
  {
  }

  lemma AheadReads(t: Tail, every: nat, p: Place)
    requires Covered(t) && p in t.log && Ahead(t, p) && Enabled(t, Read)
    ensures Ahead(Next(t, Read, every), p)
  {
    if p == Place(t.inode, t.offset) { assert ParsedAt(t.files, p); }
  }

  lemma AheadSaves(t: Tail, a: Action, every: nat, p: Place)
    requires Covered(t) && p in t.log && Ahead(t, p) && (a.Account? || a.CaughtUp?)
    ensures Ahead(Next(t, a, every), p)
  {
  }

  /** Dying, or losing the path while dead, leaves a line that was ahead unread only if the path has moved on. */
  lemma AheadEnds(t: Tail, a: Action, every: nat, p: Place)
    requires Fits(t) && p in t.log && Ahead(t, p) && (a.Fail? || a.Unlink?)
    ensures Ahead(Next(t, a, every), p) || Abandoned(Next(t, a, every), p)
  {
  }

  lemma BehindStep(t: Tail, a: Action, every: nat, p: Place)
    requires Fits(t) && p in t.log && Behind(t, p)
    ensures Behind(Next(t, a, every), p)
  {
    if Enabled(t, a) {
      match a
      case Open(saved) => BehindOpens(t, saved, every, p);
      case Reopen(_) =>
      case Account(_) => BehindSaves(t, a, every, p);
      case CaughtUp(_) => BehindSaves(t, a, every, p);
      case Read => BehindReads(t, a, every, p);
      case Put => BehindReads(t, a, every, p);
      case _ => BehindRests(t, a, every, p);
    }
  }

  lemma BehindReads(t: Tail, a: Action, every: nat, p: Place)
    requires Fits(t) && p in t.log && Behind(t, p) && Enabled(t, a) && (a.Read? || a.Put?)
    ensures Behind(Next(t, a, every), p)
  {
  }

  lemma BehindRests(t: Tail, a: Action, every: nat, p: Place)
    requires Fits(t) && p in t.log && Behind(t, p)
    requires a.Append? || a.Unlink? || a.Create? || a.Poll? || a.DrainEnd? || a.Fail?
    ensures Behind(Next(t, a, every), p)
  {
  }

  lemma BehindOpens(t: Tail, saved: bool, every: nat, p: Place)
    requires Fits(t) && p in t.log && Behind(t, p) && Enabled(t, Open(saved))
    ensures Behind(Next(t, Open(saved), every), p)
  {
    OpensForward(t);
  }

  lemma BehindSaves(t: Tail, a: Action, every: nat, p: Place)
    requires Fits(t) && p in t.log && Behind(t, p) && Enabled(t, a) && (a.Account? || a.CaughtUp?)
    ensures Behind(Next(t, a, every), p)
  {
    SavedHere(t, a, every);
    BehindSaved(t, Next(t, a, every), p);
  }

  /** t' stands where t stands, with the checkpoint as it was or moved up to here. */
  ghost predicate Saved(t: Tail, t': Tail) {
    && IsOpen(t.phase) && IsOpen(t'.phase) && Done(t) == Done(t') == t.offset
    && t'.inode == t.inode && t'.files == t.files && t'.present == t.present
    && (t'.disk == t.disk || t'.disk == Some(Checkpoint(t.inode, t.offset)))
  }

  lemma SavedHere(t: Tail, a: Action, every: nat)
    requires Enabled(t, a) && (a.Account? || a.CaughtUp?)
    ensures Saved(t, Next(t, a, every))
  {
  }

  lemma BehindSaved(t: Tail, t': Tail, p: Place)
    requires Covered(t) && Behind(t, p) && Saved(t, t')
    ensures Behind(t', p)
  {
  }

  lemma AbandonedStep(t: Tail, a: Action, every: nat, p: Place)
    requires Fits(t) && Abandoned(t, p)
    ensures Abandoned(Next(t, a, every), p) && !Ahead(t, p)
  {
    if Enabled(t, a) {
      match a
      case Open(_) => AbandonedOpens(t, a, every, p);
      case Reopen(_) => AbandonedOpens(t, a, every, p);
      case Account(_) => AbandonedSaves(t, a, every, p);
      case CaughtUp(_) => AbandonedSaves(t, a, every, p);
      case _ =>
    }
  }

  lemma AbandonedOpens(t: Tail, a: Action, every: nat, p: Place)
    requires Covered(t) && Abandoned(t, p) && Enabled(t, a) && (a.Open? || a.Reopen?)
    ensures Abandoned(Next(t, a, every), p)
  {
  }

  lemma AbandonedSaves(t: Tail, a: Action, every: nat, p: Place)
    requires Covered(t) && Abandoned(t, p) && Enabled(t, a) && (a.Account? || a.CaughtUp?)
    ensures Abandoned(Next(t, a, every), p)
  {
  }

  /** A line below the checkpoint of its file is not read again. */
  lemma BelowCheckpoint(t: Tail, p: Place)
    requires Fits(t) && p in t.log && t.disk.Some? && t.disk.value.inode == p.inode && p.index < t.disk.value.offset
    ensures !Ahead(t, p)
  {
  }

  /** A kill followed by a restart on the same files leaves an enqueued line unread if and only if its file is not the
      newest, there is no checkpoint, or the line lies below the checkpoint of its file. */
  lemma RestartSkipsIff(t: Tail, saved: bool, every: nat, p: Place)
    requires Fits(t) && p in t.log && t.present && t.files != []
    ensures var t' := Next(Next(t, Fail, every), Open(saved), every);
            && t'.phase.Reading?
            && (t'.inode != p.inode || t'.offset > p.index
                <==> p.inode != Current(t) || t.disk.None?
                     || (t.disk.value.inode == p.inode && p.index < t.disk.value.offset))
            && (Ahead(t', p) <==> Ahead(Next(t, Fail, every), p))
  {
    AheadOpens(Next(t, Fail, every), saved, every, p);
  }

  // ───────────────────────── a restart that skips ─────────────────────────

  /** The first save fails, a line arrives, the process dies: the restart passes the line over, and the checkpoint it
      saves then lies beyond a line nobody ever enqueued. */
  lemma RestartCanSkip(every: nat, r: Record) returns (acts: seq<Action>)
    ensures var t := Run(INITIAL, acts, every);
            && t.disk == Some(Checkpoint(0, 1)) && t.past.entry == map[0 := 0]
            && ParsedAt(t.files, Place(0, 0)) && Place(0, 0) !in t.log && !SafeRun(acts, every, 0)
  {
    var arrived := [Create] + [Open(false)] + [Append(0, Parsed(r))];
    RunAppend([], Create, every);
    RunAppend([Create], Open(false), every);
    RunAppend([Create] + [Open(false)], Append(0, Parsed(r)), every);
    RunAppend(arrived, Fail, every);
    RunAppend(arrived + [Fail], Open(true), every);
    assert [] + [Create] == [Create];
    var t1 := Next(INITIAL, Create, every);
    assert t1 == INITIAL.(files := [[]], present := true);
    var t2 := Next(t1, Open(false), every);
    assert t2.files == [[]] && t2.present && t2.disk.None? && t2.phase.Reading? && t2.log == {};
    assert t2.spans == map[0 := Span(0, 0)] && t2.past.entry == map[0 := 0];
    var t4 := Next(Next(t2, Append(0, Parsed(r)), every), Fail, every);
    assert t2.files[0] + [Parsed(r)] == [Parsed(r)];
    assert t4.files == [[Parsed(r)]];
    acts := arrived + [Fail] + [Open(true)];
    assert Run(INITIAL, [Create], every) == t1;
    assert Run(INITIAL, [Create] + [Open(false)], every) == t2;
    assert Run(INITIAL, arrived, every) == Next(t2, Append(0, Parsed(r)), every);
    assert Run(INITIAL, arrived + [Fail], every) == t4;
    RunFits(acts, every);
    SkipsIff(acts, every, 0);
    assert Place(0, 0) in Between(0, 0, 1);
    assert ParsedAt([[Parsed(r)]], Place(0, 0));
  }
}
