/** The three indicator feeds (enrichment/feeds.py): a Postgres table per source and an in-memory index that answers
    lookups. `parse` is the given address parser: the canonical spelling of an address, or None for anything else. */
module Feeds {
  import opened Prelude

  type Parser = string -> Option<string>

  /** Canonical spellings are fixed points, as `host(indicator)` prints them. */
  ghost predicate Canonical(parse: Parser) {
    forall s :: parse(s).Some? ==> parse(parse(s).value) == parse(s)
  }

  function Get<M>(m: map<string, M>, k: string): Option<M> { if k in m then Some(m[k]) else None }

  /** INSERT .. ON CONFLICT DO NOTHING of one parsed row. */
  function Insert<M>(table: map<string, M>, ip: string, meta: M): map<string, M> {
    if ip in table then table else table[ip := meta]
  }

  function InsertBatch<M>(table: map<string, M>, batch: seq<(string, M)>): map<string, M> {
    if batch == [] then table
    else Insert(InsertBatch(table, batch[..|batch| - 1]), batch[|batch| - 1].0, batch[|batch| - 1].1)
  }

  /** The rows that parse, under their canonical spelling. */
  function ParsedRows<M>(parse: Parser, rows: seq<(string, M)>): seq<(string, M)> {
    if rows == [] then []
    else
      var (ind, meta) := rows[|rows| - 1];
      ParsedRows(parse, rows[..|rows| - 1]) + (if parse(ind).Some? then [(parse(ind).value, meta)] else [])
  }

  /** What a completed replacement leaves in the table for this source. */
  function Replaced<M>(parse: Parser, rows: seq<(string, M)>): map<string, M> {
    InsertBatch(map[], ParsedRows(parse, rows))
  }

  lemma {:induction false} InsertBatchAppend<M>(table: map<string, M>, xs: seq<(string, M)>, ys: seq<(string, M)>)
    ensures InsertBatch(table, xs + ys) == InsertBatch(InsertBatch(table, xs), ys)
  {
    if ys == [] {
      assert xs + ys == xs;
    } else {
      assert (xs + ys)[..|xs + ys| - 1] == xs + ys[..|ys| - 1];
      InsertBatchAppend(table, xs, ys[..|ys| - 1]);
    }
  }

  /** `executemany`. */
  method ExecuteMany<M>(table: map<string, M>, batch: seq<(string, M)>) returns (table': map<string, M>)
    ensures table' == InsertBatch(table, batch)
  {
    table' := table;
    for i := 0 to |batch|
      invariant table' == InsertBatch(table, batch[..i])
    {
      if batch[i].0 !in table' { table' := table'[batch[i].0 := batch[i].1]; }
      assert batch[..i + 1][..i] == batch[..i];
    }
    assert batch[..|batch|] == batch;
  }

  lemma ReplacedFront<M>(parse: Parser, rows: seq<(string, M)>)
    requires rows != []
    ensures var front := rows[..|rows| - 1];
            var (ind, meta) := rows[|rows| - 1];
            Replaced(parse, rows) == if parse(ind).Some? then Insert(Replaced(parse, front), parse(ind).value, meta)
                                     else Replaced(parse, front)
  {
    var front := rows[..|rows| - 1];
    var (ind, meta) := rows[|rows| - 1];
    if parse(ind).Some? {
      InsertBatchAppend(map[], ParsedRows(parse, front), [(parse(ind).value, meta)]);
      InsertOne(Replaced(parse, front), parse(ind).value, meta);
    } else {
      assert ParsedRows(parse, front) + [] == ParsedRows(parse, front);
    }
  }

  /** `_store`: whatever the chunk size, streaming the rows through in batches inside one transaction replaces the
      source's rows by exactly the parseable ones. */
  method Store<M>(parse: Parser, rows: seq<(string, M)>, chunk: int) returns (table: map<string, M>)
    ensures table == Replaced(parse, rows)
  {
    table := map[];
    var batch: seq<(string, M)> := [];
    for i := 0 to |rows|
      invariant InsertBatch(table, batch) == Replaced(parse, rows[..i])
    {
      var (ind, meta) := rows[i];
      assert rows[..i + 1][..i] == rows[..i];
      ReplacedFront(parse, rows[..i + 1]);
      if parse(ind).Some? {
        InsertBatchAppend(table, batch, [(parse(ind).value, meta)]);
        InsertOne(InsertBatch(table, batch), parse(ind).value, meta);
        batch := batch + [(parse(ind).value, meta)];
        if |batch| >= chunk {
          table := ExecuteMany(table, batch);
          batch := [];
        }
      }
    }
    assert rows[..|rows|] == rows;
    if batch != [] { table := ExecuteMany(table, batch); }
  }

  lemma InsertOne<M>(table: map<string, M>, ip: string, meta: M)
    ensures InsertBatch(table, [(ip, meta)]) == Insert(table, ip, meta)
  {
    assert [(ip, meta)][..0] == [];
  }

  // ───────────────────────── what is stored ─────────────────────────

  /** Row i is the first one naming address `ip`. */
  ghost predicate FirstNaming<M>(parse: Parser, rows: seq<(string, M)>, i: nat, ip: string) {
    i < |rows| && parse(rows[i].0) == Some(ip) && forall j :: 0 <= j < i ==> parse(rows[j].0) != Some(ip)
  }

  /** The table holds exactly the addresses some row names. */
  lemma {:induction false} ReplacedHas<M>(parse: Parser, rows: seq<(string, M)>, ip: string)
    ensures ip in Replaced(parse, rows) <==> exists i :: 0 <= i < |rows| && parse(rows[i].0) == Some(ip)
  {
    if rows != [] {
      var front, last := rows[..|rows| - 1], rows[|rows| - 1];
      ReplacedHas(parse, front, ip);
      ReplacedFront(parse, rows);
      assert rows == front + [last];
    }
  }

  /** Each address is stored with the data of the first row naming it. */
  lemma {:induction false} ReplacedFirst<M>(parse: Parser, rows: seq<(string, M)>, i: nat, ip: string)
    requires FirstNaming(parse, rows, i, ip)
    ensures Get(Replaced(parse, rows), ip) == Some(rows[i].1)
  {
    var front, last := rows[..|rows| - 1], rows[|rows| - 1];
    ReplacedFront(parse, rows);
    ReplacedHas(parse, front, ip);
    assert forall j :: 0 <= j < |front| ==> front[j] == rows[j];
    if i < |front| { ReplacedFirst(parse, front, i, ip); }
  }

  lemma FirstExists<M>(parse: Parser, rows: seq<(string, M)>, ip: string) returns (i: nat)
    requires exists k :: 0 <= k < |rows| && parse(rows[k].0) == Some(ip)
    ensures FirstNaming(parse, rows, i, ip)
  {
    i := 0;
    while parse(rows[i].0) != Some(ip)
      invariant i < |rows| && forall j :: 0 <= j < i ==> parse(rows[j].0) != Some(ip)
      decreases |rows| - i
    {
      i := i + 1;
    }
  }

  // ───────────────────────── table and index ─────────────────────────

  /** A downloaded feed as the dict the source builds: distinct spellings, in order. */
  ghost predicate IsDict<M>(rows: seq<(string, M)>) { forall i, j :: 0 <= i < j < |rows| ==> rows[i].0 != rows[j].0 }

  /** The in-memory index keeps the feed's own spellings. */
  function Index<M>(rows: seq<(string, M)>): map<string, M> {
    if rows == [] then map[] else Index(rows[..|rows| - 1])[rows[|rows| - 1].0 := rows[|rows| - 1].1]
  }

  lemma {:induction false} IndexIs<M>(rows: seq<(string, M)>, s: string)
    requires IsDict(rows)
    ensures s in Index(rows) <==> exists i :: 0 <= i < |rows| && rows[i].0 == s
    ensures forall i :: 0 <= i < |rows| && rows[i].0 == s ==> Get(Index(rows), s) == Some(rows[i].1)
  {
    if rows != [] {
      var front := rows[..|rows| - 1];
      assert forall j :: 0 <= j < |front| ==> rows[j] == front[j];
      IndexIs(front, s);
    }
  }

  /** Lookups of canonically spelled addresses answer as the table would. */
  ghost predicate Agrees<M>(parse: Parser, table: map<string, M>, mem: map<string, M>) {
    forall ip :: parse(ip) == Some(ip) ==> Get(mem, ip) == Get(table, ip)
  }

  /** The feed spells out canonically, with the same data, every address as it first names it. */
  ghost predicate WellSpelled<M(!new)>(parse: Parser, rows: seq<(string, M)>) {
    forall i: nat, ip: string :: FirstNaming(parse, rows, i, ip) ==> (ip, rows[i].1) in rows
  }

  /** How storing a download ends: committed; rolled back at any statement; or committed with the reply lost. */
  datatype Stored = Committed | RolledBack | ReplyLost

  /** Load at startup, refresh on schedule, process restart. `download` is None when downloading or parsing fails. */
  datatype Event<M> = Load(ok: bool) | Refresh(download: Option<seq<(string, M)>>, stored: Stored) | Restart

  /** What the index was last made from: nothing since the restart, the table as some download had filled it, or a
      download itself. */
  datatype Origin<M> = Nothing | FromTable(rows: seq<(string, M)>) | FromDownload(rows: seq<(string, M)>)

  /** History: the download the table was filled from, and where the index comes from. */
  datatype State<M> = State(table: map<string, M>, mem: map<string, M>, stored: seq<(string, M)>, index: Origin<M>)

  function Initial<M>(): State<M> { State(map[], map[], [], Nothing) }

  /** `refuseEmpty` holds for the Feodo list, which treats an empty download as a failure. */
  function Next<M>(parse: Parser, refuseEmpty: bool, s: State<M>, ev: Event<M>): State<M> {
    match ev
    case Load(ok) => if ok then s.(mem := s.table, index := FromTable(s.stored)) else s
    case Restart => s.(mem := map[], index := Nothing)
    case Refresh(None, _) => s
    case Refresh(Some(rows), stored) =>
      if refuseEmpty && rows == [] then s else
      match stored
      case Committed => State(Replaced(parse, rows), Index(rows), rows, FromDownload(rows))
      case RolledBack => s
      case ReplyLost => s.(table := Replaced(parse, rows), stored := rows)
  }

  function Run<M>(parse: Parser, refuseEmpty: bool, s: State<M>, evs: seq<Event<M>>): State<M> {
    if evs == [] then s
    else Next(parse, refuseEmpty, Run(parse, refuseEmpty, s, evs[..|evs| - 1]), evs[|evs| - 1])
  }

  ghost predicate Tracked<M>(parse: Parser, s: State<M>) {
    && s.table == Replaced(parse, s.stored)
    && s.mem == match s.index
                case Nothing => map[]
                case FromTable(rows) => Replaced(parse, rows)
                case FromDownload(rows) => Index(rows)
  }

  lemma {:induction false} RunTracks<M>(parse: Parser, refuseEmpty: bool, evs: seq<Event<M>>)
    ensures Tracked(parse, Run(parse, refuseEmpty, Initial(), evs))
  {
    if evs != [] { RunTracks(parse, refuseEmpty, evs[..|evs| - 1]); }
  }

  // ───────────────────────── what the events say ─────────────────────────

  predicate Accepted<M>(refuseEmpty: bool, ev: Event<M>) {
    ev.Refresh? && ev.download.Some? && !(refuseEmpty && |ev.download.value| == 0)
  }

  /** A load that goes through, or a refresh whose commit is known to have gone through. */
  predicate Makes<M>(refuseEmpty: bool, ev: Event<M>) {
    (ev.Load? && ev.ok) || (Accepted(refuseEmpty, ev) && ev.stored.Committed?)
  }

  /** A refresh that commits, whether that is known or not. */
  predicate Fills<M>(refuseEmpty: bool, ev: Event<M>) { Accepted(refuseEmpty, ev) && !ev.stored.RolledBack? }

  /** Event i is the last that made the index, and no restart came after it. */
  predicate LastMade<M>(refuseEmpty: bool, evs: seq<Event<M>>, i: nat) {
    && i < |evs| && Makes(refuseEmpty, evs[i])
    && forall j :: i < j < |evs| ==> !Makes(refuseEmpty, evs[j]) && !evs[j].Restart?
  }

  /** No event from i on filled the table. */
  predicate NoFill<M>(refuseEmpty: bool, evs: seq<Event<M>>, i: nat) {
    forall j :: i <= j < |evs| ==> !Fills(refuseEmpty, evs[j])
  }

  /** Every load and refresh that went through lies before some restart. */
  predicate Unmade<M>(refuseEmpty: bool, evs: seq<Event<M>>) {
    forall i :: 0 <= i < |evs| && Makes(refuseEmpty, evs[i]) ==> exists j :: i < j < |evs| && evs[j].Restart?
  }

  lemma UnmadeSnoc<M>(refuseEmpty: bool, evs: seq<Event<M>>)
    requires evs != []
    ensures var n := |evs| - 1;
            Unmade(refuseEmpty, evs)
            <==> !Makes(refuseEmpty, evs[n]) && (evs[n].Restart? || Unmade(refuseEmpty, evs[..n]))
  {
    var n := |evs| - 1;
    assert forall i :: 0 <= i < n ==> evs[..n][i] == evs[i];
    if Unmade(refuseEmpty, evs) && !evs[n].Restart? {
      forall i | 0 <= i < n && Makes(refuseEmpty, evs[..n][i]) ensures exists j :: i < j < n && evs[..n][j].Restart? {
        var j :| i < j < |evs| && evs[j].Restart?;
        assert evs[..n][j].Restart?;
      }
    }
    if !Makes(refuseEmpty, evs[n]) && Unmade(refuseEmpty, evs[..n]) {
      forall i | 0 <= i < |evs| && Makes(refuseEmpty, evs[i]) ensures exists j :: i < j < |evs| && evs[j].Restart? {
        assert Makes(refuseEmpty, evs[..n][i]);
        var j :| i < j < n && evs[..n][j].Restart?;
        assert evs[j].Restart?;
      }
    }
  }

  /** The index has not been made if and only if no load or committed refresh came through since the last restart. */
  lemma {:induction false} UnmadeIff<M>(parse: Parser, refuseEmpty: bool, evs: seq<Event<M>>)
    ensures Run(parse, refuseEmpty, Initial(), evs).index.Nothing? <==> Unmade(refuseEmpty, evs)
  {
    if evs != [] {
      UnmadeIff(parse, refuseEmpty, evs[..|evs| - 1]);
      UnmadeSnoc(refuseEmpty, evs);
    }
  }

  /** Otherwise it is what the last of them made it: the table as it then was, or the download. */
  lemma {:induction false} MadeFrom<M>(parse: Parser, refuseEmpty: bool, evs: seq<Event<M>>, i: nat)
    requires LastMade(refuseEmpty, evs, i)
    ensures Run(parse, refuseEmpty, Initial(), evs).index
         == if evs[i].Load? then FromTable(Run(parse, refuseEmpty, Initial(), evs[..i]).stored)
            else FromDownload(evs[i].download.value)
  {
    var n := |evs| - 1;
    if i < n {
      assert evs[..n][..i] == evs[..i];
      assert forall j :: 0 <= j < n ==> evs[..n][j] == evs[j];
      MadeFrom(parse, refuseEmpty, evs[..n], i);
    }
  }

  /** The table stays as some event left it until a refresh commits. */
  lemma {:induction false} FilledFrom<M>(parse: Parser, refuseEmpty: bool, evs: seq<Event<M>>, i: nat)
    requires i <= |evs| && NoFill(refuseEmpty, evs, i)
    ensures Run(parse, refuseEmpty, Initial(), evs).stored == Run(parse, refuseEmpty, Initial(), evs[..i]).stored
    ensures Run(parse, refuseEmpty, Initial(), evs).table == Run(parse, refuseEmpty, Initial(), evs[..i]).table
  {
    var n := |evs| - 1;
    if i <= n {
      assert evs[..n][..i] == evs[..i];
      assert forall j :: 0 <= j < n ==> evs[..n][j] == evs[j];
      FilledFrom(parse, refuseEmpty, evs[..n], i);
    } else {
      assert evs[..i] == evs;
    }
  }

  /** After any run, a load that goes through leaves the index with just the rows of the table. */
  lemma LoadAgrees<M(!new)>(parse: Parser, refuseEmpty: bool, evs: seq<Event<M>>)
    ensures var s := Run(parse, refuseEmpty, Initial(), evs);
            var s' := Run(parse, refuseEmpty, Initial(), evs + [Load(true)]);
            s'.mem == s'.table == s.table && Agrees(parse, s'.table, s'.mem)
  {
    assert (evs + [Load(true)])[..|evs|] == evs;
  }

  /** After any run, a refresh that commits leaves the index with just the spellings of the download, and the table with
      just the addresses it names, each with the data first given for it. */
  lemma RefreshReplaces<M(!new)>(parse: Parser, refuseEmpty: bool, evs: seq<Event<M>>, rows: seq<(string, M)>)
    requires IsDict(rows) && !(refuseEmpty && rows == [])
    ensures var s := Run(parse, refuseEmpty, Initial(), evs + [Refresh(Some(rows), Committed)]);
            && (forall i :: 0 <= i < |rows| ==> Get(s.mem, rows[i].0) == Some(rows[i].1))
            && (forall spelling :: spelling in s.mem ==> exists i :: 0 <= i < |rows| && rows[i].0 == spelling)
            && (forall ip :: ip in s.table <==> exists i :: 0 <= i < |rows| && parse(rows[i].0) == Some(ip))
            && (forall i: nat, ip: string :: FirstNaming(parse, rows, i, ip) ==> Get(s.table, ip) == Some(rows[i].1))
  {
    var all := evs + [Refresh(Some(rows), Committed)];
    assert all[..|evs|] == evs;
    forall i | 0 <= i < |rows| ensures Get(Index(rows), rows[i].0) == Some(rows[i].1) { IndexIs(rows, rows[i].0); }
    forall spelling | spelling in Index(rows) ensures exists i :: 0 <= i < |rows| && rows[i].0 == spelling {
      IndexIs(rows, spelling);
    }
    forall ip ensures ip in Replaced(parse, rows) <==> exists i :: 0 <= i < |rows| && parse(rows[i].0) == Some(ip) {
      ReplacedHas(parse, rows, ip);
    }
    forall i: nat, ip | FirstNaming(parse, rows, i, ip) ensures Get(Replaced(parse, rows), ip) == Some(rows[i].1) {
      ReplacedFirst(parse, rows, i, ip);
    }
  }

  // ───────────────────────── when the index answers as the table ─────────────────────────

  /** The download spells out canonically, with the same data, every address as `stored` first names it, and no address
      that `stored` does not name. */
  ghost predicate Mirrors<M(!new)>(parse: Parser, rows: seq<(string, M)>, stored: seq<(string, M)>) {
    && (forall i: nat, ip: string :: FirstNaming(parse, stored, i, ip) ==> (ip, stored[i].1) in rows)
    && (forall r :: r in rows && parse(r.0) == Some(r.0) ==>
          exists i :: 0 <= i < |stored| && parse(stored[i].0) == Some(r.0))
  }

  lemma MirrorsIff<M(!new)>(parse: Parser, rows: seq<(string, M)>, stored: seq<(string, M)>)
    requires Canonical(parse) && IsDict(rows)
    ensures Agrees(parse, Replaced(parse, stored), Index(rows)) <==> Mirrors(parse, rows, stored)
  {
    if Mirrors(parse, rows, stored) { MirrorsAgrees(parse, rows, stored); }
    if Agrees(parse, Replaced(parse, stored), Index(rows)) { AgreesMirrors(parse, rows, stored); }
  }

  lemma MirrorsAgrees<M(!new)>(parse: Parser, rows: seq<(string, M)>, stored: seq<(string, M)>)
    requires IsDict(rows) && Mirrors(parse, rows, stored)
    ensures Agrees(parse, Replaced(parse, stored), Index(rows))
  {
    forall ip | parse(ip) == Some(ip) ensures Get(Index(rows), ip) == Get(Replaced(parse, stored), ip) {
      ReplacedHas(parse, stored, ip);
      IndexIs(rows, ip);
      if ip in Index(rows) {
        var j :| 0 <= j < |rows| && rows[j].0 == ip;
        assert rows[j] in rows;
      }
      if ip in Replaced(parse, stored) {
        var i := FirstExists(parse, stored, ip);
        ReplacedFirst(parse, stored, i, ip);
        var j :| 0 <= j < |rows| && rows[j] == (ip, stored[i].1);
        assert rows[j].0 == ip;
      }
    }
  }

  lemma AgreesMirrors<M(!new)>(parse: Parser, rows: seq<(string, M)>, stored: seq<(string, M)>)
    requires Canonical(parse) && IsDict(rows) && Agrees(parse, Replaced(parse, stored), Index(rows))
    ensures Mirrors(parse, rows, stored)
  {
    forall i: nat, ip | FirstNaming(parse, stored, i, ip) ensures (ip, stored[i].1) in rows {
      ReplacedFirst(parse, stored, i, ip);
      IndexIs(rows, ip);
      assert parse(ip) == Some(ip);
      assert Get(Index(rows), ip) == Some(stored[i].1);
      var j :| 0 <= j < |rows| && rows[j].0 == ip;
      assert rows[j] == (ip, stored[i].1);
    }
    forall r | r in rows && parse(r.0) == Some(r.0)
      ensures exists i :: 0 <= i < |stored| && parse(stored[i].0) == Some(r.0)
    {
      IndexIs(rows, r.0);
      ReplacedHas(parse, stored, r.0);
      assert Get(Index(rows), r.0) == Get(Replaced(parse, stored), r.0);
    }
  }

  /** After a refresh the index agrees with the table if and only if the download was well spelled: the index keeps
      whatever spelling the feed used, while the table keeps the address. */
  lemma RefreshAgreesIff<M(!new)>(parse: Parser, rows: seq<(string, M)>)
    requires Canonical(parse) && IsDict(rows)
    ensures Agrees(parse, Replaced(parse, rows), Index(rows)) <==> WellSpelled(parse, rows)
  {
    MirrorsIff(parse, rows, rows);
    assert Mirrors(parse, rows, rows) <==> WellSpelled(parse, rows) by {
      forall r | r in rows && parse(r.0) == Some(r.0)
        ensures exists i :: 0 <= i < |rows| && parse(rows[i].0) == Some(r.0)
      {
        var j :| 0 <= j < |rows| && rows[j] == r;
      }
    }
  }

  lemma TablesAgreeIff<M(!new)>(parse: Parser, rows: seq<(string, M)>, stored: seq<(string, M)>)
    requires Canonical(parse)
    ensures Agrees(parse, Replaced(parse, stored), Replaced(parse, rows))
       <==> Replaced(parse, rows) == Replaced(parse, stored)
  {
    var t, m := Replaced(parse, stored), Replaced(parse, rows);
    if Agrees(parse, t, m) {
      forall ip ensures Get(m, ip) == Get(t, ip) {
        ReplacedHas(parse, rows, ip);
        ReplacedHas(parse, stored, ip);
      }
      SameMaps(m, t);
    }
  }

  lemma SameMaps<M(!new)>(m: map<string, M>, t: map<string, M>)
    requires forall ip :: Get(m, ip) == Get(t, ip)
    ensures m == t
  {
    assert forall ip :: ip in m <==> Get(m, ip).Some?;
    assert forall ip :: ip in t <==> Get(t, ip).Some?;
    assert forall ip :: ip in m ==> Get(m, ip) == Some(m[ip]) && Get(t, ip) == Some(t[ip]);
  }

  /** The exact condition, for every state of every run, whatever has failed: an index that was never made agrees with
      the table iff no stored row names an address; one loaded from the table, iff the table still has the same content
      (a commit whose reply was lost may have changed it); one made from a download, iff that download mirrors what is
      stored. Only the latter download need be a dict, and no other download matters. */
  lemma AgreesIff<M(!new)>(parse: Parser, refuseEmpty: bool, evs: seq<Event<M>>)
    requires Canonical(parse)
    requires var s := Run(parse, refuseEmpty, Initial(), evs); s.index.FromDownload? ==> IsDict(s.index.rows)
    ensures var s := Run(parse, refuseEmpty, Initial(), evs);
            Agrees(parse, s.table, s.mem)
            <==> match s.index
                 case Nothing => forall i :: 0 <= i < |s.stored| ==> parse(s.stored[i].0).None?
                 case FromTable(rows) => Replaced(parse, rows) == Replaced(parse, s.stored)
                 case FromDownload(rows) => Mirrors(parse, rows, s.stored)
  {
    RunTracks(parse, refuseEmpty, evs);
    var s := Run(parse, refuseEmpty, Initial(), evs);
    match s.index
    case Nothing => EmptyAgreesIff(parse, s.stored);
    case FromTable(rows) => TablesAgreeIff(parse, rows, s.stored);
    case FromDownload(rows) => MirrorsIff(parse, rows, s.stored);
  }

  lemma EmptyAgreesIff<M(!new)>(parse: Parser, stored: seq<(string, M)>)
    requires Canonical(parse)
    ensures Agrees(parse, Replaced(parse, stored), map[])
       <==> forall i :: 0 <= i < |stored| ==> parse(stored[i].0).None?
  {
    var t := Replaced(parse, stored);
    if i :| 0 <= i < |stored| && parse(stored[i].0).Some? {
      var ip := parse(stored[i].0).value;
      ReplacedHas(parse, stored, ip);
      assert parse(ip) == Some(ip) && Get(t, ip) != Get(map[], ip);
    } else {
      forall ip ensures ip !in t { ReplacedHas(parse, stored, ip); }
    }
  }

  /** As long as no restart, load or refresh that goes through has followed event i, and no commit whose reply was lost:
      lookups of canonically spelled addresses answer as the stored table would if and only if event i was a load, or a
      refresh from a well-spelled download. Any event may have failed at any step before or since. */
  lemma LookupsAnswerAsTable<M(!new)>(parse: Parser, refuseEmpty: bool, evs: seq<Event<M>>, i: nat)
    requires Canonical(parse) && LastMade(refuseEmpty, evs, i) && NoFill(refuseEmpty, evs, i + 1)
    requires evs[i].Refresh? ==> IsDict(evs[i].download.value)
    ensures var s := Run(parse, refuseEmpty, Initial(), evs);
            Agrees(parse, s.table, s.mem) <==> evs[i].Load? || WellSpelled(parse, evs[i].download.value)
  {
    RunTracks(parse, refuseEmpty, evs);
    MadeFrom(parse, refuseEmpty, evs, i);
    FilledFrom(parse, refuseEmpty, evs, i + 1);
    assert evs[..i + 1][..i] == evs[..i];
    if evs[i].Refresh? { RefreshAgreesIff(parse, evs[i].download.value); }
  }

  /** A table only ever holds canonical spellings. */
  lemma TableIsCanonical<M(!new)>(parse: Parser, refuseEmpty: bool, evs: seq<Event<M>>, ip: string)
    requires Canonical(parse) && ip in Run(parse, refuseEmpty, Initial(), evs).table
    ensures parse(ip) == Some(ip)
  {
    RunTracks(parse, refuseEmpty, evs);
    ReplacedHas(parse, Run(parse, refuseEmpty, Initial(), evs).stored, ip);
  }

  /** A restart whose load fails leaves an empty index: it agrees with the table if and only if the table is empty. */
  lemma FailedLoadAgreesIff<M(!new)>(parse: Parser, refuseEmpty: bool, evs: seq<Event<M>>)
    requires Canonical(parse)
    ensures var s := Run(parse, refuseEmpty, Initial(), evs);
            var s' := Next(parse, refuseEmpty, Next(parse, refuseEmpty, s, Restart), Load(false));
            Agrees(parse, s'.table, s'.mem) <==> s.table == map[]
  {
    var s := Run(parse, refuseEmpty, Initial(), evs);
    if s.table != map[] {
      assert s.table.Keys != {};
      var ip :| ip in s.table;
      TableIsCanonical(parse, refuseEmpty, evs, ip);
      assert Get(s.table, ip) != Get(map[], ip);
    }
  }

  // ───────────────────────── a feed object ─────────────────────────

  class Feed<M(!new)> {
    const parse: Parser
    const refuseEmpty: bool
    var table: map<string, M>   // this source's rows in feed_indicators
    var mem: map<string, M>     // `_ips`, `_iocs` or `_decisions`

    constructor (parse: Parser, refuseEmpty: bool, table: map<string, M>)
      ensures this.parse == parse && this.refuseEmpty == refuseEmpty && this.table == table && mem == map[]
    {
      this.parse, this.refuseEmpty, this.table := parse, refuseEmpty, table;
      mem := map[];
    }

    method LoadRows(ok: bool)
      modifies this`mem
      ensures var s := Next(parse, refuseEmpty, State(old(table), old(mem), [], Nothing), Load(ok));
              mem == s.mem && table == s.table
      ensures mem == if ok then table else old(mem)
    {
      if ok { mem := table; }
    }

    /** A refresh that fails anywhere before its commit changes neither copy; one that commits replaces both. */
    method RefreshFrom(download: Option<seq<(string, M)>>, stored: Stored, chunk: int)
      modifies this
      ensures var s := Next(parse, refuseEmpty, State(old(table), old(mem), [], Nothing), Refresh(download, stored));
              table == s.table && mem == s.mem
      ensures download.None? || stored.RolledBack? || (refuseEmpty && download == Some([])) ==>
                table == old(table) && mem == old(mem)
      ensures download.Some? && download.value != [] && !stored.RolledBack? ==>
                table == Replaced(parse, download.value)
                && mem == if stored.Committed? then Index(download.value) else old(mem)
    {
      if download.None? { return; }
      var rows := download.value;
      if refuseEmpty && rows == [] { return; }
      var stocked := Store(parse, rows, chunk);
      if stored.RolledBack? { return; }
      table := stocked;
      if stored.ReplyLost? { return; }
      var index: map<string, M> := map[];
      for i := 0 to |rows|
        invariant index == Index(rows[..i])
      {
        index := index[rows[i].0 := rows[i].1];
        assert rows[..i + 1][..i] == rows[..i];
      }
      assert rows[..|rows|] == rows;
      mem := index;
    }
  }
}
