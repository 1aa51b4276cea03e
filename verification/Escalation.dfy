/** The scores and labels that only ever rise (analytics/engine.py, lines 82-90, 162-186 and 228-232;
    enrichment/worker.py, lines 198-202): every writer updates the ips row by GREATEST and by rank. */
module Escalation {
  import opened Prelude

  const CLASS_RANK := ["unknown", "prober", "scanner", "bruteforcer", "intruder", "exploiter"]

  /** `COALESCE(array_position(CLASS_RANK, cls), 0)`: positions count from 1, anything unlisted (NULL too) is 0. */
  function Rank(cls: Option<string>): nat {
    match cls
    case None => 0
    case Some(l) =>
      if l == "unknown" then 1 else if l == "prober" then 2 else if l == "scanner" then 3
      else if l == "bruteforcer" then 4 else if l == "intruder" then 5 else if l == "exploiter" then 6 else 0
  }

  /** Rank is the position in the list, so that it tells listed labels apart. */
  lemma RankIsPosition(l: string)
    ensures Rank(Some(l)) == 0 <==> l !in CLASS_RANK
    ensures Rank(Some(l)) > 0 ==> Rank(Some(l)) <= |CLASS_RANK| && CLASS_RANK[Rank(Some(l)) - 1] == l
  {
    if l in CLASS_RANK {
      var i :| 0 <= i < |CLASS_RANK| && CLASS_RANK[i] == l;
      assert i == 0 || i == 1 || i == 2 || i == 3 || i == 4 || i == 5;
    }
  }

  /** `CASE WHEN rank(new) >= rank(old) THEN new ELSE old END`. */
  function Escalate(old': Option<string>, cls: string): Option<string> {
    if Rank(Some(cls)) >= Rank(old') then Some(cls) else old'
  }

  /** The columns of an ips row that analytics and enrichment write. */
  datatype IpRow = IpRow(score: real, cls: Option<string>)

  /** The writers: a scan finding, an attack finding, a flushed profile, a positive enrichment. */
  datatype Write = ScanFound | AttackFound(kind: string) | ProfileFlushed(cls: string, score: real) | KnownAttacker

  function Score(w: Write): real {
    match w
    case ScanFound => 30.0
    case AttackFound(kind) =>
      if kind == "exploit" then 75.0 else if kind == "post_auth_exec" then 85.0
      else if kind == "cred_stuffing" then 55.0 else if kind == "bruteforce" then 45.0 else 40.0
    case ProfileFlushed(_, score) => score
    case KnownAttacker => 60.0
  }

  function Label(w: Write): Option<string> {
    match w
    case ScanFound => Some("scanner")
    case ProfileFlushed(cls, _) => Some(cls)
    case _ => None
  }

  /** One UPDATE; an address without a row is left without one. */
  function Apply(row: Option<IpRow>, w: Write): Option<IpRow> {
    if row.None? then None
    else Some(IpRow(if Score(w) > row.value.score then Score(w) else row.value.score,
                    if Label(w).Some? then Escalate(row.value.cls, Label(w).value) else row.value.cls))
  }

  function ApplyAll(row: Option<IpRow>, ws: seq<Write>): Option<IpRow> {
    if ws == [] then row else Apply(ApplyAll(row, ws[..|ws| - 1]), ws[|ws| - 1])
  }

  /** The row holds the greatest score and a label of the greatest rank among its start and everything written. */
  ghost predicate IsMaximum(start: IpRow, ws: seq<Write>, end: IpRow) {
    && end.score >= start.score && (forall w :: w in ws ==> end.score >= Score(w))
    && (end.score == start.score || exists w :: w in ws && end.score == Score(w))
    && Rank(end.cls) >= Rank(start.cls) && (forall w :: w in ws && Label(w).Some? ==> Rank(end.cls) >= Rank(Label(w)))
    && (end.cls == start.cls || exists w :: w in ws && Label(w).Some? && end.cls == Label(w))
  }

  /** Over all writers, in any order and with any repeats, an existing row ends up as the maximum of everything ever
      applied to it. */
  lemma {:induction false} RowIsMaximum(start: IpRow, ws: seq<Write>)
    ensures var end := ApplyAll(Some(start), ws); end.Some? && IsMaximum(start, ws, end.value)
  {
    if ws != [] {
      var front, last := ws[..|ws| - 1], ws[|ws| - 1];
      RowIsMaximum(start, front);
      var mid := ApplyAll(Some(start), front).value;
      var end := ApplyAll(Some(start), ws).value;
      assert ws == front + [last];
      assert last in ws;
      if mid.score != start.score {
        var w :| w in front && mid.score == Score(w);
        assert w in ws;
      }
      if mid.cls != start.cls {
        var w :| w in front && Label(w).Some? && mid.cls == Label(w);
        assert w in ws;
      }
      assert end.score == mid.score || end.score == Score(last);
      assert end.cls == mid.cls || end.cls == Label(last);
    }
  }

  /** What each writer makes sure of. */
  lemma WritersRaise(start: IpRow, ws: seq<Write>)
    ensures var end := ApplyAll(Some(start), ws);
            && end.Some?
            && (ScanFound in ws ==> end.value.score >= 30.0 && Rank(end.value.cls) >= 3)
            && (AttackFound("bruteforce") in ws ==> end.value.score >= 45.0)
            && (AttackFound("cred_stuffing") in ws ==> end.value.score >= 55.0)
            && (AttackFound("exploit") in ws ==> end.value.score >= 75.0)
            && (AttackFound("post_auth_exec") in ws ==> end.value.score >= 85.0)
            && (forall kind :: AttackFound(kind) in ws ==> end.value.score >= 40.0)
            && (KnownAttacker in ws ==> end.value.score >= 60.0)
            && (forall cls, score :: ProfileFlushed(cls, score) in ws ==>
                  end.value.score >= score && Rank(end.value.cls) >= Rank(Some(cls)))
            && (end.value.score == start.score || end.value.score in {30.0, 40.0, 45.0, 55.0, 60.0, 75.0, 85.0}
                || exists cls :: ProfileFlushed(cls, end.value.score) in ws)
            && (forall w :: w in ws && !w.ScanFound? && !w.ProfileFlushed? ==> Label(w).None?)
  {
    RowIsMaximum(start, ws);
    var end := ApplyAll(Some(start), ws).value;
    if end.score != start.score {
      var w :| w in ws && end.score == Score(w);
      if w.ProfileFlushed? { assert ProfileFlushed(w.cls, end.score) in ws; }
    }
    forall kind | AttackFound(kind) in ws ensures end.score >= 40.0 { assert Score(AttackFound(kind)) >= 40.0; }
    forall cls, score | ProfileFlushed(cls, score) in ws
      ensures end.score >= score && Rank(end.cls) >= Rank(Some(cls))
    {
      assert Label(ProfileFlushed(cls, score)) == Some(cls) && Score(ProfileFlushed(cls, score)) == score;
    }
    AttackScores(end.score, ws);
    if ScanFound in ws { assert Label(ScanFound) == Some("scanner"); }
  }

  lemma AttackScores(score: real, ws: seq<Write>)
    requires forall w :: w in ws ==> score >= Score(w)
    ensures AttackFound("bruteforce") in ws ==> score >= 45.0
    ensures AttackFound("cred_stuffing") in ws ==> score >= 55.0
    ensures AttackFound("exploit") in ws ==> score >= 75.0
    ensures AttackFound("post_auth_exec") in ws ==> score >= 85.0
  {
    assert |"exploit"| == 7 && |"post_auth_exec"| == 14 && |"cred_stuffing"| == 13 && |"bruteforce"| == 10;
  }

  predicate Listed(w: Write) { Label(w).Some? ==> Label(w).value in CLASS_RANK }

  /** Two histories with the same writes, however ordered and however often repeated, lead to the same row. */
  lemma OrderAndRepeatsDoNotMatter(start: IpRow, xs: seq<Write>, ys: seq<Write>)
    requires forall w :: w in xs <==> w in ys
    requires forall w :: w in xs ==> Listed(w)
    ensures ApplyAll(Some(start), xs) == ApplyAll(Some(start), ys)
  {
    RowIsMaximum(start, xs);
    RowIsMaximum(start, ys);
    var x, y := ApplyAll(Some(start), xs).value, ApplyAll(Some(start), ys).value;
    LabelsAgree(start, xs, ys, x, y);
  }

  lemma LabelsAgree(start: IpRow, xs: seq<Write>, ys: seq<Write>, x: IpRow, y: IpRow)
    requires (forall w :: w in xs <==> w in ys) && (forall w :: w in xs ==> Listed(w))
    requires IsMaximum(start, xs, x) && IsMaximum(start, ys, y)
    ensures x.cls == y.cls
  {
    assert Rank(x.cls) == Rank(y.cls);
    if x.cls.Some? { RankIsPosition(x.cls.value); }
    if y.cls.Some? { RankIsPosition(y.cls.value); }
    if x.cls != start.cls {
      var w :| w in xs && Label(w).Some? && x.cls == Label(w);
      RankIsPosition(Label(w).value);
    }
    if y.cls != start.cls {
      var w :| w in ys && Label(w).Some? && y.cls == Label(w);
      RankIsPosition(Label(w).value);
    }
  }

  /** No write ever lowers a row, and an address without a row gets none. */
  lemma {:induction false} NeverRegresses(row: Option<IpRow>, ws: seq<Write>)
    ensures row.None? ==> ApplyAll(row, ws).None?
    ensures row.Some? ==> ApplyAll(row, ws).Some? && ApplyAll(row, ws).value.score >= row.value.score
                          && Rank(ApplyAll(row, ws).value.cls) >= Rank(row.value.cls)
  {
    if ws != [] { NeverRegresses(row, ws[..|ws| - 1]); }
  }
}
