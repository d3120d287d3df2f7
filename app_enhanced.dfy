/** The valuation report: per-title lifecycle statistics (first and last
    timestamp, when the hype peaked, and where the peak falls between them),
    the preselected franchises and the franchise filter. */
module AppEnhanced {
  import opened Seqs
  import opened Text
  import opened App

  /** The lifecycle labels of `classify_peaker`. */
  datatype Lifecycle = NotApplicable | Instant | EarlyPeaker | MidPeaker | LatePeaker

  /** `classify_peaker`: no label for a title that never had hype, "Instant"
      when all its rows share one timestamp, otherwise by the relative
      position of its peak between its first and last timestamp. */
  function ClassifyPeaker(maxHype: real, peak: int, start: int, end: int): Lifecycle {
    if maxHype == 0.0 then NotApplicable
    else
      var duration := end - start;
      if duration == 0 then Instant
      else
        var peakPos := (peak - start) as real / duration as real;
        if peakPos < 0.33 then EarlyPeaker
        else if peakPos < 0.66 then MidPeaker
        else LatePeaker
  }

  lemma DivBelow(a: real, d: real, k: real)
    requires d > 0.0
    ensures a / d < k <==> a < k * d
  {
    assert (a / d) * d == a;
    if a / d < k {
      assert (a / d) * d < k * d;
    } else {
      assert (a / d) * d >= k * d;
    }
  }

  /** The same labels read off integer arithmetic: the peak lies in the first
      33% of the span, the next 33%, or the rest. */
  lemma ClassifyByIntegers(maxHype: real, peak: int, start: int, end: int)
    requires maxHype != 0.0 && start < end
    ensures ClassifyPeaker(maxHype, peak, start, end) == EarlyPeaker <==> 100 * (peak - start) < 33 * (end - start)
    ensures ClassifyPeaker(maxHype, peak, start, end) == MidPeaker <==>
      33 * (end - start) <= 100 * (peak - start) < 66 * (end - start)
    ensures ClassifyPeaker(maxHype, peak, start, end) == LatePeaker <==> 66 * (end - start) <= 100 * (peak - start)
  {
    var a, d := (peak - start) as real, (end - start) as real;
    DivBelow(a, d, 0.33);
    DivBelow(a, d, 0.66);
  }

  /** A title that peaked on its first day is an early peaker; one that
      peaked on its last day is a late peaker. */
  lemma PeakAtEnds(maxHype: real, start: int, end: int)
    requires maxHype != 0.0 && start < end
    ensures ClassifyPeaker(maxHype, start, start, end) == EarlyPeaker
    ensures ClassifyPeaker(maxHype, end, start, end) == LatePeaker
  {
    ClassifyByIntegers(maxHype, start, start, end);
    ClassifyByIntegers(maxHype, end, start, end);
  }

  /** Early, mid and late in that order. */
  function Stage(l: Lifecycle): nat {
    match l
    case EarlyPeaker => 0
    case MidPeaker => 1
    case _ => 2
  }

  /** A later peak never gets an earlier label. */
  lemma LaterPeakLaterStage(maxHype: real, p: int, q: int, start: int, end: int)
    requires maxHype != 0.0 && start < end && p <= q
    ensures Stage(ClassifyPeaker(maxHype, p, start, end)) <= Stage(ClassifyPeaker(maxHype, q, start, end))
  {
    ClassifyByIntegers(maxHype, p, start, end);
    ClassifyByIntegers(maxHype, q, start, end);
  }

  // Per-title statistics

  /** The rows of title t, in list order. */
  function RowsOf(rows: seq<Row>, t: string): (rs: seq<Row>)
    ensures forall r :: r in rs <==> r in rows && r.title == t
    decreases |rows|
  {
    if rows == [] then [] else
      var n := |rows| - 1;
      assert rows == rows[..n] + [rows[n]];
      RowsOf(rows[..n], t) + if rows[n].title == t then [rows[n]] else []
  }

  /** The positions in the frame of the rows of title t. */
  function Positions(rows: seq<Row>, t: string): seq<nat>
    decreases |rows|
  {
    if rows == [] then [] else
      var n := |rows| - 1;
      Positions(rows[..n], t) + if rows[n].title == t then [n] else []
  }

  /** The rows of t are the rows at their positions. */
  lemma {:induction false} PositionsMatch(rows: seq<Row>, t: string)
    ensures |Positions(rows, t)| == |RowsOf(rows, t)|
    ensures forall i :: 0 <= i < |Positions(rows, t)| ==>
      Positions(rows, t)[i] < |rows| && rows[Positions(rows, t)[i]] == RowsOf(rows, t)[i]
    decreases |rows|
  {
    if rows != [] {
      var n := |rows| - 1;
      var front := rows[..n];
      PositionsMatch(front, t);
      var p0, r0 := Positions(front, t), RowsOf(front, t);
      var pos, r := Positions(rows, t), RowsOf(rows, t);
      forall i | 0 <= i < |pos|
        ensures pos[i] < |rows| && rows[pos[i]] == r[i]
      {
        if i < |p0| {
          assert pos[i] == p0[i] && front[p0[i]] == r0[i] && r[i] == r0[i];
        }
      }
    }
  }

  /** Keeping the rows of one title keeps their order. */
  lemma {:induction false} PositionsIncrease(rows: seq<Row>, t: string)
    ensures forall i :: 0 <= i < |Positions(rows, t)| ==> Positions(rows, t)[i] < |rows|
    ensures forall i, j :: 0 <= i < j < |Positions(rows, t)| ==> Positions(rows, t)[i] < Positions(rows, t)[j]
    decreases |rows|
  {
    if rows != [] {
      var n := |rows| - 1;
      PositionsIncrease(rows[..n], t);
    }
  }

  /** Every row of the title is kept. */
  lemma {:induction false} PositionsComplete(rows: seq<Row>, t: string)
    ensures forall p :: 0 <= p < |rows| && rows[p].title == t ==> p in Positions(rows, t)
    decreases |rows|
  {
    if rows != [] {
      var n := |rows| - 1;
      var front := rows[..n];
      PositionsComplete(front, t);
      forall p | 0 <= p < n && rows[p].title == t
        ensures p in Positions(rows, t)
      {
        assert front[p] == rows[p];
      }
    }
  }

  /** `min` of the timestamps. */
  function FirstTimestamp(rs: seq<Row>): (m: int)
    requires rs != []
    ensures exists i :: 0 <= i < |rs| && rs[i].timestamp == m
    ensures forall i :: 0 <= i < |rs| ==> m <= rs[i].timestamp
    decreases |rs|
  {
    var n := |rs| - 1;
    if n == 0 then rs[0].timestamp
    else
      var m := FirstTimestamp(rs[..n]);
      assert forall i :: 0 <= i < n ==> rs[..n][i] == rs[i];
      if rs[n].timestamp < m then rs[n].timestamp else m
  }

  /** `max` of the timestamps. */
  function LastTimestamp(rs: seq<Row>): (m: int)
    requires rs != []
    ensures exists i :: 0 <= i < |rs| && rs[i].timestamp == m
    ensures forall i :: 0 <= i < |rs| ==> rs[i].timestamp <= m
    decreases |rs|
  {
    var n := |rs| - 1;
    if n == 0 then rs[0].timestamp
    else
      var m := LastTimestamp(rs[..n]);
      assert forall i :: 0 <= i < n ==> rs[..n][i] == rs[i];
      if rs[n].timestamp > m then rs[n].timestamp else m
  }

  /** `idxmax` of the hype: the first row holding the greatest hype. */
  function PeakIndex(rs: seq<Row>): (k: nat)
    requires rs != []
    ensures k < |rs|
    ensures forall i :: 0 <= i < |rs| ==> rs[i].hypeScore <= rs[k].hypeScore
    ensures forall i :: 0 <= i < k ==> rs[i].hypeScore < rs[k].hypeScore
    decreases |rs|
  {
    var n := |rs| - 1;
    if n == 0 then 0
    else
      var k := PeakIndex(rs[..n]);
      assert forall i :: 0 <= i < n ==> rs[..n][i] == rs[i];
      if rs[n].hypeScore > rs[k].hypeScore then n else k
  }

  /** One row of the statistics frame. */
  datatype TitleStats = TitleStats(title: string, startTs: int, endTs: int, peakTs: int, maxHype: real,
                                   lifecycle: Lifecycle)

  function StatsOf(rows: seq<Row>, t: string): TitleStats
    requires t in TitleColumn(rows)
  {
    var rs := RowsOf(rows, t);
    var i :| 0 <= i < |rows| && rows[i].title == t;
    assert rows[i] in rs;
    var start, end := FirstTimestamp(rs), LastTimestamp(rs);
    var peak := rs[PeakIndex(rs)];
    TitleStats(t, start, end, peak.timestamp, peak.hypeScore,
               ClassifyPeaker(peak.hypeScore, peak.timestamp, start, end))
  }

  /** A title's peak lies between its first and last timestamp, the peak
      hype is the greatest hype of the title, the peak is its first row with
      that hype (row j of the frame), and the lifecycle is the classification
      of that peak: a title whose rows share one timestamp is instant unless
      it never had hype. */
  lemma StatsShape(rows: seq<Row>, t: string) returns (j: nat)
    requires t in TitleColumn(rows)
    ensures var st := StatsOf(rows, t);
      && st.title == t
      && st.startTs <= st.peakTs <= st.endTs
      && (forall r :: r in rows && r.title == t ==> st.startTs <= r.timestamp <= st.endTs && r.hypeScore <= st.maxHype)
      && j < |rows| && rows[j].title == t
      && rows[j].timestamp == st.peakTs && rows[j].hypeScore == st.maxHype
      && (forall i :: 0 <= i < j && rows[i].title == t ==> rows[i].hypeScore < st.maxHype)
      && st.lifecycle == ClassifyPeaker(st.maxHype, st.peakTs, st.startTs, st.endTs)
      && (st.maxHype != 0.0 && st.startTs == st.endTs ==> st.lifecycle == Instant)
      && (st.maxHype == 0.0 ==> st.lifecycle == NotApplicable)
  {
    var rs := RowsOf(rows, t);
    var st := StatsOf(rows, t);
    forall r | r in rows && r.title == t
      ensures st.startTs <= r.timestamp <= st.endTs && r.hypeScore <= st.maxHype
    {
      assert r in rs;
      var q :| 0 <= q < |rs| && rs[q] == r;
    }
    j := FirstPeakRow(rows, t);
  }

  /** The row `idxmax` picks for title t, as a position of the whole frame:
      no earlier row of t has as much hype. */
  lemma FirstPeakRow(rows: seq<Row>, t: string) returns (j: nat)
    requires t in TitleColumn(rows)
    ensures RowsOf(rows, t) != []
    ensures j < |rows| && rows[j] == RowsOf(rows, t)[PeakIndex(RowsOf(rows, t))]
    ensures forall i :: 0 <= i < j && rows[i].title == t ==> rows[i].hypeScore < rows[j].hypeScore
  {
    var rs := RowsOf(rows, t);
    assert rs != [] by {
      var p :| 0 <= p < |rows| && rows[p].title == t;
      assert rows[p] in rs;
    }
    var k := PeakIndex(rs);
    var pos := Positions(rows, t);
    PositionsMatch(rows, t);
    PositionsIncrease(rows, t);
    PositionsComplete(rows, t);
    j := pos[k];
    FirstAmongKept(rows, t, rs, pos, k);
  }

  /** If the kept rows sit at increasing positions and no kept row before
      the k-th has as much hype, no row of t before that position has either. */
  lemma FirstAmongKept(rows: seq<Row>, t: string, rs: seq<Row>, pos: seq<nat>, k: nat)
    requires |pos| == |rs| && k < |rs|
    requires forall i :: 0 <= i < |pos| ==> pos[i] < |rows| && rows[pos[i]] == rs[i]
    requires forall i, j :: 0 <= i < j < |pos| ==> pos[i] < pos[j]
    requires forall p :: 0 <= p < |rows| && rows[p].title == t ==> p in pos
    requires forall i :: 0 <= i < k ==> rs[i].hypeScore < rs[k].hypeScore
    ensures forall i :: 0 <= i < pos[k] && rows[i].title == t ==> rows[i].hypeScore < rows[pos[k]].hypeScore
  {
    forall i | 0 <= i < pos[k] && rows[i].title == t
      ensures rows[i].hypeScore < rows[pos[k]].hypeScore
    {
      var q :| 0 <= q < |pos| && pos[q] == i;
      if k < q {
        assert false;
      }
    }
  }

  /** The titles on the report, one statistics row each, in title order. */
  function AllStats(rows: seq<Row>): (ss: seq<TitleStats>)
    ensures |ss| == |Titles(rows)|
    ensures forall i :: 0 <= i < |ss| ==> ss[i] == StatsOf(rows, Titles(rows)[i]) && ss[i].title == Titles(rows)[i]
  {
    var ts := Titles(rows);
    seq(|ts|, i requires 0 <= i < |ts| => StatsOf(rows, ts[i]))
  }

  // Default selection and filter

  /** The franchises preselected when present. */
  const PREFERRED: seq<string> := ["Stranger Things", "Breaking Bad", "Money Heist", "The Witcher", "The Crown"]

  /** `[s for s in preferred if s in all_shows]`. */
  function PresentIn(preferred: seq<string>, titles: seq<string>): (r: seq<string>)
    ensures forall s :: s in r <==> s in preferred && s in titles
    ensures |r| <= |preferred|
    decreases |preferred|
  {
    if preferred == [] then [] else
      var n := |preferred| - 1;
      assert preferred == preferred[..n] + [preferred[n]];
      PresentIn(preferred[..n], titles) + if preferred[n] in titles then [preferred[n]] else []
  }

  /** Keeping part of a list keeps its relative order: the kept titles sit
      at increasing positions of the preferred list. */
  lemma {:induction false} PresentInOrder(preferred: seq<string>, titles: seq<string>) returns (pos: seq<nat>)
    ensures |pos| == |PresentIn(preferred, titles)|
    ensures forall i :: 0 <= i < |pos| ==> pos[i] < |preferred| && preferred[pos[i]] == PresentIn(preferred, titles)[i]
    ensures forall i, j :: 0 <= i < j < |pos| ==> pos[i] < pos[j]
    decreases |preferred|
  {
    if preferred == [] {
      pos := [];
    } else {
      var n := |preferred| - 1;
      var front := preferred[..n];
      var p0 := PresentInOrder(front, titles);
      var r0 := PresentIn(front, titles);
      var r := PresentIn(preferred, titles);
      if preferred[n] in titles {
        pos := p0 + [n];
        assert r == r0 + [preferred[n]];
      } else {
        pos := p0;
        assert r == r0;
      }
      forall i | 0 <= i < |pos|
        ensures pos[i] < |preferred| && preferred[pos[i]] == r[i]
      {
        if i < |p0| {
          assert pos[i] == p0[i] && front[p0[i]] == r0[i] && r[i] == r0[i];
        }
      }
    }
  }

  /** The preselected franchises: the preferred titles present in the data,
      in preferred order. */
  function DefaultShows(rows: seq<Row>): seq<string> {
    PresentIn(PREFERRED, SortBy(Titles(rows), LexLe))
  }

  lemma DefaultShowsShape(rows: seq<Row>)
    ensures forall s :: s in DefaultShows(rows) <==> s in PREFERRED && s in TitleColumn(rows)
    ensures Distinct(DefaultShows(rows))
  {
    var sorted := SortBy(Titles(rows), LexLe);
    forall s
      ensures s in sorted <==> s in TitleColumn(rows)
    {
      assert s in sorted <==> s in multiset(Titles(rows));
    }
    var r := DefaultShows(rows);
    assert Distinct(PREFERRED);
    var pos := PresentInOrder(PREFERRED, sorted);
    forall i, j | 0 <= i < j < |r|
      ensures r[i] != r[j]
    {
      assert PREFERRED[pos[i]] == r[i] && PREFERRED[pos[j]] == r[j] && pos[i] < pos[j];
    }
  }

  /** The rows whose title is selected, in list order. */
  function RowsIn(rows: seq<Row>, selected: seq<string>): (rs: seq<Row>)
    ensures forall r :: r in rs <==> r in rows && r.title in selected
    ensures forall r :: multiset(rs)[r] == if r.title in selected then multiset(rows)[r] else 0
    ensures |rs| <= |rows|
    decreases |rows|
  {
    if rows == [] then [] else
      var n := |rows| - 1;
      assert rows == rows[..n] + [rows[n]];
      RowsIn(rows[..n], selected) + if rows[n].title in selected then [rows[n]] else []
  }

  /** The positions in the frame of the rows whose title is selected. */
  function PositionsIn(rows: seq<Row>, selected: seq<string>): seq<nat>
    decreases |rows|
  {
    if rows == [] then [] else
      var n := |rows| - 1;
      PositionsIn(rows[..n], selected) + if rows[n].title in selected then [n] else []
  }

  /** The kept rows are the rows at their positions. */
  lemma {:induction false} RowsInOrder(rows: seq<Row>, selected: seq<string>)
    ensures |PositionsIn(rows, selected)| == |RowsIn(rows, selected)|
    ensures forall i :: 0 <= i < |PositionsIn(rows, selected)| ==>
      PositionsIn(rows, selected)[i] < |rows| && rows[PositionsIn(rows, selected)[i]] == RowsIn(rows, selected)[i]
    decreases |rows|
  {
    if rows != [] {
      var n := |rows| - 1;
      var front := rows[..n];
      RowsInOrder(front, selected);
      var p0, r0 := PositionsIn(front, selected), RowsIn(front, selected);
      var pos, r := PositionsIn(rows, selected), RowsIn(rows, selected);
      assert r == r0 + if rows[n].title in selected then [rows[n]] else [];
      forall i | 0 <= i < |pos|
        ensures pos[i] < |rows| && rows[pos[i]] == r[i]
      {
        if i < |p0| {
          assert pos[i] == p0[i] && front[p0[i]] == r0[i] && r[i] == r0[i];
        }
      }
    }
  }

  /** The kept rows keep their frame order: their positions increase. */
  lemma {:induction false} PositionsInIncrease(rows: seq<Row>, selected: seq<string>)
    ensures forall i :: 0 <= i < |PositionsIn(rows, selected)| ==> PositionsIn(rows, selected)[i] < |rows|
    ensures forall i, j :: 0 <= i < j < |PositionsIn(rows, selected)| ==>
      PositionsIn(rows, selected)[i] < PositionsIn(rows, selected)[j]
    decreases |rows|
  {
    if rows != [] {
      var n := |rows| - 1;
      PositionsInIncrease(rows[..n], selected);
    }
  }

  /** `df[df['title'].isin(selected_shows)]`, or every row when nothing is
      selected: each selected row as often as the frame holds it. */
  function FilterRows(rows: seq<Row>, selected: seq<string>): (rs: seq<Row>)
    ensures selected == [] ==> rs == rows
    ensures selected != [] ==> forall r :: r in rs <==> r in rows && r.title in selected
    ensures selected != [] ==>
      forall r :: multiset(rs)[r] == if r.title in selected then multiset(rows)[r] else 0
  {
    if selected == [] then rows else RowsIn(rows, selected)
  }

  // The page

  /** What the report shows: the waiting notice, or the statistics, the
      preselection and the row counts. */
  datatype Report =
    | Waiting
    | Analysis(stats: seq<TitleStats>, defaults: seq<string>, totalPoints: nat, uniqueShows: nat)

  /** `load_data` reads the whole list; any failure gives an empty frame. */
  function LoadAll(outcome: ReadOutcome): seq<Row> {
    match outcome
    case ReadFailed => []
    case ReadOk(log) => log
  }

  function BuildReport(outcome: ReadOutcome): Report {
    var rows := LoadAll(outcome);
    if rows == [] then Waiting
    else Analysis(AllStats(rows), DefaultShows(rows), |rows|, |Titles(rows)|)
  }

  /** No statistics are computed from a failed or empty read; otherwise one
      statistics row per title is. */
  lemma ReportWaiting(outcome: ReadOutcome)
    ensures BuildReport(outcome).Waiting? <==> outcome.ReadFailed? || outcome.log == []
    ensures BuildReport(outcome).Analysis? ==>
      |BuildReport(outcome).stats| == BuildReport(outcome).uniqueShows
      && BuildReport(outcome).totalPoints == |outcome.log|
  {
  }
}
