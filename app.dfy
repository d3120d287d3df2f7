/** The dashboard's read path: the window of processed records it reads,
    the per-title leaderboard, the title picker and the sample gate of the
    hype-to-hours regression. */
module App {
  import opened Seqs
  import opened Text
  import opened PyValues

  /** How many of the most recent records are read. */
  const MAX_READ: nat := 50000
  /** The "Top N" slider: its range and its default. */
  const TOP_N_MIN: nat := 5
  const TOP_N_MAX: nat := 50
  const TOP_N_DEFAULT: nat := 10
  /** How many sorted titles the picker offers, and how many it preselects. */
  const TITLE_OPTIONS: nat := 20
  const TITLE_DEFAULTS: nat := 5
  /** The regression is fitted only on more rows than this. */
  const MIN_SAMPLES: nat := 30

  /** One processed record as the dashboard reads it. */
  datatype Row = Row(timestamp: int, title: string, hypeScore: real, netflixHours: real, engagementScore: real)

  /** Reading the processed list: the read raised, or it gave the whole list. */
  datatype ReadOutcome = ReadFailed | ReadOk(log: seq<Row>)

  /** LRANGE from `max(0, total - MAX_READ)` to `total`: the newest records. */
  function ReadWindow(log: seq<Row>): (w: seq<Row>)
    ensures |w| == Min(|log|, MAX_READ)
    ensures w == log[|log| - |w|..]
  {
    var start := if |log| - MAX_READ > 0 then |log| - MAX_READ else 0;
    log[start..]
  }

  /** `load_from_redis`: the window, or an empty frame when the read raised. */
  function LoadRows(outcome: ReadOutcome): seq<Row> {
    match outcome
    case ReadFailed => []
    case ReadOk(log) => ReadWindow(log)
  }

  /** The frame is empty exactly when the read failed or the list is empty. */
  lemma NoDataIff(outcome: ReadOutcome)
    ensures LoadRows(outcome) == [] <==> outcome.ReadFailed? || outcome.log == []
  {
    if outcome.ReadOk? {
      assert |LoadRows(outcome)| == Min(|outcome.log|, MAX_READ);
    }
  }

  // Grouping by title

  function TitleColumn(rows: seq<Row>): (ts: seq<string>)
    ensures |ts| == |rows|
    ensures forall i :: 0 <= i < |rows| ==> ts[i] == rows[i].title
  {
    seq(|rows|, i requires 0 <= i < |rows| => rows[i].title)
  }

  /** `df['title'].unique()`: each title once, in order of first occurrence. */
  function Titles(rows: seq<Row>): seq<string> {
    Dedup(TitleColumn(rows))
  }

  /** The numeric columns the leaderboard averages. */
  datatype Column = HypeScore | NetflixHours | EngagementScore

  function Cell(r: Row, column: Column): real {
    match column
    case HypeScore => r.hypeScore
    case NetflixHours => r.netflixHours
    case EngagementScore => r.engagementScore
  }

  /** The number of rows of title t. */
  function Count(rows: seq<Row>, t: string): nat
    decreases |rows|
  {
    if rows == [] then 0 else
      var n := |rows| - 1;
      Count(rows[..n], t) + if rows[n].title == t then 1 else 0
  }

  /** The sum of one column over the rows of title t. */
  function Sum(rows: seq<Row>, t: string, column: Column): real
    decreases |rows|
  {
    if rows == [] then 0.0 else
      var n := |rows| - 1;
      Sum(rows[..n], t, column) + if rows[n].title == t then Cell(rows[n], column) else 0.0
  }

  /** The mean of one column over the rows of title t. */
  function Mean(rows: seq<Row>, t: string, column: Column): real {
    var c := Count(rows, t);
    if c == 0 then 0.0 else Sum(rows, t, column) / c as real
  }

  lemma {:induction false} CountPositive(rows: seq<Row>, t: string)
    ensures Count(rows, t) > 0 <==> t in TitleColumn(rows)
    decreases |rows|
  {
    if rows != [] {
      var n := |rows| - 1;
      CountPositive(rows[..n], t);
      assert TitleColumn(rows) == TitleColumn(rows[..n]) + [rows[n].title];
    }
  }

  /** x added to itself n times. */
  function Times(x: real, n: nat): real {
    if n == 0 then 0.0 else Times(x, n - 1) + x
  }

  lemma {:induction false} TimesIsProduct(x: real, n: nat)
    ensures Times(x, n) == x * n as real
  {
    if n > 0 {
      TimesIsProduct(x, n - 1);
      assert x * n as real == x * (n - 1) as real + x;
    }
  }

  lemma {:induction false} SumBounds(rows: seq<Row>, t: string, column: Column, lo: real, hi: real)
    requires forall i :: 0 <= i < |rows| && rows[i].title == t ==> lo <= Cell(rows[i], column) <= hi
    ensures Times(lo, Count(rows, t)) <= Sum(rows, t, column) <= Times(hi, Count(rows, t))
    decreases |rows|
  {
    if rows != [] {
      var n := |rows| - 1;
      var prefix := rows[..n];
      forall i | 0 <= i < n && prefix[i].title == t
        ensures lo <= Cell(prefix[i], column) <= hi
      {
        assert prefix[i] == rows[i];
      }
      SumBounds(prefix, t, column, lo, hi);
    }
  }

  lemma DivBounds(s: real, c: real, lo: real, hi: real)
    requires c > 0.0 && lo * c <= s <= hi * c
    ensures lo <= s / c <= hi
  {
    assert (s / c) * c == s;
  }

  lemma MeanBetween(sum: real, c: nat, lo: real, hi: real)
    requires c > 0 && Times(lo, c) <= sum <= Times(hi, c)
    ensures lo <= sum / c as real <= hi
  {
    TimesIsProduct(lo, c);
    TimesIsProduct(hi, c);
    DivBounds(sum, c as real, lo, hi);
  }

  /** A title's mean lies between the least and the greatest of its values. */
  lemma MeanWithin(rows: seq<Row>, t: string, column: Column, lo: real, hi: real)
    requires t in TitleColumn(rows)
    requires forall i :: 0 <= i < |rows| && rows[i].title == t ==> lo <= Cell(rows[i], column) <= hi
    ensures lo <= Mean(rows, t, column) <= hi
  {
    CountPositive(rows, t);
    SumBounds(rows, t, column, lo, hi);
    MeanBetween(Sum(rows, t, column), Count(rows, t), lo, hi);
  }

  // The leaderboard

  /** One row of `df.groupby('title').agg(mean)`. */
  datatype Summary = Summary(title: string, meanHype: real, meanHours: real, meanEngagement: real)

  function SummaryOf(rows: seq<Row>, t: string): Summary {
    Summary(t, Mean(rows, t, HypeScore), Mean(rows, t, NetflixHours),
            Mean(rows, t, EngagementScore))
  }

  function Aggregate(rows: seq<Row>): (agg: seq<Summary>)
    ensures |agg| == |Titles(rows)|
    ensures forall i :: 0 <= i < |agg| ==> agg[i] == SummaryOf(rows, Titles(rows)[i])
  {
    var ts := Titles(rows);
    seq(|ts|, i requires 0 <= i < |ts| => SummaryOf(rows, ts[i]))
  }

  /** The order of `sort_values('hype_score', ascending=False)`. */
  predicate HypeFirst(a: Summary, b: Summary) {
    a.meanHype >= b.meanHype
  }

  lemma HypeFirstTotalPreorder()
    ensures TotalPreorder(HypeFirst)
  {
  }

  /** The top `topN` titles by mean hype. Ties are ordered as the insertion
      sort leaves them. */
  function Leaderboard(rows: seq<Row>, topN: nat): seq<Summary> {
    Take(SortBy(Aggregate(rows), HypeFirst), topN)
  }

  /** Every summary in the sorted aggregate is a title's own summary. */
  lemma SortedSummaries(rows: seq<Row>)
    ensures var s := SortBy(Aggregate(rows), HypeFirst);
      && SortedBy(s, HypeFirst)
      && Distinct(s)
      && (forall e :: e in s <==> e.title in TitleColumn(rows) && e == SummaryOf(rows, e.title))
  {
    var agg := Aggregate(rows);
    var s := SortBy(agg, HypeFirst);
    HypeFirstTotalPreorder();
    SortBySorted(agg, HypeFirst);
    var ts := Titles(rows);
    forall i, j | 0 <= i < j < |agg|
      ensures agg[i] != agg[j]
    {
      assert agg[i].title == ts[i] && agg[j].title == ts[j];
    }
    DistinctPermutation(agg, s);
    forall e
      ensures e in s <==> e.title in TitleColumn(rows) && e == SummaryOf(rows, e.title)
    {
      assert e in s <==> e in multiset(agg);
      if e.title in TitleColumn(rows) && e == SummaryOf(rows, e.title) {
        var i :| 0 <= i < |ts| && ts[i] == e.title;
        assert agg[i] == e;
      }
    }
  }

  /** The leaderboard: min(topN, number of titles) rows, one per title, each
      with that title's means, in non-increasing order of mean hype. */
  lemma LeaderboardShape(rows: seq<Row>, topN: nat)
    ensures var lb := Leaderboard(rows, topN);
      && |lb| == Min(topN, |Titles(rows)|)
      && (forall i, j :: 0 <= i < j < |lb| ==> lb[i].meanHype >= lb[j].meanHype)
      && (forall i, j :: 0 <= i < j < |lb| ==> lb[i].title != lb[j].title)
      && (forall i :: 0 <= i < |lb| ==>
            lb[i].title in TitleColumn(rows) && lb[i] == SummaryOf(rows, lb[i].title))
  {
    var s := SortBy(Aggregate(rows), HypeFirst);
    SortedSummaries(rows);
    var lb := Leaderboard(rows, topN);
    forall i | 0 <= i < |lb|
      ensures lb[i].title in TitleColumn(rows) && lb[i] == SummaryOf(rows, lb[i].title)
    {
      assert lb[i] == s[i] && s[i] in s;
    }
    forall i, j | 0 <= i < j < |lb|
      ensures lb[i].title != lb[j].title
    {
      assert lb[i] == s[i] && lb[j] == s[j] && s[i] in s && s[j] in s;
    }
  }

  /** A title left off the leaderboard has a mean hype no greater than that
      of any title on it. */
  lemma LeaderboardIsTop(rows: seq<Row>, topN: nat, t: string)
    requires t in TitleColumn(rows)
    requires forall i :: 0 <= i < |Leaderboard(rows, topN)| ==> Leaderboard(rows, topN)[i].title != t
    ensures forall e :: e in Leaderboard(rows, topN) ==> e.meanHype >= Mean(rows, t, HypeScore)
  {
    var s := SortBy(Aggregate(rows), HypeFirst);
    var lb := Leaderboard(rows, topN);
    SortedSummaries(rows);
    var x := SummaryOf(rows, t);
    assert x in s;
    var j :| 0 <= j < |s| && s[j] == x;
    forall i | 0 <= i < |lb|
      ensures s[i] != x
    {
      assert lb[i] == s[i] && lb[i].title != t;
    }
    assert j >= |lb|;
    forall e | e in lb
      ensures e.meanHype >= x.meanHype
    {
      var i :| 0 <= i < |lb| && lb[i] == e;
      assert s[i] == e;
    }
  }

  // The title picker

  lemma LexLeTotalPreorder()
    ensures TotalPreorder(LexLe)
  {
    forall a, b
      ensures LexLe(a, b) || LexLe(b, a)
    {
      LexLeTotal(a, b);
    }
    forall a, b, c | LexLe(a, b) && LexLe(b, c)
      ensures LexLe(a, c)
    {
      LexLeTransitive(a, b, c);
    }
  }

  /** `sorted(df['title'].unique())`. */
  function SortedTitles(rows: seq<Row>): seq<string> {
    SortBy(Titles(rows), LexLe)
  }

  /** The titles offered for the time series, and those preselected. */
  function TitleOptions(rows: seq<Row>): seq<string> {
    Take(SortedTitles(rows), TITLE_OPTIONS)
  }

  function DefaultSelection(rows: seq<Row>): seq<string> {
    Take(SortedTitles(rows), TITLE_DEFAULTS)
  }

  /** The sorted titles are every title once, in strictly increasing order;
      the picker offers the first twenty and preselects the first five. */
  lemma TitlePicker(rows: seq<Row>)
    ensures var s := SortedTitles(rows);
      && (forall t :: t in s <==> t in TitleColumn(rows))
      && (forall i, j :: 0 <= i < j < |s| ==> LexLe(s[i], s[j]) && s[i] != s[j])
      && |TitleOptions(rows)| == Min(TITLE_OPTIONS, |s|)
      && DefaultSelection(rows) == TitleOptions(rows)[..Min(TITLE_DEFAULTS, |s|)]
  {
    var ts := Titles(rows);
    var s := SortedTitles(rows);
    LexLeTotalPreorder();
    SortBySorted(ts, LexLe);
    DistinctPermutation(ts, s);
    forall t
      ensures t in s <==> t in TitleColumn(rows)
    {
      assert t in s <==> t in multiset(ts);
    }
  }

  // The regression sample

  /** A (title, time) group of the regression frame. */
  datatype Key = Key(title: string, timestamp: int)

  function KeyColumn(rows: seq<Row>): (ks: seq<Key>)
    ensures |ks| == |rows|
    ensures forall i :: 0 <= i < |rows| ==> ks[i] == Key(rows[i].title, rows[i].timestamp)
  {
    seq(|rows|, i requires 0 <= i < |rows| => Key(rows[i].title, rows[i].timestamp))
  }

  function KeyCount(rows: seq<Row>, k: Key): nat
    decreases |rows|
  {
    if rows == [] then 0 else
      var n := |rows| - 1;
      KeyCount(rows[..n], k) + if KeyColumn(rows)[n] == k then 1 else 0
  }

  function KeyHypeSum(rows: seq<Row>, k: Key): real
    decreases |rows|
  {
    if rows == [] then 0.0 else
      var n := |rows| - 1;
      KeyHypeSum(rows[..n], k) + if KeyColumn(rows)[n] == k then rows[n].hypeScore else 0.0
  }

  /** The group's mean hype. */
  function KeyMeanHype(rows: seq<Row>, k: Key): real {
    var c := KeyCount(rows, k);
    if c == 0 then 0.0 else KeyHypeSum(rows, k) / c as real
  }

  /** The group's greatest hours value, None for an empty group. */
  function KeyMaxHours(rows: seq<Row>, k: Key): (m: Option<real>)
    ensures m.None? <==> k !in KeyColumn(rows)
    ensures m.Some? ==> exists i :: 0 <= i < |rows| && KeyColumn(rows)[i] == k && rows[i].netflixHours == m.value
    ensures m.Some? ==> forall i :: 0 <= i < |rows| && KeyColumn(rows)[i] == k ==> rows[i].netflixHours <= m.value
    decreases |rows|
  {
    if rows == [] then None else
      var n := |rows| - 1;
      assert KeyColumn(rows) == KeyColumn(rows[..n]) + [KeyColumn(rows)[n]];
      var before := KeyMaxHours(rows[..n], k);
      if KeyColumn(rows)[n] != k then before
      else if before.None? || rows[n].netflixHours > before.value then Some(rows[n].netflixHours)
      else before
  }

  /** A group kept for the regression: positive mean hype and positive
      greatest hours. */
  predicate Kept(rows: seq<Row>, k: Key) {
    KeyMeanHype(rows, k) > 0.0 && KeyMaxHours(rows, k).Some? && KeyMaxHours(rows, k).value > 0.0
  }

  function Filter(keys: seq<Key>, rows: seq<Row>): (r: seq<Key>)
    ensures forall k :: k in r <==> k in keys && Kept(rows, k)
    ensures |r| <= |keys|
    ensures Distinct(keys) ==> Distinct(r)
    decreases |keys|
  {
    if keys == [] then [] else
      var n := |keys| - 1;
      assert keys == keys[..n] + [keys[n]];
      var front := Filter(keys[..n], rows);
      if Kept(rows, keys[n]) then
        assert Distinct(keys) ==> keys[n] !in keys[..n];
        front + [keys[n]]
      else front
  }

  /** The groups of the regression frame. */
  function RegressionKeys(rows: seq<Row>): seq<Key> {
    Filter(Dedup(KeyColumn(rows)), rows)
  }

  /** A group enters the regression exactly when it has rows, its mean hype
      is positive and one of its rows has positive hours. */
  lemma RegressionKeysIff(rows: seq<Row>, k: Key)
    ensures k in RegressionKeys(rows) <==>
      && k in KeyColumn(rows)
      && KeyMeanHype(rows, k) > 0.0
      && (exists i :: 0 <= i < |rows| && KeyColumn(rows)[i] == k && rows[i].netflixHours > 0.0)
  {
  }

  /** The model is fitted only on more than thirty groups. */
  predicate FitsModel(rows: seq<Row>) {
    |RegressionKeys(rows)| > MIN_SAMPLES
  }

  /** The regression runs exactly when more than thirty distinct groups are
      kept: the frame holds each kept group once. */
  lemma FitsModelCount(rows: seq<Row>)
    ensures Distinct(RegressionKeys(rows))
    ensures FitsModel(rows) <==> |set k | k in KeyColumn(rows) && Kept(rows, k)| > MIN_SAMPLES
  {
    var r := RegressionKeys(rows);
    DistinctCardinality(r);
    assert (set k | k in r) == (set k | k in KeyColumn(rows) && Kept(rows, k));
  }

  // The page

  /** What the page shows: the "No data yet" notice, or the controls, the
      leaderboard and either a fitted model or the "not enough samples"
      notice. */
  datatype Page =
    | NoData
    | Dashboard(options: seq<string>, selected: seq<string>, leaderboard: seq<Summary>,
                modelFitted: bool, recordsLoaded: nat, uniqueTitles: nat)

  function Render(outcome: ReadOutcome, topN: nat): (p: Page)
    requires TOP_N_MIN <= topN <= TOP_N_MAX
  {
    var rows := LoadRows(outcome);
    if rows == [] then NoData
    else Dashboard(TitleOptions(rows), DefaultSelection(rows), Leaderboard(rows, topN),
                   FitsModel(rows), |rows|, |Titles(rows)|)
  }

  /** The page shows "No data yet" exactly when the read failed or the list
      is empty; otherwise it reports the records of the window. */
  lemma RenderNoData(outcome: ReadOutcome, topN: nat)
    requires TOP_N_MIN <= topN <= TOP_N_MAX
    ensures Render(outcome, topN).NoData? <==> outcome.ReadFailed? || outcome.log == []
    ensures outcome.ReadOk? && outcome.log != [] ==>
      Render(outcome, topN).recordsLoaded == Min(|outcome.log|, MAX_READ)
  {
    NoDataIff(outcome);
  }
}
