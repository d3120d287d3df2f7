/** The supplemental producer: a fixed list of extra shows, each with a
    history gathered from five yearly requests, pushed once and then the job
    ends. */
module Producer2 {
  import opened Seqs
  import opened Trends

  /** The yearly periods requested per show, in request order. */
  const TIMEFRAMES: seq<string> := [
    "2020-01-01 2020-12-31",
    "2021-01-01 2021-12-31",
    "2022-01-01 2022-12-31",
    "2023-01-01 2023-12-31",
    "2024-01-01 2024-12-31"
  ]

  /** The shows this job backfills, in processing order. */
  const NEW_SHOWS: seq<string> := [
    "The Walking Dead", "Sherlock", "Death Note", "True Detective",
    "Firefly", "Band of Brothers", "Chernobyl", "Dexter", "House of Cards",
    "Prison Break", "Lost", "Vikings", "The Simpsons", "South Park",
    "Twin Peaks", "House"
  ]

  /** The points of consecutive periods, period by period. */
  function PeriodsPoints(periods: seq<Response>): seq<Point> {
    Flatten(HistoryBlocks(periods))
  }

  /** Period k's points come after those of the earlier periods and before
      those of the later ones. */
  lemma PeriodsPointsOrder(periods: seq<Response>, k: nat)
    requires k < |periods|
    ensures PeriodsPoints(periods)
      == PeriodsPoints(periods[..k]) + HistoryPoints(periods[k]) + PeriodsPoints(periods[k + 1..])
  {
    var bs := HistoryBlocks(periods);
    var before, after := HistoryBlocks(periods[..k]), HistoryBlocks(periods[k + 1..]);
    assert bs == before + [bs[k]] + after;
    FlattenAppend(before + [bs[k]], after);
    FlattenAppend(before, [bs[k]]);
    assert Flatten([bs[k]]) == bs[k] by {
      assert [bs[k]][..0] == [];
    }
  }

  /** A period whose request raises contributes nothing, and the periods
      after it are still requested and appended. */
  lemma FailedPeriodSkipped(periods: seq<Response>, k: nat)
    requires k < |periods|
    ensures PeriodsPoints(periods[k := Raised]) == PeriodsPoints(periods[..k]) + PeriodsPoints(periods[k + 1..])
  {
    var failed := periods[k := Raised];
    PeriodsPointsOrder(failed, k);
    assert failed[..k] == periods[..k] && failed[k + 1..] == periods[k + 1..];
    assert HistoryPoints(failed[k]) == [];
    assert PeriodsPoints(periods[..k]) + [] == PeriodsPoints(periods[..k]);
  }

  /** `fetch_history`: one request per period in listed order, each
      appending its rows' points until its first conversion that raises. */
  method FetchHistory(periods: seq<Response>) returns (history: seq<Point>)
    requires |periods| == |TIMEFRAMES|
    ensures history == PeriodsPoints(periods)
  {
    history := [];
    for i := 0 to |TIMEFRAMES|
      invariant history == PeriodsPoints(periods[..i])
    {
      var points := ReadHistory(periods[i]);
      assert HistoryBlocks(periods[..i + 1])[..i] == HistoryBlocks(periods[..i]);
      history := history + points;
    }
    assert periods[..|periods|] == periods;
  }

  /** The histories of the listed shows, one row of period responses each. */
  function ShowHistories(responses: seq<seq<Response>>): (hs: seq<seq<Point>>)
    ensures |hs| == |responses|
    ensures forall i :: 0 <= i < |responses| ==> hs[i] == PeriodsPoints(responses[i])
  {
    seq(|responses|, i requires 0 <= i < |responses| => PeriodsPoints(responses[i]))
  }

  /** `main_loop`: every show of NEW_SHOWS in list order, each with its
      metadata and its five-period history, pushing one pipeline per show
      with data and nothing for a show without. */
  method RunSupplemental(q: Queue, imdb: map<string, Meta>, responses: seq<seq<Response>>)
    requires |responses| == |NEW_SHOWS|
    requires forall i :: 0 <= i < |responses| ==> |responses[i]| == |TIMEFRAMES|
    modifies q
    ensures q.entries == old(q.entries) + EncodeAll(ShowsEvents(NEW_SHOWS, imdb, ShowHistories(responses)))
  {
    ghost var hs := ShowHistories(responses);
    for i := 0 to |NEW_SHOWS|
      invariant q.entries == old(q.entries) + EncodeAll(ShowsEvents(NEW_SHOWS[..i], imdb, hs[..i]))
    {
      var title := NEW_SHOWS[i];
      var meta := LookupMeta(imdb, title);
      var history := FetchHistory(responses[i]);
      ghost var before := q.entries;
      var _ := q.PushHistory(title, meta, history);
      RunStep(old(q.entries), before, q.entries, NEW_SHOWS, imdb, hs, i);
    }
    assert NEW_SHOWS[..|NEW_SHOWS|] == NEW_SHOWS && hs[..|hs|] == hs;
  }

  /** Each listed show appears once, so each is requested and pushed once. */
  lemma NewShowsDistinct()
    ensures Distinct(NEW_SHOWS)
  {
  }
}
