/** What the four producers share: the IMDb metadata lookup by normalised
    title, the outcome of a Google Trends request, the history rows a request
    returns, the history events pushed per show, and the ingestion queue. */
module Trends {
  import opened PyValues
  import opened Text
  import opened Consumer
  import opened Seqs

  /** The metadata the streaming, integrated and supplemental producers keep
      per IMDb title: its vote count and average rating. */
  datatype Meta = Meta(brandEquity: int, imdbRating: real)

  /** `imdb_map.get(title.lower().strip(), {})` followed by
      `.get("brand_equity", 0)` and `.get("imdb_rating", 0.0)`. The map's keys
      are normalised titles. */
  function LookupMeta(imdb: map<string, Meta>, title: string): (m: Meta)
    ensures Normalize(title) in imdb ==> m == imdb[Normalize(title)]
    ensures Normalize(title) !in imdb ==> m == Meta(0, 0.0)
  {
    var key := Normalize(title);
    if key in imdb then imdb[key] else Meta(0, 0.0)
  }

  lemma LowerIdempotent(s: string)
    ensures Lower(Lower(s)) == Lower(s)
  {
    assert forall k :: 0 <= k < |s| ==> LowerChar(LowerChar(s[k])) == LowerChar(s[k]);
  }

  lemma {:induction false} StripLeftSpaceAfter(x: string, c: char)
    requires IsSpace(c)
    ensures StripLeft(x + [c]) == if StripLeft(x) == [] then [] else StripLeft(x) + [c]
    decreases |x|
  {
    if x == [] {
      assert StripLeft([c]) == StripLeft([]);
    } else if IsSpace(x[0]) {
      assert (x + [c])[1..] == x[1..] + [c];
      StripLeftSpaceAfter(x[1..], c);
    }
  }

  lemma StripSpaceAround(x: string, c: char)
    requires IsSpace(c)
    ensures Strip([c] + x + [c]) == Strip(x)
  {
    assert ([c] + x + [c])[1..] == x + [c];
    StripLeftSpaceAfter(x, c);
    var l := StripLeft(x);
    if l != [] {
      assert (l + [c])[..|l|] == l;
    }
  }

  /** Two titles that differ only in letter case or in whitespace around them
      find the same metadata. */
  lemma LookupIgnoresCaseAndPadding(imdb: map<string, Meta>, title: string, c: char)
    requires IsSpace(c)
    ensures LookupMeta(imdb, Lower(title)) == LookupMeta(imdb, title)
    ensures LookupMeta(imdb, [c] + title + [c]) == LookupMeta(imdb, title)
  {
    LowerIdempotent(title);
    var padded := [c] + title + [c];
    assert Lower(padded) == [LowerChar(c)] + Lower(title) + [LowerChar(c)];
    StripSpaceAround(Lower(title), c);
  }

  /** `m.get(k, d)`. */
  function GetOr(m: map<string, real>, k: string, d: real): real {
    if k in m then m[k] else d
  }

  /** The outcome of one interest request that reports the latest (streaming)
      or mean (batch) interest per keyword: the request raised, or it returned
      a value for the keywords present in its frame. */
  datatype Fetch = Failed | Fetched(data: map<string, real>)

  /** One cell of the interest column; NaN is the value int() rejects. */
  datatype Cell = Num(x: real) | NaN

  /** One row of an interest-over-time frame: its timestamp and the title's cell. */
  datatype Sample = Sample(timestamp: int, hype: Cell)

  /** A history request: it raised, or it returned a frame that has or lacks
      the title's column. */
  datatype Response = Raised | Table(hasColumn: bool, rows: seq<Sample>)

  /** `{"timestamp": int(ts.timestamp()), "hype_score": int(row[title])}`. */
  datatype Point = Point(timestamp: int, hypeScore: int)

  /** The points of the leading rows, up to the first row whose cell int()
      rejects, where the conversion raises and the loop stops. */
  function ConvertRows(rows: seq<Sample>): (ps: seq<Point>)
    ensures |ps| <= |rows|
    ensures forall k :: 0 <= k < |ps| ==>
      rows[k].hype.Num? && ps[k] == Point(rows[k].timestamp, Trunc(rows[k].hype.x))
    ensures |ps| < |rows| ==> rows[|ps|].hype.NaN?
  {
    if rows == [] || rows[0].hype.NaN? then []
    else [Point(rows[0].timestamp, Trunc(rows[0].hype.x))] + ConvertRows(rows[1..])
  }

  /** The points one history request yields: none when it raised or the
      title's column is missing. */
  function HistoryPoints(resp: Response): (ps: seq<Point>)
    ensures ps == [] <==>
      resp.Raised? || !resp.hasColumn || resp.rows == [] || resp.rows[0].hype.NaN?
  {
    if resp.Raised? || !resp.hasColumn then [] else ConvertRows(resp.rows)
  }

  /** The loop over `data.iterrows()` that appends one point per row, cut
      short by the first conversion that raises. */
  method ReadHistory(resp: Response) returns (points: seq<Point>)
    ensures points == HistoryPoints(resp)
    ensures |points| <= (if resp.Table? then |resp.rows| else 0)
  {
    points := [];
    if resp.Raised? || !resp.hasColumn {
      return;
    }
    var rows := resp.rows;
    var i := 0;
    while i < |rows|
      invariant i <= |rows| && |points| == i
      invariant forall k :: 0 <= k < i ==>
        rows[k].hype.Num? && points[k] == Point(rows[k].timestamp, Trunc(rows[k].hype.x))
    {
      if rows[i].hype.NaN? {
        break;
      }
      points := points + [Point(rows[i].timestamp, Trunc(rows[i].hype.x))];
      i := i + 1;
    }
    var ps := ConvertRows(rows);
    assert |ps| == i;
  }

  /** The points of several history requests, one block per request. */
  function HistoryBlocks(responses: seq<Response>): (bs: seq<seq<Point>>)
    ensures |bs| == |responses|
    ensures forall i :: 0 <= i < |responses| ==> bs[i] == HistoryPoints(responses[i])
  {
    seq(|responses|, i requires 0 <= i < |responses| => HistoryPoints(responses[i]))
  }

  /** The event the integrated and supplemental producers push for one point. */
  function HistoryEvent(title: string, meta: Meta, p: Point): Event {
    Event(
      map["timestamp" := Int(p.timestamp), "title" := Text(title)],
      Object(map[
        "hype_score" := Int(p.hypeScore),
        "brand_equity" := Int(meta.brandEquity),
        "cost_basis" := Int(1),
        "netflix_hours" := Int(0),
        "imdb_rating" := Real(meta.imdbRating)]))
  }

  /** One history event per point, in point order. */
  function HistoryEvents(title: string, meta: Meta, points: seq<Point>): (es: seq<Event>)
    ensures |es| == |points|
    ensures forall k :: 0 <= k < |points| ==> es[k] == HistoryEvent(title, meta, points[k])
  {
    seq(|points|, k requires 0 <= k < |points| => HistoryEvent(title, meta, points[k]))
  }

  /** json.dumps of each event, as a queue entry. */
  function EncodeAll(events: seq<Event>): (raws: seq<Raw>)
    ensures |raws| == |events|
    ensures forall k :: 0 <= k < |events| ==> raws[k] == Encoded(ObjectDoc(events[k]))
  {
    seq(|events|, k requires 0 <= k < |events| => Encoded(ObjectDoc(events[k])))
  }

  lemma EncodeAllAppend(a: seq<Event>, b: seq<Event>)
    ensures EncodeAll(a + b) == EncodeAll(a) + EncodeAll(b)
  {
  }

  /** The Redis ingestion list the producers push onto. */
  class Queue {
    var entries: seq<Raw>

    constructor (entries: seq<Raw>)
      ensures this.entries == entries
    {
      this.entries := entries;
    }

    /** A pipeline of RPUSHes, one per event in order, executed at once. */
    method PushAll(events: seq<Event>)
      modifies this
      ensures entries == old(entries) + EncodeAll(events)
    {
      var pending: seq<Raw> := [];
      for i := 0 to |events|
        invariant pending == EncodeAll(events[..i])
        invariant entries == old(entries)
      {
        assert events[..i + 1] == events[..i] + [events[i]];
        EncodeAllAppend(events[..i], [events[i]]);
        pending := pending + [Encoded(ObjectDoc(events[i]))];
      }
      assert events[..|events|] == events;
      entries := entries + pending;
    }

    /** One show's pipeline: an RPUSH per history point, executed at once,
        and nothing at all for an empty history. Reports whether it pushed. */
    method PushHistory(title: string, meta: Meta, history: seq<Point>) returns (pushed: bool)
      modifies this
      ensures pushed <==> history != []
      ensures entries == old(entries) + EncodeAll(HistoryEvents(title, meta, history))
    {
      if history != [] {
        PushAll(HistoryEvents(title, meta, history));
        pushed := true;
      } else {
        pushed := false;
      }
    }
  }

  /** The history events of each show of a list, with its own metadata. */
  function ShowBlocks(titles: seq<string>, imdb: map<string, Meta>, histories: seq<seq<Point>>): (bs: seq<seq<Event>>)
    requires |histories| == |titles|
    ensures |bs| == |titles|
    ensures forall i :: 0 <= i < |titles| ==> bs[i] == HistoryEvents(titles[i], LookupMeta(imdb, titles[i]), histories[i])
  {
    seq(|titles|, i requires 0 <= i < |titles| => HistoryEvents(titles[i], LookupMeta(imdb, titles[i]), histories[i]))
  }

  /** The events of a run over a show list: each show's history events
      after those of the shows before it. */
  function ShowsEvents(titles: seq<string>, imdb: map<string, Meta>, histories: seq<seq<Point>>): seq<Event>
    requires |histories| == |titles|
  {
    Flatten(ShowBlocks(titles, imdb, histories))
  }

  /** A run pushes one event per history point of every show. */
  lemma {:induction false} ShowsEventsLength(titles: seq<string>, imdb: map<string, Meta>, histories: seq<seq<Point>>)
    requires |histories| == |titles|
    ensures |ShowsEvents(titles, imdb, histories)| == |Flatten(histories)|
    decreases |titles|
  {
    if titles != [] {
      var n := |titles| - 1;
      var bs := ShowBlocks(titles, imdb, histories);
      assert bs[..n] == ShowBlocks(titles[..n], imdb, histories[..n]);
      ShowsEventsLength(titles[..n], imdb, histories[..n]);
    }
  }

  /** Show i's events are its whole history, in point order, with its own
      metadata, right between the events of the shows before and after it. */
  lemma ShowsEventsSplit(titles: seq<string>, imdb: map<string, Meta>, histories: seq<seq<Point>>, i: nat)
    requires |histories| == |titles| && i < |titles|
    ensures ShowsEvents(titles, imdb, histories)
      == ShowsEvents(titles[..i], imdb, histories[..i])
         + HistoryEvents(titles[i], LookupMeta(imdb, titles[i]), histories[i])
         + ShowsEvents(titles[i + 1..], imdb, histories[i + 1..])
  {
    var bs := ShowBlocks(titles, imdb, histories);
    var before := ShowBlocks(titles[..i], imdb, histories[..i]);
    var after := ShowBlocks(titles[i + 1..], imdb, histories[i + 1..]);
    assert bs == before + [bs[i]] + after;
    FlattenAppend(before + [bs[i]], after);
    FlattenAppend(before, [bs[i]]);
    assert Flatten([bs[i]]) == bs[i] by {
      assert [bs[i]][..0] == [];
    }
  }

  /** The events of a run over the first i + 1 shows. */
  lemma ShowsEventsSnoc(titles: seq<string>, imdb: map<string, Meta>, histories: seq<seq<Point>>, i: nat)
    requires |histories| == |titles| && i < |titles|
    ensures ShowsEvents(titles[..i + 1], imdb, histories[..i + 1])
      == ShowsEvents(titles[..i], imdb, histories[..i])
         + HistoryEvents(titles[i], LookupMeta(imdb, titles[i]), histories[i])
  {
    var t, h := titles[..i + 1], histories[..i + 1];
    ShowsEventsSplit(t, imdb, h, i);
    assert t[..i] == titles[..i] && h[..i] == histories[..i];
    assert ShowBlocks(t[i + 1..], imdb, h[i + 1..]) == [];
  }

  /** The number of shows whose history is non-empty. */
  function CountNonEmpty(histories: seq<seq<Point>>): (c: nat)
    ensures c <= |histories|
    decreases |histories|
  {
    if histories == [] then 0 else
      var n := |histories| - 1;
      CountNonEmpty(histories[..n]) + if histories[n] != [] then 1 else 0
  }

  /** A run pushes nothing exactly when no show had a history. */
  lemma {:induction false} NothingPushedIffNoSuccess(titles: seq<string>, imdb: map<string, Meta>,
                                                     histories: seq<seq<Point>>)
    requires |histories| == |titles|
    ensures ShowsEvents(titles, imdb, histories) == [] <==> CountNonEmpty(histories) == 0
    decreases |titles|
  {
    if titles != [] {
      var n := |titles| - 1;
      var bs := ShowBlocks(titles, imdb, histories);
      assert bs[..n] == ShowBlocks(titles[..n], imdb, histories[..n]);
      NothingPushedIffNoSuccess(titles[..n], imdb, histories[..n]);
    }
  }

  /** One more show's pipeline after those of the shows before it. */
  lemma RunStep(start: seq<Raw>, before: seq<Raw>, after: seq<Raw>, titles: seq<string>,
                imdb: map<string, Meta>, histories: seq<seq<Point>>, i: nat)
    requires |histories| == |titles| && i < |titles|
    requires before == start + EncodeAll(ShowsEvents(titles[..i], imdb, histories[..i]))
    requires after == before + EncodeAll(HistoryEvents(titles[i], LookupMeta(imdb, titles[i]), histories[i]))
    ensures after == start + EncodeAll(ShowsEvents(titles[..i + 1], imdb, histories[..i + 1]))
  {
    var done := ShowsEvents(titles[..i], imdb, histories[..i]);
    var next := HistoryEvents(titles[i], LookupMeta(imdb, titles[i]), histories[i]);
    ShowsEventsSnoc(titles, imdb, histories, i);
    EncodeAllAppend(done, next);
  }

  lemma CountNonEmptySnoc(histories: seq<seq<Point>>, i: nat)
    requires i < |histories|
    ensures CountNonEmpty(histories[..i + 1]) == CountNonEmpty(histories[..i]) + if histories[i] != [] then 1 else 0
  {
    assert histories[..i + 1][..i] == histories[..i];
  }

  /** Every show succeeds exactly when every history is non-empty. */
  lemma {:induction false} CountNonEmptyAll(histories: seq<seq<Point>>)
    ensures CountNonEmpty(histories) == |histories| <==> forall i :: 0 <= i < |histories| ==> histories[i] != []
    decreases |histories|
  {
    if histories != [] {
      var n := |histories| - 1;
      CountNonEmptyAll(histories[..n]);
      if CountNonEmpty(histories) == |histories| {
        assert CountNonEmpty(histories[..n]) == n && histories[n] != [];
        forall i | 0 <= i < |histories|
          ensures histories[i] != []
        {
          if i < n {
            assert histories[..n][i] == histories[i];
          }
        }
      }
    }
  }
}
