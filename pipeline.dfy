/** The producers and the consumer together: what the consumer's enrichment
    makes of each kind of event the producers push. */
module Pipeline {
  import opened PyValues
  import opened Text
  import opened Consumer
  import opened Trends
  import opened ProducerStreaming
  import opened Producer

  /** The record timestamp: a zero timestamp counts as missing. */
  function Stamp(timestamp: int, now: int): int {
    if timestamp != 0 then timestamp else now
  }

  /** The record title: an empty title counts as missing. */
  function TitleValue(title: string): Value {
    if title != "" then Text(title) else Text("Unknown")
  }

  /** A history event (integrated and supplemental producers) is never
      rejected: it keeps the point's hype, the looked-up vote count and
      rating, has no hours, and its engagement uses the rating, or 5.0 where
      the rating is 0.0. */
  lemma HistoryRecord(title: string, meta: Meta, p: Point, now: int)
    ensures Enrich(HistoryEvent(title, meta, p), now)
      == Some(Record(Stamp(p.timestamp, now), TitleValue(title), p.hypeScore as real, meta.brandEquity,
                     Some(meta.imdbRating), 0.0, Engagement(p.hypeScore as real, Some(meta.imdbRating))))
  {
  }

  /** A show missing from the metadata map gets rating 0.0 on its record, yet
      its engagement is computed with the neutral 5.0: half its hype. */
  lemma MetadataMissHalvesEngagement(title: string, imdb: map<string, Meta>, p: Point, now: int)
    requires Normalize(title) !in imdb
    ensures var r := Enrich(HistoryEvent(title, LookupMeta(imdb, title), p), now);
      && r.Some?
      && r.value.brandEquity == 0
      && r.value.imdbRating == Some(0.0)
      && r.value.engagementScore == p.hypeScore as real * 0.5
  {
    HistoryRecord(title, LookupMeta(imdb, title), p, now);
  }

  /** A streaming event becomes a record with its interest as hype, the
      looked-up metadata and no hours; the trending flag is not carried. */
  lemma StreamRecord(title: string, hype: real, meta: Meta, trending: seq<string>, timestamp: int, now: int)
    ensures Enrich(StreamEvent(title, hype, meta, trending, timestamp), now)
      == Some(Record(Stamp(timestamp, now), TitleValue(title), hype, meta.brandEquity,
                     Some(meta.imdbRating), 0.0, Engagement(hype, Some(meta.imdbRating))))
  {
  }

  /** A batch event becomes a record with vote count 0 (it sends null), no
      rating when the title is unknown or rated 0.0, and the estimated hours. */
  lemma BatchRecord(title: string, hype: real, row: Option<ImdbRow>, timestamp: int, now: int)
    ensures var rating := if row.Some? && row.value.averageRating != 0.0 then Some(row.value.averageRating) else None;
      Enrich(BatchEvent(title, hype, row, timestamp), now)
      == Some(Record(Stamp(timestamp, now), TitleValue(title), hype, 0, rating,
                     if row.Some? then row.value.estimatedHours else 0.0, Engagement(hype, rating)))
  {
  }

  /** The records of events the consumer accepts, one each, in order. */
  function EnrichAll(events: seq<Event>, now: int): (rs: seq<Record>)
    requires forall i :: 0 <= i < |events| ==> !Crashes(events[i])
    ensures |rs| == |events|
  {
    seq(|events|, i requires 0 <= i < |events| => Enrich(events[i], now).value)
  }

  /** A run of non-empty events that the enrichment accepts is consumed as
      one record per event, in push order. */
  lemma {:induction false} ProcessEncoded(events: seq<Event>, now: int)
    requires forall i :: 0 <= i < |events| ==> !Crashes(events[i]) && events[i] != EMPTY_EVENT
    ensures Process(EncodeAll(events), now) == Some(EnrichAll(events, now))
    decreases |events|
  {
    if events != [] {
      var n := |events| - 1;
      var raws := EncodeAll(events);
      assert raws[..|raws| - 1] == EncodeAll(events[..n]);
      ProcessEncoded(events[..n], now);
      ProcessSnoc(raws, n, now);
      assert raws[..n + 1] == raws;
      assert raws[n] == Encoded(ObjectDoc(events[n]));
      assert Handle(raws[n], now) == Some([Enrich(events[n], now).value]);
      assert EnrichAll(events, now) == EnrichAll(events[..n], now) + [Enrich(events[n], now).value];
    }
  }

  /** Every pushed history point reaches the output list as one record, in
      point order, with the values HistoryRecord gives. */
  lemma HistoryThroughConsumer(title: string, meta: Meta, points: seq<Point>, now: int)
    ensures var out := Process(EncodeAll(HistoryEvents(title, meta, points)), now);
      && out.Some?
      && |out.value| == |points|
      && forall i :: 0 <= i < |points| ==>
           out.value[i] == Enrich(HistoryEvent(title, meta, points[i]), now).value
  {
    var es := HistoryEvents(title, meta, points);
    forall i | 0 <= i < |es|
      ensures !Crashes(es[i]) && es[i] != EMPTY_EVENT
    {
      HistoryRecord(title, meta, points[i], now);
    }
    ProcessEncoded(es, now);
  }
}
