/** The streaming producer (producer_streaming.py): every iteration it reads
    the realtime trending titles, fetches the latest interest of every tracked
    show in batches of five, falling back to the last value it saw when a
    batch fails, and pushes one event per show that got a value. */
module ProducerStreaming {
  import opened PyValues
  import opened Seqs
  import opened Consumer
  import opened Trends

  /** batch_size in fetch_batch_interests. */
  const BATCH_SIZE: nat := 5
  /** `trending['title'].head(20)`. */
  const REALTIME_LIMIT: nat := 20

  /** The success branch for a batch: each show present in the fetched data
      is set to its value. */
  function Overwrite(batch: seq<string>, data: map<string, real>, m: map<string, real>): map<string, real>
    decreases |batch|
  {
    if batch == [] then m
    else
      var r := Overwrite(batch[..|batch| - 1], data, m);
      var show := batch[|batch| - 1];
      if show in data then r[show := data[show]] else r
  }

  /** Exactly the shows of the batch present in the data are set, to their
      data value; every other entry is kept. */
  lemma {:induction false} OverwriteAt(batch: seq<string>, data: map<string, real>, m: map<string, real>)
    ensures Overwrite(batch, data, m).Keys == m.Keys + (set k | k in batch && k in data)
    ensures forall k :: k in Overwrite(batch, data, m) ==>
      Overwrite(batch, data, m)[k] == if k in batch && k in data then data[k] else m[k]
    decreases |batch|
  {
    if batch != [] {
      var init := batch[..|batch| - 1];
      OverwriteAt(init, data, m);
      assert forall k :: k in batch <==> k in init || k == batch[|batch| - 1];
    }
  }

  /** The failure branch for a batch: each show gets its last known value,
      or 0.0. */
  function Fallback(batch: seq<string>, last: map<string, real>, m: map<string, real>): map<string, real>
    decreases |batch|
  {
    if batch == [] then m
    else
      var r := Fallback(batch[..|batch| - 1], last, m);
      var show := batch[|batch| - 1];
      r[show := GetOr(last, show, 0.0)]
  }

  /** Every show of the batch is set to its last known value or 0.0; every
      other entry is kept. */
  lemma {:induction false} FallbackAt(batch: seq<string>, last: map<string, real>, m: map<string, real>)
    ensures Fallback(batch, last, m).Keys == m.Keys + (set k | k in batch)
    ensures forall k :: k in Fallback(batch, last, m) ==>
      Fallback(batch, last, m)[k] == if k in batch then GetOr(last, k, 0.0) else m[k]
    decreases |batch|
  {
    if batch != [] {
      var init := batch[..|batch| - 1];
      FallbackAt(init, last, m);
      assert forall k :: k in batch <==> k in init || k == batch[|batch| - 1];
    }
  }

  /** The `results` dictionary and the `last_values` field. */
  datatype State = State(results: map<string, real>, lastValues: map<string, real>)

  /** One batch: on success the results and the last values both take the
      fetched values; on failure the results take the last values, which
      stay as they are. */
  function ApplyBatch(batch: seq<string>, outcome: Fetch, st: State): State {
    match outcome
    case Failed => State(Fallback(batch, st.lastValues, st.results), st.lastValues)
    case Fetched(data) =>
      State(Overwrite(batch, data, st.results), Overwrite(batch, data, st.lastValues))
  }

  /** The batches in order, each with its own outcome. */
  function ApplyBatches(batches: seq<seq<string>>, outcomes: seq<Fetch>, st: State): State
    requires |outcomes| == |batches|
    decreases |batches|
  {
    if batches == [] then st
    else
      var n := |batches| - 1;
      ApplyBatch(batches[n], outcomes[n], ApplyBatches(batches[..n], outcomes[..n], st))
  }

  lemma ApplyBatchesSnoc(done: seq<seq<string>>, batch: seq<string>, outcomes: seq<Fetch>, st: State)
    requires |done| < |outcomes|
    ensures ApplyBatches(done + [batch], outcomes[..|done| + 1], st)
      == ApplyBatch(batch, outcomes[|done|], ApplyBatches(done, outcomes[..|done|], st))
  {
    var b := |done|;
    assert (done + [batch])[..b] == done;
    assert outcomes[..b + 1][..b] == outcomes[..b];
  }

  /** What one batch does to the results and the last values, show by show. */
  lemma ApplyBatchAt(batch: seq<string>, outcome: Fetch, st: State)
    ensures var st' := ApplyBatch(batch, outcome, st);
      && (outcome.Failed? ==>
            && st'.lastValues == st.lastValues
            && (forall k :: k in batch ==> k in st'.results && st'.results[k] == GetOr(st.lastValues, k, 0.0)))
      && (outcome.Fetched? ==>
            forall k :: k in batch && k in outcome.data ==>
              && k in st'.results && st'.results[k] == outcome.data[k]
              && k in st'.lastValues && st'.lastValues[k] == outcome.data[k])
      && (forall k :: k !in batch ==>
            && (k in st'.results <==> k in st.results)
            && (k in st'.results ==> st'.results[k] == st.results[k]))
      && (forall k :: !(k in batch && outcome.Fetched? && k in outcome.data) ==>
            && (k in st'.lastValues <==> k in st.lastValues)
            && (k in st'.lastValues ==> st'.lastValues[k] == st.lastValues[k]))
  {
    match outcome
    case Failed =>
      FallbackAt(batch, st.lastValues, st.results);
    case Fetched(data) =>
      OverwriteAt(batch, data, st.results);
      OverwriteAt(batch, data, st.lastValues);
  }

  /** Over all batches, a result key is a show of some batch or was already
      a result, and a last value of a show in no batch is untouched. */
  lemma {:induction false} ApplyBatchesFrame(batches: seq<seq<string>>, outcomes: seq<Fetch>, st: State)
    requires |outcomes| == |batches|
    ensures var st' := ApplyBatches(batches, outcomes, st);
      && (forall k :: k in st'.results ==> k in st.results || k in Flatten(batches))
      && (forall k :: k !in Flatten(batches) ==>
            && (k in st'.lastValues <==> k in st.lastValues)
            && (k in st'.lastValues ==> st'.lastValues[k] == st.lastValues[k]))
    decreases |batches|
  {
    if batches != [] {
      var n := |batches| - 1;
      ApplyBatchesFrame(batches[..n], outcomes[..n], st);
      ApplyBatchAt(batches[n], outcomes[n], ApplyBatches(batches[..n], outcomes[..n], st));
      assert Flatten(batches) == Flatten(batches[..n]) + batches[n];
    }
  }

  /** The shows a realtime trending request yields. */
  datatype TrendingResponse = TrendingRaised | TrendingTable(hasTitle: bool, titles: seq<string>)

  /** get_realtime_trends: the first 20 trending titles, or none when the
      request raises or the frame has no title column. */
  function RealtimeTrends(resp: TrendingResponse): (r: seq<string>)
    ensures |r| <= REALTIME_LIMIT
    ensures forall t :: t in r ==> resp.TrendingTable? && t in resp.titles
    ensures resp.TrendingTable? && resp.hasTitle ==> r == Take(resp.titles, REALTIME_LIMIT)
  {
    if resp.TrendingTable? && resp.hasTitle then Take(resp.titles, REALTIME_LIMIT) else []
  }

  /** The event pushed for one show of `current_interests`. */
  function StreamEvent(title: string, hype: real, meta: Meta, trending: seq<string>, timestamp: int): Event {
    Event(
      map["timestamp" := Int(timestamp), "title" := Text(title)],
      Object(map[
        "hype_score" := Real(hype),
        "brand_equity" := Int(meta.brandEquity),
        "imdb_rating" := Real(meta.imdbRating),
        "is_trending" := Bool(title in trending),
        "cost_basis" := Int(1),
        "netflix_hours" := Int(0)]))
  }

  /** The events for the shows in `order`, all with the same timestamp. */
  function StreamEvents(order: seq<string>, interests: map<string, real>, trending: seq<string>,
                        imdb: map<string, Meta>, timestamp: int): (es: seq<Event>)
    requires forall k :: k in order ==> k in interests
    ensures |es| == |order|
    ensures forall i :: 0 <= i < |order| ==>
      es[i] == StreamEvent(order[i], interests[order[i]], LookupMeta(imdb, order[i]), trending, timestamp)
  {
    seq(|order|, i requires 0 <= i < |order| =>
      StreamEvent(order[i], interests[order[i]], LookupMeta(imdb, order[i]), trending, timestamp))
  }

  lemma StreamEventsAppend(order: seq<string>, show: string, interests: map<string, real>,
                           trending: seq<string>, imdb: map<string, Meta>, timestamp: int)
    requires forall k :: k in order ==> k in interests
    requires show in interests
    ensures StreamEvents(order + [show], interests, trending, imdb, timestamp)
      == StreamEvents(order, interests, trending, imdb, timestamp)
         + [StreamEvent(show, interests[show], LookupMeta(imdb, show), trending, timestamp)]
  {
    var a := StreamEvents(order + [show], interests, trending, imdb, timestamp);
    var b := StreamEvents(order, interests, trending, imdb, timestamp)
      + [StreamEvent(show, interests[show], LookupMeta(imdb, show), trending, timestamp)];
    assert |a| == |b|;
    forall i | 0 <= i < |a|
      ensures a[i] == b[i]
    {
      if i < |order| {
        assert (order + [show])[i] == order[i];
      }
    }
  }

  class StreamingTrendsFetcher {
    /** `self.last_values`: the latest value seen per show. */
    var lastValues: map<string, real>

    constructor ()
      ensures lastValues == map[]
    {
      lastValues := map[];
    }

    /** The body of the batch loop for one batch: the success branch
        overwrites the results and the last values, the failure branch falls
        back on the last values. */
    method FetchBatch(batch: seq<string>, outcome: Fetch, results0: map<string, real>)
        returns (results: map<string, real>)
      modifies this
      ensures State(results, lastValues) == ApplyBatch(batch, outcome, State(results0, old(lastValues)))
    {
      results := results0;
      match outcome {
        case Fetched(data) =>
          for j := 0 to |batch|
            invariant results == Overwrite(batch[..j], data, results0)
            invariant lastValues == Overwrite(batch[..j], data, old(lastValues))
          {
            assert batch[..j + 1][..j] == batch[..j];
            var show := batch[j];
            if show in data {
              results := results[show := data[show]];
              lastValues := lastValues[show := data[show]];
            }
          }
        case Failed =>
          for j := 0 to |batch|
            invariant results == Fallback(batch[..j], old(lastValues), results0)
            invariant lastValues == old(lastValues)
          {
            assert batch[..j + 1][..j] == batch[..j];
            var show := batch[j];
            results := results[show := GetOr(lastValues, show, 0.0)];
          }
      }
      assert batch[..|batch|] == batch;
    }

    /** fetch_batch_interests, with `outcomes[b]` the result of the request
        for the b-th batch of five. */
    method FetchBatchInterests(shows: seq<string>, outcomes: seq<Fetch>) returns (results: map<string, real>)
      requires |outcomes| == |Chunks(shows, BATCH_SIZE)|
      modifies this
      ensures State(results, lastValues)
        == ApplyBatches(Chunks(shows, BATCH_SIZE), outcomes, State(map[], old(lastValues)))
      ensures forall k :: k in results ==> k in shows
      ensures forall k :: k !in shows ==>
        && (k in lastValues <==> k in old(lastValues))
        && (k in lastValues ==> lastValues[k] == old(lastValues)[k])
    {
      ghost var batches := Chunks(shows, BATCH_SIZE);
      ghost var start := State(map[], old(lastValues));
      ghost var done: seq<seq<string>> := [];
      results := map[];
      var i := 0;
      var b := 0;
      while i < |shows|
        invariant i <= |shows| && b == |done|
        invariant batches == done + Chunks(shows[i..], BATCH_SIZE)
        invariant State(results, lastValues) == ApplyBatches(done, outcomes[..b], start)
        decreases |shows| - i
      {
        var end := Min(i + BATCH_SIZE, |shows|);
        var batch := shows[i..end];
        ChunksFrom(shows, i, BATCH_SIZE);
        assert batches[b] == batch;
        ApplyBatchesSnoc(done, batch, outcomes, start);
        results := FetchBatch(batch, outcomes[b], results);
        done := done + [batch];
        i := end;
        b := b + 1;
      }
      assert done == batches;
      assert outcomes[..b] == outcomes;
      ApplyBatchesFrame(batches, outcomes, start);
      ChunksFlatten(shows, BATCH_SIZE);
    }
  }

  /** The push loop of stream_loop for one iteration: one event per entry of
      `interests`, all with the iteration's timestamp, pushed in a single
      pipeline; nothing when `interests` is empty. The loop walks the keys in
      an order it returns in `order`. */
  method PushInterests(q: Queue, interests: map<string, real>, trending: seq<string>,
                       imdb: map<string, Meta>, timestamp: int) returns (order: seq<string>)
    modifies q
    ensures |order| == |interests| && Distinct(order)
    ensures forall k :: k in order <==> k in interests
    ensures q.entries == old(q.entries) + EncodeAll(StreamEvents(order, interests, trending, imdb, timestamp))
  {
    order := [];
    if interests == map[] {
      assert EncodeAll(StreamEvents(order, interests, trending, imdb, timestamp)) == [];
      assert q.entries + [] == q.entries;
      return;
    }
    var events: seq<Event> := [];
    var remaining := interests.Keys;
    while remaining != {}
      invariant remaining <= interests.Keys
      invariant forall k :: k in order <==> k in interests && k !in remaining
      invariant Distinct(order)
      invariant |order| + |remaining| == |interests|
      invariant events == StreamEvents(order, interests, trending, imdb, timestamp)
      invariant q.entries == old(q.entries)
      decreases remaining
    {
      var show :| show in remaining;
      var meta := LookupMeta(imdb, show);
      DistinctAppend(order, show);
      StreamEventsAppend(order, show, interests, trending, imdb, timestamp);
      events := events + [StreamEvent(show, interests[show], meta, trending, timestamp)];
      order := order + [show];
      remaining := remaining - {show};
    }
    q.PushAll(events);
  }

  /** One iteration of stream_loop: trending titles, the batched fetch, then
      the push. */
  method StreamIteration(fetcher: StreamingTrendsFetcher, q: Queue, shows: seq<string>,
                         trendingResp: TrendingResponse, outcomes: seq<Fetch>,
                         imdb: map<string, Meta>, timestamp: int)
      returns (interests: map<string, real>, order: seq<string>)
    requires |outcomes| == |Chunks(shows, BATCH_SIZE)|
    modifies fetcher, q
    ensures State(interests, fetcher.lastValues)
      == ApplyBatches(Chunks(shows, BATCH_SIZE), outcomes, State(map[], old(fetcher.lastValues)))
    ensures |order| == |interests| && (forall k :: k in order <==> k in interests)
    ensures forall k :: k in order ==> k in shows
    ensures q.entries == old(q.entries)
      + EncodeAll(StreamEvents(order, interests, RealtimeTrends(trendingResp), imdb, timestamp))
  {
    var trending := RealtimeTrends(trendingResp);
    interests := fetcher.FetchBatchInterests(shows, outcomes);
    order := PushInterests(q, interests, trending, imdb, timestamp);
  }
}
