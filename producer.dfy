/** The batch producer (producer.py): it loads the show list, cuts it into
    batches of BATCH_SIZE, fetches the mean interest of each batch in
    parallel, and, as each batch completes, pushes one event per title of the
    batch with its IMDb rating and estimated hours. */
module Producer {
  import opened PyValues
  import opened Text
  import opened Seqs
  import opened Consumer
  import opened Trends

  /** NUM_SHOWS and PYTRENDS_BATCH_SIZE at their defaults. */
  const NUM_SHOWS: nat := 200
  const BATCH_SIZE: nat := 5

  /** Where load_shows_list finds its titles: shows_list.txt (its lines),
      netflix_titles.csv (the candidate titles pandas selects from it), or
      neither file. */
  datatype ShowsSource = ShowsFile(lines: seq<string>) | NetflixCsv(candidates: seq<string>) | NoFiles

  /** `[l.strip() for l in f if l.strip()]`. */
  function NonBlankStripped(lines: seq<string>): (titles: seq<string>)
    ensures |titles| <= |lines|
    decreases |lines|
  {
    if lines == [] then []
    else
      var init := NonBlankStripped(lines[..|lines| - 1]);
      var l := lines[|lines| - 1];
      if Strip(l) != [] then init + [Strip(l)] else init
  }

  /** The loaded titles are exactly the stripped forms of the non-blank
      lines: each is non-empty and has no surrounding whitespace. */
  lemma {:induction false} NonBlankStrippedMembers(lines: seq<string>)
    ensures forall t :: t in NonBlankStripped(lines) ==> t != [] && Strip(t) == t
    ensures forall l :: l in lines && Strip(l) != [] ==> Strip(l) in NonBlankStripped(lines)
    ensures forall t :: t in NonBlankStripped(lines) ==> exists l :: l in lines && Strip(l) == t
    decreases |lines|
  {
    if lines != [] {
      var init := lines[..|lines| - 1];
      var l := lines[|lines| - 1];
      NonBlankStrippedMembers(init);
      StripIdempotent(l);
      assert lines == init + [l];
      assert forall x :: x in lines <==> x in init || x == l;
    }
  }

  /** `[f"Show {i+1}" for i in range(n)]`. */
  function DummyShows(n: nat): (names: seq<string>)
    ensures |names| == n
  {
    seq(n, i requires 0 <= i < n => "Show " + DecimalString(i + 1))
  }

  /** The dummy names are "Show 1", ..., "Show n", all different. */
  lemma DummyShowsDistinct(n: nat)
    ensures forall i :: 0 <= i < n ==> DummyShows(n)[i] == "Show " + DecimalString(i + 1)
    ensures Distinct(DummyShows(n))
  {
    var names := DummyShows(n);
    forall i, j | 0 <= i < j < n
      ensures names[i] != names[j]
    {
      if names[i] == names[j] {
        assert names[i][5..] == DecimalString(i + 1);
        assert names[j][5..] == DecimalString(j + 1);
        DecimalStringInjective(i + 1, j + 1);
      }
    }
  }

  /** load_shows_list: the file's stripped non-blank lines, else the CSV's
      candidates, else the dummy names, cut to NUM_SHOWS. */
  function LoadShowsList(src: ShowsSource): (shows: seq<string>)
    ensures |shows| <= NUM_SHOWS
  {
    match src
    case ShowsFile(lines) => Take(NonBlankStripped(lines), NUM_SHOWS)
    case NetflixCsv(candidates) => Take(candidates, NUM_SHOWS)
    case NoFiles => DummyShows(NUM_SHOWS)
  }

  /** From the file: the first NUM_SHOWS stripped non-blank lines, in file
      order. Without any file: exactly NUM_SHOWS distinct dummy names. */
  lemma LoadShowsListShape(src: ShowsSource)
    ensures src.ShowsFile? ==>
      && LoadShowsList(src) == NonBlankStripped(src.lines)[..|LoadShowsList(src)|]
      && |LoadShowsList(src)| == Min(NUM_SHOWS, |NonBlankStripped(src.lines)|)
      && forall t :: t in LoadShowsList(src) ==> t != [] && Strip(t) == t
    ensures src.NoFiles? ==>
      && |LoadShowsList(src)| == NUM_SHOWS
      && Distinct(LoadShowsList(src))
      && LoadShowsList(src)[0] == "Show 1"
  {
    match src
    case ShowsFile(lines) =>
      var all := NonBlankStripped(lines);
      NonBlankStrippedMembers(lines);
      var shows := Take(all, NUM_SHOWS);
      assert forall t :: t in shows ==> t in all;
    case NetflixCsv(_) =>
    case NoFiles =>
      DummyShowsDistinct(NUM_SHOWS);
      assert DecimalString(1) == "1";
  }

  /** TrendsBatcher.fetch_batch_interest: every keyword starts at 0.0, and a
      keyword present in a successful frame takes its mean. */
  method FetchBatchInterest(keywords: seq<string>, outcome: Fetch) returns (results: map<string, real>)
    ensures results.Keys == set k | k in keywords
    ensures forall k :: k in results ==>
      results[k] == if outcome.Fetched? && k in outcome.data then outcome.data[k] else 0.0
  {
    results := map[];
    for i := 0 to |keywords|
      invariant results.Keys == set k | k in keywords[..i]
      invariant forall k :: k in results ==> results[k] == 0.0
    {
      assert forall k :: k in keywords[..i + 1] <==> k in keywords[..i] || k == keywords[i];
      results := results[keywords[i] := 0.0];
    }
    assert keywords[..|keywords|] == keywords;
    if outcome.Fetched? {
      var data := outcome.data;
      for i := 0 to |keywords|
        invariant results.Keys == set k | k in keywords
        invariant forall k :: k in results ==>
          results[k] == if k in keywords[..i] && k in data then data[k] else 0.0
      {
        assert forall k :: k in keywords[..i + 1] <==> k in keywords[..i] || k == keywords[i];
        var kw := keywords[i];
        if kw in data {
          results := results[kw := data[kw]];
        }
      }
    }
  }

  /** What a future of the thread pool gives back: it raised, or it returned
      fetch_batch_interest's result for the given request outcome. */
  datatype Future = FutureRaised | Returned(fetch: Fetch)

  /** `batch_results` for a batch: the fetched means, or zeros for every
      title when the future raised or the request failed. */
  function Interest(batch: seq<string>, future: Future): (m: map<string, real>)
    ensures m.Keys == set k | k in batch
  {
    map k | k in batch ::
      if future.Returned? && future.fetch.Fetched? && k in future.fetch.data then future.fetch.data[k] else 0.0
  }

  /** The merged IMDb row of a title: its averageRating and the hours
      estimate_hours_from_imdb_row derives from it. */
  datatype ImdbRow = ImdbRow(averageRating: real, estimatedHours: real)

  /** `imdb_map.get(title.lower().strip(), {})`, an empty row being falsy. */
  function LookupRow(imdb: map<string, ImdbRow>, title: string): Option<ImdbRow> {
    var key := Normalize(title);
    if key in imdb then Some(imdb[key]) else None
  }

  /** The event pushed for one title of a batch. */
  function BatchEvent(title: string, hype: real, row: Option<ImdbRow>, timestamp: int): Event {
    var rating := if row.Some? && row.value.averageRating != 0.0 then Real(row.value.averageRating) else Null;
    var hours := if row.Some? then row.value.estimatedHours else 0.0;
    Event(
      map["timestamp" := Int(timestamp), "title" := Text(title)],
      Object(map[
        "hype_score" := Real(hype),
        "imdb_rating" := rating,
        "netflix_hours" := Real(hours),
        "brand_equity" := Null,
        "total_plays" := Null]))
  }

  /** The events of one batch, one per title in batch order. */
  function BatchEvents(batch: seq<string>, results: map<string, real>, imdb: map<string, ImdbRow>,
                       timestamp: int): (es: seq<Event>)
    ensures |es| == |batch|
  {
    seq(|batch|, i requires 0 <= i < |batch| =>
      BatchEvent(batch[i], GetOr(results, batch[i], 0.0), LookupRow(imdb, batch[i]), timestamp))
  }

  lemma BatchEventsAppend(batch: seq<string>, title: string, results: map<string, real>,
                          imdb: map<string, ImdbRow>, timestamp: int)
    ensures BatchEvents(batch + [title], results, imdb, timestamp)
      == BatchEvents(batch, results, imdb, timestamp)
         + [BatchEvent(title, GetOr(results, title, 0.0), LookupRow(imdb, title), timestamp)]
  {
    var a := BatchEvents(batch + [title], results, imdb, timestamp);
    var b := BatchEvents(batch, results, imdb, timestamp)
      + [BatchEvent(title, GetOr(results, title, 0.0), LookupRow(imdb, title), timestamp)];
    forall i | 0 <= i < |a|
      ensures a[i] == b[i]
    {
      if i < |batch| {
        assert (batch + [title])[i] == batch[i];
      }
    }
  }

  /** The title of an encoded event, and what the dashboard later reads. */
  function TitleField(r: Raw): Value {
    if r.Encoded? && r.doc.ObjectDoc? then Get(r.doc.event.fields, "title") else Null
  }

  function TitlesOf(rs: seq<Raw>): (ts: seq<Value>)
    ensures |ts| == |rs|
  {
    seq(|rs|, i requires 0 <= i < |rs| => TitleField(rs[i]))
  }

  function Texts(titles: seq<string>): (vs: seq<Value>)
    ensures |vs| == |titles|
  {
    seq(|titles|, i requires 0 <= i < |titles| => Text(titles[i]))
  }

  lemma BatchEventAt(batch: seq<string>, results: map<string, real>, imdb: map<string, ImdbRow>,
                      timestamp: int, i: nat)
    requires i < |batch|
    ensures BatchEvents(batch, results, imdb, timestamp)[i]
      == BatchEvent(batch[i], GetOr(results, batch[i], 0.0), LookupRow(imdb, batch[i]), timestamp)
  {
  }

  /** Each batch pushes one event per title, carrying that title, in batch order. */
  lemma BatchEventsTitles(batch: seq<string>, results: map<string, real>, imdb: map<string, ImdbRow>,
                          timestamp: int)
    ensures TitlesOf(EncodeAll(BatchEvents(batch, results, imdb, timestamp))) == Texts(batch)
  {
    var es := BatchEvents(batch, results, imdb, timestamp);
    var ts := TitlesOf(EncodeAll(es));
    forall i | 0 <= i < |batch|
      ensures ts[i] == Text(batch[i])
    {
      BatchEventAt(batch, results, imdb, timestamp, i);
      assert EncodeAll(es)[i] == Encoded(ObjectDoc(es[i]));
    }
  }

  /** The metrics of a batch event: the hype from the batch results (0.0 for
      a title without one), imdb_rating null exactly when the lookup misses
      or the rating is 0, brand_equity and total_plays always null. */
  lemma BatchEventMetrics(title: string, results: map<string, real>, imdb: map<string, ImdbRow>,
                          timestamp: int)
    ensures var ev := BatchEvent(title, GetOr(results, title, 0.0), LookupRow(imdb, title), timestamp);
      && ev.metrics.Object?
      && Get(ev.metrics.entries, "brand_equity") == Null
      && Get(ev.metrics.entries, "total_plays") == Null
      && Get(ev.metrics.entries, "hype_score") == Real(if title in results then results[title] else 0.0)
      && (Get(ev.metrics.entries, "imdb_rating") == Null <==>
            Normalize(title) !in imdb || imdb[Normalize(title)].averageRating == 0.0)
  {
  }

  /** The push loop for one completed batch: `pipe.rpush` per title, then
      `pipe.execute()`. */
  method PushBatch(q: Queue, batch: seq<string>, results: map<string, real>,
                   imdb: map<string, ImdbRow>, timestamp: int)
    modifies q
    ensures q.entries == old(q.entries) + EncodeAll(BatchEvents(batch, results, imdb, timestamp))
  {
    var events: seq<Event> := [];
    for i := 0 to |batch|
      invariant events == BatchEvents(batch[..i], results, imdb, timestamp)
      invariant q.entries == old(q.entries)
    {
      var title := batch[i];
      assert batch[..i + 1] == batch[..i] + [title];
      BatchEventsAppend(batch[..i], title, results, imdb, timestamp);
      var hype := GetOr(results, title, 0.0);
      events := events + [BatchEvent(title, hype, LookupRow(imdb, title), timestamp)];
    }
    assert batch[..|batch|] == batch;
    q.PushAll(events);
  }

  /** The queue entries pushed for batch b. */
  function BatchEntries(batches: seq<seq<string>>, futures: seq<Future>, imdb: map<string, ImdbRow>,
                        timestamp: int, b: nat): seq<Raw>
    requires |futures| == |batches| && b < |batches|
  {
    EncodeAll(BatchEvents(batches[b], Interest(batches[b], futures[b]), imdb, timestamp))
  }

  function CycleBlocks(batches: seq<seq<string>>, futures: seq<Future>, imdb: map<string, ImdbRow>,
                       timestamp: int): (blocks: seq<seq<Raw>>)
    requires |futures| == |batches|
    ensures |blocks| == |batches|
  {
    seq(|batches|, b requires 0 <= b < |batches| => BatchEntries(batches, futures, imdb, timestamp, b))
  }

  /** One cycle of main_loop: the batches are handled in the order their
      futures complete (`order`, each batch index once), each pushing its
      events in a pipeline of its own. */
  method RunCycle(q: Queue, batches: seq<seq<string>>, futures: seq<Future>, order: seq<nat>,
                  imdb: map<string, ImdbRow>, timestamp: int)
    requires |futures| == |batches|
    requires IndicesBelow(order, |batches|) && multiset(order) == multiset(Range(|batches|))
    modifies q
    ensures q.entries == old(q.entries) + Gather(CycleBlocks(batches, futures, imdb, timestamp), order)
  {
    ghost var blocks := CycleBlocks(batches, futures, imdb, timestamp);
    for j := 0 to |order|
      invariant IndicesBelow(order[..j], |blocks|)
      invariant q.entries == old(q.entries) + Gather(blocks, order[..j])
    {
      ghost var before := q.entries;
      PushCompleted(q, batches, futures, imdb, timestamp, order[j]);
      assert blocks[order[j]] == BatchEntries(batches, futures, imdb, timestamp, order[j]);
      GatherStep(old(q.entries), before, q.entries, blocks, order, j);
    }
    assert order[..|order|] == order;
  }

  /** The handling of one completed future: its results, then its pipeline. */
  method PushCompleted(q: Queue, batches: seq<seq<string>>, futures: seq<Future>,
                       imdb: map<string, ImdbRow>, timestamp: int, b: nat)
    requires |futures| == |batches| && b < |batches|
    modifies q
    ensures q.entries == old(q.entries) + BatchEntries(batches, futures, imdb, timestamp, b)
  {
    var results := BatchResults(batches[b], futures[b]);
    PushBatch(q, batches[b], results, imdb, timestamp);
  }

  /** `future.result()`, or zeros for the batch when it raises. */
  method BatchResults(batch: seq<string>, future: Future) returns (results: map<string, real>)
    ensures results == Interest(batch, future)
  {
    match future {
      case FutureRaised =>
        results := map k | k in batch :: 0.0;
      case Returned(fetch) =>
        results := FetchBatchInterest(batch, fetch);
    }
    InterestUnique(batch, future, results);
  }

  /** One more block pushed after the gathered ones. */
  lemma GatherStep<T>(start: seq<T>, before: seq<T>, after: seq<T>, blocks: seq<seq<T>>, order: seq<nat>, j: nat)
    requires j < |order| && IndicesBelow(order, |blocks|)
    requires before == start + Gather(blocks, order[..j])
    requires after == before + blocks[order[j]]
    ensures IndicesBelow(order[..j + 1], |blocks|)
    ensures after == start + Gather(blocks, order[..j + 1])
  {
    GatherSnoc(blocks, order, j);
  }

  lemma GatherSnoc<T>(blocks: seq<seq<T>>, order: seq<nat>, j: nat)
    requires j < |order| && IndicesBelow(order, |blocks|)
    ensures IndicesBelow(order[..j], |blocks|) && IndicesBelow(order[..j + 1], |blocks|)
    ensures Gather(blocks, order[..j + 1]) == Gather(blocks, order[..j]) + blocks[order[j]]
  {
    assert order[..j + 1][..j] == order[..j];
  }

  /** batch_results as the loop computes it is the map Interest describes. */
  lemma InterestUnique(batch: seq<string>, future: Future, results: map<string, real>)
    requires results.Keys == set k | k in batch
    requires forall k :: k in results ==>
      results[k] == if future.Returned? && future.fetch.Fetched? && k in future.fetch.data then future.fetch.data[k] else 0.0
    ensures results == Interest(batch, future)
  {
  }

  lemma TitlesOfAppend(a: seq<Raw>, b: seq<Raw>)
    ensures TitlesOf(a + b) == TitlesOf(a) + TitlesOf(b)
  {
  }

  /** The titles of the gathered entries are the gathered titles of the batches. */
  lemma {:induction false} CycleTitles(batches: seq<seq<string>>, futures: seq<Future>, order: seq<nat>,
                                       imdb: map<string, ImdbRow>, timestamp: int)
    requires |futures| == |batches| && IndicesBelow(order, |batches|)
    ensures TitlesOf(Gather(CycleBlocks(batches, futures, imdb, timestamp), order))
      == Gather(seq(|batches|, b requires 0 <= b < |batches| => Texts(batches[b])), order)
    decreases |order|
  {
    if order != [] {
      var n := |order| - 1;
      var blocks := CycleBlocks(batches, futures, imdb, timestamp);
      CycleTitles(batches, futures, order[..n], imdb, timestamp);
      TitlesOfAppend(Gather(blocks, order[..n]), blocks[order[n]]);
      var b := order[n];
      BatchEventsTitles(batches[b], Interest(batches[b], futures[b]), imdb, timestamp);
    }
  }

  lemma {:induction false} TextsFlatten(ss: seq<seq<string>>)
    ensures Flatten(seq(|ss|, b requires 0 <= b < |ss| => Texts(ss[b]))) == Texts(Flatten(ss))
    decreases |ss|
  {
    if ss != [] {
      var n := |ss| - 1;
      TextsFlatten(ss[..n]);
      var blocks := seq(|ss|, b requires 0 <= b < |ss| => Texts(ss[b]));
      assert blocks[..n] == seq(n, b requires 0 <= b < n => Texts(ss[..n][b]));
      assert Texts(Flatten(ss)) == Texts(Flatten(ss[..n])) + Texts(ss[n]);
    }
  }

  /** Whatever order the futures complete in, one cycle over the chunked
      show list pushes one event per list entry: the pushed titles are the
      shows with the same multiplicities. */
  lemma CyclePushesEveryShow(shows: seq<string>, futures: seq<Future>, order: seq<nat>,
                             imdb: map<string, ImdbRow>, timestamp: int)
    requires |futures| == |Chunks(shows, BATCH_SIZE)|
    requires IndicesBelow(order, |futures|) && multiset(order) == multiset(Range(|futures|))
    ensures multiset(TitlesOf(Gather(CycleBlocks(Chunks(shows, BATCH_SIZE), futures, imdb, timestamp), order)))
      == multiset(Texts(shows))
  {
    var batches := Chunks(shows, BATCH_SIZE);
    var titleBlocks := seq(|batches|, b requires 0 <= b < |batches| => Texts(batches[b]));
    CycleTitles(batches, futures, order, imdb, timestamp);
    GatherPermutation(titleBlocks, order, Range(|batches|));
    GatherRange(titleBlocks, |batches|);
    assert titleBlocks[..|batches|] == titleBlocks;
    TextsFlatten(batches);
    ChunksFlatten(shows, BATCH_SIZE);
  }
}
