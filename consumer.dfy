/** The consumer (consumer.py): it drains the ingestion queue in batches, turns
    each event into a flat record with Python-truthiness defaults, appends the
    records to the output list in dequeue order, and flushes a snapshot
    accumulator once it reaches a threshold. */
module Consumer {
  import opened PyValues
  import opened Seqs

  /** The "metrics" entry of an event: missing, present but not a JSON object
      (null, a number, a list, ...), or an object. */
  datatype MetricsField = Absent | NotObject | Object(entries: map<string, Value>)

  /** A JSON object taken from the queue: its scalar top-level entries
      ("timestamp", "title", ...) and its "metrics" entry. */
  datatype Event = Event(fields: map<string, Value>, metrics: MetricsField)

  /** What json.loads makes of a queue entry: an object, or another JSON
      document (array, string, number, literal) of which only its truthiness
      matters to the consumer. */
  datatype Doc = ObjectDoc(event: Event) | OtherDoc(truthy: bool)

  /** A queue entry: text that is not JSON, or the JSON text of a document. */
  datatype Raw = Garbled | Encoded(doc: Doc)

  /** The enriched record appended to the output list. */
  datatype Record = Record(
    timestamp: int,
    title: Value,
    hypeScore: real,
    brandEquity: int,
    imdbRating: Option<real>,
    netflixHours: real,
    engagementScore: real)

  /** The empty JSON object `{}`. */
  const EMPTY_EVENT := Event(map[], Absent)

  /** dict.get(k): None for a missing key. */
  function Get(m: map<string, Value>, k: string): Value {
    if k in m then m[k] else Null
  }

  /** `not ev` is false: the parsed document is worth enriching. */
  predicate DocTruthy(d: Doc) {
    match d
    case ObjectDoc(e) => e != EMPTY_EVENT
    case OtherDoc(t) => t
  }

  /** safe_parse: json.loads, with `{}` in place of a parse failure. */
  function SafeParse(raw: Raw): (d: Doc)
    ensures raw.Garbled? ==> d == ObjectDoc(EMPTY_EVENT) && !DocTruthy(d)
    ensures raw.Encoded? ==> d == raw.doc
  {
    match raw
    case Garbled => ObjectDoc(EMPTY_EVENT)
    case Encoded(d) => d
  }

  /** `event.get("metrics", {})`, or None where a later `.get` on it raises. */
  function MetricsOf(ev: Event): Option<map<string, Value>> {
    match ev.metrics
    case Absent => Some(map[])
    case NotObject => None
    case Object(m) => Some(m)
  }


  /** `(imdb_rating or 5.0)`: a missing or zero rating counts as 5.0. */
  function RatingOrNeutral(rating: Option<real>): (r: real)
    ensures r != 0.0
    ensures rating.None? ==> r == 5.0
  {
    match rating
    case None => 5.0
    case Some(x) => if x == 0.0 then 5.0 else x
  }

  /** `hype * ((imdb_rating or 5.0) / 10.0)`. */
  function Engagement(hype: real, rating: Option<real>): (e: real)
    ensures e == 0.0 <==> hype == 0.0
    ensures hype >= 0.0 && RatingOrNeutral(rating) >= 0.0 ==> e >= 0.0
    ensures hype >= 0.0 && RatingOrNeutral(rating) <= 10.0 ==> e <= hype
  {
    hype * (RatingOrNeutral(rating) / 10.0)
  }

  /** `event.get("title") or metrics.get("title") or "Unknown"`. */
  function TitleOf(ev: Event, m: map<string, Value>): (t: Value)
    ensures Truthy(t)
    ensures Truthy(Get(ev.fields, "title")) ==> t == Get(ev.fields, "title")
    ensures !Truthy(Get(ev.fields, "title")) && Truthy(Get(m, "title")) ==> t == Get(m, "title")
    ensures !Truthy(Get(ev.fields, "title")) && !Truthy(Get(m, "title")) ==> t == Text("Unknown")
  {
    Or(Or(Get(ev.fields, "title"), Get(m, "title")), Text("Unknown"))
  }

  /** A non-empty JSON string where the source calls int() or float() on it. */
  predicate IsWord(v: Value) {
    v.Text? && v.s != ""
  }

  /** The events on which enrich_record raises: metrics that are not an
      object, or a truthy text where a timestamp, hype score, brand equity or
      hours value is converted. */
  predicate Crashes(ev: Event) {
    || ev.metrics.NotObject?
    || IsWord(Get(ev.fields, "timestamp"))
    || (ev.metrics.Object? && (
         || IsWord(Get(ev.metrics.entries, "hype_score"))
         || IsWord(Get(ev.metrics.entries, "brand_equity"))
         || IsWord(Get(ev.metrics.entries, "netflix_hours"))))
  }

  /** x is what `float(v or 0.0)` gives for an accepted scalar v. */
  predicate FloatReading(v: Value, x: real) {
    && (!Truthy(v) ==> x == 0.0)
    && (v.Bool? ==> x == if v.b then 1.0 else 0.0)
    && (v.Int? ==> x == v.i as real)
    && (v.Real? ==> x == v.r)
  }

  /** n is what `int(v or d)` gives for an accepted scalar v: the default for
      a falsy v, the integer itself, or the float truncated toward zero. */
  predicate IntReading(v: Value, d: int, n: int) {
    && (!Truthy(v) ==> n == d)
    && (v.Bool? && v.b ==> n == 1)
    && (v.Int? && v.i != 0 ==> n == v.i)
    && (v.Real? && v.r != 0.0 ==> n == Trunc(v.r) && -1.0 < n as real - v.r < 1.0)
  }

  /** rating is what the source keeps of `imdb_rating` v: nothing for null or
      text, the number otherwise. */
  predicate RatingReading(v: Value, rating: Option<real>) {
    && (rating.None? <==> v.Null? || v.Text?)
    && (v.Bool? ==> rating == Some(if v.b then 1.0 else 0.0))
    && (v.Int? ==> rating == Some(v.i as real))
    && (v.Real? ==> rating == Some(v.r))
  }

  /** `float(v or 0.0)`; None where it raises. */
  function FloatField(v: Value): (x: Option<real>)
    ensures x.None? <==> IsWord(v)
    ensures x.Some? ==> FloatReading(v, x.value)
  {
    FloatOf(Or(v, Real(0.0)))
  }

  /** `int(v or d)`; None where it raises. */
  function IntField(v: Value, d: int): (n: Option<int>)
    ensures n.None? <==> IsWord(v)
    ensures n.Some? ==> IntReading(v, d, n.value)
  {
    IntOf(Or(v, Int(d)))
  }

  /** `imdb_rating`: None when absent or null, or when float() rejects it. */
  function Rating(v: Value): (rating: Option<real>)
    ensures RatingReading(v, rating)
  {
    if v.Null? then None else FloatOf(v)
  }

  /** enrich_record, with the clock reading `now` for a missing timestamp;
      None where the source raises. */
  function Enrich(ev: Event, now: int): (r: Option<Record>)
    ensures r.None? <==> Crashes(ev)
    ensures r.Some? ==> Truthy(r.value.title)
    ensures r.Some? ==> (r.value.engagementScore == 0.0 <==> r.value.hypeScore == 0.0)
    ensures r.Some? ==> IntReading(Get(ev.fields, "timestamp"), now, r.value.timestamp)
    ensures r.Some? ==> MetricsOf(ev).Some?
    ensures r.Some? ==>
      var m := MetricsOf(ev).value;
      && r.value.title == TitleOf(ev, m)
      && FloatReading(Get(m, "hype_score"), r.value.hypeScore)
      && IntReading(Get(m, "brand_equity"), 0, r.value.brandEquity)
      && RatingReading(Get(m, "imdb_rating"), r.value.imdbRating)
      && FloatReading(Get(m, "netflix_hours"), r.value.netflixHours)
      && r.value.engagementScore
         == r.value.hypeScore * (RatingOrNeutral(r.value.imdbRating) / 10.0)
    ensures r.Some? && ev.metrics.Absent? ==>
      r.value.hypeScore == 0.0 && r.value.brandEquity == 0 && r.value.imdbRating.None?
      && r.value.netflixHours == 0.0 && r.value.engagementScore == 0.0
  {
    match MetricsOf(ev)
    case None => None
    case Some(m) =>
      var ts := IntField(Get(ev.fields, "timestamp"), now);
      var hype := FloatField(Get(m, "hype_score"));
      var equity := IntField(Get(m, "brand_equity"), 0);
      var hours := FloatField(Get(m, "netflix_hours"));
      if ts.None? || hype.None? || equity.None? || hours.None? then None
      else
        var rating := Rating(Get(m, "imdb_rating"));
        Some(Record(ts.value, TitleOf(ev, m), hype.value, equity.value, rating,
                    hours.value, Engagement(hype.value, rating)))
  }

  /** The records one queue entry contributes: none when it is skipped, one
      when it is enriched, None when the consumer raises on it. */
  function Handle(raw: Raw, now: int): Option<seq<Record>> {
    var d := SafeParse(raw);
    if !DocTruthy(d) then Some([])
    else match d
      case OtherDoc(_) => None
      case ObjectDoc(ev) =>
        match Enrich(ev, now)
        case None => None
        case Some(rec) => Some([rec])
  }

  /** The records a batch contributes, in dequeue order; None when the
      consumer raises on one of its entries. */
  function Process(items: seq<Raw>, now: int): Option<seq<Record>>
    decreases |items|
  {
    if items == [] then Some([])
    else match Process(items[..|items| - 1], now)
      case None => None
      case Some(rs) =>
        match Handle(items[|items| - 1], now)
        case None => None
        case Some(x) => Some(rs + x)
  }

  /** Processing a concatenation is processing each part in turn. */
  lemma {:induction false} ProcessAppend(a: seq<Raw>, b: seq<Raw>, now: int)
    ensures Process(a + b, now).Some? <==> Process(a, now).Some? && Process(b, now).Some?
    ensures Process(a + b, now).Some? ==>
      Process(a + b, now).value == Process(a, now).value + Process(b, now).value
    decreases |b|
  {
    if b == [] {
      assert a + b == a;
    } else {
      var b' := b[..|b| - 1];
      var h := Handle(b[|b| - 1], now);
      assert (a + b)[..|a + b| - 1] == a + b';
      assert (a + b)[|a + b| - 1] == b[|b| - 1];
      ProcessAppend(a, b', now);
      if Process(a, now).Some? && Process(b', now).Some? && h.Some? {
        var pa, pb := Process(a, now).value, Process(b', now).value;
        assert Process(b, now).value == pb + h.value;
        assert Process(a + b, now).value == (pa + pb) + h.value;
        assert (pa + pb) + h.value == pa + (pb + h.value);
      }
    }
  }

  /** Once the consumer raises on an entry, the whole batch raises. */
  lemma ProcessPrefixFails(items: seq<Raw>, k: nat, now: int)
    requires k <= |items| && Process(items[..k], now).None?
    ensures Process(items, now).None?
  {
    assert items == items[..k] + items[k..];
    ProcessAppend(items[..k], items[k..], now);
  }

  /** The number of entries that parse to a truthy document. */
  function CountAccepted(items: seq<Raw>): nat
    decreases |items|
  {
    if items == [] then 0
    else CountAccepted(items[..|items| - 1]) + (if DocTruthy(SafeParse(items[|items| - 1])) then 1 else 0)
  }

  /** A batch yields one record per accepted entry: skipped entries add nothing. */
  lemma {:induction false} ProcessCount(items: seq<Raw>, now: int)
    requires Process(items, now).Some?
    ensures |Process(items, now).value| == CountAccepted(items) <= |items|
    decreases |items|
  {
    if items != [] {
      ProcessCount(items[..|items| - 1], now);
    }
  }

  /** Entries that are not JSON are dropped and change nothing else. */
  lemma GarbledDropped(items: seq<Raw>, now: int)
    ensures Process(items + [Garbled], now) == Process(items, now)
  {
    assert (items + [Garbled])[..|items|] == items;
    if Process(items, now).Some? {
      assert Process(items, now).value + [] == Process(items, now).value;
    }
  }

  /** The per-item loop of main_loop: the records of the parsed, truthy
      items in dequeue order, or None at the first item enrich_record
      raises on. */
  method EnrichBatch(items: seq<Raw>, now: int) returns (result: Option<seq<Record>>)
    ensures result == Process(items, now)
  {
    var pending: seq<Record> := [];
    var i := 0;
    while i < |items|
      invariant i <= |items|
      invariant Process(items[..i], now) == Some(pending)
    {
      var out := Handle(items[i], now);
      ProcessSnoc(items, i, now);
      if out.None? {
        ProcessPrefixFails(items, i + 1, now);
        return None;
      }
      pending := pending + out.value;
      i := i + 1;
    }
    assert items[..i] == items;
    return Some(pending);
  }

  /** One more item: the batch so far, then what the item contributes. */
  lemma ProcessSnoc(items: seq<Raw>, i: nat, now: int)
    requires i < |items| && Process(items[..i], now).Some?
    ensures Process(items[..i + 1], now) ==
      if Handle(items[i], now).None? then None
      else Some(Process(items[..i], now).value + Handle(items[i], now).value)
  {
    assert items[..i + 1][..i] == items[..i];
  }

  /** The accumulator stays the tail of the output list when both grow by
      the same records. */
  lemma TailAppend(data: seq<Record>, acc: seq<Record>, recs: seq<Record>)
    requires |acc| <= |data| && data[|data| - |acc|..] == acc
    ensures (data + recs)[|data + recs| - |acc + recs|..] == acc + recs
  {
    assert (data + recs)[|data + recs| - |acc + recs|..] == data[|data| - |acc|..] + recs;
  }

  /** The state main_loop keeps, and the two Redis lists it works on. */
  datatype StepOutcome = Idle | Drained(appended: nat, flushed: bool) | Crashed

  class Worker {
    /** POP_BATCH and SNAPSHOT_EVERY. */
    const popBatch: nat
    const snapshotEvery: nat
    /** The length of the output list when the loop started. */
    ghost const base: nat

    var queue: seq<Raw>
    var dataList: seq<Record>
    var snapshotAccum: seq<Record>
    var snapshotLog: seq<Record>
    var totalProcessed: nat

    /** Every processed record is on the output list, the accumulator is the
        tail of the output list, and it is below the threshold between steps. */
    ghost predicate Valid()
      reads this
    {
      && |dataList| == base + totalProcessed
      && |snapshotAccum| <= totalProcessed
      && dataList[|dataList| - |snapshotAccum|..] == snapshotAccum
      && (|snapshotAccum| < snapshotEvery || snapshotAccum == [])
      && |snapshotLog| + |snapshotAccum| <= totalProcessed
    }

    constructor (popBatch: nat, snapshotEvery: nat, queue: seq<Raw>, dataList: seq<Record>)
      ensures Valid()
      ensures this.popBatch == popBatch && this.snapshotEvery == snapshotEvery
      ensures this.queue == queue && this.dataList == dataList
      ensures snapshotAccum == [] && snapshotLog == [] && totalProcessed == 0
    {
      this.popBatch := popBatch;
      this.snapshotEvery := snapshotEvery;
      this.base := |dataList|;
      this.queue := queue;
      this.dataList := dataList;
      snapshotAccum := [];
      snapshotLog := [];
      totalProcessed := 0;
    }

    /** pop_batch: up to n LPOPs, stopping at the first empty pop. */
    method PopBatch(n: nat) returns (items: seq<Raw>)
      modifies this`queue
      ensures items == old(queue)[..Min(n, |old(queue)|)]
      ensures queue == old(queue)[Min(n, |old(queue)|)..]
    {
      items := [];
      var k := 0;
      while k < n
        invariant k <= n && k <= |old(queue)|
        invariant items == old(queue)[..k] && queue == old(queue)[k..]
        decreases n - k
      {
        if queue == [] {
          break;
        }
        items := items + [queue[0]];
        queue := queue[1..];
        k := k + 1;
      }
    }

    /** One iteration of main_loop. `now` is the clock for events without a
        timestamp and `snapshotWritten` whether the snapshot file write succeeds. */
    method Step(now: int, snapshotWritten: bool) returns (outcome: StepOutcome)
      requires Valid()
      modifies this
      ensures Valid()
      ensures var k := Min(popBatch, |old(queue)|);
        && queue == old(queue)[k..]
        && (k == 0 ==> outcome == Idle)
        && (outcome.Crashed? <==> k > 0 && Process(old(queue)[..k], now).None?)
        && (outcome.Drained? <==> k > 0 && Process(old(queue)[..k], now).Some?)
      ensures !outcome.Drained? ==>
        dataList == old(dataList) && snapshotAccum == old(snapshotAccum)
        && snapshotLog == old(snapshotLog) && totalProcessed == old(totalProcessed)
      ensures outcome.Drained? ==>
        var recs := Process(old(queue)[..Min(popBatch, |old(queue)|)], now).value;
        var acc := old(snapshotAccum) + recs;
        && dataList == old(dataList) + recs
        && totalProcessed == old(totalProcessed) + |recs|
        && outcome.appended == |recs|
        && outcome.flushed == (|acc| >= snapshotEvery)
        && (outcome.flushed ==>
              snapshotAccum == [] && snapshotLog == old(snapshotLog) + (if snapshotWritten then acc else []))
        && (!outcome.flushed ==> snapshotAccum == acc && snapshotLog == old(snapshotLog))
    {
      ghost var k := Min(popBatch, |queue|);
      var items := PopBatch(popBatch);
      assert |items| == k;
      if items == [] {
        return Idle;
      }
      var result := EnrichBatch(items, now);
      assert result == Process(old(queue)[..k], now);
      if result.None? {
        // enrich_record raises: the process ends before pipe.execute()
        return Crashed;
      }
      var pending := result.value;
      TailAppend(dataList, snapshotAccum, pending);
      dataList := dataList + pending;
      snapshotAccum := snapshotAccum + pending;
      totalProcessed := totalProcessed + |pending|;
      if |snapshotAccum| >= snapshotEvery {
        if snapshotWritten {
          snapshotLog := snapshotLog + snapshotAccum;
        }
        snapshotAccum := [];
        outcome := Drained(|pending|, true);
      } else {
        outcome := Drained(|pending|, false);
      }
    }
  }
}
