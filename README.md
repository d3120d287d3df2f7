# Franchise trends pipeline — a Dafny model

The system tracks how much attention TV franchises get. Several producers
push JSON events onto a Redis list, the *queue*, one event per show and
observation:

- a streaming producer polls Google Trends for the last four hours of
  every tracked show;
- a batch producer fetches twelve-month means with a thread pool;
- a historical backfill fetches one multi-year weekly history per show;
- a supplemental job fetches five yearly histories for a fixed list of
  extra shows.

Producers attach IMDb metadata to each event: vote count ("brand equity")
and rating, or an hours estimate. They look it up under the lower-cased,
stripped title.

A consumer pops events in batches, enriches each into a canonical record
and appends the records to an output list. It applies field defaults,
numeric coercions and an engagement score, which is the hype weighted by
the rating, with 5.0 when the rating is missing or zero. Every so many
records it also appends them to a snapshot file.

Two Streamlit dashboards read the output list:
- one shows a leaderboard of mean hype per title, a title picker and a
  hype-to-hours regression gated on a sample count;
- the other classifies every title's lifecycle as an early, mid or late
  peaker and preselects a few preferred franchises.

## How it is modelled

- `py_values.dfy` holds the JSON values and Python's `or`, `int()` and
  `float()` on them.
- `text.dfy` holds `strip`, `lower`, string order and decimal rendering.
- `seqs.dfy` holds generic sequence tools:
  - slicing and chunking;
  - flattening and gathering blocks in a given order;
  - de-duplication and an insertion sort.
- `consumer.dfy` models `consumer.py`:
  - the pure enrichment is a set of functions;
  - the main loop is a `Worker` class whose fields are the queue, the
    output list, the snapshot accumulator and the snapshot file.
- `trends.dfy` holds what the producers share:
  - metadata lookup;
  - Google Trends responses, given as parameters;
  - the history-to-event conversion;
  - the Redis list as a `Queue` class whose pipelines append to `entries`.
- `producer_streaming.dfy`, `producer.dfy`, `producer_integrated.dfy` and
  `producer2.dfy` each model the producer of the same name.
  - Loops are methods proved against specification functions.
  - `StreamingTrendsFetcher` is a class whose `lastValues` field its
    methods update.
- `app.dfy` and `app_enhanced.dfy` model the two dashboards as functions
  from the list read to what the page shows.
- `pipeline.dfy` connects the two ends: what the consumer makes of each
  kind of event a producer pushes.

External answers are parameters:
- what a Trends request returned (`Fetch`, `Response`, `TrendingResponse`);
- whether a thread-pool future raised (`Future`);
- the order in which futures complete, any permutation of the batch
  indices;
- the clock (`now`, `timestamp`);
- whether the snapshot write succeeded;
- the outcome of the dashboard's Redis read (`ReadOutcome`).

Notes on how the code behaves:
- The consumer can end in a third way besides idling and draining. On a
  truthy JSON string in a field it converts with `int()` or `float()`,
  `enrich_record` raises, nothing catches it, and the process ends before
  `pipe.execute()`. `Worker.Step` models this as the `Crashed` outcome.
- The leaderboard's order among equal means is not fixed.
  `sort_values` uses its default, unstable, sort. The model proves only the
  non-increasing order.
- The supplemental producer checks `not data.empty` but not whether the
  title's column exists. A frame without the column raises `KeyError` on its first row,
  which the per-period `except` catches. So such a period yields no points,
  the same as the backfill's explicit column check. Both are
  `HistoryPoints`.

## Model

| member | source | states |
|---|---|---|
| PyValues.Trunc | producer_integrated.py:149 | `int()` of a float truncates toward zero: within one below a non-negative value, within one above a negative one |
| PyValues.FloatOf | consumer.py:41 | `float()` of a JSON value: fails exactly on null and strings, keeps ints and floats |
| PyValues.IntOf | consumer.py:44 | `int()` of a JSON value: fails exactly on null and strings, keeps ints, truncates floats to within one |
| Text.StripLeftSpec | producer.py:62 | left strip removes exactly the leading whitespace: the result is a suffix, what was removed is all whitespace, and the result does not start with whitespace |
| Text.StripRightSpec | producer.py:62 | right strip removes exactly the trailing whitespace |
| Text.StripSpec | producer.py:62 | `strip()` returns the middle slice between a whitespace prefix and a whitespace suffix, and it neither starts nor ends with whitespace |
| Text.StripFixed | producer.py:62 | a string without surrounding whitespace is left unchanged by `strip()` |
| Text.StripIdempotent | producer.py:62 | stripping twice equals stripping once |
| Text.Lower | producer.py:197 | `lower()` keeps the length and lower-cases each character |
| Text.NormalizeCanonical | producer.py:197 | a `lower().strip()` key has no surrounding whitespace and no capitals, and normalising it again changes nothing |
| Text.StripKeepsLowerCase | producer.py:197 | stripping a lower-case string keeps it lower-case |
| Text.LexLeTotal | app.py:62 | any two titles are comparable in `sorted` order |
| Text.LexLeTransitive | app.py:62 | string order is transitive |
| Text.LexLeAntisymmetric | app.py:62 | two titles that precede each other are equal |
| Text.DecimalString | producer.py:80 | `str(i+1)` is a non-empty digit string that starts with '0' only for zero |
| Text.DecimalStringInjective | producer.py:80 | distinct numbers print differently, so the dummy show names differ |
| Seqs.Take | producer.py:63 | `lst[:n]` is the prefix of length min(n, len) |
| Seqs.ChunksFlatten | producer.py:130-133 | concatenating the chunks gives back the list |
| Seqs.ChunksShape | producer.py:130-133 | every chunk is non-empty with at most n items, and all but the last have exactly n |
| Seqs.ChunksCount | producer_streaming.py:121 | the number of chunks is `(len + n - 1) // n` |
| Seqs.GatherPermutation | producer.py:186 | pushing blocks in any permutation of their indices pushes the same multiset of items |
| Seqs.Dedup | app.py:62 | `unique()` keeps exactly the values present, each once |
| Seqs.SortBy | app.py:68 | sorting is a permutation of its input |
| Seqs.SortBySorted | app.py:68 | under a total preorder the sorted sequence is ordered |
| Seqs.DistinctPermutation | app.py:62 | a permutation of a duplicate-free sequence is duplicate-free |
| Consumer.SafeParse | consumer.py:27-32 | unparsable input becomes the empty, falsy document; parsable input is its document |
| Consumer.RatingOrNeutral | consumer.py:56 | `imdb_rating or 5.0` is never zero and is 5.0 when the rating is missing |
| Consumer.Engagement | consumer.py:56 | the engagement is zero exactly when the hype is; it is non-negative for non-negative inputs and at most the hype for ratings up to 10 |
| Consumer.TitleOf | consumer.py:37 | the title is the event's truthy title, else the metrics' truthy title, else "Unknown"; it is always truthy |
| Consumer.Enrich | consumer.py:34-67 | enrichment raises exactly on non-object metrics or a string in a converted field. Otherwise, field by field: the title is the event's or the metrics' truthy title, else "Unknown". The timestamp is the clock when falsy, the integer itself, or a float truncated toward zero. Hype and hours are 0.0 when falsy, else the number as a float. Brand equity is 0 when falsy, else the integer or the truncated float. The rating is absent exactly for null or text, else the number. Engagement is hype times `(rating or 5.0) / 10`, zero exactly at zero hype. Without a metrics object every metric is zero. |
| Consumer.ProcessAppend | consumer.py:88-95 | a batch split in two succeeds exactly when both parts do, and then gives the records of the first part followed by those of the second |
| Consumer.ProcessPrefixFails | consumer.py:88-98 | once an item raises, the whole batch raises, and nothing of it is published |
| Consumer.ProcessCount | consumer.py:88-95 | a successful batch yields one record per truthy parsed item, at most one per item |
| Consumer.GarbledDropped | consumer.py:89-91 | an unparsable item is skipped without output |
| Consumer.EnrichBatch | consumer.py:88-95 | the per-item loop computes the batch's records, or fails where an item raises |
| Consumer.Worker.constructor | consumer.py:78-80 | the loop starts with empty accumulator, snapshot and counter on the given queue and output list |
| Consumer.Worker.PopBatch | consumer.py:69-76 | up to n items are popped from the head in order, and the rest stays queued |
| Consumer.Worker.Step | consumer.py:82-110 | one iteration removes min(POP_BATCH, len) items. It is idle on an empty queue. It crashes, leaving the output unchanged, exactly when an item raises. It drains exactly when the popped batch is non-empty and no item raises, and then it appends the batch's records to the output list and the accumulator, and flushes the accumulator to the snapshot once it reaches the threshold, emptying it whether or not the write succeeds. The accumulator stays the tail of the output list. |
| ProducerStreaming.OverwriteAt | producer_streaming.py:133-139 | the success branch sets exactly the batch's shows present in the frame, to their fetched values, and keeps every other entry |
| ProducerStreaming.FallbackAt | producer_streaming.py:147-151 | the failure branch sets every show of the batch to its last value or 0.0, and keeps every other entry |
| ProducerStreaming.ApplyBatchAt | producer_streaming.py:127-151 | per show: a failed batch leaves the last values unchanged and falls back; a successful one updates both maps for the fetched shows; shows outside the batch are untouched |
| ProducerStreaming.ApplyBatchesFrame | producer_streaming.py:117-154 | after all batches every result is a tracked show, and the last values of untracked shows are unchanged |
| ProducerStreaming.RealtimeTrends | producer_streaming.py:105-115 | at most 20 trending titles, all from the response, the first 20 when it has a title column, none on failure |
| ProducerStreaming.StreamEvents | producer_streaming.py:179-197 | one event per pushed show, in push order |
| ProducerStreaming.StreamingTrendsFetcher.constructor | producer_streaming.py:99-103 | a new fetcher has no last values |
| ProducerStreaming.StreamingTrendsFetcher.FetchBatch | producer_streaming.py:123-152 | one batch's loop leaves the results and the last values as the batch step prescribes |
| ProducerStreaming.StreamingTrendsFetcher.FetchBatchInterests | producer_streaming.py:117-154 | the batched fetch over chunks of five equals the batch steps in order; results hold only tracked shows; other shows' last values are unchanged |
| ProducerStreaming.PushInterests | producer_streaming.py:175-199 | one pipeline pushes one event per interest key, each key once, and nothing when there are none |
| ProducerStreaming.StreamIteration | producer_streaming.py:167-202 | one iteration fetches, then pushes one event per show that got a value, all with the trending titles and one timestamp |
| Producer.NonBlankStripped | producer.py:62 | the list comprehension keeps at most one title per line |
| Producer.NonBlankStrippedMembers | producer.py:62 | the titles are exactly the stripped non-blank lines, each non-empty and already stripped |
| Producer.DummyShows | producer.py:80 | there are exactly n dummy names |
| Producer.DummyShowsDistinct | producer.py:80 | the dummy names are "Show 1" … "Show n", all distinct |
| Producer.LoadShowsList | producer.py:54-80 | never more than NUM_SHOWS titles |
| Producer.LoadShowsListShape | producer.py:54-80 | from the file: the first NUM_SHOWS stripped non-blank lines in order; with no file: NUM_SHOWS distinct dummy names starting at "Show 1" |
| Producer.FetchBatchInterest | producer.py:140-160 | every keyword gets a value: its frame mean when the request succeeded and it has a column, 0.0 otherwise |
| Producer.Interest | producer.py:188-192 | a batch's results have exactly its titles as keys |
| Producer.InterestUnique | producer.py:188-192 | any result map with the batch's keys and those values is `Interest` |
| Producer.BatchResults | producer.py:188-192 | a raised future gives zeros for its batch; otherwise the batch's fetched results |
| Producer.BatchEvents | producer.py:196-222 | one event per title of the batch |
| Producer.BatchEventsTitles | producer.py:196-222 | the pushed events carry the batch's titles in batch order |
| Producer.BatchEventMetrics | producer.py:197-221 | each event has the batch hype (0.0 if none), null brand equity and total plays, and a null rating exactly when the lookup misses or rates 0 |
| Producer.PushBatch | producer.py:195-223 | one pipeline appends the batch's events to the queue |
| Producer.CycleBlocks | producer.py:184-223 | one block of entries per batch |
| Producer.PushCompleted | producer.py:186-223 | handling one completed future appends exactly that batch's block |
| Producer.RunCycle | producer.py:184-223 | one cycle appends the batches' blocks in completion order |
| Producer.CycleTitles | producer.py:184-223 | the titles a cycle pushes are those of the batches in completion order |
| Producer.CyclePushesEveryShow | producer.py:178-223 | whatever the completion order, a cycle pushes one event per list entry, with the same multiplicities |
| Trends.LookupMeta | producer_integrated.py:164-166 | metadata comes from the normalised title's entry, or vote count 0 and rating 0.0 without one |
| Trends.LookupIgnoresCaseAndPadding | producer_integrated.py:164 | capitals and surrounding whitespace in a title do not change its metadata |
| Trends.ConvertRows | producer_integrated.py:146-150 | the points are the leading rows up to the first one `int()` rejects, each with its timestamp and truncated hype |
| Trends.HistoryPoints | producer_integrated.py:145-150 | a request yields no points exactly when it raised, the column is missing, the frame is empty or its first cell is NaN |
| Trends.ReadHistory | producer_integrated.py:139-160 | the row loop yields the history's points, at most one per row |
| Trends.HistoryBlocks | producer2.py:83-98 | one point block per request, each that request's points |
| Trends.HistoryEvents | producer_integrated.py:172-184 | one event per history point, in point order |
| Trends.EncodeAll | producer_integrated.py:184 | one `json.dumps` entry per event, in order |
| Trends.EncodeAllAppend | producer_integrated.py:184 | encoding distributes over concatenation |
| Trends.Queue.PushAll | producer_streaming.py:176-199 | a pipeline appends its events' encodings to the list |
| Trends.Queue.PushHistory | producer_integrated.py:170-191 | a non-empty history is pushed as one pipeline and reported as pushed; an empty one pushes nothing |
| Trends.ShowBlocks | producer_integrated.py:209-216 | one block of events per show, with that show's metadata |
| Trends.ShowsEventsLength | producer_integrated.py:209-216 | a run pushes one event per history point |
| Trends.ShowsEventsSplit | producer_integrated.py:209-216 | a show's events follow those of the earlier shows and precede the later ones |
| Trends.NothingPushedIffNoSuccess | producer_integrated.py:209-216 | a run pushes nothing exactly when no show had data |
| Trends.CountNonEmpty | producer_integrated.py:213-216 | the successes are at most the shows |
| Trends.CountNonEmptyAll | producer_integrated.py:213-216 | every show succeeds exactly when the success count is the number of shows |
| ProducerIntegrated.FetchHistory | producer_integrated.py:130-160 | the request yields its history's points, none on failure or without the column |
| ProducerIntegrated.ProcessShow | producer_integrated.py:162-191 | success exactly when the history is non-empty; the queue gains that history's events with the looked-up metadata |
| ProducerIntegrated.Backfill | producer_integrated.py:206-216 | successes and failures add up to the shows; successes are the non-empty histories; the queue gains every show's events in list order |
| Producer2.PeriodsPointsOrder | producer2.py:83-98 | a period's points follow the earlier periods' and precede the later ones' |
| Producer2.FailedPeriodSkipped | producer2.py:84-98 | a period whose request raises contributes nothing, and the later periods are still appended |
| Producer2.FetchHistory | producer2.py:72-99 | the history is the five periods' points in listed order |
| Producer2.ShowHistories | producer2.py:111-123 | one history per listed show |
| Producer2.RunSupplemental | producer2.py:111-143 | the queue gains every listed show's events in list order, with its metadata, and nothing for a show without data |
| App.ReadWindow | app.py:39-41 | the read is the last min(len, MAX_READ) entries of the list |
| App.NoDataIff | app.py:44-54 | the frame is empty exactly when the read failed or the list is empty |
| App.TitleColumn | app.py:62 | the title column lists each row's title |
| App.CountPositive | app.py:67 | a title has rows exactly when it occurs in the data |
| App.SumBounds | app.py:67 | a title's column sum lies between count times the least and count times the greatest value |
| App.MeanWithin | app.py:67 | a title's mean lies between bounds on its values |
| App.Aggregate | app.py:67 | one summary per distinct title, with that title's means |
| App.HypeFirstTotalPreorder | app.py:68 | descending mean hype is a total preorder |
| App.SortedSummaries | app.py:67-68 | the sorted aggregate is ordered, duplicate-free, and holds exactly each title's own summary |
| App.LeaderboardShape | app.py:67-68 | the board has min(top N, titles) rows, one per title, each with its own means, in non-increasing mean hype |
| App.LeaderboardIsTop | app.py:68 | a title left off the board has a mean hype no greater than any title on it |
| App.LexLeTotalPreorder | app.py:62 | string order is a total preorder |
| App.TitlePicker | app.py:62-63 | the sorted titles are every title once in strictly increasing order; the picker offers the first 20 and preselects the first 5 of them |
| App.KeyColumn | app.py:84 | one (title, time) key per row |
| App.KeyMaxHours | app.py:84 | a group's hours are the greatest of its rows' hours, and there is none for a key without rows |
| App.Filter | app.py:85 | the filter keeps exactly the listed keys that pass the condition, and keeps a duplicate-free list duplicate-free |
| App.RegressionKeysIff | app.py:83-85 | a group enters the regression exactly when it has rows, a positive mean hype and a row with positive hours |
| App.FitsModelCount | app.py:83-86 | the regression frame holds each kept group once, so the model is fitted exactly when more than thirty distinct (title, timestamp in seconds) groups are kept |
| App.RenderNoData | app.py:56-103 | the page shows "No data yet" exactly when the read failed or the list is empty; otherwise it reports the window's record count |
| AppEnhanced.ClassifyByIntegers | app_enhanced.py:32-43 | with hype and a positive span, early, mid and late peakers are the peaks before 33%, between 33% and 66%, and from 66% of the span |
| AppEnhanced.PeakAtEnds | app_enhanced.py:32-43 | a peak at the first timestamp is early, and one at the last is late |
| AppEnhanced.LaterPeakLaterStage | app_enhanced.py:39-43 | a later peak never gives an earlier lifecycle stage |
| AppEnhanced.RowsOf | app_enhanced.py:67 | a title's rows are exactly the rows with that title |
| AppEnhanced.FirstTimestamp | app_enhanced.py:68 | `min` of the timestamps is one of them and no greater than any |
| AppEnhanced.LastTimestamp | app_enhanced.py:69 | `max` of the timestamps is one of them and no less than any |
| AppEnhanced.PeakIndex | app_enhanced.py:73 | `idxmax` is the first row with the greatest hype |
| AppEnhanced.StatsShape | app_enhanced.py:67-80 | the peak lies between first and last timestamp, and the peak hype is the title's greatest. The peak is a row of the title, and no earlier row of the title has as much hype (`idxmax` picks the first). The lifecycle is the classification of that peak: a title without hype is N/A, and one with hype whose rows share one timestamp is Instant. |
| AppEnhanced.FirstPeakRow | app_enhanced.py:72-73 | the row `idxmax` picks sits at a position of the frame before which no row of the title has as much hype |
| AppEnhanced.AllStats | app_enhanced.py:67-80 | one statistics row per title, in first-seen order, each the statistics of that title |
| AppEnhanced.PresentIn | app_enhanced.py:111 | the defaults are exactly the preferred titles present, at most as many as preferred |
| AppEnhanced.PresentInOrder | app_enhanced.py:111 | the defaults keep the preferred list's order |
| AppEnhanced.DefaultShowsShape | app_enhanced.py:108-111 | the preselection is exactly the preferred titles in the data, each once |
| AppEnhanced.RowsIn | app_enhanced.py:123 | `isin` keeps exactly the rows of selected titles, each as many times as the frame holds it, and drops every other row |
| AppEnhanced.RowsInOrder | app_enhanced.py:123 | the kept rows are the frame's rows at their positions, one per position |
| AppEnhanced.PositionsInIncrease | app_enhanced.py:123 | those positions increase, so the kept rows keep frame order |
| AppEnhanced.FilterRows | app_enhanced.py:122-125 | with a selection, exactly the selected titles' rows, each with its multiplicity in the frame; without one, all rows |
| AppEnhanced.ReportWaiting | app_enhanced.py:65-87 | the waiting notice shows exactly when the read failed or the list is empty; otherwise there is one statistics row per title and every point counts |
| Pipeline.HistoryRecord | consumer.py:34-67 | a history event becomes a record with the point's hype, the looked-up metadata, no hours, and the rating-weighted engagement |
| Pipeline.MetadataMissHalvesEngagement | consumer.py:56 | a show without metadata is stored with rating 0.0, yet its engagement is half its hype |
| Pipeline.StreamRecord | consumer.py:34-67 | a streaming event becomes a record with its interest and metadata and no hours, and the trending flag is dropped |
| Pipeline.BatchRecord | consumer.py:34-67 | a batch event becomes a record with vote count 0, no rating when unknown or zero, and the estimated hours |
| Pipeline.EnrichAll | consumer.py:88-95 | one record per accepted event |
| Pipeline.ProcessEncoded | consumer.py:88-95 | pushed events the consumer accepts come out as one record each, in push order |
| Pipeline.HistoryThroughConsumer | consumer.py:88-95 | every pushed history point reaches the output list as one record, in point order |

## Left out

- Redis, Google Trends, the file system and the clock are not called. Their answers are parameters, and sleeps, backoff and logging are left out.
- JSON serialisation is abstract. An event is stored as its document, `Garbled` stands for text `json.loads` rejects, and the record order inside a document is not modelled.
- Consumer.Enrich: a JSON value is a scalar (`Value`). A non-empty `Text` stands for every truthy value that `int()` or `float()` rejects, including a non-empty JSON array or object, and an empty `Text` for the falsy ones such as `[]` and `{}`. The model treats every non-empty JSON string in a converted field as raising. Python's `int("7")` and `float("7.5")` accept numeric strings, and their parsing is not modelled.
- Consumer.Enrich: stores hype and engagement unrounded. `round(x, 3)` and `round(x, 4)` on floats are not modelled, and neither is floating point in general: real numbers stand for floats.
- Producer.BatchEvent: pushes the batch hype unrounded. The producer rounds it with `round(hype_score, 3)` first, and float rounding is not modelled.
- Producer.BatchEventMetrics: states that the pushed hype is the batch's mean itself, not that mean rounded to three decimals.
- Consumer.Enrich: reads every string rating as absent. Python's `float(imdb_rating)` converts a numeric string instead.
- Consumer.Worker.Step: models the output list push and the snapshot write as all-or-nothing. A partial snapshot write, and the in-memory state after a crash, are not modelled.
- Text.Lower: folds ASCII capitals only. Unicode case mapping is not modelled.
- ProducerStreaming.PushInterests: the order is any ordering of the keys, not the dictionary's insertion order.
- Producer.RunCycle: thread scheduling is reduced to the completion order, a permutation of the batch indices given as a parameter.
- Producer.LoadShowsList: the netflix_titles.csv branch takes pandas' candidate list as a parameter. `read_csv`, the type filter and `unique()` over the file are not modelled.
- `load_imdb_data`, `load_imdb_metadata` and `estimate_hours_from_imdb_row` read files. Their result, the metadata map with estimated hours, is a parameter.
- The tracked-show lists of the streaming and backfill producers are a parameter `shows`. The fixed lists of the supplemental job (NEW_SHOWS, the five timeframes) are constants.
- Environment overrides of the constants (POP_BATCH, SNAPSHOT_EVERY, NUM_SHOWS, BATCH_SIZE, MAX_READ) are not modelled. The model uses their defaults or takes them as parameters.
- Dashboards: the `time` and `datetime` columns, the weekly resample and the charts are not modelled.
- Dashboards: the rows are taken as records with a string title and numeric metrics. Missing columns, non-string titles and `dropna` on NaN values are not modelled.
- App.Aggregate: pandas' mean is the real-number sum divided by the count.
- App.FitsModel: decides whether the regression runs. The least-squares fit, R² and the scatter table are not modelled.
- App.LeaderboardShape: states no order among titles with equal mean hype, because pandas' default sort is not stable.
- App.Aggregate: lists the titles in first-seen order, while `groupby` sorts them by title before the hype sort. Only the order among equal means differs, and with it which equal-mean titles make the top N. Neither order is promised by the leaderboard's contract.
- AppEnhanced.AllStats: lists the statistics in first-seen title order, while `groupby('title')` sorts them by title. Every entry is still the statistics of its title.
- The statistics row's `mode()` of the lifecycle classes (app_enhanced.py:100) is not modelled.
- The enhanced dashboard's charts after the filter are not modelled.
