/** The historical backfill producer: one history request per tracked show,
    its weekly points pushed as events, and a tally of the shows that
    yielded data and those that did not. */
module ProducerIntegrated {
  import opened Seqs
  import opened Trends

  /** `fetch_history`: the points of one request, empty when the request
      raised or the frame lacks the title's column. */
  method FetchHistory(resp: Response) returns (history: seq<Point>)
    ensures history == HistoryPoints(resp)
    ensures resp.Raised? || !resp.hasColumn ==> history == []
  {
    history := ReadHistory(resp);
  }

  /** `process_show`: the metadata looked up under the normalised title, the
      history fetched, and its events pushed in one pipeline when there are
      any. The result says whether anything was pushed. */
  method ProcessShow(q: Queue, title: string, imdb: map<string, Meta>, resp: Response) returns (success: bool)
    modifies q
    ensures success <==> HistoryPoints(resp) != []
    ensures q.entries == old(q.entries) + EncodeAll(HistoryEvents(title, LookupMeta(imdb, title), HistoryPoints(resp)))
  {
    var meta := LookupMeta(imdb, title);
    var history := FetchHistory(resp);
    success := q.PushHistory(title, meta, history);
  }

  /** `main_loop`'s backfill over the show list, one response per list entry
      (a title listed twice is requested and counted twice). */
  method Backfill(q: Queue, shows: seq<string>, imdb: map<string, Meta>, responses: seq<Response>)
    returns (successCount: nat, failureCount: nat)
    requires |responses| == |shows|
    modifies q
    ensures successCount + failureCount == |shows|
    ensures successCount == CountNonEmpty(HistoryBlocks(responses))
    ensures q.entries == old(q.entries) + EncodeAll(ShowsEvents(shows, imdb, HistoryBlocks(responses)))
  {
    ghost var hs := HistoryBlocks(responses);
    successCount, failureCount := 0, 0;
    for i := 0 to |shows|
      invariant successCount + failureCount == i
      invariant successCount == CountNonEmpty(hs[..i])
      invariant q.entries == old(q.entries) + EncodeAll(ShowsEvents(shows[..i], imdb, hs[..i]))
    {
      ghost var before := q.entries;
      var success := ProcessShow(q, shows[i], imdb, responses[i]);
      RunStep(old(q.entries), before, q.entries, shows, imdb, hs, i);
      CountNonEmptySnoc(hs, i);
      if success {
        successCount := successCount + 1;
      } else {
        failureCount := failureCount + 1;
      }
    }
    assert shows[..|shows|] == shows && hs[..|hs|] == hs;
  }
}
