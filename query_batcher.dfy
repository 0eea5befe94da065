// The bulk URI reader of the datamovement package
// (datamovement/query-batcher.go, created by datamovement/service.go): one
// reader per forest pages through the forest's URIs with an `after` cursor,
// stamps every page with the batcher's timestamp and hands it to every
// listener. The server is the sequence of replies it gives, in order.
module QueryBatchers {
  import opened Common
  import opened Batching
  import opened UtilInternals
  import Util

  /** The server's answer to one page request: the page's URIs and the timestamp the handle holds afterwards. */
  datatype Page = Page(uris: seq<string>, timestamp: string)

  /** A page as the listeners get it: its URIs and the batcher's timestamp at that moment. */
  datatype QueryBatch = QueryBatch(uris: seq<string>, timestamp: string)

  /** One page request: the cursor and the point-in-time timestamp it carries ("" for none). */
  datatype Request = Request(after: string, timestamp: string)

  /** What one reader does: every request it sends, the batches it hands out, and the batcher's timestamp at the end. */
  datatype Reading = Reading(requests: seq<Request>, batches: seq<QueryBatch>, timestamp: string)

  /** The cursor after a page: the page's last URI, or the old cursor for an empty page. */
  function NextCursor(uris: seq<string>, after: string): string
  {
    if |uris| > 0 then uris[|uris| - 1] else after
  }

  /** The batcher's timestamp after a reply: kept once set, otherwise taken from the reply. */
  function Stamp(current: string, reply: string): string
  {
    if current == "" then reply else current
  }

  /**
   * `runReadThread` over the server's replies, from cursor `after` and
   * batcher timestamp `timestamp`: each round requests a page at the cursor
   * with the batcher's timestamp,
   * sets the timestamp if it is still "", moves the cursor, hands the page
   * out, and stops after the first page shorter than the batch size.
   */
  function Read(replies: seq<Page>, size: nat, after: string, timestamp: string): Reading
    decreases |replies|
  {
    if replies == [] then Reading([], [], timestamp)
    else
      var p := replies[0];
      var ts := Stamp(timestamp, p.timestamp);
      var batch := QueryBatch(p.uris, ts);
      var request := Request(after, timestamp);
      if |p.uris| < size then Reading([request], [batch], ts)
      else
        var rest := Read(replies[1..], size, NextCursor(p.uris, after), ts);
        Reading([request] + rest.requests, [batch] + rest.batches, rest.timestamp)
  }

  /**
   * One request per page handed out, each page handed out as the server sent
   * it; every page but the last is full, and when the reader stops before the
   * replies run out, it is because the last page was short.
   */
  lemma {:induction false} ReadPages(replies: seq<Page>, size: nat, after: string, timestamp: string)
    ensures var r := Read(replies, size, after, timestamp);
      |r.requests| == |r.batches| <= |replies|
      && (replies != [] ==> |r.batches| >= 1)
      && (forall k :: 0 <= k < |r.batches| ==> r.batches[k].uris == replies[k].uris)
      && (forall k :: 0 <= k < |r.batches| - 1 ==> |replies[k].uris| >= size)
      && (0 < |r.batches| < |replies| ==> |replies[|r.batches| - 1].uris| < size)
    decreases |replies|
  {
    if replies != [] && |replies[0].uris| >= size {
      var p := replies[0];
      var ts := Stamp(timestamp, p.timestamp);
      var tail := replies[1..];
      ReadPages(tail, size, NextCursor(p.uris, after), ts);
      var rest := Read(tail, size, NextCursor(p.uris, after), ts);
      var r := Read(replies, size, after, timestamp);
      assert r.batches == [QueryBatch(p.uris, ts)] + rest.batches;
      forall k | 0 < k < |replies| ensures replies[k] == tail[k - 1] {
      }
      forall k | 0 <= k < |r.batches| ensures r.batches[k].uris == replies[k].uris {
        if k > 0 {
          assert r.batches[k] == rest.batches[k - 1];
        }
      }
    }
  }

  /**
   * The first request carries the starting cursor and timestamp; every later
   * one carries the cursor the previous page left and the timestamp that
   * stamped the previous batch.
   */
  lemma {:induction false} ReadRequests(replies: seq<Page>, size: nat, after: string, timestamp: string)
    ensures var r := Read(replies, size, after, timestamp);
      |r.requests| == |r.batches| <= |replies|
      && (r.requests != [] ==> r.requests[0] == Request(after, timestamp))
      && forall k :: 0 <= k < |r.requests| - 1 ==>
           r.requests[k + 1] == Request(NextCursor(replies[k].uris, r.requests[k].after), r.batches[k].timestamp)
    decreases |replies|
  {
    ReadPages(replies, size, after, timestamp);
    if replies != [] && |replies[0].uris| >= size {
      var p := replies[0];
      var ts := Stamp(timestamp, p.timestamp);
      var tail := replies[1..];
      var next := NextCursor(p.uris, after);
      ReadRequests(tail, size, next, ts);
      var rest := Read(tail, size, next, ts);
      var r := Read(replies, size, after, timestamp);
      assert r.requests == [Request(after, timestamp)] + rest.requests;
      assert r.batches == [QueryBatch(p.uris, ts)] + rest.batches;
      forall k | 0 <= k < |r.requests| - 1
        ensures r.requests[k + 1] == Request(NextCursor(replies[k].uris, r.requests[k].after), r.batches[k].timestamp)
      {
        if k > 0 {
          assert r.requests[k + 1] == rest.requests[k] && r.requests[k] == rest.requests[k - 1];
          assert r.batches[k] == rest.batches[k - 1];
          assert replies[k] == tail[k - 1];
        }
      }
    }
  }

  /**
   * The batcher's timestamp is set at most once: a timestamp already set
   * stamps every batch and survives the reading, and once a batch carries a
   * non-empty timestamp every later batch carries the same one.
   */
  lemma {:induction false} ReadStamps(replies: seq<Page>, size: nat, after: string, timestamp: string)
    ensures var r := Read(replies, size, after, timestamp);
      (timestamp != "" ==> r.timestamp == timestamp && forall k :: 0 <= k < |r.batches| ==> r.batches[k].timestamp == timestamp)
      && (forall j, k :: 0 <= j < k < |r.batches| && r.batches[j].timestamp != "" ==>
            r.batches[k].timestamp == r.batches[j].timestamp)
      && (r.batches != [] ==> r.timestamp == r.batches[|r.batches| - 1].timestamp)
    decreases |replies|
  {
    if replies != [] && |replies[0].uris| >= size {
      var p := replies[0];
      var ts := Stamp(timestamp, p.timestamp);
      var next := NextCursor(p.uris, after);
      ReadStamps(replies[1..], size, next, ts);
      ReadPages(replies[1..], size, next, ts);
      var rest := Read(replies[1..], size, next, ts);
      var r := Read(replies, size, after, timestamp);
      ReadFullPage(replies, size, after, timestamp);
      forall k | 0 < k < |r.batches| ensures r.batches[k] == rest.batches[k - 1] {
      }
    }
  }

  /**
   * A first page shorter than the batch size is handed out once, stamped,
   * and ends the reading whatever the server would answer next.
   */
  lemma ShortFirstPage(replies: seq<Page>, size: nat, after: string, timestamp: string)
    requires replies != [] && |replies[0].uris| < size
    ensures Read(replies, size, after, timestamp)
         == Reading([Request(after, timestamp)], [QueryBatch(replies[0].uris, Stamp(timestamp, replies[0].timestamp))], Stamp(timestamp, replies[0].timestamp))
  {
  }

  /** One two-URI page with batch size 10 and no timestamp yet: one batch with both URIs and the server's timestamp, then the end. */
  lemma TwoUriPage(u1: string, u2: string, serverTimestamp: string, later: seq<Page>)
    ensures Read([Page([u1, u2], serverTimestamp)] + later, 10, "", "").batches == [QueryBatch([u1, u2], serverTimestamp)]
  {
    ShortFirstPage([Page([u1, u2], serverTimestamp)] + later, 10, "", "");
  }

  /** A reading that continues after the requests and batches already done. */
  function Resume(requests: seq<Request>, batches: seq<QueryBatch>, r: Reading): Reading
  {
    Reading(requests + r.requests, batches + r.batches, r.timestamp)
  }

  lemma ResumeTwice(requests: seq<Request>, batches: seq<QueryBatch>, more: seq<Request>, moreBatches: seq<QueryBatch>, r: Reading)
    ensures Resume(requests, batches, Resume(more, moreBatches, r)) == Resume(requests + more, batches + moreBatches, r)
  {
    assert requests + (more + r.requests) == (requests + more) + r.requests;
    assert batches + (moreBatches + r.batches) == (batches + moreBatches) + r.batches;
  }

  /** A full page: the reading goes on after one request and one batch. */
  lemma ReadFullPage(replies: seq<Page>, size: nat, after: string, timestamp: string)
    requires replies != [] && |replies[0].uris| >= size
    ensures var p := replies[0];
      var ts := Stamp(timestamp, p.timestamp);
      Read(replies, size, after, timestamp)
        == Resume([Request(after, timestamp)], [QueryBatch(p.uris, ts)], Read(replies[1..], size, NextCursor(p.uris, after), ts))
  {
  }

  /**
   * The reader loop without the batcher: it keeps its own copy of the
   * timestamp, which `RunReadThread` stores back.
   */
  method ReadForest(replies: seq<Page>, size: nat, listeners: seq<Listener>, timestamp: string)
    returns (requests: seq<Request>, batches: seq<QueryBatch>, sent: seq<(Listener, QueryBatch)>, ts: string)
    ensures Read(replies, size, "", timestamp) == Reading(requests, batches, ts)
    ensures sent == Broadcast(batches, listeners)
  {
    requests := [];
    batches := [];
    sent := [];
    ts := timestamp;
    var after := "";
    ghost var whole := Read(replies, size, "", timestamp);
    var i := 0;
    while i < |replies|
      invariant 0 <= i <= |replies|
      invariant whole == Resume(requests, batches, Read(replies[i..], size, after, ts))
      invariant sent == Broadcast(batches, listeners)
    {
      ghost var cursor := after;
      var request := Request(after, ts);
      var page := replies[i];
      if ts == "" {
        // re-checked under the mutex
        if ts == "" {
          ts := page.timestamp;
        }
      }
      assert ts == Stamp(request.timestamp, page.timestamp);
      var uris := page.uris;
      if |uris| > 0 {
        after := uris[|uris| - 1];
      }
      assert after == NextCursor(uris, cursor);
      var batch := QueryBatch(uris, ts);
      var s := Send(batch, listeners);
      BroadcastSnoc(batches, batch, listeners);
      if |uris| < size {
        ResumeShort(whole, requests, batches, replies, i, size, cursor, request.timestamp);
        requests := requests + [request];
        batches := batches + [batch];
        sent := sent + s;
        return;
      }
      ResumeFull(whole, requests, batches, replies, i, size, cursor, request.timestamp);
      requests := requests + [request];
      batches := batches + [batch];
      sent := sent + s;
      i := i + 1;
    }
    assert replies[i..] == [];
  }

  /** A short page at `i` ends the reading resumed there. */
  lemma ResumeShort(whole: Reading, done: seq<Request>, batches: seq<QueryBatch>,
                    replies: seq<Page>, i: nat, size: nat, cursor: string, timestamp: string)
    requires i < |replies| && |replies[i].uris| < size
    requires whole == Resume(done, batches, Read(replies[i..], size, cursor, timestamp))
    ensures var ts := Stamp(timestamp, replies[i].timestamp);
      whole == Reading(done + [Request(cursor, timestamp)], batches + [QueryBatch(replies[i].uris, ts)], ts)
  {
    SliceStep(replies, i);
    ShortFirstPage(replies[i..], size, cursor, timestamp);
  }

  /** A full page at `i` moves the resumed reading on by one request and one batch. */
  lemma ResumeFull(whole: Reading, done: seq<Request>, batches: seq<QueryBatch>,
                   replies: seq<Page>, i: nat, size: nat, cursor: string, timestamp: string)
    requires i < |replies| && |replies[i].uris| >= size
    requires whole == Resume(done, batches, Read(replies[i..], size, cursor, timestamp))
    ensures var p := replies[i];
      var ts := Stamp(timestamp, p.timestamp);
      whole == Resume(done + [Request(cursor, timestamp)], batches + [QueryBatch(p.uris, ts)],
                      Read(replies[i + 1..], size, NextCursor(p.uris, cursor), ts))
  {
    var p := replies[i];
    var ts := Stamp(timestamp, p.timestamp);
    SliceStep(replies, i);
    ReadFullPage(replies[i..], size, cursor, timestamp);
    ResumeTwice(done, batches, [Request(cursor, timestamp)], [QueryBatch(p.uris, ts)],
                Read(replies[i + 1..], size, NextCursor(p.uris, cursor), ts));
  }

  class QueryBatcher {
    /** The hosts of the per-host clients, in the order the map is visited. */
    const clientHosts: seq<string>
    const forestInfo: seq<ForestInfo>
    var batchSize: nat
    /** The query every page request sends, as its serialized body; None sends none. */
    var query: Option<string>
    var timestamp: string
    var listeners: seq<Listener>
    var transaction: Util.Transaction?

    /** `Service.QueryBatcher`: the service's clients and forests, and pages of 1000. */
    constructor (hosts: seq<string>, forests: seq<ForestInfo>)
      ensures clientHosts == hosts && forestInfo == forests
      ensures batchSize == 1000 && timestamp == "" && listeners == []
      ensures query == None && transaction == null
    {
      clientHosts := hosts;
      forestInfo := forests;
      batchSize := 1000;
      query := None;
      timestamp := "";
      listeners := [];
      transaction := null;
    }

    function BatchSize(): (r: nat)
      reads this
      ensures r == batchSize
    {
      batchSize
    }

    function Timestamp(): (r: string)
      reads this
      ensures r == timestamp
    {
      timestamp
    }

    method WithBatchSize(size: nat)
      requires size < 0x1_0000
      modifies this
      ensures batchSize == size && timestamp == old(timestamp) && listeners == old(listeners)
      ensures query == old(query) && transaction == old(transaction)
    {
      batchSize := size;
    }

    method WithQuery(q: Option<string>)
      modifies this
      ensures query == q && batchSize == old(batchSize) && timestamp == old(timestamp)
      ensures listeners == old(listeners) && transaction == old(transaction)
    {
      query := q;
    }

    method WithTransaction(t: Util.Transaction?)
      modifies this
      ensures transaction == t && batchSize == old(batchSize) && timestamp == old(timestamp)
      ensures listeners == old(listeners) && query == old(query)
    {
      transaction := t;
    }

    /** A listener is added at the end. */
    method WithListener(l: Listener)
      modifies this
      ensures listeners == old(listeners) + [l]
      ensures batchSize == old(batchSize) && timestamp == old(timestamp)
      ensures query == old(query) && transaction == old(transaction)
    {
      listeners := listeners + [l];
    }

    /** The same in-place shift as the write batchers; see `ShiftOut`. */
    method RemoveListener(l: Listener)
      modifies this
      ensures listeners == ShiftOut(old(listeners), l)
      ensures batchSize == old(batchSize) && timestamp == old(timestamp)
      ensures query == old(query) && transaction == old(transaction)
    {
      listeners := ShiftOutInPlace(listeners, l);
    }

    /** `Run` starts exactly one reader per forest, in forest order, each for the forest's preferred host and name. */
    method Run() returns (readers: seq<(string, string)>)
      ensures |readers| == |forestInfo|
      ensures forall i :: 0 <= i < |forestInfo| ==>
        readers[i] == (PreferredHost(forestInfo[i]), forestInfo[i].name)
    {
      readers := [];
      var i := 0;
      while i < |forestInfo|
        invariant 0 <= i <= |forestInfo| && |readers| == i
        invariant forall j :: 0 <= j < i ==> readers[j] == (PreferredHost(forestInfo[j]), forestInfo[j].name)
      {
        readers := readers + [(PreferredHost(forestInfo[i]), forestInfo[i].name)];
        i := i + 1;
      }
    }

    /** `Iterator` yields end of stream at once exactly when there is no forest to read. */
    function Iterator(): (eof: bool)
      reads this
      ensures eof <==> |forestInfo| == 0
    {
      |forestInfo| == 0
    }

    /**
     * One reader over the server's replies: the requests it sends, the
     * pages handed to every listener, and the batcher's timestamp set from
     * the first reply if it was still "". Every request goes through
     * `AddTransactionParam`: request k begins the batcher's transaction,
     * leaving `begin(k)`, while it has no ID, and `txids[k]` is the txid the
     * request then carries.
     */
    method RunReadThread(forest: ForestInfo, replies: seq<Page>, begin: nat -> string)
      returns (requests: seq<Request>, params: seq<seq<(string, string)>>, txids: seq<Option<string>>,
               sent: seq<(Listener, QueryBatch)>)
      modifies this, transaction
      ensures var r := Read(replies, old(batchSize), "", old(timestamp));
        requests == r.requests && sent == Broadcast(r.batches, old(listeners)) && timestamp == r.timestamp
      ensures |params| == |requests| && |txids| == |requests|
      ensures forall k :: 0 <= k < |params| ==>
        params[k] == URIsParams(forest.name, requests[k].after, old(batchSize), 0)
      ensures batchSize == old(batchSize) && listeners == old(listeners)
      ensures query == old(query) && transaction == old(transaction)
      ensures transaction == null ==> forall k :: 0 <= k < |txids| ==> txids[k] == None
      ensures transaction != null ==>
        transaction.id == Util.IdAfter(old(transaction.id), begin, |requests|)
        && forall k :: 0 <= k < |txids| ==> txids[k] == Some(Util.IdAfter(old(transaction.id), begin, k + 1))
    {
      var batches, ts;
      requests, batches, sent, ts := ReadForest(replies, batchSize, listeners, timestamp);
      var size := batchSize;
      params := seq(|requests|, k requires 0 <= k < |requests| => URIsParams(forest.name, requests[k].after, size, 0));
      txids := [];
      var k := 0;
      while k < |requests|
        invariant 0 <= k <= |requests| && |txids| == k
        invariant unchanged(this)
        invariant transaction == null ==> forall j :: 0 <= j < k ==> txids[j] == None
        invariant transaction != null ==>
          transaction.id == Util.IdAfter(old(transaction.id), begin, k)
          && forall j :: 0 <= j < k ==> txids[j] == Some(Util.IdAfter(old(transaction.id), begin, j + 1))
      {
        var txid := Util.BeginIfUnset(transaction, begin(k));
        txids := txids + [txid];
        k := k + 1;
      }
      timestamp := ts;
    }
  }

  /**
   * The URI request of every page a reader sends: never a start offset, and
   * no cursor on the first page; the page length is always there.
   */
  lemma ReaderPageKeys(forestName: string, replies: seq<Page>, size: nat, timestamp: string, k: nat)
    requires k < |Read(replies, size, "", timestamp).requests|
    ensures var keys := Util.SegmentKeys(CanonicalURIsSegments(forestName, Read(replies, size, "", timestamp).requests[k].after, size, 0));
      "start" !in keys && "pageLength" in keys && (k == 0 ==> "after" !in keys)
  {
    ReadRequests(replies, size, "", timestamp);
    URIsQueryKeys(forestName, Read(replies, size, "", timestamp).requests[k].after, size, 0);
  }

  /** Every reader's host is a preferred host of the forests, so `GetClientsByHost` has a client for it. */
  lemma ReadersHaveClients(forests: seq<ForestInfo>, i: nat)
    requires i < |forests|
    ensures PreferredHost(forests[i]) in PreferredHosts(forests)
  {
  }
}
