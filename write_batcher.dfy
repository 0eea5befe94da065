// The bulk document writer of the datamovement package
// (datamovement/write-batcher.go, created by datamovement/service.go): its
// builder state, the host each writer thread is given, and what one writer
// thread submits and hands to the listeners.
module WriteBatchers {
  import opened Common
  import opened Batching
  import opened UtilInternals
  import Documents
  import Util

  type Doc = Documents.DocumentDescription

  /** Threads are dealt over the forests exactly when there are forests and at least as many threads as forests. */
  predicate ByForest(forests: seq<ForestInfo>, threadCount: nat)
  {
    |forests| > 0 && threadCount >= |forests|
  }

  /**
   * The host each thread is started for: the preferred host of forest
   * i mod f when dealing by forest, host i mod h otherwise; `None` when a
   * thread is to be started but there is no host to index (the index panics).
   */
  function Plan(hosts: seq<string>, forests: seq<ForestInfo>, threadCount: nat): Option<seq<string>>
  {
    if ByForest(forests, threadCount) then Some(RoundRobin(ForestHosts(forests), threadCount))
    else if threadCount == 0 then Some([])
    else if hosts == [] then None
    else Some(RoundRobin(hosts, threadCount))
  }

  /** The host list `Run` builds: `make([]string, n)` already holds n empty strings, and the n keys are appended after them. */
  function HostsAsWritten(keys: seq<string>): seq<string>
  {
    seq(|keys|, _ => "") + keys
  }

  /** `uint8(len(forestInfo) * 2)`: twice the forest count, truncated to 8 bits. */
  function DefaultThreadCount(forestCount: nat): (r: nat)
    ensures r < 256
    ensures forestCount < 128 ==> r == 2 * forestCount
    ensures forestCount == 128 ==> r == 0
  {
    (2 * forestCount) % 256
  }

  /** The round-robin counter loop of `Run` and `Iterator`, over a given host list. */
  method Distribute(hosts: seq<string>, forests: seq<ForestInfo>, threadCount: nat) returns (plan: Option<seq<string>>)
    ensures plan == Plan(hosts, forests, threadCount)
  {
    var byForest := |forests| > 0 && threadCount >= |forests|;
    var roundRobinLength := if byForest then |forests| else |hosts|;
    var counter := 0;
    var selected: seq<string> := [];
    var i := 0;
    while i < threadCount
      invariant 0 <= i <= threadCount
      invariant roundRobinLength == 0 ==> i == 0 && counter == 0
      invariant roundRobinLength > 0 ==> counter == i % roundRobinLength
      invariant |selected| == i
      invariant forall j :: 0 <= j < i ==>
        selected[j] == if byForest then PreferredHost(forests[j % |forests|]) else hosts[j % |hosts|]
    {
      var host: string;
      if byForest {
        host := PreferredHost(forests[counter]);
      } else {
        if |hosts| == 0 {
          // hosts[roundRobinCounter] is out of range
          plan := None;
          return;
        }
        host := hosts[counter];
      }
      selected := selected + [host];
      ModSucc(i, roundRobinLength);
      counter := (counter + 1) % roundRobinLength;
      i := i + 1;
    }
    if byForest {
      assert selected == RoundRobin(ForestHosts(forests), threadCount);
    } else if threadCount > 0 {
      assert selected == RoundRobin(hosts, threadCount);
    }
    plan := Some(selected);
  }

  class WriteBatcher {
    /** The hosts of the documents services, in the order the map is visited. */
    const serviceHosts: seq<string>
    const forestInfo: seq<ForestInfo>
    const timestamp: string
    var batchSize: nat
    var threadCount: nat
    var writeChannel: Option<nat>
    var listeners: seq<Listener>
    var transform: Option<Util.Transform>
    var transaction: Util.Transaction?

    /**
     * `Service.WriteBatcher`: a documents service per client host, batches of
     * 250, and twice the forest count as threads, truncated to 8 bits.
     */
    constructor (clientHosts: seq<string>, forests: seq<ForestInfo>)
      ensures serviceHosts == clientHosts && forestInfo == forests && timestamp == ""
      ensures batchSize == 250 && threadCount == DefaultThreadCount(|forests|)
      ensures writeChannel == None && listeners == [] && transform == None && transaction == null
    {
      serviceHosts := clientHosts;
      forestInfo := forests;
      timestamp := "";
      batchSize := 250;
      threadCount := DefaultThreadCount(|forests|);
      writeChannel := None;
      listeners := [];
      transform := None;
      transaction := null;
    }

    function BatchSize(): (r: nat)
      reads this
      ensures r == batchSize
    {
      batchSize
    }

    function ThreadCount(): (r: nat)
      reads this
      ensures r == threadCount
    {
      threadCount
    }

    /** Nothing ever sets the batcher's timestamp: it is always "". */
    function Timestamp(): (r: string)
      reads this
      ensures r == timestamp
    {
      timestamp
    }

    method WithThreadCount(count: nat)
      requires count < 0x100
      modifies this
      ensures threadCount == count && batchSize == old(batchSize) && writeChannel == old(writeChannel)
      ensures listeners == old(listeners) && transform == old(transform) && transaction == old(transaction)
    {
      threadCount := count;
    }

    method WithBatchSize(size: nat)
      requires size < 0x1_0000
      modifies this
      ensures batchSize == size && threadCount == old(threadCount) && writeChannel == old(writeChannel)
      ensures listeners == old(listeners) && transform == old(transform) && transaction == old(transaction)
    {
      batchSize := size;
    }

    method WithTransform(t: Option<Util.Transform>)
      modifies this
      ensures transform == t && batchSize == old(batchSize) && threadCount == old(threadCount)
      ensures writeChannel == old(writeChannel) && listeners == old(listeners) && transaction == old(transaction)
    {
      transform := t;
    }

    method WithTransaction(t: Util.Transaction?)
      modifies this
      ensures transaction == t && batchSize == old(batchSize) && threadCount == old(threadCount)
      ensures writeChannel == old(writeChannel) && listeners == old(listeners) && transform == old(transform)
    {
      transaction := t;
    }

    method WithWriteChannel(channel: Option<nat>)
      modifies this
      ensures writeChannel == channel && batchSize == old(batchSize) && threadCount == old(threadCount)
      ensures listeners == old(listeners) && transform == old(transform) && transaction == old(transaction)
    {
      writeChannel := channel;
    }

    /** A listener is added at the end. */
    method WithListener(l: Listener)
      modifies this
      ensures listeners == old(listeners) + [l]
      ensures batchSize == old(batchSize) && threadCount == old(threadCount) && writeChannel == old(writeChannel)
      ensures transform == old(transform) && transaction == old(transaction)
    {
      listeners := listeners + [l];
    }

    /** The in-place shift over the first match; see `ShiftOut` for what it leaves. */
    method RemoveListener(l: Listener)
      modifies this
      ensures listeners == ShiftOut(old(listeners), l)
      ensures batchSize == old(batchSize) && threadCount == old(threadCount) && writeChannel == old(writeChannel)
      ensures transform == old(transform) && transaction == old(transaction)
    {
      listeners := ShiftOutInPlace(listeners, l);
    }

    /**
     * `Run`: the host each writer thread is started for, dealt over the host
     * list as `Run` builds it, n empty strings followed by the n service
     * hosts; `None` when the list is empty and threads are to be started.
     */
    method Run() returns (plan: Option<seq<string>>)
      ensures plan == Plan(HostsAsWritten(serviceHosts), forestInfo, threadCount)
    {
      var hosts: seq<string> := seq(|serviceHosts|, _ => "");
      var k := 0;
      while k < |serviceHosts|
        invariant 0 <= k <= |serviceHosts|
        invariant hosts == seq(|serviceHosts|, _ => "") + serviceHosts[..k]
      {
        assert serviceHosts[..k + 1] == serviceHosts[..k] + [serviceHosts[k]];
        hosts := hosts + [serviceHosts[k]];
        k := k + 1;
      }
      assert serviceHosts[..k] == serviceHosts;
      plan := Distribute(hosts, forestInfo, threadCount);
    }

    /**
     * `Iterator`: end of stream at once without a write channel or without a
     * documents service; otherwise the threads are dealt over the service
     * hosts themselves, and every thread gets a host.
     */
    method Iterator() returns (eof: bool, plan: seq<string>)
      ensures eof <==> writeChannel == None || serviceHosts == []
      ensures !eof ==> Plan(serviceHosts, forestInfo, threadCount) == Some(plan)
    {
      if writeChannel == None || |serviceHosts| == 0 {
        return true, [];
      }
      var hosts: seq<string> := [];
      var k := 0;
      while k < |serviceHosts|
        invariant 0 <= k <= |serviceHosts|
        invariant hosts == serviceHosts[..k]
      {
        assert serviceHosts[..k + 1] == serviceHosts[..k] + [serviceHosts[k]];
        hosts := hosts + [serviceHosts[k]];
        k := k + 1;
      }
      assert hosts == serviceHosts;
      var p := Distribute(hosts, forestInfo, threadCount);
      eof := false;
      plan := p.value;
    }

    /**
     * One writer thread over what it receives until its channel is closed.
     * `service` is the database of the thread's documents service, or None
     * when `Run` dealt the thread a host without one: `WriteSet` on that nil
     * service panics at `s.client` before any query is built. Otherwise each
     * `submitBatch` hands `writeSet` a new `&documents.MetadataHandle{}`,
     * whose zero format is XML, so its `Serialized` panics: the first
     * non-empty batch ends the thread after its query is built, and with it
     * the transaction begun while it has no ID. Either way nothing is
     * written or handed to a listener.
     */
    method RunWriteThread(received: seq<Option<Doc>>, service: Option<string>, begin: nat -> string)
      returns (writes: seq<seq<Doc>>, queries: seq<string>, sent: seq<(Listener, seq<Doc>)>, panicked: bool)
      modifies transaction
      ensures writes == [] && sent == []
      ensures panicked <==> Batches(received, batchSize, []) != []
      ensures |queries| == (if panicked && service.Some? then 1 else 0)
      ensures forall k :: 0 <= k < |queries| ==>
        service.Some? &&
        queries[k] == Documents.WriteSetQuery(transform, service.value,
                                   if transaction == null then None
                                   else Some(Util.IdAfter(old(transaction.id), begin, k + 1)))
      ensures transaction != null ==> transaction.id == Util.IdAfter(old(transaction.id), begin, |queries|)
      ensures service.None? && transaction != null ==> transaction.id == old(transaction.id)
    {
      if service.None? {
        writes, sent, panicked := WriteWorker(received, batchSize, listeners, true);
        queries := [];
        return;
      }
      var metadata := new Documents.MetadataHandle(0, Documents.EmptyMetadata());
      var encoded := metadata.Serialized();
      writes, queries, sent, panicked := RunWriteThreadWith(received, service.value, begin, encoded.None?);
    }

    /**
     * The writer thread with write sets that panic (`panics`) or succeed:
     * the batches written, every batch handed to every listener, and the
     * query string of each write set begun, the one that panicked included.
     * Every write set goes through `AddTransactionParam`: write set k begins
     * the batcher's transaction, leaving `begin(k)`, while it has no ID.
     */
    method RunWriteThreadWith(received: seq<Option<Doc>>, database: string, begin: nat -> string, panics: bool)
      returns (writes: seq<seq<Doc>>, queries: seq<string>, sent: seq<(Listener, seq<Doc>)>, panicked: bool)
      modifies transaction
      ensures writes == Written(received, batchSize, panics)
      ensures sent == Broadcast(writes, listeners)
      ensures panicked <==> panics && Batches(received, batchSize, []) != []
      ensures |queries| == |writes| + (if panicked then 1 else 0)
      ensures forall k :: 0 <= k < |queries| ==>
        queries[k] == Documents.WriteSetQuery(transform, database,
                                   if transaction == null then None
                                   else Some(Util.IdAfter(old(transaction.id), begin, k + 1)))
      ensures transaction != null ==> transaction.id == Util.IdAfter(old(transaction.id), begin, |queries|)
    {
      writes, sent, panicked := WriteWorker(received, batchSize, listeners, panics);
      queries := WriteSetQueries(|writes| + (if panicked then 1 else 0), transform, database, transaction, begin);
    }
  }

  /**
   * The query strings of `n` write sets in a row that share one transaction:
   * write set k begins it, leaving `begin(k)`, while it has no ID.
   */
  method WriteSetQueries(n: nat, transform: Option<Util.Transform>, database: string,
                         transaction: Util.Transaction?, begin: nat -> string)
    returns (queries: seq<string>)
    modifies transaction
    ensures |queries| == n
    ensures forall k :: 0 <= k < n ==>
      queries[k] == Documents.WriteSetQuery(transform, database,
                                            if transaction == null then None
                                            else Some(Util.IdAfter(old(transaction.id), begin, k + 1)))
    ensures transaction != null ==> transaction.id == Util.IdAfter(old(transaction.id), begin, n)
  {
    var txids: seq<Option<string>> := [];
    var k := 0;
    while k < n
      invariant 0 <= k <= n && |txids| == k
      invariant transaction != null ==> transaction.id == Util.IdAfter(old(transaction.id), begin, k)
      invariant forall j :: 0 <= j < k ==>
        txids[j] == if transaction == null then None else Some(Util.IdAfter(old(transaction.id), begin, j + 1))
    {
      var txid := Util.BeginIfUnset(transaction, begin(k));
      txids := txids + [txid];
      k := k + 1;
    }
    queries := seq(n, j requires 0 <= j < n => Documents.WriteSetQuery(transform, database, txids[j]));
  }

  /**
   * As written, `Run` deals its first threads the n empty strings at the
   * head of its host list: with 1 to n threads in host mode, every thread is
   * started for host "", which names no documents service (`Iterator`,
   * which builds the list with `make([]string, 0, n)`, does not do this).
   */
  lemma RunBlankHosts(keys: seq<string>, forests: seq<ForestInfo>, threadCount: nat)
    requires keys != [] && !ByForest(forests, threadCount)
    requires 1 <= threadCount <= |keys|
    ensures Plan(HostsAsWritten(keys), forests, threadCount) == Some(seq(threadCount, _ => ""))
  {
    var hosts := HostsAsWritten(keys);
    var r := RoundRobin(hosts, threadCount);
    forall i | 0 <= i < threadCount ensures r[i] == "" {
      ModUnique(i, 0, i, |hosts|);
    }
    assert r == seq(threadCount, _ => "");
  }

  /** As written, the first thread of `Run` in host mode is always started for host "". */
  lemma RunFirstThreadBlank(keys: seq<string>, forests: seq<ForestInfo>, threadCount: nat)
    requires keys != [] && !ByForest(forests, threadCount) && threadCount >= 1
    ensures Plan(HostsAsWritten(keys), forests, threadCount).Some?
    ensures Plan(HostsAsWritten(keys), forests, threadCount).value[0] == ""
  {
  }

  /** Without a documents service, `Run` in host mode fails on its first thread. */
  lemma RunWithoutHosts(forests: seq<ForestInfo>, threadCount: nat)
    requires !ByForest(forests, threadCount) && threadCount >= 1
    ensures Plan(HostsAsWritten([]), forests, threadCount) == None
  {
    assert HostsAsWritten([]) == [];
  }

  /**
   * Dealt over the service hosts themselves (as `Iterator` does, and as `Run`
   * evidently means to), every thread gets a host that has a documents
   * service, provided every forest's preferred host has one; in host mode,
   * with at least as many threads as hosts, every host gets a thread.
   */
  lemma PlanHostsHaveServices(keys: seq<string>, forests: seq<ForestInfo>, threadCount: nat)
    requires keys != []
    requires forall j :: 0 <= j < |forests| ==> PreferredHost(forests[j]) in keys
    ensures Plan(keys, forests, threadCount).Some?
    ensures forall i :: 0 <= i < threadCount ==> Plan(keys, forests, threadCount).value[i] in keys
    ensures !ByForest(forests, threadCount) && threadCount >= |keys| ==>
      forall h :: h in keys ==> h in Plan(keys, forests, threadCount).value
  {
    if ByForest(forests, threadCount) {
      RoundRobinCovers(ForestHosts(forests), threadCount);
    } else if threadCount > 0 {
      RoundRobinCovers(keys, threadCount);
    }
  }
}
