// The older bulk document writer of the data-movement directory
// (data-movement/write-batcher.go, created by data-movement/service.go):
// every thread writes through the one documents service of the batcher.
module LegacyWriteBatchers {
  import opened Common
  import opened Batching
  import Documents

  type Doc = Documents.DocumentDescription

  class WriteBatcher {
    const timestamp: string
    var batchSize: nat
    var threadCount: nat
    var writeChannel: Option<nat>
    var listeners: seq<Listener>

    /** `Service.WriteBatcher`: four threads and batches of 250. */
    constructor ()
      ensures batchSize == 250 && threadCount == 4 && timestamp == ""
      ensures writeChannel == None && listeners == []
    {
      timestamp := "";
      batchSize := 250;
      threadCount := 4;
      writeChannel := None;
      listeners := [];
    }

    function BatchSize(): (r: nat)
      reads this
      ensures r == batchSize
    {
      batchSize
    }

    function ThreadCount(): (r: nat)
      reads this
      ensures r == threadCount
    {
      threadCount
    }

    /** Nothing ever sets the batcher's timestamp: it is always "". */
    function Timestamp(): (r: string)
      reads this
      ensures r == timestamp
    {
      timestamp
    }

    method WithThreadCount(count: nat)
      requires count < 0x100
      modifies this
      ensures threadCount == count && batchSize == old(batchSize)
      ensures writeChannel == old(writeChannel) && listeners == old(listeners)
    {
      threadCount := count;
    }

    method WithBatchSize(size: nat)
      requires size < 0x1_0000
      modifies this
      ensures batchSize == size && threadCount == old(threadCount)
      ensures writeChannel == old(writeChannel) && listeners == old(listeners)
    {
      batchSize := size;
    }

    method WithWriteChannel(channel: Option<nat>)
      modifies this
      ensures writeChannel == channel && batchSize == old(batchSize)
      ensures threadCount == old(threadCount) && listeners == old(listeners)
    {
      writeChannel := channel;
    }

    /** A listener is added at the end. */
    method WithListener(l: Listener)
      modifies this
      ensures listeners == old(listeners) + [l]
      ensures batchSize == old(batchSize) && threadCount == old(threadCount) && writeChannel == old(writeChannel)
    {
      listeners := listeners + [l];
    }

    /** The same in-place shift as the datamovement batcher; see `ShiftOut`. */
    method RemoveListener(l: Listener)
      modifies this
      ensures listeners == ShiftOut(old(listeners), l)
      ensures batchSize == old(batchSize) && threadCount == old(threadCount) && writeChannel == old(writeChannel)
    {
      listeners := ShiftOutInPlace(listeners, l);
    }

    /**
     * `Run` starts one writer thread per unit of the thread count; each is
     * given the batcher's write channel (the service is the batcher's one).
     */
    method Run() returns (threads: seq<Option<nat>>)
      ensures |threads| == threadCount
      ensures forall k :: 0 <= k < |threads| ==> threads[k] == writeChannel
    {
      threads := [];
      while |threads| < threadCount
        invariant |threads| <= threadCount
        invariant forall k :: 0 <= k < |threads| ==> threads[k] == writeChannel
      {
        threads := threads + [writeChannel];
      }
    }

    /**
     * One writer thread over what it receives until its channel is closed.
     * Its `submitBatch` also hands `WriteSet` a new
     * `&documents.MetadataHandle{}`, whose zero format is XML and whose
     * `Serialized` panics, so the first non-empty batch ends the thread
     * before anything is written or handed to a listener; `WriteWorker`
     * with `panics` false is the thread once that is corrected.
     */
    method RunWriteThread(received: seq<Option<Doc>>)
      returns (writes: seq<seq<Doc>>, sent: seq<(Listener, seq<Doc>)>, panicked: bool)
      ensures writes == [] && sent == []
      ensures panicked <==> Batches(received, batchSize, []) != []
    {
      var metadata := new Documents.MetadataHandle(0, Documents.EmptyMetadata());
      var encoded := metadata.Serialized();
      writes, sent, panicked := WriteWorker(received, batchSize, listeners, encoded.None?);
    }
  }
}
