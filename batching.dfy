// The rules the bulk components share: how a worker cuts the documents it
// receives into batches (datamovement/write-batcher.go, data-movement/
// write-batcher.go, dataservices/bulk-data-services.go), how every batch or
// page reaches every listener channel, how `RemoveListener` edits the
// listener slice, and how threads are dealt round-robin over a list.
module Batching {
  import opened Common

  /** A listener channel. Go compares channels by identity, so a number stands for one. */
  type Listener = nat

  /** The non-nil documents a worker receives, in order; `None` is a nil document sent on the open channel. */
  function Docs<T>(received: seq<Option<T>>): seq<T>
    decreases |received|
  {
    if received == [] then []
    else match received[0]
      case None => Docs(received[1..])
      case Some(d) => [d] + Docs(received[1..])
  }

  /** How many documents fill a batch: the batch size, or 1 for size 0, since the test is `len >= size` after an append. */
  function BatchLimit(size: nat): (k: nat)
    ensures k >= 1 && k >= size
    ensures size > 0 ==> k == size
  {
    if size == 0 then 1 else size
  }

  /**
   * The batches a worker submits, starting from the `pending` batch: a nil
   * document is skipped, every other one is appended and the batch is
   * submitted as soon as its length reaches `size`; once the channel is
   * closed and drained the leftover is submitted only if it is not empty.
   */
  function Batches<T>(received: seq<Option<T>>, size: nat, pending: seq<T>): seq<seq<T>>
    decreases |received|
  {
    if received == [] then (if pending != [] then [pending] else [])
    else match received[0]
      case None => Batches(received[1..], size, pending)
      case Some(d) =>
        if |pending + [d]| >= size then [pending + [d]] + Batches(received[1..], size, [])
        else Batches(received[1..], size, pending + [d])
  }

  /** Reference definition: consecutive runs of `k` elements, the last one possibly shorter. */
  function Chunks<T>(xs: seq<T>, k: nat): seq<seq<T>>
    requires k >= 1
    decreases |xs|
  {
    if xs == [] then []
    else if |xs| <= k then [xs]
    else [xs[..k]] + Chunks(xs[k..], k)
  }

  function Flatten<T>(bs: seq<seq<T>>): seq<T>
    decreases |bs|
  {
    if bs == [] then [] else bs[0] + Flatten(bs[1..])
  }

  /** Every batch holds 1 to k elements, and every batch but the last holds exactly k. */
  predicate WellCut<T>(bs: seq<seq<T>>, k: nat)
  {
    (forall i :: 0 <= i < |bs| ==> 1 <= |bs[i]| <= k) &&
    (forall i :: 0 <= i < |bs| - 1 ==> |bs[i]| == k)
  }

  /** The worker's batching is cutting the pending documents followed by the received ones into runs of max(size, 1). */
  lemma {:induction false} BatchesAreChunks<T>(received: seq<Option<T>>, size: nat, pending: seq<T>)
    requires |pending| < BatchLimit(size)
    ensures Batches(received, size, pending) == Chunks(pending + Docs(received), BatchLimit(size))
    decreases |received|
  {
    var k := BatchLimit(size);
    if received == [] {
      assert pending + Docs(received) == pending;
    } else {
      var rest := received[1..];
      match received[0]
      case None =>
        BatchesAreChunks(rest, size, pending);
      case Some(d) =>
        var p := pending + [d];
        assert pending + Docs(received) == p + Docs(rest);
        if |p| >= size {
          assert |p| == k;
          BatchesAreChunks(rest, size, []);
          assert [] + Docs(rest) == Docs(rest);
          var xs := p + Docs(rest);
          if Docs(rest) == [] {
            assert xs == p;
          } else {
            assert xs[..k] == p && xs[k..] == Docs(rest);
          }
        } else {
          BatchesAreChunks(rest, size, p);
        }
    }
  }

  lemma {:induction false} ChunksFlatten<T>(xs: seq<T>, k: nat)
    requires k >= 1
    ensures Flatten(Chunks(xs, k)) == xs
    decreases |xs|
  {
    if xs != [] {
      var c := Chunks(xs, k);
      if |xs| <= k {
        assert c[1..] == [];
        assert xs + [] == xs;
      } else {
        ChunksFlatten(xs[k..], k);
        assert c[1..] == Chunks(xs[k..], k);
        assert xs[..k] + xs[k..] == xs;
      }
    }
  }

  lemma {:induction false} ChunksWellCut<T>(xs: seq<T>, k: nat)
    requires k >= 1
    ensures WellCut(Chunks(xs, k), k)
    decreases |xs|
  {
    if xs != [] && |xs| > k {
      var c := Chunks(xs, k);
      var tail := Chunks(xs[k..], k);
      ChunksWellCut(xs[k..], k);
      assert c == [xs[..k]] + tail;
      forall i | 0 <= i < |c| ensures 1 <= |c[i]| <= k && (i < |c| - 1 ==> |c[i]| == k) {
        if i > 0 {
          assert c[i] == tail[i - 1];
        }
      }
    }
  }

  /**
   * What a worker submits is exactly the non-nil documents it received, in
   * arrival order, cut into batches of max(size, 1): every batch is
   * non-empty, every batch but the last is full, and the last holds the rest.
   */
  lemma WorkerBatches<T>(received: seq<Option<T>>, size: nat)
    ensures Flatten(Batches(received, size, [])) == Docs(received)
    ensures WellCut(Batches(received, size, []), BatchLimit(size))
  {
    BatchesAreChunks(received, size, []);
    assert [] + Docs(received) == Docs(received);
    ChunksFlatten(Docs(received), BatchLimit(size));
    ChunksWellCut(Docs(received), BatchLimit(size));
  }

  /** With no document received nothing is submitted: an empty leftover is not flushed. */
  lemma NoDocumentsNoBatches<T>(received: seq<Option<T>>, size: nat)
    requires Docs(received) == []
    ensures Batches(received, size, []) == []
  {
    BatchesAreChunks(received, size, []);
    assert [] + Docs(received) == [];
  }

  /** One item handed to each listener, in listener order. */
  function Round<T>(item: T, listeners: seq<Listener>): seq<(Listener, T)>
    decreases |listeners|
  {
    if listeners == [] then [] else [(listeners[0], item)] + Round(item, listeners[1..])
  }

  /** Every item handed to every listener: the items in order, and for each item the listeners in order. */
  function Broadcast<T>(items: seq<T>, listeners: seq<Listener>): seq<(Listener, T)>
    decreases |items|
  {
    if items == [] then [] else Round(items[0], listeners) + Broadcast(items[1..], listeners)
  }

  /** The items one listener receives, in order. */
  function ReceivedBy<T>(sent: seq<(Listener, T)>, l: Listener): seq<T>
    decreases |sent|
  {
    if sent == [] then []
    else (if sent[0].0 == l then [sent[0].1] else []) + ReceivedBy(sent[1..], l)
  }

  /** Each item written `n` times in a row, in order. */
  function Stutter<T>(items: seq<T>, n: nat): seq<T>
    decreases |items|
  {
    if items == [] then [] else seq(n, _ => items[0]) + Stutter(items[1..], n)
  }

  lemma {:induction false} ReceivedByAppend<T>(a: seq<(Listener, T)>, b: seq<(Listener, T)>, l: Listener)
    ensures ReceivedBy(a + b, l) == ReceivedBy(a, l) + ReceivedBy(b, l)
    decreases |a|
  {
    if a == [] {
      assert a + b == b;
    } else {
      var head := if a[0].0 == l then [a[0].1] else [];
      assert (a + b)[0] == a[0] && (a + b)[1..] == a[1..] + b;
      assert ReceivedBy(a + b, l) == head + ReceivedBy(a[1..] + b, l);
      ReceivedByAppend(a[1..], b, l);
      Assoc(head, ReceivedBy(a[1..], l), ReceivedBy(b, l));
    }
  }

  lemma {:induction false} RoundReceived<T>(item: T, listeners: seq<Listener>, l: Listener)
    ensures ReceivedBy(Round(item, listeners), l) == seq(multiset(listeners)[l], _ => item)
    decreases |listeners|
  {
    if listeners != [] {
      var r := Round(item, listeners);
      RoundReceived(item, listeners[1..], l);
      assert listeners == [listeners[0]] + listeners[1..];
      assert multiset(listeners) == multiset{listeners[0]} + multiset(listeners[1..]);
      assert r[1..] == Round(item, listeners[1..]);
    }
  }

  /**
   * A listener that occurs n times in the listener slice receives every item
   * n times in a row, in order: once for n = 1, never for n = 0.
   */
  lemma {:induction false} BroadcastReceived<T>(items: seq<T>, listeners: seq<Listener>, l: Listener)
    ensures ReceivedBy(Broadcast(items, listeners), l) == Stutter(items, multiset(listeners)[l])
    decreases |items|
  {
    if items != [] {
      ReceivedByAppend(Round(items[0], listeners), Broadcast(items[1..], listeners), l);
      RoundReceived(items[0], listeners, l);
      BroadcastReceived(items[1..], listeners, l);
    }
  }

  /** Helper for `ListenerReceives`: repeating each item once gives the items back. */
  lemma {:induction false} StutterOnce<T>(items: seq<T>)
    ensures Stutter(items, 1) == items
    decreases |items|
  {
    if items != [] {
      StutterOnce(items[1..]);
      assert seq(1, _ => items[0]) == [items[0]];
      assert [items[0]] + items[1..] == items;
    }
  }

  /** Helper for `ListenerReceives`: repeating each item zero times gives nothing. */
  lemma {:induction false} StutterNever<T>(items: seq<T>)
    ensures Stutter(items, 0) == []
    decreases |items|
  {
    if items != [] {
      StutterNever(items[1..]);
      assert seq(0, _ => items[0]) == [];
    }
  }

  /** A listener in the slice once receives every item once, in order; one not in it receives nothing. */
  lemma ListenerReceives<T>(items: seq<T>, listeners: seq<Listener>, l: Listener)
    ensures multiset(listeners)[l] == 1 ==> ReceivedBy(Broadcast(items, listeners), l) == items
    ensures l !in listeners ==> ReceivedBy(Broadcast(items, listeners), l) == []
  {
    BroadcastReceived(items, listeners, l);
    StutterOnce(items);
    StutterNever(items);
  }

  lemma {:induction false} RoundSnoc<T>(item: T, listeners: seq<Listener>, l: Listener)
    ensures Round(item, listeners + [l]) == Round(item, listeners) + [(l, item)]
    decreases |listeners|
  {
    if listeners == [] {
      assert listeners + [l] == [l];
    } else {
      assert (listeners + [l])[1..] == listeners[1..] + [l];
      RoundSnoc(item, listeners[1..], l);
    }
  }

  lemma {:induction false} BroadcastSnoc<T>(items: seq<T>, item: T, listeners: seq<Listener>)
    ensures Broadcast(items + [item], listeners) == Broadcast(items, listeners) + Round(item, listeners)
    decreases |items|
  {
    if items == [] {
      assert items + [item] == [item];
      assert Broadcast([item], listeners) == Round(item, listeners) + Broadcast([], listeners);
    } else {
      assert (items + [item])[1..] == items[1..] + [item];
      BroadcastSnoc(items[1..], item, listeners);
    }
  }

  lemma {:induction false} BroadcastAppend<T>(a: seq<T>, b: seq<T>, listeners: seq<Listener>)
    ensures Broadcast(a + b, listeners) == Broadcast(a, listeners) + Broadcast(b, listeners)
    decreases |a|
  {
    if a == [] {
      assert a + b == b;
    } else {
      assert (a + b)[1..] == a[1..] + b;
      BroadcastAppend(a[1..], b, listeners);
    }
  }

  lemma {:induction false} FlattenSnoc<T>(bs: seq<seq<T>>, b: seq<T>)
    ensures Flatten(bs + [b]) == Flatten(bs) + b
    decreases |bs|
  {
    if bs == [] {
      assert bs + [b] == [b];
      assert Flatten([b]) == b + Flatten([]);
    } else {
      assert (bs + [b])[1..] == bs[1..] + [b];
      FlattenSnoc(bs[1..], b);
    }
  }

  /** The send loop `for _, listener := range listeners { listener <- item }`. */
  method Send<T>(item: T, listeners: seq<Listener>) returns (sent: seq<(Listener, T)>)
    ensures sent == Round(item, listeners)
  {
    sent := [];
    var j := 0;
    while j < |listeners|
      invariant 0 <= j <= |listeners|
      invariant sent == Round(item, listeners[..j])
    {
      RoundSnoc(item, listeners[..j], listeners[j]);
      assert listeners[..j + 1] == listeners[..j] + [listeners[j]];
      sent := sent + [(listeners[j], item)];
      j := j + 1;
    }
    assert listeners[..j] == listeners;
  }

  /**
   * `submitBatch`: an empty batch is dropped; any other batch is written once
   * and then handed to every listener, in listener order, unless the write
   * set panics (`panics`), which ends the thread before anything is written
   * or handed out.
   */
  method SubmitBatch<T>(batch: seq<T>, listeners: seq<Listener>, panics: bool)
    returns (writes: seq<seq<T>>, sent: seq<(Listener, seq<T>)>, panicked: bool)
    ensures panicked <==> batch != [] && panics
    ensures batch == [] || panics ==> writes == [] && sent == []
    ensures batch != [] && !panics ==> writes == [batch] && sent == Broadcast([batch], listeners)
  {
    writes := [];
    sent := [];
    panicked := false;
    if |batch| > 0 {
      if panics {
        panicked := true;
        return;
      }
      writes := [batch];
      sent := Send(batch, listeners);
      assert Broadcast([batch], listeners) == Round(batch, listeners) + Broadcast([], listeners);
    }
  }

  /** What a worker writes: every batch, or nothing when each write set panics. */
  function Written<T>(received: seq<Option<T>>, size: nat, panics: bool): seq<seq<T>>
  {
    if panics then [] else Batches(received, size, [])
  }

  /**
   * `runWriteThread` as one sequential worker over what it receives until
   * the channel is closed: it submits exactly `Batches`, and every submitted
   * batch reaches every listener. When write sets panic, the first batch
   * submitted ends the thread with nothing written.
   */
  method WriteWorker<T>(received: seq<Option<T>>, size: nat, listeners: seq<Listener>, panics: bool)
    returns (writes: seq<seq<T>>, sent: seq<(Listener, seq<T>)>, panicked: bool)
    ensures writes == Written(received, size, panics)
    ensures sent == Broadcast(writes, listeners)
    ensures panicked <==> panics && Batches(received, size, []) != []
  {
    var batch: seq<T> := [];
    writes := [];
    sent := [];
    panicked := false;
    var i := 0;
    while i < |received|
      invariant 0 <= i <= |received|
      invariant writes + Batches(received[i..], size, batch) == Batches(received, size, [])
      invariant sent == Broadcast(writes, listeners)
      invariant panics ==> writes == []
    {
      BatchesStep(received, i, size, batch);
      match received[i] {
        case Some(d) =>
          batch := batch + [d];
          if |batch| >= size {
            var w, s, p := SubmitBatch(batch, listeners, panics);
            if p {
              assert Batches(received, size, [])[0] == batch;
              return [], [], true;
            }
            BroadcastSnoc(writes, batch, listeners);
            BroadcastOne(batch, listeners);
            Assoc(writes, [batch], Batches(received[i + 1..], size, []));
            writes := writes + w;
            sent := sent + s;
            batch := [];
          }
        case None =>
      }
      i := i + 1;
    }
    assert received[i..] == [];
    var w, s, p := SubmitBatch(batch, listeners, panics);
    if p {
      assert Batches(received, size, []) == [batch];
      return [], [], true;
    }
    if batch != [] {
      BroadcastSnoc(writes, batch, listeners);
      BroadcastOne(batch, listeners);
    } else {
      AppendNothing(writes);
      AppendNothing(sent);
    }
    writes := writes + w;
    sent := sent + s;
  }

  /** What the batches of the received documents are after one more arrival, by its kind. */
  lemma BatchesStep<T>(received: seq<Option<T>>, i: nat, size: nat, pending: seq<T>)
    requires i < |received|
    ensures received[i].None? ==> Batches(received[i..], size, pending) == Batches(received[i + 1..], size, pending)
    ensures received[i].Some? && |pending + [received[i].value]| >= size ==>
      Batches(received[i..], size, pending) == [pending + [received[i].value]] + Batches(received[i + 1..], size, [])
    ensures received[i].Some? && |pending + [received[i].value]| < size ==>
      Batches(received[i..], size, pending) == Batches(received[i + 1..], size, pending + [received[i].value])
  {
    SliceStep(received, i);
  }

  lemma BroadcastOne<T>(item: T, listeners: seq<Listener>)
    ensures Broadcast([item], listeners) == Round(item, listeners)
  {
    assert Broadcast([item], listeners) == Round(item, listeners) + Broadcast([], listeners);
  }

  /**
   * What a writer thread hands out: a listener that was added once receives
   * every written batch once, in the order written. When write sets succeed,
   * the batches are the received documents in arrival order, cut at the
   * batch size; when they panic, nothing is written or received.
   */
  lemma WorkerDeliveries<T>(received: seq<Option<T>>, size: nat, listeners: seq<Listener>, l: Listener, panics: bool)
    requires multiset(listeners)[l] == 1
    ensures ReceivedBy(Broadcast(Written(received, size, panics), listeners), l) == Written(received, size, panics)
    ensures !panics ==> Flatten(Written(received, size, panics)) == Docs(received)
                        && WellCut(Written(received, size, panics), BatchLimit(size))
    ensures panics ==> Written(received, size, panics) == []
  {
    ListenerReceives(Written(received, size, panics), listeners, l);
    WorkerBatches(received, size);
  }

  /** Position of the first `l` in `ls`, or |ls| when it does not occur. */
  function IndexOf(ls: seq<Listener>, l: Listener): (i: nat)
    ensures i <= |ls|
    ensures i < |ls| ==> ls[i] == l
    ensures forall k :: 0 <= k < i ==> ls[k] != l
    decreases |ls|
  {
    if ls == [] then 0
    else if ls[0] == l then 0
    else 1 + IndexOf(ls[1..], l)
  }

  lemma IndexOfMatch(ls: seq<Listener>, l: Listener, i: nat)
    requires i < |ls| && ls[i] == l
    requires forall k :: 0 <= k < i ==> ls[k] != l
    ensures IndexOf(ls, l) == i
  {
  }

  /**
   * `RemoveListener` as written: `copy(ls[i:], ls[i+1:])` over the first
   * match moves every later entry left by one and keeps the slice's length,
   * so the last entry ends up twice; with no match nothing changes.
   */
  function ShiftOut(ls: seq<Listener>, l: Listener): seq<Listener>
  {
    var i := IndexOf(ls, l);
    if i == |ls| then ls else ls[..i] + ls[i + 1..] + [ls[|ls| - 1]]
  }

  /** The evidently intended removal: the first match taken out and the slice one shorter. */
  function Remove(ls: seq<Listener>, l: Listener): seq<Listener>
  {
    var i := IndexOf(ls, l);
    if i == |ls| then ls else ls[..i] + ls[i + 1..]
  }

  /**
   * The loop of `RemoveListener`: find the first match, then move every
   * later entry one place to the left, in place.
   */
  method ShiftOutInPlace(ls: seq<Listener>, l: Listener) returns (r: seq<Listener>)
    ensures r == ShiftOut(ls, l)
  {
    r := ls;
    var i := 0;
    while i < |r|
      invariant 0 <= i <= |r| && r == ls
      invariant forall k :: 0 <= k < i ==> ls[k] != l
    {
      if r[i] == l {
        var j := i;
        while j < |r| - 1
          invariant i <= j <= |r| - 1 && |r| == |ls|
          invariant forall k :: 0 <= k < i ==> r[k] == ls[k]
          invariant forall k :: i <= k < j ==> r[k] == ls[k + 1]
          invariant forall k :: j <= k < |r| ==> r[k] == ls[k]
        {
          r := r[j := r[j + 1]];
          j := j + 1;
        }
        IndexOfMatch(ls, l, i);
        ghost var shifted := ls[..i] + ls[i + 1..] + [ls[|ls| - 1]];
        assert forall k :: 0 <= k < |r| ==> r[k] == shifted[k];
        assert r == shifted;
        return;
      }
      i := i + 1;
    }
  }

  /**
   * As written, removal keeps the length: with no match the slice is
   * unchanged, and otherwise it is the intended removal followed by a second
   * copy of the last entry.
   */
  lemma ShiftOutKeepsLength(ls: seq<Listener>, l: Listener)
    ensures |ShiftOut(ls, l)| == |ls|
    ensures l !in ls ==> ShiftOut(ls, l) == ls
    ensures l in ls ==> ShiftOut(ls, l) == Remove(ls, l) + [ls[|ls| - 1]]
  {
    var i := IndexOf(ls, l);
    if i == |ls| {
      assert forall x :: x in ls ==> x != l;
    }
  }

  /** The intended removal takes out exactly one occurrence of a listener that is there, and leaves every other count alone. */
  lemma RemoveOne(ls: seq<Listener>, l: Listener)
    ensures l in ls ==> multiset(Remove(ls, l)) == multiset(ls) - multiset{l} && |Remove(ls, l)| == |ls| - 1
    ensures l !in ls ==> Remove(ls, l) == ls
  {
    var i := IndexOf(ls, l);
    if i == |ls| {
      assert forall x :: x in ls ==> x != l;
    } else {
      assert ls == ls[..i] + [ls[i]] + ls[i + 1..];
      assert multiset(ls) == multiset(ls[..i]) + multiset{l} + multiset(ls[i + 1..]);
    }
  }

  /**
   * After the intended removal a listener that was added once receives
   * nothing, and every other listener receives what it did before.
   */
  lemma RemovedListenerReceivesNothing<T>(items: seq<T>, ls: seq<Listener>, l: Listener, other: Listener)
    requires multiset(ls)[l] <= 1 && other != l
    ensures ReceivedBy(Broadcast(items, Remove(ls, l)), l) == []
    ensures ReceivedBy(Broadcast(items, Remove(ls, l)), other) == ReceivedBy(Broadcast(items, ls), other)
  {
    RemoveCounts(ls, l, other);
    BroadcastReceived(items, Remove(ls, l), l);
    BroadcastReceived(items, Remove(ls, l), other);
    BroadcastReceived(items, ls, other);
    StutterNever(items);
  }

  lemma RemoveCounts(ls: seq<Listener>, l: Listener, other: Listener)
    requires multiset(ls)[l] <= 1 && other != l
    ensures multiset(Remove(ls, l))[l] == 0
    ensures multiset(Remove(ls, l))[other] == multiset(ls)[other]
  {
    RemoveOne(ls, l);
  }

  /** As written, removing the last of two listeners leaves the slice as it was. */
  lemma ShiftOutLastOfTwo(a: Listener, b: Listener)
    requires a != b
    ensures ShiftOut([a, b], b) == [a, b]
  {
    IndexOfMatch([a, b], b, 1);
    assert [a, b][..1] == [a];
  }

  /** As written, removing the first of two listeners leaves the second one twice. */
  lemma ShiftOutFirstOfTwo(a: Listener, b: Listener)
    requires a != b
    ensures ShiftOut([a, b], a) == [b, b]
  {
    IndexOfMatch([a, b], a, 0);
  }

  /**
   * What the two cases mean for the batches sent: a removed last listener
   * still receives every batch once, and a removed first listener makes the
   * remaining one receive every batch twice.
   */
  lemma ShiftOutDeliveries<T>(items: seq<T>, a: Listener, b: Listener)
    requires a != b
    ensures ReceivedBy(Broadcast(items, ShiftOut([a, b], b)), b) == items
    ensures ReceivedBy(Broadcast(items, ShiftOut([a, b], a)), b) == Stutter(items, 2)
  {
    ShiftOutLastOfTwo(a, b);
    ShiftOutFirstOfTwo(a, b);
    assert multiset([a, b])[b] == 1;
    assert multiset([b, b])[b] == 2;
    ListenerReceives(items, [a, b], b);
    BroadcastReceived(items, [b, b], b);
  }

  lemma MulSign(k: int, r: int)
    requires r > 0
    ensures k >= 1 ==> k * r >= r
    ensures k <= -1 ==> k * r <= -r
  {
    if k >= 1 {
      assert k * r == (k - 1) * r + r;
    } else if k <= -1 {
      assert k * r == (k + 1) * r - r;
    }
  }

  lemma ModUnique(a: int, q: int, m: int, r: int)
    requires r > 0 && 0 <= m < r && a == q * r + m
    ensures a % r == m
  {
    var q' := a / r;
    var m' := a % r;
    assert a == q' * r + m';
    assert (q - q') * r == m' - m;
    MulSign(q - q', r);
  }

  /** One step of a counter kept modulo r is the step count modulo r. */
  lemma ModSucc(i: nat, r: nat)
    requires r > 0
    ensures (i % r + 1) % r == (i + 1) % r
  {
    var q := i / r;
    var m := i % r;
    assert i == q * r + m;
    if m + 1 < r {
      ModUnique(i + 1, q, m + 1, r);
      ModUnique(m + 1, 0, m + 1, r);
    } else {
      assert i + 1 == (q + 1) * r + 0;
      ModUnique(i + 1, q + 1, 0, r);
      ModUnique(m + 1, 1, 0, r);
    }
  }

  /** Round-robin over a non-empty list: entry i is the (i mod length)-th element. */
  function RoundRobin<T>(xs: seq<T>, n: nat): seq<T>
    requires xs != []
  {
    seq(n, i requires 0 <= i < n => xs[i % |xs|])
  }

  /**
   * Every round-robin entry is one of the list's elements, and when there are
   * at least as many entries as elements, every element is used.
   */
  lemma RoundRobinCovers<T>(xs: seq<T>, n: nat)
    requires xs != []
    ensures forall i :: 0 <= i < n ==> RoundRobin(xs, n)[i] in xs
    ensures n >= |xs| ==> forall x :: x in xs ==> x in RoundRobin(xs, n)
  {
    var r := RoundRobin(xs, n);
    if n >= |xs| {
      forall x | x in xs ensures x in r {
        var j :| 0 <= j < |xs| && xs[j] == x;
        assert r[j] == xs[j % |xs|] == xs[j];
      }
    }
  }
}
