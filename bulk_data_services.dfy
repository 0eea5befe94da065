// The bulk Data Service caller of the dataservices package
// (dataservices/bulk-data-services.go, created by dataservices/service.go):
// its builder state and life cycle, how its threads are dealt over hosts or
// forests and given work units, what one call sends and how the endpoint
// state is carried from reply to call, and what the input-driven and the
// state-driven threads do. The server is the sequence of multipart replies
// it gives; whether an endpoint state parses as JSON is a parameter.
module BulkDataServices {
  import opened Common
  import opened Batching
  import opened UtilInternals

  /** The service's life cycle; `iota` numbers the phases 0 to 4 in this order. */
  datatype WorkPhase = Initializing | Running | Interrupting | Interrupted | Completed

  /** What `Wait` leaves once the threads are done: an interrupt request becomes Interrupted, any other phase Completed. */
  function AfterWait(p: WorkPhase): WorkPhase
  {
    if p == Interrupting then Interrupted else Completed
  }

  /**
   * `Wait` always ends in Interrupted or Completed, and in Interrupted exactly
   * after an interrupt request; a second `Wait` therefore reports Completed.
   */
  lemma WaitOutcome(p: WorkPhase)
    ensures AfterWait(p) == Interrupted || AfterWait(p) == Completed
    ensures AfterWait(p) == Interrupted <==> p == Interrupting
    ensures AfterWait(AfterWait(p)) == Completed
  {
  }

  /** A work unit: the `{"forestId": id}` object built for a forest, or a value the caller supplied, as its JSON text. */
  datatype WorkUnit = ForestUnit(forestId: string) | CallerUnit(json: string)

  /** A worker thread: the host whose client it calls and the work unit it sends, if any. */
  datatype Thread = Thread(host: string, workUnit: Option<WorkUnit>)

  /** The unit the i-th thread gets: the units dealt round-robin, or none when there are none. */
  function UnitFor(units: seq<WorkUnit>, i: nat): Option<WorkUnit>
  {
    if units == [] then None else Some(units[i % |units|])
  }

  /** n threads dealt round-robin over `targets`, each with its work unit. */
  function Deal(targets: seq<string>, n: nat, units: seq<WorkUnit>): seq<Thread>
    requires n == 0 || targets != []
  {
    seq(n, i requires 0 <= i < n => Thread(targets[i % |targets|], UnitFor(units, i)))
  }

  /** Every thread is given one of the targets, and with at least as many threads as targets each target is given out. */
  lemma DealHosts(targets: seq<string>, n: nat, units: seq<WorkUnit>)
    requires n == 0 || targets != []
    ensures |Deal(targets, n, units)| == n
    ensures forall k :: 0 <= k < n ==> Deal(targets, n, units)[k].host in targets
    ensures n >= |targets| ==> forall h :: h in targets ==> exists k :: 0 <= k < n && Deal(targets, n, units)[k].host == h
  {
    var d := Deal(targets, n, units);
    forall k | 0 <= k < n ensures d[k].host in targets {
      ModInRange(k, |targets|);
    }
    if n >= |targets| {
      forall h | h in targets ensures exists k :: 0 <= k < n && d[k].host == h {
        var j :| 0 <= j < |targets| && targets[j] == h;
        ModOfSmall(j, |targets|);
        assert d[j].host == h;
      }
    }
  }

  /**
   * Every thread is given one of the units when there are any, none
   * otherwise; with at least as many threads as units each unit is given out.
   */
  lemma DealUnits(targets: seq<string>, n: nat, units: seq<WorkUnit>)
    requires n == 0 || targets != []
    ensures units == [] ==> forall k :: 0 <= k < n ==> Deal(targets, n, units)[k].workUnit == None
    ensures units != [] ==> forall k :: 0 <= k < n ==>
      Deal(targets, n, units)[k].workUnit.Some? && Deal(targets, n, units)[k].workUnit.value in units
    ensures units != [] && n >= |units| ==>
      forall u :: u in units ==> exists k :: 0 <= k < n && Deal(targets, n, units)[k].workUnit == Some(u)
  {
    var d := Deal(targets, n, units);
    if units != [] {
      forall k | 0 <= k < n ensures d[k].workUnit.Some? && d[k].workUnit.value in units {
        ModInRange(k, |units|);
      }
      if n >= |units| {
        forall u | u in units ensures exists k :: 0 <= k < n && d[k].workUnit == Some(u) {
          var j :| 0 <= j < |units| && units[j] == u;
          ModOfSmall(j, |units|);
          assert d[j].workUnit == Some(u);
        }
      }
    }
  }

  lemma ModInRange(k: nat, m: nat)
    requires m > 0
    ensures 0 <= k % m < m
  {
  }

  lemma ModOfSmall(j: nat, m: nat)
    requires j < m
    ensures j % m == j
  {
  }

  /**
   * `Run`'s threads: forest-based work gives one thread per forest on the
   * forest's preferred host; otherwise `threadCount` threads are dealt over
   * the hosts. None when there are threads to start but no host: `hosts[0]`
   * is out of range.
   */
  function RunPlan(hosts: seq<string>, forests: seq<ForestInfo>, forestBased: bool, threadCount: nat, units: seq<WorkUnit>)
    : Option<seq<Thread>>
  {
    if forestBased then Some(Deal(ForestHosts(forests), |forests|, units))
    else if threadCount > 0 && hosts == [] then None
    else Some(Deal(hosts, threadCount, units))
  }

  /**
   * `Run` fails exactly when threads are to be dealt over hosts and there are
   * none; otherwise it starts one thread per forest or `threadCount` threads,
   * each on a forest's preferred host or on a host with a client.
   */
  lemma RunPlanShape(hosts: seq<string>, forests: seq<ForestInfo>, forestBased: bool, threadCount: nat, units: seq<WorkUnit>)
    ensures RunPlan(hosts, forests, forestBased, threadCount, units) == None
        <==> !forestBased && threadCount > 0 && hosts == []
    ensures forestBased ==> var ts := RunPlan(hosts, forests, forestBased, threadCount, units).value;
      |ts| == |forests| && forall k :: 0 <= k < |ts| ==> ts[k].host == PreferredHost(forests[k])
    ensures !forestBased && RunPlan(hosts, forests, forestBased, threadCount, units).Some? ==>
      var ts := RunPlan(hosts, forests, forestBased, threadCount, units).value;
      |ts| == threadCount && forall k :: 0 <= k < |ts| ==> ts[k].host in hosts
  {
    if forestBased {
      var ts := Deal(ForestHosts(forests), |forests|, units);
      forall k | 0 <= k < |ts| ensures ts[k].host == PreferredHost(forests[k]) {
        assert k % |forests| == k;
      }
    } else if threadCount == 0 || hosts != [] {
      DealHosts(hosts, threadCount, units);
    }
  }

  /**
   * `Iterator`'s threads as written: end of stream without threads when there
   * are neither clients nor forests; a thread count of 0 is raised to 1; the
   * host is guarded against an empty host list, but the round-robin counter
   * is then advanced modulo the host count, 0, and that panics (None).
   */
  function IteratorPlanAsWritten(hosts: seq<string>, forests: seq<ForestInfo>, forestBased: bool, threadCount: nat,
                                 units: seq<WorkUnit>): Option<seq<Thread>>
  {
    if hosts == [] && forests == [] then Some([])
    else if forestBased then Some(Deal(ForestHosts(forests), |forests|, units))
    else if hosts == [] then None
    else Some(Deal(hosts, if threadCount == 0 then 1 else threadCount, units))
  }

  /** A service with forests but no clients panics in `Iterator` when its work is not forest-based. */
  lemma IteratorModuloByZero(forests: seq<ForestInfo>, threadCount: nat, units: seq<WorkUnit>)
    requires forests != []
    ensures IteratorPlanAsWritten([], forests, false, threadCount, units) == None
  {
  }

  /**
   * A service whose client hosts include every forest's preferred host, as
   * `GetClientsByHost` builds them, never reaches the modulo by zero; its
   * threads are then the corrected plan's.
   */
  lemma IteratorOnServiceHosts(hosts: seq<string>, forests: seq<ForestInfo>, forestBased: bool, threadCount: nat,
                               units: seq<WorkUnit>)
    requires forall k :: 0 <= k < |forests| ==> PreferredHost(forests[k]) in hosts
    ensures IteratorPlanAsWritten(hosts, forests, forestBased, threadCount, units)
      == Some(IteratorPlan(hosts, forests, forestBased, threadCount, units))
  {
    if forests != [] {
      assert PreferredHost(forests[0]) in hosts;
    } else {
      assert |Deal(ForestHosts(forests), |forests|, units)| == 0;
    }
  }

  /** `Iterator`'s threads, with no host to deal threads over giving end of stream like no clients and no forests. */
  function IteratorPlan(hosts: seq<string>, forests: seq<ForestInfo>, forestBased: bool, threadCount: nat,
                        units: seq<WorkUnit>): (r: seq<Thread>)
  {
    if forestBased then Deal(ForestHosts(forests), |forests|, units)
    else if hosts == [] then []
    else Deal(hosts, if threadCount == 0 then 1 else threadCount, units)
  }

  /**
   * The corrected plan agrees with the code wherever the code does not
   * panic, starts at least one thread on a host with a client whenever there
   * is a host to deal over, and agrees with `Run` once the thread count is
   * positive.
   */
  lemma IteratorPlanSafe(hosts: seq<string>, forests: seq<ForestInfo>, forestBased: bool, threadCount: nat, units: seq<WorkUnit>)
    ensures IteratorPlanAsWritten(hosts, forests, forestBased, threadCount, units).Some? ==>
      IteratorPlanAsWritten(hosts, forests, forestBased, threadCount, units).value
        == IteratorPlan(hosts, forests, forestBased, threadCount, units)
    ensures !forestBased && hosts != [] ==>
      var ts := IteratorPlan(hosts, forests, forestBased, threadCount, units);
      |ts| >= 1 && |ts| >= threadCount && forall k :: 0 <= k < |ts| ==> ts[k].host in hosts
    ensures threadCount > 0 && (forestBased || hosts != []) ==>
      RunPlan(hosts, forests, forestBased, threadCount, units)
        == Some(IteratorPlan(hosts, forests, forestBased, threadCount, units))
  {
    if !forestBased && hosts != [] {
      DealHosts(hosts, if threadCount == 0 then 1 else threadCount, units);
    }
  }

  /** The thread-starting loops of `Run` and `Iterator`: a host counter and a work-unit counter, each kept modulo its length. */
  method DealThreads(targets: seq<string>, n: nat, units: seq<WorkUnit>) returns (threads: seq<Thread>)
    requires n == 0 || targets != []
    ensures threads == Deal(targets, n, units)
  {
    threads := [];
    var counter := 0;
    var unitCounter := 0;
    var i := 0;
    while i < n
      invariant 0 <= i <= n
      invariant threads == Deal(targets, i, units)
      invariant n > 0 ==> counter == i % |targets|
      invariant units != [] ==> unitCounter == i % |units|
    {
      var unit := None;
      if |units| > 0 {
        unit := Some(units[unitCounter]);
        ModSucc(i, |units|);
        unitCounter := (unitCounter + 1) % |units|;
      }
      assert unit == UnitFor(units, i);
      threads := threads + [Thread(targets[counter], unit)];
      ModSucc(i, |targets|);
      counter := (counter + 1) % |targets|;
      i := i + 1;
    }
  }

  /** The parameters of one Data Service call: the work unit, the endpoint state and the input documents (absent when empty). */
  datatype Call = Call(workUnit: Option<WorkUnit>, endpointState: Option<string>, input: seq<string>)

  /** The endpoint state is sent, and replaced from the reply, only when it is non-empty and parses as JSON other than `null`. */
  predicate Tracks(state: string, parses: bool)
  {
    |state| > 0 && parses
  }

  /** The endpoint state after a call. */
  function NextState(state: string, parses: bool, reply: seq<string>): string
  {
    if Tracks(state, parses) && reply != [] then reply[0] else ""
  }

  /** The reply parts handed to the listeners. */
  function Outputs(state: string, parses: bool, reply: seq<string>): seq<string>
  {
    if Tracks(state, parses) && reply != [] then reply[1..] else reply
  }

  /**
   * A call that tracks the state and gets parts back takes the first part as
   * the new state and hands out the others; any other call hands out every
   * part and leaves no state, so no part is lost or handed out twice.
   */
  lemma ReplySplit(state: string, parses: bool, reply: seq<string>)
    ensures Tracks(state, parses) && reply != [] ==>
      reply == [NextState(state, parses, reply)] + Outputs(state, parses, reply)
    ensures !(Tracks(state, parses) && reply != []) ==>
      NextState(state, parses, reply) == "" && Outputs(state, parses, reply) == reply
  {
  }

  /**
   * `submitDataServiceBatch`: the call it makes, the endpoint state it leaves
   * in the batch, and every handed-out part sent to every listener.
   */
  method SubmitDataServiceBatch(state: string, parses: bool, input: seq<string>, workUnit: Option<WorkUnit>,
                                reply: seq<string>, listeners: seq<Listener>)
    returns (call: Call, newState: string, sent: seq<(Listener, string)>)
    ensures call == Call(workUnit, if Tracks(state, parses) then Some(state) else None, input)
    ensures newState == NextState(state, parses, reply)
    ensures sent == Broadcast(Outputs(state, parses, reply), listeners)
  {
    newState := state;
    var track := false;
    var stateParam := None;
    if |state| > 0 {
      if parses {
        stateParam := Some(state);
        track := true;
      } else {
        newState := "";
      }
    }
    call := Call(workUnit, stateParam, input);
    sent := [];
    if |reply| == 0 {
      if track {
        newState := "";
      }
      return;
    }
    var index := 0;
    while index < |reply|
      invariant 0 <= index <= |reply|
      invariant track == Tracks(state, parses)
      invariant newState == if !track then "" else if index == 0 then state else reply[0]
      invariant sent == Broadcast(Outputs(state, parses, reply[..index]), listeners)
    {
      var val := reply[index];
      assert reply[..index + 1] == reply[..index] + [val];
      if track && index == 0 {
        newState := val;
      } else {
        assert Outputs(state, parses, reply[..index + 1]) == Outputs(state, parses, reply[..index]) + [val];
        var s := Send(val, listeners);
        BroadcastSnoc(Outputs(state, parses, reply[..index]), val, listeners);
        sent := sent + s;
      }
      index := index + 1;
    }
    assert reply[..index] == reply;
  }

  /** What a state-driven thread does: the calls it makes, the parts it hands out, and the endpoint state it leaves. */
  datatype Session = Session(calls: seq<Call>, outputs: seq<string>, state: string)

  /**
   * `runProcessThread` from endpoint state `state`: while the state is not
   * empty it calls with it and carries the state the call leaves to the next
   * call. It also stops when the replies run out.
   */
  function Process(state: string, parses: string -> bool, workUnit: Option<WorkUnit>, replies: seq<seq<string>>): Session
    decreases |replies|
  {
    if |state| == 0 || replies == [] then Session([], [], state)
    else
      var p := parses(state);
      var call := Call(workUnit, if Tracks(state, p) then Some(state) else None, []);
      var rest := Process(NextState(state, p, replies[0]), parses, workUnit, replies[1..]);
      Session([call] + rest.calls, Outputs(state, p, replies[0]) + rest.outputs, rest.state)
  }

  /**
   * A state-driven thread makes no call from an empty state. Its first call
   * carries the starting state if that parses, and each later call carries
   * the first part of the previous reply. Every call but the last one sent a
   * state. The thread stops with an empty state or when the replies run out.
   */
  lemma {:induction false} ProcessChain(state: string, parses: string -> bool, workUnit: Option<WorkUnit>, replies: seq<seq<string>>)
    ensures var s := Process(state, parses, workUnit, replies);
      |s.calls| <= |replies|
      && (|state| == 0 ==> s.calls == [] && s.outputs == [])
      && (s.state == "" || |s.calls| == |replies|)
      && (s.calls != [] ==> s.calls[0].endpointState == (if parses(state) then Some(state) else None))
      && (forall k :: 0 <= k < |s.calls| ==> s.calls[k].input == [] && s.calls[k].workUnit == workUnit)
      && (forall j :: 0 <= j < |s.calls| - 1 ==>
            replies[j] != [] && |replies[j][0]| > 0
            && s.calls[j + 1].endpointState == (if parses(replies[j][0]) then Some(replies[j][0]) else None))
      && (forall k :: 0 <= k < |s.calls| - 1 ==> s.calls[k].endpointState.Some?)
    decreases |replies|
  {
    if |state| > 0 && replies != [] {
      var p := parses(state);
      var next := NextState(state, p, replies[0]);
      ProcessChain(next, parses, workUnit, replies[1..]);
      var rest := Process(next, parses, workUnit, replies[1..]);
      var s := Process(state, parses, workUnit, replies);
      var call := Call(workUnit, if Tracks(state, p) then Some(state) else None, []);
      assert s.calls == [call] + rest.calls;
      forall j | 0 <= j < |s.calls| - 1
        ensures replies[j] != [] && |replies[j][0]| > 0
        ensures s.calls[j + 1].endpointState == (if parses(replies[j][0]) then Some(replies[j][0]) else None)
      {
        assert s.calls[j + 1] == rest.calls[j];
        if j == 0 {
          assert |next| > 0;
        } else {
          assert replies[j] == replies[1..][j - 1];
          assert rest.calls[j] == rest.calls[(j - 1) + 1];
        }
      }
      forall k | 0 <= k < |s.calls| - 1 ensures s.calls[k].endpointState.Some? {
        if k > 0 {
          assert s.calls[k] == rest.calls[k - 1];
        }
      }
    }
  }

  /**
   * A starting state that does not parse is dropped: one call without a
   * state, every part of its reply handed out, and no state left.
   */
  lemma ProcessUnparsedState(state: string, parses: string -> bool, workUnit: Option<WorkUnit>, replies: seq<seq<string>>)
    requires |state| > 0 && !parses(state) && replies != []
    ensures Process(state, parses, workUnit, replies) == Session([Call(workUnit, None, [])], replies[0], "")
  {
    assert Process("", parses, workUnit, replies[1..]) == Session([], [], "");
    assert replies[0] + [] == replies[0];
  }

  /** A session that continues after the calls and outputs already done. */
  function Continue(calls: seq<Call>, outputs: seq<string>, s: Session): Session
  {
    Session(calls + s.calls, outputs + s.outputs, s.state)
  }

  lemma ProcessStep(state: string, parses: string -> bool, workUnit: Option<WorkUnit>, replies: seq<seq<string>>, i: nat,
                    calls: seq<Call>, outputs: seq<string>)
    requires |state| > 0 && i < |replies|
    ensures var p := parses(state);
      Continue(calls, outputs, Process(state, parses, workUnit, replies[i..]))
        == Continue(calls + [Call(workUnit, if Tracks(state, p) then Some(state) else None, [])],
                    outputs + Outputs(state, p, replies[i]),
                    Process(NextState(state, p, replies[i]), parses, workUnit, replies[i + 1..]))
  {
    SliceStep(replies, i);
    var p := parses(state);
    var call := Call(workUnit, if Tracks(state, p) then Some(state) else None, []);
    var rest := Process(NextState(state, p, replies[i]), parses, workUnit, replies[i + 1..]);
    Assoc(calls, [call], rest.calls);
    Assoc(outputs, Outputs(state, p, replies[i]), rest.outputs);
  }

  /** The loop of `runProcessThread` without the service: it keeps its own copy of the endpoint state. */
  method ProcessLoop(state: string, parses: string -> bool, workUnit: Option<WorkUnit>, replies: seq<seq<string>>,
                     listeners: seq<Listener>)
    returns (calls: seq<Call>, sent: seq<(Listener, string)>, final: string)
    ensures var s := Process(state, parses, workUnit, replies);
      calls == s.calls && sent == Broadcast(s.outputs, listeners) && final == s.state
  {
    calls := [];
    sent := [];
    final := state;
    ghost var outputs: seq<string> := [];
    ghost var whole := Process(state, parses, workUnit, replies);
    var i := 0;
    while i < |replies| && |final| > 0
      invariant 0 <= i <= |replies|
      invariant whole == Continue(calls, outputs, Process(final, parses, workUnit, replies[i..]))
      invariant sent == Broadcast(outputs, listeners)
    {
      ProcessStep(final, parses, workUnit, replies, i, calls, outputs);
      var call, next, s := SubmitDataServiceBatch(final, parses(final), [], workUnit, replies[i], listeners);
      BroadcastAppend(outputs, Outputs(final, parses(final), replies[i]), listeners);
      outputs := outputs + Outputs(final, parses(final), replies[i]);
      calls := calls + [call];
      sent := sent + s;
      final := next;
      i := i + 1;
    }
    ProcessDone(whole, calls, outputs, final, parses, workUnit, replies[i..]);
  }

  /** A session stopped by an empty state or by running out of replies adds nothing more. */
  lemma ProcessDone(whole: Session, calls: seq<Call>, outputs: seq<string>, final: string,
                    parses: string -> bool, workUnit: Option<WorkUnit>, rest: seq<seq<string>>)
    requires rest == [] || |final| == 0
    requires whole == Continue(calls, outputs, Process(final, parses, workUnit, rest))
    ensures whole == Session(calls, outputs, final)
  {
    AppendNothing(calls);
    AppendNothing(outputs);
  }

  /** The reply to the k-th call: the k-th reply, or no parts once the replies run out. */
  function Answer(replies: seq<seq<string>>, k: nat): seq<string>
  {
    if k < |replies| then replies[k] else []
  }

  /** The replies to the first n calls. */
  function Answers(replies: seq<seq<string>>, n: nat): seq<seq<string>>
  {
    seq(n, k requires 0 <= k < n => Answer(replies, k))
  }

  /** The calls of an input-driven thread: one per batch, with the thread's work unit and no endpoint state. */
  function InputCalls(batches: seq<seq<string>>, workUnit: Option<WorkUnit>): seq<Call>
  {
    seq(|batches|, k requires 0 <= k < |batches| => Call(workUnit, None, batches[k]))
  }

  /**
   * The loop of `runInputThread`: the inputs are batched like a writer
   * thread's documents and each batch is sent without endpoint state, so
   * every part of every reply is handed out. An interrupt request makes the
   * thread return at the first input, before any call.
   */
  method InputLoop(received: seq<Option<string>>, size: nat, interrupting: bool, workUnit: Option<WorkUnit>,
                   replies: seq<seq<string>>, listeners: seq<Listener>)
    returns (calls: seq<Call>, sent: seq<(Listener, string)>)
    ensures interrupting ==> calls == [] && sent == []
    ensures !interrupting ==> calls == InputCalls(Batches(received, size, []), workUnit)
    ensures sent == Broadcast(Flatten(Answers(replies, |calls|)), listeners)
  {
    var batch: seq<string> := [];
    ghost var batches: seq<seq<string>> := [];
    calls := [];
    sent := [];
    var i := 0;
    while i < |received|
      invariant 0 <= i <= |received|
      invariant batches + Batches(received[i..], size, batch) == Batches(received, size, [])
      invariant calls == InputCalls(batches, workUnit)
      invariant sent == Broadcast(Flatten(Answers(replies, |calls|)), listeners)
      invariant interrupting ==> batches == [] && batch == []
    {
      BatchesStep(received, i, size, batch);
      match received[i] {
        case Some(d) =>
          if interrupting {
            return;
          }
          batch := batch + [d];
          if |batch| >= size {
            Assoc(batches, [batch], Batches(received[i + 1..], size, []));
            calls, sent := Submit(batches, batch, workUnit, replies, listeners, calls, sent);
            batches := batches + [batch];
            batch := [];
          }
        case None =>
      }
      i := i + 1;
    }
    assert received[i..] == [];
    if |batch| > 0 {
      calls, sent := Submit(batches, batch, workUnit, replies, listeners, calls, sent);
      batches := batches + [batch];
    } else {
      AppendNothing(batches);
    }
  }

  /** One input batch sent: the call is appended and its reply handed out. */
  method Submit(ghost batches: seq<seq<string>>, batch: seq<string>, workUnit: Option<WorkUnit>, replies: seq<seq<string>>,
                listeners: seq<Listener>, calls: seq<Call>, sent: seq<(Listener, string)>)
    returns (calls': seq<Call>, sent': seq<(Listener, string)>)
    requires calls == InputCalls(batches, workUnit)
    requires sent == Broadcast(Flatten(Answers(replies, |calls|)), listeners)
    ensures calls' == InputCalls(batches + [batch], workUnit)
    ensures sent' == Broadcast(Flatten(Answers(replies, |calls'|)), listeners)
  {
    var reply := if |calls| < |replies| then replies[|calls|] else [];
    var call, _, s := SubmitDataServiceBatch("", false, batch, workUnit, reply, listeners);
    calls' := calls + [call];
    InputCallsSnoc(batches, batch, workUnit);
    AnswersSnoc(replies, |calls|);
    FlattenSnoc(Answers(replies, |calls|), reply);
    BroadcastAppend(Flatten(Answers(replies, |calls|)), reply, listeners);
    sent' := sent + s;
  }

  lemma InputCallsSnoc(batches: seq<seq<string>>, batch: seq<string>, workUnit: Option<WorkUnit>)
    ensures InputCalls(batches + [batch], workUnit) == InputCalls(batches, workUnit) + [Call(workUnit, None, batch)]
  {
  }

  lemma AnswersSnoc(replies: seq<seq<string>>, n: nat)
    ensures Answers(replies, n + 1) == Answers(replies, n) + [Answer(replies, n)]
  {
  }

  /** The forest work units: `{"forestId": id}` for every forest, in forest order. */
  method ForestWorkUnits(forests: seq<ForestInfo>) returns (units: seq<WorkUnit>)
    ensures |units| == |forests|
    ensures forall i :: 0 <= i < |forests| ==> units[i] == ForestUnit(forests[i].id)
  {
    units := [];
    var i := 0;
    while i < |forests|
      invariant 0 <= i <= |forests| && |units| == i
      invariant forall j :: 0 <= j < i ==> units[j] == ForestUnit(forests[j].id)
    {
      units := units + [ForestUnit(forests[i].id)];
      i := i + 1;
    }
  }

  class BulkDataService {
    const endpoint: string
    /** The hosts of the per-host clients, in the order the map is visited. */
    const clientHosts: seq<string>
    const forestInfo: seq<ForestInfo>
    /**
     * Whether `endpointStateMutex` points at a mutex. Nothing assigns the
     * field after construction, so it is fixed for the service's life.
     */
    const hasStateMutex: bool
    var workPhase: WorkPhase
    var workUnits: seq<WorkUnit>
    var batchSize: nat
    var threadCount: nat
    var inputChannel: Option<nat>
    var outputListeners: seq<Listener>
    var workIsForestBased: bool
    var endpointState: string

    /**
     * `Service.BulkDataService`: batches of 1000 and one thread per forest,
     * the forest count cut to 8 bits; work is not forest-based. The
     * endpoint-state mutex is left nil.
     */
    constructor (endpoint: string, hosts: seq<string>, forests: seq<ForestInfo>)
      ensures this.endpoint == endpoint && clientHosts == hosts && forestInfo == forests
      ensures batchSize == 1000 && threadCount == |forests| % 0x100 && !workIsForestBased
      ensures workPhase == Initializing && workUnits == [] && inputChannel == None
      ensures outputListeners == [] && endpointState == ""
      ensures !hasStateMutex
    {
      this.endpoint := endpoint;
      clientHosts := hosts;
      forestInfo := forests;
      hasStateMutex := false;
      workPhase := Initializing;
      workUnits := [];
      batchSize := 1000;
      threadCount := |forests| % 0x100;
      inputChannel := None;
      outputListeners := [];
      workIsForestBased := false;
      endpointState := "";
    }

    /** The evidently intended construction: the same service, with its endpoint-state mutex allocated. */
    constructor Intended(endpoint: string, hosts: seq<string>, forests: seq<ForestInfo>)
      ensures this.endpoint == endpoint && clientHosts == hosts && forestInfo == forests
      ensures batchSize == 1000 && threadCount == |forests| % 0x100 && !workIsForestBased
      ensures workPhase == Initializing && workUnits == [] && inputChannel == None
      ensures outputListeners == [] && endpointState == ""
      ensures hasStateMutex
    {
      this.endpoint := endpoint;
      clientHosts := hosts;
      forestInfo := forests;
      hasStateMutex := true;
      workPhase := Initializing;
      workUnits := [];
      batchSize := 1000;
      threadCount := |forests| % 0x100;
      inputChannel := None;
      outputListeners := [];
      workIsForestBased := false;
      endpointState := "";
    }

    function BatchSize(): (r: nat)
      reads this
      ensures r == batchSize
    {
      batchSize
    }

    function ThreadCount(): (r: nat)
      reads this
      ensures r == threadCount
    {
      threadCount
    }

    /** A listener is added at the end. */
    method WithOutputListener(l: Listener)
      modifies this
      ensures outputListeners == old(outputListeners) + [l]
      ensures workPhase == old(workPhase) && workUnits == old(workUnits) && batchSize == old(batchSize)
      ensures threadCount == old(threadCount) && inputChannel == old(inputChannel)
      ensures workIsForestBased == old(workIsForestBased) && endpointState == old(endpointState)
    {
      outputListeners := outputListeners + [l];
    }

    method WithInputChannel(channel: Option<nat>)
      modifies this
      ensures inputChannel == channel
      ensures workPhase == old(workPhase) && workUnits == old(workUnits) && batchSize == old(batchSize)
      ensures threadCount == old(threadCount) && outputListeners == old(outputListeners)
      ensures workIsForestBased == old(workIsForestBased) && endpointState == old(endpointState)
    {
      inputChannel := channel;
    }

    /** The caller's units replace the old ones, and work is no longer forest-based. */
    method WithWorkUnits(units: seq<WorkUnit>)
      modifies this
      ensures workUnits == units && !workIsForestBased
      ensures workPhase == old(workPhase) && batchSize == old(batchSize) && threadCount == old(threadCount)
      ensures inputChannel == old(inputChannel) && outputListeners == old(outputListeners)
      ensures endpointState == old(endpointState)
    {
      workUnits := units;
      workIsForestBased := false;
    }

    /** One `{"forestId": id}` unit per forest replaces the old units, and work becomes forest-based. */
    method WithForestBasedWorkUnits()
      modifies this
      ensures |workUnits| == |forestInfo| && workIsForestBased
      ensures forall i :: 0 <= i < |forestInfo| ==> workUnits[i] == ForestUnit(forestInfo[i].id)
      ensures workPhase == old(workPhase) && batchSize == old(batchSize) && threadCount == old(threadCount)
      ensures inputChannel == old(inputChannel) && outputListeners == old(outputListeners)
      ensures endpointState == old(endpointState)
    {
      workUnits := ForestWorkUnits(forestInfo);
      workIsForestBased := true;
    }

    method WithEndpointState(state: string)
      modifies this
      ensures endpointState == state
      ensures workPhase == old(workPhase) && workUnits == old(workUnits) && batchSize == old(batchSize)
      ensures threadCount == old(threadCount) && inputChannel == old(inputChannel)
      ensures outputListeners == old(outputListeners) && workIsForestBased == old(workIsForestBased)
    {
      endpointState := state;
    }

    method WithBatchSize(size: nat)
      requires size < 0x1_0000
      modifies this
      ensures batchSize == size
      ensures workPhase == old(workPhase) && workUnits == old(workUnits) && threadCount == old(threadCount)
      ensures inputChannel == old(inputChannel) && outputListeners == old(outputListeners)
      ensures workIsForestBased == old(workIsForestBased) && endpointState == old(endpointState)
    {
      batchSize := size;
    }

    method WithThreadCount(count: nat)
      requires count < 0x100
      modifies this
      ensures threadCount == count
      ensures workPhase == old(workPhase) && workUnits == old(workUnits) && batchSize == old(batchSize)
      ensures inputChannel == old(inputChannel) && outputListeners == old(outputListeners)
      ensures workIsForestBased == old(workIsForestBased) && endpointState == old(endpointState)
    {
      threadCount := count;
    }

    /** Waiting for the threads: the phase they leave behind is settled by `AfterWait`. */
    method Wait()
      modifies this
      ensures workPhase == AfterWait(old(workPhase))
      ensures workUnits == old(workUnits) && batchSize == old(batchSize) && threadCount == old(threadCount)
      ensures inputChannel == old(inputChannel) && outputListeners == old(outputListeners)
      ensures workIsForestBased == old(workIsForestBased) && endpointState == old(endpointState)
    {
      if workPhase == Interrupting {
        workPhase := Interrupted;
      } else {
        workPhase := Completed;
      }
    }

    /** An interrupt request followed by `Wait`: the service ends Interrupted. */
    method Cancel()
      modifies this
      ensures workPhase == Interrupted
      ensures workUnits == old(workUnits) && batchSize == old(batchSize) && threadCount == old(threadCount)
      ensures inputChannel == old(inputChannel) && outputListeners == old(outputListeners)
      ensures workIsForestBased == old(workIsForestBased) && endpointState == old(endpointState)
    {
      workPhase := Interrupting;
      Wait();
    }

    /**
     * `Run`: the service is Running and its threads are `RunPlan`'s (None is
     * the panic); every thread is input-driven when there is an input
     * channel, state-driven otherwise.
     */
    method Run() returns (plan: Option<seq<Thread>>)
      modifies this
      ensures workPhase == Running
      ensures plan == RunPlan(clientHosts, forestInfo, workIsForestBased, threadCount, workUnits)
      ensures workUnits == old(workUnits) && batchSize == old(batchSize) && threadCount == old(threadCount)
      ensures inputChannel == old(inputChannel) && outputListeners == old(outputListeners)
      ensures workIsForestBased == old(workIsForestBased) && endpointState == old(endpointState)
    {
      workPhase := Running;
      if workIsForestBased {
        var threads := DealThreads(ForestHosts(forestInfo), |forestInfo|, workUnits);
        plan := Some(threads);
      } else if threadCount > 0 && |clientHosts| == 0 {
        plan := None;
      } else {
        var threads := DealThreads(clientHosts, threadCount, workUnits);
        plan := Some(threads);
      }
    }

    /**
     * `Iterator`'s threads (None is the panic of the host counter taken
     * modulo 0); it does not change the phase.
     */
    method Iterator() returns (plan: Option<seq<Thread>>)
      ensures plan == IteratorPlanAsWritten(clientHosts, forestInfo, workIsForestBased, threadCount, workUnits)
    {
      if |clientHosts| == 0 && |forestInfo| == 0 {
        return Some([]);
      }
      var n := threadCount;
      if n == 0 {
        n := 1;
      }
      if workIsForestBased {
        var threads := DealThreads(ForestHosts(forestInfo), |forestInfo|, workUnits);
        plan := Some(threads);
      } else if |clientHosts| == 0 {
        plan := None;
      } else {
        var threads := DealThreads(clientHosts, n, workUnits);
        plan := Some(threads);
      }
    }

    /**
     * One state-driven thread over the server's replies. Its first step locks
     * the endpoint-state mutex, so without one it panics (`panicked`) before
     * any call. Otherwise: nothing when an interrupt was requested, else
     * `Process` from the service's endpoint state, which the thread stores
     * back.
     */
    method RunProcessThread(workUnit: Option<WorkUnit>, parses: string -> bool, replies: seq<seq<string>>)
      returns (panicked: bool, calls: seq<Call>, sent: seq<(Listener, string)>)
      modifies this
      ensures panicked <==> !hasStateMutex
      ensures panicked ==> calls == [] && sent == [] && endpointState == old(endpointState)
      ensures !panicked && old(workPhase) == Interrupting ==>
        calls == [] && sent == [] && endpointState == old(endpointState)
      ensures !panicked && old(workPhase) != Interrupting ==>
        var s := Process(old(endpointState), parses, workUnit, replies);
        calls == s.calls && sent == Broadcast(s.outputs, old(outputListeners)) && endpointState == s.state
      ensures workPhase == old(workPhase) && workUnits == old(workUnits) && batchSize == old(batchSize)
      ensures threadCount == old(threadCount) && inputChannel == old(inputChannel)
      ensures outputListeners == old(outputListeners) && workIsForestBased == old(workIsForestBased)
    {
      panicked := !hasStateMutex;
      if panicked {
        calls := [];
        sent := [];
        return;
      }
      if workPhase == Interrupting {
        calls := [];
        sent := [];
        return;
      }
      var final;
      calls, sent, final := ProcessLoop(endpointState, parses, workUnit, replies, outputListeners);
      endpointState := final;
    }

    /** One input-driven thread over what it receives until the input channel is closed. */
    method RunInputThread(workUnit: Option<WorkUnit>, received: seq<Option<string>>, replies: seq<seq<string>>)
      returns (calls: seq<Call>, sent: seq<(Listener, string)>)
      ensures workPhase == Interrupting ==> calls == [] && sent == []
      ensures workPhase != Interrupting ==> calls == InputCalls(Batches(received, batchSize, []), workUnit)
      ensures sent == Broadcast(Flatten(Answers(replies, |calls|)), outputListeners)
    {
      calls, sent := InputLoop(received, batchSize, workPhase == Interrupting, workUnit, replies, outputListeners);
    }
  }

  /**
   * As written, a service made by the service constructor panics in every
   * state-driven thread, whatever its endpoint state, before any call.
   */
  method NewServiceProcessPanics(endpoint: string, hosts: seq<string>, forests: seq<ForestInfo>, state: string,
                                 workUnit: Option<WorkUnit>, parses: string -> bool, replies: seq<seq<string>>)
    returns (panicked: bool, calls: seq<Call>)
    ensures panicked && calls == []
  {
    var bds := new BulkDataService(endpoint, hosts, forests);
    bds.WithEndpointState(state);
    var sent;
    panicked, calls, sent := bds.RunProcessThread(workUnit, parses, replies);
  }

  /**
   * With the mutex allocated, a new service's state-driven thread makes the
   * calls of `Process` from the endpoint state it was given and hands every
   * output to the listener.
   */
  method IntendedServiceProcesses(endpoint: string, hosts: seq<string>, forests: seq<ForestInfo>, state: string,
                                  listener: Listener, workUnit: Option<WorkUnit>, parses: string -> bool,
                                  replies: seq<seq<string>>)
    returns (panicked: bool, calls: seq<Call>, sent: seq<(Listener, string)>)
    ensures var s := Process(state, parses, workUnit, replies);
      !panicked && calls == s.calls && sent == Broadcast(s.outputs, [listener])
  {
    var bds := new BulkDataService.Intended(endpoint, hosts, forests);
    bds.WithEndpointState(state);
    bds.WithOutputListener(listener);
    assert bds.outputListeners == [listener];
    panicked, calls, sent := bds.RunProcessThread(workUnit, parses, replies);
  }
}
