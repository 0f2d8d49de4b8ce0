/** The analyzer's snapshot loop as written in processor/SnapshotProcessor.java:
    each snapshot is analysed and its triggered scenarios are handed to
    `HubRouterClient.handleScenario` in order, all inside one try block, so
    a scenario whose requests cannot be built ends the dispatch for that
    snapshot; offsets are kept and committed as by the hub-event loop. */
module ProcessorSnapshotProcessor {
  import opened Common
  import opened Events
  import opened Rules
  import opened Offsets
  import Grpc
  import SnapshotAnalyzer
  import HubRouterClient

  type Lookup = SnapshotAnalyzer.ScenarioLookup

  /** `handleScenario` throws for the scenario: some action, in iteration
      order, has no request that can be built. */
  predicate Aborts(sc: Scenario, order: ActionOrder)
  {
    HubRouterClient.BuiltPrefix(order(sc.actions)) < |order(sc.actions)|
  }

  /** How many of the triggered scenarios reach `handleScenario`: all of
      them up to and including the first that throws. */
  function Dispatched(scs: seq<Scenario>, order: ActionOrder): (n: nat)
    ensures n <= |scs|
  {
    if |scs| == 0 then 0
    else if Aborts(scs[0], order) then 1
    else 1 + Dispatched(scs[1..], order)
  }

  /** One more scenario handed over: it ends the dispatch exactly when it
      throws. */
  lemma DispatchedFrom(scs: seq<Scenario>, order: ActionOrder, i: nat)
    requires i < |scs|
    ensures Dispatched(scs[i..], order) == if Aborts(scs[i], order) then 1 else 1 + Dispatched(scs[i + 1..], order)
  {
    assert scs[i..][1..] == scs[i + 1..];
  }

  /** The dispatched prefix is the longest one in which only the last
      scenario may throw, and it stops short only after a throw. */
  lemma {:induction false} DispatchedIsFirstAbort(scs: seq<Scenario>, order: ActionOrder, n: nat)
    requires n <= |scs|
    requires forall i :: 0 <= i < n - 1 ==> !Aborts(scs[i], order)
    requires n < |scs| ==> 0 < n && Aborts(scs[n - 1], order)
    ensures Dispatched(scs, order) == n
  {
    if |scs| > 0 && n > 0 && !Aborts(scs[0], order) {
      DispatchedIsFirstAbort(scs[1..], order, n - 1);
    }
  }

  /** `handleScenario` for one scenario: one clock reading, and the
      requests attempted at that reading. */
  function Handled(order: ActionOrder, clock: nat -> int, o: Grpc.Outbox, sc: Scenario): (o': Grpc.Outbox)
  {
    Grpc.Outbox(o.ticks + 1,
                o.requests + HubRouterClient.RouterRequests(sc, order(sc.actions), clock(o.ticks)))
  }

  /** Scenarios handed to `handleScenario` one after the other. */
  function HandleAll(order: ActionOrder, clock: nat -> int, o: Grpc.Outbox, scs: seq<Scenario>): Grpc.Outbox
  {
    if |scs| == 0 then o
    else Handled(order, clock, HandleAll(order, clock, o, scs[..|scs| - 1]), scs[|scs| - 1])
  }

  /** One snapshot: its triggered scenarios, up to the first that throws. */
  function RecordStep(find: Lookup, order: ActionOrder, clock: nat -> int, o: Grpc.Outbox, s: Snapshot): Grpc.Outbox
  {
    var scs := SnapshotAnalyzer.TriggeredFor(find, s);
    HandleAll(order, clock, o, scs[..Dispatched(scs, order)])
  }

  /** A poll's records, in order. */
  function BatchFold(find: Lookup, order: ActionOrder, clock: nat -> int, o: Grpc.Outbox, rs: seq<Record<Snapshot>>)
    : Grpc.Outbox
  {
    if |rs| == 0 then o
    else RecordStep(find, order, clock, BatchFold(find, order, clock, o, rs[..|rs| - 1]), rs[|rs| - 1].value)
  }

  /** A sequence of polls, in order. */
  function RunFold(find: Lookup, order: ActionOrder, clock: nat -> int, o: Grpc.Outbox,
                   batches: seq<seq<Record<Snapshot>>>): Grpc.Outbox
  {
    if |batches| == 0 then o
    else BatchFold(find, order, clock, RunFold(find, order, clock, o, batches[..|batches| - 1]), batches[|batches| - 1])
  }

  /** Each handled scenario takes one clock reading, and requests are only
      ever appended. */
  lemma {:induction false} HandleAllTicks(order: ActionOrder, clock: nat -> int, o: Grpc.Outbox, scs: seq<Scenario>)
    ensures HandleAll(order, clock, o, scs).ticks == o.ticks + |scs|
    ensures o.requests <= HandleAll(order, clock, o, scs).requests
  {
    if |scs| > 0 {
      HandleAllTicks(order, clock, o, scs[..|scs| - 1]);
    }
  }

  /** Every request a handled scenario attempts, at its own reading (the
      i-th at `o.ticks + i`), is sent. */
  lemma {:induction false} HandleAllSends(order: ActionOrder, clock: nat -> int, o: Grpc.Outbox, scs: seq<Scenario>,
                                          i: nat, q: Grpc.DeviceActionRequest)
    requires i < |scs|
    requires q in HubRouterClient.RouterRequests(scs[i], order(scs[i].actions), clock(o.ticks + i))
    ensures q in HandleAll(order, clock, o, scs).requests
  {
    var n := |scs| - 1;
    var front := scs[..n];
    var rest := HandleAll(order, clock, o, front);
    assert HandleAll(order, clock, o, scs) == Handled(order, clock, rest, scs[n]);
    if i < n {
      assert front[i] == scs[i];
      HandleAllSends(order, clock, o, front, i, q);
    } else {
      HandleAllTicks(order, clock, o, front);
      assert rest.ticks == o.ticks + i;
    }
  }

  /** Nothing else is sent: a new request was attempted by one of the
      handled scenarios at its own reading. */
  lemma {:induction false} HandleAllOnlySends(order: ActionOrder, clock: nat -> int, o: Grpc.Outbox, scs: seq<Scenario>,
                                              q: Grpc.DeviceActionRequest)
    requires q in HandleAll(order, clock, o, scs).requests && q !in o.requests
    ensures exists i :: Attempted(order, clock, o, scs, i, q)
  {
    var n := |scs| - 1;
    var front := scs[..n];
    HandleAllLast(order, clock, o, scs);
    if q in HandleAll(order, clock, o, front).requests {
      HandleAllOnlySends(order, clock, o, front, q);
      var i :| Attempted(order, clock, o, front, i, q);
      assert front[i] == scs[i];
      assert Attempted(order, clock, o, scs, i, q);
    } else {
      assert Attempted(order, clock, o, scs, n, q);
    }
  }

  /** The `i`-th scenario, handled at reading `o.ticks + i`, attempts `q`. */
  predicate Attempted(order: ActionOrder, clock: nat -> int, o: Grpc.Outbox, scs: seq<Scenario>, i: int,
                      q: Grpc.DeviceActionRequest)
  {
    0 <= i < |scs| && q in HubRouterClient.RouterRequests(scs[i], order(scs[i].actions), clock(o.ticks + i))
  }

  /** The last scenario's requests come after the others', at reading `o.ticks + n`. */
  lemma {:induction false} HandleAllLast(order: ActionOrder, clock: nat -> int, o: Grpc.Outbox, scs: seq<Scenario>)
    requires |scs| > 0
    ensures HandleAll(order, clock, o, scs).requests ==
              HandleAll(order, clock, o, scs[..|scs| - 1]).requests +
              HubRouterClient.RouterRequests(scs[|scs| - 1], order(scs[|scs| - 1].actions), clock(o.ticks + |scs| - 1))
  {
    var n := |scs| - 1;
    var rest := HandleAll(order, clock, o, scs[..n]);
    HandleAllTicks(order, clock, o, scs[..n]);
    var last := HubRouterClient.RouterRequests(scs[n], order(scs[n].actions), clock(rest.ticks));
    assert HandleAll(order, clock, o, scs) == Grpc.Outbox(rest.ticks + 1, rest.requests + last);
  }

  /** A scenario that throws hides every triggered scenario after it. */
  lemma {:induction false} AbortHidesLater(scs: seq<Scenario>, order: ActionOrder, k: nat)
    requires k < |scs| && Aborts(scs[k], order)
    ensures Dispatched(scs, order) <= k + 1
  {
    if k > 0 && !Aborts(scs[0], order) {
      AbortHidesLater(scs[1..], order, k - 1);
    }
  }

  /** Every triggered scenario is dispatched exactly when none but possibly
      the last one throws. */
  lemma DispatchedAll(scs: seq<Scenario>, order: ActionOrder)
    ensures Dispatched(scs, order) == |scs| <==> forall i :: 0 <= i < |scs| - 1 ==> !Aborts(scs[i], order)
  {
    if forall i :: 0 <= i < |scs| - 1 ==> !Aborts(scs[i], order) {
      DispatchedIsFirstAbort(scs, order, |scs|);
    } else {
      var i :| 0 <= i < |scs| - 1 && Aborts(scs[i], order);
      AbortHidesLater(scs, order, i);
    }
  }

  /** A scenario whose first action, in iteration order, is a SET_VALUE
      without a value sends nothing and keeps the next triggered scenario
      from being handled at all. */
  lemma NullValueSilencesFollowers(scs: seq<Scenario>, order: ActionOrder, clock: nat -> int, o: Grpc.Outbox)
    requires |scs| >= 2 && |order(scs[0].actions)| > 0
    requires order(scs[0].actions)[0].1 == Action(SET_VALUE, None)
    ensures Dispatched(scs, order) == 1
    ensures HandleAll(order, clock, o, scs[..Dispatched(scs, order)]) == Grpc.Outbox(o.ticks + 1, o.requests)
  {
    assert Aborts(scs[0], order);
    assert scs[..1][..0] == [];
  }

  /** A scenario that is reached and whose actions can all be built has
      every action's envelope sent, at the scenario's own reading. */
  lemma DispatchedActionReachesHub(find: Lookup, order: ActionOrder, clock: nat -> int, o: Grpc.Outbox, s: Snapshot,
                                   i: nat, k: SensorId)
    requires i < Dispatched(SnapshotAnalyzer.TriggeredFor(find, s), order)
    requires var sc := SnapshotAnalyzer.TriggeredFor(find, s)[i];
             && IsEntrySet(order(sc.actions), sc.actions)
             && (forall a :: a in sc.actions ==> Grpc.Buildable(sc.actions[a]))
             && k in sc.actions
    ensures var sc := SnapshotAnalyzer.TriggeredFor(find, s)[i];
            Grpc.Envelope(sc, k, sc.actions[k], clock(o.ticks + i)) in RecordStep(find, order, clock, o, s).requests
  {
    var scs := SnapshotAnalyzer.TriggeredFor(find, s);
    var sc := scs[i];
    var entries := order(sc.actions);
    var now := clock(o.ticks + i);
    var j :| 0 <= j < |entries| && entries[j].0 == k;
    var b := HubRouterClient.BuiltPrefix(entries);
    assert HubRouterClient.RouterRequests(sc, entries, now)[j] == Grpc.Envelope(sc, k, sc.actions[k], now);
    var dispatched := scs[..Dispatched(scs, order)];
    assert dispatched[i] == sc;
    HandleAllSends(order, clock, o, dispatched, i, Grpc.Envelope(sc, k, sc.actions[k], now));
  }

  class SnapshotProcessor {
    var offsets: OffsetTable
    const consumer: Consumer
    const stub: Grpc.HubRouterStub
    const clock: Clock
    /** `scenarioRepository.findByHubId` */
    const findByHubId: Lookup
    /** the iteration order of each scenario's action map */
    const order: ActionOrder

    constructor(consumer: Consumer, stub: Grpc.HubRouterStub, clock: Clock, findByHubId: Lookup, order: ActionOrder)
      ensures this.consumer == consumer && this.stub == stub && this.clock == clock
      ensures this.findByHubId == findByHubId && this.order == order
      ensures offsets == map[]
    {
      this.consumer := consumer;
      this.stub := stub;
      this.clock := clock;
      this.findByHubId := findByHubId;
      this.order := order;
      offsets := map[];
    }

    /** `manageOffsets`, as in the hub-event loop. */
    method ManageOffsets(r: Record<Snapshot>, count: nat)
      modifies this, consumer
      ensures offsets == Advance(old(offsets), r)
      ensures consumer.calls == old(consumer.calls)
                                + (if count % 100 == 0 then [CommitCall.CommitAsyncOffsets(offsets)] else [])
    {
      offsets := offsets[PartitionOf(r) := r.offset + 1];
      if count % 100 == 0 {
        consumer.CommitAsyncOffsets(offsets);
      }
    }

    /** `handleRecord`: analyse, then hand the triggered scenarios over in
        order until one throws. */
    method HandleRecord(snapshot: Snapshot)
      modifies stub, clock
      ensures Grpc.Outbox(clock.ticks, stub.requests)
              == RecordStep(findByHubId, order, clock.reading, Grpc.Outbox(old(clock.ticks), old(stub.requests)), snapshot)
    {
      var hubId := snapshot.hubId;
      var scenarios := SnapshotAnalyzer.Analyze(hubId, findByHubId(hubId), snapshot);
      ghost var o := Grpc.Outbox(clock.ticks, stub.requests);
      var i := 0;
      var aborted := false;
      while i < |scenarios| && !aborted
        invariant 0 <= i <= |scenarios|
        invariant Dispatched(scenarios, order) == if aborted then i else i + Dispatched(scenarios[i..], order)
        invariant Grpc.Outbox(clock.ticks, stub.requests) == HandleAll(order, clock.reading, o, scenarios[..i])
      {
        var sc := scenarios[i];
        ghost var before := Grpc.Outbox(clock.ticks, stub.requests);
        var threw := HubRouterClient.HandleScenario(stub, clock, sc, order(sc.actions));
        assert Grpc.Outbox(clock.ticks, stub.requests) == Handled(order, clock.reading, before, sc);
        assert threw == Aborts(sc, order);
        assert scenarios[..i + 1][..i] == scenarios[..i];
        DispatchedFrom(scenarios, order, i);
        i := i + 1;
        // a NullPointerException leaves the loop and is logged by the catch
        aborted := threw;
      }
      assert !aborted ==> scenarios[i..] == [];
    }

    /** The body of `start`'s loop for one record. */
    method Step(r: Record<Snapshot>, count: nat)
      modifies this, consumer, stub, clock
      ensures offsets == Advance(old(offsets), r)
      ensures consumer.calls == old(consumer.calls)
                                + (if count % 100 == 0 then [CommitCall.CommitAsyncOffsets(offsets)] else [])
      ensures Grpc.Outbox(clock.ticks, stub.requests)
              == RecordStep(findByHubId, order, clock.reading, Grpc.Outbox(old(clock.ticks), old(stub.requests)), r.value)
    {
      HandleRecord(r.value);
      ManageOffsets(r, count);
    }

    /** One turn of `start`'s loop over the polled records. */
    method PollBatch(records: seq<Record<Snapshot>>)
      modifies this, consumer, stub, clock
      ensures offsets == OffsetsAfter(old(offsets), records)
      ensures consumer.calls == old(consumer.calls) + (BatchCommits(old(offsets), records) + [CommitCall.CommitAsync])
      ensures Grpc.Outbox(clock.ticks, stub.requests)
              == BatchFold(findByHubId, order, clock.reading, Grpc.Outbox(old(clock.ticks), old(stub.requests)), records)
    {
      ghost var o := Grpc.Outbox(clock.ticks, stub.requests);
      var count := 0;
      for i := 0 to |records|
        invariant count == i
        invariant offsets == OffsetsAfter(old(offsets), records[..i])
        invariant consumer.calls == old(consumer.calls) + BatchCommits(old(offsets), records[..i])
        invariant Grpc.Outbox(clock.ticks, stub.requests) == BatchFold(findByHubId, order, clock.reading, o, records[..i])
      {
        assert records[..i + 1][..i] == records[..i];
        Step(records[i], count);
        count := count + 1;
      }
      assert records[..|records|] == records;
      consumer.CommitAsync();
    }

    /** `start`: the polls in order, then the exit path's synchronous commit
        of the table and the close. */
    method Run(batches: seq<seq<Record<Snapshot>>>)
      modifies this, consumer, stub, clock
      ensures offsets == OffsetsAfter(old(offsets), Flatten(batches))
      ensures consumer.calls == old(consumer.calls) + RunCommits(old(offsets), batches, CommitCall.CommitAsync)
                                + [CommitCall.CommitSyncOffsets(offsets), CommitCall.Close]
      ensures Grpc.Outbox(clock.ticks, stub.requests)
              == RunFold(findByHubId, order, clock.reading, Grpc.Outbox(old(clock.ticks), old(stub.requests)), batches)
    {
      ghost var o := Grpc.Outbox(clock.ticks, stub.requests);
      for i := 0 to |batches|
        invariant offsets == OffsetsAfter(old(offsets), Flatten(batches[..i]))
        invariant consumer.calls == old(consumer.calls) + RunCommits(old(offsets), batches[..i], CommitCall.CommitAsync)
        invariant Grpc.Outbox(clock.ticks, stub.requests) == RunFold(findByHubId, order, clock.reading, o, batches[..i])
      {
        RunStep(old(offsets), batches, i, CommitCall.CommitAsync);
        assert batches[..i + 1][..i] == batches[..i];
        ghost var batch := BatchCommits(offsets, batches[i]) + [CommitCall.CommitAsync];
        PollBatch(batches[i]);
        AppendAssoc(old(consumer.calls), RunCommits(old(offsets), batches[..i], CommitCall.CommitAsync), batch);
      }
      assert batches[..|batches|] == batches;
      consumer.CommitSyncOffsets(offsets);
      consumer.Close();
    }
  }
}

/** The analyzer's snapshot loop as written in service/SnapshotProcessor.java:
    every triggered scenario goes to `HubEventClient.sendScenarioCommands`,
    which never throws; the offset table is a static field, shared by every
    instance; each poll ends in a synchronous commit, and the exit path only
    closes the consumer. */
module ServiceSnapshotProcessor {
  import opened Common
  import opened Events
  import opened Rules
  import opened Offsets
  import Grpc
  import SnapshotAnalyzer
  import HubEventClient

  type Lookup = SnapshotAnalyzer.ScenarioLookup

  /** The static `offsets` map: one table for all instances. */
  class SharedOffsets {
    var table: OffsetTable

    constructor()
      ensures table == map[]
    {
      table := map[];
    }
  }

  /** The static `updateOffsets`. */
  method UpdateOffsets(offsets: SharedOffsets, consumer: Consumer, r: Record<Snapshot>, count: nat)
    modifies offsets, consumer
    ensures offsets.table == Advance(old(offsets.table), r)
    ensures consumer.calls == old(consumer.calls)
                              + (if count % 100 == 0 then [CommitCall.CommitAsyncOffsets(offsets.table)] else [])
  {
    offsets.table := offsets.table[PartitionOf(r) := r.offset + 1];
    if count % 100 == 0 {
      consumer.CommitAsyncOffsets(offsets.table);
    }
  }

  /** `sendScenarioCommands` for one scenario: one clock reading, and the
      commands sent at that reading. */
  function Sent(order: ActionOrder, clock: nat -> int, o: Grpc.Outbox, sc: Scenario): Grpc.Outbox
  {
    Grpc.Outbox(o.ticks + 1,
                o.requests + HubEventClient.CommandRequests(sc, order(sc.actions), clock(o.ticks)))
  }

  /** Scenarios handed to `sendScenarioCommands` one after the other. */
  function SendAll(order: ActionOrder, clock: nat -> int, o: Grpc.Outbox, scs: seq<Scenario>): Grpc.Outbox
  {
    if |scs| == 0 then o
    else Sent(order, clock, SendAll(order, clock, o, scs[..|scs| - 1]), scs[|scs| - 1])
  }

  /** One snapshot: every triggered scenario. */
  function RecordStep(find: Lookup, order: ActionOrder, clock: nat -> int, o: Grpc.Outbox, s: Snapshot): Grpc.Outbox
  {
    SendAll(order, clock, o, SnapshotAnalyzer.TriggeredFor(find, s))
  }

  /** A poll's records, in order. */
  function BatchFold(find: Lookup, order: ActionOrder, clock: nat -> int, o: Grpc.Outbox, rs: seq<Record<Snapshot>>)
    : Grpc.Outbox
  {
    if |rs| == 0 then o
    else RecordStep(find, order, clock, BatchFold(find, order, clock, o, rs[..|rs| - 1]), rs[|rs| - 1].value)
  }

  /** A sequence of polls, in order. */
  function RunFold(find: Lookup, order: ActionOrder, clock: nat -> int, o: Grpc.Outbox,
                   batches: seq<seq<Record<Snapshot>>>): Grpc.Outbox
  {
    if |batches| == 0 then o
    else BatchFold(find, order, clock, RunFold(find, order, clock, o, batches[..|batches| - 1]), batches[|batches| - 1])
  }

  /** Each scenario takes one clock reading, and requests are only ever
      appended. */
  lemma {:induction false} SendAllTicks(order: ActionOrder, clock: nat -> int, o: Grpc.Outbox, scs: seq<Scenario>)
    ensures SendAll(order, clock, o, scs).ticks == o.ticks + |scs|
    ensures o.requests <= SendAll(order, clock, o, scs).requests
  {
    if |scs| > 0 {
      SendAllTicks(order, clock, o, scs[..|scs| - 1]);
    }
  }

  /** Every triggered scenario has its commands sent, the i-th at reading
      `o.ticks + i`. */
  lemma {:induction false} SendAllSends(order: ActionOrder, clock: nat -> int, o: Grpc.Outbox, scs: seq<Scenario>,
                                        i: nat, q: Grpc.DeviceActionRequest)
    requires i < |scs|
    requires q in HubEventClient.CommandRequests(scs[i], order(scs[i].actions), clock(o.ticks + i))
    ensures q in SendAll(order, clock, o, scs).requests
  {
    var n := |scs| - 1;
    var front := scs[..n];
    var rest := SendAll(order, clock, o, front);
    assert SendAll(order, clock, o, scs) == Sent(order, clock, rest, scs[n]);
    if i < n {
      assert front[i] == scs[i];
      SendAllSends(order, clock, o, front, i, q);
    } else {
      SendAllTicks(order, clock, o, front);
      assert rest.ticks == o.ticks + i;
    }
  }

  /** Nothing else is sent: a new request is a command of one of the
      scenarios at its own reading. */
  lemma {:induction false} SendAllOnlySends(order: ActionOrder, clock: nat -> int, o: Grpc.Outbox, scs: seq<Scenario>,
                                            q: Grpc.DeviceActionRequest)
    requires q in SendAll(order, clock, o, scs).requests && q !in o.requests
    ensures exists i :: 0 <= i < |scs| && q in HubEventClient.CommandRequests(scs[i], order(scs[i].actions), clock(o.ticks + i))
  {
    var n := |scs| - 1;
    var front := scs[..n];
    var rest := SendAll(order, clock, o, front);
    assert SendAll(order, clock, o, scs) == Sent(order, clock, rest, scs[n]);
    SendAllTicks(order, clock, o, front);
    if q in rest.requests {
      SendAllOnlySends(order, clock, o, front, q);
      var i :| 0 <= i < n && q in HubEventClient.CommandRequests(front[i], order(front[i].actions), clock(o.ticks + i));
      assert front[i] == scs[i];
    } else {
      assert q in HubEventClient.CommandRequests(scs[n], order(scs[n].actions), clock(o.ticks + n));
    }
  }

  /** Every buildable action of every triggered scenario reaches the hub
      router, as that action's envelope at the scenario's own reading,
      whatever the other scenarios and actions do. */
  lemma TriggeredActionReachesHub(find: Lookup, order: ActionOrder, clock: nat -> int, o: Grpc.Outbox, s: Snapshot,
                                  i: nat, k: SensorId)
    requires i < |SnapshotAnalyzer.TriggeredFor(find, s)|
    requires var sc := SnapshotAnalyzer.TriggeredFor(find, s)[i];
             IsEntrySet(order(sc.actions), sc.actions) && k in sc.actions && Grpc.Buildable(sc.actions[k])
    ensures var sc := SnapshotAnalyzer.TriggeredFor(find, s)[i];
            Grpc.Envelope(sc, k, sc.actions[k], clock(o.ticks + i)) in RecordStep(find, order, clock, o, s).requests
  {
    var scs := SnapshotAnalyzer.TriggeredFor(find, s);
    var sc := scs[i];
    var q := Grpc.Envelope(sc, k, sc.actions[k], clock(o.ticks + i));
    HubEventClient.EveryBuildableActionSent(sc, order(sc.actions), clock(o.ticks + i), k);
    SendAllSends(order, clock, o, scs, i, q);
  }

  class SnapshotProcessor {
    const offsets: SharedOffsets
    const consumer: Consumer
    const stub: Grpc.HubRouterStub
    const clock: Clock
    /** `scenarioRepository.findByHubId` */
    const findByHubId: Lookup
    /** the iteration order of each scenario's action map */
    const order: ActionOrder

    /** Every instance is given the one shared table. */
    constructor(offsets: SharedOffsets, consumer: Consumer, stub: Grpc.HubRouterStub, clock: Clock,
                findByHubId: Lookup, order: ActionOrder)
      ensures this.offsets == offsets && this.consumer == consumer && this.stub == stub && this.clock == clock
      ensures this.findByHubId == findByHubId && this.order == order
    {
      this.offsets := offsets;
      this.consumer := consumer;
      this.stub := stub;
      this.clock := clock;
      this.findByHubId := findByHubId;
      this.order := order;
    }

    /** `processSnapshotRecord`: analyse, then send the commands of every
        triggered scenario, in order. */
    method ProcessSnapshotRecord(snapshot: Snapshot)
      modifies stub, clock
      ensures Grpc.Outbox(clock.ticks, stub.requests)
              == RecordStep(findByHubId, order, clock.reading, Grpc.Outbox(old(clock.ticks), old(stub.requests)), snapshot)
    {
      var hubId := snapshot.hubId;
      var scenarios := SnapshotAnalyzer.Analyze(hubId, findByHubId(hubId), snapshot);
      ghost var o := Grpc.Outbox(clock.ticks, stub.requests);
      for i := 0 to |scenarios|
        invariant Grpc.Outbox(clock.ticks, stub.requests) == SendAll(order, clock.reading, o, scenarios[..i])
      {
        var sc := scenarios[i];
        HubEventClient.SendScenarioCommands(stub, clock, sc, order(sc.actions));
        assert scenarios[..i + 1][..i] == scenarios[..i];
      }
      assert scenarios[..|scenarios|] == scenarios;
    }

    /** The body of `start`'s loop for one record. */
    method Step(r: Record<Snapshot>, count: nat)
      modifies offsets, consumer, stub, clock
      ensures offsets.table == Advance(old(offsets.table), r)
      ensures consumer.calls == old(consumer.calls)
                                + (if count % 100 == 0 then [CommitCall.CommitAsyncOffsets(offsets.table)] else [])
      ensures Grpc.Outbox(clock.ticks, stub.requests)
              == RecordStep(findByHubId, order, clock.reading, Grpc.Outbox(old(clock.ticks), old(stub.requests)), r.value)
    {
      ProcessSnapshotRecord(r.value);
      UpdateOffsets(offsets, consumer, r, count);
    }

    /** One turn of `start`'s loop: records, then a synchronous commit. */
    method PollBatch(records: seq<Record<Snapshot>>)
      modifies offsets, consumer, stub, clock
      ensures offsets.table == OffsetsAfter(old(offsets.table), records)
      ensures consumer.calls == old(consumer.calls) + (BatchCommits(old(offsets.table), records) + [CommitCall.CommitSync])
      ensures Grpc.Outbox(clock.ticks, stub.requests)
              == BatchFold(findByHubId, order, clock.reading, Grpc.Outbox(old(clock.ticks), old(stub.requests)), records)
    {
      ghost var o := Grpc.Outbox(clock.ticks, stub.requests);
      var count := 0;
      for i := 0 to |records|
        invariant count == i
        invariant offsets.table == OffsetsAfter(old(offsets.table), records[..i])
        invariant consumer.calls == old(consumer.calls) + BatchCommits(old(offsets.table), records[..i])
        invariant Grpc.Outbox(clock.ticks, stub.requests) == BatchFold(findByHubId, order, clock.reading, o, records[..i])
      {
        assert records[..i + 1][..i] == records[..i];
        Step(records[i], count);
        count := count + 1;
      }
      assert records[..|records|] == records;
      consumer.CommitSync();
    }

    /** `start`: the polls in order, then the exit path, which only closes. */
    method Run(batches: seq<seq<Record<Snapshot>>>)
      modifies offsets, consumer, stub, clock
      ensures offsets.table == OffsetsAfter(old(offsets.table), Flatten(batches))
      ensures consumer.calls == old(consumer.calls) + RunCommits(old(offsets.table), batches, CommitCall.CommitSync)
                                + [CommitCall.Close]
      ensures Grpc.Outbox(clock.ticks, stub.requests)
              == RunFold(findByHubId, order, clock.reading, Grpc.Outbox(old(clock.ticks), old(stub.requests)), batches)
    {
      ghost var o := Grpc.Outbox(clock.ticks, stub.requests);
      for i := 0 to |batches|
        invariant offsets.table == OffsetsAfter(old(offsets.table), Flatten(batches[..i]))
        invariant consumer.calls == old(consumer.calls) + RunCommits(old(offsets.table), batches[..i], CommitCall.CommitSync)
        invariant Grpc.Outbox(clock.ticks, stub.requests) == RunFold(findByHubId, order, clock.reading, o, batches[..i])
      {
        RunStep(old(offsets.table), batches, i, CommitCall.CommitSync);
        assert batches[..i + 1][..i] == batches[..i];
        ghost var batch := BatchCommits(offsets.table, batches[i]) + [CommitCall.CommitSync];
        PollBatch(batches[i]);
        AppendAssoc(old(consumer.calls), RunCommits(old(offsets.table), batches[..i], CommitCall.CommitSync), batch);
      }
      assert batches[..|batches|] == batches;
      consumer.Close();
    }
  }
}
