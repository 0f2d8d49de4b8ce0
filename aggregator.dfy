/** The aggregator's snapshot store (aggregator/service/SnapshotService.java):
    one snapshot per hub, folded together from sensor events, with the
    staleness/duplicate check exactly as the source writes it. */
module Aggregator {
  import opened Common
  import opened Events

  /** Every stored snapshot is filed under its own hub id. */
  ghost predicate WellKeyed(snapshots: map<HubId, Snapshot>)
  {
    forall h :: h in snapshots ==> snapshots[h].hubId == h
  }

  /** The snapshot `updateState` starts from: the stored one, or a fresh one
      with an empty state map stamped with the event's time. */
  function BaseSnapshot(snapshots: map<HubId, Snapshot>, e: SensorEvent): Snapshot
  {
    if e.hubId in snapshots then snapshots[e.hubId] else Snapshot(e.hubId, e.timestamp, map[])
  }

  /** The duplicate/staleness check as written: it looks up the HUB id among
      the sensor ids of the hub's state map. */
  predicate Suppressed(snapshots: map<HubId, Snapshot>, e: SensorEvent)
  {
    var states := BaseSnapshot(snapshots, e).sensorsState;
    e.hubId in states && (states[e.hubId].timestamp > e.timestamp || states[e.hubId].data == e.payload)
  }

  /** The snapshot produced when the check lets the event through. */
  function Updated(snapshots: map<HubId, Snapshot>, e: SensorEvent): (u: Snapshot)
    requires WellKeyed(snapshots)
    ensures u.hubId == e.hubId && u.timestamp == e.timestamp
    ensures u.sensorsState.Keys == BaseSnapshot(snapshots, e).sensorsState.Keys + {e.id}
    ensures u.sensorsState[e.id] == SensorState(e.timestamp, e.payload)
    ensures forall k :: k in BaseSnapshot(snapshots, e).sensorsState && k != e.id ==>
              u.sensorsState[k] == BaseSnapshot(snapshots, e).sensorsState[k]
  {
    var base := BaseSnapshot(snapshots, e);
    base.(timestamp := e.timestamp, sensorsState := base.sensorsState[e.id := SensorState(e.timestamp, e.payload)])
  }

  /** What `updateState` returns. */
  function UpdateResult(snapshots: map<HubId, Snapshot>, e: SensorEvent): Option<Snapshot>
    requires WellKeyed(snapshots)
  {
    if Suppressed(snapshots, e) then None else Some(Updated(snapshots, e))
  }

  /** The snapshot table after `updateState`. */
  function StoreAfter(snapshots: map<HubId, Snapshot>, e: SensorEvent): map<HubId, Snapshot>
    requires WellKeyed(snapshots)
  {
    if Suppressed(snapshots, e) then snapshots else snapshots[e.hubId := Updated(snapshots, e)]
  }

  class SnapshotService {
    var snapshots: map<HubId, Snapshot>

    ghost predicate Valid()
      reads this
    {
      WellKeyed(snapshots)
    }

    constructor()
      ensures Valid() && snapshots == map[]
    {
      snapshots := map[];
    }

    /** Folds one sensor event into its hub's snapshot. */
    method UpdateState(event: SensorEvent) returns (r: Option<Snapshot>)
      requires Valid()
      modifies this
      ensures Valid()
      ensures r == UpdateResult(old(snapshots), event)
      ensures snapshots == StoreAfter(old(snapshots), event)
      ensures r.Some? ==> snapshots == old(snapshots)[event.hubId := r.value]
      ensures r.None? ==> snapshots == old(snapshots)
    {
      var snapshot := if event.hubId in snapshots then snapshots[event.hubId]
                      else Snapshot(event.hubId, event.timestamp, map[]);
      var states := snapshot.sensorsState;
      if event.hubId in states {
        var oldState := states[event.hubId];
        if oldState.timestamp > event.timestamp || oldState.data == event.payload {
          return None;
        }
      }
      var newState := SensorState(event.timestamp, event.payload);
      states := states[event.id := newState];
      var updatedSnapshot := snapshot.(timestamp := event.timestamp, sensorsState := states);
      snapshots := snapshots[event.hubId := updatedSnapshot];
      r := Some(updatedSnapshot);
    }
  }

  /** An empty result means the hub's state map holds a key equal to the HUB
      id whose state is strictly later than the event or carries the same
      payload; the table is then unchanged. */
  lemma EmptyOnlyOnHubKeyedState(snapshots: map<HubId, Snapshot>, e: SensorEvent)
    requires WellKeyed(snapshots)
    requires UpdateResult(snapshots, e).None?
    ensures e.hubId in snapshots
    ensures var states := snapshots[e.hubId].sensorsState;
            e.hubId in states && (states[e.hubId].timestamp > e.timestamp || states[e.hubId].data == e.payload)
    ensures StoreAfter(snapshots, e) == snapshots
  {
  }

  /** A non-empty result is exactly what is stored under the event's hub, and
      holds the event's reading under the event's sensor id. */
  lemma NonEmptyStoresReading(snapshots: map<HubId, Snapshot>, e: SensorEvent)
    requires WellKeyed(snapshots)
    requires UpdateResult(snapshots, e).Some?
    ensures var u := UpdateResult(snapshots, e).value;
            && StoreAfter(snapshots, e)[e.hubId] == u
            && u.hubId == e.hubId && u.timestamp == e.timestamp
            && u.sensorsState[e.id] == SensorState(e.timestamp, e.payload)
  {
  }

  /** Because the check looks up the hub id while the store writes the sensor
      id, the check cannot fire unless some sensor of the hub is named like
      the hub itself. */
  lemma NoHubNamedSensorNeverSuppressed(snapshots: map<HubId, Snapshot>, e: SensorEvent)
    requires WellKeyed(snapshots)
    requires e.hubId !in BaseSnapshot(snapshots, e).sensorsState
    ensures UpdateResult(snapshots, e).Some?
  {
  }

  /** `isAfter` is strict: an equal timestamp with a new payload is never stale. */
  lemma EqualTimestampNotStale(snapshots: map<HubId, Snapshot>, e: SensorEvent)
    requires WellKeyed(snapshots)
    requires e.hubId in BaseSnapshot(snapshots, e).sensorsState
    requires BaseSnapshot(snapshots, e).sensorsState[e.hubId].timestamp == e.timestamp
    requires BaseSnapshot(snapshots, e).sensorsState[e.hubId].data != e.payload
    ensures UpdateResult(snapshots, e).Some?
  {
  }

  /** The first event of an unseen hub creates a snapshot holding only that
      sensor's state. */
  lemma FirstEventOfUnseenHub(snapshots: map<HubId, Snapshot>, e: SensorEvent)
    requires WellKeyed(snapshots)
    requires e.hubId !in snapshots
    ensures UpdateResult(snapshots, e) ==
            Some(Snapshot(e.hubId, e.timestamp, map[e.id := SensorState(e.timestamp, e.payload)]))
  {
  }

  /** Other hubs' snapshots, and the other sensors of the same hub, keep
      their states; the table stays well keyed. */
  lemma UpdateFrame(snapshots: map<HubId, Snapshot>, e: SensorEvent)
    requires WellKeyed(snapshots)
    ensures WellKeyed(StoreAfter(snapshots, e))
    ensures StoreAfter(snapshots, e).Keys == snapshots.Keys + (if Suppressed(snapshots, e) then {} else {e.hubId})
    ensures forall h :: h in snapshots && h != e.hubId ==> StoreAfter(snapshots, e)[h] == snapshots[h]
    ensures forall k :: e.hubId in snapshots && k in snapshots[e.hubId].sensorsState && k != e.id ==>
              StoreAfter(snapshots, e)[e.hubId].sensorsState[k] == snapshots[e.hubId].sensorsState[k]
  {
  }

  /** As written, re-delivering the very same event right after it was
      stored produces a second snapshot, whenever the sensor is not named like
      its hub. */
  lemma DuplicateReemitted(snapshots: map<HubId, Snapshot>, e: SensorEvent)
    requires WellKeyed(snapshots)
    requires e.id != e.hubId
    requires e.hubId !in BaseSnapshot(snapshots, e).sensorsState
    ensures WellKeyed(StoreAfter(snapshots, e))
    ensures UpdateResult(snapshots, e).Some?
    ensures UpdateResult(StoreAfter(snapshots, e), e).Some?
  {
    UpdateFrame(snapshots, e);
  }

  /** A concrete instance: one switch event delivered twice to an empty
      store yields two snapshots. */
  lemma DuplicateExample()
    ensures var e := SensorEvent("switch-1", "hub-1", 10, Switch(true));
            && UpdateResult(map[], e).Some?
            && UpdateResult(StoreAfter(map[], e), e).Some?
  {
    var e := SensorEvent("switch-1", "hub-1", 10, Switch(true));
    DuplicateReemitted(map[], e);
  }

  // The check as evidently intended: look the SENSOR id up.

  predicate IntendedSuppressed(snapshots: map<HubId, Snapshot>, e: SensorEvent)
  {
    var states := BaseSnapshot(snapshots, e).sensorsState;
    e.id in states && (states[e.id].timestamp > e.timestamp || states[e.id].data == e.payload)
  }

  function IntendedUpdateResult(snapshots: map<HubId, Snapshot>, e: SensorEvent): Option<Snapshot>
    requires WellKeyed(snapshots)
  {
    if IntendedSuppressed(snapshots, e) then None else Some(Updated(snapshots, e))
  }

  function IntendedStoreAfter(snapshots: map<HubId, Snapshot>, e: SensorEvent): (s: map<HubId, Snapshot>)
    requires WellKeyed(snapshots)
    ensures WellKeyed(s)
  {
    if IntendedSuppressed(snapshots, e) then snapshots else snapshots[e.hubId := Updated(snapshots, e)]
  }

  /** With the intended check, a re-delivered event yields nothing, and an
      event older than the sensor's stored state yields nothing. */
  lemma IntendedSuppressesDuplicates(snapshots: map<HubId, Snapshot>, e: SensorEvent)
    requires WellKeyed(snapshots)
    ensures IntendedUpdateResult(IntendedStoreAfter(snapshots, e), e).None?
  {
    var s' := IntendedStoreAfter(snapshots, e);
    if !IntendedSuppressed(snapshots, e) {
      assert s'[e.hubId] == Updated(snapshots, e);
      assert BaseSnapshot(s', e).sensorsState[e.id].data == e.payload;
    }
  }

  lemma IntendedRejectsOutOfOrder(snapshots: map<HubId, Snapshot>, e: SensorEvent)
    requires WellKeyed(snapshots)
    requires e.hubId in snapshots && e.id in snapshots[e.hubId].sensorsState
    requires snapshots[e.hubId].sensorsState[e.id].timestamp > e.timestamp
    ensures IntendedUpdateResult(snapshots, e).None?
    ensures IntendedStoreAfter(snapshots, e) == snapshots
  {
  }
}
