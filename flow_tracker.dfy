/** The flow tracker as the object the trace processor holds: its maps and
    its counter are fields that every call updates in place.  The flow
    table and the four counters, which live in storage in the original,
    are fields here too.  Every method states its whole new state and is
    proved against the matching function of module FlowModel.
 */
module FlowTracking {
  import opened FlowModel

  class FlowTracker {
    /** The value a default-constructed SliceId holds. */
    const defaultSliceId: SliceId

    var flowToSlice: map<FlowId, SliceId>
    var pendingFlowIds: map<TrackId, seq<FlowId>>
    var v1FlowIds: map<V1FlowId, FlowId>
    var v1IdCounter: nat

    /** Rows appended to storage's flow table, oldest first. */
    var flowTable: seq<Edge>
    /** Storage's diagnostic counters. */
    var stats: Stats

    ghost function State(): TrackerState
      reads this
    {
      TrackerState(flowToSlice, pendingFlowIds, v1FlowIds, v1IdCounter, flowTable, stats)
    }

    ghost predicate Valid()
      reads this
    {
      V1Valid(State())
    }

    constructor (defaultSliceId: SliceId, firstV1Id: FlowId)
      ensures Valid()
      ensures this.defaultSliceId == defaultSliceId
      ensures State() == Init(firstV1Id)
    {
      this.defaultSliceId := defaultSliceId;
      flowToSlice := map[];
      pendingFlowIds := map[];
      v1FlowIds := map[];
      v1IdCounter := firstV1Id;
      flowTable := [];
      stats := NoStats;
    }

    /** Appends one row to the flow table and touches nothing else. */
    method InsertFlow(sliceOut: SliceId, sliceIn: SliceId)
      modifies this`flowTable
      ensures flowTable == old(flowTable) + [Edge(sliceOut, sliceIn)]
    {
      flowTable := flowTable + [Edge(sliceOut, sliceIn)];
    }

    method Begin(ctx: SliceContext, track: TrackId, flow: FlowId)
      requires Valid()
      modifies this
      ensures Valid()
      ensures State() == FlowModel.Begin(old(State()), ctx, track, flow)
      // no open slice: counted, and checked before the duplicate test
      ensures track !in ctx ==>
        stats == old(stats).Increment(FlowNoEnclosingSlice) && flowToSlice == old(flowToSlice)
      // open slice, flow already registered: the first registration stays
      ensures track in ctx && flow in old(flowToSlice) ==>
        stats == old(stats).Increment(FlowDuplicateId) && flowToSlice == old(flowToSlice)
      ensures track in ctx && flow !in old(flowToSlice) ==>
        stats == old(stats) && flowToSlice == old(flowToSlice)[flow := ctx[track]]
      ensures flowTable == old(flowTable) && pendingFlowIds == old(pendingFlowIds)
      ensures v1FlowIds == old(v1FlowIds) && v1IdCounter == old(v1IdCounter)
    {
      var openSlice := Topmost(ctx, track);
      if openSlice.None? {
        stats := stats.Increment(FlowNoEnclosingSlice);
        return;
      }
      if flow in flowToSlice {
        stats := stats.Increment(FlowDuplicateId);
        return;
      }
      flowToSlice := flowToSlice[flow := openSlice.value];
    }

    method Step(ctx: SliceContext, track: TrackId, flow: FlowId)
      requires Valid()
      modifies this
      ensures Valid()
      ensures State() == FlowModel.Step(old(State()), ctx, track, flow)
      ensures track !in ctx ==>
        stats == old(stats).Increment(FlowNoEnclosingSlice)
        && flowToSlice == old(flowToSlice) && flowTable == old(flowTable)
      ensures track in ctx && flow !in old(flowToSlice) ==>
        stats == old(stats).Increment(FlowStepWithoutStart)
        && flowToSlice == old(flowToSlice) && flowTable == old(flowTable)
      // the flow's endpoint advances: one edge from the old endpoint, then re-mapped
      ensures track in ctx && flow in old(flowToSlice) ==>
        stats == old(stats)
        && flowTable == old(flowTable) + [Edge(old(flowToSlice)[flow], ctx[track])]
        && flowToSlice == old(flowToSlice)[flow := ctx[track]]
      ensures pendingFlowIds == old(pendingFlowIds)
      ensures v1FlowIds == old(v1FlowIds) && v1IdCounter == old(v1IdCounter)
    {
      var openSlice := Topmost(ctx, track);
      if openSlice.None? {
        stats := stats.Increment(FlowNoEnclosingSlice);
        return;
      }
      if flow !in flowToSlice {
        stats := stats.Increment(FlowStepWithoutStart);
        return;
      }
      var sliceOut := flowToSlice[flow];
      InsertFlow(sliceOut, openSlice.value);
      flowToSlice := flowToSlice[flow := openSlice.value];
    }

    method End(ctx: SliceContext, track: TrackId, flow: FlowId, bindEnclosingSlice: bool)
      requires Valid()
      modifies this
      ensures Valid()
      ensures State() == FlowModel.End(old(State()), ctx, track, flow, bindEnclosingSlice)
      // deferred: queued on the track without asking the slice tracker
      ensures !bindEnclosingSlice ==>
        pendingFlowIds == old(pendingFlowIds)[track := PendingOf(old(pendingFlowIds), track) + [flow]]
        && stats == old(stats) && flowToSlice == old(flowToSlice) && flowTable == old(flowTable)
      ensures bindEnclosingSlice && track !in ctx ==>
        stats == old(stats).Increment(FlowNoEnclosingSlice)
        && flowToSlice == old(flowToSlice) && flowTable == old(flowTable)
      ensures bindEnclosingSlice && track in ctx && flow !in old(flowToSlice) ==>
        stats == old(stats).Increment(FlowEndWithoutStart)
        && flowToSlice == old(flowToSlice) && flowTable == old(flowTable)
      // bound: one edge into the open slice, and the flow is closed
      ensures bindEnclosingSlice && track in ctx && flow in old(flowToSlice) ==>
        stats == old(stats)
        && flowTable == old(flowTable) + [Edge(old(flowToSlice)[flow], ctx[track])]
        && flowToSlice == old(flowToSlice) - {flow}
      ensures bindEnclosingSlice ==> pendingFlowIds == old(pendingFlowIds)
      ensures v1FlowIds == old(v1FlowIds) && v1IdCounter == old(v1IdCounter)
    {
      if !bindEnclosingSlice {
        pendingFlowIds := pendingFlowIds[track := PendingOf(pendingFlowIds, track) + [flow]];
        return;
      }
      var openSlice := Topmost(ctx, track);
      if openSlice.None? {
        stats := stats.Increment(FlowNoEnclosingSlice);
        return;
      }
      if flow !in flowToSlice {
        stats := stats.Increment(FlowEndWithoutStart);
        return;
      }
      var sliceOut := flowToSlice[flow];
      InsertFlow(sliceOut, openSlice.value);
      flowToSlice := flowToSlice - {flow};
    }

    method GetFlowIdForV1Event(sourceId: nat, cat: StringId, name: StringId) returns (id: FlowId)
      requires Valid()
      modifies this
      ensures Valid()
      ensures (State(), id) == FlowModel.GetFlowIdForV1Event(old(State()), V1FlowId(sourceId, cat, name))
      // a triple seen before gets its memoized id back
      ensures V1FlowId(sourceId, cat, name) in old(v1FlowIds) ==>
        id == old(v1FlowIds)[V1FlowId(sourceId, cat, name)]
        && v1FlowIds == old(v1FlowIds) && v1IdCounter == old(v1IdCounter)
      // a new triple gets the counter, an id nobody holds yet
      ensures V1FlowId(sourceId, cat, name) !in old(v1FlowIds) ==>
        id == old(v1IdCounter) && id !in old(v1FlowIds).Values
        && v1FlowIds == old(v1FlowIds)[V1FlowId(sourceId, cat, name) := id]
        && v1IdCounter == old(v1IdCounter) + 1
      ensures flowToSlice == old(flowToSlice) && pendingFlowIds == old(pendingFlowIds)
      ensures flowTable == old(flowTable) && stats == old(stats)
    {
      var key := V1FlowId(sourceId, cat, name);
      if key in v1FlowIds {
        return v1FlowIds[key];
      }
      id := v1IdCounter;
      v1FlowIds := v1FlowIds[key := id];
      v1IdCounter := v1IdCounter + 1;
    }

    /** Called by the slice tracker when it opens `slice` on `track`. */
    method ClosePendingEventsOnTrack(track: TrackId, slice: SliceId)
      requires Valid()
      modifies this
      ensures Valid()
      ensures State() == FlowModel.ClosePendingEventsOnTrack(old(State()), track, slice, defaultSliceId)
      ensures track !in old(pendingFlowIds) ==>
        flowTable == old(flowTable) && flowToSlice == old(flowToSlice)
        && pendingFlowIds == old(pendingFlowIds)
      // one edge per pending entry, in list order; the list is dropped and the
      // flows stay registered (unregistered ones now hold the default id)
      ensures track in old(pendingFlowIds) ==>
        flowTable == old(flowTable)
          + PendingEdges(old(flowToSlice), old(pendingFlowIds)[track], slice, defaultSliceId)
        && flowToSlice == RegisterMissing(old(flowToSlice), old(pendingFlowIds)[track], defaultSliceId)
        && pendingFlowIds == old(pendingFlowIds) - {track}
      ensures v1FlowIds == old(v1FlowIds) && v1IdCounter == old(v1IdCounter)
      ensures stats == old(stats)
    {
      if track !in pendingFlowIds {
        return;
      }
      InsertPendingFlows(pendingFlowIds[track], slice);
      pendingFlowIds := pendingFlowIds - {track};
    }

    /** The loop of ClosePendingEventsOnTrack: one edge per id, in order,
        through `operator[]` on the flow map. */
    method InsertPendingFlows(ids: seq<FlowId>, slice: SliceId)
      modifies this`flowToSlice, this`flowTable
      ensures flowTable == old(flowTable) + PendingEdges(old(flowToSlice), ids, slice, defaultSliceId)
      ensures flowToSlice == RegisterMissing(old(flowToSlice), ids, defaultSliceId)
    {
      ghost var flows0, table0 := flowToSlice, flowTable;
      var i := 0;
      while i < |ids|
        invariant 0 <= i <= |ids|
        invariant flowToSlice == RegisterMissing(flows0, ids[..i], defaultSliceId)
        invariant flowTable == table0 + PendingEdges(flows0, ids[..i], slice, defaultSliceId)
      {
        var flow := ids[i];
        RegisterMissingExtend(flows0, ids, i, defaultSliceId);
        PendingEdgesExtend(flows0, ids, i, slice, defaultSliceId);
        // operator[] inserts a default-constructed id for an unknown flow
        if flow !in flowToSlice {
          flowToSlice := flowToSlice[flow := defaultSliceId];
        }
        var sliceOut := flowToSlice[flow];
        assert sliceOut == SliceOf(flows0, flow, defaultSliceId);
        InsertFlow(sliceOut, slice);
        i := i + 1;
      }
      assert ids[..i] == ids;
    }
  }

  /** A client that needs nothing but the class's contracts: Begin on track 1,
      Step on track 2, a bound End on track 3 and one more Step on the closed
      flow give the two-edge chain and one step without start. */
  method ChainOnFreshTracker(defaultSliceId: SliceId, s1: SliceId, s2: SliceId, s3: SliceId, s4: SliceId)
    returns (table: seq<Edge>, stepsWithoutStart: nat, registered: bool)
    ensures table == [Edge(s1, s2), Edge(s2, s3)]
    ensures stepsWithoutStart == 1
    ensures !registered
  {
    var tracker := new FlowTracker(defaultSliceId, 0);
    tracker.Begin(map[1 := s1], 1, 100);
    tracker.Step(map[2 := s2], 2, 100);
    tracker.End(map[3 := s3], 3, 100, true);
    tracker.Step(map[4 := s4], 4, 100);
    table := tracker.flowTable;
    stepsWithoutStart := tracker.stats.stepWithoutStart;
    registered := 100 in tracker.flowToSlice;
  }
}
