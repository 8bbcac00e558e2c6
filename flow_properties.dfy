/** What streams of flow events do to the tracker: the flow table only
    grows, the legacy id memo only grows and keeps its ids distinct, every
    edge joins slices the slice tracker reported (or the default id), and
    short streams give their exact edges: a Begin / Step / bound End chain,
    a duplicate Begin, a Begin with no open slice, and a deferred End closed
    by the next slice on its track.
 */
module FlowProperties {
  import opened FlowModel

  // ---------------------------------------------------------------------
  // The flow table is append-only

  lemma ApplyAppendsOnly(s: TrackerState, input: Input, defaultSliceId: SliceId)
    ensures var r := Apply(s, input, defaultSliceId);
            |s.flowTable| <= |r.flowTable| && r.flowTable[..|s.flowTable|] == s.flowTable
  {
  }

  /** No sequence of calls ever removes or rewrites a row of the flow table. */
  lemma {:induction false} ReplayAppendsOnly(s: TrackerState, inputs: seq<Input>, defaultSliceId: SliceId)
    ensures var r := Replay(s, inputs, defaultSliceId);
            |s.flowTable| <= |r.flowTable| && r.flowTable[..|s.flowTable|] == s.flowTable
    decreases |inputs|
  {
    if inputs != [] {
      var next := Apply(s, inputs[0], defaultSliceId);
      ApplyAppendsOnly(s, inputs[0], defaultSliceId);
      ReplayAppendsOnly(next, inputs[1..], defaultSliceId);
      var r := Replay(next, inputs[1..], defaultSliceId);
      assert r.flowTable[..|s.flowTable|] == r.flowTable[..|next.flowTable|][..|s.flowTable|];
    }
  }

  // ---------------------------------------------------------------------
  // The legacy id memo

  /** `t`'s memo holds every triple of `s`'s with the same id, and its counter is not behind. */
  ghost predicate MemoExtends(s: TrackerState, t: TrackerState)
  {
    && s.v1FlowIds.Keys <= t.v1FlowIds.Keys
    && (forall k :: k in s.v1FlowIds ==> t.v1FlowIds[k] == s.v1FlowIds[k])
    && s.v1IdCounter <= t.v1IdCounter
  }

  lemma ApplyKeepsMemo(s: TrackerState, input: Input, defaultSliceId: SliceId)
    requires V1Valid(s)
    ensures V1Valid(Apply(s, input, defaultSliceId))
    ensures MemoExtends(s, Apply(s, input, defaultSliceId))
  {
    var r := Apply(s, input, defaultSliceId);
    if input.event.V1Event? {
      var key := input.event.key;
      assert r == GetFlowIdForV1Event(s, key).0;
    } else {
      assert r.v1FlowIds == s.v1FlowIds && r.v1IdCounter == s.v1IdCounter;
    }
  }

  /** Along any stream the memo only grows, an id once handed out for a
      triple never changes, and the ids stay distinct. */
  lemma {:induction false} ReplayKeepsMemo(s: TrackerState, inputs: seq<Input>, defaultSliceId: SliceId)
    requires V1Valid(s)
    ensures V1Valid(Replay(s, inputs, defaultSliceId))
    ensures MemoExtends(s, Replay(s, inputs, defaultSliceId))
    decreases |inputs|
  {
    if inputs != [] {
      var next := Apply(s, inputs[0], defaultSliceId);
      ApplyKeepsMemo(s, inputs[0], defaultSliceId);
      ReplayKeepsMemo(next, inputs[1..], defaultSliceId);
    }
  }

  /** The same triple looked up again gets the same id; a different triple
      gets a different one, and a triple never seen before gets an id larger
      than every id already handed out. */
  lemma V1IdsStableAndDistinct(s: TrackerState, a: V1FlowId, b: V1FlowId)
    requires V1Valid(s)
    requires a != b
    ensures var (s1, idA) := GetFlowIdForV1Event(s, a);
            var (s2, idB) := GetFlowIdForV1Event(s1, b);
            && idA != idB
            && GetFlowIdForV1Event(s2, a).1 == idA
            && GetFlowIdForV1Event(s2, a).0 == s2
            && (b !in s.v1FlowIds ==> forall k :: k in s1.v1FlowIds ==> s1.v1FlowIds[k] < idB)
  {
  }

  // ---------------------------------------------------------------------
  // Edges only join slices that were reported

  /** The slices the slice tracker hands to the tracker during one call. */
  function InputSlices(input: Input): set<SliceId>
  {
    match input.event
    case BeginFlow(track, _) => if track in input.ctx then {input.ctx[track]} else {}
    case StepFlow(track, _) => if track in input.ctx then {input.ctx[track]} else {}
    case EndFlow(track, _, _) => if track in input.ctx then {input.ctx[track]} else {}
    case SliceOpened(_, slice) => {slice}
    case V1Event(_) => {}
  }

  function StreamSlices(inputs: seq<Input>): set<SliceId>
    decreases |inputs|
  {
    if inputs == [] then {} else InputSlices(inputs[0]) + StreamSlices(inputs[1..])
  }

  /** Registrations and edge sources are reported slices or the default id;
      edge targets are reported slices. */
  ghost predicate Grounded(s: TrackerState, reported: set<SliceId>, defaultSliceId: SliceId)
  {
    && (forall f :: f in s.flowToSlice ==> s.flowToSlice[f] in reported + {defaultSliceId})
    && (forall i :: 0 <= i < |s.flowTable| ==>
          s.flowTable[i].sliceOut in reported + {defaultSliceId} && s.flowTable[i].sliceIn in reported)
  }

  lemma ClosePendingGrounded(s: TrackerState, track: TrackId, slice: SliceId,
                             reported: set<SliceId>, defaultSliceId: SliceId)
    requires Grounded(s, reported, defaultSliceId)
    requires slice in reported
    ensures Grounded(ClosePendingEventsOnTrack(s, track, slice, defaultSliceId), reported, defaultSliceId)
    ensures track in s.pendingFlowIds ==>
      var r := ClosePendingEventsOnTrack(s, track, slice, defaultSliceId);
      forall i :: |s.flowTable| <= i < |r.flowTable| ==>
        r.flowTable[i] == Edge(SliceOf(s.flowToSlice, s.pendingFlowIds[track][i - |s.flowTable|], defaultSliceId), slice)
  {
    if track in s.pendingFlowIds {
      var ids := s.pendingFlowIds[track];
      var r := ClosePendingEventsOnTrack(s, track, slice, defaultSliceId);
      var added := PendingEdges(s.flowToSlice, ids, slice, defaultSliceId);
      assert r.flowTable == s.flowTable + added;
      forall i | |s.flowTable| <= i < |r.flowTable|
        ensures r.flowTable[i] == Edge(SliceOf(s.flowToSlice, ids[i - |s.flowTable|], defaultSliceId), slice)
        ensures r.flowTable[i].sliceOut in reported + {defaultSliceId} && r.flowTable[i].sliceIn in reported
      {
        var k := i - |s.flowTable|;
        PendingEdgesAt(s.flowToSlice, ids, slice, defaultSliceId, k);
        assert r.flowTable[i] == added[k];
      }
    }
  }

  lemma ApplyGrounded(s: TrackerState, input: Input, reported: set<SliceId>, defaultSliceId: SliceId)
    requires Grounded(s, reported, defaultSliceId)
    requires InputSlices(input) <= reported
    ensures Grounded(Apply(s, input, defaultSliceId), reported, defaultSliceId)
  {
    match input.event
    case SliceOpened(track, slice) =>
      ClosePendingGrounded(s, track, slice, reported, defaultSliceId);
    case _ =>
  }

  lemma {:induction false} ReplayGrounded(s: TrackerState, inputs: seq<Input>,
                                          reported: set<SliceId>, defaultSliceId: SliceId)
    requires Grounded(s, reported, defaultSliceId)
    requires StreamSlices(inputs) <= reported
    ensures Grounded(Replay(s, inputs, defaultSliceId), reported, defaultSliceId)
    decreases |inputs|
  {
    if inputs != [] {
      ApplyGrounded(s, inputs[0], reported, defaultSliceId);
      ReplayGrounded(Apply(s, inputs[0], defaultSliceId), inputs[1..], reported, defaultSliceId);
    }
  }

  /** From a fresh tracker, every row of the flow table starts at a slice the
      slice tracker reported or at the default id, and ends at a reported slice. */
  lemma EdgesJoinReportedSlices(firstV1Id: FlowId, inputs: seq<Input>, defaultSliceId: SliceId)
    ensures var table := Replay(Init(firstV1Id), inputs, defaultSliceId).flowTable;
            forall i :: 0 <= i < |table| ==>
              && table[i].sliceOut in StreamSlices(inputs) + {defaultSliceId}
              && table[i].sliceIn in StreamSlices(inputs)
  {
    ReplayGrounded(Init(firstV1Id), inputs, StreamSlices(inputs), defaultSliceId);
  }

  // ---------------------------------------------------------------------
  // Scenarios

  /** Begin on T1 (slice S1), Step on T2 (S2), bound End on T3 (S3): the
      chain S1 -> S2 -> S3, and the flow is gone, so one more Step only
      counts a step without start. */
  lemma ChainOfEdges(s: TrackerState, defaultSliceId: SliceId, flow: FlowId,
                     t1: TrackId, c1: SliceContext, t2: TrackId, c2: SliceContext,
                     t3: TrackId, c3: SliceContext, t4: TrackId, c4: SliceContext)
    requires flow !in s.flowToSlice
    requires t1 in c1 && t2 in c2 && t3 in c3 && t4 in c4
    ensures var r := Replay(s, [Input(c1, BeginFlow(t1, flow)), Input(c2, StepFlow(t2, flow)),
                                Input(c3, EndFlow(t3, flow, true)), Input(c4, StepFlow(t4, flow))],
                            defaultSliceId);
            && r.flowTable == s.flowTable + [Edge(c1[t1], c2[t2]), Edge(c2[t2], c3[t3])]
            && r.flowToSlice == s.flowToSlice
            && r.stats == s.stats.Increment(FlowStepWithoutStart)
            && r.pendingFlowIds == s.pendingFlowIds
  {
    var i1, i2, i3, i4 := Input(c1, BeginFlow(t1, flow)), Input(c2, StepFlow(t2, flow)),
                          Input(c3, EndFlow(t3, flow, true)), Input(c4, StepFlow(t4, flow));
    var s1 := Apply(s, i1, defaultSliceId);
    var s2 := Apply(s1, i2, defaultSliceId);
    var s3 := Apply(s2, i3, defaultSliceId);
    var s4 := Apply(s3, i4, defaultSliceId);
    assert s1.flowToSlice == s.flowToSlice[flow := c1[t1]];
    assert s2.flowTable == s.flowTable + [Edge(c1[t1], c2[t2])];
    assert s3.flowTable == s.flowTable + [Edge(c1[t1], c2[t2]), Edge(c2[t2], c3[t3])];
    assert s3.flowToSlice == s.flowToSlice;
    assert Replay(s3, [i4], defaultSliceId) == s4;
    assert Replay(s2, [i3, i4], defaultSliceId) == Replay(s3, [i4], defaultSliceId);
    assert Replay(s1, [i2, i3, i4], defaultSliceId) == Replay(s2, [i3, i4], defaultSliceId);
    assert Replay(s, [i1, i2, i3, i4], defaultSliceId) == Replay(s1, [i2, i3, i4], defaultSliceId);
  }

  /** A second Begin of a registered flow is counted as a duplicate and the
      first registration wins: the next Step starts at the first slice. */
  lemma DuplicateBeginKeepsFirst(s: TrackerState, defaultSliceId: SliceId, flow: FlowId,
                                 t1: TrackId, c1: SliceContext, t2: TrackId, c2: SliceContext,
                                 t3: TrackId, c3: SliceContext)
    requires flow !in s.flowToSlice
    requires t1 in c1 && t2 in c2 && t3 in c3
    ensures var r := Replay(s, [Input(c1, BeginFlow(t1, flow)), Input(c2, BeginFlow(t2, flow)),
                                Input(c3, StepFlow(t3, flow))], defaultSliceId);
            && r.flowTable == s.flowTable + [Edge(c1[t1], c3[t3])]
            && r.flowToSlice == s.flowToSlice[flow := c3[t3]]
            && r.stats == s.stats.Increment(FlowDuplicateId)
  {
    var i1, i2, i3 := Input(c1, BeginFlow(t1, flow)), Input(c2, BeginFlow(t2, flow)), Input(c3, StepFlow(t3, flow));
    var s1 := Apply(s, i1, defaultSliceId);
    var s2 := Apply(s1, i2, defaultSliceId);
    var s3 := Apply(s2, i3, defaultSliceId);
    assert s2.flowToSlice == s.flowToSlice[flow := c1[t1]];
    assert Replay(s2, [i3], defaultSliceId) == s3;
    assert Replay(s1, [i2, i3], defaultSliceId) == Replay(s2, [i3], defaultSliceId);
    assert Replay(s, [i1, i2, i3], defaultSliceId) == Replay(s1, [i2, i3], defaultSliceId);
  }

  /** Begin on a track with no open slice registers nothing, so a later Step
      on the flow is a step without start; no edge is recorded. */
  lemma BeginWithoutSliceRegistersNothing(s: TrackerState, defaultSliceId: SliceId, flow: FlowId,
                                          t1: TrackId, c1: SliceContext, t2: TrackId, c2: SliceContext)
    requires flow !in s.flowToSlice
    requires t1 !in c1 && t2 in c2
    ensures var r := Replay(s, [Input(c1, BeginFlow(t1, flow)), Input(c2, StepFlow(t2, flow))], defaultSliceId);
            && r.flowTable == s.flowTable
            && r.flowToSlice == s.flowToSlice
            && r.stats == s.stats.Increment(FlowNoEnclosingSlice).Increment(FlowStepWithoutStart)
  {
    var i1, i2 := Input(c1, BeginFlow(t1, flow)), Input(c2, StepFlow(t2, flow));
    var s1 := Apply(s, i1, defaultSliceId);
    assert Replay(s1, [i2], defaultSliceId) == Apply(s1, i2, defaultSliceId);
    assert Replay(s, [i1, i2], defaultSliceId) == Replay(s1, [i2], defaultSliceId);
  }

  /** A deferred End followed by a slice opening on its track: one edge from
      the flow's slice into the new slice, the flow stays registered, and the
      track's pending list is gone. */
  lemma DeferredEnd(s: TrackerState, defaultSliceId: SliceId, flow: FlowId,
                    t1: TrackId, c1: SliceContext, track: TrackId, c2: SliceContext,
                    c3: SliceContext, slice: SliceId)
    requires flow !in s.flowToSlice && track !in s.pendingFlowIds
    requires t1 in c1
    ensures var r := Replay(s, [Input(c1, BeginFlow(t1, flow)), Input(c2, EndFlow(track, flow, false)),
                                Input(c3, SliceOpened(track, slice))], defaultSliceId);
            && r.flowTable == s.flowTable + [Edge(c1[t1], slice)]
            && r.flowToSlice == s.flowToSlice[flow := c1[t1]]
            && r.pendingFlowIds == s.pendingFlowIds
            && r.stats == s.stats
  {
    var i1, i2, i3 := Input(c1, BeginFlow(t1, flow)), Input(c2, EndFlow(track, flow, false)),
                      Input(c3, SliceOpened(track, slice));
    var s1 := Apply(s, i1, defaultSliceId);
    var s2 := Apply(s1, i2, defaultSliceId);
    var s3 := Apply(s2, i3, defaultSliceId);
    assert s2.pendingFlowIds == s.pendingFlowIds[track := [flow]];
    assert PendingEdges(s1.flowToSlice, [flow], slice, defaultSliceId) == [Edge(c1[t1], slice)] by {
      assert [flow][..0] == [];
    }
    assert s3.flowToSlice == s1.flowToSlice by {
      assert [flow][..0] == [];
    }
    assert s3.pendingFlowIds == s.pendingFlowIds;
    assert Replay(s2, [i3], defaultSliceId) == s3;
    assert Replay(s1, [i2, i3], defaultSliceId) == Replay(s2, [i3], defaultSliceId);
    assert Replay(s, [i1, i2, i3], defaultSliceId) == Replay(s1, [i2, i3], defaultSliceId);
  }

  /** A deferred End of a flow that was never begun: closing the track emits
      an edge from the default slice id, counts nothing, and registers the
      flow at the default id, so a later Step succeeds from there. */
  lemma PendingWithoutStartUsesDefault(s: TrackerState, defaultSliceId: SliceId, flow: FlowId,
                                       track: TrackId, c1: SliceContext, c2: SliceContext, slice: SliceId,
                                       t3: TrackId, c3: SliceContext)
    requires flow !in s.flowToSlice && track !in s.pendingFlowIds
    requires t3 in c3
    ensures var r := Replay(s, [Input(c1, EndFlow(track, flow, false)), Input(c2, SliceOpened(track, slice)),
                                Input(c3, StepFlow(t3, flow))], defaultSliceId);
            && r.flowTable == s.flowTable + [Edge(defaultSliceId, slice), Edge(defaultSliceId, c3[t3])]
            && r.flowToSlice == s.flowToSlice[flow := c3[t3]]
            && r.stats == s.stats
  {
    var i1, i2, i3 := Input(c1, EndFlow(track, flow, false)), Input(c2, SliceOpened(track, slice)),
                      Input(c3, StepFlow(t3, flow));
    var s1 := Apply(s, i1, defaultSliceId);
    var s2 := Apply(s1, i2, defaultSliceId);
    var s3 := Apply(s2, i3, defaultSliceId);
    assert s1.pendingFlowIds[track] == [flow];
    assert [flow][..0] == [];
    assert s2.flowToSlice == s.flowToSlice[flow := defaultSliceId];
    assert s2.flowTable == s.flowTable + [Edge(defaultSliceId, slice)];
    assert Replay(s2, [i3], defaultSliceId) == s3;
    assert Replay(s1, [i2, i3], defaultSliceId) == Replay(s2, [i3], defaultSliceId);
    assert Replay(s, [i1, i2, i3], defaultSliceId) == Replay(s1, [i2, i3], defaultSliceId);
  }
}
