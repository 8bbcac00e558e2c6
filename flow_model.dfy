/** The flow graph tracker of the trace processor, as values.

    This module holds the reference definition of every tracker operation
    as a function from the old tracker state to the new one.  The class in
    module FlowTracking updates the same state in place and is proved
    against these functions; module FlowProperties proves what a whole
    sequence of flow events does.
 */
module FlowModel {

  /** Opaque integer handles owned by other parts of the trace processor. */
  type TrackId = nat
  type SliceId = nat
  type FlowId = nat
  type StringId = nat

  datatype Option<T> = None | Some(value: T)

  /** One row of the flow table: a directed link between two slices. */
  datatype Edge = Edge(sliceOut: SliceId, sliceIn: SliceId)

  /** The identity of a legacy (v1) flow event. */
  datatype V1FlowId = V1FlowId(sourceId: nat, cat: StringId, name: StringId)

  /** The four diagnostic counters the tracker bumps. */
  datatype StatKind =
    | FlowNoEnclosingSlice
    | FlowDuplicateId
    | FlowStepWithoutStart
    | FlowEndWithoutStart

  datatype Stats = Stats(
    noEnclosingSlice: nat,
    duplicateId: nat,
    stepWithoutStart: nat,
    endWithoutStart: nat)
  {
    function Get(k: StatKind): nat
    {
      match k
      case FlowNoEnclosingSlice => noEnclosingSlice
      case FlowDuplicateId => duplicateId
      case FlowStepWithoutStart => stepWithoutStart
      case FlowEndWithoutStart => endWithoutStart
    }

    /** The storage's IncrementStats: one counter goes up by one. */
    function Increment(k: StatKind): (r: Stats)
      ensures r.Get(k) == Get(k) + 1
      ensures forall j :: j != k ==> r.Get(j) == Get(j)
    {
      match k
      case FlowNoEnclosingSlice => this.(noEnclosingSlice := noEnclosingSlice + 1)
      case FlowDuplicateId => this.(duplicateId := duplicateId + 1)
      case FlowStepWithoutStart => this.(stepWithoutStart := stepWithoutStart + 1)
      case FlowEndWithoutStart => this.(endWithoutStart := endWithoutStart + 1)
    }
  }

  const NoStats := Stats(0, 0, 0, 0)

  /** What the slice tracker knows at the moment of a call: the topmost open
      slice of every track that has one. */
  type SliceContext = map<TrackId, SliceId>

  /** The slice tracker's GetTopmostSliceOnTrack. */
  function Topmost(ctx: SliceContext, track: TrackId): Option<SliceId>
  {
    if track in ctx then Some(ctx[track]) else None
  }

  /** Everything the tracker owns, together with the two outputs it writes
      into storage (the flow table and the counters). */
  datatype TrackerState = TrackerState(
    flowToSlice: map<FlowId, SliceId>,
    pendingFlowIds: map<TrackId, seq<FlowId>>,
    v1FlowIds: map<V1FlowId, FlowId>,
    v1IdCounter: nat,
    flowTable: seq<Edge>,
    stats: Stats)

  /** A freshly constructed tracker over empty storage. */
  function Init(firstV1Id: FlowId): TrackerState
  {
    TrackerState(map[], map[], map[], firstV1Id, [], NoStats)
  }

  /** The legacy id memo hands out distinct ids, all below the counter. */
  ghost predicate V1Valid(s: TrackerState)
  {
    && (forall k :: k in s.v1FlowIds ==> s.v1FlowIds[k] < s.v1IdCounter)
    && (forall a, b :: a in s.v1FlowIds && b in s.v1FlowIds && a != b ==>
          s.v1FlowIds[a] != s.v1FlowIds[b])
  }

  function Begin(s: TrackerState, ctx: SliceContext, track: TrackId, flow: FlowId): TrackerState
  {
    match Topmost(ctx, track)
    case None => s.(stats := s.stats.Increment(FlowNoEnclosingSlice))
    case Some(open) =>
      if flow in s.flowToSlice then s.(stats := s.stats.Increment(FlowDuplicateId))
      else s.(flowToSlice := s.flowToSlice[flow := open])
  }

  function Step(s: TrackerState, ctx: SliceContext, track: TrackId, flow: FlowId): TrackerState
  {
    match Topmost(ctx, track)
    case None => s.(stats := s.stats.Increment(FlowNoEnclosingSlice))
    case Some(open) =>
      if flow !in s.flowToSlice then s.(stats := s.stats.Increment(FlowStepWithoutStart))
      else s.(flowTable := s.flowTable + [Edge(s.flowToSlice[flow], open)],
               flowToSlice := s.flowToSlice[flow := open])
  }

  /** The pending list of a track; an absent list reads as empty. */
  function PendingOf(pending: map<TrackId, seq<FlowId>>, track: TrackId): seq<FlowId>
  {
    if track in pending then pending[track] else []
  }

  function End(s: TrackerState, ctx: SliceContext, track: TrackId, flow: FlowId,
               bindEnclosingSlice: bool): TrackerState
  {
    if !bindEnclosingSlice then
      s.(pendingFlowIds := s.pendingFlowIds[track := PendingOf(s.pendingFlowIds, track) + [flow]])
    else
      match Topmost(ctx, track)
      case None => s.(stats := s.stats.Increment(FlowNoEnclosingSlice))
      case Some(open) =>
        if flow !in s.flowToSlice then s.(stats := s.stats.Increment(FlowEndWithoutStart))
        else s.(flowTable := s.flowTable + [Edge(s.flowToSlice[flow], open)],
                 flowToSlice := s.flowToSlice - {flow})
  }

  /** The slice that `operator[]` on the flow map yields for `flow`: the
      registered one, or the default-constructed id when there is none. */
  function SliceOf(m: map<FlowId, SliceId>, flow: FlowId, defaultSliceId: SliceId): SliceId
  {
    if flow in m then m[flow] else defaultSliceId
  }

  /** The flow map after `operator[]` has been applied to every id in `ids`,
      in order: registered flows keep their slice, the others get the
      default id. */
  function RegisterMissing(m: map<FlowId, SliceId>, ids: seq<FlowId>, defaultSliceId: SliceId)
    : (r: map<FlowId, SliceId>)
    ensures forall f :: f in r <==> f in m || f in ids
    ensures forall f :: f in m ==> r[f] == m[f]
    ensures forall f :: f in r && f !in m ==> r[f] == defaultSliceId
    decreases |ids|
  {
    if ids == [] then m
    else
      var registered := RegisterMissing(m, ids[..|ids| - 1], defaultSliceId);
      var last := ids[|ids| - 1];
      assert forall f :: f in ids <==> f in ids[..|ids| - 1] || f == last;
      if last in registered then registered else registered[last := defaultSliceId]
  }

  /** The edges that closing the pending list `ids` onto `slice` appends:
      one per entry, in list order, each ending at `slice`. */
  function PendingEdges(m: map<FlowId, SliceId>, ids: seq<FlowId>, slice: SliceId,
                        defaultSliceId: SliceId): (r: seq<Edge>)
    ensures |r| == |ids|
    decreases |ids|
  {
    if ids == [] then []
    else
      PendingEdges(m, ids[..|ids| - 1], slice, defaultSliceId)
        + [Edge(SliceOf(m, ids[|ids| - 1], defaultSliceId), slice)]
  }

  /** Entry `k` of the pending list yields edge `k`: from that flow's slice
      (or the default id) into `slice`. */
  lemma {:induction false} PendingEdgesAt(m: map<FlowId, SliceId>, ids: seq<FlowId>, slice: SliceId,
                                          defaultSliceId: SliceId, k: nat)
    requires k < |ids|
    ensures PendingEdges(m, ids, slice, defaultSliceId)[k] == Edge(SliceOf(m, ids[k], defaultSliceId), slice)
    decreases |ids|
  {
    if k < |ids| - 1 {
      PendingEdgesAt(m, ids[..|ids| - 1], slice, defaultSliceId, k);
    }
  }

  /** Applying `operator[]` to one more pending id. */
  lemma RegisterMissingExtend(m: map<FlowId, SliceId>, ids: seq<FlowId>, i: nat, defaultSliceId: SliceId)
    requires i < |ids|
    ensures var registered := RegisterMissing(m, ids[..i], defaultSliceId);
            RegisterMissing(m, ids[..i + 1], defaultSliceId)
              == if ids[i] in registered then registered else registered[ids[i] := defaultSliceId]
  {
  }

  /** Closing one more pending id appends exactly its edge. */
  lemma PendingEdgesExtend(m: map<FlowId, SliceId>, ids: seq<FlowId>, i: nat, slice: SliceId,
                           defaultSliceId: SliceId)
    requires i < |ids|
    ensures PendingEdges(m, ids[..i + 1], slice, defaultSliceId)
              == PendingEdges(m, ids[..i], slice, defaultSliceId)
                 + [Edge(SliceOf(m, ids[i], defaultSliceId), slice)]
  {
    assert ids[..i + 1][..i] == ids[..i];
  }

  function ClosePendingEventsOnTrack(s: TrackerState, track: TrackId, slice: SliceId,
                                     defaultSliceId: SliceId): TrackerState
  {
    if track !in s.pendingFlowIds then s
    else
      var ids := s.pendingFlowIds[track];
      s.(flowTable := s.flowTable + PendingEdges(s.flowToSlice, ids, slice, defaultSliceId),
         flowToSlice := RegisterMissing(s.flowToSlice, ids, defaultSliceId),
         pendingFlowIds := s.pendingFlowIds - {track})
  }

  /** The new state and the flow id for a legacy event. */
  function GetFlowIdForV1Event(s: TrackerState, key: V1FlowId): (TrackerState, FlowId)
  {
    if key in s.v1FlowIds then (s, s.v1FlowIds[key])
    else
      (s.(v1FlowIds := s.v1FlowIds[key := s.v1IdCounter], v1IdCounter := s.v1IdCounter + 1),
       s.v1IdCounter)
  }

  /** The calls the rest of the trace processor makes into the tracker.
      SliceOpened is the slice tracker opening `slice` on `track`, which
      closes that track's pending flows. */
  datatype Event =
    | BeginFlow(track: TrackId, flow: FlowId)
    | StepFlow(track: TrackId, flow: FlowId)
    | EndFlow(track: TrackId, flow: FlowId, bindEnclosingSlice: bool)
    | SliceOpened(track: TrackId, slice: SliceId)
    | V1Event(key: V1FlowId)

  /** An event together with what the slice tracker reports while it runs. */
  datatype Input = Input(ctx: SliceContext, event: Event)

  function Apply(s: TrackerState, input: Input, defaultSliceId: SliceId): TrackerState
  {
    match input.event
    case BeginFlow(track, flow) => Begin(s, input.ctx, track, flow)
    case StepFlow(track, flow) => Step(s, input.ctx, track, flow)
    case EndFlow(track, flow, bind) => End(s, input.ctx, track, flow, bind)
    case SliceOpened(track, slice) => ClosePendingEventsOnTrack(s, track, slice, defaultSliceId)
    case V1Event(key) => GetFlowIdForV1Event(s, key).0
  }

  /** The state after a whole stream of calls, in arrival order. */
  function Replay(s: TrackerState, inputs: seq<Input>, defaultSliceId: SliceId): TrackerState
    decreases |inputs|
  {
    if inputs == [] then s
    else Replay(Apply(s, inputs[0], defaultSliceId), inputs[1..], defaultSliceId)
  }
}
