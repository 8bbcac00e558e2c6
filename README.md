# Flow graph tracker — a verified Dafny model

This project models the flow tracker of the trace processor's importers
(`src/trace_processor/importers/common/flow_tracker.cc`). The tracker links
slices (spans of work on a track) with directed edges. It is driven by three
kinds of flow event:

- **Begin** registers a flow at the slice that is currently topmost on the event's track.
- **Step** appends an edge from the flow's registered slice to the current topmost slice, then moves the registration there.
- **End**, when bound to its enclosing slice, appends the last edge and drops the registration.
- An unbound **End** is queued on its track. The edge is made later, when the slice tracker opens the next slice there and calls `ClosePendingEventsOnTrack`.

Legacy (v1) events have no numeric flow id. They are given one by
`GetFlowIdForV1Event`, which memoizes a (source id, category, name) triple and
hands out ids from a counter.

Every operation is total. A missing enclosing slice, a duplicate Begin, or a
Step or bound End of an unknown flow bumps one of four diagnostic counters and
records no edge.

The project has three modules:

- `FlowModel` (`flow_model.dfy`) holds the tracker state as a datatype. Each
  operation is a function from the old state to the new one, and these
  functions are the reference definition. The two pieces of the pending-list
  loop are `PendingEdges` (the edges it appends) and `RegisterMissing` (what
  `operator[]` leaves in the flow map).
- `FlowTracking` (`flow_tracker.dfy`) holds the class `FlowTracker`. Its fields
  are the four members the original updates in place, plus the flow table and
  the counters it writes to storage. Every operation of the original has
  `modifies this`, states its whole new state case by case, and says that
  this state is the matching `FlowModel` function applied to the old state.
  The two helpers, `InsertFlow` and `InsertPendingFlows`, have narrower frames
  (the fields they write) and are stated directly in terms of the flow table
  and the flow map.
- `FlowProperties` (`flow_properties.dfy`) proves what whole streams of calls
  do. Streams are replayed with `FlowModel.Replay`.

Collaborators outside the tracker are inputs:

- **Slice tracker.** Its `GetTopmostSliceOnTrack` is a `SliceContext`: a map
  from each track that has an open slice to its topmost slice. The caller
  passes one with each call.
- **Storage.** Its flow table is a `seq<Edge>` that only grows. Its counters
  are the four fields of `Stats`.
- **Default slice id.** A default-constructed `SliceId` is a constructor
  parameter, `defaultSliceId`.
- **First legacy id.** The counter's starting value is also a constructor
  parameter, `firstV1Id`. Both values are set in headers that are not part of
  this model.

Legacy ids are taken to start at 0, which is what the client method
`ChainOnFreshTracker` passes.

One behaviour of the code is kept on purpose. For every pending flow,
`ClosePendingEventsOnTrack` reads the flow map with `operator[]`: the loop
never checks that a pending flow is registered. The model keeps this:

- A pending flow that was never begun gets an edge from the default slice id.
- That flow is then registered at the default slice id.
- No counter changes.
- A later Step on that flow therefore succeeds instead of counting a step
  without start. `PendingWithoutStartUsesDefault` proves this whole sequence.

## Model

| member | source | states |
|---|---|---|
| `FlowModel.Stats.Increment` | src/trace_processor/importers/common/flow_tracker.cc:42-48 | bumping a counter raises exactly that counter by one and leaves the other three alone |
| `FlowModel.RegisterMissing` | src/trace_processor/importers/common/flow_tracker.cc:109-110 | after `operator[]` on every pending id, the map's keys are the old keys plus the pending ids; registered flows keep their slice; every newly inserted flow holds the default slice id |
| `FlowModel.PendingEdges` | src/trace_processor/importers/common/flow_tracker.cc:109-112 | closing a pending list appends exactly one edge per list entry, duplicates included |
| `FlowModel.PendingEdgesAt` | src/trace_processor/importers/common/flow_tracker.cc:109-112 | edge k of the close comes from entry k of the list, in list order: it starts at that flow's registered slice (or the default id) and ends at the newly opened slice |
| `FlowModel.RegisterMissingExtend` | src/trace_processor/importers/common/flow_tracker.cc:110 | one loop iteration's `operator[]` inserts the default id only when the flow is not yet in the map |
| `FlowModel.PendingEdgesExtend` | src/trace_processor/importers/common/flow_tracker.cc:111 | one loop iteration appends exactly the edge of its own entry |
| `FlowTracking.FlowTracker.constructor` | src/trace_processor/importers/common/flow_tracker.cc:29 | a new tracker has no registrations, no pending lists, an empty memo, an empty flow table, zero counters, and its memo invariant holds |
| `FlowTracking.FlowTracker.InsertFlow` | src/trace_processor/importers/common/flow_tracker.cc:117-120 | appends the row (slice_out, slice_in) to the flow table and changes nothing else |
| `FlowTracking.FlowTracker.Begin` | src/trace_processor/importers/common/flow_tracker.cc:39-51 | with no open slice, only the no-enclosing-slice counter changes, and this test comes before the duplicate test; a registered flow only bumps the duplicate counter and keeps its first slice; otherwise the flow is mapped to the topmost slice; never an edge, never a pending or memo change |
| `FlowTracking.FlowTracker.Step` | src/trace_processor/importers/common/flow_tracker.cc:53-67 | with no open slice, or with an unregistered flow, only the matching counter changes; otherwise exactly one edge (registered slice, topmost slice) is appended and the flow is re-mapped to the topmost slice, while other flows' registrations stay the same |
| `FlowTracking.FlowTracker.End` | src/trace_processor/importers/common/flow_tracker.cc:69-90 | unbound: the flow is appended to the track's pending list, creating the list if needed and keeping duplicates; nothing else changes and the slice tracker is not used; bound: a missing slice or an unregistered flow only bumps its counter; otherwise one edge (registered slice, topmost slice) is appended and the registration is erased |
| `FlowTracking.FlowTracker.GetFlowIdForV1Event` | src/trace_processor/importers/common/flow_tracker.cc:92-101 | a known triple returns its memoized id and changes nothing; a new triple gets the counter value, which no triple held before; it is memoized and the counter goes up by one; the memo invariant holds afterwards |
| `FlowTracking.FlowTracker.ClosePendingEventsOnTrack` | src/trace_processor/importers/common/flow_tracker.cc:103-115 | no pending list: nothing changes; otherwise one edge per pending entry is appended, in order, each ending at the new slice; registered flows keep their slice; unregistered ones get the default id; that track's list is removed and other tracks' lists stay the same; no counter changes |
| `FlowTracking.FlowTracker.InsertPendingFlows` | src/trace_processor/importers/common/flow_tracker.cc:109-112 | the loop over the pending list: the flow table grows by exactly the close's edges and the flow map becomes the `operator[]`-extended map |
| `FlowTracking.ChainOnFreshTracker` | src/trace_processor/importers/common/flow_tracker.cc:53-90 | on a fresh tracker, Begin, Step, bound End and one more Step give the table [(S1,S2), (S2,S3)], one step without start, and the flow left unregistered |
| `FlowProperties.ApplyAppendsOnly` | src/trace_processor/importers/common/flow_tracker.cc:117-120 | no single call removes or rewrites a row of the flow table |
| `FlowProperties.ReplayAppendsOnly` | src/trace_processor/importers/common/flow_tracker.cc:117-120 | after any stream of calls, the old flow table is a prefix of the new one |
| `FlowProperties.ApplyKeepsMemo` | src/trace_processor/importers/common/flow_tracker.cc:92-101 | no single call loses a memoized triple or changes its id, and the memo stays injective and below the counter |
| `FlowProperties.ReplayKeepsMemo` | src/trace_processor/importers/common/flow_tracker.cc:92-101 | along any stream, the memo only grows, memoized ids never change, the counter never goes down, and distinct triples keep distinct ids |
| `FlowProperties.V1IdsStableAndDistinct` | src/trace_processor/importers/common/flow_tracker.cc:92-101 | looking up the same triple again returns the same id and changes nothing; two distinct triples get distinct ids; a new triple's id is larger than every id handed out before |
| `FlowProperties.ClosePendingGrounded` | src/trace_processor/importers/common/flow_tracker.cc:103-115 | new edge i of the close starts at the slice `operator[]` reads for pending entry i (the registered slice, or the default id) and ends at the opened slice; when the opened slice is reported, every registration and edge stays within the reported slices plus the default id |
| `FlowProperties.ApplyGrounded` | src/trace_processor/importers/common/flow_tracker.cc:39-115 | no call creates a registration or an edge whose slices were not reported by the slice tracker, apart from the default id |
| `FlowProperties.ReplayGrounded` | src/trace_processor/importers/common/flow_tracker.cc:39-115 | the same holds along any stream of calls |
| `FlowProperties.EdgesJoinReportedSlices` | src/trace_processor/importers/common/flow_tracker.cc:39-120 | from a fresh tracker, every edge ends at a slice the slice tracker reported, and starts at such a slice or at the default id |
| `FlowProperties.ChainOfEdges` | src/trace_processor/importers/common/flow_tracker.cc:39-90 | Begin (S1), Step (S2) and bound End (S3) append exactly (S1,S2) and (S2,S3); the flow is erased, so a further Step counts a step without start and adds no edge |
| `FlowProperties.DuplicateBeginKeepsFirst` | src/trace_processor/importers/common/flow_tracker.cc:39-67 | a second Begin of the same flow counts a duplicate; the next Step's edge starts at the first Begin's slice |
| `FlowProperties.BeginWithoutSliceRegistersNothing` | src/trace_processor/importers/common/flow_tracker.cc:39-63 | a Begin with no open slice counts no-enclosing-slice and registers nothing, so a later Step counts a step without start and adds no edge |
| `FlowProperties.DeferredEnd` | src/trace_processor/importers/common/flow_tracker.cc:69-115 | an unbound End followed by a slice opening on its track appends one edge (registered slice, new slice); the flow stays registered; the track's pending list is gone; no counter changes |
| `FlowProperties.PendingWithoutStartUsesDefault` | src/trace_processor/importers/common/flow_tracker.cc:53-115 | a pending flow that was never begun gets an edge from the default id and is registered there, so a later Step succeeds from the default id; no counter changes |

## Left out

- `src/trace_processor/util/proto_to_args_parser.h` (the generic proto argument parser) is not part of this model. Only its header is available. The parsing, the field walk, the override calls and the key-path handling live in a `.cc` file that is not part of this model, and that code also depends on protozero decoding, the descriptor pool and interned message views.
- The slice tracker's internals are left out. `GetTopmostSliceOnTrack` is a `SliceContext` map that the caller passes with each call, and the slice tracker's call into `ClosePendingEventsOnTrack` is the `SliceOpened` event.
- Storage is two fields of the tracker: the flow table, as a sequence of `(slice_out, slice_in)` edges, and the four named counters. Table row layout, the other storage tables and the other counters are not modelled.
- The widths of `FlowId`, `SliceId`, `TrackId`, `StringId` and the v1 source id are declared in headers that are not part of this model. All of them are unbounded naturals here.
- FlowTracking.FlowTracker.GetFlowIdForV1Event: the model does not capture `v1_id_counter_` wrapping around at its integer width, because that width is declared in an unseen header. Ids are proved distinct for an unbounded counter; a fixed-width counter would repeat ids only after 2^width allocations.
- The default value of `SliceId` and the counter's first value are constructor parameters (`defaultSliceId`, `firstV1Id`), because they are fixed in headers that are not part of this model.
- Flow events that arrive after their enclosing slice has already closed (the TODO at lines 33-38) are not handled by the code, and the model does not handle them either.
- Hashing of the v1 triple and the internals of the C++ hash maps are left out. The model uses Dafny `map`s.
- The TODO at line 88 (not erasing version-2 flows) describes a change that was never made. The model erases the flow, as the code does.
- The loop at lines 109-112 is its own method, `InsertPendingFlows`, so that its proof stays small. `ClosePendingEventsOnTrack` calls it and then erases the list, in the same order as the code.
