# Verified model of the Perfetto trace layer

The crate turns concurrent `tracing` callbacks into one Perfetto protobuf byte stream.
This project models its four state machines and proves what they promise.

* **Wire format.** A message builder with minimal, ten-byte and four-byte varints and
  lengths back-filled in place; and the repository's own parser. (`Varints`, `Wire`,
  `WireTrees`, `ProtoBuffers`, `PbReader`)
* **Packet sequences.** Each thread's encoder interns strings and locations, keeps
  delta timestamps and re-uses one scratch buffer with a cached packet prefix; a strict,
  stateful reader, with dictionaries, a clock and the sequence's defaults, replays the
  packets. (`Interning`, `Events`, `InternedData`, `PacketFormats`, `Packets`, `Sequences`,
  `Fidelity`, `Callbacks`, `Witnesses`, `EventWriters`, `SequenceStates`, `SequenceWriters`)
* **Output.** Producers push whole packets into bounded queues; overflow, thread exit and
  flush drain them under a consumer lock and then the writer lock, and write errors are
  recorded afterwards. (`Output`, `OutputSafety`, `OutputErrors`, `OutputFlush`,
  `OutputRuns`; `EndToEnd` joins it to the sequences)
* **Tracks.** Lifetime-track uuids are recycled through live spans, an eight-slot cache
  per thread and four-element shared pools. (`TrackMachine`, `TrackOwnership`,
  `TrackShapes`, `TrackPools`, `TrackKeys`, `TrackTree`, `TrackSlices`, `TrackHistories`,
  `TrackExits`, `TrackRecycling`, `TrackWitnesses`; `ThreadContexts` has the same code as
  classes over arrays)
* **Retained boxes.** A span's fields, waiting flows and poll flow live in a box that is
  taken from a thread's context, handed from span to span, kept, dropped or freed with its
  thread. (`RetainedBoxes`; `Visitors` and `ThreadContexts` have the code)
* **Span store, fields, counters, flows, ids.** (`ActiveSlots`, `SpanStores`, `Visitors`,
  `EventVisitors`, `Counters`, `Flows`, `FlowEdges`, `FlowCalls`, `Ids`)

Code that updates objects in place is a class whose methods are proved against
functions. Protocols are state machines: a state, labels that choose the actor and what
the environment decides, and `Run`, which interleaves any number of atomic steps. All
results about them hold in every state that some run from the initial state reaches.

## Assumptions

* The registry hands out nonzero span ids that are unique while live (`NewSpan`,
  `BeginInsert`). Where a result says so: a parent outlives its children, exits precede
  close, the clock never steps back.
* A ring-buffer push is all or nothing; atomics are sequentially consistent; a mutex, a
  concurrent map's entry and a bounded queue are atomic.
* A static string is determined by its address and length; addresses are neither null
  nor the very last one; lengths fit a 64-bit integer.
* A write of the sink either succeeds or writes a strict prefix and fails. Text produced
  by user formatting is arbitrary bytes; a context that cannot be acquired is an input.
* A uuid or flow in the track and flow machines is its position in allocation order;
  `Ids.IdsAreFresh` says that different positions are different ids until 2^64 - 1 have
  been handed out.

## Found

* `flush` is documented to surface the first write error (`src/lib.rs:200-206`). The
  error is recorded after the locks are released (`src/runtime.rs:265-269`), so a flush
  that runs in between succeeds although a packet handed over before it began is lost:
  `OutputFlush.FlushCanMissAFailure` is such a run. When the flush finds the flag unset,
  a packet it should have settled can be missing only if some other actor holds a failure
  it has not flagged yet; if none does, all are in the sink (`OutputFlush.FlushSucceeds`).
* Names are interned by address alone (`src/sequence.rs:47`). Replayed names are the
  written ones if and only if equal addresses always came with equal text
  (`Fidelity.NamesAreExact`); a string and its prefix share an address, and
  `Witnesses.PrefixSharesAddress` is a run that is replayed with the wrong name.
* Delta timestamps saturate, so after a backward clock step decoded times run ahead by
  exactly the sum of the steps (`Fidelity.DecodedRunsAhead`); they are exact if and only
  if the clock never steps back (`Fidelity.TimesAreExact`). `Witnesses.ClockStepsBack` has
  the runs in which it does.
* A close without a context skips the slice's end but still recycles the track
  (`src/subscriber.rs:415-446`): `TrackSlices.SlicesBalance` counts what is missed, and
  `TrackWitnesses.EndCanBeMissed` is a run that pools a track with an open slice.
* Flows still waiting at a close are written if and only if the span has a lifetime track
  and the callback a context (`FlowCalls.CloseIsExact`), so an endpoint is delivered, once,
  if and only if an earlier boundary wrote it or that guard held
  (`FlowEdges.DeliveredExactly`); `FlowEdges.EndpointCanBeLost` is a run that loses one.
* A counter above 2^63 - 1 is written as a negative number (`EventVisitors.SamplesKeepValues`),
  and a sequence id may be zero (`Ids.SequenceIds`).

## Model

| member | source | states |
|---|---|---|
| Varints.MinimalRoundTrip | src/proto.rs:22-32 | every u64's minimal varint is decoded back by the repository's reader, which consumes exactly its bytes |
| Varints.RedundantRoundTrip | src/proto.rs:42-52 | so is the padded form of any width up to ten that can hold the value |
| Varints.EncodingsAgree | src/proto.rs:22-52 | the minimal and the ten-byte form of a value decode to the same value |
| Varints.MinimalIsShortest | src/proto.rs:22-32 | whatever bytes the reader decodes to a u64, lost top bits included, are no fewer than the minimal varint of that u64 |
| Wire.ParseRoundTrip | tests/integration.rs:29-59 | any list of fields within the length limit, written and then parsed by the repository's parser, comes back field by field |
| Wire.ParseWritten | tests/integration.rs:29-59 | one written field is parsed off the front of any bytes, leaving the rest |
| Wire.LittleEndianRoundTrip | src/proto.rs:148-152 | a fixed64's eight little-endian bytes hold its value |
| WireTrees.TreeRoundTrip | src/proto.rs:194-220 | a whole tree of nested messages is recovered by parsing payloads recursively where the schema says message |
| WireTrees.EncodingIsInjective | src/proto.rs:194-220 | two trees of one schema with equal bytes have equal meaning |
| ProtoBuffers.ProtoBuffer.WriteVarint | src/proto.rs:22-32 | the shifting loop appends exactly the minimal varint |
| ProtoBuffers.ProtoBuffer.WriteRedundantVarint | src/proto.rs:42-52 | the loop overwrites only its slot, and refuses exactly the values above 2^28 - 1 |
| ProtoBuffers.ProtoBuffer.RedundantVarintField | src/proto.rs:129-144 | the ten explicit shifts are the ten-byte padded varint |
| ProtoBuffers.ProtoBuffer.FinishMessage | src/proto.rs:214-220 | back-filling a length changes no byte outside its four-byte slot |
| ProtoBuffers.ProtoBuffer.FmtField | src/proto.rs:179-191 | formatted text streamed between begin and finish is the framed field |
| ProtoBuffers.ProtoBuffer.WriteMessage | src/proto.rs:203-220 | begin, fields and finish append the abstract encoding of the message, and fail exactly when some nested payload is too long |
| ProtoBuffers.ProtoBuffer.WriteFields | src/proto.rs:194-220 | the same for a list of fields of any nesting |
| ProtoBuffers.MessageCloses | src/proto.rs:203-220 | an open message holding its fields becomes the encoded message once its slot is filled |
| ProtoBuffers.TenBytesArePadded | src/proto.rs:129-144 | the ten shifted bytes are the padded form |
| PbReader.ReadVarint | tests/integration.rs:115-126 | the reader's shifting loop computes the abstract decoder on all byte strings, errors included |
| PbReader.ParseMessage | tests/integration.rs:29-59 | so does the whole parsing loop |
| Interning.Interner.Intern | src/sequence.rs:46-71 | the one-entry cache and the map together are one lookup-or-allocate on an abstract table, whatever was interned before |
| Interning.IidsFit | src/sequence.rs:63-71 | iids never overflow: there are fewer addresses than u64 values |
| Interning.NewIidIsFresh | src/sequence.rs:63-71 | a new iid belongs to no other key, is held back for no other key, and a counted one lies above all reserved ones |
| Interning.ReferKeepsInStep | src/sequence.rs:46-71 | definitions read so far, then those pending, stay exactly the table's, with no iid defined twice |
| Events.EventReads | src/subscriber.rs:138-155 | an event's fields read back as its items, each iid resolving to the payload its key was first used with |
| Events.LevelReads | src/subscriber.rs:107-121 | a level reads as an annotation "level" that holds TRACE, DEBUG, INFO, WARN or ERROR |
| Events.LowerAllKeeps | src/subscriber.rs:89-125 | interning an event's strings keeps every space in step and disturbs no earlier definition |
| InternedData.PendingReads | src/sequence.rs:188-224 | the interned-data message, read strictly, adds exactly the pending definitions of all five spaces |
| InternedData.CaughtIsDefined | src/sequence.rs:174-224 | after it nothing is pending and the dictionaries are exactly the tables |
| Packets.PacketReads | src/sequence.rs:329-368 | an agreeing reader accepts the next packet, recovers its content, its event's track and its time on the sequence's own clock, and agrees again |
| Packets.FirstPacketReads | src/sequence.rs:386-408 | the first packet brings any reader, whatever it held, into agreement: dictionaries, clock, default clock and default track; and its timestamp, clock id and snapshot are recovered |
| PacketFormats.DescriptorReads | src/emit.rs:159-187 | track descriptors are recovered: uuid, name, parent and kind, a process's id, arguments and name, a thread's ids and name |
| PacketFormats.SnapshotReads | src/sequence.rs:431-471 | a clock snapshot is recovered: the primary clock, the sequence's own clock at its offset from the anchor and alone marked incremental, then the others |
| PacketFormats.DefaultsRead | src/sequence.rs:400-407 | the sequence's defaults are recovered: its own clock, and its thread's track |
| Sequences.RunReplays | src/sequence.rs:276-291 | over any run, of any length, the reader accepts every packet, every iid is defined once and before use, and each event says what was asked |
| Sequences.RunIsOrdered | src/sequence.rs:321-326 | exactly the first packet of a sequence initializes it |
| Callbacks.CallbacksAreComplete | src/sequence.rs:321-326 | over any run, a callback's packets are all it asked for, in its order and at its one clock value, behind the opening packets if and only if it is the first to write anything |
| Callbacks.OwnTrackIsDescribed | src/sequence.rs:424-429 | if callbacks set up as `initialize` does, every event of a sequence comes after the descriptor of that sequence's own thread track |
| Fidelity.NamesAreExact | src/sequence.rs:46-60 | what is replayed is exactly what was said, every string and location of every packet, if and only if equal addresses came with equal text |
| Fidelity.EventsAreOnTheirTracks | tests/integration.rs:236-256 | over any run, each event is replayed on the track it names, or, if it names none, on its sequence's thread track |
| Witnesses.SameAddressSameName | src/sequence.rs:46-60 | any two callbacks that use two short texts at one address: the run fits, is replayed without error, and the second event comes back under the first one's name |
| Witnesses.PrefixSharesAddress | src/sequence.rs:46-60 | a concrete such run, a string and its prefix: what is replayed is not what was said |
| Fidelity.DecodedRunsAhead | src/sequence.rs:350-352 | with a clock that starts at or after the anchor, the replayed times of any run of callbacks never decrease and exceed the true ones by exactly the sum of backward steps |
| Witnesses.ClockStepsBack | src/sequence.rs:350-352 | two callbacks, the second with an earlier clock value than the first: it is replayed at the first one's time |
| Fidelity.TimesAreExact | src/sequence.rs:350-352 | decoded times are exact at every packet if and only if the clock never steps back |
| Fidelity.OneCallbackOneTime | src/sequence.rs:411-420 | all packets of one callback of a run are replayed at one time, but for the very first packet, which has none |
| EventWriters.TrackEventWriter.Write | src/emit.rs:18-157 | each writer method appends exactly its item's fields |
| EventWriters.TrackEventWriter.WriteCounterI64 | src/emit.rs:132-137 | a counter appends its uuid and its value, one of each |
| SequenceStates.BitsAreIndependent | src/sequence.rs:230-248 | the seen-levels byte is a set: testing or setting one level never touches another |
| SequenceStates.SequenceState.InternSourceLocation | src/sequence.rs:160-172 | a callsite's location is allocated once and found again |
| SequenceStates.SequenceState.ReferLevel | src/subscriber.rs:107-121 | level name and value take their reserved iids and are defined on first use only |
| SequenceStates.SequenceState.OpenPacket | src/sequence.rs:329-382 | cutting back to the cached prefix and writing it afresh leave the same packet header |
| SequenceStates.SequenceState.EmitInternedData | src/sequence.rs:174-224 | the five pending lists become the abstract interned data and are cleared |
| SequenceStates.SequenceState.FinishPacket | src/sequence.rs:276-291 | dropping a packet completes it and leaves the cached prefix usable |
| SequenceStates.SequenceState.Packet | src/sequence.rs:329-382 | one packet through the reused buffer is byte for byte the freshly encoded one, and the state moves as the abstract one |
| SequenceStates.SequenceState.FirstPacket | src/sequence.rs:385-471 | the first packet is the abstract one and starts the sequence |
| SequenceStates.HoldsFinishes | src/proto.rs:214-220 | filling in the root length gives the encoded packet, whatever stale length the slot held |
| SequenceStates.CachedSurvives | src/sequence.rs:333-341 | finishing a packet does not spoil the prefix for the next |
| SequenceWriters.SequenceWriter.WriteAll | src/sequence.rs:329-382 | over any run of packets, prefix reuse refines the encoder that writes every packet afresh, and fails exactly when some packet is too long |
| SequenceWriters.RemainsStep | src/sequence.rs:329-382 | what is written and what the rest of the run will add always make the whole run |
| OutputSafety.StepKeeps | src/runtime.rs:236-270 | every atomic step of every actor keeps locks, queues, hands, chunks, shares and sink consistent |
| OutputSafety.RunIsSafe | src/runtime.rs:236-306 | so does every interleaving |
| OutputSafety.DrainMoves | src/runtime.rs:236-270 | a drain's step keeps its buffer's packets, fated, queued and in hand, exactly those produced, in order |
| OutputSafety.TrailingKept | src/sequence.rs:281-288 | while an overflowing packet is on its way nothing is queued behind it |
| OutputFlush.LosslessOrderedUnsplit | src/runtime.rs:236-270 | in every reachable state a thread's settled, queued and held packets are what it produced in order; without a failed write the sink is a concatenation of whole packets and loses nothing; and the exact condition for loss |
| OutputFlush.ErrorsAreSticky | src/runtime.rs:274-280 | the first recorded error is never replaced and the flag never cleared |
| OutputFlush.BegunDrainsWriteNothing | src/runtime.rs:248-262 | a drain begun after the flag is set writes no byte |
| OutputFlush.FlushReturns | src/runtime.rs:282-306 | a flush settles all packets handed over before it, returns the recorded error if the flag was set when it began (so its no-recorded-error arm is unreachable), and without failure all are in the sink |
| OutputRuns.FlushSettles | src/runtime.rs:282-306 | from its first step to its return, whatever others do meanwhile: a flush has settled every packet handed over before it began, and without a failure all of those are in the part of the sink that has been flushed; an error recorded before it began is returned, and success is returned if nothing failed |
| OutputRuns.ExitReturns | src/thread.rs:147-151 | from a thread's exit to the end of its drain: every packet the thread was ever asked to emit has its fate, its queue is empty, and without a failure all of them are in the sink, in order |
| OutputRuns.IdleThreadsHandOver | src/sequence.rs:276-291 | between callbacks a thread holds nothing back: what it was asked to emit is settled or queued, in order |
| OutputRuns.PushIsExact | src/sequence.rs:281-288 | a packet joins the queue whole if and only if it fits, and otherwise follows a drain of that very queue |
| OutputRuns.QueuesAreBounded | src/sequence.rs:281-288 | over any run no queue exceeds the ring buffer |
| OutputRuns.RecordedErrorHappened | src/runtime.rs:272-280 | a recorded error is one that some write or flush of that run failed with |
| OutputFlush.FlushSucceeds | src/runtime.rs:282-306 | a flush that finds the flag unset succeeds; if a packet it should have settled is missing, another actor stands between its failed write and its flagging; if none does, all of them are in the sink, in order |
| OutputFlush.FailureIsVisible | src/runtime.rs:265-280 | a write or flush has failed if and only if the flag is set or some actor still holds an unrecorded failure |
| OutputFlush.FlushCanMissAFailure | src/runtime.rs:265-269 | a reachable state in which a flush has returned success although a packet is lost |
| EndToEnd.SortedIsShare | tests/integration.rs:199-208 | sorting the file's packets by sequence id gives each thread its own, in order, however drains interleaved |
| EndToEnd.FileReplays | tests/integration.rs:199-235 | in any failure-free state with the sink at rest, the file parses and each sequence replays to what its thread's emissions meant |
| TrackOwnership.StepConserves | src/span_state.rs:86-93 | each step of each callback moves one uuid, makes one, or neither |
| TrackOwnership.ScanConserves | src/thread.rs:66-79 | a claim carries the uuid of the first slot with the key, if it has one, from that slot to the callback's hand, and moves nothing else |
| TrackOwnership.PopConserves | src/span_state.rs:86-88 | claiming from a pool carries its first uuid, if it has one, from the pool to the callback's hand, and moves nothing else |
| TrackOwnership.EvictConserves | src/thread.rs:124-131 | eviction carries the victim's uuid from its slot to the victim's own pool, or retires it if that pool is full, and moves nothing else |
| TrackOwnership.ReleaseConserves | src/thread.rs:88-102 | a release carries the uuid from the callback's hand to the pool's own slot if free, else to the pool or retirement; without a slot it stays in hand until one is replaced |
| TrackOwnership.DropConserves | src/thread.rs:140-149 | thread exit carries each slot's uuid to that slot's own pool, or retires it if the pool is full, and moves nothing else |
| TrackShapes.TracksAreExclusive | src/thread.rs:66-152 | in every reachable state each uuid ever allocated is in exactly one place; no two live spans share a track |
| TrackPools.StepPools | src/span_state.rs:349-376 | the entry lock makes reserving and publishing one pool per key safe in any interleaving |
| TrackPools.PublishKeeps | src/span_state.rs:368-374 | publishing turns the key's reservation into one new pool, unmapped before, with the count unchanged and every other reservation kept |
| TrackKeys.DescriptorsAreConsistent | src/thread.rs:66-102 | every live, cached or pooled track was described with the key it is used for; one pool per key, one slot per key and cache, at most 8192 pools |
| TrackKeys.StepKeyed | src/subscriber.rs:217-243 | every step keeps all of that |
| TrackRecycling.RetiredOnlyIfFull | src/thread.rs:66-152 | over any run a track is thrown away only when the pool of the name and parent it was described with is full, or when there are all the pools there may be |
| TrackExits.SpansKeepTheirNames | src/subscriber.rs:198-243 | a live span's key is the name it was created with, under the span that enclosed it then, and its track belongs to a pool unless all the keys there may be have one |
| TrackExits.SpansLastUntilClosed | src/subscriber.rs:240-243 | from its creation to its close, and at no other time, a span has state or is being created, with a context or without |
| TrackExits.ClaimedPoolsAreCached | src/thread.rs:66-85 | when a new span is stored, the pool of its track is in its thread's cache |
| TrackExits.SlotsGoInTurn | src/thread.rs:124-137 | over any run, the next slot to be replaced is the number of that thread's replacements so far modulo eight |
| TrackExits.IdleCallbacksHoldNothing | src/thread.rs:140-149 | a callback that is over has given its context back, or its thread has exited and no uuid is left in the context |
| TrackHistories.PoolsAreQueues | src/span_state.rs:85-94 | whatever the step, uuids join a pool at the back and leave it at the front |
| TrackHistories.MarksAreDue | src/subscriber.rs:225-238 | each step marks just the slice boundary due at it, on its span's track, at the step's clock value, written if and only if the callback has a context |
| TrackTree.TracksMirrorSpans | src/subscriber.rs:198-210 | if parents outlive children, a live span's descriptor parent is its enclosing span's present track, or the process track |
| TrackTree.TracksFormOneTree | src/runtime.rs:196-198 | descriptor parents lead from any track ever described through ever older ones to the process track |
| TrackSlices.SlicesBalance | src/subscriber.rs:406-446 | a track's open slices are its lifetime and polls plus exactly the boundaries missed; balanced if and only if the misses cancel |
| TrackWitnesses.EndCanBeMissed | src/subscriber.rs:406-446 | a run in which a span closes without a context: its track is pooled for another span with one slice still open |
| TrackSlices.LifetimesDoNotOverlap | src/subscriber.rs:212-243 | between two lifetimes on a recycled track lies an end, in log order and under a monotone clock in time; polls lie inside |
| ThreadContexts.TrackPool.Release | src/span_state.rs:91-93 | nothing already queued moves; with room the uuid becomes the last of the queue, which grows by one; a full queue stays as long as it was |
| ThreadContexts.ReleasedIsClaimedLast | src/span_state.rs:85-94 | a released uuid is claimed again, after every uuid queued before it, if and only if there was room; the others are claimed as before, and the queue stays bounded and free of repeats |
| ThreadContexts.PoolMap.Find | src/span_state.rs:349-376 | a key's pool is found or created, and refused exactly beyond the limit |
| ThreadContexts.ThreadCtx.ClaimTrack | src/thread.rs:66-85 | the whole new cache and every pool's queue after a claim: own slot first, then the pool, then round-robin replacement |
| ThreadContexts.ThreadCtx.ReleaseTrack | src/thread.rs:88-102 | the same for a release |
| ThreadContexts.ThreadCtx.ReplaceTrackPool | src/thread.rs:124-137 | one slot is overwritten and the victim's uuid reaches its own pool, no other |
| ThreadContexts.ThreadCtx.TakeRetainedSpan | src/thread.rs:104-111 | a box is always handed out empty and is then kept no longer |
| ThreadContexts.ThreadCtx.ReturnRetainedSpan | src/thread.rs:113-121 | a returned box is cleared before it is kept, or dropped |
| RetainedBoxes.FirstWhereIs | src/thread.rs:104-121 | the loops over the boxes find the first full or free one |
| RetainedBoxes.BoxesAreIsolated | src/thread.rs:104-121 | in every history of taking, recording, queueing, closing, recycling, dropping and thread exit: a live or closing span's box holds one field for each name that very instance recorded, saying what was recorded for it last, its own waiting flows and its own poll flow; kept boxes are empty; every box is in one place |
| RetainedBoxes.StoriesAreOwn | src/subscriber.rs:247-266 | the history a box is compared with starts empty at its span's birth and grows by that span's own callbacks only |
| RetainedBoxes.WantingIsExact | src/thread.rs:104-111 | a span that wants a box gets the first one its context keeps, which then keeps it no longer, or else a new, empty one |
| RetainedBoxes.AttachingIsExact | src/subscriber.rs:255-262 | so does a live span whose first record or flow needs a box |
| RetainedBoxes.ClosingIsExact | src/runtime.rs:226-230 | a closed span's box goes, as it is, to a context the callback can acquire on one of two attempts, and is dropped only if both fail |
| RetainedBoxes.ReturningIsExact | src/thread.rs:113-121 | a box given back is emptied and kept in the first free slot, or dropped if there is none; the context is free again |
| ActiveSlots.ActiveSlots.Insert | src/span_state.rs:154-165 | the first free slot is filled, or the data handed back when none is |
| ActiveSlots.ActiveSlots.Index | src/span_state.rs:168-177 | an index is found if and only if the span is in a slot |
| ActiveSlots.ActiveSlots.Take | src/span_state.rs:180-184 | the span's data is returned and the span is in no slot afterwards |
| SpanStores.TiersAreTheMap | src/span_state.rs:296-346 | in every interleaving the two tiers hold exactly a plain map, each span in one place |
| SpanStores.StepsAreAtomic | src/span_state.rs:296-346 | each step is one atomic operation of that map or none, with the right result |
| SpanStores.MissesAreReal | src/span_state.rs:307-346 | a lookup that finds nothing does so because the span was absent at some moment since it began |
| SpanStores.GuardsProtect | src/span_state.rs:187-257 | while a guard is held no other callback changes its span |
| SpanStores.CallsEndAsMeant | src/span_state.rs:296-346 | every step of a call brings it to a result of the kind asked for, or from the fast tier to the overflow map, which an insertion reaches only if its shard is full |
| SpanStores.LocksAreGivenBack | src/span_state.rs:187-257 | a shard's lock is held only by a guard on a span of that shard, whose next step gives it back |
| Visitors.StoreVisitor.Set | src/visitor.rs:22-27 | the first field of that name is overwritten, or one is appended |
| Visitors.StoredIsTheFold | src/visitor.rs:13-27 | setting fields one by one leaves the last value of each name, in first-record order, names distinct, and nothing else |
| Visitors.StoredMeans | src/visitor.rs:30-77 | a stored value says the flag, signed or unsigned number, double or text that was recorded; a 128-bit number stays one exactly in the range of its 64-bit type, and is its text otherwise |
| Visitors.FoldRemembers | src/visitor.rs:13-77 | after any records there is one field for each name recorded, in first-record order, that says what the last record of that name said |
| Visitors.CastIsExact | src/visitor.rs:236 | a u64 counter keeps its value exactly below 2^63 and turns negative above |
| EventVisitors.SamplesKeepValues | src/visitor.rs:214-242 | a sampled integer counter is written to its own track with bits that read back, signed, as the recorded number, if and only if that is below 2^63; above it reads as negative |
| EventVisitors.EventVisitor.RecordAll | src/visitor.rs:205-325 | each field becomes what its rank among the known counters and names says, by position alone; `FieldsReadBack` says what that reads as |
| EventVisitors.FieldKinds | src/visitor.rs:214-288 | a counter is a 64-bit number or double whose name starts with "counter."; a name is text called "message" on an unnamed event |
| EventVisitors.FieldsReadBack | src/visitor.rs:205-325 | field by field, what the reader gets: a sample of its track with the recorded bits, the event's name with the recorded text, an annotation under the field's name that says what was recorded, or nothing |
| EventVisitors.EventNameReads | src/subscriber.rs:501-519 | an event's name reads as the recorded text of the first field that may name it, or, if there is none, as its static name |
| EventVisitors.NothingVisitedIsLost | src/subscriber.rs:501-519 | the event holds all the visitor wrote, in order, and beyond that at most its static name |
| EventVisitors.VisitedIsInOrder | src/visitor.rs:205-325 | what the visitor wrote is its fields' items, one field after the other |
| EventVisitors.SamplesAreBounded | src/visitor.rs:214-260 | samples are the known counters, up to eight; at most one name |
| EventVisitors.ExactlyOneName | src/subscriber.rs:501-519 | every event gets exactly one name |
| EventVisitors.ColumnsAreAligned | src/emit.rs:132-145 | a reader gets the samples back: the k-th uuid belongs to the k-th value |
| Counters.CountersAreDeclared | src/subscriber.rs:78-87 | on every sequence, in every interleaving, a sample's track was described before it; sequences agree on a name's track, and names do not share one |
| Counters.CountersAreNamed | src/subscriber.rs:76-87 | over any run, every counter track a sequence uses is described on it under the name it was declared for less "counter.", below the process track |
| Counters.DeclaredExactly | src/subscriber.rs:484-495 | the counters declared for an event are exactly the first eight of its fields, and none is declared anew |
| Counters.FewCountersAreAllSampled | src/subscriber.rs:484-495 | the declaration loop makes an event sample all its counters, up to eight |
| FlowCalls.StartIsQueued | src/subscriber.rs:282-288 | if the predecessor has state, its waiting list becomes the old list followed by the start, all other spans' stay, and the terminate is next; if not, nothing is queued and the call is over |
| FlowCalls.TerminateIsQueued | src/subscriber.rs:290-295 | likewise for the terminate and the dependent, and the call is over |
| FlowCalls.BoundaryIsExact | src/subscriber.rs:353-402 | in every reachable state, an enter that is emitted, or in thread-slice mode an exit, writes everything waiting on its span, in order, and leaves nothing waiting; any other exit leaves it alone; fast-path flag or not |
| FlowCalls.CloseIsExact | src/subscriber.rs:406-435 | at the end of a close each endpoint still waiting, never written before, is written once, all of them in the order they were queued, if the span was created with a lifetime track and the callback has a context, and not at all otherwise |
| FlowEdges.DeliveredExactly | src/subscriber.rs:269-295 | once a span is over, an endpoint queued on it has been written by it exactly once if an earlier boundary wrote it or the close had track and context, and never otherwise |
| FlowCalls.EdgesAreDelivered | src/subscriber.rs:269-295 | over any run, edge by edge: a call is in progress or has come to its end; its start is queued on its predecessor if and only if that had state at that step, its terminate on its dependent likewise; and once that span is over, a queued end has been written exactly once if an earlier boundary wrote it or the close had track and context, and never otherwise |
| FlowEdges.EndpointCanBeLost | src/subscriber.rs:415-435 | a run in thread-track mode whose predecessor closes with its end of the flow unwritten |
| FlowEdges.FlowsAreDistinct | src/runtime.rs:170-177 | over a whole run no two calls, finished or not, share a flow, and no call shares one with a poll: the ids the real allocator returned for them, in any interleaving, differ for the first 2^64 - 1 |
| Flows.GateIsInvisible | src/runtime.rs:179-185 | a layer that consults the flag behaves exactly like one that always writes and clears |
| Ids.Counter.Alloc | src/runtime.rs:161-168 | the loop ends, also across the wrap, with the next nonzero id |
| Ids.IdsAreFresh | src/runtime.rs:161-177 | any 2^64 - 1 calls, however interleaved, return distinct nonzero ids |
| Ids.SequenceCounter.AllocRaw | src/runtime.rs:187-189 | the n-th call returns the n-th id of the 32-bit cycle from the base, skipping nothing |
| Ids.SequenceIds | src/runtime.rs:187-189 | sequence ids are distinct for 2^32 threads, and zero exactly when the counter wraps |

## Left out

- The clock, process and thread names, thread ids and the WASM shims: inputs of the model (`Opening`, `Body`, clock values).
- The layer's builder and configuration, except the switches that change what is written.
- The hash functions: only that a span's shard is a function of its id is used.
- The concrete sink and `std::io::Error`: the sink is a byte sequence, an error an opaque value, and lock poisoning does not occur.
- Weak memory orders: atomics are sequentially consistent steps.
- Reentrant formatting: it appears as an acquisition that fails; freedom from deadlock inside `on_record` is not claimed.
- Oversized packets: the source panics; the model's writers return false, and what the encoder holds afterwards is not described.
- The order in which packets of different sequences reach the file: it is drain order, and nothing is promised about it.
- Which metadata items each callback puts into its event: a packet may hold any items; only an event's fields and name are followed from the callback.
- Attributes recorded at span creation: written through the same items as stored fields (`Annotated`), not modelled as a third visitor.
- SequenceStates.SequenceState.Packet: a packet's body is handed over as a list of items; the borrow of the buffer by the callback's own code is not modelled.
- EventWriters.TrackEventWriter.Write: interned names arrive as iids, because the writer itself does not intern.
- OutputSafety.StepKeeps: a write is one step, since only the lock's holder touches the sink; partial writes are a choice of the step that fails.
- TrackShapes.TracksAreExclusive: a callback's work on its own context between two shared accesses is one step, since the borrowed flag keeps others out.
- ThreadContexts.ThreadCtx.ClaimTrack: sequential; its concurrent counterpart, with every access to a shared pool a separate step, is `TrackMachine`.
- FlowEdges.DeliveredExactly: a span's instance has its own name, so a reused id counts as a new span; so it does in `RetainedBoxes.BoxesAreIsolated`.
- Counters.CountersAreDeclared: the fresh uuid is an input; that the allocator never repeats one is `Ids.IdsAreFresh`.
- EndToEnd.FileReplays: says what the file replays to; that each string is the one written needs `Fidelity.NamesAreExact`.
