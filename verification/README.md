# GizClaw streaming and connection machinery, verified

A Dafny model of the stateful core of GizClaw: the stream buffers under every audio and text
path, the realtime stream that reorders and supersedes chunks, the tracking of conversation
turns, the aggregation of audio routes into device-visible epochs, the Manager that owns peer
connections, three bounded policies (admission lookups, input permissions, audio pacing) and
the formatting of schemas for structured outputs.

Concurrency is modelled as state machines over critical sections: a theorem about runs holds
for every interleaving. Most components come twice: as a state machine on values, about which
the theorems are proved, and as a class with the source's own fields, loops and in-place
updates, whose methods are proved to make the state machine's steps.

| component | files |
|---|---|
| overwriting ring | RingWindow, RingBuffer |
| blocking ring | BlockBuffer, BlockBufferRuns (interleavings), BlockBufferWakeups (condition variable) |
| growable queue | Buffer, BufferRuns (interleavings, two-phase removal, notify channel) |
| realtime stream | RealtimeTypes, RealtimeHeap, RealtimeStream (state machine), RealtimeTrace (order and origin of what is read), RealtimeQueue (class) |
| turn lifecycle | Lifecycle (state machine), LifecycleRuns, LifecycleEpochs, LifecycleOutputs; LifecycleSheds, LifecycleOwners, LifecycleBindings, LifecycleTold, LifecycleFlags, LifecycleEnds (told from the events); PeerStreamLifecycle (class) |
| audio routes | AudioRoutes, AudioRouteStory |
| peer connections | PeerManager (state machine, device count), PeerFencing (activation), PeerQuiesce, PeerConnections (told from the events), Manager (class) |
| policies | Admission, AdmissionStory, InputPermissions, InputRefresh, AudioPacer |
| schemas | OpenAISchema, OpenAISchemaMeaning |
| shared | Options, Collections, BufferTypes |

Findings, with the exact condition where a property fails:

- Readers and writers of the blocking ring share one condition variable and wake one sleeper.
  A wake-up can go to the wrong thread, and the ring can wedge, if and only if both kinds of
  thread exist and there are at least three (`WedgesIff`); with exactly three, all of them can
  end up asleep until someone closes the ring (`ThreeDeadlockIff`).
- The growable queue's one-slot channel can leave a consumer asleep in front of an element if
  and only if there are two or more consumers (`MissesIff`).
- `setEdgeTransportDown` does not settle the device count. The count goes wrong exactly when
  the transport is the only connection of a counted entry with an activation pending, which
  cannot happen while edge transports and clients are different connections (`EdgeDownExactIff`,
  `RunExact`).
- A revoked activation can publish exactly when another attempt holds a reservation of the same
  entry for the same connection (`PassesIff`, `RevokedPublishes`, `RevokedNeverPublishes`).
- Several branches are unreachable: `dropLateLocked` never drops, the negative cache never
  reaches its eviction, the guard before a turn ends its output always holds, and the searches
  of the turn lifecycle for stale order entries and for unlisted turns find nothing.
- `QuiescePeer` fences an entry for good if and only if no deletion of that entry is pending:
  rolling one back lifts the fence and can put the peer online again (`QuiesceHoldsIff`).
- Formatting a schema keeps its meaning if and only if no optional property is untyped and every
  node that accepts objects is formatted as one or already closed with all properties required,
  wherever an instance reaches (`FormatKeepsMeaningIff`, with the guard `Safe`). Optional
  properties without a type, and open nodes that accept objects beside another main type, fail.
- A refresh of the input permission can be answered with a value that was cached before it was
  asked for. That happens exactly when the caller joined another caller's lookup that was not
  kept and then looked again before anything else was kept (`RefreshIsFresh`,
  `TookOldAfterJoining`).
- `RingBuffer.Bytes` shows the contents only of a ring that is not empty.

Assumptions: rings have a positive capacity, counters and timestamps are unbounded integers,
clock readings are non-negative, and readings under one lock do not decrease (admission). The
parsing of MIME types, the outcome texts of errors and the answers of other services are
parameters. Where a caller reads the clock or another service outside the lock, that is a step
of its own.

## Model

| member | source | states |
|---|---|---|
| RingBuffers.RingBuffer.Write | pkgs/buffer/ring_buffer.go:121-174 | For every head and tail position and every input length, also several times the capacity, the contents become the last N of the old contents followed by the input; a closed ring is refused and unchanged |
| RingBuffers.WritesKeepLast | pkgs/buffer/ring_buffer.go:121-174 | Any series of writes leaves exactly the last N of everything written, however it was cut into writes |
| RingBuffers.OverwriteKeepsLast | pkgs/buffer/ring_buffer.go:151-173 | Overwriting from the slot of the oldest element, with the input cut in two and wrapped, leaves the last N elements in the ring |
| RingBuffers.RingBuffer.Add | pkgs/buffer/ring_buffer.go:202-222 | Adds one element and drops the oldest only when the ring was full; leaves a notify token |
| RingBuffers.RingBuffer.Read | pkgs/buffer/ring_buffer.go:43-76 | What is copied out followed by what is left is what was there; when it blocks, when it fails and with which error |
| RingBuffers.RingBuffer.Next | pkgs/buffer/ring_buffer.go:176-200 | Takes exactly the oldest element, or blocks or fails with nothing changed |
| RingBuffers.RingBuffer.Discard | pkgs/buffer/ring_buffer.go:29-41 | Drops exactly min(n, length) elements from the front |
| RingBuffers.RingBuffer.Bytes | pkgs/buffer/ring_buffer.go:237-246 | Shows the contents if and only if the ring is not empty |
| RingBuffers.RingBuffer.CloseWithError | pkgs/buffer/ring_buffer.go:78-98 | The first error is kept, the notify channel is closed and nothing buffered is lost |
| RingWindow.AdvanceSlot | pkgs/buffer/ring_buffer.go:121-174 | Moving a position counter on by k moves its slot on by k around the ring |
| RingWindow.PhaseIsRemainder | pkgs/buffer/ring_buffer.go:121-174 | The slot of a counter is its remainder modulo the capacity |
| BlockBuffers.BlockBuffer.Write | pkgs/buffer/block_buffer.go:83-122 | One pass stores exactly the longest prefix that fits, in order, and blocks only on a full, open ring; it signals if and only if it stored something |
| BlockBuffers.BlockBuffer.Add | pkgs/buffer/block_buffer.go:191-215 | A pass of Add is a pass of Write with one element |
| BlockBuffers.BlockBuffer.Read | pkgs/buffer/block_buffer.go:49-81 | What is copied out followed by what is left is what was there; blocks only on an empty, open ring |
| BlockBuffers.BlockBuffer.Next | pkgs/buffer/block_buffer.go:166-189 | Takes exactly the oldest element; a drained, write-closed ring ends the iteration |
| BlockBuffers.BlockBuffer.CloseWithError | pkgs/buffer/block_buffer.go:133-143 | Keeps the first error, and broadcasts if and only if it sets one |
| BlockBuffers.BlockBuffer.CloseWrite | pkgs/buffer/block_buffer.go:155-164 | Broadcasts if and only if writing was open |
| BlockBufferRuns.StepConserves | pkgs/buffer/block_buffer.go:49-122 | Every pass, call and close keeps: nothing lost, duplicated or reordered, reports exact, occupancy within capacity |
| BlockBufferRuns.RunConserves | pkgs/buffer/block_buffer.go:49-215 | Over every interleaving of any number of readers and writers, elements consumed followed by the ring are all elements ever stored in storage order; what each thread stored is exactly the prefixes its calls reported and the one in progress |
| BlockBufferWakeups.PairedRunNeverLoses | pkgs/buffer/block_buffer.go:57-65 | With one producer and one consumer, or threads of one kind only, and any closers, no reachable state has a sleeper whose wait condition is already false |
| BlockBufferWakeups.TwoWritersWedge | pkgs/buffer/block_buffer.go:96-104 | With two producers and a consumer there is a run, for every capacity and with first-in-first-out wake-ups, after which a sleeper has no reason to wait and no call is under way; with three threads all of them sleep |
| BlockBufferWakeups.DeadlockIsPermanent | pkgs/buffer/block_buffer.go:57-65 | When all threads sleep and one has no reason to, nothing but a close can happen |
| BlockBufferWakeups.ThreeDeadlockIff | pkgs/buffer/block_buffer.go:49-215 | Three threads can all end up asleep for good, one of them without reason, if and only if both kinds are among them |
| BlockBufferWakeups.WedgesIff | pkgs/buffer/block_buffer.go:49-215 | A run can wedge if and only if both kinds of thread exist and there are at least three threads |
| Buffers.Buffer.Write | pkgs/buffer/buffer.go:33-53 | Appends the input under fresh, consecutive IDs and leaves a token |
| Buffers.Buffer.Add | pkgs/buffer/buffer.go:165-182 | Appends one element under the next ID and leaves a token |
| Buffers.Buffer.Read | pkgs/buffer/buffer.go:71-93 | What is read followed by what is left is what was there, with their IDs |
| Buffers.Buffer.Next | pkgs/buffer/buffer.go:139-163 | Takes exactly the oldest element and its ID |
| Buffers.Buffer.Discard | pkgs/buffer/buffer.go:55-69 | Drops exactly min(n, length) elements and their IDs from the front |
| Buffers.Buffer.CloseWithError | pkgs/buffer/buffer.go:95-107 | The first error is kept, what is buffered is discarded and the channel is closed |
| Buffers.Buffer.RemoveIfSnapshot | pkgs/buffer/buffer.go:196-206 | The doomed IDs are exactly those of the buffered values that satisfy the predicate |
| Buffers.Buffer.RemoveIfSweep | pkgs/buffer/buffer.go:208-229 | Exactly the doomed elements go; lengths stay equal and IDs strictly increasing |
| Buffers.Compact | pkgs/buffer/buffer.go:210-229 | The in-place compaction loop computes the kept values and IDs although it overwrites what it scans |
| Buffers.KeptOrigin | pkgs/buffer/buffer.go:210-220 | Everything kept was there before under the same ID and is not doomed |
| Buffers.KeptComplete | pkgs/buffer/buffer.go:210-220 | Everything not doomed is kept with its value |
| Buffers.KeptAscending | pkgs/buffer/buffer.go:210-220 | What is kept is in its old order |
| BufferRuns.RunGood | pkgs/buffer/buffer.go:33-229 | Over every run, each buffered ID names the element it was given to, and IDs strictly increase |
| BufferRuns.RemoveIfExact | pkgs/buffer/buffer.go:192-229 | With arbitrary operations between the two critical sections, an element is removed if and only if it was in the snapshot and satisfies the predicate; never a later element with an equal value |
| BufferRuns.OneConsumerNeverMisses | pkgs/buffer/buffer.go:78-88 | A single consumer committed to waiting on a non-empty or closed queue always has a token or a closed channel |
| BufferRuns.MissesIff | pkgs/buffer/buffer.go:71-182 | That guarantee holds in every run if and only if there is at most one consumer |
| RealtimeHeap.RootIsLeast | pkgs/genx/realtime_stream.go:370-405 | The root of a heap precedes every element in (timestamp, arrival) |
| RealtimeHeap.Up | pkgs/genx/realtime_stream.go:370-405 | Restores the heap order upwards and permutes |
| RealtimeHeap.Down | pkgs/genx/realtime_stream.go:370-405 | Restores the heap order downwards below a bound and permutes |
| RealtimeHeap.Push | pkgs/genx/realtime_stream.go:144-149 | The heap gains exactly the new element |
| RealtimeHeap.Pop | pkgs/genx/realtime_stream.go:171-171 | The heap loses exactly its root |
| RealtimeHeap.Init | pkgs/genx/realtime_stream.go:307-307 | Any sequence becomes a heap of the same elements |
| RealtimeQueues.RealtimeStream.Push | pkgs/genx/realtime_stream.go:103-156 | The heap-based Push does what the state machine's Push does (which PlacesExactly, StampedQueues and AcceptsIff characterise), and fails exactly on a closed stream |
| RealtimeQueues.RealtimeStream.Next | pkgs/genx/realtime_stream.go:159-196 | One round of Next: emits a least due item, sleeps, or reports the end |
| RealtimeQueues.RealtimeStream.PopBelow | pkgs/genx/realtime_stream.go:255-269 | The popping loops remove exactly the items below the threshold |
| RealtimeQueues.RealtimeStream.DropSuperseded | pkgs/genx/realtime_stream.go:271-309 | The two passes over the heap, the rebuild and the recomputation do what the state machine's Supersede does |
| RealtimeQueues.RealtimeStream.RecomputeMaxSeen | pkgs/genx/realtime_stream.go:325-333 | The loop finds the largest of lastEmitted and the queued timestamps |
| RealtimeQueues.RealtimeStream.Place | pkgs/genx/realtime_stream.go:133-143 | Timestamp assignment, clamping and late dropping as in the state machine's Placing, which PlacesExactly and LateIff characterise |
| RealtimeQueues.RealtimeStream.CloseWithError | pkgs/genx/realtime_stream.go:204-219 | The first close wins; a missing error is a closed pipe |
| RealtimeStreams.RunKeeps | pkgs/genx/realtime_stream.go:103-196 | Over every run of Push, Next and Close: emitted chunks strictly increase in (timestamp, arrival), every queued item is above the last emitted one, queued timestamps lie between max(lastEmitted, maxSeen - maxDuration) and maxSeen, and nothing audible of a replaced stream is queued |
| RealtimeStreams.PushKeeps | pkgs/genx/realtime_stream.go:103-156 | Push keeps all invariants, although supersession may lower maxSeen: that is always the largest timestamp queued or emitted |
| RealtimeStreams.NothingIsLate | pkgs/genx/realtime_stream.go:265-269 | dropLateLocked never removes anything in a reachable state |
| RealtimeStreams.SupersedesExactly | pkgs/genx/realtime_stream.go:271-309 | Supersession leaves every other item as it is, and keeps a superseded one, silenced, if and only if it is a BOS or control EOS of a route whose control EOS is queued no later than the new BOS |
| RealtimeStreams.ActiveIsLastBegin | pkgs/genx/realtime_stream.go:124-129 | The active stream is the one of the last accepted BOS |
| RealtimeStreams.ReplacedAudioIsNeverRead | pkgs/genx/realtime_stream.go:124-132 | After a BOS with a stream ID and until the next BOS, Next returns no audible audio of another named stream with a matching label |
| RealtimeStreams.UnstampedGoesLast | pkgs/genx/realtime_stream.go:235-253 | A chunk without a timestamp is queued strictly above everything queued or emitted |
| RealtimeStreams.PushRetains | pkgs/genx/realtime_stream.go:255-263 | Of the items left by routing, a push keeps exactly those in the window |
| RealtimeStreams.PushQueues | pkgs/genx/realtime_stream.go:133-153 | A chunk is queued exactly when its timestamp is in the window; a chunk that is too late changes nothing |
| RealtimeStreams.LateIff | pkgs/genx/realtime_stream.go:311-316 | A chunk is dropped as late if and only if it is below the last emitted timestamp and not of the active stream; of the active stream it moves right after it |
| RealtimeStreams.PlacesExactly | pkgs/genx/realtime_stream.go:133-143 | A chunk is queued under its own timestamp if it has one that is not late, right after the last emitted one if it is late, and else under the first free one: not before the clock and above everything queued or emitted; and it carries that timestamp |
| RealtimeStreams.StampedQueues | pkgs/genx/realtime_stream.go:133-153 | A stamped chunk that is not late is queued as it is under its own timestamp, whatever was pushed before, exactly if that is in the window |
| RealtimeStreams.AcceptsIff | pkgs/genx/realtime_stream.go:121-145 | In every reachable state a push is numbered exactly when the stream is open, the chunk is not audio of a named stream that the last BOS replaces, and not a late chunk of a stream other than the active one |
| RealtimeStreams.OpenReadsWhenDue | pkgs/genx/realtime_stream.go:158-186 | Before the close Next hands something out exactly when some queued timestamp plus the delay has come, and then the first in (timestamp, arrival) |
| RealtimeStreams.ErrorIsThatOfFirstClose | pkgs/genx/realtime_stream.go:198-219 | The error that Next returns in the end is that of the first close |
| RealtimeTraces.FromPushes | pkgs/genx/realtime_stream.go:103-196 | Whatever is queued or was handed out came from one push, under that push's place and with nothing else changed, except that supersession may have emptied its audio |
| RealtimeTraces.HandedOutOnce | pkgs/genx/realtime_stream.go:103-196 | No push is handed out twice or both handed out and still queued |
| RealtimeTraces.ReadInStampOrder | pkgs/genx/realtime_stream.go:103-196 | Of two chunks pushed on time with timestamps the one with the smaller timestamp is handed out first, in whichever order they were pushed; with equal ones the one pushed first |
| RealtimeTraces.NothingOvertakes | pkgs/genx/realtime_stream.go:158-186 | What is still queued has a larger timestamp than what was handed out, or the same and was pushed later |
| RealtimeStreams.ClosedRound | pkgs/genx/realtime_stream.go:166-191 | On a closed stream a round emits an item, or reports the error when none is left |
| RealtimeStreams.ClosedDrains | pkgs/genx/realtime_stream.go:198-219 | A closed stream hands out everything it holds, each item once |
| Lifecycles.ReleaseForms | pkgs/gizclaw/peer_stream_lifecycle.go:733-774 | Releasing a turn keeps all cross-links: no index names it any more, orders list exactly what is left |
| Lifecycles.StartTurnForms | pkgs/gizclaw/peer_stream_lifecycle.go:476-528 | Starting a turn keeps the links and the bounds, through replacement and eviction of the oldest turns |
| Lifecycles.EvictEpochsForms | pkgs/gizclaw/peer_stream_lifecycle.go:553-573 | Evicting epochs ends turns until there is room, or until the owner itself is gone |
| Lifecycles.TrimRoutesForms | pkgs/gizclaw/peer_stream_lifecycle.go:585-596 | Trimming keeps every route among the ordered ones and ends with at most 64, though the order may repeat IDs |
| Lifecycles.OutputTurnForms | pkgs/gizclaw/peer_stream_lifecycle.go:539-583 | Looking up the turn of an output chunk keeps the links and bounds and finds a live turn or none |
| Lifecycles.EndAllForms | pkgs/gizclaw/peer_stream_lifecycle.go:673-719 | Ending all turns leaves none and keeps the links |
| LifecycleRuns.StepForms | pkgs/gizclaw/peer_stream_lifecycle.go:164-474 | Every observer and finish keeps the links and the bounds |
| LifecycleRuns.RunBounded | pkgs/gizclaw/peer_stream_lifecycle.go:476-607 | In every reachable state turns, inputTurns, epochTurns and outputTurns hold at most 64 entries each |
| LifecycleRuns.StepTells | pkgs/gizclaw/peer_stream_lifecycle.go:347-731 | Every step keeps: stories told once and in order, turns started equal live plus terminated |
| LifecycleRuns.RunSound | pkgs/gizclaw/peer_stream_lifecycle.go:164-774 | In every reachable state the indexes are linked, turnOrder and epochOrder are exact, each live turn has told its stages once starting with turn_started, and started = live + terminated |
| LifecycleRuns.TerminatedStory | pkgs/gizclaw/peer_stream_lifecycle.go:658-731 | A terminated turn produced exactly one turn_started first, exactly one agent_terminal, and exactly one turn_terminal last |
| LifecycleRuns.TerminatedStays | pkgs/gizclaw/peer_stream_lifecycle.go:609-671 | A terminated turn stays terminated and gets no further record, whatever follows |
| LifecycleRuns.FirstFinishEndsAll | pkgs/gizclaw/peer_stream_lifecycle.go:419-452 | The first finish of peer_input, server_tunnel or agent_output leaves no live turn |
| LifecycleEpochs.EpochStays | pkgs/gizclaw/peer_stream_lifecycle.go:539-583 | An epoch bound to a turn stays bound to it for as long as the turn lives |
| LifecycleEpochs.BosReplaces | pkgs/gizclaw/peer_stream_lifecycle.go:476-494 | After a new BOS the previous turn stays live, marked replaced, while the agent may still deliver for it; otherwise it ends at once, as replaced |
| LifecycleEpochs.BosInterrupts | pkgs/gizclaw/peer_stream_lifecycle.go:476-494 | After a new BOS the previous turn has told of its interruption |
| LifecycleOutputs.LiveTurnsDeliver | pkgs/gizclaw/peer_stream_lifecycle.go:347-375 | In every reachable state no live turn has ended its output, so the guard before ending it always holds |
| LifecycleOutputs.DrainEndsTurn | pkgs/gizclaw/peer_stream_lifecycle.go:347-375 | In every reachable state, draining the end of an epoch whose agent has ended terminates its turn with output_terminal and turn_terminal last; a replaced turn ends as replaced |
| LifecycleOwners.RunTied | pkgs/gizclaw/peer_stream_lifecycle.go:164-596 | In every reachable state turn i is that of the i-th BOS, input streams name the last turn of their ID, the current turn is that of the last BOS, and bound epochs name a turn of their owner |
| LifecycleBindings.EpochsNameTheirOwner | pkgs/gizclaw/peer_stream_lifecycle.go:539-583 | Every bound epoch names a live turn whose BOS carried the stream ID that owns the epoch |
| LifecycleBindings.InputsNameTheirLastTurn | pkgs/gizclaw/peer_stream_lifecycle.go:507-537 | A stream ID is known exactly while the turn of its last BOS lives, and names that turn; the current turn is that of the last BOS of all while it lives |
| LifecycleBindings.ChunkFinds | pkgs/gizclaw/peer_stream_lifecycle.go:539-596 | In every reachable state an output chunk with a bound epoch finds that turn; an unbound epoch is bound, with its route, to the last turn of its owner if that lives, and to nothing else; with 64 epochs the turn of the first one ends before |
| LifecycleBindings.RoutesNameTheirTurn | pkgs/gizclaw/peer_stream_lifecycle.go:585-596 | Every output route names the turn it was bound to last, that of the owner of the epoch that bound it |
| LifecycleBindings.EpochsInBindingOrder | pkgs/gizclaw/peer_stream_lifecycle.go:553-576 | Epochs are listed in the order in which they were bound, so the one that has to go is the one bound longest ago |
| LifecycleBindings.EvictsOne | pkgs/gizclaw/peer_stream_lifecycle.go:553-573 | With 64 epochs the loop ends exactly the turn of the first one |
| LifecycleBindings.TrimsFirst | pkgs/gizclaw/peer_stream_lifecycle.go:585-596 | With one route too many the loop drops exactly the bound route that is listed first |
| LifecycleTold.StoryIsTold | pkgs/gizclaw/peer_stream_lifecycle.go:164-417 | In every reachable state a live turn has a record of a stage exactly when an event addressed to it said so (input events to the last turn of their stream while it lives, else to the last one; chunks to the turn of their epoch), and with the outcome that the first one gave |
| LifecycleFlags.FlagsAreTold | pkgs/gizclaw/peer_stream_lifecycle.go:164-417 | The flags of every live turn are those that the events addressed to it have set; it is marked as replaced exactly when a later BOS came |
| LifecycleEnds.TurnEndsIff | pkgs/gizclaw/peer_stream_lifecycle.go:347-378 | For every reachable state and event: a live turn ends exactly when a BOS replaces it while the agent was not engaged, when it has to make room as the oldest of 64 turns or as that of the oldest of 64 epochs, when the end of its output is drained after its agent ended, or when a component finishes; the outcomes of its last records are given for each case |
| LifecycleEnds.RecordsAreUnique | pkgs/gizclaw/peer_stream_lifecycle.go:609-671 | No turn has two records of the same stage |
| LifecycleEnds.FinishedIsTold | pkgs/gizclaw/peer_stream_lifecycle.go:419-450 | A component counts as finished exactly when its finish was observed |
| PeerStreamLifecycles.Retain | pkgs/gizclaw/peer_stream_lifecycle.go:735-769 | The in-place filtering loops keep exactly the retained elements in order |
| PeerStreamLifecycles.PoppedTurn | pkgs/gizclaw/peer_stream_lifecycle.go:598-607 | Taking the oldest turn off the order before ending it leaves the same state as ending it in place |
| PeerStreamLifecycles.PeerStreamLifecycle.ReleaseTurn | pkgs/gizclaw/peer_stream_lifecycle.go:733-774 | The maps and order slices become those of Release |
| PeerStreamLifecycles.PeerStreamLifecycle.StartsTurn | pkgs/gizclaw/peer_stream_lifecycle.go:476-528 | Replacement, creation and the eviction loop together do what StartTurn says |
| PeerStreamLifecycles.PeerStreamLifecycle.FindsOutputTurn | pkgs/gizclaw/peer_stream_lifecycle.go:539-583 | The lookup with its eviction and binding loops does what OutputTurn says, which ChunkFinds characterises |
| PeerStreamLifecycles.PeerStreamLifecycle.BindsRoute | pkgs/gizclaw/peer_stream_lifecycle.go:585-596 | The trimming loop does what BindRoute says |
| PeerStreamLifecycles.PeerStreamLifecycle.ObservesInput | pkgs/gizclaw/peer_stream_lifecycle.go:164-197 | Makes exactly the step Input on all maps, orders and turn fields: a BOS starts a turn, and the turn found by stream ID or else the current one records its first and its terminal event once |
| PeerStreamLifecycles.PeerStreamLifecycle.ObservesInputPush | pkgs/gizclaw/peer_stream_lifecycle.go:209-231 | Makes exactly the step InputPush: the turn of the stream now awaits delivery |
| PeerStreamLifecycles.PeerStreamLifecycle.ObservesTransformStarted | pkgs/gizclaw/peer_stream_lifecycle.go:233-249 | Makes exactly the step TransformStart: the turn of the stream now awaits delivery |
| PeerStreamLifecycles.PeerStreamLifecycle.ObservesInterrupt | pkgs/gizclaw/peer_stream_lifecycle.go:251-265 | Makes exactly the step Interrupt on the current turn, if any |
| PeerStreamLifecycles.PeerStreamLifecycle.ObservesDelivered | pkgs/gizclaw/peer_stream_lifecycle.go:277-342 | Makes exactly the step Deliver on the turn that owns the chunk's epoch |
| PeerStreamLifecycles.PeerStreamLifecycle.ObservesProduced | pkgs/gizclaw/peer_stream_lifecycle.go:380-417 | Makes exactly the step Produce: binds the epoch and records the agent's end once |
| PeerStreamLifecycles.PeerStreamLifecycle.ObservesDrained | pkgs/gizclaw/peer_stream_lifecycle.go:347-375 | Makes exactly the step Drain, which ends the turn once its agent has ended |
| PeerStreamLifecycles.PeerStreamLifecycle.Finishes | pkgs/gizclaw/peer_stream_lifecycle.go:419-474 | Makes exactly the step Finishes: only the first finish of a component does anything |
| PeerStreamLifecycles.PeerStreamLifecycle.TerminatesAll | pkgs/gizclaw/peer_stream_lifecycle.go:673-694 | Going through a copy of the order ends every turn; no turn is missing from the order |
| PeerStreamLifecycles.PeerStreamLifecycle.TerminatesOutput | pkgs/gizclaw/peer_stream_lifecycle.go:696-719 | Taking the oldest turn again and again ends every turn and its output |
| AudioRoutes.ConsumeKeeps | pkgs/gizclaw/peer_stream_event.go:460-506 | A boundary event keeps: events alternate, an epoch is open exactly while a route is active, completed routes are remembered once and at most 64 |
| AudioRoutes.CutoverKeeps | pkgs/gizclaw/peer_stream_event.go:431-454 | A cutover retires every active route and closes the epoch |
| AudioRoutes.RouteEndKeeps | pkgs/gizclaw/peer_stream_event.go:536-564 | A control EOS ends every route of its stream, in whatever order the map is walked, and closes the epoch when none is left |
| AudioRoutes.AbortKeeps | pkgs/gizclaw/peer_stream_event.go:573-605 | An abort leaves no route active and no epoch open |
| AudioRoutes.EpochIsOpenIffActive | pkgs/gizclaw/peer_stream_event.go:431-605 | In every reachable state an epoch is open exactly when some route is active, and completed is the duplicate-free completedOrder with at most 64 entries |
| AudioRoutes.ActiveIffPlays | pkgs/gizclaw/peer_stream_event.go:431-564 | The active routes are exactly those whose last boundary was a BOS with no cutover and no control EOS of their stream after it |
| AudioRoutes.DeviceSeesBrackets | pkgs/gizclaw/peer_stream_event.go:180-234 | However routes begin, end and are cut over and however the consumer stops, the device gets alternating BOS and EOS, each EOS with the stream ID and label of its BOS, and no epoch is left open |
| AudioRouteStories.StoryMatches | pkgs/gizclaw/peer_stream_event.go:426-564 | Active, retired and completed routes are those that the acts tell: playing, cut over and not ended since, the newest 64 that ended |
| AudioRouteStories.RefusedIff | pkgs/gizclaw/peer_stream_event.go:460-506 | A boundary is refused if and only if it names no route, begins one that plays, or ends one that neither plays, nor was cut over and not ended since, nor is among the newest 64 that ended while the EOS reports a control error |
| AudioRouteStories.EmittedIff | pkgs/gizclaw/peer_stream_event.go:468-502 | A BOS reaches the device exactly when no route plays, an EOS exactly when its route is the only one that plays; what the device is sent is given, and nothing otherwise |
| AudioRouteStories.CutClosesIff | pkgs/gizclaw/peer_stream_event.go:431-454 | A cutover sends the EOS of the open epoch exactly when some route plays |
| AudioRouteStories.EndsClosesIff | pkgs/gizclaw/peer_stream_event.go:536-564 | A control EOS sends it exactly when some route plays and all that do are of its stream |
| AudioRoutes.Aggregator.Consumes | pkgs/gizclaw/peer_stream_event.go:460-506 | Keeps the brackets and does to the route sets and the epoch what Consume says, with the same outcome: emitted, suppressed or refused, as RefusedIff and EmittedIff characterise |
| AudioRoutes.Aggregator.EndsRoutes | pkgs/gizclaw/peer_stream_event.go:536-564 | Keeps the brackets and ends exactly the active routes of the stream, completing them in some enumeration |
| AudioRoutes.Aggregator.RecordsCompleted | pkgs/gizclaw/peer_stream_event.go:508-522 | Remembers a route once and forgets the oldest of 64 |
| AudioRoutes.Aggregator.CutsOver | pkgs/gizclaw/peer_stream_event.go:431-454 | Keeps the brackets; every active route becomes retired |
| AudioRoutes.Aggregator.Aborts | pkgs/gizclaw/peer_stream_event.go:573-605 | Keeps the brackets and leaves no route active |
| AudioRoutes.Aggregator.Closes | pkgs/gizclaw/peer_stream_event.go:566-571 | Succeeds only when every epoch handed out has been ended; otherwise the last one begun is still open |
| PeerManagers.SettleExact | pkgs/gizclaw/peer_metrics.go:25-39 | After any change of an entry, settling its flag makes the count exact again |
| PeerManagers.RemoveExact | pkgs/gizclaw/peer_metrics.go:41-47 | Removing an entry keeps the count exact, whatever became of its flag |
| PeerManagers.StepExact | pkgs/gizclaw/peer_manager.go:81-866 | Every critical section keeps the count exact, except edge transport down in one case |
| PeerManagers.EdgeDownExactIff | pkgs/gizclaw/peer_manager.go:119-139 | setEdgeTransportDown keeps the count exact if and only if it does not take the only connection of a counted entry with an activation pending |
| PeerManagers.MiscountReached | pkgs/gizclaw/peer_manager.go:119-139 | A run that reaches that case: a connection brought up as an edge transport, set up as a client and taken down as the transport; nobody online, the counter says one |
| PeerManagers.RunExact | pkgs/gizclaw/peer_manager.go:81-866 | When a connection is either an edge transport or a client, the counter equals, in every reachable state, the number of entries with a connection, not deleting, of role Client |
| PeerFencing.RunFenced | pkgs/gizclaw/peer_manager.go:373-449 | In every reachable state entries are distinct objects and each reservation belongs to the one attempt that made it |
| PeerFencing.OnePasses | pkgs/gizclaw/peer_manager.go:623-634 | When each connection is activated once at a time, at most one attempt on a key passes the check before publishing, and it is the one that holds the reservation |
| PeerFencing.PassesIff | pkgs/gizclaw/peer_manager.go:623-634 | An attempt passes the check before publishing if and only if the standing reservation is its own or that of another attempt on the same entry for the same connection |
| PeerFencing.HolderPublishes | pkgs/gizclaw/peer_manager.go:424-449 | A standing reservation publishes its connection and role unless the entry is being deleted |
| PeerFencing.RevokedStays | pkgs/gizclaw/peer_manager.go:373-449 | A reservation that was taken away never comes back, over every critical section |
| PeerFencing.Revokes | pkgs/gizclaw/peer_manager.go:214-238 | Detach, quiesce, SetPeerUp and a completed deletion revoke every reservation of the key |
| PeerFencing.RevokedNeverPublishes | pkgs/gizclaw/peer_manager.go:373-449 | When each connection is activated once at a time, a revoked reservation never publishes, whatever happens in between, even with a new entry or reservation for the key |
| PeerFencing.RevokedPublishes | pkgs/gizclaw/peer_manager.go:373-449 | Without that, a run in which a revoked attempt publishes under another attempt's reservation for the same connection |
| PeerFencing.RollbackLifts | pkgs/gizclaw/peer_manager.go:657-674 | A rollback, whatever happened since the deletion began: if its entry is still there and fenced, only the fence is lifted, unless nobody needs the entry |
| PeerFencing.DeletionUndone | pkgs/gizclaw/peer_manager.go:636-682 | With nothing in between, a failed deletion restores the state and a successful one removes the entry |
| PeerFencing.FreshRunApart | pkgs/gizclaw/peer_manager.go:373-449 | When each connection is activated once at a time, every reachable state is fenced and has no two attempts for one connection |
| PeerQuiesce.ShutStays | pkgs/gizclaw/peer_manager.go:214-238 | Without a pending deletion, a fenced entry stays fenced over every continuation until it is removed |
| PeerQuiesce.PendingLifts | pkgs/gizclaw/peer_manager.go:657-674 | A pending deletion that rolls back puts the peer online again |
| PeerQuiesce.QuiesceHoldsIff | pkgs/gizclaw/peer_manager.go:214-238 | The fence of QuiescePeer holds over every continuation if and only if no deletion of the entry was pending when it was put up |
| PeerConnections.StepConn | pkgs/gizclaw/peer_manager.go:81-866 | After a section the connection of a key is the one that the section put up, or the one that was there and that it left |
| PeerConnections.ConnectionIsTold | pkgs/gizclaw/peer_manager.go:329-866 | In every run the connection of a key is exactly the one put up or published last that has not itself gone down or been retired, while the key was not detached, forced down or deleted since |
| PeerConnections.LateDownIsNothing | pkgs/gizclaw/peer_manager.go:779-787 | A connection that is not the key's can go down or be retired without any effect |
| PeerConnections.OwnDownDrops | pkgs/gizclaw/peer_manager.go:779-804 | When the key's own connection goes down the key has none, and its entry is gone exactly when it is neither being deleted nor reserved; other keys stay |
| PeerConnections.StepEntry | pkgs/gizclaw/peer_manager.go:81-866 | Which sections make an entry and which remove it, both ways |
| PeerConnections.RunNeeded | pkgs/gizclaw/peer_manager.go:779-804 | No entry is kept without a connection, a reservation or a deletion in any reachable state |
| PeerConnections.StepRole | pkgs/gizclaw/peer_manager.go:329-371 | The role is that of the last client, edge transport or published activation |
| PeerConnections.StepFence | pkgs/gizclaw/peer_manager.go:214-238 | What fences an entry and what lifts the fence, both ways |
| PeerConnections.StepReservation | pkgs/gizclaw/peer_manager.go:373-451 | What makes a reservation and what ends it, both ways |
| PeerConnections.TransportsAreTold | pkgs/gizclaw/peer_manager.go:81-141 | In every run the edge transports of a key are exactly those brought up while it was not being deleted that have not gone down nor lost their entry since |
| Managers.Manager.UpdatePeer | pkgs/gizclaw/peer_metrics.go:25-39 | Stores the changed entry with its flag settled, and the counter moved by the difference of the flags |
| Managers.Manager.RemovePeer | pkgs/gizclaw/peer_metrics.go:41-47 | The entry goes, and a counted one is uncounted |
| Managers.Manager.ActivateEdgeTransport | pkgs/gizclaw/peer_manager.go:81-117 | Keeps the count exact and the fences; adds the transport unless the entry is being deleted |
| Managers.Manager.SetEdgeTransportDown | pkgs/gizclaw/peer_manager.go:119-139 | Hands the connection to some remaining transport or removes the entry; the count stays exact if and only if the entry was not miscounted by it |
| Managers.Manager.SetPeerUp | pkgs/gizclaw/peer_manager.go:343-371 | Keeps the count exact, publishes the client connection, revokes any reservation and returns the connection replaced |
| Managers.Manager.BeginActivation | pkgs/gizclaw/peer_manager.go:381-399 | Keeps the count exact; the attempt holds the reservation afterwards exactly when the entry was neither deleting nor reserved |
| Managers.Manager.FailActivation | pkgs/gizclaw/peer_manager.go:413-423 | Keeps the count exact; clears the reservation only if it is for the same entry and connection |
| Managers.Manager.PublishActivation | pkgs/gizclaw/peer_manager.go:424-449 | Keeps the count exact; succeeds exactly under a reservation for the same entry and connection and not while deleting, and returns the connection replaced |
| Managers.Manager.BeginDeletion | pkgs/gizclaw/peer_manager.go:640-655 | Keeps the count exact; fences the entry exactly when the connection is its current one and it is not fenced yet |
| Managers.Manager.EndDeletion | pkgs/gizclaw/peer_manager.go:657-682 | Keeps the count exact; completes or rolls back only on the same entry object while it is still fenced |
| Managers.Manager.QuiescePeer | pkgs/gizclaw/peer_manager.go:214-238 | Keeps the count exact; fences the entry and revokes its reservation |
| Managers.Manager.DetachPeerConnections | pkgs/gizclaw/peer_manager.go:806-838 | Keeps the count exact; the entry is gone and exactly its connections are returned |
| Managers.Manager.SetPeerDown | pkgs/gizclaw/peer_manager.go:779-797 | Keeps the count exact; nothing changes unless the connection is still the key's own, and then the key has none and its entry stays exactly for a deletion or a reservation |
| Managers.Manager.ForcePeerDown | pkgs/gizclaw/peer_manager.go:847-866 | Keeps the count exact; returns the connection dropped |
| Managers.Manager.RetirePeer | pkgs/gizclaw/peer_manager.go:700-711 | Keeps the count exact; removes the entry if the connection is still the key's own, and changes nothing otherwise |
| Admission.RollKeeps | pkgs/gizclaw/registration_token_security_policy.go:111-123 | A window change and the pruning keep all bounds: what was carried into a window has expired when it ends |
| Admission.FinishKeeps | pkgs/gizclaw/registration_token_security_policy.go:139-160 | Finishing a lookup keeps all bounds |
| Admission.RunBounds | pkgs/gizclaw/registration_token_security_policy.go:111-160 | Over every interleaving with non-decreasing clock readings: failures plus in-flight at most 64, in-flight at most 8, no digest both in flight and cached, at most 128 cached, so the eviction at 1024 is unreachable |
| Admission.WindowBudget | pkgs/gizclaw/registration_token_security_policy.go:111-160 | At most 64 lookups fail in a window, counted from the events alone |
| Admission.TallyExact | pkgs/gizclaw/registration_token_security_policy.go:111-150 | The policy's window and failure counter are those told by the events |
| Admission.BeginsIff | pkgs/gizclaw/registration_token_security_policy.go:111-137 | A lookup starts if and only if its digest is neither in flight nor cached unexpired and both limits have room |
| Admission.CachedUntilExpiry | pkgs/gizclaw/registration_token_security_policy.go:118-127 | A cached failure stays cached and is not looked up until it expires, whatever other lookups do |
| AdmissionStories.InFlightIsTold | pkgs/gizclaw/registration_token_security_policy.go:111-143 | In every run the lookups under way are exactly those that were started, under the stated conditions, and have not finished |
| AdmissionStories.CacheIsTold | pkgs/gizclaw/registration_token_security_policy.go:119-160 | In every run a digest is cached until t exactly when a lookup of it failed for good one second before t and since then no lookup began at t or later and no other one of it failed |
| Admission.TokenPolicy.Prune | pkgs/gizclaw/registration_token_security_policy.go:118-122 | The loop removes exactly the expired digests |
| Admission.TokenPolicy.BeginLookup | pkgs/gizclaw/registration_token_security_policy.go:111-137 | Keeps all bounds; says whether the digest was put in flight |
| Admission.TokenPolicy.FinishLookup | pkgs/gizclaw/registration_token_security_policy.go:139-160 | Keeps all bounds without ever needing an eviction |
| InputPermissions.StepKeeps | pkgs/gizclaw/peer_input_permissions.go:37-98 | Every section keeps: one lookup at a time, every cached or held value traced to a lookup stored under the revision it was read under |
| InputPermissions.OneLookup | pkgs/gizclaw/peer_input_permissions.go:70-83 | At most one lookup is under way in every reachable state |
| InputPermissions.CachedAnswerIsRecent | pkgs/gizclaw/peer_input_permissions.go:60-69 | An answer from the cache comes from a lookup that began at most 7 seconds ago and was stored under an unchanged runtime revision; only its revision may have been advanced since |
| InputPermissions.OwnAnswerIsPrompt | pkgs/gizclaw/peer_input_permissions.go:85-96 | A caller's own answer that does not deny: its lookup ended within 2 seconds, under a runtime revision that is still current, and is cached |
| InputPermissions.AudioIsRecent | pkgs/gizclaw/peer_input_permissions.go:170-181 | The same recency for audio that is let through on a cached decision |
| InputPermissions.NothingAfterStop | pkgs/gizclaw/peer_input_permissions.go:158-168 | After stop nothing is stored or taken from the cache and no audio is let through, over every continuation |
| InputRefreshes.RefreshIsFresh | pkgs/gizclaw/peer_input_permissions.go:55-97 | Over every continuation of the state in which a caller enters with refresh, its answer comes from a lookup kept after that, except exactly when it took the cached value, on looking again, while nothing had been kept since it entered |
| InputRefreshes.TookOldAfterJoining | pkgs/gizclaw/peer_input_permissions.go:70-83 | That happens only after it joined a lookup that is over and was not kept |
| InputRefreshes.RunLatest | pkgs/gizclaw/peer_input_permissions.go:84-97 | The cache holds the result of the last lookup that was kept, and is valid exactly when one was |
| InputRefreshes.AudioPassesIff | pkgs/gizclaw/peer_input_permissions.go:158-181 | Audio passes exactly while the worker is not stopped and no lookup was kept yet or the last one did not deny, began at most 7 seconds ago and stands for the audio's revision |
| InputRefreshes.CheckIff | pkgs/gizclaw/peer_input_permissions.go:60-69 | A cached value is given out exactly when its lookup began at most 7 seconds ago |
| InputRefreshes.RecoveryCarriesOver | pkgs/gizclaw/peer_input_permissions.go:183-193 | A recovery of the same workspace carries an allowing decision over to the current revision, as old as it was, and nothing else |
| InputPermissions.Permissions.LooksUp | pkgs/gizclaw/peer_input_permissions.go:54-84 | Keeps the invariants; the cached value is given exactly when the cache is open, no refresh is asked for and the value has the caller's revision; otherwise the caller joins the lookup under way exactly when there is one, and else makes the only one |
| InputPermissions.Permissions.Keeps | pkgs/gizclaw/peer_input_permissions.go:86-96 | Keeps the invariants; the answer is the value read exactly when the runtime revision is unchanged and the cache open, otherwise a denial |
| InputPermissions.Permissions.Advances | pkgs/gizclaw/peer_input_permissions.go:185-193 | Keeps the invariants and leaves checkedAt alone |
| InputPermissions.Permissions.LetsAudio | pkgs/gizclaw/peer_input_permissions.go:170-181 | Says exactly whether audio is allowed: open, and the decision, if any, is current, not a denial and at most 7 seconds old |
| AudioPacers.Pacer.WaitDuration | pkgs/gizclaw/peer_conn.go:1525-1544 | Over every history of calls the schedule is start + 20k - min(5k, 500) ms for the k-th packet after the start of the current timeline, whatever the clock readings were |
| AudioPacers.LeadIsBounded | pkgs/gizclaw/peer_conn.go:1525-1544 | If waits are honoured, audio sent never leads elapsed time by more than 520 ms |
| AudioPacers.LeadIsReached | pkgs/gizclaw/peer_conn.go:1525-1544 | After 100 packets on time the lead is exactly 520 ms and stays there |
| AudioPacers.LatenessDoesNotShift | pkgs/gizclaw/peer_conn.go:1525-1544 | Deadlines depend on no clock reading but the timeline's first |
| AudioPacers.SinceSilence | pkgs/gizclaw/peer_conn.go:1525-1544 | A timeline begins with the first call or after more than half a second of silence, and holds no such silence after that |
| AudioPacers.DeadlinesAdvance | pkgs/gizclaw/peer_conn.go:1536-1543 | Deadlines are 15 ms apart for 100 packets, then 20 ms |
| OpenAISchemas.FormatTwice | pkgs/genx/openai.go:765-808 | Formatting twice equals formatting once, for every schema |
| OpenAISchemaMeaning.FormatKeepsMeaningIff | pkgs/genx/openai.go:765-808 | Formatting keeps the meaning (an instance satisfies the formatted schema exactly when every object lists exactly its declared properties and, without the nulls at optional properties, it satisfies the original) if and only if the schema passes the guard Safe, for every schema |
| OpenAISchemaMeaning.SafeAgrees | pkgs/genx/openai.go:765-808 | Under the guard both sides agree on every instance, at every node and whether the node is formatted, made nullable or left alone |
| OpenAISchemaMeaning.UnsafeDiffers | pkgs/genx/openai.go:765-808 | Outside the guard there is an instance on which they differ: it is built from the failing node upwards |
| OpenAISchemaMeaning.PlainIsSafe | pkgs/genx/openai.go:765-808 | Schemas with one type besides null at every node pass the guard |
| OpenAISchemaMeaning.MainKept | pkgs/genx/openai.go:770-783 | Formatting goes by the same type whether or not the schema was made nullable |
| OpenAISchemaMeaning.ShownFits | pkgs/genx/openai.go:770-800 | The merged type keywords fit the same instances, plus null for an optional property |
| OpenAISchemaMeaning.OpenDiffers | pkgs/genx/openai.go:785-806 | A node that accepts objects, is not formatted as one and is open or has optional properties accepts an object that is not exact |
| OpenAISchemaMeaning.UntypedOptionalIsUnsafe | pkgs/genx/openai.go:795-802 | An optional property without a type loses its meaning wherever an object is accepted at all |
| OpenAISchemaMeaning.OpenUnderAnotherTypeIsUnsafe | pkgs/genx/openai.go:785-806 | So does an open node that accepts objects under another main type, typed or not |
| OpenAISchemaMeaning.ScalarsAreSafe | pkgs/genx/openai.go:785-806 | Several types do no harm while object and array are not among them |
| OpenAISchemaMeaning.UndeclaredRequired | pkgs/genx/openai.go:791-805 | Nor does a required property that is not declared: no object satisfies either side |

## Left out

- HTTP, RPC and admin handlers, provider adapters, logging and metrics output: request decoding and reporting around the machinery modelled here.
- `bufferStream`, Split, Merge, Tee and usage splitting: adapters that forward chunks between streams and keep no state of their own beyond a queue.
- Slice aliasing through `Buffer.Bytes` and `BlockBuffer.Bytes`, and `BlockBuffer.Discard` and `Reset`: they do not signal and are outside the wake-up theorems.
- The wrap-around of 64-bit counters and IDs: they are unbounded integers here.
- Rings of capacity zero and negative arguments of Discard: the source divides by the capacity and slices with the argument.
- The notify channel of the realtime stream and context cancellation in Push: Next is modelled round by round, at any time the caller comes back.
- RealtimeQueues.RealtimeStream.Push: does not capture that the source writes the timestamp into the producer's own chunk; chunks are values.
- PeerStreamLifecycles.PeerStreamLifecycle.ObservesDelivered: does not capture the modality, class and event-type sets and the other snapshot fields of a turn, which only feed log attributes.
- PeerStreamLifecycles.PeerStreamLifecycle.ObservesProduced: does not capture the modality and source-class sets of a turn, which only feed log attributes.
- PeerStreamLifecycles.PeerStreamLifecycle.ReleaseTurn: deletes from the maps by comprehension, since the order in which a Go map is walked there has no effect.
- Session-level once-only records (accepted, opened, first event): single flags next to the per-turn records.
- Managers.Manager.SetPeerUp: does not capture registrations, event brokers, run status and presence publication, which follow the connection but do not feed back into it.
- Managers.Manager.PublishActivation: does not capture registrations, event brokers and presence; entries are values with an identity number, which the checks compare.
- AudioRoutes.DeviceSeesBrackets: covers what is handed to Broadcast; the subscriber queue behind it may still refuse an event.
- InputPermissions.CachedAnswerIsRecent: measures age at the check; the time between the check and the caller's use is the scheduler's.
- OpenAISchemaMeaning.FormatKeepsMeaningIff: keywords other than type, types, properties, required, items and the closed additionalProperties, and the in-place update of the input schema, are not part of this model.
- The peer event broker, the SFU input access lookup and the refresh worker's ticker: environment of the permission cache.
