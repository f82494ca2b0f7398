# Verified model of the DXR tier 1.1 shim

The repository makes a D3D12 application that needs raytracing tier 1.1 run on a tier 1.0
driver: it wraps the device and the command lists, lowers `RayQuery` to `TraceRay`, follows every
acceleration structure that is built, and patches hit group tables so that hit shaders can answer
`GeometryIndex()`. This project models the parts of it that keep state over unbounded runs, each
against a small picture of D3D12 (queues that run work in order, fences that only rise, lists
that record state and work), and proves what they are for.

| files | what they model |
|---|---|
| `ListState`, `Replay`, `Split`, `SplitMeaning`, `SplitLegal`, `SplitRuns`, `SplitDrawn`, `CommandList`, `DispatchPool` | splitting a command list: the tracked bindings, the replay into a continuation, deferred dispatches, what each piece of work then finds bound, which recordings are allowed, which dispatches are drawn and from what, the submission, the pool of dispatch lists |
| `GpuQueue`, `GpuHold`, `GpuHoldState` | queues and fences; how long a buffer is in use |
| `AsLog`, `AsParse`, `Readback`, `AsTracker`, `AsTrackerState` | the acceleration structure tracker: the pruned log of bottom-level builds, parsing instances, reads that arrive late, on demand or through copies |
| `AsTrackerWorld`, `AsTrackerReads`, `AsTrackerBuilds`, `AsTrackerRuns`, `AsTrackerDecodes`, `AsTrackerBottoms`, `AsTrackerScenes` | its runs: builds, copies, lists, deferred dispatches, decodes and the GPU around it; the invariant, step by step; the theorems over every run |
| `AsTrackerKnown`, `AsTrackerCopies`, `AsTrackerKept`, `AsTrackerLive` | what its runs lead to: what becomes known and when, what a copy is found to be, which builds' instances are kept, which structures are live |
| `RecordTable`, `Labels`, `SceneLabels` | which record a hit lands on, which structures count, when one table can answer |
| `GeomTable`, `GeometryIndex`, `GeometryIndexRuns` | the kernel that writes the labels, the table copy it is part of, and what a hit reads, from the instances of a build to the word a shader loads |
| `AsDecode` | queries about deserialized structures |
| `CountingSort` | the GPU counting sort of the bench |
| `DxilScan` | the container scanner |

Where the source updates state in place the model does too: the classes `CommandList.CommandList`,
`GpuHoldState.State`, `DispatchPool.Submitter`, `AsTrackerState.State` and `AsDecode.Queries` have the
source's fields and loops, and every method is proved to leave exactly the state that a function on
values describes. Over those functions, runs of any length are modelled as sequences of actions, with
what every step keeps and what holds in every state a run reaches.

## What the proofs found

- `FlushQueuedSplit` (`proxy/d3d12_command_list.cpp:1602-1603`) replays the pipeline state after the
  state object. The two share one slot, so a continuation has the application's state back exactly
  when `Replay.PipelineReplays` and `Replay.GraphicsReplays` hold (`Replay.ReplayRestoresExactly`).
  `RestoreComputeAfterCapture` gives it back exactly when there was a compute root signature and a
  pipeline to give back (`Replay.CaptureRestoresExactly`). Over a whole recording
  `SplitMeaning.LostExactly` says at each command what is lost, `SplitMeaning.SplitKeepsRest` that
  nothing else is, and `SplitMeaning.BarrierSeesOldPipeline` is the recording for which the pipeline
  is: a list reset with a pipeline state, then a state object, a queued dispatch and a barrier.
- Deferred dispatches read their arguments as memory was when their run of dispatches started. With
  nothing lost, that is what the recording meant exactly when no queued dispatch writes the arguments
  of a later one of its run (`SplitMeaning.SplitPreservesMeaning`);
  `SplitMeaning.SecondReadsTooEarly` is a recording for which it is not.
- `OMSetBlendFactor` with a null factor is forwarded and not written down
  (`proxy/d3d12_command_list.cpp:417-420`), so after a factor that was set the tracked copy keeps it.
  That is the one setter after which copy and list differ (`ListState.TrackFollows`);
  `ListState.OldFactorKept` is the sequence.
- A dispatch that traces several scenes brings each to its build in turn, and bringing one can move an
  earlier one back to an older build, through a copy made of that build. `AsTracker.AllScenesStay` is
  the exact condition for any number of scenes, `AsTrackerScenes.SecondSceneMovesFirstInARun` a run at
  whose end it fails. The `GeometryIndex()` path looks at all of them again afterwards
  (`proxy/d3d12_command_list.cpp:1759`) and is safe (`AsTrackerScenes.CurrentScenesAreTheirs`); the
  `RayQuery` path (`proxy/d3d12_command_list.cpp:1666-1671`) does not.
- A decode of a deserialized top-level structure that arrives after another build of it
  (`proxy/as_tracker.cpp:896`, `910`) is parsed against the bottom level as of the LATEST build, and
  filed under the old one. It changes nothing that is known (`AsTrackerDecodes.DecodeLate`). The rows
  it files are that build's exactly when each instance's structure looks the same at both
  (`AsTrackerDecodes.LateRowsExactly`), as it does when none was built or copied since
  (`AsTrackerDecodes.LateRowsRight`); `AsTrackerDecodes.LateRowsWrong` is a run for which they are not.
- A `GeometryIndex()` dispatch that is not deferred is served when one of its scenes has been read and
  none that has is stale (`proxy/as_tracker.cpp:1206-1220`). That is all of its scenes at their latest
  builds exactly when each has been read at all (`GeometryIndexRuns.ServedCovers`); one that was built
  before anything was seen is passed over (`GeometryIndexRuns.UnreadSceneIsPassedOver`).
- When the signal after a submission fails, `SubmittedOnce` leaves the uses live, and `AfterSubmit`
  (`proxy/gpu_hold.cpp:121-127`) leaves them unstamped: a list reset after that can forget that the GPU
  still has its buffers to read (`GpuHold.FailedSignalForgets`). The reset leaves `Busy` right about a
  buffer exactly when no unstamped execution of the list still reads it, or another list uses it, or a
  stamp of it has still to pass (`GpuHold.ResetIsSafeExactly`).

## Assumptions

- No API call fails, except that a `Signal` or the creation of its fence may, in the submission hooks of
  the holds, of the tracker and of the decode queries.
- Lists: a list is recorded by one thread; all submissions of one that records a readback go to one
  queue; only state the wrapper tracks is used; the root signature gives each root parameter one type;
  setting a root signature clears the parameters, as the source's comment at
  `proxy/d3d12_command_list.cpp:457-471` takes it; a dispatch has what it needs bound.
- Holds: a list is not reset or destroyed between its `ExecuteCommandLists` and the hook after it, nor,
  after a failed signal in that hook, while an execution of it still reads a buffer that no later stamp
  on that queue covers. After a failed signal in `SubmittedOnce` its one-shot list is not used again.
- Tracker: a structure is not copied onto itself; the call that builds a top-level structure notes its
  instances, or records their copy, before another call builds the same one; instances point at
  bottom-level structures; a decode is of the bytes that were deserialized; between bringing the scenes
  of a dispatch and building its table no other thread builds one of them.
- Addresses of the table kernel stay below 2^32, and strides are multiples of 32 bytes, as D3D12 asks.

## Model

| member | source | states |
|---|---|---|
| ListState.TrackFollows | proxy/d3d12_command_list.cpp:405-565 | after a setter the tracked copy still equals what the list has bound if and only if it was not a null blend factor after one that was set, and then all but the factor does |
| ListState.OldFactorKept | proxy/d3d12_command_list.cpp:417-420 | after a blend factor and then a null one the tracked copy still has the old one and the list has none |
| ListState.UntrackedIsFresh | proxy/d3d12_command_list.cpp:235-265 | a reset list's tracked copy equals a fresh list with its initial pipeline |
| Replay.ReplayBindingsSets | proxy/d3d12_command_list.cpp:47-68 | what replaying heaps, root signature, parameters and state object leaves bound, over any earlier state |
| Replay.ReplayGfxSets | proxy/d3d12_command_list.cpp:78-121 | the same of the graphics state, every field in its order |
| Replay.ReplayRestoresExactly | proxy/d3d12_command_list.cpp:1602-1603 | a continuation has the application's bound state exactly when pipeline and graphics parameters are replayed right |
| Replay.PipelineSlotLost | proxy/d3d12_command_list.cpp:1602-1603 | pipeline state, then state object: after the replay the pipeline state is bound instead |
| Replay.DispatchListBound | proxy/d3d12_command_list.cpp:1793-1801 | a dispatch-only list holds exactly the snapshotted compute bindings |
| Replay.CaptureRestoresExactly | proxy/d3d12_command_list.cpp:1426-1437 | after a capture borrowed the bindings they are back exactly when there was a root signature and a pipeline to give back |
| Split.StepStands | proxy/d3d12_command_list.cpp:1439-1604 | after each recorded command, whatever the replay loses, the split recording stands for the same work and dispatches, work with the state its own list holds |
| Split.SplitRunsHeld | proxy/d3d12_command_list.cpp:1606-1872 | for every recording: the submission runs the same work in the same order, each piece with what its list holds, and the same dispatches with the state the application had bound, arguments read as memory was when their run of dispatches started |
| SplitMeaning.HeldIsMeant | proxy/d3d12_command_list.h:397 | reading arguments late, with the state the lists hold, is what was meant if and only if nothing overwrites them and nothing is marked lost where work is recorded |
| SplitMeaning.LostExactly | proxy/d3d12_command_list.cpp:1560-1604 | for every recording the marks, which follow from its commands, are exact: slot by slot the list holds what the application bound if and only if the slot is not marked |
| SplitMeaning.SplitKeepsRest | proxy/d3d12_command_list.cpp:1606-1872 | for every recording the submission has the same pieces of work and dispatches in the same order, each dispatch with the very state, each piece of work with the state outside what is marked lost |
| SplitMeaning.SplitPreservesMeaning | proxy/d3d12_command_list.cpp:1606-1872 | for every recording: the split submission is the recording, work, arguments, bound state and memory, if and only if no queued dispatch writes a later one's arguments before a barrier and no work is recorded while a slot is marked lost |
| SplitMeaning.SplitSameMemory | proxy/d3d12_command_list.cpp:1606-1872 | where something is lost that the work does not look at, memory and dispatches are still the recording's |
| SplitMeaning.BarrierSeesOldPipeline | proxy/d3d12_command_list.cpp:1602-1603 | a list reset with a pipeline state, a state object, an indirect dispatch and a barrier: the barrier finds the old pipeline state bound |
| SplitMeaning.SecondReadsTooEarly | proxy/d3d12_command_list.cpp:1439-1495 | two indirect dispatches on one argument buffer, the first of which writes it: the second reads what was there before |
| SplitLegal.LoweredHeld | proxy/d3d12_command_list.cpp:425-436 | for every recording the wrapper holds the lowered query of a pipeline state if and only if that carries one and is the one set last, or the one the list was reset with |
| SplitLegal.LegalExactly | proxy/d3d12_command_list.cpp:1439-1558 | which recordings there are, said of the application's calls alone: one more command is allowed if and only if a ray dispatch finds a state object bound, a lowered one a lowered pipeline state, and a setter is one D3D12 takes |
| SplitLegal.OneTypeIsAllowed | proxy/d3d12_command_list.cpp:472-539 | every recording that dispatches with what it needs bound, and never sets one root parameter to constants and to something else, is one that the splitting theorems hold for |
| SplitLegal.LoweredDispatch | proxy/d3d12_command_list.cpp:1497-1534 | a lowered pipeline state and an indirect dispatch: allowed, and the dispatch list has that pipeline bound |
| SplitRuns.SegmentsAreRuns | proxy/d3d12_command_list.cpp:1560-1573 | the segments are as many as the maximal runs of dispatches, and none is empty of dispatches |
| SplitRuns.OneWaitPerRun | proxy/d3d12_command_list.cpp:1620-1634 | a submission waits exactly once for each maximal run of dispatches |
| SplitRuns.StepCounts | proxy/d3d12_command_list.cpp:1480-1494 | one segment closed or open per run so far, one open exactly inside a run |
| CommandList.RecordRoots | proxy/d3d12_command_list.cpp:47-68 | the loop over root parameters records exactly the replay of each that was set |
| CommandList.RecordBindings | proxy/d3d12_command_list.cpp:47-68 | records exactly the replay of the compute bindings |
| CommandList.RecordGfx | proxy/d3d12_command_list.cpp:78-121 | records exactly the replay of the graphics state |
| CommandList.CommandList.Reset | proxy/d3d12_command_list.cpp:235-265 | forgets whatever was split, queued or bound |
| CommandList.CommandList.SetRootSignature | proxy/d3d12_command_list.cpp:457-471 | writes the signature down, forgets its parameters, forwards it |
| CommandList.CommandList.SetRoot | proxy/d3d12_command_list.cpp:472-539 | writes one parameter down, constants into place, and forwards it |
| CommandList.CommandList.CopyConstants | proxy/d3d12_command_list.cpp:480-515 | grows with zeros and overwrites from the offset, nothing else |
| CommandList.CommandList.SetPipelineState | proxy/d3d12_command_list.cpp:425-436 | records the pipeline state as bound last, and holds the lowered query it carries, if any |
| CommandList.CommandList.SetPipelineState1 | proxy/d3d12_command_list.cpp:825-848 | the same for a state object |
| CommandList.CommandList.IASetVertexBuffers | proxy/d3d12_command_list.cpp:544-552 | overwrites the slots there are, views past the last ignored |
| CommandList.CommandList.OMSetRenderTargets | proxy/d3d12_command_list.cpp:554-566 | keeps as many handles as the call has |
| CommandList.CommandList.SetField | proxy/d3d12_command_list.cpp:405-456 | the setters of one field: forwarded, and written down but for a null blend factor |
| CommandList.CommandList.RecordWork | proxy/d3d12_command_list.h:397 | forwarded work passes the barrier first |
| CommandList.CommandList.FlushQueuedSplit | proxy/d3d12_command_list.cpp:1560-1604 | closes the segment with its dispatches and replays the bindings into the next, or does nothing when none is queued |
| CommandList.CommandList.WorkBarrier | proxy/d3d12_command_list.h:397 | ends the run of dispatches before work that must come after them |
| CommandList.CommandList.RestoreComputeAfterCapture | proxy/d3d12_command_list.cpp:1426-1437 | puts the compute bindings back, the pipeline bound last set last |
| CommandList.CommandList.RecordBuild | proxy/d3d12_command_list.cpp:742-804 | a build passes the barrier, and a capture after it leaves the tracked state as it was |
| CommandList.CommandList.QueueSplit | proxy/d3d12_command_list.cpp:1439-1495 | records the argument copy and queues the dispatch with a snapshot of the bindings, closing nothing |
| CommandList.CommandList.QueueIndirectCompute | proxy/d3d12_command_list.cpp:1497-1534 | the same for a lowered compute dispatch, around a capture |
| CommandList.CommandList.QueueStaleCompute | proxy/d3d12_command_list.cpp:1536-1558 | defers a direct dispatch with its own arguments, or refuses one on a scene never seen being built |
| CommandList.CommandList.DispatchStale | proxy/d3d12_command_list.cpp:325-354 | a lowered dispatch on a scene not read: the recording's step when it is deferred, only the barrier when it is refused |
| CommandList.CommandList.QueueStaleRays | proxy/d3d12_command_list.cpp:1322-1350 | the same for a ray dispatch, which also needs a scene |
| CommandList.CommandList.DispatchRaysStale | proxy/d3d12_command_list.cpp:1296-1317 | the recording's step when it is deferred, only the barrier when it is not |
| CommandList.CommandList.Close | proxy/d3d12_command_list.cpp:227-233 | what is still queued ends in a segment of its own |
| CommandList.CommandList.Dispatches | proxy/d3d12_command_list.cpp:1620-1872 | one segment is submitted; if it has dispatches it is waited for once, and each that can be drawn runs with the arguments its copy filled |
| CommandList.CommandList.SubmitSegmented | proxy/d3d12_command_list.cpp:1606-1872 | the whole submission does what the split recording means, dispatches that cannot be drawn left out, with one wait per segment that has dispatches |
| SplitDrawn.DispatchFiled | proxy/d3d12_command_list.cpp:1560-1573 | a dispatch stays behind the segment it was queued in, with the bindings it was recorded with |
| SplitDrawn.DrawnFromItsBuilds | proxy/d3d12_command_list.cpp:1606-1872 | the split and the tracker together, over every recording and every run: at its segment a deferred dispatch is drawn only if its scenes could be brought, with the state the application had bound and, if they were all found current or no chain moves another, each scene from exactly the build it had when it was recorded |
| GpuQueue.PassedMeansRun | proxy/as_tracker.cpp:133-141 | a fence past a value means everything submitted before that signal on its queue has run |
| GpuQueue.RunMeansPassed | proxy/gpu_hold.cpp:57-62 | once a signal has run its fence is past it |
| GpuQueue.SignalValid | proxy/gpu_hold.cpp:44-55 | the next signal keeps values rising and completes nothing by itself |
| GpuHold.EveryRunKeeps | proxy/gpu_hold.cpp:95-149 | over every run of uses, submissions with or without a signal, re-submissions, one-shot lists and resets, each buffer a queue may still read is covered by a stamp or by a live owner |
| GpuHold.BusyIsSafe | proxy/gpu_hold.cpp:151-167 | not busy means no recording that reads the buffer can be submitted any more and every submission of one has finished on its own queue |
| GpuHold.BusyEnds | proxy/gpu_hold.cpp:151-167 | with no such recording left and the queues run dry, it is not busy |
| GpuHold.ResetIsSafeExactly | proxy/gpu_hold.cpp:76-83 | over every run, whatever signals failed: after a reset of a list, not busy still means finished for a buffer if and only if no unstamped execution of the list still reads it, or another list uses it, or a stamp of it has still to pass |
| GpuHold.FailedSignalForgets | proxy/gpu_hold.cpp:106-129 | a run in which the signal fails and a reset then makes a buffer not busy that the GPU has still to read |
| GpuHold.StampingCovers | proxy/gpu_hold.cpp:64-74 | every use of a stamped owner then has a stamp on that queue which cannot be done before all that was submitted there has run |
| GpuHold.StampUsesSucceeds | proxy/gpu_hold.cpp:64-74 | restamping names the same buffers, invents nothing, and loses a stamp only if its fence has passed or the new one is on its queue |
| GpuHold.SweepCarries | proxy/gpu_hold.cpp:85-91 | sweeping drops only stamps whose fence has passed, and invents none |
| GpuHoldState.State.SignalLocked | proxy/gpu_hold.cpp:44-55 | the next value on that queue, and the fence map keeps up with it; 0 and nothing changed exactly when the fence or the signal fails |
| GpuHoldState.State.DoneLocked | proxy/gpu_hold.cpp:57-62 | whether the fence of the stamp's own queue has passed |
| GpuHoldState.State.StampLocked | proxy/gpu_hold.cpp:64-74 | every use gets the new stamp, and one still running elsewhere keeps its old one too |
| GpuHoldState.State.EndLocked | proxy/gpu_hold.cpp:76-83 | the owner's stamps that are not done wait for their fences |
| GpuHoldState.State.SweepLocked | proxy/gpu_hold.cpp:85-91 | keeps exactly the stamps that are not done |
| GpuHoldState.State.Use | proxy/gpu_hold.cpp:95-104 | one use per buffer and owner |
| GpuHoldState.State.AfterSubmit | proxy/gpu_hold.cpp:106-129 | stamps the uses of the submitted lists, or none when the signal fails, then sweeps |
| GpuHoldState.State.SubmittedOnce | proxy/gpu_hold.cpp:131-143 | stamps and ends a one-shot list, or leaves it live when the signal fails |
| GpuHoldState.State.Detach | proxy/gpu_hold.cpp:145-149 | ends the owner |
| GpuHoldState.State.Busy | proxy/gpu_hold.cpp:151-167 | a live owner uses it, or an ended stamp of it is not done |
| DispatchPool.NeverResetWhileRunning | proxy/d3d12_command_list.cpp:1776-1799 | over any number of submissions, the pooled list and allocator about to be reset have run every time they were submitted |
| DispatchPool.FirstFree | proxy/d3d12_command_list.cpp:1776-1799 | the first slot whose recorded value has passed, or a new one |
| DispatchPool.Submitter.RunSegment | proxy/d3d12_command_list.cpp:1620-1634 | a segment has run when its readbacks are read |
| DispatchPool.Submitter.Wait | proxy/d3d12_command_list.cpp:1626-1634 | returns with the fence past the value |
| DispatchPool.Submitter.Dispatch | proxy/d3d12_command_list.cpp:1836-1844 | resets an idle slot, submits it, records the value signalled after it |
| AsLog.BlasAtLocked | proxy/as_tracker.cpp:41-48 | finds the last build in the log recorded before the question |
| AsLog.BlasAtIsLatest | proxy/as_tracker.cpp:38-48 | which is the one with the largest serial below it, and none exactly when all are later |
| AsLog.Prune | proxy/as_tracker.cpp:445-459 | drops exactly what precedes the last entry older than the floor |
| AsLog.PruningIsInvisible | proxy/as_tracker.cpp:445-459 | from the floor on the pruned log answers as the whole one, before it that or nothing |
| AsLog.PruningIsTight | proxy/as_tracker.cpp:445-459 | behind the first entry kept there is none older than the floor |
| AsLog.AppendAndPrune | proxy/as_tracker.cpp:445-459 | one more build, pruned to a floor, keeps every answer asked from there on |
| AsParse.CountRecords | proxy/as_tracker.cpp:170-186 | the largest contribution of an active instance, and one past the last record any occupies |
| AsParse.PlaceInstance | proxy/as_tracker.cpp:247-282 | an instance's geometries go onto its records first come first served, kinds joined, conflict set exactly when a record already has another pair |
| AsParse.ParseLocked | proxy/as_tracker.cpp:149-324 | the whole result: records, constants, conflict, kinds, unknown count, classes, rows |
| AsParse.GeometriesAre | proxy/as_tracker.cpp:157-167 | the records an instance is given are exactly those its geometries land on, as many as its structure was built with and one when that is not known; its row says as many, or none of unknown kind, and where and of what kinds |
| AsParse.ExtentReached | proxy/as_tracker.cpp:170-186 | the record count is one past a record that some active instance ends at, and past those of all; none exactly when none is active |
| AsParse.MaxContributionFound | proxy/as_tracker.cpp:175-176 | the largest contribution is an active instance's, and no active one's is larger |
| AsParse.AnyBitsFound | proxy/as_tracker.cpp:232-242 | a kind of geometry is reported exactly when some active instance's structure has it |
| AsParse.UnknownCounted | proxy/as_tracker.cpp:188-240 | each active instance whose structure is not known is counted, once |
| AsParse.ResolvedIsLatest | proxy/as_tracker.cpp:38-48 | an instance is of its structure's latest build among those recorded before the question, with its own contribution, and inactive without an address |
| AsParse.FirstHitFound | proxy/as_tracker.cpp:255-282 | a record has constants exactly when some instance hits it, and then those of one that does |
| AsParse.HitsBelowExtent | proxy/as_tracker.cpp:177-186 | no hit of an instance lands past the record count |
| AsParse.AgreesWithFirst | proxy/as_tracker.cpp:258-276 | without a conflict every instance that hits a record agrees with its constants |
| AsParse.ConflictsNext | proxy/as_tracker.cpp:258-276 | comparing with what came first finds exactly the pairs of instances that disagree |
| Readback.PassedHasRun | proxy/as_tracker.cpp:645-660 | a stamped read whose fence has passed was executed by the GPU |
| Readback.PassedExactly | proxy/as_tracker.cpp:648-655 | a stamp's fence has passed if and only if the GPU has executed a signal of its value, or a later one, on its queue |
| Readback.WaitedHasRun | proxy/as_tracker.cpp:739-750 | so was one recorded in an earlier recording of a list than the one being split, or in a segment of it that has been waited for |
| Readback.LeaveKeeps | proxy/as_tracker.cpp:617-643 | the hook stamps reads of its own lists only, with a signal after their copies |
| Readback.FindUnstamped | proxy/as_tracker.cpp:623-628 | is there a read to stamp |
| Readback.StampSubmitted | proxy/as_tracker.cpp:636-641 | stamps exactly the unstamped reads of the submitted lists |
| Readback.DropLoop | proxy/as_tracker.cpp:598-606 | drops exactly the reads of that list that were never submitted |
| Readback.NewReadOk | proxy/as_tracker.cpp:580-596 | a copy recorded into the open segment of its list keeps the protocol |
| Readback.ExecKeeps | proxy/d3d12_command_list.cpp:1606-1634 | submitting a segment submits exactly the copies recorded in it, and keeps the protocol of every read |
| AsTracker.SupersessionIsStrictOrder | proxy/as_tracker.cpp:75-109 | irreflexive, asymmetric and transitive |
| AsTracker.LatestIsLive | proxy/as_tracker.cpp:94-109 | the structure built last is live |
| AsTracker.BothStay | proxy/as_tracker.cpp:75-84 | two structures each rebuilt after the other's first build do not supersede one another |
| AsTracker.BringReads | proxy/as_tracker.cpp:723-769 | when it succeeds, exactly the structures down the chain of copies are at the builds along it, and every other is where it was |
| AsTracker.FirstSceneStays | proxy/d3d12_command_list.cpp:1662-1679 | of two scenes brought in turn the first stays at its build if and only if the second's chain does not take it to another |
| AsTracker.AllScenesStay | proxy/d3d12_command_list.cpp:1666-1671 | of any number of scenes brought in turn all end at their builds if and only if the chains, computed before anything is read, leave them there |
| AsTracker.SecondSceneMovesFirst | proxy/d3d12_command_list.cpp:1662-1679 | a sequence of builds and a clone after which it does not stay |
| AsTrackerBuilds.EveryRunKeeps | proxy/as_tracker.cpp:374-769 | the tracker's invariant over every run of builds, copies, reads, lists, deferred dispatches, submissions and top-level decodes |
| AsTrackerRuns.KnownIsItsBuild | proxy/as_tracker.cpp:541-564 | in every reachable state what is known of a structure is the parse of exactly the instances of the build it claims |
| AsTrackerRuns.InstancesAtIsItsBuild | proxy/as_tracker.cpp:1042-1055 | in every reachable state the instances and rows kept of a build are exactly that build's, unless it was decoded late |
| AsTrackerRuns.ReadsSeeTheWholeLog | proxy/as_tracker.cpp:445-459 | in every reachable state a read in flight finds each structure as the unpruned log gives it, and any other question about a bottom-level one finds that or nothing |
| AsTrackerBuilds.FloorIsAsked | proxy/as_tracker.cpp:447-451 | the floor lies at or below everything a pending or coming parse can ask |
| AsTrackerRuns.StampsFollowCopies | proxy/as_tracker.cpp:617-643 | in every reachable state a stamped read's copy precedes its signal on the same queue |
| AsTrackerRuns.HookParsesOnlyWhatRan | proxy/as_tracker.cpp:645-687 | every read the hook parses was executed by the GPU |
| AsTrackerRuns.SplitParsesOnlyWhatRan | proxy/as_tracker.cpp:739-766 | so was every read parsed on demand at a split, of any read the code takes for its own list's |
| AsTrackerReads.SegmentsRan | proxy/d3d12_command_list.cpp:1620-1634 | at the segment of a deferred dispatch, every read its list has of a build no newer than the dispatch was executed: by the order of recording, and of an earlier recording by the one queue |
| AsTrackerReads.SettleKeeps | proxy/as_tracker.cpp:665-678 | a late read, newer or older than what is known, keeps everything known true |
| AsTrackerReads.BringKeeps | proxy/as_tracker.cpp:723-769 | on-demand reads, through any chain of copies, keep everything known true and leave what is known at exactly that build when they succeed |
| AsTrackerBuilds.CopyTopKeeps | proxy/as_tracker.cpp:971-996 | a clone or compaction, known now or through its alias, keeps everything known true, with its build made of what its source's latest is made of |
| AsTrackerBuilds.UnknownCopyKeeps | proxy/as_tracker.cpp:935-983 | a deserialize, or a copy of something unknown, is a new build of which nothing is known, and keeps everything else known true |
| AsTrackerBuilds.BuildBottomKeeps | proxy/as_tracker.cpp:443-459 | pruning while reads are pending or still to come keeps every question they can ask answered as the whole log would |
| AsTrackerBuilds.ReadNowKeeps | proxy/as_tracker.cpp:541-564 | instances read at once make what is known the latest build |
| AsTrackerRuns.RunRemembers | proxy/as_tracker.cpp:20-29 | no run changes what a build was made of or how its instances look in the log |
| AsTrackerRuns.DeferredDrawsItsBuild | proxy/d3d12_command_list.cpp:1536-1558 | a dispatch recorded on a scene, deferred, and brought when its segment is done, whatever was built, copied, decoded or read since, is not drawn, or drawn from exactly the instances of the build that was latest when it was recorded |
| AsTrackerDecodes.BuiltAgainStays | proxy/as_tracker.cpp:771-779 | over every run, once a structure was built again an outstanding decode of it stays of an older build |
| AsTrackerDecodes.DecodeInTime | proxy/as_tracker.cpp:882-907 | over every run a decode of the latest build makes exactly that build known: its instances against the bottom level as it was when it was deserialized, and nothing else changes |
| AsTrackerDecodes.DecodeLate | proxy/as_tracker.cpp:908-912 | over every run a decode after the structure was built again changes nothing known, nor which structures are current or live |
| AsTrackerDecodes.LateRowsExactly | proxy/as_tracker.cpp:896-912 | the rows a late decode files are those of the build it files them under if and only if each instance's structure has the same kind and geometry count, or is as unknown, at both |
| AsTrackerDecodes.LateRowsRight | proxy/as_tracker.cpp:896-912 | which over every run they are when none of those structures was built or copied since |
| AsTrackerDecodes.LateRowsWrong | proxy/as_tracker.cpp:896-912 | a run after which a late decode files a row of two geometries for an instance of one |
| AsTrackerBottoms.DecodeSaysNoOther | proxy/as_tracker.cpp:817-880 | over every run: decoding a bottom-level structure and reading again every kept read that met something unknown leaves each kept row that of its instance, or empty where the log was pruned; what is known of a structure says of each instance of its build what it is or nothing, and where nothing is unknown it is exactly the build |
| AsTrackerBottoms.DecodeMakesKnown | proxy/as_tracker.cpp:855-875 | over every run: a structure known at a build whose kept read met something unknown is known, after a bottom-level decode, as exactly its build, wherever the log still has its instances' structures; builds decoded late apart |
| AsTrackerBottoms.DeserializeAndDecodeIsBuild | proxy/as_tracker.cpp:835-853 | a deserialize over what was no top-level structure and its decode as a bottom-level one come to a build of that structure, and leave no top-level build of it |
| AsTrackerKnown.HookKnowsTheNewest | proxy/as_tracker.cpp:645-687 | after the hook each structure is known at the newest build of the one it was known at and those of its reads that are past their fences, and exactly the other reads are still to come |
| AsTrackerKnown.HookStamps | proxy/as_tracker.cpp:623-643 | with a signal every unstamped read of the submitted lists gets their queue and the value just signalled there, last; no other read changes |
| AsTrackerKnown.StampedReadBecomesKnown | proxy/as_tracker.cpp:617-688 | over every run: once the GPU has executed its signal, a stamped read is done with by the next hook, and its structure is known at its build or a newer one |
| AsTrackerKnown.RecordedIsPending | proxy/as_tracker.cpp:580-596 | a recorded copy is one more read to come, of the latest build and as of its place in the log, in the segment its list is recording |
| AsTrackerKnown.ReadNowIsCurrent | proxy/as_tracker.cpp:541-564 | instances read at once make the latest build known, and move no other structure |
| AsTrackerKnown.BringSucceedsExactly | proxy/as_tracker.cpp:723-769 | a build can be had if and only if, over the tables before the call, the copies lead at most eight deep to a build that is known or to one whose first read was recorded by the list being split or is past its fence; when it cannot, nothing changes |
| AsTrackerKnown.BringTakesOneRead | proxy/as_tracker.cpp:752-766 | when a build is had, one read of the last build of the chain is done with, unless that one was known, and no other |
| AsTrackerKnown.ReadUnbuilt | proxy/as_tracker.cpp:541-564 | of a structure never seen being built there is then a parse, against its place in the log or else now, and no build, so it is never current |
| AsTrackerKnown.CopyIsKnownAsItsSource | proxy/as_tracker.cpp:971-996 | a clone or compaction of a top-level structure is known at its latest build exactly when its source is, and as the same, and otherwise leads to its source's; a copy of what is not known is not known |
| AsTrackerCopies.CopyIsFoundAsItsSource | proxy/as_tracker.cpp:958-969 | over every run: a clone or compaction is found to have its source's kind and geometry count; of a top-level structure it leaves the log alone; any other copy is found unknown, with no geometries; all else is found as before |
| AsTrackerCopies.BuildIsFound | proxy/as_tracker.cpp:443-459 | over every run a bottom-level build is found as what it was built with, and all else as before |
| AsTrackerCopies.DeserializedIsFoundUnknown | proxy/as_tracker.cpp:935-957 | over every run a deserialized structure is found unknown, with no geometries, is the latest build, and is not known; all else is found as before |
| AsTrackerCopies.DecodeErases | proxy/as_tracker.cpp:886-895 | a top-level decode takes exactly the deserialize's entry out of the logs |
| AsTrackerKept.RememberKeepsNewest | proxy/as_tracker.cpp:507-524 | of the builds that were kept and the one just read the newest eight are, in order, each once |
| AsTrackerKept.NewestEightStay | proxy/as_tracker.cpp:507-524 | over every run at most eight builds are kept of a structure, in order, and one that was kept is until eight newer ones are |
| AsTrackerKept.HookKeeps | proxy/as_tracker.cpp:665-678 | over every run each read the hook finds done is kept, newer or older than what is known, or eight newer ones are |
| AsTrackerKept.CopyIsKept | proxy/as_tracker.cpp:526-539 | a copy's build is kept with its source's instances and rows, or eight newer ones are |
| AsTrackerLive.SerialsCountBuilds | proxy/as_tracker.cpp:383-388 | over every run the first and last serial and the count of a structure are the places and the number of its builds among all there were |
| AsTrackerLive.LiveExactly | proxy/as_tracker.cpp:75-109 | over every run a structure that was built is live if and only if it is among the last 65 builds and no structure that has been read was built four times or more, all of them after it |
| AsTrackerBuilds.DeserializeTopKeeps | proxy/as_tracker.cpp:935-957 | a deserialize of a top-level structure, unknown until decoded, keeps everything else known true |
| AsTrackerScenes.CurrentScenesAreTheirs | proxy/d3d12_command_list.cpp:1754-1769 | over every run: a deferred dispatch on any number of scenes that finds them all current after bringing them draws each from exactly its own build |
| AsTrackerScenes.SecondSceneMovesFirstInARun | proxy/d3d12_command_list.cpp:1666-1671 | a run of builds, a clone, a deferred dispatch and its submission after which bringing the second scene moves the first back |
| AsTrackerRuns.ReachableSerials | proxy/as_tracker.cpp:384-388 | in every reachable state first and last builds are in order, as supersession needs |
| AsTrackerState.InfoOf | proxy/as_tracker.cpp:422-440 | the kind is mixed, procedural, triangles or unknown exactly by which descriptions there are |
| AsTrackerState.State.CurrentLocked | proxy/as_tracker.cpp:67-73 | was it read from its latest build |
| AsTrackerState.State.LiveLocked | proxy/as_tracker.cpp:93-109 | inside the window and not superseded by anything that was read |
| AsTrackerState.State.Counted | proxy/as_tracker.cpp:87-91 | what is known of exactly the named structures, or of every live one |
| AsTrackerState.State.TableWouldBeWrong | proxy/as_tracker.cpp:1085-1156 | no refusal exactly when every structure that counts is known, answers for itself and agrees with every other |
| AsTrackerState.State.FindFloor | proxy/as_tracker.cpp:446-451 | the lowest question a pending read or an unread structure can ask |
| AsTrackerState.State.NoteBottom | proxy/as_tracker.cpp:443-459 | the log with the new build, pruned to that floor |
| AsTrackerState.State.NoteTop | proxy/as_tracker.cpp:383-388 | both serials, the first build and the count |
| AsTrackerState.State.ParseLocked | proxy/as_tracker.cpp:149-324 | each instance's structure as of then, and the records they make |
| AsTrackerState.State.RememberLocked | proxy/as_tracker.cpp:507-524 | the last eight builds read, in order, each once |
| AsTrackerState.State.RememberCopyLocked | proxy/as_tracker.cpp:526-539 | the source's entry as the copy's |
| AsTrackerState.State.NoteInstances | proxy/as_tracker.cpp:541-552 | what is known becomes the latest build; of a structure never seen built only the parse is kept |
| AsTrackerState.State.NoteEmpty | proxy/as_tracker.cpp:554-564 | the same of a build without instances |
| AsTrackerState.State.NotePendingInstances | proxy/as_tracker.cpp:580-596 | a read of the latest build, as of its place in the log |
| AsTrackerState.State.DropUnsubmitted | proxy/as_tracker.cpp:598-606 | reads of a reset list that never went out are gone, others stay |
| AsTrackerState.State.AfterSubmit | proxy/as_tracker.cpp:617-688 | stamps, then parses what the GPU is past, an older read never replacing a newer one; `AsTrackerKnown.HookKnowsTheNewest` says what is known then |
| AsTrackerState.State.BringToBuildLocked | proxy/as_tracker.cpp:723-769 | the alias chain up to eight deep, else the first read of that build if it has run; `AsTrackerKnown.BringSucceedsExactly` says when it succeeds |
| AsTrackerState.State.ApplyDecodedTop | proxy/as_tracker.cpp:882-912 | the log entry of the deserialize erased, then the decoded instances known or only filed |
| AsTrackerState.State.ApplyDecodedBottom | proxy/as_tracker.cpp:817-880 | the log entry of the deserialize filled in, a build that was none forgotten, every kept read that met something unknown parsed again |
| AsTrackerState.State.GeometryLabels | proxy/as_tracker.cpp:1198-1231 | over the structures that count, bound or live: -1 exactly where nothing of theirs lands, the geometry where all hits agree, -2 exactly where two differ; and whether any counted or was stale |
| AsTrackerState.State.PairClasses | proxy/as_tracker.cpp:1233-1267 | over the same structures: pairs share an id exactly when they put every hit on the same record below the limit or past it; -1 exactly when none lands below; ids dense from 0 in order |
| AsTrackerState.State.UnknownBlas | proxy/as_tracker.cpp:999-1008 | some structure that counts has an instance of unknown geometry |
| AsTrackerState.State.CopyStructure | proxy/as_tracker.cpp:918-997 | every mode of `NoteCopy`, with its cases in order; `AsTrackerCopies.CopyIsFoundAsItsSource` and `AsTrackerKnown.CopyIsKnownAsItsSource` say what the copy is |
| AsTrackerState.FindReadIs | proxy/as_tracker.cpp:739-741 | the first read of a build is the one the loop stops at |
| RecordTable.TableWouldBeWrong | proxy/as_tracker.cpp:1085-1156 | refuses exactly for an unknown structure, a conflict of one structure or a disagreement of two, and says which |
| RecordTable.Merge | proxy/as_tracker.cpp:1112-1156 | stops exactly at a disagreement with what is merged so far |
| RecordTable.CrossNext | proxy/as_tracker.cpp:1117-1124 | comparing with the merged records finds exactly the disagreements with any earlier structure |
| RecordTable.RecordConstantsTable | proxy/as_tracker.cpp:1184-1196 | first come first served per record, sized to the largest |
| RecordTable.RefusesExactly | proxy/as_tracker.cpp:1085-1156 | with nothing unknown, refused if and only if no map from record to (geometry, contribution) answers every hit; otherwise the table is such a map |
| RecordTable.KindsWouldBeWrong | proxy/as_tracker.cpp:1158-1181 | for a procedural shader, refuses exactly when one structure has both kinds on one record |
| RecordTable.KindsRefuseExactly | proxy/as_tracker.cpp:1166-1179 | which is when two of its instances bring the two kinds to one record |
| Labels.LabelPairs | proxy/as_tracker.cpp:1221-1228 | the innermost loop folds one geometry's hits into the labels |
| Labels.GeometryLabels | proxy/as_tracker.cpp:1213-1229 | the loop over scenes, classes, geometries and arguments labels each record rightly for all hits of those that count |
| SceneLabels.UnresolvedAnswersAll | proxy/as_tracker.cpp:1198-1231 | labels made from every live structure, with no record shared, are right for the hits of any scenes that are live |
| Labels.ParsedHits | proxy/as_tracker.cpp:226-264 | the classes of a parse stand for exactly the hits of its instances: geometry g on record r, by the DXR formula, for some instance and trace arguments |
| Labels.OrderDoesNotMatter | proxy/as_tracker.cpp:1198-1231 | the labels depend on which scenes and arguments there are, not on their order or number |
| Labels.Sign | proxy/as_tracker.cpp:1251-1259 | the signature of a pair, and whether any of its hits is below the limit |
| Labels.SameSignature | proxy/as_tracker.cpp:1233-1267 | equal signatures exactly when every hit is on the same record below the limit or past it in both |
| Labels.PairClasses | proxy/as_tracker.cpp:1242-1266 | ids of pairs over the classes of the scenes that count: equal exactly when every hit is on the same record, dense, in order |
| GeomTable.CopyRecord | proxy/geom_table_cs.h:84-119 | the first loop stores the record's words and then zeros, address by address |
| GeomTable.SameIdentifier | proxy/geom_table_cs.h:134-159 | the flag over eight words is equality of the shader identifier |
| GeomTable.LabelRecord | proxy/geom_table_cs.h:165-177 | the label from the record's place in the metadata goes to the group's offset |
| GeomTable.Thread | proxy/geom_table_cs.h:73-189 | one thread makes exactly its own record's stores, none past the last record |
| GeomTable.FirstMatch | proxy/geom_table_cs.h:127-182 | the first group whose identifier the record carries, or none |
| GeomTable.AnyOrder | proxy/geom_table_cs.h:73-189 | however threads interleave store by store, each record ends as the application's words, zeros, and the label word of the first match |
| GeomTable.BuildMeta | proxy/geom_index_so.cpp:2245-2254 | identifiers and offsets per group, then a label per record, negative ones as 0 |
| GeomTable.HitReadsItsGeometry | proxy/geom_table_cs.h:73-189 | with right labels a hit of geometry g on a record with an extended group's identifier reads back g, in whatever order the threads ran |
| GeomTable.FirstMatchMeans | proxy/geom_table_cs.h:134-159 | a match is equality of the record's first eight words with the group's identifier |
| GeometryIndex.RecordTable | proxy/geom_index_so.cpp:2159-2257 | unchanged exactly for no records; refused exactly for unread trace arguments, stride 0, or scenes unread, stale or of unknown geometry; shared only when two geometries of the scenes reach one record; else a copy wide enough, with a right label for every record |
| GeometryIndex.InstanceReadsItsGeometry | proxy/geom_index_so.cpp:2159-2257 | end to end for a scene: a hit on geometry g of one of its instances, placed by the DXR formula, reads g through the table copy |
| GeometryIndexRuns.DeferredHitReadsItsGeometry | proxy/d3d12_command_list.cpp:1750-1872 | end to end over every run: take an instance description of the build that was its scene's latest when the dispatch was recorded, and a geometry g of the last build of its structure recorded before that; when the deferred dispatch is drawn, a hit on g, on the record the DXR formula gives, reads g |
| GeometryIndexRuns.ServedCovers | proxy/as_tracker.cpp:1206-1220 | over every run a dispatch served at once has all its scenes at their latest builds if and only if all of them have been read at all |
| GeometryIndexRuns.UnreadSceneIsPassedOver | proxy/d3d12_command_list.cpp:1312-1319 | a run after which a dispatch on a read scene and one built before anything was seen is served, with nothing landing anywhere for the second |
| AsDecode.LiveSlotsApart | proxy/as_decode.cpp:93-118 | over every run live queries have slots that do not overlap and lie inside their buffers |
| AsDecode.BringTakesOnceAndRun | proxy/as_decode.cpp:170-189 | over every run `Bring` takes each query at most once, and only after the GPU has executed it |
| AsDecode.BringTakesExactly | proxy/as_decode.cpp:170-189 | over every run `Bring` takes a query if and only if its list recorded it in a segment waited for and no submission stamped it, or the GPU has executed the signal of its stamp or a later one |
| AsDecode.EveryRunKeeps | proxy/as_decode.cpp:93-189 | the invariant behind both: no slot is ever given out twice |
| AsDecode.Queries.TakeSlot | proxy/as_decode.cpp:101-118 | the next slot of the buffer, or the first of a new one |
| AsDecode.Queries.AfterSubmit | proxy/as_decode.cpp:139-159 | stamps exactly the queries of the submitted lists |
| AsDecode.Queries.DropUnsubmitted | proxy/as_decode.cpp:161-168 | drops exactly those never submitted of that list |
| AsDecode.Queries.Bring | proxy/as_decode.cpp:170-189 | parts the queries into those that have run and those that have not, in order |
| AsDecode.PickFound | proxy/as_decode.cpp:179-187 | each query is on one side: with those that have run if its list recorded it, unstamped, in a segment waited for, or its fence has passed |
| CountingSort.Clear | bench/sertest.cpp:145-148 | every count is 0 |
| CountingSort.Rec | bench/sertest.cpp:133-142 | in any order of rays every hit is kept and each key's count is its number of rays |
| CountingSort.Scan | bench/sertest.cpp:149-152 | the second half holds where each key starts, the first half unchanged |
| CountingSort.Scatter | bench/sertest.cpp:153-159 | for every interleaving of atomic adds and stores the order is a permutation of all rays with nondecreasing keys |
| CountingSort.ClaimKeeps | bench/sertest.cpp:157 | an atomic add hands out a slot no other ray has, inside its key's part |
| CountingSort.AllFilled | bench/sertest.cpp:153-159 | distinct slots for all rays leave none empty |
| CountingSort.FilledSorts | bench/sertest.cpp:153-159 | every ray in its slot is a sort |
| CountingSort.Shade | bench/sertest.cpp:160-171 | through the order or not, every ray gets its own colour |
| CountingSort.Plain | bench/sertest.cpp:125-131 | every ray shaded where it hits |
| CountingSort.Reordered | bench/sertest.cpp:465-482 | the passes together draw what plain tracing draws, and their order is a sort |
| CountingSort.Check | bench/sertest.cpp:532-541 | the oracle finds nothing wrong exactly when the order is a permutation with nondecreasing keys |
| CountingSort.BuildScene | bench/sertest.cpp:288-320 | every quad is in the vertex buffer once, each material's quads exactly in its geometry's stretch |
| CountingSort.CountMaterials | bench/sertest.cpp:290-295 | how many quads each material has |
| DxilScan.FeatureFlags | proxy/dxil_scan.cpp:26-50 | on any bytes the scan ends inside them with the flags of the first feature part, or 0 |
| DxilScan.ScanFindsFirst | proxy/dxil_scan.cpp:38-49 | the first feature part the table points at decides |
| DxilScan.RoundTrip | proxy/dxil_scan.cpp:26-50 | scanning a container built of any parts gives the flags of its first SFI0 part |
| DxilScan.UsesRayQuery | proxy/dxil_scan.cpp:52-55 | the tier 1.1 bit of those flags |
| DxilScan.DecodeEncode | proxy/dxil_scan.cpp:11-21 | little-endian numbers read back |

## Left out

- AsTrackerBottoms.DecodeSaysNoOther: here and in `AsTrackerBottoms.DecodeMakesKnown` the decode is applied to any state a run reaches; it is not itself an action of the runs, in which a deserialized bottom-level structure stays unknown.
- AsTrackerRuns.DeferredDrawsItsBuild: the rest of a pending dispatch (scene resolution, the variant layout) is one step.
- CommandList.CommandList.SubmitSegmented: which dispatches cannot be drawn is a parameter; `SplitDrawn.DrawnFromItsBuilds` ties it to the tracker, and that a table can still be refused is left open there.
- Replay.ReplayRestoresExactly: setting the same root signature again is taken to clear the parameters.
- GpuHold.BusyIsSafe: the environment variable that makes `Busy` answer false for a churn experiment is not modelled.
- CountingSort.Rec: a ray's store and its atomic add are one step, as they touch nothing in common.
- CountingSort.Shade: colours and hit records are opaque values; no floating point.
- AsParse.ParseLocked: the texts that say why something was refused are not modelled.
- The command list state that is not tracked: stream output, predication, sample positions, shading rate, `SetProgram`, `ClearState`, bundles.
- Instance snapshots, `WantInstances`, `AwaitsDecode`, `RecordKinds`, statistics, logging and the list of what is live in words.
- `geom_index_so.cpp` beyond `RecordTable`: scene resolution, the pipelines, the variant layout.
- The decode itself in `as_decode.cpp` after the queries are parted, and API failures there.
- COM plumbing, the device and queue wrappers, shader lowering, resource creation, the other benches: delegation, nothing to prove.
