# Verification of the Photonic isochronous capture driver and its fake camera

The driver streams frames of an IEEE 1394 camera straight into the consumer's pages. A small
pool of descriptors carries consumer buffers to the bus driver and back; pump laps, attach and
detach completions, the bus driver's frame callback, the quiesce, the control work item and
start and stop race over that pool, two lists, one spinlock and one counter. This project
models that engine, the IOCTL ring that feeds it, the request handshake underneath it, the
Format 7 negotiation with the camera, and the camera's transmitter, and proves what they
promise.

## How it is organised

| file | what it holds |
|---|---|
| EngineModel.dfy | the engine as a transition system: one step is one hold of the engine spinlock, one call to the bus driver, one front-end callback or one event of the bus driver; schedules interleave any activations in any order |
| EngineInvariant.dfy | the bus driver's protocol monitor, which reads only the log of requests, and the inductive invariant |
| EngineCore.dfy, EnginePlane.dfy, EngineControl.dfy | every step keeps the invariant, so every schedule does, for every pool size |
| EngineTheorems.dfy | exactly-once delivery, the pump election, bus ordering, the quarantine, the settled engine, the two passes |
| EngineFlows.dfy, EngineRecord.dfy | what each step does to buffers and takes back from nobody |
| EngineOutcome.dfy | a frame is delivered full exactly when its DMA succeeded |
| EngineAnnounce.dfy, EnginePumpCalls.dfy | the first attach of a live engine is announced; every completed detach pumps again |
| EngineDrain.dfy | why the drain and the wait for the pump end |
| EngineWitness.dfy | what goes wrong when ISOCH_STOP returns too early |
| CaptureEngine.dfy | the engine as the driver writes it: an object whose routines update its fields in place, each hold proved to be its step of the transition system, with pump, quiesce and release as loops among which everything else interleaves |
| CaptureSession.dfy | start, stop, shutdown, control work item and release retry around the engine |
| Ring.dfy, RingFront.dfy | the IOCTL ring: slot ownership as a specification, and the array of slots and the event list changed in place |
| RingEngine.dfy, RingSystem.dfy | the ring plugged into the engine through acquire and deliver |
| IrbHandshake.dfy, BusAccess.dfy | the abandon handshake of one synchronous request, any number at once; the transfer built on it; device-supplied pointers |
| PacketSearch.dfy, Format7.dfy | the driver's packet-size search, the camera's Format 7 registers and stream geometry, and their agreement |
| ModeTable.dfy | the table of video modes for arbitrary camera answers, and the current selection |
| Chunks.dfy | how a frame is cut into descriptors |
| Transmit.dfy | the camera's refill ring and chunked submits |
| WorkItem.dfy | the coalescing of the control work item |
| Arithmetic.dfy | quotients and remainders |

`dafny verify dfyconfig.toml` checks the whole project.

## What is assumed of the environment

These are the guards of the bus driver's steps in EngineModel.dfy.

- A frame callback is entered at most once for one attach, not before the attach was submitted
  and not after its detach completed. A detach does not complete while its buffer's callback is
  being entered.
- An attach whose frame callback was entered does not fail.
- ISOCH_STOP returns only when the frame callbacks already entered have run, and none is
  entered afterwards. The driver ignores the status of the stop and needs this:
  EngineWitness.StopMustWait gives a schedule that settles with a detach still to come when the
  stop returns earlier.
- InterfaceMutex admits one control transition at a time.
- For the termination of the waits: what a completion routine, the pump runner or the bus
  driver owes happens eventually, and only finitely many other steps come in between.

Where the text and the code of the repository differ, the code is followed: a failed attach
does not pump again; rejected buffers use up iterations of a lap; a start whose retried free
again does not reach the bus driver goes on when nothing is quarantined.

Two things one could expect of the code do not always hold, and the exact conditions are proved.
The shortest and longest frame interval of a Format 7 mode are in order unless the camera
reports a unit above its maximum and neither rounding nor saturation hides it
(ModeTable.IntervalsOrdered, with ModeTable.InvertedEntry a camera that gets inverted bounds
into the table). A chunk stays within the host's buffer limit wherever it starts exactly when
the chunk size and the whole pages of the limit leave room for the worst start
(Chunks.FitsHostExactly); whole-page limits above one page always do (Chunks.ChunkFitsMdl), a
limit of one page or of an odd size may not (Chunks.LimitsOverrun).

## Model

| member | source | states |
|---|---|---|
| EngineControl.StepInv | photonic/capture.h:272-307 | every enabled step keeps the whole invariant: each descriptor in the one place its state says, at most one request per shared IRP, the in-flight count equal to requests at the bus plus commitments and tails that have not dropped or handed on their count |
| EngineControl.RunInv | photonic/capture.h:136-189 | the invariant holds after every schedule, for every pool size |
| EngineInvariant.InitInv | photonic/capture/capture.c:45-84 | a created engine satisfies the invariant |
| EngineTheorems.ExactlyOnce | photonic/capture/pump.c:88-134 | over every schedule no buffer is delivered twice or under another cookie, one delivered full had its DMA completed without error, and acquired buffers are exactly the delivered ones plus those held by a descriptor, a completion, a lap or a release, disjointly |
| EngineOutcome.DeliveredFull | photonic/capture/pump.c:88-223 | over every schedule a buffer is delivered full exactly when the bus driver entered its frame callback with success, save that a release delivers what it takes out of the quarantine as cancelled |
| EngineOutcome.TailFull | photonic/capture/pump.c:88-120 | over every schedule a buffer at a completion tail is full, and the completion of a claimed descriptor a success, exactly when its DMA succeeded; one whose callback was not entered has no success yet |
| EngineOutcome.GoodMeans | photonic/capture/pump.c:184-202 | the set of good buffers is exactly that of the successful frame callbacks of the schedule |
| EngineTheorems.PumpElection | photonic/capture/pump.c:521-555 | at most one runner executes laps, and a pump call not yet followed by the start of a lap has one coming; an idle pump has answered every call |
| EnginePumpCalls.CallsConserved | photonic/capture/pump.c:116-133 | over every schedule the pump calls from outside plus the detaches completed with success are exactly the calls that reached the election, are on their way to it, or follow a delivery still to be made |
| EnginePumpCalls.AllAnswered | photonic/capture/pump.c:521-555 | once no delivery, call or runner is under way, each of them has been followed by the start of a lap |
| EngineAnnounce.FirstAttachSeen | photonic/capture/pump.c:307-338 | over every schedule a live engine with a Pending descriptor has signalled its first attach or has a completion on its way to signal it |
| EngineTheorems.OthersKeepRunner | photonic/capture/pump.c:433-519 | only the elected runner moves its own program point |
| EngineTheorems.AttachInAcquireOrder | photonic/capture/pump.c:433-519 | attach requests reach the bus in the order the buffers were acquired |
| EngineTheorems.BusOrdering | photonic/capture/teardown.c:105-190 | over every run an incomplete buffer is detached only after ISOCH_STOP of that session, resources are freed and sessions opened only with no descriptor attaching, attached or detaching, attaches go out on released descriptors only, and a listen only on a running context |
| EngineTheorems.MonitorMeaning | photonic/capture/resource.c:231-271 | the protocol monitor's state is what the log of requests says, read back independently |
| EngineTheorems.FailedFreeDooms | photonic/capture/resource.c:196-250 | a resource free that reached the bus driver and failed leaves every quarantined read without a free that could still flush it |
| EngineTheorems.QuarantineForever | photonic/capture/capture.c:86-176 | from then on, whatever is scheduled, the read is never delivered, the engine never opens a session again and still holds a quarantined descriptor |
| EngineTheorems.QuarantineExit | photonic/capture/teardown.c:224-258 | a quarantined descriptor keeps its state and buffer under every step but the release scan that follows a resource free that was the last thing the bus driver saw and succeeded |
| EngineTheorems.SettledEngine | photonic/capture/teardown.c:86-206 | a drained engine at rest has nothing in flight, nothing pending, a pump that holds nothing, and every descriptor free on the free list or quarantined off it |
| EngineTheorems.TwoPasses | photonic/capture/teardown.c:127-190 | the outer loop of the quiesce is in its first or second pass, for any pool size and interleaving |
| EngineTheorems.InterferenceRank | photonic/capture/pump.c:298-314 | while draining, each bus completion lowers the summed rank of the descriptors and nothing outside the control context raises it |
| EngineTheorems.DrainBudget | photonic/capture/teardown.c:157-177 | while the control context waits, at most three bus completions per descriptor take effect, whatever else interleaves |
| EngineDrain.OwedFalls | photonic/capture/pump.c:41-134 | every step a completion, the pump runner or the bus driver owes uses up weight, whatever status or buffer it comes with |
| EngineDrain.DrainProgress | photonic/capture/teardown.c:157-177 | as long as the in-flight count is not zero some owed step is enabled and brings the drain nearer to its end |
| EngineDrain.RunnerProgress | photonic/capture/teardown.c:42-70 | the pump runner of a draining engine can always move and comes nearer to leaving |
| EngineWitness.StopMustWait | photonic/capture/resource.c:161-180 | a schedule that ends settled with one request in flight if ISOCH_STOP returns while a frame callback is still being entered |
| CaptureEngine.RemoveEntry | photonic/capture/teardown.c:143-144 | unlinks the entry and keeps the order of the others |
| CaptureEngine.FindPending | photonic/capture/teardown.c:139-150 | finds the first Pending entry of the list or that there is none |
| CaptureEngine.Capture.constructor | photonic/capture/capture.c:45-84 | a new engine is the initial state of the transition system |
| CaptureEngine.Capture.IsochCallback | photonic/capture/pump.c:172-223 | a Pending descriptor leaves the list for its detach with the status the bus driver wrote and is counted, an Attaching one is left to the attach completion, any other keeps its state; no other descriptor changes; it is the frame-callback step |
| CaptureEngine.Capture.AttachComplete | photonic/capture/pump.c:243-339 | a failed attach frees the descriptor and fails its buffer with the status of the bus driver; one whose frame is in goes on to its detach with the status the bus driver wrote; any other is published, and announced when live; it is the attach-completion step |
| CaptureEngine.Capture.DetachComplete | photonic/capture/pump.c:88-134 | a success frees the descriptor and leaves its buffer to be delivered, full exactly when its completion is a success, with a pump call to follow; a failure quarantines it with buffer and cookie; it is the detach-completion step |
| CaptureEngine.Capture.SubmitDetach | photonic/capture/pump.c:149-157 | submits the detach of a claimed descriptor, once |
| CaptureEngine.Capture.DeliverTail | photonic/capture/pump.c:116-133 | hands the front-end the buffer with the cookie and status its completion carries; after a detach a pump call follows |
| CaptureEngine.Capture.SignalFirstAttach | photonic/capture/pump.c:327-338 | signals the first attach |
| CaptureEngine.Capture.IrpDone | photonic/capture/pump.c:41-45 | drops one unit of the count that a finished tail still held |
| CaptureEngine.Capture.EnterPump | photonic/capture/pump.c:521-538 | the caller is elected exactly when nobody was; otherwise another lap is asked for |
| CaptureEngine.Capture.PumpLap | photonic/capture/pump.c:433-519 | whatever interleaves, the lap takes the front-end's buffers in the order offered until it has none, the pool is passed or the pump finds the engine draining or no descriptor free; every buffer that fits is submitted to the bus driver, but for one cancelled because the engine drains; it ends at its end point |
| CaptureEngine.Capture.Refill | photonic/capture/pump.c:439-518 | one iteration: a buffer that fits is attached or, when draining, handed back cancelled; one too small is handed back at once; none is taken without a descriptor |
| CaptureEngine.Capture.Pump | photonic/capture/pump.c:521-555 | terminates under any finite interference; when it leaves, every call that reached the election has been followed by the start of a lap |
| CaptureEngine.Capture.ClaimAll | photonic/capture/teardown.c:128-155 | the claim loop ends, whatever interleaves, with no Pending descriptor left at its last look |
| CaptureEngine.Capture.WaitDrained | photonic/capture/teardown.c:167-178 | the drain wait ends |
| CaptureEngine.Capture.WaitPumpIdle | photonic/capture/teardown.c:42-70 | the wait for the election ends with no runner and the control state untouched |
| CaptureEngine.Capture.Quiesce | photonic/capture/teardown.c:86-206 | terminates after at most two passes with everything else interleaving; leaves nothing in flight, nothing pending, no runner, every descriptor free on the free list or quarantined, and every acquired buffer back at the front-end unless a failed detach holds it; does nothing on a settled engine |
| CaptureEngine.Capture.HasQuarantinedFrames | photonic/capture/pool.c:188-197 | tells whether some descriptor is quarantined |
| CaptureEngine.Capture.ReleaseSessionResources | photonic/capture/teardown.c:219-264 | the quarantine survives exactly when this call's free did not complete with success; the handle flag survives exactly when the free never reached the bus driver |
| CaptureEngine.Capture.EnsureListen | photonic/capture/work.c:42-112 | an engine begins to listen only while running, after an attach was signalled and the bus driver accepted; once the attach is signalled and the listen granted it listens unless it drains or has nothing on its list |
| CaptureSession.Session.constructor | photonic/capture/capture.c:45-84 | a new session is coherent and idle |
| CaptureSession.Session.NeedsReleaseRetry | photonic/capture/capture.c:40-43 | a bus resource or a quarantined read is left over |
| CaptureSession.Session.ReleaseSessionResources | photonic/capture/resource.c:231-271 | each flag survives exactly when its free request never reached the bus driver, and the quarantine exactly without a handle freed with success |
| CaptureSession.Session.DisableCamera | photonic/capture/teardown.c:292-306 | no enable is left set or wanted; ISO_EN is cleared when it was set and an armed acquisition cancelled in single-frame mode, unless the device is gone |
| CaptureSession.Session.Shutdown | photonic/capture/teardown.c:323-334 | ends idle and coherent: stopped state, camera told to stop, no enable wanted, not listening, every buffer back unless a failed detach holds it, a flag left only when its free never reached the bus driver |
| CaptureSession.Session.Stop | photonic/capture/capture.c:312-365 | from any coherent state ends idle and coherent, with every buffer back at the front-end unless a failed detach holds it; an idle session retries what an earlier release left |
| CaptureSession.Session.RetryRelease | photonic/capture/capture.c:154-180 | a release is retried when a resource or a quarantined read is left over, and a start goes on exactly when nothing is quarantined any more |
| CaptureSession.Session.Start | photonic/capture/capture.c:119-310 | refused for a removed device, without a mode, and over a quarantine that survives the retried release; else it starts exactly when every resource is granted and an enable that is due is carried; it then holds channel, bandwidth and handle, has a fresh retry budget and no stale cancel, has called the pump after going live, and is enabled at once or deferred exactly when it receives without listening yet; a failed start ends idle |
| CaptureSession.Session.EnableCamera | photonic/capture/capture.c:270-286 | the enable is written at once unless the session is single-frame or receives without listening yet; then it is recorded as wanted |
| CaptureSession.Session.SelectTransmission | photonic/ioctl/frames.c:609-638 | a start changes the transmission mode and the ring pump of an idle session only, and is refused exactly when it would change either of a running one |
| CaptureSession.Session.ResolveCancel | photonic/capture/work.c:136-178 | every buffer the engine had is back or held by a failed detach; the session is resumed with a pump call, or shut down exactly when the device is gone or something is quarantined |
| CaptureSession.Session.WorkService | photonic/capture/work.c:123-234 | a pending cancel is resolved, so that every buffer acquired before is back or held by a failed detach; with the attach signalled and the listen granted it ends listening unless draining or without a buffer; a wanted enable is carried out exactly when listening, answered and the device there; exactly what is left unfinished requeues it, within the budget |
| CaptureSession.Session.EnableDeferred | photonic/capture/work.c:186-204 | writes exactly when an enable is wanted, the engine listens, the device is there and the write is carried; otherwise the enable stays wanted |
| CaptureSession.Session.Retry | photonic/capture/work.c:206-234 | requeues exactly when something did not stick, the device is there and the budget is not spent; the budget starts anew when nothing is left to retry |
| CaptureSession.Session.ServiceUntilIdle | photonic/capture/work.c:206-234 | without outside triggers, whatever each run meets, the work item requeues itself at most eight times, and what it then leaves unfinished has spent the budget or lost the device |
| CaptureSession.Session.Destroy | photonic/capture/capture.c:86-117 | the engine is freed exactly when nothing is quarantined |
| RingModel.AcquireOk | photonic/ioctl/frames.c:85-113 | handing out the slot in turn keeps slots and holders in agreement and the rotation in index order |
| RingModel.DeliverOk | photonic/ioctl/frames.c:223-258 | a delivery returns exactly the slot of that buffer |
| RingModel.RequeueOk | photonic/ioctl/frames.c:115-135 | reclaiming delivered slots takes none from the engine |
| RingModel.UnmapOk | photonic/ioctl/frames.c:279-321 | after the stop, exactly the slots of quarantined cookies stay locked and in flight |
| RingModel.MapOk | photonic/ioctl/frames.c:780-809 | with nothing mapped and nothing quarantined no buffer is out, so a new ring overwrites nobody's slot |
| RingFront.FiresExactly | photonic/ioctl/frames.c:146-175 | an event armed with countdown n fires on the n-th delivered frame and on no other |
| RingFront.EventsInOrder | photonic/ioctl/frames.c:146-175 | fired entries, and those that stay, keep the order of the list |
| RingFront.IoctlCapture.Acquire | photonic/ioctl/frames.c:85-113 | produces the next slot exactly when the ring is in play, mapped and its turn is Queued; only that slot changes, to in flight, and the turn moves on |
| RingFront.IoctlCapture.Deliver | photonic/ioctl/frames.c:223-258 | the slot goes to the caller with a full frame in single-frame mode and back to the rotation otherwise, no other slot changes; a full frame counts against the total and every event; a bad index changes nothing |
| RingFront.IoctlCapture.SignalEvents | photonic/ioctl/frames.c:146-175 | counts every entry down once and retires those that reach zero, in order |
| RingFront.IoctlCapture.RegisterEvent | photonic/ioctl/frames.c:975-1035 | registers exactly with a ring mapped, a known type, memory for the entry and a handle that names an event; a refusal changes nothing |
| RingFront.IoctlCapture.Requeue | photonic/ioctl/frames.c:115-135 | every Delivered slot of the map is Queued again; every other slot is as it was |
| RingFront.IoctlCapture.Unmap | photonic/ioctl/frames.c:279-321 | every slot is Queued and unlocked but the locked ones of a quarantined cookie, which stay as they are unless forced; the bookkeeping starts over |
| RingFront.IoctlCapture.Map | photonic/ioctl/frames.c:752-904 | refuses over a mapped ring or a quarantine without touching it; otherwise, when its arguments are good and every frame can be locked, exactly the first count slots are locked and queued, and after any failure nothing is mapped or locked |
| EngineFlows.StepFlows | photonic/capture/pump.c:433-519 | each engine step acquires at most one buffer, and only in the acquire callback, or hands back exactly the one its completion, its lap or its release says, under that cookie and status; only a successful frame callback counts a buffer as good |
| EngineFlows.GoneGrows | photonic/capture/pump.c:88-134 | a step that delivers hands back one buffer that was still out, under its own cookie |
| EngineFlows.StuckStays | photonic/capture/teardown.c:224-258 | a quarantined buffer stays held until a release takes it and delivers it |
| RingSystem.EngineRefines | photonic/ioctl/frames.c:70-113 | the engine inside the composed machine follows an engine schedule, so all engine results carry over |
| RingSystem.RingAgrees | photonic/ioctl/frames.c:85-113 | slots and engine agree ticket by ticket over every sequence of engine steps, maps, unmaps, requeues and mode changes |
| RingSystem.OneHolder | photonic/ioctl/frames.c:223-321 | outside the forced cleanup a slot is in flight exactly when the engine holds its cookie, is locked as long as it is, and no two descriptors hold one slot |
| CaptureEngine.SettledBack | photonic/capture/teardown.c:86-206 | on a settled or idle engine every acquired buffer was delivered or is held by a quarantined descriptor |
| RingSystem.IdleHolds | photonic/capture/teardown.c:219-264 | an idle engine holds quarantined buffers only |
| RingSystem.UnmapKeepsQuarantine | photonic/ioctl/frames.c:915-931 | an unmap leaves locked exactly the slots a quarantined descriptor holds |
| RingSystem.MapOverFree | photonic/ioctl/frames.c:780-809 | a map goes through only when the engine holds no slot at all |
| RingSystem.MapReady | photonic/ioctl/frames.c:752-904 | a map starts the rotation over, with its slots locked and queued, ready to be pumped |
| RingSystem.RequeueReady | photonic/ioctl/frames.c:115-135 | over every run a requeue leaves no slot of the map with the caller: a pumped ring whose next slot the caller had is ready again, with a pump call on its way |
| RingSystem.SlotsRotate | photonic/ioctl/frames.c:101-110 | from the mapping on, slots reach the engine in index order around the ring |
| RingSystem.DeliveryPasses | photonic/ioctl/frames.c:235-244 | every delivery returns an in-flight slot, to the caller exactly when a single-frame session got a full frame, else to the rotation |
| RingSystem.CallerKeeps | photonic/ioctl/frames.c:101-109 | no engine step takes a slot the caller has |
| RingSystem.TransferInfo | photonic/ioctl/frames.c:940-963 | the reported total and index are the number and the slot of the full deliveries since the map |
| IrbHandshake.FreedOnce | photonic/p1394.c:109-148 | IRP, block and buffers are freed at most once, never before the completion routine entered and claimed, and the buffers by the completion exactly when the caller was told of an abandonment |
| IrbHandshake.AbandonExactly | photonic/p1394.c:271-306 | a request whose cancel timed out is given up exactly when its completion has not claimed it; a completion that came first is waited for |
| IrbHandshake.WokenReturns | photonic/p1394.c:271-306 | a waiter woken by the completion frees what it owns; only one that timed out cancels |
| IrbHandshake.NoUseAfterFree | photonic/p1394.c:198-320 | no step of waiter or completion touches a block, IRP or buffer already freed |
| IrbHandshake.TeardownWaits | photonic/p1394.c:238-254 | the remove lock counts exactly the requests whose cleanup is unfinished; once the teardown wait returns none is left and no completion will run |
| IrbHandshake.SubmitReaches | photonic/p1394.c:198-254 | a submit reaches the bus driver exactly until the teardown wait begins |
| IrbHandshake.Progress | photonic/p1394.c:271-306 | a request not cleaned up always has a side that can move, and each side moves a bounded number of times |
| IrbHandshake.ReturnStands | photonic/p1394.c:294-297 | what the caller was told about the abandonment never changes |
| BusAccess.Node.AsyncTransfer | photonic/p1394.c:691-813 | the first submission carries the generation read after a pending reset; a stale generation is retried exactly once, with the generation just read, when the refresh succeeds and the request was not abandoned; a failed refresh is left pending; the caller is told the outcome of the last submission; one free of the bounce buffers unless abandoned; data copied back exactly on a successful read |
| PacketSearch.CapMeans | photonic/dcam.c:969-987 | capping at the bus payload loses no size both limits allow |
| PacketSearch.TargetMeans | photonic/dcam.c:989-1023 | a legal size is at or below the rate-derived target exactly when it is not faster than the interval asked for, save for the one unit that stands in for a too-slow request |
| PacketSearch.Search | photonic/dcam.c:1025-1059 | returns the largest legal size up to the target, else the smallest above it, else reports that none exists |
| PacketSearch.ChoosePacket | photonic/dcam.c:955-1059 | for all register contents: a legal size within both limits, the largest one not faster than asked or else the smallest; none exactly when every legal size exceeds the payload |
| Format7.OrDisjoint | fake-fw-dev/format7.c:186-193 | register fields that do not overlap combine like a sum |
| Format7.CodingsAgree | photonic/dcam.c:267-283 | driver and camera give every coding the driver knows the same depth |
| Format7.UnitMeans | fake-fw-dev/format7.c:103-112 | the unit is the smallest positive number of whole quadlets that holds an image line |
| Format7.MaxMeans | fake-fw-dev/format7.c:113-118 | the advertised maximum is the largest multiple of the unit up to 4096 bytes, or the unit itself when it is larger |
| Format7.Camera.WriteF7 | fake-fw-dev/format7.c:210-262 | geometry and coding writes fall back to the recommended packet size, an illegal packet size is refused and changes nothing |
| Format7.PacketParaFields | fake-fw-dev/format7.c:186-193 | a unit that fits 16 bits and its maximum are read back as they were meant |
| Format7.ChosenIsAccepted | fake-fw-dev/format7.c:128-132 | a size the search picks is legal for the camera |
| Format7.AgreedGeometry | fake-fw-dev/iso.c:126-178 | driver and camera cut the frame into the same whole number of packets, streamable exactly up to 4096 of them, and at most one per line up to 4096 lines |
| Format7.ConfigureFormat7 | photonic/dcam.c:907-1090 | with no access lost it succeeds exactly when the frame is nonempty, the unit divides it and fits the bus, hence for every region of whole-quadlet lines that fit; the size is never refused by the camera; of all multiples of the unit within the payload that divide the frame it is the largest one not faster than asked, or else the smallest; and the camera then streams exactly that, as long as it is at most 4096 packets |
| Format7.QuadletLinesStream | fake-fw-dev/format7.c:103-119 | a region whose lines are whole quadlets and fit the bus has its line as unit, which divides the frame |
| Format7.SizeExists | photonic/dcam.c:1037-1059 | some legal size fits the bus exactly when the unit divides the frame and fits it |
| Format7.UnalignedLinesRefused | photonic/dcam.c:1025-1059 | a region whose lines are not whole quadlets has no size to stream with as long as the padding of all its lines stays below one line |
| Format7.PointerFindsBlock | fake-fw-dev/format7.c:166-169 | the advertised pointer leads the driver to that mode's register block |
| ModeTable.WindowFacts | photonic/dcam.c:426-503 | for any answers a window that is not skipped has its default inside its maximum, both nonempty and on the unit grid |
| ModeTable.WindowExists | photonic/dcam.c:350-527 | a mode is kept only when its registers were read, its maximum holds a unit each way, packet bounds, packet size and depth are nonzero and its default frame is within 256 MB, and is kept whenever even its maximum is |
| ModeTable.WindowMaximum | photonic/dcam.c:426-456 | the window's maximum leaves no room for another unit under the advertised one |
| ModeTable.WindowDefault | photonic/dcam.c:470-487 | the default is the most whole units within the current size and the maximum, or the maximum when the current size does not hold a unit each way |
| ModeTable.LargerPacketFaster | photonic/dcam.c:242-257 | a larger packet never gives a longer interval, saturation included |
| ModeTable.IntervalMeans | photonic/dcam.c:242-257 | the interval is the rounded-down time of one packet per 125us cycle, saturated at 32 bits |
| ModeTable.IntervalsOrdered | photonic/dcam.c:605-607 | the interval bounds of a frame are in order exactly when the unit is within the maximum, or both give the same floored interval, or the one of the unit already saturates |
| ModeTable.InvertedEntry | photonic/dcam.c:557-610 | a camera whose unit exceeds its maximum and whose mode enters the table with inverted bounds, whatever standard modes precede it |
| ModeTable.EnumerateFormat7 | photonic/dcam.c:300-618 | the table is the standard modes followed by every coding of every mode whose bits are set, whose window exists and whose depth is known and under the cap, each once and in order, nothing else; what is missing comes after everything in a table of 48 |
| ModeTable.TableOk | photonic/dcam.c:539-608 | at most 48 entries, and every Format 7 entry carries its mode's register block, window, unit and default, a largest frame of at most 256 MB, and the intervals of its default frame in the largest and the unit packet, in order exactly under the condition of IntervalsOrdered |
| ModeTable.NormalizeSelection | photonic/dcam.c:638-666 | exactly when both writes are taken the camera is on a listed selection: the previous one if that is listed, else the first entry |
| ModeTable.GetCurrentMode | photonic/dcam.c:1243-1291 | reads the select fields and finds an entry exactly when that selection is listed, with the live coding when one of its entries has it |
| ModeTable.EnumerateModes | photonic/dcam.c:668-794 | the table is the standard modes and what fits of the Format 7 ones, and a nonempty one is followed by a selection that fits the select fields and is listed, the previous one if that is |
| ModeTable.EnumerateThenLookup | photonic/dcam.c:1243-1291 | for any camera answers, once the selection is written the lookup finds an entry of the camera's own selection, the one it had before the probe if that is listed |
| Chunks.SetupFacts | photonic/capture/pool.c:118-155 | whole packets per chunk, at most eight chunks, the last one not empty |
| Chunks.RefusedMeans | photonic/capture/pool.c:140-153 | refused exactly when one packet exceeds the limit or eight chunks of whole packets cannot cover the frame |
| Chunks.HeadroomKept | photonic/capture/pool.c:119-153 | one page of the host limit is headroom: a frame is one chunk exactly when it fits below it, a refused one is not covered by eight chunks of whole packets below it, and an unknown limit is 1 MB |
| Chunks.Prime | photonic/capture/pump.c:377-422 | the running offset gives chunk k its place and length, the sync flag to the first and the callback to the last only |
| Chunks.ChunksPartition | photonic/capture/pump.c:377-422 | the primed chunks partition the frame into packet-aligned pieces no longer than the chunk size |
| Chunks.ChunkFitsMdl | photonic/capture/pool.c:123-178 | wherever the buffer starts, a chunk spans no more pages than the preallocated MDL describes, nor than a page-multiple host limit |
| Chunks.FitsHostExactly | photonic/capture/pool.c:119-155 | for every set-up, its chunks stay within the host limit at every start address exactly when a chunk started at the last byte of a page does not spill past the whole pages of the limit |
| Chunks.LimitsOverrun | photonic/capture/pool.c:119-142 | a one-page limit and an odd limit that are overrun, and an odd one that is kept |
| Transmit.InterruptsDense | fake-fw-dev/iso.c:69-77 | any stretch of 512 packets of a frame, or its rest, raises an interrupt |
| Transmit.RingFits | fake-fw-dev/iso.c:250-268 | the ring lies inside the mapped buffer |
| Transmit.RingMost | fake-fw-dev/iso.c:250-268 | the ring is as deep as the buffer allows, up to four frames |
| Transmit.Transmitter.QueueFrame | fake-fw-dev/iso.c:53-117 | the kernel gets the frame's packets in order without gap or repetition as far as it has room, all of them exactly on success, with start of frame on the first packet only, unless on all, and an interrupt on the last and every 512th |
| Transmit.Transmitter.constructor | fake-fw-dev/iso.c:270-360 | the prefilled ring streams frames from index zero in order, all of them when the kernel has room |
| Transmit.Transmitter.Interrupt | fake-fw-dev/iso.c:393-449 | for every sequence of completion counts: accepted packets split into whole frames and a leftover, frame k sits in slot k mod ring, only transmitted frames are overwritten, the look-ahead stays one ring deep, a one-shot stops with its frame |
| WorkItem.OneQueued | photonic/capture/work.c:243-285 | at most one run is requested or queued and not yet acting, one serves, and the remove lock counts exactly the runs under way |
| WorkItem.NoRequestLost | photonic/capture/work.c:263-285 | until the teardown begins a request not yet followed by a service run has one coming that can move |
| WorkItem.ServiceNears | photonic/capture/work.c:243-261 | each such move brings the service nearer, and its start covers every request made so far |

## Left out

- Windows and Linux plumbing: dispatch, IRP and MDL internals, tracing, property tables, device files and mappings; requests to the bus driver are nondeterministic answers under the assumptions above.
- Real time: timeouts and delays are nondeterministic choices.
- The drop of the in-flight count, its test and the signal of DrainDone are one step (photonic/capture/pump.c:41-45); the lifetime of the engine's memory past it is not modelled.
- The counters are unbounded; their 32-bit wrap-around is not modelled.
- The queueing of the control work item by an attach completion is not a step of the engine; WorkItem.dfy takes requests at any time.
- CaptureSession.Session.Start: the pump call and its laps run among the other steps of the transition system rather than in line; the answers of the camera and of the bus driver and the removal of the device are parameters.
- CaptureEngine.Capture.PumpLap: the chunk descriptors it builds are modelled in Chunks.dfy, the descriptor here carries cookie and status only.
- RingFront.IoctlCapture.Map: the frame count a failed map sets for a moment before it unmaps is modelled as part of one exclusive step; no pump can find a slot then because nothing is mapped before.
- RingSystem.OneHolder: the forced unmap of the final cleanup (photonic/ioctl/frames.c:342-394) unlocks pages the engine still holds by design and is not a move of the composed machine.
- ModeTable.TableOk: the standard modes of photonic/dcam.c:684-767 are any list of standard entries, their geometry and rate tables are not modelled.
- BusAccess.Node.AsyncTransfer: concurrent transactions that refresh the generation in between are not modelled.
- Transmit.Transmitter.Interrupt: rendering, the trigger bookkeeping and the descriptors of the kernel interface are not modelled.
- The stream front-end is any pair of acquire and deliver; its parked reads are not modelled.
- Feature registers, AV/C replies, the configuration ROM, the passive listener and the test patterns.
