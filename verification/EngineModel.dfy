// The capture engine as a transition system. One atomic step is one hold of the engine
// spinlock, one call into the bus driver, one front-end callback, or one event of the bus
// driver itself. An activation of a completion routine, frame callback or pump call that
// still has something to do is recorded where that something is: with the descriptor it
// must submit, with the buffer it must deliver, or in a counter when it holds neither.

module EngineModel {

  datatype Status = Success | Cancelled | InvalidParameter | Error(code: nat)

  // PHOTONIC_FRAME_STATE
  datatype FrameState = Free | Attaching | CompletedWhileAttaching | Pending | Detaching | DetachFailed

  // Bookkeeping of the model: who has the descriptor's one reusable IRP. A tail is a
  // completion routine or frame callback that must still call BeginDetach.
  datatype Carrier = Nobody | ByRunner | ByTail | ByControl | ByBus

  // Bookkeeping of the model: what the bus driver may still do with the attached buffer.
  // DmaFired: its frame callback has been entered and has not taken the lock yet.
  datatype Dma = DmaOff | DmaArmed | DmaFired | DmaDone

  // PHOTONIC_CAPTURE_FRAME. dmaStatus is Isoch[ChunkCount - 1].status; ticket is the
  // position of the carried buffer in the log of acquired buffers.
  datatype Frame = Frame(
    state: FrameState, cookie: nat, completion: Status, dmaStatus: Status,
    ticket: nat, carrier: Carrier, dma: Dma)
  {
    predicate Holds() { !state.Free? }
    predicate Listed() { state.Attaching? || state.CompletedWhileAttaching? || state.Pending? }
  }

  // Program points of one pump lap. i counts the lap iterations already finished.
  datatype LapPc =
    | LapStart
    | Claim(i: nat)
    | Acquire(i: nat, d: nat)
    | GiveBack(d: nat)
    | Reject(i: nat, d: nat, t: nat, c: nat)
    | RejectDeliver(i: nat, t: nat, c: nat)
    | Publish(i: nat, d: nat, t: nat, c: nat)
    | CancelDeliver(t: nat, c: nat)
    | Submit(i: nat, d: nat)
    | LapEnd

  // An elected pump runner. A counted one was called from a detach completion, which holds
  // one unit of InFlightIrps until the runner has returned.
  datatype Runner = Runner(counted: bool, pc: LapPc)

  datatype BusRequest = AttachRequest(d: nat) | DetachRequest(d: nat)

  // What the bus driver and the engine exchanged, plus the two marks of the Draining flag.
  datatype BusEvent =
    | AttachSubmitted(d: nat, t: nat)
    | AttachEnded(d: nat, ok: bool)
    | FrameDone(d: nat)
    | DetachSubmitted(d: nat)
    | DetachEnded(d: nat, ok: bool)
    | StopIssued
    | ListenIssued
    | ResourcesFreed(ok: bool)
    | SessionOpened

  // Where an acquired buffer is. AtTail: a completion routine is about to deliver it.
  datatype Location =
    | AtRunner
    | AtFrame(d: nat)
    | AtTail(c: nat, full: bool, st: Status, thenPump: bool)
    | AtControl
    | AtClient(i: nat)

  datatype Delivery = Delivery(t: nat, c: nat, full: bool, st: Status)

  // The control plane: InterfaceMutex admits one context, so one program point suffices.
  datatype Control =
    | Idle
    | QuiesceStop
    | QuiesceClaim(pass: nat)
    | QuiesceSubmit(pass: nat, d: nat)
    | QuiesceDrain(pass: nat)
    | QuiesceCheck(pass: nat)
    | QuiescePumpIdle(pass: nat)
    | Settled
    | ReleaseFree
    | ReleaseScan(i: nat, flushed: bool)
    | ReleaseDeliver(i: nat, flushed: bool, t: nat, c: nat)
    | Starting(handleHeld: bool)

  datatype FreeOutcome = NotSubmitted | FreeFailed | FreeSucceeded

  // The fields of PHOTONIC_CAPTURE, then what else is in flight around them: the runners;
  // pump calls that have not reached the election (entering, and enteringCounted for those
  // inside a detach completion); attach completions about to set FirstAttachDone (arming);
  // completions about to drop their count (finishing); the control context; the requests at
  // the bus driver; whether ISOCH_STOP is in force; the pump calls that reached the election
  // and those of them followed by the start of a lap; and the history.
  datatype Engine = Engine(
    frames: seq<Frame>, freeList: seq<nat>, pendingList: seq<nat>,
    draining: bool, pumpActive: bool, pumpAgain: bool, inFlight: int,
    listening: bool, resourceAllocated: bool, firstAttachDone: bool,
    runners: seq<Runner>, entering: nat, enteringCounted: nat, arming: nat, finishing: nat,
    control: Control, requests: multiset<BusRequest>, stopped: bool, calls: nat, answered: nat,
    acquired: seq<nat>, location: seq<Location>, delivered: seq<Delivery>, dmaGood: set<nat>,
    log: seq<BusEvent>)

  function EmptyFrame(): Frame {
    Frame(Free, 0, Success, Success, 0, Nobody, DmaOff)
  }

  // PhotonicCaptureCreate with PhotonicCapturePoolAllocate: every descriptor on the free
  // list, Draining set.
  function Init(n: nat): Engine {
    Engine(seq(n, i => EmptyFrame()), seq(n, i requires 0 <= i < n => i as nat), [],
           true, false, false, 0, false, false, false,
           [], 0, 0, 0, 0, Idle, multiset{}, true, 0, 0, [], [], [], {}, [])
  }

  // RemoveEntryList: the entry leaves the list, the others keep their order.
  function Remove(list: seq<nat>, d: nat): seq<nat> {
    if list == [] then []
    else if list[0] == d then list[1..]
    else [list[0]] + Remove(list[1..], d)
  }

  function Relocate(location: seq<Location>, t: nat, where: Location): seq<Location> {
    if t < |location| then location[t := where] else location
  }

  // Hand one buffer back to the front-end.
  function DeliverTo(s: Engine, t: nat, c: nat, full: bool, st: Status): Engine {
    s.(delivered := s.delivered + [Delivery(t, c, full, st)],
       location := Relocate(s.location, t, AtClient(|s.delivered|)))
  }

  function NextIteration(s: Engine, i: nat): LapPc {
    if i + 1 < |s.frames| then Claim(i + 1) else LapEnd
  }

  // ---------------------------------------------------------------- PhotonicCapturePump

  function PumpCall(s: Engine): Engine {
    s.(entering := s.entering + 1)
  }

  // The election. The loser only asks the runner for another lap.
  predicate CanElect(s: Engine, counted: bool) {
    if counted then s.enteringCounted > 0 else s.entering > 0
  }

  function ElectLost(s: Engine, counted: bool): Engine
    requires CanElect(s, counted)
  {
    s.(entering := if counted then s.entering else s.entering - 1,
       enteringCounted := if counted then s.enteringCounted - 1 else s.enteringCounted,
       finishing := if counted then s.finishing + 1 else s.finishing,
       pumpAgain := true, calls := s.calls + 1)
  }

  function ElectWon(s: Engine, counted: bool): Engine
    requires CanElect(s, counted)
  {
    s.(entering := if counted then s.entering else s.entering - 1,
       enteringCounted := if counted then s.enteringCounted - 1 else s.enteringCounted,
       runners := s.runners + [Runner(counted, LapStart)],
       pumpActive := true, calls := s.calls + 1)
  }

  datatype Offer = NoBuffer | Buffer(c: nat, fits: bool)

  predicate LapInRange(pc: LapPc, n: nat) {
    match pc
    case Acquire(i, d) => d < n
    case GiveBack(d) => d < n
    case Reject(i, d, t, c) => d < n
    case Publish(i, d, t, c) => d < n
    case Submit(i, d) => d < n
    case _ => true
  }

  // Runner k moves to another program point.
  function Lap(s: Engine, k: nat, pc: LapPc): seq<Runner>
    requires k < |s.runners|
  {
    s.runners[k := Runner(s.runners[k].counted, pc)]
  }

  function LapBegin(s: Engine, k: nat): Engine
    requires k < |s.runners|
  {
    s.(runners := Lap(s, k, if |s.frames| > 0 then Claim(0) else LapEnd), pumpAgain := false,
       answered := s.calls)
  }

  function LapMove(s: Engine, k: nat, pc: LapPc): Engine
    requires k < |s.runners|
  {
    s.(runners := Lap(s, k, pc))
  }

  function LapClaim(s: Engine, k: nat, i: nat): Engine
    requires k < |s.runners| && s.freeList != []
  {
    s.(runners := Lap(s, k, Acquire(i, s.freeList[0])), freeList := s.freeList[1..])
  }

  // The acquire callback produced a buffer that is too small for a frame.
  function LapRefuse(s: Engine, k: nat, i: nat, d: nat, c: nat): Engine
    requires k < |s.runners|
  {
    s.(acquired := s.acquired + [c], location := s.location + [AtRunner],
       runners := Lap(s, k, Reject(i, d, |s.acquired|, c)))
  }

  // It produced a good one: PhotonicCapturePumpPrime rebuilds the private descriptor.
  function LapPrime(s: Engine, k: nat, i: nat, d: nat, c: nat): Engine
    requires k < |s.runners| && d < |s.frames|
  {
    s.(acquired := s.acquired + [c], location := s.location + [AtRunner],
       runners := Lap(s, k, Publish(i, d, |s.acquired|, c)),
       frames := s.frames[d := s.frames[d].(cookie := c, completion := Success, dmaStatus := Success)])
  }

  // The claimed descriptor goes back to the head of the free list.
  function LapReturn(s: Engine, k: nat, d: nat, pc: LapPc): Engine
    requires k < |s.runners| && d < |s.frames|
  {
    s.(frames := s.frames[d := s.frames[d].(state := Free)], freeList := [d] + s.freeList, runners := Lap(s, k, pc))
  }

  function LapAttach(s: Engine, k: nat, i: nat, d: nat, t: nat): Engine
    requires k < |s.runners| && d < |s.frames|
  {
    s.(runners := Lap(s, k, Submit(i, d)),
       frames := s.frames[d := s.frames[d].(state := Attaching, ticket := t, carrier := ByRunner)],
       pendingList := s.pendingList + [d], inFlight := s.inFlight + 1,
       location := Relocate(s.location, t, AtFrame(d)))
  }

  function LapSubmit(s: Engine, k: nat, i: nat, d: nat): Engine
    requires k < |s.runners| && d < |s.frames|
  {
    s.(runners := Lap(s, k, NextIteration(s, i)),
       frames := s.frames[d := s.frames[d].(carrier := ByBus, dma := DmaArmed)],
       requests := s.requests + multiset{AttachRequest(d)},
       log := s.log + [AttachSubmitted(d, s.frames[d].ticket)])
  }

  function LapDeliver(s: Engine, k: nat, t: nat, c: nat, st: Status, pc: LapPc): Engine
    requires k < |s.runners|
  {
    DeliverTo(s, t, c, false, st).(runners := Lap(s, k, pc))
  }

  function LapLeave(s: Engine, k: nat): Engine
    requires k < |s.runners|
  {
    s.(runners := s.runners[..k] + s.runners[k + 1..], pumpActive := false,
       finishing := if s.runners[k].counted then s.finishing + 1 else s.finishing)
  }

  function LapStep(s: Engine, k: nat, offer: Offer): Engine
    requires k < |s.runners| && LapInRange(s.runners[k].pc, |s.frames|)
  {
    match s.runners[k].pc
    case LapStart => LapBegin(s, k)
    case Claim(i) =>
      if s.draining || s.freeList == [] then LapMove(s, k, LapEnd) else LapClaim(s, k, i)
    case Acquire(i, d) =>
      if offer.NoBuffer? then LapMove(s, k, GiveBack(d))
      else if offer.fits then LapPrime(s, k, i, d, offer.c)
      else LapRefuse(s, k, i, d, offer.c)
    case GiveBack(d) => LapReturn(s, k, d, LapEnd)
    case Reject(i, d, t, c) => LapReturn(s, k, d, RejectDeliver(i, t, c))
    case RejectDeliver(i, t, c) => LapDeliver(s, k, t, c, InvalidParameter, NextIteration(s, i))
    case Publish(i, d, t, c) =>
      // Draining is tested again in the hold that publishes
      if s.draining then LapReturn(s, k, d, CancelDeliver(t, c)) else LapAttach(s, k, i, d, t)
    case CancelDeliver(t, c) => LapDeliver(s, k, t, c, Cancelled, LapEnd)
    case Submit(i, d) => LapSubmit(s, k, i, d)
    case LapEnd => if s.pumpAgain then LapMove(s, k, LapStart) else LapLeave(s, k)
  }

  // ------------------------------------------------- frame callback and completion tails

  // PhotonicCapturePumpIsochCallback, the lock hold: a Pending descriptor is claimed,
  function CallbackClaims(s: Engine, d: nat): Engine
    requires d < |s.frames|
  {
    s.(frames := s.frames[d := s.frames[d].(state := Detaching, completion := s.frames[d].dmaStatus,
                                            carrier := ByTail, dma := DmaDone)],
       pendingList := Remove(s.pendingList, d), inFlight := s.inFlight + 1)
  }

  // an Attaching one is left to the attach completion, any other is already taken.
  function CallbackDefers(s: Engine, d: nat): Engine
    requires d < |s.frames|
  {
    s.(frames := s.frames[d := s.frames[d].(
         state := if s.frames[d].state.Attaching? then CompletedWhileAttaching else s.frames[d].state,
         dma := DmaDone)])
  }

  // PhotonicCapturePumpBeginDetach out of a frame callback or an attach completion.
  function TailSubmit(s: Engine, d: nat): Engine
    requires d < |s.frames|
  {
    s.(frames := s.frames[d := s.frames[d].(carrier := ByBus)],
       requests := s.requests + multiset{DetachRequest(d)}, log := s.log + [DetachSubmitted(d)])
  }

  // The Deliver call of a completion routine; a detach completion pumps next.
  function TailDeliver(s: Engine, t: nat): Engine
    requires t < |s.location| && s.location[t].AtTail?
  {
    DeliverTo(s, t, s.location[t].c, s.location[t].full, s.location[t].st)
    .(enteringCounted := if s.location[t].thenPump then s.enteringCounted + 1 else s.enteringCounted,
      finishing := if s.location[t].thenPump then s.finishing else s.finishing + 1)
  }

  function SignalAttached(s: Engine): Engine
    requires s.arming > 0
  {
    s.(arming := s.arming - 1, finishing := s.finishing + 1, firstAttachDone := true)
  }

  // PhotonicCapturePumpIrpDone.
  function DropCount(s: Engine): Engine
    requires s.finishing > 0
  {
    s.(finishing := s.finishing - 1, inFlight := s.inFlight - 1)
  }

  // ------------------------------------------------------------------------ bus driver

  // An attach IRP completes; the hold of PhotonicCapturePumpAttachComplete decides the tail.
  // The bus driver never fails an attach whose frame callback it already started.
  predicate AttachCanEnd(s: Engine, d: nat, st: Status) {
    d < |s.frames| && AttachRequest(d) in s.requests && (st.Success? || s.frames[d].dma.DmaArmed?)
  }

  function AttachFailed(s: Engine, d: nat, st: Status): Engine
    requires d < |s.frames|
  {
    var f := s.frames[d];
    s.(requests := s.requests - multiset{AttachRequest(d)}, log := s.log + [AttachEnded(d, false)],
       frames := s.frames[d := f.(state := Free, cookie := 0, carrier := Nobody, dma := DmaOff)],
       pendingList := Remove(s.pendingList, d), freeList := s.freeList + [d],
       location := Relocate(s.location, f.ticket, AtTail(f.cookie, false, st, false)))
  }

  function AttachFoundDone(s: Engine, d: nat): Engine
    requires d < |s.frames|
  {
    var f := s.frames[d];
    s.(requests := s.requests - multiset{AttachRequest(d)}, log := s.log + [AttachEnded(d, true)],
       frames := s.frames[d := f.(state := Detaching, completion := f.dmaStatus, carrier := ByTail)],
       pendingList := Remove(s.pendingList, d))
  }

  function AttachPublished(s: Engine, d: nat): Engine
    requires d < |s.frames|
  {
    s.(requests := s.requests - multiset{AttachRequest(d)}, log := s.log + [AttachEnded(d, true)],
       frames := s.frames[d := s.frames[d].(state := Pending, carrier := Nobody)],
       finishing := if s.draining then s.finishing + 1 else s.finishing,
       arming := if s.draining then s.arming else s.arming + 1)
  }

  function AttachEnd(s: Engine, d: nat, st: Status): Engine
    requires AttachCanEnd(s, d, st)
  {
    if !st.Success? then AttachFailed(s, d, st)
    else if s.frames[d].state.CompletedWhileAttaching? then AttachFoundDone(s, d)
    else AttachPublished(s, d)
  }

  // The bus driver enters the frame callback: at most once for one attach, after the attach
  // was submitted, and not after ISOCH_STOP returned.
  predicate FrameCanComplete(s: Engine, d: nat) {
    d < |s.frames| && s.frames[d].dma.DmaArmed? && !s.stopped
  }

  function FrameComplete(s: Engine, d: nat, st: Status): Engine
    requires FrameCanComplete(s, d)
  {
    s.(frames := s.frames[d := s.frames[d].(dma := DmaFired, dmaStatus := st)],
       log := s.log + [FrameDone(d)],
       dmaGood := if st.Success? then s.dmaGood + {s.frames[d].ticket} else s.dmaGood)
  }

  // A detach IRP completes, never while the buffer's frame callback is still entering.
  predicate DetachCanEnd(s: Engine, d: nat) {
    d < |s.frames| && DetachRequest(d) in s.requests && !s.frames[d].dma.DmaFired?
  }

  function DetachQuarantined(s: Engine, d: nat): Engine
    requires d < |s.frames|
  {
    s.(requests := s.requests - multiset{DetachRequest(d)}, log := s.log + [DetachEnded(d, false)],
       frames := s.frames[d := s.frames[d].(state := DetachFailed, carrier := Nobody, dma := DmaOff)],
       finishing := s.finishing + 1)
  }

  function DetachRecycled(s: Engine, d: nat): Engine
    requires d < |s.frames|
  {
    var f := s.frames[d];
    s.(requests := s.requests - multiset{DetachRequest(d)}, log := s.log + [DetachEnded(d, true)],
       frames := s.frames[d := f.(state := Free, cookie := 0, carrier := Nobody, dma := DmaOff)],
       freeList := s.freeList + [d],
       location := Relocate(s.location, f.ticket, AtTail(f.cookie, f.completion.Success?, f.completion, true)))
  }

  function DetachEnd(s: Engine, d: nat, ok: bool): Engine
    requires DetachCanEnd(s, d)
  {
    if ok then DetachRecycled(s, d) else DetachQuarantined(s, d)
  }

  // --------------------------------------------------------------------- control plane

  predicate HasQuarantined(s: Engine) {
    exists d :: 0 <= d < |s.frames| && s.frames[d].state.DetachFailed?
  }

  function BeginDrain(s: Engine): Engine {
    s.(draining := true, control := QuiesceStop)
  }

  // ISOCH_STOP returns only once the frame callbacks already entered have run; none is
  // entered afterwards (see FrameCanComplete).
  predicate NoneFired(s: Engine) {
    forall d :: 0 <= d < |s.frames| ==> !s.frames[d].dma.DmaFired?
  }

  function IssueStop(s: Engine): Engine {
    s.(log := if s.resourceAllocated then s.log + [StopIssued] else s.log,
       stopped := s.stopped || s.resourceAllocated, listening := s.listening && !s.resourceAllocated,
       control := QuiesceClaim(1))
  }

  // The first Pending entry of the list, or the length when there is none.
  function FirstPending(frames: seq<Frame>, list: seq<nat>): (i: nat)
    ensures i <= |list|
    ensures i < |list| ==> list[i] < |frames| && frames[list[i]].state.Pending?
    ensures forall j :: 0 <= j < i ==> !(list[j] < |frames| && frames[list[j]].state.Pending?)
  {
    if list == [] then 0
    else if list[0] < |frames| && frames[list[0]].state.Pending? then 0
    else 1 + FirstPending(frames, list[1..])
  }

  function ClaimPending(s: Engine, pass: nat, d: nat): Engine
    requires d < |s.frames|
  {
    s.(frames := s.frames[d := s.frames[d].(state := Detaching, completion := Cancelled, carrier := ByControl)],
       pendingList := Remove(s.pendingList, d), inFlight := s.inFlight + 1, control := QuiesceSubmit(pass, d))
  }

  function ClaimNext(s: Engine, pass: nat): Engine {
    var i := FirstPending(s.frames, s.pendingList);
    if i == |s.pendingList| then s.(control := QuiesceDrain(pass)) else ClaimPending(s, pass, s.pendingList[i])
  }

  function SubmitClaimed(s: Engine, pass: nat, d: nat): Engine
    requires d < |s.frames|
  {
    s.(frames := s.frames[d := s.frames[d].(carrier := ByBus)],
       requests := s.requests + multiset{DetachRequest(d)}, log := s.log + [DetachSubmitted(d)],
       control := QuiesceClaim(pass))
  }

  function CheckList(s: Engine, pass: nat): Engine {
    s.(control := if s.pendingList == [] then QuiescePumpIdle(pass) else QuiesceClaim(pass + 1))
  }

  function Settle(s: Engine): Engine {
    s.(firstAttachDone := false, control := Settled)
  }

  function OpenSession(s: Engine): Engine {
    s.(draining := false, stopped := false, firstAttachDone := false, control := Idle,
       log := s.log + [SessionOpened])
  }

  // ISOCH_FREE_RESOURCES reached the bus driver.
  predicate FreeReached(s: Engine, o: FreeOutcome) {
    s.resourceAllocated && !o.NotSubmitted?
  }

  // The only license to deliver quarantined reads: this call's free completed with success.
  predicate Flushed(s: Engine, o: FreeOutcome) {
    FreeReached(s, o) && o.FreeSucceeded?
  }

  // PhotonicCaptureResourceReleaseIsoch and the decision of
  // PhotonicCaptureTeardownReleaseSessionResources.
  function FreeResources(s: Engine, o: FreeOutcome): Engine {
    s.(resourceAllocated := s.resourceAllocated && !FreeReached(s, o),
       log := if FreeReached(s, o) then s.log + [ResourcesFreed(Flushed(s, o))] else s.log,
       control := if !Flushed(s, o) && HasQuarantined(s) then Idle else ReleaseScan(0, Flushed(s, o)))
  }

  function ScanRecycle(s: Engine, i: nat, flushed: bool): Engine
    requires i < |s.frames|
  {
    s.(frames := s.frames[i := s.frames[i].(state := Free, cookie := 0)],
       freeList := s.freeList + [i], location := Relocate(s.location, s.frames[i].ticket, AtControl),
       control := ReleaseDeliver(i, flushed, s.frames[i].ticket, s.frames[i].cookie))
  }

  function ScanNext(s: Engine, i: nat, flushed: bool): Engine {
    if i < |s.frames| && s.frames[i].state.DetachFailed? then ScanRecycle(s, i, flushed)
    else s.(control := if i < |s.frames| then ReleaseScan(i + 1, flushed) else Idle)
  }

  function ScanDeliver(s: Engine, i: nat, flushed: bool, t: nat, c: nat): Engine {
    DeliverTo(s, t, c, false, Cancelled).(control := ReleaseScan(i + 1, flushed))
  }

  // ------------------------------------------------------------------------- the machine

  datatype Action =
    | CallPump
    | RunElection(counted: bool)
    | RunLap(k: nat, offer: Offer)
    | RunCallback(d: nat)
    | RunSubmit(d: nat)
    | RunDeliver(t: nat)
    | RunArmed
    | RunDone
    | BusAttachEnd(d: nat, st: Status)
    | BusFrame(d: nat, st: Status)
    | BusDetachEnd(d: nat, ok: bool)
    | CtlBeginDrain
    | CtlStop
    | CtlClaim
    | CtlSubmit
    | CtlDrained
    | CtlCheck
    | CtlPumpIdle
    | CtlResume
    | CtlRelease
    | CtlFree(o: FreeOutcome)
    | CtlScan
    | CtlDeliver
    | CtlStartCheck
    | CtlAllocated
    | CtlOpen
    | CtlListen
  {
    predicate OfPump() { CallPump? || RunElection? || RunLap? }
    predicate OfTail() { RunCallback? || RunSubmit? || RunDeliver? || RunArmed? || RunDone? }
    predicate OfBus() { BusAttachEnd? || BusFrame? || BusDetachEnd? }
    predicate OfQuiesce() {
      CtlBeginDrain? || CtlStop? || CtlClaim? || CtlSubmit? || CtlDrained? || CtlCheck? || CtlPumpIdle?
    }
    predicate OfRelease() { CtlRelease? || CtlFree? || CtlScan? || CtlDeliver? }
    predicate OfStart() { CtlResume? || CtlStartCheck? || CtlAllocated? || CtlOpen? || CtlListen? }

    // Steps of the control context. Everything else may interleave with it at any point.
    predicate ByControlPlane() { OfQuiesce() || OfRelease() || OfStart() }
  }

  predicate Enabled(s: Engine, a: Action) {
    match a
    case CallPump => true
    case RunElection(counted) => CanElect(s, counted)
    case RunLap(k, _) => k < |s.runners| && LapInRange(s.runners[k].pc, |s.frames|)
    case RunCallback(d) => d < |s.frames| && s.frames[d].dma.DmaFired?
    case RunSubmit(d) => d < |s.frames| && s.frames[d].carrier.ByTail?
    case RunDeliver(t) => t < |s.location| && s.location[t].AtTail?
    case RunArmed => s.arming > 0
    case RunDone => s.finishing > 0
    case BusAttachEnd(d, st) => AttachCanEnd(s, d, st)
    case BusFrame(d, _) => FrameCanComplete(s, d)
    case BusDetachEnd(d, _) => DetachCanEnd(s, d)
    case CtlBeginDrain => s.control.Idle? && !s.draining
    case CtlStop => s.control.QuiesceStop? && NoneFired(s)
    case CtlClaim => s.control.QuiesceClaim?
    case CtlSubmit => s.control.QuiesceSubmit? && s.control.d < |s.frames|
    case CtlDrained => s.control.QuiesceDrain? && s.inFlight == 0
    case CtlCheck => s.control.QuiesceCheck?
    case CtlPumpIdle => s.control.QuiescePumpIdle? && !s.pumpActive
    case CtlResume => s.control.Settled? && !HasQuarantined(s)
    case CtlRelease => s.control.Settled? || s.control.Starting? || (s.control.Idle? && s.draining)
    case CtlFree(_) => s.control.ReleaseFree?
    case CtlScan => s.control.ReleaseScan?
    case CtlDeliver => s.control.ReleaseDeliver?
    case CtlStartCheck => s.control.Idle? && s.draining && !HasQuarantined(s)
    case CtlAllocated => s.control.Starting?
    case CtlOpen => s.control == Starting(true)
    case CtlListen => s.control.Idle? && !s.draining
  }

  function ApplyTail(s: Engine, a: Action): Engine
    requires Enabled(s, a) && a.OfTail()
  {
    match a
    case RunCallback(d) => if s.frames[d].state.Pending? then CallbackClaims(s, d) else CallbackDefers(s, d)
    case RunSubmit(d) => TailSubmit(s, d)
    case RunDeliver(t) => TailDeliver(s, t)
    case RunArmed => SignalAttached(s)
    case RunDone => DropCount(s)
  }

  function ApplyBus(s: Engine, a: Action): Engine
    requires Enabled(s, a) && a.OfBus()
  {
    match a
    case BusAttachEnd(d, st) => AttachEnd(s, d, st)
    case BusFrame(d, st) => FrameComplete(s, d, st)
    case BusDetachEnd(d, ok) => DetachEnd(s, d, ok)
  }

  function ApplyQuiesce(s: Engine, a: Action): Engine
    requires Enabled(s, a) && a.OfQuiesce()
  {
    match a
    case CtlBeginDrain => BeginDrain(s)
    case CtlStop => IssueStop(s)
    case CtlClaim => ClaimNext(s, s.control.pass)
    case CtlSubmit => SubmitClaimed(s, s.control.pass, s.control.d)
    case CtlDrained => s.(control := QuiesceCheck(s.control.pass))
    case CtlCheck => CheckList(s, s.control.pass)
    case CtlPumpIdle => Settle(s)
  }

  function ApplyRelease(s: Engine, a: Action): Engine
    requires Enabled(s, a) && a.OfRelease()
  {
    match a
    case CtlRelease => s.(control := ReleaseFree)
    case CtlFree(o) => FreeResources(s, o)
    case CtlScan => ScanNext(s, s.control.i, s.control.flushed)
    case CtlDeliver => ScanDeliver(s, s.control.i, s.control.flushed, s.control.t, s.control.c)
  }

  function ApplyStart(s: Engine, a: Action): Engine
    requires Enabled(s, a) && a.OfStart()
  {
    match a
    case CtlResume => OpenSession(s)
    case CtlStartCheck => s.(control := Starting(false))
    case CtlAllocated => s.(resourceAllocated := true, control := Starting(true))
    case CtlOpen => OpenSession(s)
    case CtlListen => s.(listening := true, log := s.log + [ListenIssued])
  }

  function ApplyPump(s: Engine, a: Action): Engine
    requires Enabled(s, a) && a.OfPump()
  {
    match a
    case CallPump => PumpCall(s)
    case RunElection(counted) => if s.pumpActive then ElectLost(s, counted) else ElectWon(s, counted)
    case RunLap(k, offer) => LapStep(s, k, offer)
  }

  function Apply(s: Engine, a: Action): Engine
    requires Enabled(s, a)
  {
    if a.OfPump() then ApplyPump(s, a)
    else if a.OfTail() then ApplyTail(s, a)
    else if a.OfBus() then ApplyBus(s, a)
    else if a.OfQuiesce() then ApplyQuiesce(s, a)
    else if a.OfRelease() then ApplyRelease(s, a)
    else ApplyStart(s, a)
  }

  // A schedule: actions that are not enabled when their turn comes do nothing.
  function Next(s: Engine, a: Action): Engine {
    if Enabled(s, a) then Apply(s, a) else s
  }

  function Run(s: Engine, schedule: seq<Action>): Engine
    decreases |schedule|
  {
    if schedule == [] then s
    else Next(Run(s, schedule[..|schedule| - 1]), schedule[|schedule| - 1])
  }
}
