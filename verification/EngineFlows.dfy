// What each engine step does to the buffers: at most one is acquired, or at most one handed
// back, and what a failed detach holds stays held until a release delivers it.

module EngineFlows {
  import opened EngineModel
  import opened BusMonitor
  import opened EngineInvariant
  import opened EnginePlane
  import opened EngineControl
  import opened EngineTheorems

  // ------------------------------------------------------ what one engine step does to buffers

  // The step is the acquire callback producing a buffer.
  predicate Acquires(s: Engine, a: Action) {
    a.RunLap? && a.k < |s.runners| && s.runners[a.k].pc.Acquire? && a.offer.Buffer?
  }

  // What the step hands back: a completion what its tail says, the pump a buffer that was too
  // small or came too late, a release what a failed detach held.
  function Handed(s: Engine, a: Action): seq<Delivery> {
    match a
    case RunDeliver(t) =>
      if t < |s.location| && s.location[t].AtTail?
      then [Delivery(t, s.location[t].c, s.location[t].full, s.location[t].st)] else []
    case RunLap(k, _) =>
      if k >= |s.runners| then []
      else (match s.runners[k].pc
            case RejectDeliver(_, t, c) => [Delivery(t, c, false, InvalidParameter)]
            case CancelDeliver(t, c) => [Delivery(t, c, false, Cancelled)]
            case _ => [])
    case CtlDeliver =>
      if s.control.ReleaseDeliver? then [Delivery(s.control.t, s.control.c, false, Cancelled)] else []
    case _ => []
  }

  // A buffer's DMA succeeds when the bus driver enters its frame callback with that status.
  predicate Succeeds(s: Engine, a: Action) {
    a.BusFrame? && a.st.Success? && a.d < |s.frames|
  }

  predicate Flows(s: Engine, s': Engine, a: Action) {
    && s'.acquired == (if Acquires(s, a) then s.acquired + [a.offer.c] else s.acquired)
    && s'.delivered == (if Handed(s, a) == [] then s.delivered else s.delivered + Handed(s, a))
    && s'.dmaGood == (if Succeeds(s, a) then s.dmaGood + {s.frames[a.d].ticket} else s.dmaGood)
    && (Acquires(s, a) ==> Handed(s, a) == [])
  }

  // A step that makes no callback and finishes no DMA.
  lemma QuietFlows(s: Engine, s': Engine, a: Action)
    requires !a.RunLap? && !a.RunDeliver? && !a.CtlDeliver? && !a.BusFrame?
    requires s'.acquired == s.acquired && s'.delivered == s.delivered && s'.dmaGood == s.dmaGood
    ensures Flows(s, s', a)
  {
  }

  // The same for a lap step that is neither the acquire nor a deliver.
  lemma QuietLapFlows(s: Engine, s': Engine, k: nat, offer: Offer)
    requires k < |s.runners| &&
      (s.runners[k].pc.Acquire? ==> offer.NoBuffer?) && !s.runners[k].pc.RejectDeliver? && !s.runners[k].pc.CancelDeliver?
    requires s'.acquired == s.acquired && s'.delivered == s.delivered && s'.dmaGood == s.dmaGood
    ensures Flows(s, s', RunLap(k, offer))
  {
  }

  lemma LapAcquireFlows(s: Engine, k: nat, offer: Offer, i: nat, d: nat)
    requires k < |s.runners| && s.runners[k].pc == Acquire(i, d) && d < |s.frames|
    ensures Flows(s, LapStep(s, k, offer), RunLap(k, offer))
  {
    if offer.NoBuffer? { QuietLapFlows(s, LapMove(s, k, GiveBack(d)), k, offer); }
    else if offer.fits { LapPrimeFlows(s, k, i, d, offer.c); }
  }

  lemma LapPrimeFlows(s: Engine, k: nat, i: nat, d: nat, c: nat)
    requires k < |s.runners| && s.runners[k].pc == Acquire(i, d) && d < |s.frames|
    ensures Flows(s, LapPrime(s, k, i, d, c), RunLap(k, Buffer(c, true)))
  {
  }

  lemma LapDeliverFlows(s: Engine, k: nat, offer: Offer)
    requires k < |s.runners| && (s.runners[k].pc.RejectDeliver? || s.runners[k].pc.CancelDeliver?)
    ensures Flows(s, LapStep(s, k, offer), RunLap(k, offer))
  {
    if s.runners[k].pc.RejectDeliver? {} else {}
  }

  lemma LapListFlows(s: Engine, k: nat, offer: Offer)
    requires k < |s.runners| && LapInRange(s.runners[k].pc, |s.frames|)
    requires s.runners[k].pc.GiveBack? || s.runners[k].pc.Reject? || s.runners[k].pc.Publish? || s.runners[k].pc.Submit?
    ensures Flows(s, LapStep(s, k, offer), RunLap(k, offer))
  {
    match s.runners[k].pc
    case GiveBack(d) => QuietLapFlows(s, LapReturn(s, k, d, LapEnd), k, offer);
    case Reject(i, d, t, c) => QuietLapFlows(s, LapReturn(s, k, d, RejectDeliver(i, t, c)), k, offer);
    case Publish(i, d, t, c) =>
      if s.draining { QuietLapFlows(s, LapReturn(s, k, d, CancelDeliver(t, c)), k, offer); }
      else { QuietLapFlows(s, LapAttach(s, k, i, d, t), k, offer); }
    case Submit(i, d) => QuietLapFlows(s, LapSubmit(s, k, i, d), k, offer);
  }

  lemma LapClaimFlows(s: Engine, k: nat, offer: Offer)
    requires k < |s.runners| && s.runners[k].pc.Claim?
    ensures Flows(s, LapStep(s, k, offer), RunLap(k, offer))
  {
    if s.draining || s.freeList == [] { QuietLapFlows(s, LapMove(s, k, LapEnd), k, offer); }
    else { QuietLapFlows(s, LapClaim(s, k, s.runners[k].pc.i), k, offer); }
  }

  lemma LapEndFlows(s: Engine, k: nat, offer: Offer)
    requires k < |s.runners| && s.runners[k].pc.LapEnd?
    ensures Flows(s, LapStep(s, k, offer), RunLap(k, offer))
  {
    if s.pumpAgain { QuietLapFlows(s, LapMove(s, k, LapStart), k, offer); } else { QuietLapFlows(s, LapLeave(s, k), k, offer); }
  }

  lemma LapFlows(s: Engine, k: nat, offer: Offer)
    requires k < |s.runners| && LapInRange(s.runners[k].pc, |s.frames|)
    ensures Flows(s, LapStep(s, k, offer), RunLap(k, offer))
  {
    var pc := s.runners[k].pc;
    if pc.Acquire? { LapAcquireFlows(s, k, offer, pc.i, pc.d); }
    else if pc.RejectDeliver? || pc.CancelDeliver? { LapDeliverFlows(s, k, offer); }
    else if pc.GiveBack? || pc.Reject? || pc.Publish? || pc.Submit? { LapListFlows(s, k, offer); }
    else if pc.LapStart? { QuietLapFlows(s, LapBegin(s, k), k, offer); }
    else if pc.Claim? { LapClaimFlows(s, k, offer); }
    else { LapEndFlows(s, k, offer); }
  }

  lemma PumpFlows(s: Engine, a: Action)
    requires Enabled(s, a) && a.OfPump()
    ensures Flows(s, ApplyPump(s, a), a)
  {
    match a
    case CallPump => QuietFlows(s, PumpCall(s), a);
    case RunElection(counted) =>
      if s.pumpActive { QuietFlows(s, ElectLost(s, counted), a); } else { QuietFlows(s, ElectWon(s, counted), a); }
    case RunLap(k, offer) => LapFlows(s, k, offer);
  }

  lemma AttachEndFlows(s: Engine, d: nat, st: Status)
    requires AttachCanEnd(s, d, st)
    ensures Flows(s, AttachEnd(s, d, st), BusAttachEnd(d, st))
  {
    if !st.Success? { AttachFailedFlows(s, d, st); } else { AttachKeptFlows(s, d); }
  }

  lemma AttachFailedFlows(s: Engine, d: nat, st: Status)
    requires d < |s.frames|
    ensures Flows(s, AttachFailed(s, d, st), BusAttachEnd(d, st))
  {
    QuietFlows(s, AttachFailed(s, d, st), BusAttachEnd(d, st));
  }

  lemma AttachKeptFlows(s: Engine, d: nat)
    requires AttachCanEnd(s, d, Success)
    ensures Flows(s, AttachEnd(s, d, Success), BusAttachEnd(d, Success))
  {
    var s' := AttachEnd(s, d, Success);
    assert s' == (if s.frames[d].state.CompletedWhileAttaching? then AttachFoundDone(s, d) else AttachPublished(s, d));
    QuietFlows(s, s', BusAttachEnd(d, Success));
  }

  lemma FrameFlows(s: Engine, d: nat, st: Status)
    requires FrameCanComplete(s, d)
    ensures Flows(s, FrameComplete(s, d, st), BusFrame(d, st))
  {
  }

  lemma DetachEndFlows(s: Engine, d: nat, ok: bool)
    requires DetachCanEnd(s, d)
    ensures Flows(s, DetachEnd(s, d, ok), BusDetachEnd(d, ok))
  {
    if ok { QuietFlows(s, DetachRecycled(s, d), BusDetachEnd(d, ok)); }
    else { QuietFlows(s, DetachQuarantined(s, d), BusDetachEnd(d, ok)); }
  }

  lemma BusFlows(s: Engine, a: Action)
    requires Enabled(s, a) && a.OfBus()
    ensures Flows(s, ApplyBus(s, a), a)
  {
    match a
    case BusAttachEnd(d, st) => AttachEndFlows(s, d, st);
    case BusFrame(d, st) => FrameFlows(s, d, st);
    case BusDetachEnd(d, ok) => DetachEndFlows(s, d, ok);
  }

  lemma TailDeliverFlows(s: Engine, t: nat)
    requires t < |s.location| && s.location[t].AtTail?
    ensures Flows(s, TailDeliver(s, t), RunDeliver(t))
  {
  }

  lemma TailFlows(s: Engine, a: Action)
    requires Enabled(s, a) && a.OfTail()
    ensures Flows(s, ApplyTail(s, a), a)
  {
    if a.RunDeliver? { TailDeliverFlows(s, a.t); } else { QuietTailFlows(s, a); }
  }

  lemma QuietTailFlows(s: Engine, a: Action)
    requires Enabled(s, a) && a.OfTail() && !a.RunDeliver?
    ensures Flows(s, ApplyTail(s, a), a)
  {
    if a.RunCallback? {
      if s.frames[a.d].state.Pending? {} else {}
    }
    var s' := ApplyTail(s, a);
    QuietFlows(s, s', a);
  }

  lemma QuiesceFlows(s: Engine, a: Action)
    requires Enabled(s, a) && a.OfQuiesce()
    ensures Flows(s, ApplyQuiesce(s, a), a)
  {
    var s' := ApplyQuiesce(s, a);
    if a.CtlClaim? { ClaimSame(s, s', s.control.pass); }
    QuietFlows(s, s', a);
  }

  lemma ClaimSame(s: Engine, s': Engine, pass: nat)
    requires s' == ClaimNext(s, pass)
    ensures s'.acquired == s.acquired && s'.delivered == s.delivered && s'.dmaGood == s.dmaGood
  {
    var i := FirstPending(s.frames, s.pendingList);
    if i == |s.pendingList| { assert s' == s.(control := QuiesceDrain(pass)); }
    else { assert s' == ClaimPending(s, pass, s.pendingList[i]); }
  }

  lemma ScanDeliverFlows(s: Engine)
    requires s.control.ReleaseDeliver?
    ensures Flows(s, ScanDeliver(s, s.control.i, s.control.flushed, s.control.t, s.control.c), CtlDeliver)
  {
  }

  lemma ReleaseFlows(s: Engine, a: Action)
    requires Enabled(s, a) && a.OfRelease()
    ensures Flows(s, ApplyRelease(s, a), a)
  {
    if a.CtlDeliver? { ScanDeliverFlows(s); }
    else if a.CtlScan? { ScanFlows(s); }
    else { QuietFlows(s, ApplyRelease(s, a), a); }
  }

  lemma ScanFlows(s: Engine)
    requires s.control.ReleaseScan?
    ensures Flows(s, ScanNext(s, s.control.i, s.control.flushed), CtlScan)
  {
    var s' := ScanNext(s, s.control.i, s.control.flushed);
    ScanSame(s, s', s.control.i, s.control.flushed);
    QuietFlows(s, s', CtlScan);
  }

  lemma ScanSame(s: Engine, s': Engine, i: nat, flushed: bool)
    requires s' == ScanNext(s, i, flushed)
    ensures s'.acquired == s.acquired && s'.delivered == s.delivered && s'.dmaGood == s.dmaGood
  {
    if i < |s.frames| && s.frames[i].state.DetachFailed? { ScanHolds(s, s', i, flushed); } else { ScanMoves(s, s', i, flushed); }
  }

  lemma ScanHolds(s: Engine, s': Engine, i: nat, flushed: bool)
    requires i < |s.frames| && s.frames[i].state.DetachFailed? && s' == ScanNext(s, i, flushed)
    ensures s'.acquired == s.acquired && s'.delivered == s.delivered && s'.dmaGood == s.dmaGood
  {
  }

  lemma ScanMoves(s: Engine, s': Engine, i: nat, flushed: bool)
    requires !(i < |s.frames| && s.frames[i].state.DetachFailed?) && s' == ScanNext(s, i, flushed)
    ensures s'.acquired == s.acquired && s'.delivered == s.delivered && s'.dmaGood == s.dmaGood
  {
  }

  lemma StartFlows(s: Engine, a: Action)
    requires Enabled(s, a) && a.OfStart()
    ensures Flows(s, ApplyStart(s, a), a)
  {
    QuietFlows(s, ApplyStart(s, a), a);
  }

  lemma StepFlows(s: Engine, a: Action)
    requires Enabled(s, a)
    ensures Flows(s, Apply(s, a), a)
  {
    if a.OfPump() { PumpFlows(s, a); }
    else if a.OfTail() { TailFlows(s, a); }
    else if a.OfBus() { BusFlows(s, a); }
    else if a.OfQuiesce() { QuiesceFlows(s, a); }
    else if a.OfRelease() { ReleaseFlows(s, a); }
    else { StartFlows(s, a); }
  }

  // A buffer held by a failed detach, or by the release that is about to hand it back.
  predicate Stuck(s: Engine, t: nat) {
    t < |s.location| &&
    (s.location[t].AtControl? ||
     (s.location[t].AtFrame? && s.location[t].d < |s.frames| && s.frames[s.location[t].d].state.DetachFailed?))
  }

  function StuckTickets(s: Engine): set<nat> {
    set t: nat | t < |s.location| && Stuck(s, t)
  }

  function Gone(s: Engine): set<nat> {
    set t: nat | t < |s.location| && s.location[t].AtClient?
  }

  lemma ControlHolds(n: nat, schedule: seq<Action>, s: Engine, t: nat)
    requires s == Run(Init(n), schedule) && t < |s.location| && s.location[t].AtControl?
    ensures s.control.ReleaseDeliver? && s.control.t == t
  {
    RunInv(n, schedule);
    assert BufferOk(s, t);
  }

  lemma StuckDelivered(n: nat, schedule: seq<Action>, s: Engine, a: Action, t: nat)
    requires s == Run(Init(n), schedule) && Enabled(s, a) && a.ByControlPlane()
    requires t < |s.location| && s.location[t].AtControl?
    ensures t in Gone(Apply(s, a))
  {
    ControlHolds(n, schedule, s, t);
    OnlyDelivers(s, a);
    ScanDelivers(s, Apply(s, a));
  }

  lemma OnlyDelivers(s: Engine, a: Action)
    requires s.control.ReleaseDeliver? && Enabled(s, a) && a.ByControlPlane()
    ensures a == CtlDeliver
  {
  }

  lemma ScanDelivers(s: Engine, s': Engine)
    requires s.control.ReleaseDeliver? && s' == Apply(s, CtlDeliver) && s.control.t < |s.location|
    ensures s.control.t in Gone(s')
  {
    assert s' == ScanDeliver(s, s.control.i, s.control.flushed, s.control.t, s.control.c);
  }

  lemma StuckKept(n: nat, schedule: seq<Action>, s: Engine, a: Action, t: nat)
    requires s == Run(Init(n), schedule) && Enabled(s, a) && !a.ByControlPlane()
    requires t < |s.location| && s.location[t].AtControl?
    ensures t < |Apply(s, a).location| && Apply(s, a).location[t].AtControl?
  {
    RunInv(n, schedule);
    assert BufferOk(s, t);
    StepInv(s, a);
  }

  lemma StuckInScan(n: nat, schedule: seq<Action>, s: Engine, a: Action, d: nat)
    requires s == Run(Init(n), schedule) && Enabled(s, a) && a.CtlScan? && s.control == ReleaseScan(d, true)
    requires d < |s.frames| && s.frames[d].state.DetachFailed?
    ensures Stuck(Apply(s, a), s.frames[d].ticket)
  {
    RunInv(n, schedule);
    assert FrameOk(s, d);
  }

  lemma StuckFrame(n: nat, schedule: seq<Action>, s: Engine, d: nat)
    requires s == Run(Init(n), schedule) && d < |s.frames| && s.frames[d].state.DetachFailed?
    ensures Stuck(s, s.frames[d].ticket)
  {
    RunInv(n, schedule);
    assert FrameOk(s, d);
  }

  lemma StuckAt(n: nat, schedule: seq<Action>, s: Engine, t: nat)
    requires s == Run(Init(n), schedule) && Stuck(s, t) && s.location[t].AtFrame?
    ensures s.frames[s.location[t].d].ticket == t
  {
    RunInv(n, schedule);
    assert BufferOk(s, t);
  }

  // Such a buffer stays where it is until a release takes and then delivers it.
  lemma StuckStays(n: nat, schedule: seq<Action>, s: Engine, a: Action, t: nat)
    requires s == Run(Init(n), schedule) && Enabled(s, a) && Stuck(s, t)
    ensures Stuck(Apply(s, a), t) || t in Gone(Apply(s, a))
  {
    if s.location[t].AtControl? {
      if a.ByControlPlane() { StuckDelivered(n, schedule, s, a, t); } else { StuckKept(n, schedule, s, a, t); }
    } else {
      var d := s.location[t].d;
      StuckAt(n, schedule, s, t);
      QuarantineExit(n, schedule, s, a, d);
      if a.CtlScan? && s.control == ReleaseScan(d, true) {
        StuckInScan(n, schedule, s, a, d);
      } else {
        RunSnoc(Init(n), schedule, a);
        StuckFrame(n, schedule + [a], Apply(s, a), d);
      }
    }
  }

  // ------------------------------------------------------------------------ what is gone

  lemma GoneTickets(s: Engine)
    requires Core(s)
    ensures |s.location| == |s.acquired| && Gone(s) == DeliveredTickets(s)
  {
    HeldBuffers(s);
    forall t: nat | t < |s.location| && s.location[t].AtClient? ensures t in DeliveredTickets(s) {
      assert BufferOk(s, t);
    }
  }

  // A buffer is gone exactly when it was delivered.
  lemma GoneDelivered(n: nat, schedule: seq<Action>, s: Engine)
    requires s == Run(Init(n), schedule)
    ensures |s.location| == |s.acquired| && Gone(s) == DeliveredTickets(s) && DeliveriesGood(s)
  {
    ExactlyOnce(n, schedule);
    RunInv(n, schedule);
    GoneTickets(s);
  }

  // One more delivery: its buffer was not gone before, and is now.
  lemma GoneGrows(n: nat, schedule: seq<Action>, s: Engine, a: Action)
    requires s == Run(Init(n), schedule) && Enabled(s, a)
    ensures var s' := Apply(s, a);
      if |s'.delivered| == |s.delivered| then Gone(s') == Gone(s)
      else
        |s'.delivered| == |s.delivered| + 1 && s'.acquired == s.acquired &&
        var v := s'.delivered[|s.delivered|];
        v.t < |s.acquired| && v.t !in Gone(s) && v.c == s.acquired[v.t] && Gone(s') == Gone(s) + {v.t}
  {
    var s' := Apply(s, a);
    StepFlows(s, a);
    GoneDelivered(n, schedule, s);
    RunSnoc(Init(n), schedule, a);
    GoneDelivered(n, schedule + [a], s');
    if |s'.delivered| != |s.delivered| {
      DeliveredSnoc(s, s');
    }
  }

  lemma DeliveredSnoc(s: Engine, s': Engine)
    requires |s'.delivered| == |s.delivered| + 1 && s'.delivered[..|s.delivered|] == s.delivered
    ensures DeliveredTickets(s') == DeliveredTickets(s) + {s'.delivered[|s.delivered|].t}
    ensures forall i :: 0 <= i < |s.delivered| ==> s.delivered[i] == s'.delivered[i]
  {
    assert forall i :: 0 <= i < |s.delivered| ==> s.delivered[i] == s'.delivered[..|s.delivered|][i];
  }

  // The front-end has the buffer back, or a failed detach holds it.
  predicate Back(s: Engine, t: nat) {
    t in Gone(s) || Stuck(s, t)
  }

  lemma StepBack(n: nat, schedule: seq<Action>, s: Engine, a: Action, t: nat)
    requires s == Run(Init(n), schedule) && Enabled(s, a) && Back(s, t)
    ensures Back(Apply(s, a), t)
  {
    if t in Gone(s) { GoneGrows(n, schedule, s, a); } else { StuckStays(n, schedule, s, a, t); }
  }

  // However the run goes on from there.
  lemma {:induction false} BackStays(n: nat, before: seq<Action>, after: seq<Action>, t: nat)
    requires before <= after && Back(Run(Init(n), before), t)
    ensures Back(Run(Init(n), after), t)
    decreases |after|
  {
    if |after| > |before| {
      var rest, a := after[..|after| - 1], after[|after| - 1];
      assert before <= rest;
      BackStays(n, before, rest, t);
      if Enabled(Run(Init(n), rest), a) { StepBack(n, rest, Run(Init(n), rest), a, t); }
    } else {
      assert before == after;
    }
  }

  lemma {:induction false} AcquiredStays(n: nat, before: seq<Action>, after: seq<Action>)
    requires before <= after
    ensures Run(Init(n), before).acquired <= Run(Init(n), after).acquired
    decreases |after|
  {
    if |after| > |before| {
      var rest, a := after[..|after| - 1], after[|after| - 1];
      assert before <= rest;
      AcquiredStays(n, before, rest);
      if Enabled(Run(Init(n), rest), a) { StepFlows(Run(Init(n), rest), a); }
    } else {
      assert before == after;
    }
  }
}
