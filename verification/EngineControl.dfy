// The steps of the control context keep the control-plane facts and the bus driver's view,
// and with the other steps the whole invariant over every schedule.

module EngineControl {
  import opened EngineModel
  import opened BusMonitor
  import opened EngineInvariant
  import opened EngineCore
  import opened EnginePlane

  lemma BeginDrainPlane(s: Engine)
    requires Inv(s) && s.control.Idle? && !s.draining
    ensures ControlOk(BeginDrain(s)) && Monitored(BeginDrain(s))
  {
  }

  lemma IssueStopPlane(s: Engine)
    requires Inv(s) && s.control.QuiesceStop? && NoneFired(s)
    ensures ControlOk(IssueStop(s)) && Monitored(IssueStop(s))
  {
    LoggedMonitored(s, IssueStop(s), StopIssued);
  }

  lemma ClaimPendingPlane(s: Engine, pass: nat, d: nat)
    requires Inv(s) && s.control == QuiesceClaim(pass) && d < |s.frames| && s.frames[d].state.Pending?
    ensures ControlOk(ClaimPending(s, pass, d)) && Monitored(ClaimPending(s, pass, d))
  {
    assert FrameOk(s, d);
    SilentMonitored(s, ClaimPending(s, pass, d));
  }

  lemma ClaimNonePlane(s: Engine, pass: nat)
    requires Inv(s) && s.control == QuiesceClaim(pass)
    requires FirstPending(s.frames, s.pendingList) == |s.pendingList|
    ensures var s' := s.(control := QuiesceDrain(pass)); ControlOk(s') && Monitored(s')
  {
    if s.pendingList != [] { assert FrameOk(s, s.pendingList[0]); }
    SilentMonitored(s, s.(control := QuiesceDrain(pass)));
  }

  lemma SubmitClaimedPlane(s: Engine, pass: nat, d: nat)
    requires Inv(s) && s.control == QuiesceSubmit(pass, d) && d < |s.frames|
    ensures ControlOk(SubmitClaimed(s, pass, d)) && Monitored(SubmitClaimed(s, pass, d))
  {
    assert FrameOk(s, d);
    LoggedMonitored(s, SubmitClaimed(s, pass, d), DetachSubmitted(d));
  }

  lemma DrainedPlane(s: Engine, pass: nat)
    requires Inv(s) && s.control == QuiesceDrain(pass) && s.inFlight == 0
    ensures var s' := s.(control := QuiesceCheck(pass)); ControlOk(s') && Monitored(s')
  {
    DrainedFacts(s);
    SilentMonitored(s, s.(control := QuiesceCheck(pass)));
  }

  // The list is empty on the second look, and nothing is in flight once it is.
  lemma CheckListPlane(s: Engine, pass: nat)
    requires Inv(s) && s.control == QuiesceCheck(pass)
    ensures ControlOk(CheckList(s, pass)) && Monitored(CheckList(s, pass))
  {
    SilentMonitored(s, CheckList(s, pass));
  }

  lemma SettlePlane(s: Engine)
    requires Inv(s) && s.control.QuiescePumpIdle? && !s.pumpActive
    ensures ControlOk(Settle(s)) && Monitored(Settle(s))
  {
    SilentMonitored(s, Settle(s));
  }

  // A session opens over descriptors that are all free.
  lemma OpenSessionPlane(s: Engine)
    requires Inv(s) && s.draining && s.resourceAllocated && !HasQuarantined(s)
    requires s.control.Settled? || s.control.Starting?
    ensures ControlOk(OpenSession(s)) && Monitored(OpenSession(s))
    ensures forall d :: 0 <= d < |s.frames| ==> !s.frames[d].state.Detaching?
  {
    SettledFrames(s);
    LoggedMonitored(s, OpenSession(s), SessionOpened);
  }

  lemma ReleasePlane(s: Engine)
    requires Inv(s) && Enabled(s, CtlRelease)
    ensures var s' := s.(control := ReleaseFree); ControlOk(s') && Monitored(s')
  {
    SilentMonitored(s, s.(control := ReleaseFree));
  }

  lemma FreeReachedPlane(s: Engine, o: FreeOutcome)
    requires Inv(s) && s.control.ReleaseFree? && FreeReached(s, o)
    ensures Monitored(FreeResources(s, o))
  {
    SettledFrames(s);
    assert !Flushed(s, o) ==> !FlushedNow(FreeResources(s, o).control);
    LoggedMonitored(s, FreeResources(s, o), ResourcesFreed(Flushed(s, o)));
  }

  lemma FreeNotReachedPlane(s: Engine, o: FreeOutcome)
    requires Inv(s) && s.control.ReleaseFree? && !FreeReached(s, o)
    ensures Monitored(FreeResources(s, o))
  {
    SilentMonitored(s, FreeResources(s, o));
  }

  lemma FreeResourcesControl(s: Engine, o: FreeOutcome)
    requires Inv(s) && s.control.ReleaseFree?
    ensures ControlOk(FreeResources(s, o))
  {
  }

  lemma ScanRecyclePlane(s: Engine, i: nat, flushed: bool)
    requires Inv(s) && s.control == ReleaseScan(i, flushed) && i < |s.frames| && s.frames[i].state.DetachFailed?
    ensures ControlOk(ScanRecycle(s, i, flushed)) && Monitored(ScanRecycle(s, i, flushed))
  {
    assert flushed;
    SilentMonitored(s, ScanRecycle(s, i, flushed));
  }

  lemma ScanMovePlane(s: Engine, i: nat, flushed: bool)
    requires Inv(s) && s.control == ReleaseScan(i, flushed)
    requires i < |s.frames| ==> !s.frames[i].state.DetachFailed?
    ensures ControlOk(ScanNext(s, i, flushed)) && Monitored(ScanNext(s, i, flushed))
  {
    SettledFrames(s);
  }

  lemma ScanDeliverPlane(s: Engine)
    requires Inv(s) && s.control.ReleaseDeliver?
    ensures var s' := ScanDeliver(s, s.control.i, s.control.flushed, s.control.t, s.control.c);
            ControlOk(s') && Monitored(s')
  {
    SilentMonitored(s, ScanDeliver(s, s.control.i, s.control.flushed, s.control.t, s.control.c));
  }

  lemma StartCheckPlane(s: Engine)
    requires Inv(s) && s.control.Idle? && s.draining && !HasQuarantined(s)
    ensures var s' := s.(control := Starting(false)); ControlOk(s') && Monitored(s')
  {
  }

  lemma AllocatedPlane(s: Engine)
    requires Inv(s) && s.control.Starting?
    ensures var s' := s.(resourceAllocated := true, control := Starting(true)); ControlOk(s') && Monitored(s')
  {
    SilentMonitored(s, s.(resourceAllocated := true, control := Starting(true)));
  }

  lemma ListenPlane(s: Engine)
    requires Inv(s) && s.control.Idle? && !s.draining
    ensures var s' := s.(listening := true, log := s.log + [ListenIssued]); ControlOk(s') && Monitored(s')
  {
    LoggedMonitored(s, s.(listening := true, log := s.log + [ListenIssued]), ListenIssued);
  }

  // ------------------------------------------------------------------- the whole machine

  lemma LapCore(s: Engine, offer: Offer)
    requires Inv(s) && |s.runners| == 1 && LapInRange(s.runners[0].pc, |s.frames|)
    ensures Core(LapStep(s, 0, offer))
  {
    match s.runners[0].pc
    case LapStart => LapBeginCore(s);
    case Claim(i) =>
      if s.draining || s.freeList == [] { LapMoveCore(s, LapEnd); } else { LapClaimCore(s, i); }
    case Acquire(i, d) =>
      if offer.NoBuffer? { LapMoveCore(s, GiveBack(d)); }
      else if offer.fits { LapPrimeCore(s, i, d, offer.c); }
      else { LapRefuseCore(s, i, d, offer.c); }
    case GiveBack(d) => LapReturnCore(s, d, LapEnd);
    case Reject(i, d, t, c) => LapReturnCore(s, d, RejectDeliver(i, t, c));
    case RejectDeliver(i, t, c) => LapDeliverCore(s, InvalidParameter, NextIteration(s, i));
    case Publish(i, d, t, c) =>
      if s.draining { LapReturnCore(s, d, CancelDeliver(t, c)); } else { LapAttachCore(s, i, d, t, c); }
    case CancelDeliver(t, c) => LapDeliverCore(s, Cancelled, LapEnd);
    case Submit(i, d) => LapSubmitCore(s, i, d);
    case LapEnd => if s.pumpAgain { LapMoveCore(s, LapStart); } else { LapLeaveCore(s); }
  }

  predicate Unclaimed(pc: LapPc) {
    pc.LapStart? || pc.Claim? || pc.GiveBack? || pc.RejectDeliver? || pc.CancelDeliver? || pc.LapEnd?
  }

  lemma LapUnclaimedPlane(s: Engine, offer: Offer)
    requires Inv(s) && |s.runners| == 1 && LapInRange(s.runners[0].pc, |s.frames|) && Unclaimed(s.runners[0].pc)
    ensures Interference(s, LapStep(s, 0, offer)) && Silent(s, LapStep(s, 0, offer))
  {
    match s.runners[0].pc
    case LapStart => LapBeginPlane(s);
    case Claim(i) =>
      if s.draining || s.freeList == [] { LapMovePlane(s, LapEnd); } else { LapClaimPlane(s, i); }
    case GiveBack(d) => LapReturnPlane(s, d, LapEnd);
    case RejectDeliver(i, t, c) => LapDeliverPlane(s, t, c, InvalidParameter, NextIteration(s, i));
    case CancelDeliver(t, c) => LapDeliverPlane(s, t, c, Cancelled, LapEnd);
    case LapEnd => if s.pumpAgain { LapMovePlane(s, LapStart); } else { LapLeavePlane(s); }
  }

  lemma LapClaimedPlane(s: Engine, offer: Offer)
    requires Inv(s) && |s.runners| == 1 && LapInRange(s.runners[0].pc, |s.frames|) && !Unclaimed(s.runners[0].pc)
    ensures Interference(s, LapStep(s, 0, offer))
    ensures s.runners[0].pc.Submit? || Silent(s, LapStep(s, 0, offer))
    ensures s.runners[0].pc.Submit? ==> Monitored(LapStep(s, 0, offer))
  {
    match s.runners[0].pc
    case Acquire(i, d) =>
      if offer.NoBuffer? { LapMovePlane(s, GiveBack(d)); }
      else if offer.fits { LapPrimePlane(s, i, d, offer.c); }
      else { LapRefusePlane(s, i, d, offer.c); }
    case Reject(i, d, t, c) => LapReturnPlane(s, d, RejectDeliver(i, t, c));
    case Publish(i, d, t, c) =>
      if s.draining { LapReturnPlane(s, d, CancelDeliver(t, c)); } else { LapAttachPlane(s, i, d, t, c); }
    case Submit(i, d) => LapSubmitPlane(s, i, d);
  }

  lemma LapPlane(s: Engine, offer: Offer)
    requires Inv(s) && |s.runners| == 1 && LapInRange(s.runners[0].pc, |s.frames|)
    ensures Interference(s, LapStep(s, 0, offer))
    ensures s.runners[0].pc.Submit? || Silent(s, LapStep(s, 0, offer))
    ensures s.runners[0].pc.Submit? ==> Monitored(LapStep(s, 0, offer))
  {
    if Unclaimed(s.runners[0].pc) { LapUnclaimedPlane(s, offer); } else { LapClaimedPlane(s, offer); }
  }

  lemma TailInv(s: Engine, a: Action)
    requires Inv(s) && Enabled(s, a) && a.OfTail()
    ensures Inv(ApplyTail(s, a)) && Interference(s, ApplyTail(s, a))
  {
    var s' := ApplyTail(s, a);
    match a
    case RunCallback(d) =>
      if s.frames[d].state.Pending? {
        CallbackClaimsCore(s, d);
        CallbackClaimsPlane(s, d);
      } else {
        CallbackDefersCore(s, d);
        CallbackDefersPlane(s, d);
      }
      InterferenceControl(s, s');
      SilentMonitored(s, s');
    case RunSubmit(d) =>
      TailSubmitCore(s, d);
      TailSubmitPlane(s, d);
      InterferenceControl(s, s');
    case RunDeliver(t) =>
      TailDeliverCore(s, t);
      TailDeliverPlane(s, t);
      InterferenceControl(s, s');
      SilentMonitored(s, s');
    case RunArmed =>
      SignalAttachedCore(s);
      SignalAttachedPlane(s);
      InterferenceControl(s, s');
      SilentMonitored(s, s');
    case RunDone =>
      DropCountCore(s);
      DropCountPlane(s);
      InterferenceControl(s, s');
      SilentMonitored(s, s');
  }

  lemma BusInv(s: Engine, a: Action)
    requires Inv(s) && Enabled(s, a) && a.OfBus()
    ensures Inv(ApplyBus(s, a)) && Interference(s, ApplyBus(s, a))
  {
    match a
    case BusAttachEnd(d, st) =>
      if !st.Success? {
        AttachFailedCore(s, d, st);
        AttachFailedPlane(s, d, st);
      } else if s.frames[d].state.CompletedWhileAttaching? {
        AttachFoundDoneCore(s, d);
        AttachFoundDonePlane(s, d);
      } else {
        AttachPublishedCore(s, d);
        AttachPublishedPlane(s, d);
      }
      InterferenceControl(s, AttachEnd(s, d, st));
    case BusFrame(d, st) =>
      FrameCompleteCore(s, d, st);
      FrameCompletePlane(s, d, st);
      InterferenceControl(s, FrameComplete(s, d, st));
    case BusDetachEnd(d, ok) =>
      if ok {
        DetachRecycledCore(s, d);
        DetachRecycledPlane(s, d);
      } else {
        DetachQuarantinedCore(s, d);
        DetachQuarantinedPlane(s, d);
      }
      InterferenceControl(s, DetachEnd(s, d, ok));
  }

  lemma ClaimInv(s: Engine)
    requires Inv(s) && s.control.QuiesceClaim?
    ensures Inv(ClaimNext(s, s.control.pass)) && |ClaimNext(s, s.control.pass).frames| == |s.frames|
  {
    var pass := s.control.pass;
    var i := FirstPending(s.frames, s.pendingList);
    if i == |s.pendingList| {
      ControlCore(s, s.(control := QuiesceDrain(pass)));
      ClaimNonePlane(s, pass);
    } else {
      ClaimPendingCore(s, pass, s.pendingList[i]);
      ClaimPendingPlane(s, pass, s.pendingList[i]);
    }
  }

  lemma QuiesceInv(s: Engine, a: Action)
    requires Inv(s) && Enabled(s, a) && a.OfQuiesce()
    ensures Inv(ApplyQuiesce(s, a)) && |ApplyQuiesce(s, a).frames| == |s.frames|
  {
    match a
    case CtlBeginDrain =>
      ControlCore(s, BeginDrain(s));
      BeginDrainPlane(s);
    case CtlStop =>
      ControlCore(s, IssueStop(s));
      IssueStopPlane(s);
    case CtlClaim => ClaimInv(s);
    case CtlSubmit =>
      SubmitClaimedCore(s, s.control.pass, s.control.d);
      SubmitClaimedPlane(s, s.control.pass, s.control.d);
    case CtlDrained =>
      ControlCore(s, s.(control := QuiesceCheck(s.control.pass)));
      DrainedPlane(s, s.control.pass);
    case CtlCheck =>
      ControlCore(s, CheckList(s, s.control.pass));
      CheckListPlane(s, s.control.pass);
    case CtlPumpIdle =>
      ControlCore(s, Settle(s));
      SettlePlane(s);
  }

  lemma ScanMoveInv(s: Engine, i: nat, flushed: bool)
    requires Inv(s) && s.control == ReleaseScan(i, flushed)
    requires i < |s.frames| ==> !s.frames[i].state.DetachFailed?
    ensures Inv(ScanNext(s, i, flushed)) && |ScanNext(s, i, flushed).frames| == |s.frames|
  {
    ControlCore(s, ScanNext(s, i, flushed));
    ScanMovePlane(s, i, flushed);
  }

  lemma ScanInv(s: Engine, i: nat, flushed: bool)
    requires Inv(s) && s.control == ReleaseScan(i, flushed)
    ensures Inv(ScanNext(s, i, flushed)) && |ScanNext(s, i, flushed).frames| == |s.frames|
  {
    if i < |s.frames| && s.frames[i].state.DetachFailed? {
      ScanRecycleCore(s, i, flushed);
      ScanRecyclePlane(s, i, flushed);
    } else {
      ScanMoveInv(s, i, flushed);
    }
  }

  lemma ReleaseInv(s: Engine, a: Action)
    requires Inv(s) && Enabled(s, a) && a.OfRelease()
    ensures Inv(ApplyRelease(s, a)) && |ApplyRelease(s, a).frames| == |s.frames|
  {
    match a
    case CtlRelease =>
      ControlCore(s, s.(control := ReleaseFree));
      ReleasePlane(s);
    case CtlFree(o) =>
      ControlCore(s, FreeResources(s, o));
      FreeResourcesControl(s, o);
      if FreeReached(s, o) { FreeReachedPlane(s, o); } else { FreeNotReachedPlane(s, o); }
    case CtlScan => ScanInv(s, s.control.i, s.control.flushed);
    case CtlDeliver =>
      ScanDeliverCore(s);
      ScanDeliverPlane(s);
  }

  lemma StartInv(s: Engine, a: Action)
    requires Inv(s) && Enabled(s, a) && a.OfStart()
    ensures Inv(ApplyStart(s, a)) && |ApplyStart(s, a).frames| == |s.frames|
  {
    match a
    case CtlResume =>
      OpenSessionPlane(s);
      ControlCore(s, OpenSession(s));
    case CtlOpen =>
      OpenSessionPlane(s);
      ControlCore(s, OpenSession(s));
    case CtlStartCheck =>
      ControlCore(s, s.(control := Starting(false)));
      StartCheckPlane(s);
    case CtlAllocated =>
      ControlCore(s, s.(resourceAllocated := true, control := Starting(true)));
      AllocatedPlane(s);
    case CtlListen =>
      ControlCore(s, s.(listening := true, log := s.log + [ListenIssued]));
      ListenPlane(s);
  }

  lemma LapStepInv(s: Engine, offer: Offer)
    requires Inv(s) && |s.runners| == 1 && LapInRange(s.runners[0].pc, |s.frames|)
    ensures Inv(LapStep(s, 0, offer)) && Interference(s, LapStep(s, 0, offer))
  {
    LapCore(s, offer);
    LapPlane(s, offer);
    InterferenceControl(s, LapStep(s, 0, offer));
    if !s.runners[0].pc.Submit? { SilentMonitored(s, LapStep(s, 0, offer)); }
  }

  lemma ElectionInv(s: Engine, counted: bool)
    requires Inv(s) && CanElect(s, counted)
    ensures var s' := if s.pumpActive then ElectLost(s, counted) else ElectWon(s, counted);
            Inv(s') && Interference(s, s')
  {
    if s.pumpActive {
      ElectLostCore(s, counted);
      ElectLostPlane(s, counted);
      InterferenceControl(s, ElectLost(s, counted));
      SilentMonitored(s, ElectLost(s, counted));
    } else {
      ElectWonCore(s, counted);
      ElectWonPlane(s, counted);
      InterferenceControl(s, ElectWon(s, counted));
      SilentMonitored(s, ElectWon(s, counted));
    }
  }

  lemma PumpInv(s: Engine, a: Action)
    requires Inv(s) && Enabled(s, a) && a.OfPump()
    ensures Inv(ApplyPump(s, a)) && Interference(s, ApplyPump(s, a))
  {
    match a
    case CallPump =>
      CallPumpCore(s);
      CallPumpPlane(s);
      InterferenceControl(s, PumpCall(s));
      SilentMonitored(s, PumpCall(s));
    case RunElection(counted) => ElectionInv(s, counted);
    case RunLap(k, offer) => LapStepInv(s, offer);
  }

  // Every enabled step keeps the invariant.
  lemma StepInv(s: Engine, a: Action)
    requires Inv(s) && Enabled(s, a)
    ensures Inv(Apply(s, a)) && |Apply(s, a).frames| == |s.frames|
    ensures !a.ByControlPlane() ==> Interference(s, Apply(s, a))
  {
    if a.OfPump() { PumpInv(s, a); }
    else if a.OfTail() { TailInv(s, a); }
    else if a.OfBus() { BusInv(s, a); }
    else if a.OfQuiesce() { QuiesceInv(s, a); }
    else if a.OfRelease() { ReleaseInv(s, a); }
    else { StartInv(s, a); }
  }

  // Over every schedule, for every pool size.
  lemma {:induction false} RunInv(n: nat, schedule: seq<Action>)
    ensures Inv(Run(Init(n), schedule)) && |Run(Init(n), schedule).frames| == n
    decreases |schedule|
  {
    if schedule == [] {
      InitInv(n);
    } else {
      var before := Run(Init(n), schedule[..|schedule| - 1]);
      RunInv(n, schedule[..|schedule| - 1]);
      if Enabled(before, schedule[|schedule| - 1]) { StepInv(before, schedule[|schedule| - 1]); }
    }
  }
}
