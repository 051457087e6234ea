// Every step keeps the control-plane facts and the bus driver's view.

module EnginePlane {
  import opened EngineModel
  import opened BusMonitor
  import opened EngineInvariant

  // ------------------------------------------------------------------------- no IRP left

  // InFlightIrps == 0 accounts for everything that could still touch the resource handle.
  lemma DrainedFacts(s: Engine)
    requires Core(s) && s.inFlight == 0
    ensures s.requests == multiset{} && s.enteringCounted == s.arming == s.finishing == 0
    ensures RunnerCount(s.runners) == 0 && !s.control.QuiesceSubmit?
    ensures forall d :: 0 <= d < |s.frames| ==>
              (s.frames[d].state.Free? || s.frames[d].state.Pending? || s.frames[d].state.DetachFailed?)
    ensures forall t :: 0 <= t < |s.location| ==> !s.location[t].AtTail?
  {
    forall d | 0 <= d < |s.frames|
      ensures s.frames[d].state.Free? || s.frames[d].state.Pending? || s.frames[d].state.DetachFailed?
    {
      assert FrameOk(s, d);
      if s.frames[d].carrier.ByTail? { TailFramesPositive(s.frames, d); }
    }
    forall t | 0 <= t < |s.location| ensures !s.location[t].AtTail? {
      if s.location[t].AtTail? { TailBuffersPositive(s.location, t); }
    }
  }

  // On a settled engine every descriptor is free or quarantined.
  lemma SettledFrames(s: Engine)
    requires Core(s) && s.inFlight == 0 && s.pendingList == []
    ensures forall d :: 0 <= d < |s.frames| ==> (s.frames[d].state.Free? || s.frames[d].state.DetachFailed?)
  {
    DrainedFacts(s);
    forall d | 0 <= d < |s.frames| ensures s.frames[d].state.Free? || s.frames[d].state.DetachFailed? {
      assert FrameOk(s, d);
    }
  }

  // ------------------------------------------------------------------- interfering steps

  // Work left on a descriptor: attaching > pending > detaching > free or quarantined.
  function Rank(f: Frame): nat {
    match f.state
    case Attaching => 3
    case CompletedWhileAttaching => 3
    case Pending => 2
    case Detaching => 1
    case _ => 0
  }

  // What a step outside the control context may do while the engine is draining.
  predicate Interference(s: Engine, s': Engine) {
    && s'.control == s.control && s'.draining == s.draining && s'.stopped == s.stopped
    && s'.resourceAllocated == s.resourceAllocated && s'.listening == s.listening && |s'.frames| == |s.frames|
    && (s.draining ==> forall d :: 0 <= d < |s.frames| ==> Rank(s'.frames[d]) <= Rank(s.frames[d]))
    && (s.draining && s.pendingList == [] ==> s'.pendingList == [])
    && (s.stopped && NoneFired(s) ==> NoneFired(s'))
    && (s.draining && s.stopped && NoneFired(s) && s.inFlight == 0 ==>
          s'.inFlight == 0 && s'.log == s.log && (RunnerEmpty(s) ==> RunnerEmpty(s')) &&
          forall d :: 0 <= d < |s.frames| ==> s'.frames[d].state == s.frames[d].state)
    && (forall d :: 0 <= d < |s.frames| && s.frames[d].state.DetachFailed? ==>
          s'.frames[d].state.DetachFailed? && s'.frames[d].ticket == s.frames[d].ticket)
  }

  lemma InterferenceControl(s: Engine, s': Engine)
    requires ControlOk(s) && Interference(s, s')
    ensures ControlOk(s')
  {
  }

  // What the monitor needs besides the ports.
  predicate OrderOk(s: Engine, last: int) {
    && last < |s.acquired|
    && (|s.runners| == 1 && s.runners[0].pc.Publish? ==> s.runners[0].pc.t > last)
    && (|s.runners| == 1 && s.runners[0].pc.Submit? ==>
          s.runners[0].pc.d < |s.frames| && s.frames[s.runners[0].pc.d].ticket > last)
  }

  // A step the bus driver does not see.
  ghost predicate Silent(s: Engine, s': Engine) {
    && s'.log == s.log && s'.stopped == s.stopped && FlushedNow(s'.control) == FlushedNow(s.control)
    && |s'.frames| == |s.frames|
    && (forall d :: 0 <= d < |s.frames| ==>
          PortOf(s'.frames[d], FlushedNow(s.control)) == PortOf(s.frames[d], FlushedNow(s.control)))
    && forall last: int :: OrderOk(s, last) ==> OrderOk(s', last)
  }

  lemma SilentMonitored(s: Engine, s': Engine)
    requires Monitored(s) && Silent(s, s')
    ensures Monitored(s')
  {
    assert OrderOk(s, Watch(|s.frames|, s.log).last);
    assert OrderOk(s', Watch(|s.frames|, s.log).last);
  }

  // A step logged as e.
  lemma LoggedMonitored(s: Engine, s': Engine, e: BusEvent)
    requires Monitored(s) && s'.log == s.log + [e] && |s'.frames| == |s.frames|
    requires var m := Observe(Watch(|s.frames|, s.log), e);
             m.Good? && |m.ports| == |s.frames| && m.stopped == s'.stopped && OrderOk(s', m.last) &&
             forall d :: 0 <= d < |s.frames| ==> m.ports[d] == PortOf(s'.frames[d], FlushedNow(s'.control))
    ensures Monitored(s')
  {
    WatchSnoc(|s.frames|, s.log, e);
  }

  // ---------------------------------------------------------------------------- the pump

  lemma CallPumpPlane(s: Engine)
    requires Inv(s)
    ensures Interference(s, PumpCall(s)) && Silent(s, PumpCall(s))
  {
  }

  lemma ElectLostPlane(s: Engine, counted: bool)
    requires Inv(s) && CanElect(s, counted)
    ensures Interference(s, ElectLost(s, counted)) && Silent(s, ElectLost(s, counted))
  {
  }

  lemma ElectWonPlane(s: Engine, counted: bool)
    requires Inv(s) && CanElect(s, counted) && !s.pumpActive
    ensures Interference(s, ElectWon(s, counted)) && Silent(s, ElectWon(s, counted))
  {
  }

  lemma LapBeginPlane(s: Engine)
    requires Inv(s) && |s.runners| == 1 && s.runners[0].pc.LapStart?
    ensures Interference(s, LapBegin(s, 0)) && Silent(s, LapBegin(s, 0))
  {
  }

  lemma LapMovePlane(s: Engine, pc: LapPc)
    requires Inv(s) && |s.runners| == 1
    requires pc.LapEnd? || pc.LapStart? || (pc.GiveBack? && !RunnerEmpty(s))
    ensures Interference(s, LapMove(s, 0, pc)) && Silent(s, LapMove(s, 0, pc))
  {
  }

  lemma LapClaimPlane(s: Engine, i: nat)
    requires Inv(s) && |s.runners| == 1 && s.freeList != [] && !s.draining
    ensures Interference(s, LapClaim(s, 0, i)) && Silent(s, LapClaim(s, 0, i))
  {
  }

  lemma LapRefusePlane(s: Engine, i: nat, d: nat, c: nat)
    requires Inv(s) && |s.runners| == 1 && s.runners[0].pc == Acquire(i, d)
    ensures Interference(s, LapRefuse(s, 0, i, d, c)) && Silent(s, LapRefuse(s, 0, i, d, c))
  {
  }

  lemma LapPrimePlane(s: Engine, i: nat, d: nat, c: nat)
    requires Inv(s) && |s.runners| == 1 && s.runners[0].pc == Acquire(i, d) && d < |s.frames|
    ensures Interference(s, LapPrime(s, 0, i, d, c)) && Silent(s, LapPrime(s, 0, i, d, c))
  {
  }

  lemma LapReturnPlane(s: Engine, d: nat, pc: LapPc)
    requires Inv(s) && |s.runners| == 1 && LapHolds(s.runners[0].pc) == d && d < |s.frames|
    requires pc.LapEnd? || pc.RejectDeliver? || pc.CancelDeliver?
    ensures Interference(s, LapReturn(s, 0, d, pc)) && Silent(s, LapReturn(s, 0, d, pc))
  {
    assert LapReturn(s, 0, d, pc).frames == s.frames;
  }

  lemma LapAttachPlane(s: Engine, i: nat, d: nat, t: nat, c: nat)
    requires Inv(s) && |s.runners| == 1 && s.runners[0].pc == Publish(i, d, t, c) && d < |s.frames| && !s.draining
    ensures Interference(s, LapAttach(s, 0, i, d, t)) && Silent(s, LapAttach(s, 0, i, d, t))
  {
  }

  lemma LapDeliverPlane(s: Engine, t: nat, c: nat, st: Status, pc: LapPc)
    requires Inv(s) && |s.runners| == 1 && (pc.LapEnd? || pc.Claim?)
    ensures Interference(s, LapDeliver(s, 0, t, c, st, pc)) && Silent(s, LapDeliver(s, 0, t, c, st, pc))
  {
  }

  lemma LapLeavePlane(s: Engine)
    requires Inv(s) && |s.runners| == 1
    ensures Interference(s, LapLeave(s, 0)) && Silent(s, LapLeave(s, 0))
  {
  }

  lemma LapSubmitPlane(s: Engine, i: nat, d: nat)
    requires Inv(s) && |s.runners| == 1 && s.runners[0].pc == Submit(i, d) && d < |s.frames|
    ensures Interference(s, LapSubmit(s, 0, i, d)) && Monitored(LapSubmit(s, 0, i, d))
  {
    assert FrameOk(s, d);
    LoggedMonitored(s, LapSubmit(s, 0, i, d), AttachSubmitted(d, s.frames[d].ticket));
  }

  // ------------------------------------------------------- frame callback and completions

  lemma CallbackClaimsPlane(s: Engine, d: nat)
    requires Inv(s) && d < |s.frames| && s.frames[d].dma.DmaFired? && s.frames[d].state.Pending?
    ensures Interference(s, CallbackClaims(s, d)) && Silent(s, CallbackClaims(s, d))
  {
    assert FrameOk(s, d);
  }

  lemma CallbackDefersPlane(s: Engine, d: nat)
    requires Inv(s) && d < |s.frames| && s.frames[d].dma.DmaFired? && !s.frames[d].state.Pending?
    ensures Interference(s, CallbackDefers(s, d)) && Silent(s, CallbackDefers(s, d))
  {
    assert FrameOk(s, d);
    if s.inFlight == 0 { DrainedFacts(s); }
  }

  lemma TailSubmitPlane(s: Engine, d: nat)
    requires Inv(s) && d < |s.frames| && s.frames[d].carrier.ByTail?
    ensures Interference(s, TailSubmit(s, d)) && Monitored(TailSubmit(s, d))
  {
    assert FrameOk(s, d);
    if s.inFlight == 0 { DrainedFacts(s); }
    LoggedMonitored(s, TailSubmit(s, d), DetachSubmitted(d));
  }

  lemma TailDeliverPlane(s: Engine, t: nat)
    requires Inv(s) && t < |s.location| && s.location[t].AtTail?
    ensures Interference(s, TailDeliver(s, t)) && Silent(s, TailDeliver(s, t))
  {
  }

  lemma SignalAttachedPlane(s: Engine)
    requires Inv(s) && s.arming > 0
    ensures Interference(s, SignalAttached(s)) && Silent(s, SignalAttached(s))
  {
  }

  lemma DropCountPlane(s: Engine)
    requires Inv(s) && s.finishing > 0
    ensures Interference(s, DropCount(s)) && Silent(s, DropCount(s))
  {
  }

  // -------------------------------------------------------------------------- bus events

  lemma AttachFailedPlane(s: Engine, d: nat, st: Status)
    requires Inv(s) && AttachCanEnd(s, d, st) && !st.Success?
    ensures Interference(s, AttachFailed(s, d, st)) && Monitored(AttachFailed(s, d, st))
  {
    assert FrameOk(s, d);
    LoggedMonitored(s, AttachFailed(s, d, st), AttachEnded(d, false));
  }

  lemma AttachFoundDonePlane(s: Engine, d: nat)
    requires Inv(s) && AttachCanEnd(s, d, Success) && s.frames[d].state.CompletedWhileAttaching?
    ensures Interference(s, AttachFoundDone(s, d)) && Monitored(AttachFoundDone(s, d))
  {
    assert FrameOk(s, d);
    LoggedMonitored(s, AttachFoundDone(s, d), AttachEnded(d, true));
  }

  lemma AttachPublishedPlane(s: Engine, d: nat)
    requires Inv(s) && AttachCanEnd(s, d, Success) && !s.frames[d].state.CompletedWhileAttaching?
    ensures Interference(s, AttachPublished(s, d)) && Monitored(AttachPublished(s, d))
  {
    assert FrameOk(s, d);
    LoggedMonitored(s, AttachPublished(s, d), AttachEnded(d, true));
  }

  lemma FrameCompletePlane(s: Engine, d: nat, st: Status)
    requires Inv(s) && FrameCanComplete(s, d)
    ensures Interference(s, FrameComplete(s, d, st)) && Monitored(FrameComplete(s, d, st))
  {
    assert FrameOk(s, d);
    LoggedMonitored(s, FrameComplete(s, d, st), FrameDone(d));
  }

  lemma DetachQuarantinedMonitored(s: Engine, d: nat)
    requires Inv(s) && DetachCanEnd(s, d)
    ensures Monitored(DetachQuarantined(s, d))
  {
    assert FrameOk(s, d);
    LoggedMonitored(s, DetachQuarantined(s, d), DetachEnded(d, false));
  }

  lemma DetachQuarantinedPlane(s: Engine, d: nat)
    requires Inv(s) && DetachCanEnd(s, d)
    ensures Interference(s, DetachQuarantined(s, d)) && Monitored(DetachQuarantined(s, d))
  {
    assert FrameOk(s, d);
    if s.inFlight == 0 { DrainedFacts(s); }
    DetachQuarantinedMonitored(s, d);
  }

  lemma DetachRecycledPlane(s: Engine, d: nat)
    requires Inv(s) && DetachCanEnd(s, d)
    ensures Interference(s, DetachRecycled(s, d)) && Monitored(DetachRecycled(s, d))
  {
    assert FrameOk(s, d);
    if s.inFlight == 0 { DrainedFacts(s); }
    LoggedMonitored(s, DetachRecycled(s, d), DetachEnded(d, true));
  }
}
