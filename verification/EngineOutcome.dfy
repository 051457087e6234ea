// A frame is handed back full exactly when its DMA succeeded, over every schedule; and a live
// engine with an attached buffer has seen its first attach.

module EngineOutcome {
  import opened EngineModel
  import opened EngineInvariant
  import opened EnginePlane
  import opened EngineControl
  import opened EngineTheorems
  import opened EngineFlows

  // What a descriptor knows of its buffer: nothing has succeeded before the frame callback is
  // entered, then dmaStatus tells, then completion.
  predicate FrameTruth(f: Frame, good: bool) {
    f.state.DetachFailed? ||
    (&& (f.dma.DmaOff? || f.dma.DmaArmed? ==> !good)
     && (f.dma.DmaFired? || f.dma.DmaDone? ==> (f.dmaStatus.Success? <==> good))
     && (f.state.Detaching? ==> (f.completion.Success? <==> good)))
  }

  predicate BufferTruth(s: Engine, t: nat) {
    t < |s.location| &&
    match s.location[t]
    case AtRunner => t !in s.dmaGood
    case AtFrame(d) => d < |s.frames| && FrameTruth(s.frames[d], t in s.dmaGood)
    case AtTail(_, full, st, _) => (full <==> t in s.dmaGood) && (full <==> st.Success?)
    case _ => true
  }

  predicate Truth(s: Engine) {
    (forall t :: t in s.dmaGood ==> t < |s.location|) && forall t :: 0 <= t < |s.location| ==> BufferTruth(s, t)
  }

  // A step that leaves the descriptors and the outcomes alone and at most hands buffers back.
  lemma SameTruth(s: Engine, s': Engine)
    requires Truth(s) && s'.dmaGood == s.dmaGood && s'.frames == s.frames && |s'.location| == |s.location|
    requires forall t :: 0 <= t < |s.location| ==>
               s'.location[t] == s.location[t] || s'.location[t].AtClient? || s'.location[t].AtControl?
    ensures Truth(s')
  {
    forall t | 0 <= t < |s'.location| ensures BufferTruth(s', t) { assert BufferTruth(s, t); }
  }

  // A step that rewrites descriptor d, with what that means for the buffer it holds.
  lemma FrameStepTruth(s: Engine, s': Engine, d: nat)
    requires Core(s) && Truth(s) && d < |s.frames| && s'.dmaGood == s.dmaGood && s'.location == s.location
    requires |s'.frames| == |s.frames| && forall e :: 0 <= e < |s.frames| && e != d ==> s'.frames[e] == s.frames[e]
    requires s.frames[d].Holds() ==>
               (FrameTruth(s.frames[d], s.frames[d].ticket in s.dmaGood) ==>
                FrameTruth(s'.frames[d], s.frames[d].ticket in s.dmaGood))
    ensures Truth(s')
  {
    forall t | 0 <= t < |s'.location| ensures BufferTruth(s', t) {
      assert BufferTruth(s, t) && BufferOk(s, t);
    }
  }

  // A step by which descriptor d parts with its buffer to a completion tail.
  lemma TailStepTruth(s: Engine, s': Engine, d: nat, where: Location)
    requires Core(s) && Truth(s) && d < |s.frames| && s.frames[d].Holds() && s'.dmaGood == s.dmaGood
    requires s'.location == Relocate(s.location, s.frames[d].ticket, where)
    requires |s'.frames| == |s.frames| && forall e :: 0 <= e < |s.frames| && e != d ==> s'.frames[e] == s.frames[e]
    requires where.AtTail? && (where.full <==> where.st.Success?)
    requires FrameTruth(s.frames[d], s.frames[d].ticket in s.dmaGood) ==> (where.full <==> s.frames[d].ticket in s.dmaGood)
    ensures Truth(s')
  {
    assert FrameOk(s, d);
    assert BufferTruth(s, s.frames[d].ticket);
    forall t | 0 <= t < |s'.location| ensures BufferTruth(s', t) {
      assert BufferTruth(s, t) && BufferOk(s, t);
    }
  }

  // ------------------------------------------------------------------------------ the pump

  lemma LapRefuseTruth(s: Engine, i: nat, d: nat, c: nat)
    requires Core(s) && Truth(s) && |s.runners| == 1
    ensures Truth(LapRefuse(s, 0, i, d, c))
  {
    var s' := LapRefuse(s, 0, i, d, c);
    forall t | 0 <= t < |s'.location| ensures BufferTruth(s', t) {
      if t < |s.location| { assert BufferTruth(s, t); }
    }
  }

  lemma LapPrimeTruth(s: Engine, i: nat, d: nat, c: nat)
    requires Core(s) && Truth(s) && |s.runners| == 1 && s.runners[0].pc == Acquire(i, d) && d < |s.frames|
    ensures Truth(LapPrime(s, 0, i, d, c))
  {
    var s' := LapPrime(s, 0, i, d, c);
    forall t | 0 <= t < |s'.location| ensures BufferTruth(s', t) {
      if t < |s.location| { assert BufferTruth(s, t) && BufferOk(s, t); }
    }
  }

  lemma LapReturnTruth(s: Engine, d: nat, pc: LapPc)
    requires Core(s) && Truth(s) && |s.runners| == 1 && LapHolds(s.runners[0].pc) == d < |s.frames|
    ensures Truth(LapReturn(s, 0, d, pc))
  {
    assert s.frames[d].state.Free?;
    FrameStepTruth(s, LapReturn(s, 0, d, pc), d);
  }

  lemma LapAttachTruth(s: Engine, i: nat, d: nat, t: nat, c: nat)
    requires Core(s) && Truth(s) && |s.runners| == 1 && s.runners[0].pc == Publish(i, d, t, c) && d < |s.frames|
    ensures Truth(LapAttach(s, 0, i, d, t))
  {
    var s' := LapAttach(s, 0, i, d, t);
    assert FrameOk(s, d) && BufferTruth(s, t);
    forall u | 0 <= u < |s'.location| ensures BufferTruth(s', u) { assert BufferTruth(s, u) && BufferOk(s, u); }
  }

  lemma LapSubmitTruth(s: Engine, i: nat, d: nat)
    requires Core(s) && Truth(s) && |s.runners| == 1 && s.runners[0].pc == Submit(i, d) && d < |s.frames|
    ensures Truth(LapSubmit(s, 0, i, d))
  {
    assert FrameOk(s, d);
    FrameStepTruth(s, LapSubmit(s, 0, i, d), d);
  }

  lemma LapClaimTruth(s: Engine, offer: Offer)
    requires Truth(s) && |s.runners| == 1 && s.runners[0].pc.Claim?
    ensures Truth(LapStep(s, 0, offer))
  {
    if s.draining || s.freeList == [] { SameTruth(s, LapMove(s, 0, LapEnd)); }
    else { SameTruth(s, LapClaim(s, 0, s.runners[0].pc.i)); }
  }

  lemma LapEdgeTruth(s: Engine, offer: Offer)
    requires Truth(s) && |s.runners| == 1 && (s.runners[0].pc.LapStart? || s.runners[0].pc.LapEnd?)
    ensures Truth(LapStep(s, 0, offer))
  {
    if s.runners[0].pc.LapStart? { SameTruth(s, LapBegin(s, 0)); }
    else if s.pumpAgain { SameTruth(s, LapMove(s, 0, LapStart)); }
    else { SameTruth(s, LapLeave(s, 0)); }
  }

  lemma LapDeliverTruth(s: Engine, offer: Offer)
    requires Truth(s) && |s.runners| == 1 && (s.runners[0].pc.RejectDeliver? || s.runners[0].pc.CancelDeliver?)
    ensures Truth(LapStep(s, 0, offer))
  {
    match s.runners[0].pc
    case RejectDeliver(i, t, c) => SameTruth(s, LapDeliver(s, 0, t, c, InvalidParameter, NextIteration(s, i)));
    case CancelDeliver(t, c) => SameTruth(s, LapDeliver(s, 0, t, c, Cancelled, LapEnd));
  }

  lemma LapClaimedTruth(s: Engine, offer: Offer)
    requires Core(s) && Truth(s) && |s.runners| == 1 && LapInRange(s.runners[0].pc, |s.frames|)
    requires s.runners[0].pc.Acquire? || s.runners[0].pc.GiveBack? || s.runners[0].pc.Reject? ||
             s.runners[0].pc.Publish? || s.runners[0].pc.Submit?
    ensures Truth(LapStep(s, 0, offer))
  {
    match s.runners[0].pc
    case Acquire(i, d) =>
      if offer.NoBuffer? { SameTruth(s, LapMove(s, 0, GiveBack(d))); }
      else if offer.fits { LapPrimeTruth(s, i, d, offer.c); }
      else { LapRefuseTruth(s, i, d, offer.c); }
    case GiveBack(d) => LapReturnTruth(s, d, LapEnd);
    case Reject(i, d, t, c) => LapReturnTruth(s, d, RejectDeliver(i, t, c));
    case Publish(i, d, t, c) =>
      if s.draining { LapReturnTruth(s, d, CancelDeliver(t, c)); } else { LapAttachTruth(s, i, d, t, c); }
    case Submit(i, d) => LapSubmitTruth(s, i, d);
  }

  lemma LapTruth(n: nat, schedule: seq<Action>, s: Engine, offer: Offer)
    requires s == Run(Init(n), schedule) && Truth(s) && |s.runners| == 1 && LapInRange(s.runners[0].pc, |s.frames|)
    ensures Truth(LapStep(s, 0, offer))
  {
    var pc := s.runners[0].pc;
    if pc.Claim? {
      LapClaimTruth(s, offer);
    } else if pc.LapStart? || pc.LapEnd? {
      LapEdgeTruth(s, offer);
    } else if pc.RejectDeliver? || pc.CancelDeliver? {
      LapDeliverTruth(s, offer);
    } else {
      RunInv(n, schedule);
      LapClaimedTruth(s, offer);
    }
  }

  lemma PumpTruth(n: nat, schedule: seq<Action>, s: Engine, a: Action)
    requires s == Run(Init(n), schedule) && Truth(s) && Enabled(s, a) && a.OfPump()
    ensures Truth(ApplyPump(s, a))
  {
    match a
    case CallPump => SameTruth(s, PumpCall(s));
    case RunElection(counted) =>
      if s.pumpActive { SameTruth(s, ElectLost(s, counted)); } else { SameTruth(s, ElectWon(s, counted)); }
    case RunLap(k, offer) =>
      PumpElection(n, schedule);
      LapTruth(n, schedule, s, offer);
  }

  // ------------------------------------------------------------- completions and bus events

  lemma CallbackClaimsTruth(n: nat, schedule: seq<Action>, s: Engine, d: nat)
    requires s == Run(Init(n), schedule) && Truth(s) && d < |s.frames| && s.frames[d].dma.DmaFired?
    ensures Truth(CallbackClaims(s, d))
  {
    RunInv(n, schedule);
    assert FrameOk(s, d);
    FrameStepTruth(s, CallbackClaims(s, d), d);
  }

  lemma CallbackDefersTruth(n: nat, schedule: seq<Action>, s: Engine, d: nat)
    requires s == Run(Init(n), schedule) && Truth(s) && d < |s.frames| && s.frames[d].dma.DmaFired?
    requires !s.frames[d].state.Pending?
    ensures Truth(CallbackDefers(s, d))
  {
    RunInv(n, schedule);
    assert FrameOk(s, d);
    FrameStepTruth(s, CallbackDefers(s, d), d);
  }

  lemma TailSubmitTruth(n: nat, schedule: seq<Action>, s: Engine, d: nat)
    requires s == Run(Init(n), schedule) && Truth(s) && d < |s.frames| && s.frames[d].carrier.ByTail?
    ensures Truth(TailSubmit(s, d))
  {
    RunInv(n, schedule);
    FrameStepTruth(s, TailSubmit(s, d), d);
  }

  lemma TailTruth(n: nat, schedule: seq<Action>, s: Engine, a: Action)
    requires s == Run(Init(n), schedule) && Truth(s) && Enabled(s, a) && a.OfTail()
    ensures Truth(ApplyTail(s, a))
  {
    match a
    case RunCallback(d) =>
      if s.frames[d].state.Pending? { CallbackClaimsTruth(n, schedule, s, d); } else { CallbackDefersTruth(n, schedule, s, d); }
    case RunSubmit(d) => TailSubmitTruth(n, schedule, s, d);
    case RunDeliver(t) => SameTruth(s, TailDeliver(s, t));
    case RunArmed => SameTruth(s, SignalAttached(s));
    case RunDone => SameTruth(s, DropCount(s));
  }

  lemma AttachFailedTruth(n: nat, schedule: seq<Action>, s: Engine, d: nat, st: Status)
    requires s == Run(Init(n), schedule) && Truth(s) && AttachCanEnd(s, d, st) && !st.Success?
    ensures Truth(AttachFailed(s, d, st))
  {
    RunInv(n, schedule);
    assert FrameOk(s, d);
    assert s.requests[AttachRequest(d)] == 1;
    TailStepTruth(s, AttachFailed(s, d, st), d, AtTail(s.frames[d].cookie, false, st, false));
  }

  lemma AttachFoundDoneTruth(n: nat, schedule: seq<Action>, s: Engine, d: nat)
    requires s == Run(Init(n), schedule) && Truth(s) && AttachCanEnd(s, d, Success)
    requires s.frames[d].state.CompletedWhileAttaching?
    ensures Truth(AttachFoundDone(s, d))
  {
    RunInv(n, schedule);
    assert FrameOk(s, d);
    FrameStepTruth(s, AttachFoundDone(s, d), d);
  }

  lemma AttachPublishedTruth(n: nat, schedule: seq<Action>, s: Engine, d: nat)
    requires s == Run(Init(n), schedule) && Truth(s) && AttachCanEnd(s, d, Success)
    ensures Truth(AttachPublished(s, d))
  {
    RunInv(n, schedule);
    assert FrameOk(s, d);
    assert s.requests[AttachRequest(d)] == 1;
    FrameStepTruth(s, AttachPublished(s, d), d);
  }

  lemma AttachEndTruth(n: nat, schedule: seq<Action>, s: Engine, d: nat, st: Status)
    requires s == Run(Init(n), schedule) && Truth(s) && AttachCanEnd(s, d, st)
    ensures Truth(AttachEnd(s, d, st))
  {
    if !st.Success? { AttachFailedTruth(n, schedule, s, d, st); }
    else if s.frames[d].state.CompletedWhileAttaching? { AttachFoundDoneTruth(n, schedule, s, d); }
    else { AttachPublishedTruth(n, schedule, s, d); }
  }

  lemma FrameCompleteTruth(n: nat, schedule: seq<Action>, s: Engine, d: nat, st: Status)
    requires s == Run(Init(n), schedule) && Truth(s) && FrameCanComplete(s, d)
    ensures Truth(FrameComplete(s, d, st))
  {
    RunInv(n, schedule);
    var s' := FrameComplete(s, d, st);
    assert FrameOk(s, d);
    forall t | 0 <= t < |s'.location| ensures BufferTruth(s', t) { assert BufferTruth(s, t) && BufferOk(s, t); }
  }

  lemma DetachRecycledTruth(n: nat, schedule: seq<Action>, s: Engine, d: nat)
    requires s == Run(Init(n), schedule) && Truth(s) && DetachCanEnd(s, d)
    ensures Truth(DetachRecycled(s, d))
  {
    RunInv(n, schedule);
    assert FrameOk(s, d);
    assert s.requests[DetachRequest(d)] == 1;
    var f := s.frames[d];
    TailStepTruth(s, DetachRecycled(s, d), d, AtTail(f.cookie, f.completion.Success?, f.completion, true));
  }

  lemma DetachQuarantinedTruth(n: nat, schedule: seq<Action>, s: Engine, d: nat)
    requires s == Run(Init(n), schedule) && Truth(s) && DetachCanEnd(s, d)
    ensures Truth(DetachQuarantined(s, d))
  {
    RunInv(n, schedule);
    FrameStepTruth(s, DetachQuarantined(s, d), d);
  }

  lemma DetachEndTruth(n: nat, schedule: seq<Action>, s: Engine, d: nat, ok: bool)
    requires s == Run(Init(n), schedule) && Truth(s) && DetachCanEnd(s, d)
    ensures Truth(DetachEnd(s, d, ok))
  {
    if ok { DetachRecycledTruth(n, schedule, s, d); } else { DetachQuarantinedTruth(n, schedule, s, d); }
  }

  lemma BusTruth(n: nat, schedule: seq<Action>, s: Engine, a: Action)
    requires s == Run(Init(n), schedule) && Truth(s) && Enabled(s, a) && a.OfBus()
    ensures Truth(ApplyBus(s, a))
  {
    match a
    case BusAttachEnd(d, st) => AttachEndTruth(n, schedule, s, d, st);
    case BusFrame(d, st) => FrameCompleteTruth(n, schedule, s, d, st);
    case BusDetachEnd(d, ok) => DetachEndTruth(n, schedule, s, d, ok);
  }

  // ---------------------------------------------------------------------- the control plane

  // The quiesce claims only buffers whose DMA has not finished: past the stop a finished one
  // has been claimed by its callback.
  lemma ClaimTruth(n: nat, schedule: seq<Action>, s: Engine, pass: nat)
    requires s == Run(Init(n), schedule) && Truth(s) && s.control == QuiesceClaim(pass)
    ensures Truth(ClaimNext(s, pass))
  {
    RunInv(n, schedule);
    var i := FirstPending(s.frames, s.pendingList);
    if i == |s.pendingList| {
      SameTruth(s, ClaimNext(s, pass));
    } else {
      var d := s.pendingList[i];
      assert FrameOk(s, d);
      assert s.frames[d].dma.DmaArmed?;
      FrameStepTruth(s, ClaimPending(s, pass, d), d);
    }
  }

  lemma SubmitClaimedTruth(n: nat, schedule: seq<Action>, s: Engine, pass: nat, d: nat)
    requires s == Run(Init(n), schedule) && Truth(s) && s.control == QuiesceSubmit(pass, d) && d < |s.frames|
    ensures Truth(SubmitClaimed(s, pass, d))
  {
    RunInv(n, schedule);
    FrameStepTruth(s, SubmitClaimed(s, pass, d), d);
  }

  lemma QuiesceTruth(n: nat, schedule: seq<Action>, s: Engine, a: Action)
    requires s == Run(Init(n), schedule) && Truth(s) && Enabled(s, a) && a.OfQuiesce()
    ensures Truth(ApplyQuiesce(s, a))
  {
    if a.CtlClaim? { ClaimTruth(n, schedule, s, s.control.pass); }
    else if a.CtlSubmit? { SubmitClaimedTruth(n, schedule, s, s.control.pass, s.control.d); }
    else { SameTruth(s, ApplyQuiesce(s, a)); }
  }

  lemma ScanRecycleTruth(n: nat, schedule: seq<Action>, s: Engine, i: nat, flushed: bool)
    requires s == Run(Init(n), schedule) && Truth(s) && i < |s.frames| && s.frames[i].state.DetachFailed?
    ensures Truth(ScanRecycle(s, i, flushed))
  {
    RunInv(n, schedule);
    var s' := ScanRecycle(s, i, flushed);
    assert FrameOk(s, i);
    forall t | 0 <= t < |s'.location| ensures BufferTruth(s', t) { assert BufferTruth(s, t) && BufferOk(s, t); }
  }

  lemma ScanTruth(n: nat, schedule: seq<Action>, s: Engine, i: nat, flushed: bool)
    requires s == Run(Init(n), schedule) && Truth(s)
    ensures Truth(ScanNext(s, i, flushed))
  {
    if i < |s.frames| && s.frames[i].state.DetachFailed? {
      ScanRecycleTruth(n, schedule, s, i, flushed);
    } else {
      SameTruth(s, ScanNext(s, i, flushed));
    }
  }

  lemma ReleaseTruth(n: nat, schedule: seq<Action>, s: Engine, a: Action)
    requires s == Run(Init(n), schedule) && Truth(s) && Enabled(s, a) && a.OfRelease()
    ensures Truth(ApplyRelease(s, a))
  {
    if a.CtlScan? { ScanTruth(n, schedule, s, s.control.i, s.control.flushed); }
    else { SameTruth(s, ApplyRelease(s, a)); }
  }

  lemma StepTruth(n: nat, schedule: seq<Action>, s: Engine, a: Action)
    requires s == Run(Init(n), schedule) && Truth(s) && Enabled(s, a)
    ensures Truth(Apply(s, a))
  {
    if a.OfPump() { PumpTruth(n, schedule, s, a); }
    else if a.OfTail() { TailTruth(n, schedule, s, a); }
    else if a.OfBus() { BusTruth(n, schedule, s, a); }
    else if a.OfQuiesce() { QuiesceTruth(n, schedule, s, a); }
    else if a.OfRelease() { ReleaseTruth(n, schedule, s, a); }
    else { SameTruth(s, ApplyStart(s, a)); }
  }

  lemma {:induction false} RunTruth(n: nat, schedule: seq<Action>)
    ensures Truth(Run(Init(n), schedule))
    decreases |schedule|
  {
    if schedule != [] {
      var before, a := schedule[..|schedule| - 1], schedule[|schedule| - 1];
      RunTruth(n, before);
      if Enabled(Run(Init(n), before), a) { StepTruth(n, before, Run(Init(n), before), a); }
    }
  }

  // At a completion tail a buffer is full exactly when its DMA succeeded; a claimed descriptor
  // carries a success exactly then, and one the bus driver has not called back for has none.
  lemma TailFull(n: nat, schedule: seq<Action>)
    ensures var s := Run(Init(n), schedule);
      forall t :: 0 <= t < |s.location| && s.location[t].AtTail? ==> (s.location[t].full <==> t in s.dmaGood)
    ensures var s := Run(Init(n), schedule);
      forall d :: 0 <= d < |s.frames| && s.frames[d].state.Detaching? ==>
        (s.frames[d].completion.Success? <==> s.frames[d].ticket in s.dmaGood)
    ensures var s := Run(Init(n), schedule);
      forall d :: 0 <= d < |s.frames| && s.frames[d].state.Pending? && s.frames[d].dma.DmaArmed? ==>
        s.frames[d].ticket !in s.dmaGood
  {
    RunTruth(n, schedule);
    var s := Run(Init(n), schedule);
    forall t | 0 <= t < |s.location| && s.location[t].AtTail? ensures s.location[t].full <==> t in s.dmaGood {
      assert BufferTruth(s, t);
    }
    forall d | 0 <= d < |s.frames| && s.frames[d].Holds() ensures FrameTruth(s.frames[d], s.frames[d].ticket in s.dmaGood) {
      HeldTruth(n, schedule, s, d);
    }
  }

  lemma HeldTruth(n: nat, schedule: seq<Action>, s: Engine, d: nat)
    requires s == Run(Init(n), schedule) && Truth(s) && d < |s.frames| && s.frames[d].Holds()
    ensures FrameTruth(s.frames[d], s.frames[d].ticket in s.dmaGood)
  {
    RunInv(n, schedule);
    assert FrameOk(s, d);
    assert BufferTruth(s, s.frames[d].ticket);
  }

  // ------------------------------------------------------------------------ every delivery

  // In this run the bus driver entered the frame callback of buffer t with success.
  ghost predicate Succeeded(n: nat, schedule: seq<Action>, t: nat) {
    exists k :: 0 <= k < |schedule| && SucceedsAt(n, schedule, k, t)
  }

  predicate SucceedsAt(n: nat, schedule: seq<Action>, k: nat, t: nat)
    requires k < |schedule|
  {
    var s := Run(Init(n), schedule[..k]);
    schedule[k].BusFrame? && schedule[k].st.Success? && Enabled(s, schedule[k]) && s.frames[schedule[k].d].ticket == t
  }

  // Delivery i of this run was made by a release, out of the quarantine.
  ghost predicate ByRelease(n: nat, schedule: seq<Action>, i: nat) {
    exists k :: 0 <= k < |schedule| && ReleasesAt(n, schedule, k, i)
  }

  predicate ReleasesAt(n: nat, schedule: seq<Action>, k: nat, i: nat)
    requires k < |schedule|
  {
    var s := Run(Init(n), schedule[..k]);
    schedule[k].CtlDeliver? && Enabled(s, schedule[k]) && |s.delivered| == i
  }

  lemma SuccessKept(n: nat, schedule: seq<Action>, a: Action, t: nat)
    ensures Succeeded(n, schedule + [a], t) <==>
              Succeeded(n, schedule, t) || SucceedsAt(n, schedule + [a], |schedule|, t)
  {
    forall k | 0 <= k < |schedule|
      ensures SucceedsAt(n, schedule + [a], k, t) <==> SucceedsAt(n, schedule, k, t)
    {
      assert (schedule + [a])[..k] == schedule[..k];
    }
  }

  lemma ReleaseKept(n: nat, schedule: seq<Action>, a: Action, i: nat)
    ensures ByRelease(n, schedule + [a], i) <==>
              ByRelease(n, schedule, i) || ReleasesAt(n, schedule + [a], |schedule|, i)
  {
    forall k | 0 <= k < |schedule|
      ensures ReleasesAt(n, schedule + [a], k, i) <==> ReleasesAt(n, schedule, k, i)
    {
      assert (schedule + [a])[..k] == schedule[..k];
    }
  }

  // dmaGood is the set of buffers whose DMA succeeded.
  lemma {:induction false} GoodMeans(n: nat, schedule: seq<Action>, t: nat)
    ensures t in Run(Init(n), schedule).dmaGood <==> Succeeded(n, schedule, t)
    decreases |schedule|
  {
    if schedule != [] {
      var before, a := schedule[..|schedule| - 1], schedule[|schedule| - 1];
      assert schedule == before + [a] && schedule[..|before|] == before;
      GoodMeans(n, before, t);
      SuccessKept(n, before, a, t);
      if Enabled(Run(Init(n), before), a) { StepFlows(Run(Init(n), before), a); }
    }
  }

  // What one step hands back, when it is not a release: full exactly if the DMA succeeded.
  lemma HandedTruth(n: nat, schedule: seq<Action>, s: Engine, a: Action)
    requires s == Run(Init(n), schedule) && Enabled(s, a) && !a.CtlDeliver? && Handed(s, a) != []
    ensures Handed(s, a)[0].full <==> Handed(s, a)[0].t in s.dmaGood
    ensures !Succeeds(s, a)
  {
    RunTruth(n, schedule);
    if a.RunDeliver? {
      assert BufferTruth(s, a.t);
    } else {
      LapHandsBack(n, schedule, s, a);
    }
  }

  lemma RunnerHolds(n: nat, schedule: seq<Action>, s: Engine, k: nat)
    requires s == Run(Init(n), schedule) && k < |s.runners| && LapTakes(s.runners[k].pc)
    ensures s.runners[k].pc.t < |s.location| && s.location[s.runners[k].pc.t].AtRunner?
  {
    RunInv(n, schedule);
    assert k == 0;
  }

  lemma LapHandsBack(n: nat, schedule: seq<Action>, s: Engine, a: Action)
    requires s == Run(Init(n), schedule) && Truth(s) && a.RunLap? && Handed(s, a) != []
    ensures !Handed(s, a)[0].full && Handed(s, a)[0].t !in s.dmaGood
  {
    RunnerHolds(n, schedule, s, a.k);
    assert BufferTruth(s, s.runners[a.k].pc.t);
  }

  // A buffer handed back is out of reach of the bus driver: its outcome stands.
  lemma OutcomeStands(n: nat, schedule: seq<Action>, s: Engine, a: Action, i: nat)
    requires s == Run(Init(n), schedule) && Enabled(s, a) && i < |s.delivered|
    ensures s.delivered[i].t in Apply(s, a).dmaGood <==> s.delivered[i].t in s.dmaGood
    ensures i < |Apply(s, a).delivered| && Apply(s, a).delivered[i] == s.delivered[i]
  {
    StepFlows(s, a);
    if Succeeds(s, a) {
      RunInv(n, schedule);
      assert DeliveryOk(s, i) && FrameOk(s, a.d);
    }
  }

  lemma LastTruth(n: nat, schedule: seq<Action>, s: Engine, a: Action)
    requires s == Run(Init(n), schedule) && Enabled(s, a) && Handed(s, a) != []
    ensures var s' := Apply(s, a);
      && |s'.delivered| == |s.delivered| + 1
      && (if a.CtlDeliver? then !s'.delivered[|s.delivered|].full && s'.delivered[|s.delivered|].st.Cancelled?
          else s'.delivered[|s.delivered|].full <==> s'.delivered[|s.delivered|].t in s'.dmaGood)
  {
    StepFlows(s, a);
    if !a.CtlDeliver? { HandedTruth(n, schedule, s, a); }
  }

  // The place of every delivery in the run, read off its last step.
  lemma ReleaseInRange(n: nat, schedule: seq<Action>, k: nat, i: nat)
    requires k < |schedule| && ReleasesAt(n, schedule, k, i)
    ensures i < |Run(Init(n), schedule).delivered|
    decreases |schedule|
  {
    var before, a := schedule[..|schedule| - 1], schedule[|schedule| - 1];
    var s := Run(Init(n), before);
    if Enabled(s, a) { StepFlows(s, a); }
    if k < |before| {
      assert before[..k] == schedule[..k];
      ReleaseInRange(n, before, k, i);
    } else {
      assert schedule[..k] == before;
    }
  }

  // One delivery: from a release it is cancelled, and otherwise it is full exactly when the
  // buffer's DMA succeeded.
  ghost predicate DeliveredWell(n: nat, schedule: seq<Action>, i: nat) {
    i < |Run(Init(n), schedule).delivered| &&
    var v := Run(Init(n), schedule).delivered[i];
    if ByRelease(n, schedule, i) then !v.full && v.st.Cancelled? else v.full <==> Succeeded(n, schedule, v.t)
  }

  lemma OldDeliveredWell(n: nat, before: seq<Action>, a: Action, i: nat)
    requires DeliveredWell(n, before, i)
    ensures DeliveredWell(n, before + [a], i)
  {
    var s := Run(Init(n), before);
    RunSnoc(Init(n), before, a);
    ReleaseKept(n, before, a, i);
    assert (before + [a])[..|before|] == before;
    GoodMeans(n, before, s.delivered[i].t);
    GoodMeans(n, before + [a], s.delivered[i].t);
    if Enabled(s, a) { OutcomeStands(n, before, s, a, i); }
  }

  lemma NewDeliveredWell(n: nat, before: seq<Action>, a: Action)
    requires var s := Run(Init(n), before); Enabled(s, a) && Handed(s, a) != []
    ensures DeliveredWell(n, before + [a], |Run(Init(n), before).delivered|)
  {
    var s := Run(Init(n), before);
    var i := |s.delivered|;
    RunSnoc(Init(n), before, a);
    LastTruth(n, before, s, a);
    ReleaseKept(n, before, a, i);
    assert (before + [a])[..|before|] == before;
    GoodMeans(n, before + [a], Apply(s, a).delivered[i].t);
    if ByRelease(n, before, i) {
      var k :| 0 <= k < |before| && ReleasesAt(n, before, k, i);
      ReleaseInRange(n, before, k, i);
    }
  }

  lemma StepDelivers(n: nat, before: seq<Action>, a: Action, i: nat)
    requires |Run(Init(n), before).delivered| <= i < |Run(Init(n), before + [a]).delivered|
    ensures DeliveredWell(n, before + [a], i)
  {
    var s := Run(Init(n), before);
    RunSnoc(Init(n), before, a);
    StepFlows(s, a);
    NewDeliveredWell(n, before, a);
  }

  // Over every schedule: a frame whose DMA succeeded is delivered full, any other is not, save
  // that a release cancels what it takes out of the quarantine.
  lemma {:induction false} DeliveredFull(n: nat, schedule: seq<Action>, i: nat)
    requires i < |Run(Init(n), schedule).delivered|
    ensures var v := Run(Init(n), schedule).delivered[i];
      if ByRelease(n, schedule, i) then !v.full && v.st.Cancelled? else v.full <==> Succeeded(n, schedule, v.t)
    decreases |schedule|
  {
    var before, a := schedule[..|schedule| - 1], schedule[|schedule| - 1];
    assert schedule == before + [a];
    if i < |Run(Init(n), before).delivered| {
      DeliveredFull(n, before, i);
      assert DeliveredWell(n, before, i);
      OldDeliveredWell(n, before, a, i);
    } else {
      StepDelivers(n, before, a, i);
    }
    assert DeliveredWell(n, schedule, i);
  }
}
