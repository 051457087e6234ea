// Every step keeps the core of the invariant.

module EngineCore {
  import opened EngineModel
  import opened EngineInvariant

  // ---------------------------------------------------------------------------- the pump

  lemma CallPumpCore(s: Engine)
    requires Core(s)
    ensures Core(PumpCall(s))
  {
    var s' := PumpCall(s);
    forall d | 0 <= d < |s'.frames| ensures FrameOk(s', d) { assert FrameOk(s, d); }
    forall t | 0 <= t < |s'.location| ensures BufferOk(s', t) { assert BufferOk(s, t); }
    forall i | 0 <= i < |s'.delivered| ensures DeliveryOk(s', i) { assert DeliveryOk(s, i); }
  }

  lemma ElectLostCore(s: Engine, counted: bool)
    requires Core(s) && CanElect(s, counted) && s.pumpActive
    ensures Core(ElectLost(s, counted))
  {
    var s' := ElectLost(s, counted);
    forall d | 0 <= d < |s'.frames| ensures FrameOk(s', d) { assert FrameOk(s, d); }
    forall t | 0 <= t < |s'.location| ensures BufferOk(s', t) { assert BufferOk(s, t); }
    forall i | 0 <= i < |s'.delivered| ensures DeliveryOk(s', i) { assert DeliveryOk(s, i); }
  }

  lemma ElectWonCore(s: Engine, counted: bool)
    requires Core(s) && CanElect(s, counted) && !s.pumpActive
    ensures Core(ElectWon(s, counted))
  {
    var s' := ElectWon(s, counted);
    forall d | 0 <= d < |s'.frames| ensures FrameOk(s', d) { assert FrameOk(s, d); }
    forall t | 0 <= t < |s'.location| ensures BufferOk(s', t) { assert BufferOk(s, t); }
    forall i | 0 <= i < |s'.delivered| ensures DeliveryOk(s', i) { assert DeliveryOk(s, i); }
  }

  lemma LapBeginCore(s: Engine)
    requires Core(s) && |s.runners| == 1 && s.runners[0].pc.LapStart?
    ensures Core(LapBegin(s, 0))
  {
    var s' := LapBegin(s, 0);
    forall d | 0 <= d < |s'.frames| ensures FrameOk(s', d) { assert FrameOk(s, d); }
    forall t | 0 <= t < |s'.location| ensures BufferOk(s', t) { assert BufferOk(s, t); }
    forall i | 0 <= i < |s'.delivered| ensures DeliveryOk(s', i) { assert DeliveryOk(s, i); }
  }

  // The runner moves without touching anything: an idle lap, no buffer, another lap.
  lemma LapMoveCore(s: Engine, pc: LapPc)
    requires Core(s) && |s.runners| == 1
    requires LapHolds(pc) == LapHolds(s.runners[0].pc) && !LapTakes(pc) && !LapTakes(s.runners[0].pc)
    requires !pc.Submit? && !s.runners[0].pc.Submit?
    requires s.answered < s.calls && s.runners[0].pc.LapStart? ==> pc.LapStart?
    requires LapInRange(pc, |s.frames|)
    ensures Core(LapMove(s, 0, pc))
  {
    var s' := LapMove(s, 0, pc);
    forall d | 0 <= d < |s'.frames| ensures FrameOk(s', d) { assert FrameOk(s, d); }
    forall t | 0 <= t < |s'.location| ensures BufferOk(s', t) { assert BufferOk(s, t); }
    forall i | 0 <= i < |s'.delivered| ensures DeliveryOk(s', i) { assert DeliveryOk(s, i); }
  }

  lemma LapClaimCore(s: Engine, i: nat)
    requires Core(s) && |s.runners| == 1 && s.runners[0].pc == Claim(i) && s.freeList != []
    ensures Core(LapClaim(s, 0, i))
  {
    var s' := LapClaim(s, 0, i);
    assert forall x :: x in s.freeList <==> x == s.freeList[0] || x in s.freeList[1..];
    assert FrameOk(s, s.freeList[0]);
    forall d | 0 <= d < |s'.frames| ensures FrameOk(s', d) { assert FrameOk(s, d); }
    forall t | 0 <= t < |s'.location| ensures BufferOk(s', t) { assert BufferOk(s, t); }
    forall i | 0 <= i < |s'.delivered| ensures DeliveryOk(s', i) { assert DeliveryOk(s, i); }
  }

  lemma LapRefuseCore(s: Engine, i: nat, d: nat, c: nat)
    requires Core(s) && |s.runners| == 1 && s.runners[0].pc == Acquire(i, d)
    ensures Core(LapRefuse(s, 0, i, d, c))
  {
    var s' := LapRefuse(s, 0, i, d, c);
    TailBuffersAppend(s.location, AtRunner);
    forall d | 0 <= d < |s'.frames| ensures FrameOk(s', d) { assert FrameOk(s, d); }
    forall t | 0 <= t < |s'.location| ensures BufferOk(s', t) { assert t < |s.location| ==> BufferOk(s, t); }
    forall i | 0 <= i < |s'.delivered| ensures DeliveryOk(s', i) { assert DeliveryOk(s, i); }
  }

  lemma LapPrimeCore(s: Engine, i: nat, d: nat, c: nat)
    requires Core(s) && |s.runners| == 1 && s.runners[0].pc == Acquire(i, d) && d < |s.frames|
    ensures Core(LapPrime(s, 0, i, d, c))
  {
    var s' := LapPrime(s, 0, i, d, c);
    TailBuffersAppend(s.location, AtRunner);
    TailFramesUpdate(s.frames, d, s'.frames[d]);
    forall d | 0 <= d < |s'.frames| ensures FrameOk(s', d) { assert FrameOk(s, d); }
    forall t | 0 <= t < |s'.location| ensures BufferOk(s', t) { assert t < |s.location| ==> BufferOk(s, t); }
    forall i | 0 <= i < |s'.delivered| ensures DeliveryOk(s', i) { assert DeliveryOk(s, i); }
  }

  lemma LapReturnCore(s: Engine, d: nat, pc: LapPc)
    requires Core(s) && |s.runners| == 1 && LapHolds(s.runners[0].pc) == d && d < |s.frames|
    requires LapTakes(pc) == LapTakes(s.runners[0].pc) && LapHolds(pc) == -1 && !pc.Submit?
    requires LapTakes(pc) ==> pc.t == s.runners[0].pc.t && pc.c == s.runners[0].pc.c
    requires LapInRange(pc, |s.frames|)
    ensures Core(LapReturn(s, 0, d, pc))
  {
    var s' := LapReturn(s, 0, d, pc);
    assert FrameOk(s, d);
    assert s'.frames == s.frames;
    assert forall x :: x in s'.freeList <==> x == d || x in s.freeList;
    forall e | 0 <= e < |s'.frames| ensures FrameOk(s', e) { assert FrameOk(s, e); }
    forall t | 0 <= t < |s'.location| ensures BufferOk(s', t) { assert BufferOk(s, t); }
    forall i | 0 <= i < |s'.delivered| ensures DeliveryOk(s', i) { assert DeliveryOk(s, i); }
  }

  lemma LapAttachBuffers(s: Engine, i: nat, d: nat, t: nat, c: nat)
    requires Core(s) && |s.runners| == 1 && s.runners[0].pc == Publish(i, d, t, c) && d < |s.frames|
    ensures var s' := LapAttach(s, 0, i, d, t);
            (forall u :: 0 <= u < |s'.location| ==> BufferOk(s', u)) &&
            (forall j :: 0 <= j < |s'.delivered| ==> DeliveryOk(s', j))
  {
    var s' := LapAttach(s, 0, i, d, t);
    assert FrameOk(s, d);
    forall u | 0 <= u < |s'.location| ensures BufferOk(s', u) { assert BufferOk(s, u); }
    forall i | 0 <= i < |s'.delivered| ensures DeliveryOk(s', i) { assert DeliveryOk(s, i); }
  }

  lemma LapAttachFrames(s: Engine, i: nat, d: nat, t: nat, c: nat)
    requires Core(s) && |s.runners| == 1 && s.runners[0].pc == Publish(i, d, t, c) && d < |s.frames|
    ensures forall e :: 0 <= e < |s.frames| ==> FrameOk(LapAttach(s, 0, i, d, t), e)
  {
    var s' := LapAttach(s, 0, i, d, t);
    assert FrameOk(s, d);
    assert forall x :: x in s'.pendingList <==> x == d || x in s.pendingList;
    forall e | 0 <= e < |s'.frames| ensures FrameOk(s', e) { assert FrameOk(s, e); }
  }

  lemma LapAttachCore(s: Engine, i: nat, d: nat, t: nat, c: nat)
    requires Core(s) && |s.runners| == 1 && s.runners[0].pc == Publish(i, d, t, c) && d < |s.frames|
    ensures Core(LapAttach(s, 0, i, d, t))
  {
    var s' := LapAttach(s, 0, i, d, t);
    assert FrameOk(s, d);
    TailFramesUpdate(s.frames, d, s'.frames[d]);
    TailBuffersUpdate(s.location, t, AtFrame(d));
    assert forall x :: x in s'.pendingList <==> x == d || x in s.pendingList;
    LapAttachFrames(s, i, d, t, c);
    LapAttachBuffers(s, i, d, t, c);
  }

  lemma LapSubmitCore(s: Engine, i: nat, d: nat)
    requires Core(s) && |s.runners| == 1 && s.runners[0].pc == Submit(i, d) && d < |s.frames|
    ensures Core(LapSubmit(s, 0, i, d))
  {
    var s' := LapSubmit(s, 0, i, d);
    assert FrameOk(s, d);
    TailFramesUpdate(s.frames, d, s'.frames[d]);
    forall e | 0 <= e < |s'.frames| ensures FrameOk(s', e) { assert FrameOk(s, e); }
    forall t | 0 <= t < |s'.location| ensures BufferOk(s', t) { assert BufferOk(s, t); }
    forall i | 0 <= i < |s'.delivered| ensures DeliveryOk(s', i) { assert DeliveryOk(s, i); }
  }

  lemma LapDeliverCore(s: Engine, st: Status, pc: LapPc)
    requires Core(s) && |s.runners| == 1 && !st.Success?
    requires s.runners[0].pc.RejectDeliver? || s.runners[0].pc.CancelDeliver?
    requires pc.LapEnd? || pc.Claim?
    ensures Core(LapDeliver(s, 0, s.runners[0].pc.t, s.runners[0].pc.c, st, pc))
  {
    var t := s.runners[0].pc.t;
    var s' := LapDeliver(s, 0, t, s.runners[0].pc.c, st, pc);
    TailBuffersUpdate(s.location, t, AtClient(|s.delivered|));
    forall d | 0 <= d < |s'.frames| ensures FrameOk(s', d) { assert FrameOk(s, d); }
    forall u | 0 <= u < |s'.location| ensures BufferOk(s', u) { assert BufferOk(s, u); }
    forall i | 0 <= i < |s'.delivered| ensures DeliveryOk(s', i) { assert i < |s.delivered| ==> DeliveryOk(s, i); }
  }

  lemma LapLeaveCore(s: Engine)
    requires Core(s) && |s.runners| == 1 && s.runners[0].pc.LapEnd? && !s.pumpAgain
    ensures Core(LapLeave(s, 0))
  {
    var s' := LapLeave(s, 0);
    forall d | 0 <= d < |s'.frames| ensures FrameOk(s', d) { assert FrameOk(s, d); }
    forall t | 0 <= t < |s'.location| ensures BufferOk(s', t) { assert BufferOk(s, t); }
    forall i | 0 <= i < |s'.delivered| ensures DeliveryOk(s', i) { assert DeliveryOk(s, i); }
  }

  // ------------------------------------------------------- frame callback and completions

  lemma CallbackClaimsCore(s: Engine, d: nat)
    requires Core(s) && d < |s.frames| && s.frames[d].dma.DmaFired? && s.frames[d].state.Pending?
    ensures Core(CallbackClaims(s, d))
  {
    var s' := CallbackClaims(s, d);
    assert FrameOk(s, d);
    RemoveFacts(s.pendingList, d, |s.frames|);
    TailFramesUpdate(s.frames, d, s'.frames[d]);
    forall e | 0 <= e < |s'.frames| ensures FrameOk(s', e) { assert FrameOk(s, e); }
    forall t | 0 <= t < |s'.location| ensures BufferOk(s', t) { assert BufferOk(s, t); }
    forall i | 0 <= i < |s'.delivered| ensures DeliveryOk(s', i) { assert DeliveryOk(s, i); }
  }

  lemma CallbackDefersCore(s: Engine, d: nat)
    requires Core(s) && d < |s.frames| && s.frames[d].dma.DmaFired? && !s.frames[d].state.Pending?
    ensures Core(CallbackDefers(s, d))
  {
    var s' := CallbackDefers(s, d);
    assert FrameOk(s, d);
    TailFramesUpdate(s.frames, d, s'.frames[d]);
    forall e | 0 <= e < |s'.frames| ensures FrameOk(s', e) { assert FrameOk(s, e); }
    forall t | 0 <= t < |s'.location| ensures BufferOk(s', t) { assert BufferOk(s, t); }
    forall i | 0 <= i < |s'.delivered| ensures DeliveryOk(s', i) { assert DeliveryOk(s, i); }
  }

  lemma TailSubmitCore(s: Engine, d: nat)
    requires Core(s) && d < |s.frames| && s.frames[d].carrier.ByTail?
    ensures Core(TailSubmit(s, d))
  {
    var s' := TailSubmit(s, d);
    assert FrameOk(s, d);
    TailFramesUpdate(s.frames, d, s'.frames[d]);
    forall e | 0 <= e < |s'.frames| ensures FrameOk(s', e) { assert FrameOk(s, e); }
    forall t | 0 <= t < |s'.location| ensures BufferOk(s', t) { assert BufferOk(s, t); }
    forall i | 0 <= i < |s'.delivered| ensures DeliveryOk(s', i) { assert DeliveryOk(s, i); }
  }

  lemma TailDeliverCore(s: Engine, t: nat)
    requires Core(s) && t < |s.location| && s.location[t].AtTail?
    ensures Core(TailDeliver(s, t))
  {
    var s' := TailDeliver(s, t);
    TailBuffersUpdate(s.location, t, AtClient(|s.delivered|));
    assert BufferOk(s, t);
    forall d | 0 <= d < |s'.frames| ensures FrameOk(s', d) { assert FrameOk(s, d); }
    forall u | 0 <= u < |s'.location| ensures BufferOk(s', u) { assert BufferOk(s, u); }
    forall i | 0 <= i < |s'.delivered| ensures DeliveryOk(s', i) { assert i < |s.delivered| ==> DeliveryOk(s, i); }
  }

  lemma SignalAttachedCore(s: Engine)
    requires Core(s) && s.arming > 0
    ensures Core(SignalAttached(s))
  {
    var s' := SignalAttached(s);
    forall d | 0 <= d < |s'.frames| ensures FrameOk(s', d) { assert FrameOk(s, d); }
    forall t | 0 <= t < |s'.location| ensures BufferOk(s', t) { assert BufferOk(s, t); }
    forall i | 0 <= i < |s'.delivered| ensures DeliveryOk(s', i) { assert DeliveryOk(s, i); }
  }

  lemma DropCountCore(s: Engine)
    requires Core(s) && s.finishing > 0
    ensures Core(DropCount(s))
  {
    var s' := DropCount(s);
    forall d | 0 <= d < |s'.frames| ensures FrameOk(s', d) { assert FrameOk(s, d); }
    forall t | 0 <= t < |s'.location| ensures BufferOk(s', t) { assert BufferOk(s, t); }
    forall i | 0 <= i < |s'.delivered| ensures DeliveryOk(s', i) { assert DeliveryOk(s, i); }
  }

  // -------------------------------------------------------------------------- bus events

  lemma AttachFailedBuffers(s: Engine, d: nat, st: Status)
    requires Core(s) && AttachCanEnd(s, d, st) && !st.Success?
    ensures var s' := AttachFailed(s, d, st);
            (forall u :: 0 <= u < |s'.location| ==> BufferOk(s', u)) &&
            (forall i :: 0 <= i < |s'.delivered| ==> DeliveryOk(s', i))
  {
    var s' := AttachFailed(s, d, st);
    assert FrameOk(s, d);
    forall u | 0 <= u < |s'.location| ensures BufferOk(s', u) { assert BufferOk(s, u); }
    forall i | 0 <= i < |s'.delivered| ensures DeliveryOk(s', i) { assert DeliveryOk(s, i); }
  }

  lemma AttachFailedFrames(s: Engine, d: nat, st: Status)
    requires Core(s) && AttachCanEnd(s, d, st) && !st.Success?
    ensures forall e :: 0 <= e < |s.frames| ==> FrameOk(AttachFailed(s, d, st), e)
  {
    var s' := AttachFailed(s, d, st);
    assert FrameOk(s, d);
    assert s.requests[AttachRequest(d)] == 1;
    RemoveFacts(s.pendingList, d, |s.frames|);
    assert forall x :: x in s'.freeList <==> x == d || x in s.freeList;
    forall e | 0 <= e < |s'.frames| ensures FrameOk(s', e) { assert FrameOk(s, e); }
  }

  lemma AttachFailedCore(s: Engine, d: nat, st: Status)
    requires Core(s) && AttachCanEnd(s, d, st) && !st.Success?
    ensures Core(AttachFailed(s, d, st))
  {
    var s' := AttachFailed(s, d, st);
    var t := s.frames[d].ticket;
    assert FrameOk(s, d);
    assert s.requests[AttachRequest(d)] == 1;
    RemoveFacts(s.pendingList, d, |s.frames|);
    TailFramesUpdate(s.frames, d, s'.frames[d]);
    TailBuffersUpdate(s.location, t, s'.location[t]);
    assert forall x :: x in s'.freeList <==> x == d || x in s.freeList;
    AttachFailedFrames(s, d, st);
    AttachFailedBuffers(s, d, st);
  }

  lemma AttachFoundDoneCore(s: Engine, d: nat)
    requires Core(s) && AttachCanEnd(s, d, Success) && s.frames[d].state.CompletedWhileAttaching?
    ensures Core(AttachFoundDone(s, d))
  {
    var s' := AttachFoundDone(s, d);
    assert FrameOk(s, d);
    assert s.requests[AttachRequest(d)] == 1;
    RemoveFacts(s.pendingList, d, |s.frames|);
    TailFramesUpdate(s.frames, d, s'.frames[d]);
    forall e | 0 <= e < |s'.frames| ensures FrameOk(s', e) { assert FrameOk(s, e); }
    forall t | 0 <= t < |s'.location| ensures BufferOk(s', t) { assert BufferOk(s, t); }
    forall i | 0 <= i < |s'.delivered| ensures DeliveryOk(s', i) { assert DeliveryOk(s, i); }
  }

  lemma AttachPublishedCore(s: Engine, d: nat)
    requires Core(s) && AttachCanEnd(s, d, Success) && !s.frames[d].state.CompletedWhileAttaching?
    ensures Core(AttachPublished(s, d))
  {
    var s' := AttachPublished(s, d);
    assert FrameOk(s, d);
    assert s.requests[AttachRequest(d)] == 1;
    TailFramesUpdate(s.frames, d, s'.frames[d]);
    forall e | 0 <= e < |s'.frames| ensures FrameOk(s', e) { assert FrameOk(s, e); }
    forall t | 0 <= t < |s'.location| ensures BufferOk(s', t) { assert BufferOk(s, t); }
    forall i | 0 <= i < |s'.delivered| ensures DeliveryOk(s', i) { assert DeliveryOk(s, i); }
  }

  lemma FrameCompleteCore(s: Engine, d: nat, st: Status)
    requires Core(s) && FrameCanComplete(s, d)
    ensures Core(FrameComplete(s, d, st))
  {
    var s' := FrameComplete(s, d, st);
    assert FrameOk(s, d);
    TailFramesUpdate(s.frames, d, s'.frames[d]);
    forall e | 0 <= e < |s'.frames| ensures FrameOk(s', e) { assert FrameOk(s, e); }
    forall t | 0 <= t < |s'.location| ensures BufferOk(s', t) { assert BufferOk(s, t); }
    forall i | 0 <= i < |s'.delivered| ensures DeliveryOk(s', i) { assert DeliveryOk(s, i); }
  }

  lemma DetachQuarantinedCore(s: Engine, d: nat)
    requires Core(s) && DetachCanEnd(s, d)
    ensures Core(DetachQuarantined(s, d))
  {
    var s' := DetachQuarantined(s, d);
    assert FrameOk(s, d);
    assert s.requests[DetachRequest(d)] == 1;
    TailFramesUpdate(s.frames, d, s'.frames[d]);
    forall e | 0 <= e < |s'.frames| ensures FrameOk(s', e) { assert FrameOk(s, e); }
    forall t | 0 <= t < |s'.location| ensures BufferOk(s', t) { assert BufferOk(s, t); }
    forall i | 0 <= i < |s'.delivered| ensures DeliveryOk(s', i) { assert DeliveryOk(s, i); }
  }

  lemma DetachRecycledBuffers(s: Engine, d: nat)
    requires Core(s) && DetachCanEnd(s, d)
    ensures var s' := DetachRecycled(s, d);
            (forall u :: 0 <= u < |s'.location| ==> BufferOk(s', u)) &&
            (forall i :: 0 <= i < |s'.delivered| ==> DeliveryOk(s', i))
  {
    var s' := DetachRecycled(s, d);
    assert FrameOk(s, d);
    forall u | 0 <= u < |s'.location| ensures BufferOk(s', u) { assert BufferOk(s, u); }
    forall i | 0 <= i < |s'.delivered| ensures DeliveryOk(s', i) { assert DeliveryOk(s, i); }
  }

  lemma DetachRecycledFrames(s: Engine, d: nat)
    requires Core(s) && DetachCanEnd(s, d)
    ensures forall e :: 0 <= e < |s.frames| ==> FrameOk(DetachRecycled(s, d), e)
  {
    var s' := DetachRecycled(s, d);
    assert FrameOk(s, d);
    assert s.requests[DetachRequest(d)] == 1;
    assert forall x :: x in s'.freeList <==> x == d || x in s.freeList;
    forall e | 0 <= e < |s'.frames| ensures FrameOk(s', e) { assert FrameOk(s, e); }
  }

  lemma DetachRecycledCore(s: Engine, d: nat)
    requires Core(s) && DetachCanEnd(s, d)
    ensures Core(DetachRecycled(s, d))
  {
    var s' := DetachRecycled(s, d);
    var t := s.frames[d].ticket;
    assert FrameOk(s, d);
    assert s.requests[DetachRequest(d)] == 1;
    TailFramesUpdate(s.frames, d, s'.frames[d]);
    TailBuffersUpdate(s.location, t, s'.location[t]);
    assert forall x :: x in s'.freeList <==> x == d || x in s.freeList;
    DetachRecycledFrames(s, d);
    DetachRecycledBuffers(s, d);
  }

  // ----------------------------------------------------------------------- control plane

  lemma ClaimPendingCore(s: Engine, pass: nat, d: nat)
    requires Core(s) && d < |s.frames| && s.frames[d].state.Pending? && s.stopped
    requires s.control.QuiesceClaim?
    ensures Core(ClaimPending(s, pass, d))
  {
    var s' := ClaimPending(s, pass, d);
    assert FrameOk(s, d);
    RemoveFacts(s.pendingList, d, |s.frames|);
    TailFramesUpdate(s.frames, d, s'.frames[d]);
    forall e | 0 <= e < |s'.frames| ensures FrameOk(s', e) { assert FrameOk(s, e); }
    forall t | 0 <= t < |s'.location| ensures BufferOk(s', t) { assert BufferOk(s, t); }
    forall i | 0 <= i < |s'.delivered| ensures DeliveryOk(s', i) { assert DeliveryOk(s, i); }
  }

  lemma SubmitClaimedCore(s: Engine, pass: nat, d: nat)
    requires Core(s) && s.control == QuiesceSubmit(pass, d) && d < |s.frames|
    ensures Core(SubmitClaimed(s, pass, d))
  {
    var s' := SubmitClaimed(s, pass, d);
    assert FrameOk(s, d);
    TailFramesUpdate(s.frames, d, s'.frames[d]);
    forall e | 0 <= e < |s'.frames| ensures FrameOk(s', e) { assert FrameOk(s, e); }
    forall t | 0 <= t < |s'.location| ensures BufferOk(s', t) { assert BufferOk(s, t); }
    forall i | 0 <= i < |s'.delivered| ensures DeliveryOk(s', i) { assert DeliveryOk(s, i); }
  }

  lemma ScanRecycleCore(s: Engine, i: nat, flushed: bool)
    requires Core(s) && s.control.ReleaseScan? && i < |s.frames| && s.frames[i].state.DetachFailed?
    ensures Core(ScanRecycle(s, i, flushed))
  {
    var s' := ScanRecycle(s, i, flushed);
    var t := s.frames[i].ticket;
    assert FrameOk(s, i);
    TailFramesUpdate(s.frames, i, s'.frames[i]);
    TailBuffersUpdate(s.location, t, AtControl);
    assert forall x :: x in s'.freeList <==> x == i || x in s.freeList;
    forall e | 0 <= e < |s'.frames| ensures FrameOk(s', e) { assert FrameOk(s, e); }
    forall u | 0 <= u < |s'.location| ensures BufferOk(s', u) { assert BufferOk(s, u); }
    forall i | 0 <= i < |s'.delivered| ensures DeliveryOk(s', i) { assert DeliveryOk(s, i); }
  }

  lemma ScanDeliverCore(s: Engine)
    requires Core(s) && s.control.ReleaseDeliver?
    ensures Core(ScanDeliver(s, s.control.i, s.control.flushed, s.control.t, s.control.c))
  {
    var t := s.control.t;
    var s' := ScanDeliver(s, s.control.i, s.control.flushed, t, s.control.c);
    TailBuffersUpdate(s.location, t, AtClient(|s.delivered|));
    forall d | 0 <= d < |s'.frames| ensures FrameOk(s', d) { assert FrameOk(s, d); }
    forall u | 0 <= u < |s'.location| ensures BufferOk(s', u) { assert BufferOk(s, u); }
    forall i | 0 <= i < |s'.delivered| ensures DeliveryOk(s', i) { assert i < |s.delivered| ==> DeliveryOk(s, i); }
  }

  // A control step that touches no descriptor and no buffer.
  lemma ControlCore(s: Engine, s': Engine)
    requires Core(s)
    requires !s.control.QuiesceSubmit? && !s'.control.QuiesceSubmit?
    requires !s.control.ReleaseDeliver? && !s'.control.ReleaseDeliver?
    requires s' == s.(control := s'.control, draining := s'.draining, stopped := s'.stopped, log := s'.log,
                      listening := s'.listening, resourceAllocated := s'.resourceAllocated,
                      firstAttachDone := s'.firstAttachDone)
    requires s.stopped && !s'.stopped ==> forall d :: 0 <= d < |s.frames| ==> !s.frames[d].state.Detaching?
    ensures Core(s')
  {
    forall d | 0 <= d < |s'.frames| ensures FrameOk(s', d) { assert FrameOk(s, d); }
    forall t | 0 <= t < |s'.location| ensures BufferOk(s', t) { assert BufferOk(s, t); }
    forall i | 0 <= i < |s'.delivered| ensures DeliveryOk(s', i) { assert DeliveryOk(s, i); }
  }
}
