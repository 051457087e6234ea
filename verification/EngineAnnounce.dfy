// A live engine that has a fully attached buffer has seen its first attach, or is about to be
// told of it: the wait of the listen cannot miss it.

module EngineAnnounce {
  import opened EngineModel
  import opened EngineInvariant
  import opened EnginePlane
  import opened EngineControl
  import opened EngineTheorems

  predicate NonePending(s: Engine) {
    forall d :: 0 <= d < |s.frames| ==> !s.frames[d].state.Pending?
  }

  predicate Announced(s: Engine) {
    s.draining || s.firstAttachDone || s.arming > 0 || NonePending(s)
  }

  // The step attaches nothing for good and takes no announcement back.
  predicate Calm(s: Engine, s': Engine) {
    && (s'.draining || !s.draining)
    && (s.firstAttachDone ==> s'.firstAttachDone || s'.draining)
    && (s.arming > 0 ==> s'.arming > 0 || s'.firstAttachDone)
    && (NonePending(s) ==> NonePending(s'))
  }

  // It rewrites at most descriptor d, which is not Pending afterwards.
  lemma FrameCalm(s: Engine, s': Engine, d: nat)
    requires s'.draining == s.draining && s'.firstAttachDone == s.firstAttachDone && s'.arming == s.arming
    requires |s'.frames| == |s.frames| &&
             forall e :: 0 <= e < |s.frames| && s'.frames[e].state.Pending? ==> s.frames[e].state.Pending? && e != d
    ensures Calm(s, s')
  {
  }

  lemma SameCalm(s: Engine, s': Engine)
    requires s'.frames == s.frames
    requires s'.draining == s.draining && s'.firstAttachDone == s.firstAttachDone && s'.arming == s.arming
    ensures Calm(s, s')
  {
  }

  lemma LapAcquireCalm(s: Engine, s': Engine, k: nat, offer: Offer)
    requires k < |s.runners| && s.runners[k].pc.Acquire? && s.runners[k].pc.d < |s.frames| && s' == LapStep(s, k, offer)
    ensures Calm(s, s')
  {
    var i, d := s.runners[k].pc.i, s.runners[k].pc.d;
    if offer.NoBuffer? {
      assert s' == LapMove(s, k, GiveBack(d));
      SameCalm(s, s');
    } else if offer.fits {
      LapPrimeCalm(s, s', k, i, d, offer.c);
    } else {
      assert s' == LapRefuse(s, k, i, d, offer.c);
      SameCalm(s, s');
    }
  }

  lemma LapPrimeCalm(s: Engine, s': Engine, k: nat, i: nat, d: nat, c: nat)
    requires k < |s.runners| && d < |s.frames| && s' == LapPrime(s, k, i, d, c)
    ensures Calm(s, s')
  {
    assert forall e :: 0 <= e < |s.frames| ==> s'.frames[e].state == s.frames[e].state;
  }

  lemma LapListCalm(s: Engine, s': Engine, k: nat, offer: Offer)
    requires k < |s.runners| && LapInRange(s.runners[k].pc, |s.frames|) && s' == LapStep(s, k, offer)
    requires s.runners[k].pc.GiveBack? || s.runners[k].pc.Reject? || s.runners[k].pc.Submit?
    ensures Calm(s, s')
  {
    match s.runners[k].pc
    case GiveBack(d) => assert s' == LapReturn(s, k, d, LapEnd);
    case Reject(i, d, t, c) => assert s' == LapReturn(s, k, d, RejectDeliver(i, t, c));
    case Submit(i, d) => assert s' == LapSubmit(s, k, i, d);
  }

  lemma LapPublishCalm(s: Engine, s': Engine, k: nat, offer: Offer)
    requires k < |s.runners| && s.runners[k].pc.Publish? && s.runners[k].pc.d < |s.frames| && s' == LapStep(s, k, offer)
    ensures Calm(s, s')
  {
    var pc := s.runners[k].pc;
    if s.draining { assert s' == LapReturn(s, k, pc.d, CancelDeliver(pc.t, pc.c)); }
    else { assert s' == LapAttach(s, k, pc.i, pc.d, pc.t); }
  }

  lemma LapClaimCalm(s: Engine, s': Engine, k: nat, offer: Offer)
    requires k < |s.runners| && s.runners[k].pc.Claim? && s' == LapStep(s, k, offer)
    ensures Calm(s, s')
  {
    if s.draining || s.freeList == [] { assert s' == LapMove(s, k, LapEnd); }
    else { assert s' == LapClaim(s, k, s.runners[k].pc.i); }
    SameCalm(s, s');
  }

  lemma LapEndCalm(s: Engine, s': Engine, k: nat, offer: Offer)
    requires k < |s.runners| && s.runners[k].pc.LapEnd? && s' == LapStep(s, k, offer)
    ensures Calm(s, s')
  {
    if s.pumpAgain { assert s' == LapMove(s, k, LapStart); } else { assert s' == LapLeave(s, k); }
    SameCalm(s, s');
  }

  lemma LapDeliverCalm(s: Engine, s': Engine, k: nat, offer: Offer)
    requires k < |s.runners| && (s.runners[k].pc.RejectDeliver? || s.runners[k].pc.CancelDeliver?)
    requires s' == LapStep(s, k, offer)
    ensures Calm(s, s')
  {
    match s.runners[k].pc
    case RejectDeliver(i, t, c) => assert s' == LapDeliver(s, k, t, c, InvalidParameter, NextIteration(s, i));
    case CancelDeliver(t, c) => assert s' == LapDeliver(s, k, t, c, Cancelled, LapEnd);
  }

  lemma LapCalm(s: Engine, s': Engine, k: nat, offer: Offer)
    requires k < |s.runners| && LapInRange(s.runners[k].pc, |s.frames|) && s' == LapStep(s, k, offer)
    ensures Calm(s, s')
  {
    var pc := s.runners[k].pc;
    if pc.Acquire? { LapAcquireCalm(s, s', k, offer); }
    else if pc.GiveBack? || pc.Reject? || pc.Submit? { LapListCalm(s, s', k, offer); }
    else if pc.Publish? { LapPublishCalm(s, s', k, offer); }
    else if pc.RejectDeliver? || pc.CancelDeliver? { LapDeliverCalm(s, s', k, offer); }
    else if pc.LapStart? { SameCalm(s, s'); }
    else if pc.Claim? { LapClaimCalm(s, s', k, offer); }
    else { LapEndCalm(s, s', k, offer); }
  }

  lemma PumpCalm(s: Engine, s': Engine, a: Action)
    requires Enabled(s, a) && a.OfPump() && s' == ApplyPump(s, a)
    ensures Calm(s, s')
  {
    match a
    case CallPump => assert s' == PumpCall(s);
    case RunElection(counted) => assert s' == (if s.pumpActive then ElectLost(s, counted) else ElectWon(s, counted));
    case RunLap(k, offer) => LapCalm(s, s', k, offer);
  }

  lemma CallbackClaimsCalm(s: Engine, s': Engine, d: nat)
    requires d < |s.frames| && s' == CallbackClaims(s, d)
    ensures Calm(s, s')
  {
    FrameCalm(s, s', d);
  }

  lemma CallbackDefersCalm(s: Engine, s': Engine, d: nat)
    requires d < |s.frames| && !s.frames[d].state.Pending? && s' == CallbackDefers(s, d)
    ensures Calm(s, s')
  {
    FrameCalm(s, s', d);
  }

  lemma TailCalm(s: Engine, s': Engine, a: Action)
    requires Enabled(s, a) && a.OfTail() && s' == ApplyTail(s, a)
    ensures Calm(s, s')
  {
    match a
    case RunCallback(d) =>
      if s.frames[d].state.Pending? { CallbackClaimsCalm(s, s', d); } else { CallbackDefersCalm(s, s', d); }
    case RunSubmit(d) => assert s' == TailSubmit(s, d);
    case RunDeliver(t) => assert s' == TailDeliver(s, t);
    case RunArmed => assert s' == SignalAttached(s);
    case RunDone => assert s' == DropCount(s);
  }

  // Only the attach completion makes a descriptor Pending, and on a live engine it announces it.
  lemma AttachAnnounced(s: Engine, s': Engine, d: nat, st: Status)
    requires AttachCanEnd(s, d, st) && s' == AttachEnd(s, d, st) && Announced(s)
    ensures Announced(s')
  {
    if !st.Success? { assert s' == AttachFailed(s, d, st); }
    else if s.frames[d].state.CompletedWhileAttaching? { assert s' == AttachFoundDone(s, d); }
    else { assert s' == AttachPublished(s, d); }
  }

  lemma BusAnnounced(s: Engine, s': Engine, a: Action)
    requires Enabled(s, a) && a.OfBus() && s' == ApplyBus(s, a) && Announced(s)
    ensures Announced(s')
  {
    match a
    case BusAttachEnd(d, st) => AttachAnnounced(s, s', d, st);
    case BusFrame(d, st) => FrameDoneCalm(s, s', d, st);
    case BusDetachEnd(d, ok) => DetachCalm(s, s', d, ok);
  }

  lemma FrameDoneCalm(s: Engine, s': Engine, d: nat, st: Status)
    requires FrameCanComplete(s, d) && s' == FrameComplete(s, d, st)
    ensures Calm(s, s')
  {
  }

  lemma DetachCalm(s: Engine, s': Engine, d: nat, ok: bool)
    requires DetachCanEnd(s, d) && s' == DetachEnd(s, d, ok)
    ensures Calm(s, s')
  {
    if ok { assert s' == DetachRecycled(s, d); } else { assert s' == DetachQuarantined(s, d); }
  }

  lemma QuiesceAnnounced(n: nat, schedule: seq<Action>, s: Engine, s': Engine, a: Action)
    requires s == Run(Init(n), schedule) && Enabled(s, a) && a.OfQuiesce() && s' == ApplyQuiesce(s, a)
    ensures Announced(s')
  {
    QuiesceBusy(s, s', a);
    RunInv(n, schedule + [a]);
    RunSnoc(Init(n), schedule, a);
  }

  lemma QuiesceBusy(s: Engine, s': Engine, a: Action)
    requires Enabled(s, a) && a.OfQuiesce() && s' == ApplyQuiesce(s, a)
    ensures !s'.control.Idle?
  {
    if a.CtlClaim? { ClaimBusy(s, s', s.control.pass); }
  }

  lemma ClaimBusy(s: Engine, s': Engine, pass: nat)
    requires s' == ClaimNext(s, pass)
    ensures !s'.control.Idle?
  {
    var i := FirstPending(s.frames, s.pendingList);
    if i == |s.pendingList| { assert s' == s.(control := QuiesceDrain(pass)); }
    else { assert s' == ClaimPending(s, pass, s.pendingList[i]); }
  }

  // What a session opens over: nothing attached.
  lemma OpenAnnounced(n: nat, schedule: seq<Action>, s: Engine)
    requires s == Run(Init(n), schedule) && s.draining && Quiet(s.control)
    ensures NonePending(s)
  {
    RunInv(n, schedule);
    SettledFrames(s);
  }

  lemma ReleaseAnnounced(n: nat, schedule: seq<Action>, s: Engine, s': Engine, a: Action)
    requires s == Run(Init(n), schedule) && Enabled(s, a) && a.OfRelease() && s' == ApplyRelease(s, a)
    ensures Announced(s')
  {
    ReleaseOnIdle(n, schedule, s, a);
    ReleaseDrains(s, s', a);
  }

  lemma ReleaseOnIdle(n: nat, schedule: seq<Action>, s: Engine, a: Action)
    requires s == Run(Init(n), schedule) && Enabled(s, a) && a.OfRelease()
    ensures s.draining
  {
    RunInv(n, schedule);
  }

  lemma ReleaseDrains(s: Engine, s': Engine, a: Action)
    requires Enabled(s, a) && a.OfRelease() && s' == ApplyRelease(s, a) && s.draining
    ensures s'.draining
  {
    if a.CtlScan? {
      if s.control.i < |s.frames| && s.frames[s.control.i].state.DetachFailed? { ScanHeldDrains(s, s'); }
      else { ScanMovesDrains(s, s'); }
    }
  }

  lemma ScanHeldDrains(s: Engine, s': Engine)
    requires s.control.ReleaseScan? && s.control.i < |s.frames| && s.frames[s.control.i].state.DetachFailed?
    requires s' == ScanNext(s, s.control.i, s.control.flushed)
    ensures s'.draining == s.draining
  {
  }

  lemma ScanMovesDrains(s: Engine, s': Engine)
    requires s.control.ReleaseScan? && !(s.control.i < |s.frames| && s.frames[s.control.i].state.DetachFailed?)
    requires s' == ScanNext(s, s.control.i, s.control.flushed)
    ensures s'.draining == s.draining
  {
  }

  lemma StartAnnounced(n: nat, schedule: seq<Action>, s: Engine, s': Engine, a: Action)
    requires s == Run(Init(n), schedule) && Enabled(s, a) && a.OfStart() && s' == ApplyStart(s, a) && Announced(s)
    ensures Announced(s')
  {
    if a.CtlListen? {
      assert s' == s.(listening := true, log := s.log + [ListenIssued]);
    } else {
      StartDrained(n, schedule, s, a);
      OpenAnnounced(n, schedule, s);
    }
  }

  lemma StartDrained(n: nat, schedule: seq<Action>, s: Engine, a: Action)
    requires s == Run(Init(n), schedule) && Enabled(s, a) && a.OfStart() && !a.CtlListen?
    ensures s.draining && Quiet(s.control)
  {
    RunInv(n, schedule);
  }

  lemma StepAnnounced(n: nat, schedule: seq<Action>, s: Engine, s': Engine, a: Action)
    requires s == Run(Init(n), schedule) && Enabled(s, a) && Announced(s) && s' == Apply(s, a)
    ensures Announced(s')
  {
    if a.OfPump() { PumpCalm(s, s', a); }
    else if a.OfTail() { TailCalm(s, s', a); }
    else if a.OfBus() { BusAnnounced(s, s', a); }
    else if a.OfQuiesce() { QuiesceAnnounced(n, schedule, s, s', a); }
    else if a.OfRelease() { ReleaseAnnounced(n, schedule, s, s', a); }
    else { StartAnnounced(n, schedule, s, s', a); }
  }

  // Over every schedule: a live engine with a Pending descriptor has signalled its first attach
  // or has an attach completion on its way to signal it.
  lemma {:induction false} FirstAttachSeen(n: nat, schedule: seq<Action>)
    ensures var s := Run(Init(n), schedule);
      s.draining || s.firstAttachDone || s.arming > 0 || forall d :: 0 <= d < |s.frames| ==> !s.frames[d].state.Pending?
    decreases |schedule|
  {
    if schedule != [] {
      var before, a := schedule[..|schedule| - 1], schedule[|schedule| - 1];
      FirstAttachSeen(n, before);
      var s := Run(Init(n), before);
      if Enabled(s, a) { StepAnnounced(n, before, s, Apply(s, a), a); }
    }
  }
}
