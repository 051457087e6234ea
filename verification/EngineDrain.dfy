// Why a quiesce terminates: while InFlightIrps is not zero some step of a completion, of the
// pump runner or of the bus driver is enabled, and every such step uses up weight.

module EngineDrain {
  import opened EngineModel
  import opened BusMonitor
  import opened EngineInvariant
  import opened EnginePlane
  import opened EngineControl
  import opened EngineTheorems

  // Steps a descriptor still owes before it stops counting.
  function FrameWeight(f: Frame): nat {
    if f.state.Attaching? || f.state.CompletedWhileAttaching? then 10
    else if f.state.Detaching? then (if f.carrier.ByTail? then 9 else 8)
    else 0
  }

  function FramesWeight(frames: seq<Frame>): nat
    decreases |frames|
  {
    if frames == [] then 0 else FramesWeight(frames[..|frames| - 1]) + FrameWeight(frames[|frames| - 1])
  }

  // Program points a lap of a draining engine still passes.
  function LapWeight(pc: LapPc): nat {
    match pc
    case Acquire(_, _) => 5
    case Reject(_, _, _, _) => 4
    case LapStart => 3
    case RejectDeliver(_, _, _) => 3
    case Publish(_, _, _, _) => 3
    case Submit(_, _) => 3
    case Claim(_) => 2
    case GiveBack(_) => 2
    case CancelDeliver(_, _) => 2
    case LapEnd => 1
  }

  function RunnerWeight(runners: seq<Runner>, again: bool): nat {
    if |runners| != 1 then 0
    else
      LapWeight(runners[0].pc) + (if runners[0].counted then 1 else 0) +
      (if again && !runners[0].pc.LapStart? then 3 else 0)
  }

  function Weight(s: Engine): nat {
    FramesWeight(s.frames) + 7 * TailBuffers(s.location) + 6 * s.enteringCounted + 2 * s.arming + s.finishing +
    RunnerWeight(s.runners, s.pumpAgain)
  }

  lemma {:induction false} FramesWeightUpdate(frames: seq<Frame>, d: nat, f: Frame)
    requires d < |frames|
    ensures FramesWeight(frames[d := f]) == FramesWeight(frames) - FrameWeight(frames[d]) + FrameWeight(f)
    decreases |frames|
  {
    var n := |frames| - 1;
    if d == n {
      assert frames[d := f][..n] == frames[..n];
    } else {
      FramesWeightUpdate(frames[..n], d, f);
      assert frames[d := f][..n] == frames[..n][d := f];
    }
  }

  // The engine as a quiesce leaves it to drain.
  predicate Draining(s: Engine) {
    s.draining && s.stopped && NoneFired(s)
  }

  // What the bus driver, a completion routine or the pump runner owes. A pump call from
  // elsewhere is not owed by anybody.
  predicate Owed(a: Action) {
    a.RunDone? || a.RunArmed? || a == RunElection(true) || a.RunLap? || a.RunDeliver? || a.RunSubmit? ||
    a.BusAttachEnd? || a.BusDetachEnd?
  }

  lemma ElectionWeight(s: Engine, counted: bool)
    requires Inv(s) && CanElect(s, counted)
    ensures var s' := if s.pumpActive then ElectLost(s, counted) else ElectWon(s, counted);
            if counted then Weight(s') < Weight(s) else Weight(s') <= Weight(s) + 3
  {
  }

  lemma LapPrivateWeight(s: Engine, offer: Offer)
    requires Inv(s) && |s.runners| == 1 && LapInRange(s.runners[0].pc, |s.frames|)
    requires s.runners[0].pc.LapStart? || s.runners[0].pc.LapEnd? || (s.runners[0].pc.Claim? && s.draining)
    ensures Weight(LapStep(s, 0, offer)) < Weight(s)
  {
    match s.runners[0].pc
    case LapStart =>
    case LapEnd => if s.pumpAgain {} else {}
    case Claim(_) =>
  }

  lemma LapPrimeWeight(s: Engine, i: nat, d: nat, c: nat)
    requires Inv(s) && |s.runners| == 1 && s.runners[0].pc == Acquire(i, d) && d < |s.frames|
    ensures Weight(LapPrime(s, 0, i, d, c)) < Weight(s)
  {
    TailBuffersAppend(s.location, AtRunner);
    FramesWeightUpdate(s.frames, d, LapPrime(s, 0, i, d, c).frames[d]);
  }

  lemma LapRefuseWeight(s: Engine, i: nat, d: nat, c: nat)
    requires Inv(s) && |s.runners| == 1 && s.runners[0].pc == Acquire(i, d)
    ensures Weight(LapRefuse(s, 0, i, d, c)) < Weight(s)
  {
    TailBuffersAppend(s.location, AtRunner);
  }

  lemma LapMoveWeight(s: Engine, pc: LapPc)
    requires Inv(s) && |s.runners| == 1 && LapWeight(pc) < LapWeight(s.runners[0].pc)
    requires !pc.LapStart? && !s.runners[0].pc.LapStart?
    ensures Weight(LapMove(s, 0, pc)) < Weight(s)
  {
  }

  lemma LapAcquireWeight(s: Engine, offer: Offer, i: nat, d: nat)
    requires Inv(s) && |s.runners| == 1 && s.runners[0].pc == Acquire(i, d) && d < |s.frames|
    ensures Weight(LapStep(s, 0, offer)) < Weight(s)
  {
    if offer.NoBuffer? { LapMoveWeight(s, GiveBack(d)); }
    else if offer.fits { LapPrimeWeight(s, i, d, offer.c); }
    else { LapRefuseWeight(s, i, d, offer.c); }
  }

  lemma LapReturnWeight(s: Engine, d: nat, pc: LapPc)
    requires Inv(s) && |s.runners| == 1 && LapHolds(s.runners[0].pc) == d && d < |s.frames|
    requires LapWeight(pc) < LapWeight(s.runners[0].pc) && !pc.LapStart? && !s.runners[0].pc.LapStart?
    ensures Weight(LapReturn(s, 0, d, pc)) < Weight(s)
  {
    assert LapReturn(s, 0, d, pc).frames == s.frames;
  }

  lemma LapDeliverWeight(s: Engine, t: nat, c: nat, st: Status, pc: LapPc)
    requires Inv(s) && |s.runners| == 1 && TicketAt(s, t, AtRunner, c)
    requires LapWeight(pc) < LapWeight(s.runners[0].pc) && !pc.LapStart? && !s.runners[0].pc.LapStart?
    ensures Weight(LapDeliver(s, 0, t, c, st, pc)) < Weight(s)
  {
    TailBuffersUpdate(s.location, t, AtClient(|s.delivered|));
  }

  lemma LapSubmitWeight(s: Engine, i: nat, d: nat)
    requires Inv(s) && |s.runners| == 1 && s.runners[0].pc == Submit(i, d) && d < |s.frames|
    ensures Weight(LapSubmit(s, 0, i, d)) < Weight(s)
  {
    FramesWeightUpdate(s.frames, d, LapSubmit(s, 0, i, d).frames[d]);
  }

  lemma LapOwed(s: Engine, offer: Offer)
    requires Inv(s) && s.draining && |s.runners| == 1 && LapInRange(s.runners[0].pc, |s.frames|)
    ensures Weight(LapStep(s, 0, offer)) < Weight(s)
  {
    match s.runners[0].pc
    case LapStart => LapPrivateWeight(s, offer);
    case Claim(_) => LapPrivateWeight(s, offer);
    case LapEnd => LapPrivateWeight(s, offer);
    case Acquire(i, d) => LapAcquireWeight(s, offer, i, d);
    case GiveBack(d) => LapReturnWeight(s, d, LapEnd);
    case Reject(i, d, t, c) => LapReturnWeight(s, d, RejectDeliver(i, t, c));
    case RejectDeliver(i, t, c) => LapDeliverWeight(s, t, c, InvalidParameter, NextIteration(s, i));
    case Publish(i, d, t, c) => LapReturnWeight(s, d, CancelDeliver(t, c));
    case CancelDeliver(t, c) => LapDeliverWeight(s, t, c, Cancelled, LapEnd);
    case Submit(i, d) => LapSubmitWeight(s, i, d);
  }

  lemma AttachFailedWeight(s: Engine, d: nat, st: Status)
    requires Inv(s) && AttachCanEnd(s, d, st) && !st.Success?
    ensures Weight(AttachFailed(s, d, st)) < Weight(s)
  {
    assert FrameOk(s, d);
    var s' := AttachFailed(s, d, st);
    FramesWeightUpdate(s.frames, d, s'.frames[d]);
    TailBuffersUpdate(s.location, s.frames[d].ticket, s'.location[s.frames[d].ticket]);
  }

  lemma AttachDoneWeight(s: Engine, d: nat)
    requires Inv(s) && s.draining && AttachCanEnd(s, d, Success)
    ensures Weight(AttachFoundDone(s, d)) < Weight(s)
    ensures Weight(AttachPublished(s, d)) < Weight(s)
  {
    assert FrameOk(s, d);
    FramesWeightUpdate(s.frames, d, AttachFoundDone(s, d).frames[d]);
    FramesWeightUpdate(s.frames, d, AttachPublished(s, d).frames[d]);
  }

  lemma AttachEndWeight(s: Engine, d: nat, st: Status)
    requires Inv(s) && s.draining && AttachCanEnd(s, d, st)
    ensures Weight(AttachEnd(s, d, st)) < Weight(s)
  {
    if !st.Success? { AttachFailedWeight(s, d, st); } else { AttachDoneWeight(s, d); }
  }

  lemma DetachRecycledWeight(s: Engine, d: nat)
    requires Inv(s) && DetachCanEnd(s, d)
    ensures Weight(DetachRecycled(s, d)) < Weight(s)
  {
    assert FrameOk(s, d);
    var s' := DetachRecycled(s, d);
    FramesWeightUpdate(s.frames, d, s'.frames[d]);
    TailBuffersUpdate(s.location, s.frames[d].ticket, s'.location[s.frames[d].ticket]);
  }

  lemma DetachQuarantinedWeight(s: Engine, d: nat)
    requires Inv(s) && DetachCanEnd(s, d)
    ensures Weight(DetachQuarantined(s, d)) < Weight(s)
  {
    assert FrameOk(s, d);
    FramesWeightUpdate(s.frames, d, DetachQuarantined(s, d).frames[d]);
  }

  lemma TailOwed(s: Engine, a: Action)
    requires Inv(s) && Enabled(s, a) && a.OfTail() && Owed(a)
    ensures Weight(ApplyTail(s, a)) < Weight(s)
  {
    match a
    case RunSubmit(d) =>
      assert FrameOk(s, d);
      FramesWeightUpdate(s.frames, d, TailSubmit(s, d).frames[d]);
    case RunDeliver(t) => TailBuffersUpdate(s.location, t, AtClient(|s.delivered|));
    case RunArmed =>
    case RunDone =>
  }

  // Every owed step uses up weight, whatever status the bus driver or buffer the front-end
  // answers with.
  lemma OwedFalls(s: Engine, a: Action)
    requires Inv(s) && Draining(s) && Enabled(s, a) && Owed(a)
    ensures Weight(Apply(s, a)) < Weight(s)
  {
    match a
    case RunElection(counted) => ElectionWeight(s, counted);
    case RunLap(k, offer) => LapOwed(s, offer);
    case BusAttachEnd(d, st) => AttachEndWeight(s, d, st);
    case BusDetachEnd(d, ok) => if ok { DetachRecycledWeight(s, d); } else { DetachQuarantinedWeight(s, d); }
    case RunSubmit(_) => TailOwed(s, a);
    case RunDeliver(_) => TailOwed(s, a);
    case RunArmed => TailOwed(s, a);
    case RunDone => TailOwed(s, a);
  }

  // ------------------------------------------------------------- something is always owed

  function LastTail(location: seq<Location>): (t: int)
    ensures -1 <= t < |location|
    ensures if t >= 0 then location[t].AtTail? else TailBuffers(location) == 0
    decreases |location|
  {
    if location == [] then -1
    else if location[|location| - 1].AtTail? then |location| - 1
    else LastTail(location[..|location| - 1])
  }

  predicate Carried(f: Frame) { f.carrier.ByTail? || f.carrier.ByBus? }

  function LastCarried(frames: seq<Frame>): (d: int)
    ensures -1 <= d < |frames|
    ensures d >= 0 ==> Carried(frames[d])
    ensures d < 0 ==> forall e :: 0 <= e < |frames| ==> !Carried(frames[e])
    decreases |frames|
  {
    if frames == [] then -1
    else if Carried(frames[|frames| - 1]) then |frames| - 1
    else LastCarried(frames[..|frames| - 1])
  }

  // What the carrier of descriptor d does next; st and ok are the bus driver's answer.
  function CarrierStep(f: Frame, d: nat, st: Status, ok: bool): Action {
    if f.carrier.ByTail? then RunSubmit(d)
    else if f.state.Detaching? then BusDetachEnd(d, ok)
    else BusAttachEnd(d, if f.dma.DmaArmed? then st else Success)
  }

  predicate Settling(s: Engine) {
    s.arming > 0 || s.finishing > 0 || s.enteringCounted > 0 || |s.runners| == 1 || LastTail(s.location) >= 0 ||
    LastCarried(s.frames) >= 0
  }

  // One owed step of an engine that has not settled.
  function OwedStep(s: Engine, st: Status, ok: bool): Action
    requires Settling(s)
  {
    if s.finishing > 0 then RunDone
    else if s.arming > 0 then RunArmed
    else if s.enteringCounted > 0 then RunElection(true)
    else if |s.runners| == 1 then RunLap(0, NoBuffer)
    else if LastTail(s.location) >= 0 then RunDeliver(LastTail(s.location))
    else CarrierStep(s.frames[LastCarried(s.frames)], LastCarried(s.frames), st, ok)
  }

  lemma RequestCarried(s: Engine, r: BusRequest)
    requires Inv(s) && r in s.requests
    ensures r.d < |s.frames| && Carried(s.frames[r.d])
  {
    assert FrameOk(s, r.d);
  }

  lemma InFlightSettling(s: Engine)
    requires Inv(s) && s.inFlight != 0 && !s.control.QuiesceSubmit?
    ensures Settling(s)
  {
    if LastCarried(s.frames) < 0 { TailFramesNone(s.frames); }
    if s.requests != multiset{} {
      var r :| r in s.requests;
      RequestCarried(s, r);
    }
  }

  lemma CarrierEnabled(s: Engine, d: nat, st: Status, ok: bool)
    requires Inv(s) && NoneFired(s) && d < |s.frames| && Carried(s.frames[d])
    ensures Enabled(s, CarrierStep(s.frames[d], d, st, ok)) && Owed(CarrierStep(s.frames[d], d, st, ok))
  {
    assert FrameOk(s, d);
  }

  lemma OwedEnabled(s: Engine, st: Status, ok: bool)
    requires Inv(s) && NoneFired(s) && Settling(s)
    ensures Enabled(s, OwedStep(s, st, ok)) && Owed(OwedStep(s, st, ok)) && !OwedStep(s, st, ok).ByControlPlane()
  {
    if s.finishing == 0 && s.arming == 0 && s.enteringCounted == 0 && |s.runners| != 1 && LastTail(s.location) < 0 {
      CarrierEnabled(s, LastCarried(s.frames), st, ok);
    }
  }

  // The drain cannot get stuck: as long as the count is not zero somebody owes a step, and
  // taking it brings the drain nearer to its end.
  lemma DrainProgress(n: nat, schedule: seq<Action>, s: Engine, st: Status, ok: bool)
    requires s == Run(Init(n), schedule) && Draining(s) && s.inFlight != 0 && !s.control.QuiesceSubmit?
    ensures Settling(s)
    ensures var a := OwedStep(s, st, ok);
            Enabled(s, a) && Owed(a) && !a.ByControlPlane() && Weight(Apply(s, a)) < Weight(s)
  {
    RunInv(n, schedule);
    InFlightSettling(s);
    OwedEnabled(s, st, ok);
    OwedFalls(s, OwedStep(s, st, ok));
  }

  // Neither can the wait for the pump runner.
  lemma RunnerProgress(n: nat, schedule: seq<Action>, s: Engine)
    requires s == Run(Init(n), schedule) && Draining(s) && s.pumpActive
    ensures Enabled(s, RunLap(0, NoBuffer)) && Weight(Apply(s, RunLap(0, NoBuffer))) < Weight(s)
  {
    RunInv(n, schedule);
    OwedFalls(s, RunLap(0, NoBuffer));
  }
}
