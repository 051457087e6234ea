// Every completed detach pumps again: the calls of the pump are conserved from the place they
// arise at to the election.

module EnginePumpCalls {
  import opened EngineModel
  import opened EngineInvariant
  import opened EngineControl
  import opened EngineTheorems
  import opened EngineOutcome

  // Deliveries still to be made that a pump call follows.
  function PumpTails(location: seq<Location>): nat
    decreases |location|
  {
    if location == [] then 0
    else PumpTails(location[..|location| - 1]) +
         (if location[|location| - 1].AtTail? && location[|location| - 1].thenPump then 1 else 0)
  }

  lemma {:induction false} PumpTailsUpdate(location: seq<Location>, t: nat, w: Location)
    requires t < |location|
    ensures PumpTails(location[t := w]) ==
            PumpTails(location) - (if location[t].AtTail? && location[t].thenPump then 1 else 0)
                                + (if w.AtTail? && w.thenPump then 1 else 0)
    decreases |location|
  {
    var n := |location| - 1;
    if t == n {
      assert location[t := w][..n] == location[..n];
    } else {
      PumpTailsUpdate(location[..n], t, w);
      assert location[t := w][..n] == location[..n][t := w];
    }
  }

  lemma PumpTailsAppend(location: seq<Location>, w: Location)
    requires !w.AtTail?
    ensures PumpTails(location + [w]) == PumpTails(location)
  {
    assert (location + [w])[..|location|] == location;
  }

  // Pump calls that reached the election, are on their way to it, or follow a delivery.
  function Balance(s: Engine): nat {
    s.calls + s.entering + s.enteringCounted + PumpTails(s.location)
  }

  // What asks for the pump: a call from outside, and a detach that completed with success.
  function Asks(a: Action): nat {
    if a.CallPump? || (a.BusDetachEnd? && a.ok) then 1 else 0
  }

  predicate Steady(s: Engine, s': Engine) {
    s'.calls == s.calls && s'.entering == s.entering && s'.enteringCounted == s.enteringCounted && s'.location == s.location
  }

  lemma SteadyBalance(s: Engine, s': Engine)
    requires Steady(s, s')
    ensures Balance(s') == Balance(s)
  {
  }

  // A buffer moves between two places neither of which is a tail that pumps.
  lemma MovedBalance(s: Engine, s': Engine, t: nat, where: Location)
    requires s'.calls == s.calls && s'.entering == s.entering && s'.enteringCounted == s.enteringCounted
    requires s'.location == Relocate(s.location, t, where) && !(where.AtTail? && where.thenPump)
    requires t < |s.location| ==> !s.location[t].AtTail?
    ensures Balance(s') == Balance(s)
  {
    if t < |s.location| { PumpTailsUpdate(s.location, t, where); }
  }

  // ------------------------------------------------------------------------------ the pump

  lemma ElectionBalance(s: Engine, s': Engine, counted: bool)
    requires CanElect(s, counted)
    requires s' == if s.pumpActive then ElectLost(s, counted) else ElectWon(s, counted)
    ensures Balance(s') == Balance(s)
  {
  }

  lemma LapAcquireBalance(s: Engine, s': Engine, k: nat, offer: Offer)
    requires k < |s.runners| && s.runners[k].pc.Acquire? && s.runners[k].pc.d < |s.frames| && s' == LapStep(s, k, offer)
    ensures Balance(s') == Balance(s)
  {
    var i, d := s.runners[k].pc.i, s.runners[k].pc.d;
    if offer.NoBuffer? { LapMoveBalance(s, s', k, GiveBack(d)); }
    else if offer.fits { LapPrimeBalance(s, s', k, i, d, offer.c); }
    else { LapRefuseBalance(s, s', k, i, d, offer.c); }
  }

  lemma LapMoveBalance(s: Engine, s': Engine, k: nat, pc: LapPc)
    requires k < |s.runners| && s' == LapMove(s, k, pc)
    ensures Balance(s') == Balance(s)
  {
  }

  lemma LapPrimeBalance(s: Engine, s': Engine, k: nat, i: nat, d: nat, c: nat)
    requires k < |s.runners| && d < |s.frames| && s' == LapPrime(s, k, i, d, c)
    ensures Balance(s') == Balance(s)
  {
    TakenBalance(s, s');
  }

  lemma LapRefuseBalance(s: Engine, s': Engine, k: nat, i: nat, d: nat, c: nat)
    requires k < |s.runners| && s' == LapRefuse(s, k, i, d, c)
    ensures Balance(s') == Balance(s)
  {
    TakenBalance(s, s');
  }

  lemma TakenBalance(s: Engine, s': Engine)
    requires s'.calls == s.calls && s'.entering == s.entering && s'.enteringCounted == s.enteringCounted
    requires s'.location == s.location + [AtRunner]
    ensures Balance(s') == Balance(s)
  {
    PumpTailsAppend(s.location, AtRunner);
  }

  lemma LapListBalance(s: Engine, s': Engine, k: nat, offer: Offer)
    requires k < |s.runners| && LapInRange(s.runners[k].pc, |s.frames|) && s' == LapStep(s, k, offer)
    requires s.runners[k].pc.GiveBack? || s.runners[k].pc.Reject? || s.runners[k].pc.Submit?
    ensures Balance(s') == Balance(s)
  {
    match s.runners[k].pc
    case GiveBack(d) => assert s' == LapReturn(s, k, d, LapEnd);
    case Reject(i, d, t, c) => assert s' == LapReturn(s, k, d, RejectDeliver(i, t, c));
    case Submit(i, d) => assert s' == LapSubmit(s, k, i, d);
  }

  lemma LapEdgeBalance(s: Engine, s': Engine, k: nat, offer: Offer)
    requires k < |s.runners| && (s.runners[k].pc.LapStart? || s.runners[k].pc.Claim? || s.runners[k].pc.LapEnd?)
    requires s' == LapStep(s, k, offer)
    ensures Balance(s') == Balance(s)
  {
    match s.runners[k].pc
    case LapStart => SteadyBalance(s, LapBegin(s, k));
    case Claim(i) =>
      if s.draining || s.freeList == [] { SteadyBalance(s, LapMove(s, k, LapEnd)); }
      else { SteadyBalance(s, LapClaim(s, k, i)); }
    case LapEnd =>
      if s.pumpAgain { SteadyBalance(s, LapMove(s, k, LapStart)); } else { SteadyBalance(s, LapLeave(s, k)); }
  }

  lemma LapPublishBalance(n: nat, schedule: seq<Action>, s: Engine, s': Engine, k: nat, offer: Offer)
    requires s == Run(Init(n), schedule) && k < |s.runners| && s.runners[k].pc.Publish? && s.runners[k].pc.d < |s.frames|
    requires s' == LapStep(s, k, offer)
    ensures Balance(s') == Balance(s)
  {
    var pc := s.runners[k].pc;
    if s.draining {
      assert s' == LapReturn(s, k, pc.d, CancelDeliver(pc.t, pc.c));
    } else {
      assert s' == LapAttach(s, k, pc.i, pc.d, pc.t);
      RunnerHolds(n, schedule, s, k);
      MovedBalance(s, s', pc.t, AtFrame(pc.d));
    }
  }

  lemma LapDeliverBalance(n: nat, schedule: seq<Action>, s: Engine, s': Engine, k: nat, offer: Offer)
    requires s == Run(Init(n), schedule) && k < |s.runners| && (s.runners[k].pc.RejectDeliver? || s.runners[k].pc.CancelDeliver?)
    requires s' == LapStep(s, k, offer)
    ensures Balance(s') == Balance(s)
  {
    var pc := s.runners[k].pc;
    RunnerHolds(n, schedule, s, k);
    if pc.CancelDeliver? { assert s' == LapDeliver(s, k, pc.t, pc.c, Cancelled, LapEnd); }
    else { assert s' == LapDeliver(s, k, pc.t, pc.c, InvalidParameter, NextIteration(s, pc.i)); }
    MovedBalance(s, s', pc.t, AtClient(|s.delivered|));
  }

  lemma LapBalance(n: nat, schedule: seq<Action>, s: Engine, s': Engine, k: nat, offer: Offer)
    requires s == Run(Init(n), schedule) && k < |s.runners| && LapInRange(s.runners[k].pc, |s.frames|)
    requires s' == LapStep(s, k, offer)
    ensures Balance(s') == Balance(s)
  {
    var pc := s.runners[k].pc;
    if pc.Acquire? { LapAcquireBalance(s, s', k, offer); }
    else if pc.GiveBack? || pc.Reject? || pc.Submit? { LapListBalance(s, s', k, offer); }
    else if pc.Publish? { LapPublishBalance(n, schedule, s, s', k, offer); }
    else if pc.RejectDeliver? || pc.CancelDeliver? { LapDeliverBalance(n, schedule, s, s', k, offer); }
    else { LapEdgeBalance(s, s', k, offer); }
  }

  lemma PumpBalance(n: nat, schedule: seq<Action>, s: Engine, s': Engine, a: Action)
    requires s == Run(Init(n), schedule) && Enabled(s, a) && a.OfPump() && s' == ApplyPump(s, a)
    ensures Balance(s') == Balance(s) + Asks(a)
  {
    match a
    case CallPump => assert s' == PumpCall(s);
    case RunElection(counted) => ElectionBalance(s, s', counted);
    case RunLap(k, offer) => LapBalance(n, schedule, s, s', k, offer);
  }

  // ---------------------------------------------------- completions, bus and control events

  // The delivery of a detach completion turns into a pump call.
  lemma TailDeliverBalance(s: Engine, s': Engine, t: nat)
    requires t < |s.location| && s.location[t].AtTail? && s' == TailDeliver(s, t)
    ensures Balance(s') == Balance(s)
    ensures s'.enteringCounted == s.enteringCounted + (if s.location[t].thenPump then 1 else 0)
  {
    PumpTailsUpdate(s.location, t, AtClient(|s.delivered|));
  }

  lemma TailBalance(s: Engine, s': Engine, a: Action)
    requires Enabled(s, a) && a.OfTail() && s' == ApplyTail(s, a)
    ensures Balance(s') == Balance(s)
  {
    match a
    case RunCallback(d) => CallbackBalance(s, s', d);
    case RunSubmit(d) => SteadyBalance(s, TailSubmit(s, d));
    case RunDeliver(t) => TailDeliverBalance(s, s', t);
    case RunArmed => SteadyBalance(s, SignalAttached(s));
    case RunDone => SteadyBalance(s, DropCount(s));
  }

  lemma CallbackBalance(s: Engine, s': Engine, d: nat)
    requires d < |s.frames| && s.frames[d].dma.DmaFired? && s' == ApplyTail(s, RunCallback(d))
    ensures Balance(s') == Balance(s)
  {
    if s.frames[d].state.Pending? { CallbackClaimsBalance(s, s', d); } else { CallbackDefersBalance(s, s', d); }
  }

  lemma CallbackClaimsBalance(s: Engine, s': Engine, d: nat)
    requires d < |s.frames| && s' == CallbackClaims(s, d)
    ensures Balance(s') == Balance(s)
  {
  }

  lemma CallbackDefersBalance(s: Engine, s': Engine, d: nat)
    requires d < |s.frames| && s' == CallbackDefers(s, d)
    ensures Balance(s') == Balance(s)
  {
  }

  lemma FrameHolds(n: nat, schedule: seq<Action>, s: Engine, d: nat)
    requires s == Run(Init(n), schedule) && d < |s.frames| && s.frames[d].Holds()
    ensures s.frames[d].ticket < |s.location| && s.location[s.frames[d].ticket] == AtFrame(d)
  {
    RunInv(n, schedule);
    assert FrameOk(s, d);
  }

  lemma RequestHolds(n: nat, schedule: seq<Action>, s: Engine, d: nat)
    requires s == Run(Init(n), schedule) && d < |s.frames|
    requires AttachRequest(d) in s.requests || DetachRequest(d) in s.requests
    ensures s.frames[d].ticket < |s.location| && s.location[s.frames[d].ticket] == AtFrame(d)
  {
    RunInv(n, schedule);
    assert FrameOk(s, d);
    assert s.requests[AttachRequest(d)] > 0 || s.requests[DetachRequest(d)] > 0;
  }

  lemma AttachFailedBalance(n: nat, schedule: seq<Action>, s: Engine, s': Engine, d: nat, st: Status)
    requires s == Run(Init(n), schedule) && AttachCanEnd(s, d, st) && s' == AttachFailed(s, d, st)
    ensures Balance(s') == Balance(s)
  {
    RequestHolds(n, schedule, s, d);
    MovedBalance(s, s', s.frames[d].ticket, AtTail(s.frames[d].cookie, false, st, false));
  }

  lemma AttachEndBalance(n: nat, schedule: seq<Action>, s: Engine, s': Engine, d: nat, st: Status)
    requires s == Run(Init(n), schedule) && AttachCanEnd(s, d, st) && s' == AttachEnd(s, d, st)
    ensures Balance(s') == Balance(s)
  {
    if !st.Success? { AttachFailedBalance(n, schedule, s, s', d, st); } else { AttachKeptBalance(s, s', d); }
  }

  lemma AttachKeptBalance(s: Engine, s': Engine, d: nat)
    requires AttachCanEnd(s, d, Success) && s' == AttachEnd(s, d, Success)
    ensures Balance(s') == Balance(s)
  {
    if s.frames[d].state.CompletedWhileAttaching? { FoundDoneBalance(s, s', d); } else { PublishedBalance(s, s', d); }
  }

  lemma FoundDoneBalance(s: Engine, s': Engine, d: nat)
    requires d < |s.frames| && s' == AttachFoundDone(s, d)
    ensures Balance(s') == Balance(s)
  {
  }

  lemma PublishedBalance(s: Engine, s': Engine, d: nat)
    requires d < |s.frames| && s' == AttachPublished(s, d)
    ensures Balance(s') == Balance(s)
  {
  }

  lemma DetachRecycledBalance(n: nat, schedule: seq<Action>, s: Engine, s': Engine, d: nat)
    requires s == Run(Init(n), schedule) && DetachCanEnd(s, d) && s' == DetachRecycled(s, d)
    ensures Balance(s') == Balance(s) + 1
  {
    RequestHolds(n, schedule, s, d);
    var f := s.frames[d];
    PumpTailsUpdate(s.location, f.ticket, AtTail(f.cookie, f.completion.Success?, f.completion, true));
  }

  lemma BusBalance(n: nat, schedule: seq<Action>, s: Engine, s': Engine, a: Action)
    requires s == Run(Init(n), schedule) && Enabled(s, a) && a.OfBus() && s' == ApplyBus(s, a)
    ensures Balance(s') == Balance(s) + Asks(a)
  {
    match a
    case BusAttachEnd(d, st) => AttachEndBalance(n, schedule, s, s', d, st);
    case BusFrame(d, st) => assert s' == FrameComplete(s, d, st);
    case BusDetachEnd(d, ok) =>
      if ok { DetachRecycledBalance(n, schedule, s, s', d); } else { assert s' == DetachQuarantined(s, d); }
  }

  lemma ClaimBalance(s: Engine, s': Engine, pass: nat)
    requires s' == ClaimNext(s, pass)
    ensures Balance(s') == Balance(s)
  {
    var i := FirstPending(s.frames, s.pendingList);
    if i == |s.pendingList| { assert s' == s.(control := QuiesceDrain(pass)); }
    else { assert s' == ClaimPending(s, pass, s.pendingList[i]); }
  }

  lemma QuiesceBalance(s: Engine, s': Engine, a: Action)
    requires Enabled(s, a) && a.OfQuiesce() && s' == ApplyQuiesce(s, a)
    ensures Balance(s') == Balance(s)
  {
    if a.CtlClaim? { ClaimBalance(s, s', s.control.pass); } else { SteadyBalance(s, s'); }
  }

  lemma ScanHeldBalance(n: nat, schedule: seq<Action>, s: Engine, s': Engine, i: nat, flushed: bool)
    requires s == Run(Init(n), schedule) && i < |s.frames| && s.frames[i].state.DetachFailed?
    requires s' == ScanRecycle(s, i, flushed)
    ensures Balance(s') == Balance(s)
  {
    FrameHolds(n, schedule, s, i);
    MovedBalance(s, s', s.frames[i].ticket, AtControl);
  }

  lemma ScanMovesBalance(s: Engine, s': Engine, i: nat, flushed: bool)
    requires !(i < |s.frames| && s.frames[i].state.DetachFailed?) && s' == ScanNext(s, i, flushed)
    ensures Balance(s') == Balance(s)
  {
  }

  lemma ScanDeliverBalance(n: nat, schedule: seq<Action>, s: Engine, s': Engine)
    requires s == Run(Init(n), schedule) && s.control.ReleaseDeliver?
    requires s' == ScanDeliver(s, s.control.i, s.control.flushed, s.control.t, s.control.c)
    ensures Balance(s') == Balance(s)
  {
    RunInv(n, schedule);
    MovedBalance(s, s', s.control.t, AtClient(|s.delivered|));
  }

  lemma ReleaseBalance(n: nat, schedule: seq<Action>, s: Engine, s': Engine, a: Action)
    requires s == Run(Init(n), schedule) && Enabled(s, a) && a.OfRelease() && s' == ApplyRelease(s, a)
    ensures Balance(s') == Balance(s)
  {
    if a.CtlScan? {
      if s.control.i < |s.frames| && s.frames[s.control.i].state.DetachFailed? {
        assert s' == ScanRecycle(s, s.control.i, s.control.flushed);
        ScanHeldBalance(n, schedule, s, s', s.control.i, s.control.flushed);
      } else {
        ScanMovesBalance(s, s', s.control.i, s.control.flushed);
      }
    } else if a.CtlDeliver? {
      ScanDeliverBalance(n, schedule, s, s');
    } else {
      SteadyBalance(s, s');
    }
  }

  lemma StepBalance(n: nat, schedule: seq<Action>, s: Engine, s': Engine, a: Action)
    requires s == Run(Init(n), schedule) && Enabled(s, a) && s' == Apply(s, a)
    ensures Balance(s') == Balance(s) + Asks(a)
  {
    if a.OfPump() { PumpBalance(n, schedule, s, s', a); }
    else if a.OfTail() { TailBalance(s, s', a); }
    else if a.OfBus() { BusBalance(n, schedule, s, s', a); }
    else if a.OfQuiesce() { QuiesceBalance(s, s', a); }
    else if a.OfRelease() { ReleaseBalance(n, schedule, s, s', a); }
    else { SteadyBalance(s, s'); }
  }

  // What the schedule asked for.
  function Asked(n: nat, schedule: seq<Action>): nat
    decreases |schedule|
  {
    if schedule == [] then 0
    else
      var before, a := schedule[..|schedule| - 1], schedule[|schedule| - 1];
      Asked(n, before) + (if Enabled(Run(Init(n), before), a) then Asks(a) else 0)
  }

  // Over every schedule: each pump call from outside and each successful detach completion is a
  // call that reached the election, is on its way to it, or follows a delivery still to be made.
  lemma {:induction false} CallsConserved(n: nat, schedule: seq<Action>)
    ensures var s := Run(Init(n), schedule);
            s.calls + s.entering + s.enteringCounted + PumpTails(s.location) == Asked(n, schedule)
    decreases |schedule|
  {
    if schedule != [] {
      var before, a := schedule[..|schedule| - 1], schedule[|schedule| - 1];
      CallsConserved(n, before);
      var s := Run(Init(n), before);
      if Enabled(s, a) { StepBalance(n, before, s, Apply(s, a), a); }
    }
  }

  // Once nothing is under way, every one of them was followed by the start of a lap.
  lemma AllAnswered(n: nat, schedule: seq<Action>)
    requires var s := Run(Init(n), schedule);
      !s.pumpActive && s.entering == 0 && s.enteringCounted == 0 && forall t :: 0 <= t < |s.location| ==> !s.location[t].AtTail?
    ensures Run(Init(n), schedule).answered == Asked(n, schedule)
  {
    CallsConserved(n, schedule);
    PumpElection(n, schedule);
    NoPumpTails(Run(Init(n), schedule).location);
  }

  lemma {:induction false} NoPumpTails(location: seq<Location>)
    requires forall t :: 0 <= t < |location| ==> !location[t].AtTail?
    ensures PumpTails(location) == 0
    decreases |location|
  {
    if location != [] { NoPumpTails(location[..|location| - 1]); }
  }
}
