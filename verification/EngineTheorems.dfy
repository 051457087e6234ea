// What the invariant gives over whole runs: exactly-once delivery, the pump, the order of
// bus requests, the quarantine, and the drain.

module EngineTheorems {
  import opened EngineModel
  import opened BusMonitor
  import opened EngineInvariant
  import opened EnginePlane
  import opened EngineControl

  lemma {:induction false} RunFrom(s: Engine, schedule: seq<Action>)
    requires Inv(s)
    ensures Inv(Run(s, schedule))
    decreases |schedule|
  {
    if schedule != [] {
      var before := Run(s, schedule[..|schedule| - 1]);
      RunFrom(s, schedule[..|schedule| - 1]);
      if Enabled(before, schedule[|schedule| - 1]) { StepInv(before, schedule[|schedule| - 1]); }
    }
  }

  lemma RunSnoc(s: Engine, schedule: seq<Action>, a: Action)
    ensures Run(s, schedule + [a]) == Next(Run(s, schedule), a)
  {
    assert (schedule + [a])[..|schedule|] == schedule;
  }

  // -------------------------------------------------------------- exactly-once delivery

  ghost function DeliveredTickets(s: Engine): set<nat> {
    set i | 0 <= i < |s.delivered| :: s.delivered[i].t
  }

  ghost function DescriptorTickets(s: Engine): set<nat> {
    set d | 0 <= d < |s.frames| && s.frames[d].Holds() :: s.frames[d].ticket
  }

  ghost function TailTickets(s: Engine): set<nat> {
    set t: nat | t < |s.location| && s.location[t].AtTail?
  }

  ghost function RunnerTickets(s: Engine): set<nat> {
    if |s.runners| == 1 && LapTakes(s.runners[0].pc) then {s.runners[0].pc.t} else {}
  }

  ghost function ControlTickets(s: Engine): set<nat> {
    if s.control.ReleaseDeliver? then {s.control.t} else {}
  }

  // No buffer is delivered twice, none comes back under another cookie, and one delivered
  // full had its DMA completed without error.
  predicate DeliveriesGood(s: Engine) {
    && (forall i, j :: 0 <= i < j < |s.delivered| ==> s.delivered[i].t != s.delivered[j].t)
    && (forall i :: 0 <= i < |s.delivered| ==> s.delivered[i].t < |s.acquired|)
    && (forall i :: 0 <= i < |s.delivered| ==> s.delivered[i].c == s.acquired[s.delivered[i].t])
    && (forall i :: 0 <= i < |s.delivered| ==> (s.delivered[i].full <==> s.delivered[i].st.Success?))
    && (forall i :: 0 <= i < |s.delivered| && s.delivered[i].full ==> s.delivered[i].t in s.dmaGood)
  }

  lemma DeliveriesAreGood(s: Engine)
    requires Core(s)
    ensures DeliveriesGood(s)
  {
    forall i | 0 <= i < |s.delivered|
      ensures TicketAt(s, s.delivered[i].t, AtClient(i), s.delivered[i].c)
      ensures (s.delivered[i].full <==> s.delivered[i].st.Success?) && (s.delivered[i].full ==> s.delivered[i].t in s.dmaGood)
    {
      assert DeliveryOk(s, i);
    }
  }

  // acquired = delivered + held by a descriptor, a completion, a pump lap or a release.
  ghost predicate Conserved(s: Engine) {
    && (forall t: nat ::
          t in DeliveredTickets(s) + DescriptorTickets(s) + TailTickets(s) + RunnerTickets(s) + ControlTickets(s)
          <==> t < |s.acquired|)
    && DeliveredTickets(s) !! DescriptorTickets(s) !! TailTickets(s) !! RunnerTickets(s) !! ControlTickets(s)
    && (forall d, e :: 0 <= d < e < |s.frames| && s.frames[d].Holds() && s.frames[e].Holds() ==>
          s.frames[d].ticket != s.frames[e].ticket)
  }

  lemma DescriptorBuffers(s: Engine)
    requires Core(s)
    ensures forall d :: 0 <= d < |s.frames| && s.frames[d].Holds() ==>
              s.frames[d].ticket < |s.location| && s.location[s.frames[d].ticket] == AtFrame(d)
  {
    forall d | 0 <= d < |s.frames| && s.frames[d].Holds()
      ensures s.frames[d].ticket < |s.location| && s.location[s.frames[d].ticket] == AtFrame(d)
    {
      assert FrameOk(s, d);
    }
  }

  lemma HeldBuffers(s: Engine)
    requires Core(s)
    ensures forall t :: t in DeliveredTickets(s) ==> t < |s.location| && s.location[t].AtClient?
    ensures forall t :: t in DescriptorTickets(s) ==> t < |s.location| && s.location[t].AtFrame?
    ensures forall t :: t in RunnerTickets(s) ==> t < |s.location| && s.location[t].AtRunner?
    ensures forall t :: t in ControlTickets(s) ==> t < |s.location| && s.location[t].AtControl?
  {
    forall i | 0 <= i < |s.delivered| ensures TicketAt(s, s.delivered[i].t, AtClient(i), s.delivered[i].c) {
      assert DeliveryOk(s, i);
    }
    DescriptorBuffers(s);
  }

  lemma BuffersConserved(s: Engine)
    requires Core(s)
    ensures Conserved(s)
  {
    HeldBuffers(s);
    DescriptorBuffers(s);
    forall t: nat | t < |s.acquired|
      ensures t in DeliveredTickets(s) + DescriptorTickets(s) + TailTickets(s) + RunnerTickets(s) + ControlTickets(s)
    {
      assert BufferOk(s, t);
    }
  }

  // Exactly-once delivery over every schedule, for every pool size.
  lemma ExactlyOnce(n: nat, schedule: seq<Action>)
    ensures DeliveriesGood(Run(Init(n), schedule)) && Conserved(Run(Init(n), schedule))
  {
    RunInv(n, schedule);
    DeliveriesAreGood(Run(Init(n), schedule));
    BuffersConserved(Run(Init(n), schedule));
  }

  // ---------------------------------------------------------------------------- the pump

  // One runner at most executes laps, and every pump call is followed by a lap that starts
  // after its election: at the latest when the pump is idle again all calls are answered.
  lemma PumpElection(n: nat, schedule: seq<Action>)
    ensures var s := Run(Init(n), schedule);
      && |s.runners| <= 1 && (s.pumpActive <==> |s.runners| == 1)
      && s.answered <= s.calls
      && (!s.pumpActive ==> s.answered == s.calls)
      && (s.answered < s.calls ==> s.pumpAgain || s.runners[0].pc.LapStart?)
  {
    RunInv(n, schedule);
  }

  predicate SameRunner(s: Engine, s': Engine) {
    s'.pumpActive == s.pumpActive && s'.runners == s.runners
  }

  lemma AttachEndKeepsRunner(s: Engine, d: nat, st: Status)
    requires AttachCanEnd(s, d, st)
    ensures SameRunner(s, AttachEnd(s, d, st))
  {
    if !st.Success? {} else if s.frames[d].state.CompletedWhileAttaching? {} else {}
  }

  lemma ClaimKeepsRunner(s: Engine, pass: nat)
    ensures SameRunner(s, ClaimNext(s, pass))
  {
    if FirstPending(s.frames, s.pendingList) == |s.pendingList| {} else {}
  }

  lemma ScanKeepsRunner(s: Engine, i: nat, flushed: bool)
    ensures SameRunner(s, ScanNext(s, i, flushed))
  {
    if i >= |s.frames| {} else if s.frames[i].state.DetachFailed? {} else {}
  }

  lemma TailKeepsRunner(s: Engine, a: Action)
    requires Enabled(s, a) && a.OfTail()
    ensures SameRunner(s, ApplyTail(s, a))
  {
    match a
    case RunCallback(d) => if s.frames[d].state.Pending? {} else {}
    case RunSubmit(_) =>
    case RunDeliver(_) =>
    case RunArmed =>
    case RunDone =>
  }

  lemma BusKeepsRunner(s: Engine, a: Action)
    requires Enabled(s, a) && a.OfBus()
    ensures SameRunner(s, ApplyBus(s, a))
  {
    match a
    case BusAttachEnd(d, st) => AttachEndKeepsRunner(s, d, st);
    case BusFrame(_, _) =>
    case BusDetachEnd(_, ok) => if ok {} else {}
  }

  lemma QuiesceKeepsRunner(s: Engine, a: Action)
    requires Enabled(s, a) && a.OfQuiesce()
    ensures SameRunner(s, ApplyQuiesce(s, a))
  {
    match a
    case CtlClaim => ClaimKeepsRunner(s, s.control.pass);
    case CtlBeginDrain =>
    case CtlStop =>
    case CtlSubmit =>
    case CtlDrained =>
    case CtlCheck =>
    case CtlPumpIdle =>
  }

  lemma ReleaseKeepsRunner(s: Engine, a: Action)
    requires Enabled(s, a) && a.OfRelease()
    ensures SameRunner(s, ApplyRelease(s, a))
  {
    match a
    case CtlScan => ScanKeepsRunner(s, s.control.i, s.control.flushed);
    case CtlRelease =>
    case CtlFree(_) =>
    case CtlDeliver =>
  }

  lemma StartKeepsRunner(s: Engine, a: Action)
    requires Enabled(s, a) && a.OfStart()
    ensures SameRunner(s, ApplyStart(s, a))
  {
    match a
    case CtlResume =>
    case CtlStartCheck =>
    case CtlAllocated =>
    case CtlOpen =>
    case CtlListen =>
  }

  // Only the runner itself moves its program point.
  lemma OthersKeepRunner(s: Engine, a: Action)
    requires Enabled(s, a) && !a.RunLap? && s.pumpActive
    ensures SameRunner(s, Apply(s, a))
  {
    if a.OfPump() {}
    else if a.OfTail() { TailKeepsRunner(s, a); }
    else if a.OfBus() { BusKeepsRunner(s, a); }
    else if a.OfQuiesce() { QuiesceKeepsRunner(s, a); }
    else if a.OfRelease() { ReleaseKeepsRunner(s, a); }
    else { StartKeepsRunner(s, a); }
  }

  // Attach requests reach the bus in the order Acquire handed the buffers out.
  predicate AttachOrder(log: seq<BusEvent>) {
    forall i, j :: 0 <= i < j < |log| && log[i].AttachSubmitted? && log[j].AttachSubmitted? ==> log[i].t < log[j].t
  }

  lemma {:induction false} MonitorOrder(n: nat, log: seq<BusEvent>)
    requires Watch(n, log).Good?
    ensures AttachOrder(log)
    ensures forall i :: 0 <= i < |log| && log[i].AttachSubmitted? ==> log[i].t <= Watch(n, log).last
    decreases |log|
  {
    if log != [] {
      var prefix := log[..|log| - 1];
      MonitorOrder(n, prefix);
      assert forall i :: 0 <= i < |prefix| ==> log[i] == prefix[i];
    }
  }

  lemma AttachInAcquireOrder(n: nat, schedule: seq<Action>)
    ensures var s := Run(Init(n), schedule);
      AttachOrder(s.log) && forall i :: 0 <= i < |s.log| && s.log[i].AttachSubmitted? ==> s.log[i].t < |s.acquired|
  {
    RunInv(n, schedule);
    MonitorOrder(n, Run(Init(n), schedule).log);
  }

  // ------------------------------------------------------------------ order of bus requests

  // Reading back from the end of the log: ISOCH_STOP is in force, no session opened since.
  predicate Stopped(log: seq<BusEvent>)
    decreases |log|
  {
    if log == [] then true
    else if log[|log| - 1].StopIssued? then true
    else if log[|log| - 1].SessionOpened? then false
    else Stopped(log[..|log| - 1])
  }

  // The frame of the buffer last attached through descriptor d has completed.
  predicate FrameCame(log: seq<BusEvent>, d: nat)
    decreases |log|
  {
    if log == [] then false
    else
      var e := log[|log| - 1];
      if e == FrameDone(d) then true
      else if e.AttachSubmitted? && e.d == d then false
      else FrameCame(log[..|log| - 1], d)
  }

  // Descriptor d is not attaching, attached or detaching: its attach failed or its detach
  // completed, with whatever status.
  predicate Released(log: seq<BusEvent>, d: nat)
    decreases |log|
  {
    if log == [] then true
    else
      match log[|log| - 1]
      case AttachSubmitted(x, _) => x != d && Released(log[..|log| - 1], d)
      case AttachEnded(x, ok) => if x == d then !ok else Released(log[..|log| - 1], d)
      case FrameDone(x) => x != d && Released(log[..|log| - 1], d)
      case DetachSubmitted(x) => x != d && Released(log[..|log| - 1], d)
      case DetachEnded(x, _) => x == d || Released(log[..|log| - 1], d)
      case _ => Released(log[..|log| - 1], d)
  }

  // A buffer whose frame has not completed is detached only after ISOCH_STOP; resources are
  // freed, and a session opens, only with no descriptor attaching, attached or detaching; and
  // an attach goes out only on an idle descriptor.
  predicate MayFollow(n: nat, before: seq<BusEvent>, e: BusEvent) {
    match e
    case DetachSubmitted(d) => Stopped(before) || FrameCame(before, d)
    case ResourcesFreed(_) => forall d :: 0 <= d < n ==> Released(before, d)
    case SessionOpened => forall d :: 0 <= d < n ==> Released(before, d)
    case AttachSubmitted(d, _) => Released(before, d)
    case ListenIssued => !Stopped(before)
    case _ => true
  }

  predicate BusOrder(n: nat, log: seq<BusEvent>) {
    forall i :: 0 <= i < |log| ==> MayFollow(n, log[..i], log[i])
  }

  predicate PortMeans(p: Port, log: seq<BusEvent>, d: nat) {
    && ((p.PortAttaching? || p.PortAttached?) ==> (p.frameDone <==> FrameCame(log, d)))
    && (p.PortIdle? || p.PortStuck? <==> Released(log, d))
  }

  lemma {:induction false} MonitorMeaning(n: nat, log: seq<BusEvent>)
    requires Watch(n, log).Good?
    ensures |Watch(n, log).ports| == n && (Watch(n, log).stopped <==> Stopped(log))
    ensures forall d :: 0 <= d < n ==> PortMeans(Watch(n, log).ports[d], log, d)
    decreases |log|
  {
    if log != [] {
      var prefix := log[..|log| - 1];
      MonitorMeaning(n, prefix);
      forall d | 0 <= d < n ensures PortMeans(Watch(n, log).ports[d], log, d) {
        assert PortMeans(Watch(n, prefix).ports[d], prefix, d);
      }
    }
  }

  lemma MonitorAllows(n: nat, before: seq<BusEvent>, e: BusEvent)
    requires Watch(n, before).Good? && Observe(Watch(n, before), e).Good?
    ensures MayFollow(n, before, e)
  {
    MonitorMeaning(n, before);
    forall d | 0 <= d < n && (Watch(n, before).ports[d].PortIdle? || Watch(n, before).ports[d].PortStuck?)
      ensures Released(before, d)
    {
      assert PortMeans(Watch(n, before).ports[d], before, d);
    }
  }

  lemma {:induction false} MonitorOrders(n: nat, log: seq<BusEvent>)
    requires Watch(n, log).Good?
    ensures BusOrder(n, log)
    decreases |log|
  {
    if log != [] {
      var m := |log| - 1;
      MonitorOrders(n, log[..m]);
      MonitorMeaning(n, log[..m]);
      MonitorAllows(n, log[..m], log[m]);
      forall i | 0 <= i < |log| ensures MayFollow(n, log[..i], log[i]) {
        if i < m {
          assert MayFollow(n, log[..m][..i], log[..m][i]);
          assert log[..m][..i] == log[..i];
        }
      }
    }
  }

  // The order of bus requests over every run.
  lemma BusOrdering(n: nat, schedule: seq<Action>)
    ensures BusOrder(n, Run(Init(n), schedule).log)
  {
    RunInv(n, schedule);
    MonitorOrders(n, Run(Init(n), schedule).log);
  }

  // ---------------------------------------------------------------------- the quarantine

  // A failed detach holds descriptor d, and the one free that could have flushed its mapping
  // has been used up.
  predicate Doomed(s: Engine, d: nat) {
    d < |s.frames| && s.frames[d].state.DetachFailed? && !s.resourceAllocated && s.draining &&
    (s.control.Idle? || s.control.ReleaseFree?)
  }

  lemma DoomedInterference(s: Engine, s': Engine, d: nat)
    requires Inv(s) && Doomed(s, d) && Interference(s, s')
    ensures Doomed(s', d) && s'.frames[d].ticket == s.frames[d].ticket
  {
  }

  lemma DoomedRelease(s: Engine, a: Action, d: nat)
    requires Inv(s) && Doomed(s, d) && Enabled(s, a) && (a.CtlRelease? || a.CtlFree?)
    ensures Doomed(Apply(s, a), d) && Apply(s, a).frames == s.frames
  {
    assert HasQuarantined(s);
    if a.CtlRelease? {} else {}
  }

  lemma DoomedControl(s: Engine, a: Action, d: nat)
    requires Inv(s) && Doomed(s, d) && Enabled(s, a) && a.ByControlPlane()
    ensures Doomed(Apply(s, a), d) && Apply(s, a).frames == s.frames
  {
    assert HasQuarantined(s);
    assert a.CtlRelease? || a.CtlFree?;
    DoomedRelease(s, a, d);
  }

  lemma DoomedStep(s: Engine, a: Action, d: nat)
    requires Inv(s) && Doomed(s, d) && Enabled(s, a)
    ensures Doomed(Apply(s, a), d) && Apply(s, a).frames[d].ticket == s.frames[d].ticket
  {
    if a.ByControlPlane() {
      DoomedControl(s, a, d);
    } else {
      StepInv(s, a);
      DoomedInterference(s, Apply(s, a), d);
    }
  }

  // A free that reached the bus driver and failed leaves every quarantined read doomed.
  lemma FailedFreeDooms(s: Engine, d: nat)
    requires Inv(s) && s.control.ReleaseFree? && FreeReached(s, FreeFailed)
    requires d < |s.frames| && s.frames[d].state.DetachFailed?
    ensures Doomed(FreeResources(s, FreeFailed), d)
  {
    assert HasQuarantined(s);
  }

  // From then on, whatever happens: the read is never delivered, no session ever opens on
  // this engine, and PhotonicCaptureDestroy finds a quarantined descriptor.
  lemma {:induction false} QuarantineForever(n: nat, before: seq<Action>, after: seq<Action>, d: nat)
    requires Doomed(Run(Init(n), before), d)
    ensures var s, s' := Run(Init(n), before), Run(Run(Init(n), before), after);
      && Doomed(s', d) && s'.draining && HasQuarantined(s')
      && s'.frames[d].ticket == s.frames[d].ticket
      && s.frames[d].ticket !in DeliveredTickets(s')
    decreases |after|
  {
    var s := Run(Init(n), before);
    var s' := Run(s, after);
    RunInv(n, before);
    RunFrom(s, after);
    if after != [] {
      var m := |after| - 1;
      QuarantineForever(n, before, after[..m], d);
      RunFrom(s, after[..m]);
      if Enabled(Run(s, after[..m]), after[m]) { DoomedStep(Run(s, after[..m]), after[m], d); }
    }
    BuffersConserved(s');
  }

  predicate StaysQuarantined(s: Engine, s': Engine, a: Action, d: nat) {
    d < |s.frames| == |s'.frames| &&
    ((s'.frames[d].state.DetachFailed? && s'.frames[d].ticket == s.frames[d].ticket) ||
     (a.CtlScan? && s.control == ReleaseScan(d, true)))
  }

  lemma QuarantineInQuiesce(n: nat, schedule: seq<Action>, s: Engine, a: Action, d: nat)
    requires s == Run(Init(n), schedule) && Enabled(s, a) && a.OfQuiesce() && d < |s.frames| && s.frames[d].state.DetachFailed?
    ensures StaysQuarantined(s, ApplyQuiesce(s, a), a, d)
  {
    RunInv(n, schedule);
    match a
    case CtlClaim => if FirstPending(s.frames, s.pendingList) == |s.pendingList| {} else {}
    case CtlSubmit => assert FrameOk(s, s.control.d);
    case CtlBeginDrain =>
    case CtlStop =>
    case CtlDrained =>
    case CtlCheck =>
    case CtlPumpIdle =>
  }

  lemma QuarantineInScan(s: Engine, i: nat, flushed: bool, d: nat)
    requires Inv(s) && s.control == ReleaseScan(i, flushed) && d < |s.frames| && s.frames[d].state.DetachFailed?
    ensures StaysQuarantined(s, ScanNext(s, i, flushed), CtlScan, d)
  {
    if i >= |s.frames| {} else if s.frames[i].state.DetachFailed? {} else {}
  }

  lemma QuarantineInRelease(n: nat, schedule: seq<Action>, s: Engine, a: Action, d: nat)
    requires s == Run(Init(n), schedule) && Enabled(s, a) && a.OfRelease() && d < |s.frames| && s.frames[d].state.DetachFailed?
    ensures StaysQuarantined(s, ApplyRelease(s, a), a, d)
  {
    RunInv(n, schedule);
    match a
    case CtlScan => QuarantineInScan(s, s.control.i, s.control.flushed, d);
    case CtlRelease =>
    case CtlFree(_) =>
    case CtlDeliver =>
  }

  lemma QuarantineInStart(s: Engine, a: Action, d: nat)
    requires Enabled(s, a) && a.OfStart() && d < |s.frames| && s.frames[d].state.DetachFailed?
    ensures StaysQuarantined(s, ApplyStart(s, a), a, d)
  {
    match a
    case CtlResume =>
    case CtlStartCheck =>
    case CtlAllocated =>
    case CtlOpen =>
    case CtlListen =>
  }

  lemma QuarantineElsewhere(n: nat, schedule: seq<Action>, s: Engine, a: Action, d: nat)
    requires s == Run(Init(n), schedule) && Enabled(s, a) && !a.ByControlPlane() && d < |s.frames| && s.frames[d].state.DetachFailed?
    ensures StaysQuarantined(s, Apply(s, a), a, d)
  {
    RunInv(n, schedule);
    StepInv(s, a);
  }

  // A quarantined descriptor leaves the quarantine only through a release whose resource
  // free was the last thing the bus driver saw and completed with success.
  lemma QuarantineExit(n: nat, schedule: seq<Action>, s: Engine, a: Action, d: nat)
    requires s == Run(Init(n), schedule) && Enabled(s, a)
    requires d < |s.frames| && s.frames[d].state.DetachFailed?
    ensures StaysQuarantined(s, Apply(s, a), a, d)
    ensures a.CtlScan? && s.control == ReleaseScan(d, true) ==> FlushedLast(s)
  {
    QuarantineStays(n, schedule, s, a, d, Apply(s, a));
    FlushedScan(n, schedule, s);
  }

  lemma QuarantineStays(n: nat, schedule: seq<Action>, s: Engine, a: Action, d: nat, s': Engine)
    requires s == Run(Init(n), schedule) && Enabled(s, a) && d < |s.frames| && s.frames[d].state.DetachFailed?
    requires s' == Apply(s, a)
    ensures StaysQuarantined(s, s', a, d)
  {
    if a.OfQuiesce() {
      QuarantineInQuiesce(n, schedule, s, a, d);
      assert s' == ApplyQuiesce(s, a);
    } else if a.OfRelease() {
      QuarantineInRelease(n, schedule, s, a, d);
      assert s' == ApplyRelease(s, a);
    } else if a.OfStart() {
      QuarantineInStart(s, a, d);
      assert s' == ApplyStart(s, a);
    } else {
      QuarantineElsewhere(n, schedule, s, a, d);
    }
  }

  // The last thing the bus driver saw was a successful ISOCH_FREE_RESOURCES.
  predicate FlushedLast(s: Engine) {
    s.log != [] && s.log[|s.log| - 1] == ResourcesFreed(true)
  }

  lemma FlushedScan(n: nat, schedule: seq<Action>, s: Engine)
    requires s == Run(Init(n), schedule)
    ensures FlushedNow(s.control) ==> FlushedLast(s)
  {
    RunInv(n, schedule);
  }

  // ------------------------------------------------------------------- the settled engine

  // What a quiesce leaves behind: nothing in flight, nothing pending, the pump holding
  // nothing, and every descriptor on the free list or quarantined.
  lemma SettledEngine(n: nat, schedule: seq<Action>, s: Engine)
    requires s == Run(Init(n), schedule) && s.draining && Quiet(s.control)
    ensures s.inFlight == 0 && s.requests == multiset{} && s.pendingList == []
    ensures TailTickets(s) == {} && RunnerTickets(s) == {}
    ensures forall d: nat :: d < |s.frames| ==>
              (d in s.freeList && s.frames[d].state.Free?) || (d !in s.freeList && s.frames[d].state.DetachFailed?)
  {
    RunInv(n, schedule);
    DrainedFacts(s);
    SettledFrames(s);
    forall d: nat | d < |s.frames|
      ensures (d in s.freeList && s.frames[d].state.Free?) || (d !in s.freeList && s.frames[d].state.DetachFailed?)
    {
      assert FrameOk(s, d);
    }
  }

  // The claim loop is entered at most twice, whatever interleaves and whatever the pool size.
  lemma TwoPasses(n: nat, schedule: seq<Action>, s: Engine)
    requires s == Run(Init(n), schedule) && InPass(s.control)
    ensures 1 <= s.control.pass <= 2
  {
    RunInv(n, schedule);
  }

  function TotalRank(frames: seq<Frame>): nat
    decreases |frames|
  {
    if frames == [] then 0 else TotalRank(frames[..|frames| - 1]) + Rank(frames[|frames| - 1])
  }

  lemma {:induction false} TotalRankFalls(before: seq<Frame>, after: seq<Frame>, d: int)
    requires |before| == |after|
    requires forall e :: 0 <= e < |before| ==> Rank(after[e]) <= Rank(before[e])
    ensures TotalRank(after) <= TotalRank(before)
    ensures 0 <= d < |before| && Rank(after[d]) < Rank(before[d]) ==> TotalRank(after) < TotalRank(before)
    decreases |before|
  {
    if before != [] { TotalRankFalls(before[..|before| - 1], after[..|after| - 1], d); }
  }

  lemma {:induction false} TotalRankBound(frames: seq<Frame>)
    ensures TotalRank(frames) <= 3 * |frames|
    decreases |frames|
  {
    if frames != [] { TotalRankBound(frames[..|frames| - 1]); }
  }

  lemma AttachEndRank(s: Engine, d: nat, st: Status)
    requires Inv(s) && AttachCanEnd(s, d, st)
    ensures d < |AttachEnd(s, d, st).frames| && Rank(AttachEnd(s, d, st).frames[d]) < Rank(s.frames[d])
  {
    assert FrameOk(s, d);
    if !st.Success? {} else if s.frames[d].state.CompletedWhileAttaching? {} else {}
  }

  lemma DetachEndRank(s: Engine, d: nat, ok: bool)
    requires Inv(s) && DetachCanEnd(s, d)
    ensures d < |DetachEnd(s, d, ok).frames| && Rank(DetachEnd(s, d, ok).frames[d]) < Rank(s.frames[d])
  {
    assert FrameOk(s, d);
    if ok {} else {}
  }

  predicate Completion(a: Action) { a.BusAttachEnd? || a.BusDetachEnd? }

  // Each bus completion of a draining engine uses up rank; nothing that interferes adds any.
  lemma InterferenceRank(s: Engine, a: Action)
    requires Inv(s) && s.draining && Enabled(s, a) && !a.ByControlPlane()
    ensures TotalRank(Apply(s, a).frames) + (if Completion(a) then 1 else 0) <= TotalRank(s.frames)
    ensures Apply(s, a).draining && Apply(s, a).control == s.control
  {
    StepInv(s, a);
    if a.BusAttachEnd? { AttachEndRank(s, a.d, a.st); }
    if a.BusDetachEnd? { DetachEndRank(s, a.d, a.ok); }
    TotalRankFalls(s.frames, Apply(s, a).frames, if Completion(a) then a.d else -1);
  }

  // Bus completions that take effect along a schedule.
  function Completions(s: Engine, schedule: seq<Action>): nat
    decreases |schedule|
  {
    if schedule == [] then 0
    else
      var m := |schedule| - 1;
      Completions(s, schedule[..m]) +
      (if Completion(schedule[m]) && Enabled(Run(s, schedule[..m]), schedule[m]) then 1 else 0)
  }

  predicate Interfering(schedule: seq<Action>) {
    forall i :: 0 <= i < |schedule| ==> !schedule[i].ByControlPlane()
  }

  // While the control context waits on a draining engine of n descriptors, the bus driver
  // completes at most 3 * n more requests, whatever else interleaves.
  lemma {:induction false} DrainBudget(s: Engine, schedule: seq<Action>)
    requires Inv(s) && s.draining && Interfering(schedule)
    ensures Run(s, schedule).draining && Run(s, schedule).control == s.control
    ensures Completions(s, schedule) + TotalRank(Run(s, schedule).frames) <= TotalRank(s.frames) <= 3 * |s.frames|
    decreases |schedule|
  {
    TotalRankBound(s.frames);
    if schedule != [] {
      var m := |schedule| - 1;
      DrainBudget(s, schedule[..m]);
      RunFrom(s, schedule[..m]);
      if Enabled(Run(s, schedule[..m]), schedule[m]) { InterferenceRank(Run(s, schedule[..m]), schedule[m]); }
    }
  }
}
