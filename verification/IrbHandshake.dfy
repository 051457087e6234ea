// One synchronous request to the bus driver under a timeout: the waiter and the completion
// routine share a block, and whichever exchanges its state last cleans up. Any number of
// requests at once, each counted against the remove lock the device teardown waits for.

module IrbHandshake {

  // PHOTONIC_IRB_STATE
  datatype IrbState = Pending | Completed | Abandoned

  // Program points of PhotonicSubmitIrbEx after IoCallDriver.
  datatype Waiter =
    | Waiting
    | Cancelling
    | WaitingCancel
    | Claiming
    | WaitingSet
    | FreeingIrp
    | FreeingSync
    | Releasing
    | Returned(abandoned: bool)

  // Program points of PhotonicIrbComplete; AtBus before the bus driver calls it.
  datatype Completion =
    | AtBus
    | Entered
    | Signalling
    | LateIrp
    | LateBuffers
    | LateSync
    | LateRelease
    | Finished

  // PHOTONIC_IRB_SYNC with its two users, and how often each resource has been freed:
  // bufferFrees counts what the completion routine did to Mdl, Buffer and Buffer2.
  datatype Request = Request(
    waiter: Waiter, completion: Completion, state: IrbState, event: bool,
    irpFrees: nat, syncFrees: nat, bufferFrees: nat)

  // closing: the teardown wait has begun and the remove lock grants no more acquisitions;
  // down: that wait is over.
  datatype Device = Device(requests: seq<Request>, holds: int, closing: bool, down: bool)

  datatype Action =
    | Submit
    | WaiterStep(i: nat, timeout: bool)
    | CompletionStep(i: nat)
    | BeginTeardown
    | EndTeardown

  const FRESH := Request(Waiting, AtBus, Pending, false, 0, 0, 0)

  predicate WaiterEnabled(r: Request, timeout: bool) {
    match r.waiter
    case Waiting => r.event || timeout
    case WaitingCancel => r.event || timeout
    case WaitingSet => r.event
    case Returned(_) => false
    case _ => true
  }

  function WaiterMoves(r: Request, timeout: bool): Request
    requires WaiterEnabled(r, timeout)
  {
    match r.waiter
    case Waiting => r.(waiter := if timeout then Cancelling else FreeingIrp)
    case Cancelling => r.(waiter := WaitingCancel)
    case WaitingCancel => r.(waiter := if timeout then Claiming else FreeingIrp)
    case Claiming => r.(state := Abandoned, waiter := if r.state.Completed? then WaitingSet else Returned(true))
    case WaitingSet => r.(waiter := FreeingIrp)
    case FreeingIrp => r.(irpFrees := r.irpFrees + 1, waiter := FreeingSync)
    case FreeingSync => r.(syncFrees := r.syncFrees + 1, waiter := Releasing)
    case Releasing => r.(waiter := Returned(false))
  }

  function CompletionMoves(r: Request): Request
    requires !r.completion.Finished?
  {
    match r.completion
    case AtBus => r.(completion := Entered)
    case Entered => r.(state := Completed, completion := if r.state.Abandoned? then LateIrp else Signalling)
    case Signalling => r.(event := true, completion := Finished)
    case LateIrp => r.(irpFrees := r.irpFrees + 1, completion := LateBuffers)
    case LateBuffers => r.(bufferFrees := r.bufferFrees + 1, completion := LateSync)
    case LateSync => r.(syncFrees := r.syncFrees + 1, completion := LateRelease)
    case LateRelease => r.(completion := Finished)
  }

  predicate Enabled(s: Device, a: Action) {
    match a
    case Submit => true
    case WaiterStep(i, timeout) => i < |s.requests| && WaiterEnabled(s.requests[i], timeout)
    case CompletionStep(i) => i < |s.requests| && !s.requests[i].completion.Finished?
    case BeginTeardown => !s.closing
    case EndTeardown => s.closing && s.holds == 0
  }

  // The remove lock is dropped by the step that ends the cleanup, whichever side it is on.
  predicate Drops(s: Device, a: Action) {
    match a
    case WaiterStep(i, _) => i < |s.requests| && s.requests[i].waiter.Releasing?
    case CompletionStep(i) => i < |s.requests| && s.requests[i].completion.LateRelease?
    case _ => false
  }

  function Apply(s: Device, a: Action): Device
    requires Enabled(s, a)
  {
    var holds := if Drops(s, a) then s.holds - 1 else s.holds;
    match a
    case Submit =>
      // refused with STATUS_DELETE_PENDING once the teardown wait has begun
      if s.closing then s else s.(requests := s.requests + [FRESH], holds := s.holds + 1)
    case WaiterStep(i, timeout) => s.(requests := s.requests[i := WaiterMoves(s.requests[i], timeout)], holds := holds)
    case CompletionStep(i) => s.(requests := s.requests[i := CompletionMoves(s.requests[i])], holds := holds)
    case BeginTeardown => s.(closing := true)
    case EndTeardown => s.(down := true)
  }

  // ------------------------------------------------------------------------- the invariant

  predicate WaiterOwns(w: Waiter) {
    w.FreeingIrp? || w.FreeingSync? || w.Releasing? || w == Returned(false)
  }

  predicate Late(c: Completion) {
    c.LateIrp? || c.LateBuffers? || c.LateSync? || c.LateRelease?
  }

  // Nobody has exchanged the state yet.
  predicate Open(r: Request) {
    && r.state.Pending? && !r.event
    && (r.waiter.Waiting? || r.waiter.Cancelling? || r.waiter.WaitingCancel? || r.waiter.Claiming?)
    && (r.completion.AtBus? || r.completion.Entered?)
    && r.irpFrees == r.syncFrees == r.bufferFrees == 0
  }

  // The completion routine came first: the waiter cleans up, after the event.
  predicate WaiterCleans(r: Request) {
    && (r.completion.Signalling? || r.completion.Finished?) && (r.event <==> r.completion.Finished?)
    && r.waiter != Returned(true) && (WaiterOwns(r.waiter) ==> r.event)
    && (if r.waiter.WaitingSet? then r.state.Abandoned?
        else if WaiterOwns(r.waiter) then !r.state.Pending? else r.state.Completed?)
    && r.irpFrees == (if WaiterOwns(r.waiter) && !r.waiter.FreeingIrp? then 1 else 0)
    && r.syncFrees == (if r.waiter.Releasing? || r.waiter == Returned(false) then 1 else 0)
    && r.bufferFrees == 0
  }

  // The waiter came first: the completion routine cleans up, buffers included.
  predicate CompletionCleans(r: Request) {
    && r.waiter == Returned(true) && !r.event
    && (if r.completion.AtBus? || r.completion.Entered? then r.state.Abandoned?
        else r.state.Completed? && (Late(r.completion) || r.completion.Finished?))
    && r.irpFrees == (if r.completion.LateBuffers? || r.completion.LateSync? || r.completion.LateRelease? || r.completion.Finished? then 1 else 0)
    && r.bufferFrees == (if r.completion.LateSync? || r.completion.LateRelease? || r.completion.Finished? then 1 else 0)
    && r.syncFrees == (if r.completion.LateRelease? || r.completion.Finished? then 1 else 0)
  }

  predicate Sound(r: Request) {
    Open(r) || WaiterCleans(r) || CompletionCleans(r)
  }

  // The cleanup of the request is over.
  predicate Cleaned(r: Request) {
    r.waiter == Returned(false) || (r.waiter == Returned(true) && r.completion.Finished?)
  }

  function Unfinished(requests: seq<Request>): nat
    decreases |requests|
  {
    if requests == [] then 0
    else Unfinished(requests[..|requests| - 1]) + (if Cleaned(requests[|requests| - 1]) then 0 else 1)
  }

  lemma {:induction false} UnfinishedUpdate(requests: seq<Request>, i: nat, r: Request)
    requires i < |requests|
    ensures Unfinished(requests[i := r]) ==
            Unfinished(requests) - (if Cleaned(requests[i]) then 0 else 1) + (if Cleaned(r) then 0 else 1)
    decreases |requests|
  {
    var n := |requests| - 1;
    if i == n {
      assert requests[i := r][..n] == requests[..n];
    } else {
      UnfinishedUpdate(requests[..n], i, r);
      assert requests[i := r][..n] == requests[..n][i := r];
    }
  }

  lemma {:induction false} UnfinishedNone(requests: seq<Request>, i: nat)
    requires i < |requests| && Unfinished(requests) == 0
    ensures Cleaned(requests[i])
    decreases |requests|
  {
    if i < |requests| - 1 { UnfinishedNone(requests[..|requests| - 1], i); }
  }

  // The remove lock is held once for every request whose cleanup is not over.
  predicate Inv(s: Device) {
    && (forall i :: 0 <= i < |s.requests| ==> Sound(s.requests[i]))
    && s.holds == Unfinished(s.requests)
    && (s.down ==> s.closing && s.holds == 0)
  }

  lemma WaiterSound(r: Request, timeout: bool)
    requires Sound(r) && WaiterEnabled(r, timeout)
    ensures Sound(WaiterMoves(r, timeout))
    ensures Cleaned(WaiterMoves(r, timeout)) <==> Cleaned(r) || r.waiter.Releasing?
    ensures !Cleaned(r)
  {
  }

  lemma CompletionSound(r: Request)
    requires Sound(r) && !r.completion.Finished?
    ensures Sound(CompletionMoves(r))
    ensures Cleaned(CompletionMoves(r)) <==> r.completion.LateRelease?
    ensures !Cleaned(r)
  {
  }

  lemma SubmitInv(s: Device)
    requires Inv(s)
    ensures Inv(Apply(s, Submit))
  {
    assert (s.requests + [FRESH])[..|s.requests|] == s.requests;
  }

  lemma WaiterInv(s: Device, i: nat, timeout: bool)
    requires Inv(s) && Enabled(s, WaiterStep(i, timeout))
    ensures Inv(Apply(s, WaiterStep(i, timeout)))
  {
    WaiterSound(s.requests[i], timeout);
    UnfinishedUpdate(s.requests, i, WaiterMoves(s.requests[i], timeout));
  }

  lemma CompletionInv(s: Device, i: nat)
    requires Inv(s) && Enabled(s, CompletionStep(i))
    ensures Inv(Apply(s, CompletionStep(i)))
  {
    CompletionSound(s.requests[i]);
    UnfinishedUpdate(s.requests, i, CompletionMoves(s.requests[i]));
  }

  lemma StepInv(s: Device, a: Action)
    requires Inv(s) && Enabled(s, a)
    ensures Inv(Apply(s, a))
  {
    match a
    case Submit => SubmitInv(s);
    case WaiterStep(i, timeout) => WaiterInv(s, i, timeout);
    case CompletionStep(i) => CompletionInv(s, i);
    case BeginTeardown =>
    case EndTeardown =>
  }

  function Run(schedule: seq<Action>): Device
    decreases |schedule|
  {
    if schedule == [] then Device([], 0, false, false)
    else
      var s := Run(schedule[..|schedule| - 1]);
      if Enabled(s, schedule[|schedule| - 1]) then Apply(s, schedule[|schedule| - 1]) else s
  }

  lemma {:induction false} RunInv(schedule: seq<Action>)
    ensures Inv(Run(schedule))
    decreases |schedule|
  {
    if schedule != [] {
      var s := Run(schedule[..|schedule| - 1]);
      RunInv(schedule[..|schedule| - 1]);
      if Enabled(s, schedule[|schedule| - 1]) { StepInv(s, schedule[|schedule| - 1]); }
    }
  }

  // --------------------------------------------------------------------------- the results

  // Whatever the interleaving of waits, timeouts, cancels and completions: nothing is freed
  // twice, nothing before the completion routine has claimed or been handed the request, and
  // the attached buffers belong to the caller exactly when it was not told of an abandonment.
  lemma FreedOnce(schedule: seq<Action>, i: nat)
    requires i < |Run(schedule).requests|
    ensures var r := Run(schedule).requests[i];
      && r.irpFrees <= 1 && r.syncFrees <= 1 && r.bufferFrees <= 1
      && (r.irpFrees + r.syncFrees + r.bufferFrees > 0 ==> !r.completion.AtBus? && !r.completion.Entered?)
      && (r.bufferFrees > 0 ==> r.waiter == Returned(true))
      && (r.waiter == Returned(false) ==> r.irpFrees == r.syncFrees == 1 && r.bufferFrees == 0 && r.completion.Finished?)
      && (r.waiter == Returned(true) && r.completion.Finished? ==> r.irpFrees == r.syncFrees == r.bufferFrees == 1)
  {
    RunInv(schedule);
    SoundFrees(Run(schedule).requests[i]);
  }

  lemma SoundFrees(r: Request)
    requires Sound(r)
    ensures r.irpFrees <= 1 && r.syncFrees <= 1 && r.bufferFrees <= 1
    ensures r.irpFrees + r.syncFrees + r.bufferFrees > 0 ==> !r.completion.AtBus? && !r.completion.Entered?
    ensures r.bufferFrees > 0 ==> r.waiter == Returned(true)
    ensures r.waiter == Returned(false) ==>
              r.irpFrees == r.syncFrees == 1 && r.bufferFrees == 0 && r.completion.Finished?
    ensures r.waiter == Returned(true) && r.completion.Finished? ==> r.irpFrees == r.syncFrees == r.bufferFrees == 1
  {
    if Open(r) {} else if WaiterCleans(r) {} else {}
  }

  // A submit reaches the bus driver until the teardown wait begins, and none does afterwards; the
  // requests before it are not touched.
  lemma SubmitReaches(schedule: seq<Action>)
    ensures var s, s' := Run(schedule), Run(schedule + [Submit]);
      && |s'.requests| == |s.requests| + (if s.closing then 0 else 1)
      && (forall i :: 0 <= i < |s.requests| ==> s'.requests[i] == s.requests[i])
      && (!s.closing ==> s'.requests[|s.requests|].completion.AtBus? && s'.requests[|s.requests|].waiter.Waiting? &&
                         s'.holds == s.holds + 1)
  {
    assert (schedule + [Submit])[..|schedule|] == schedule;
  }

  // A waiter cancels only after its timeout: one that is woken by the completion goes on to free
  // what it owns.
  lemma WokenReturns(schedule: seq<Action>, i: nat)
    requires i < |Run(schedule).requests| && Run(schedule).requests[i].event
    requires Run(schedule).requests[i].waiter.Waiting? || Run(schedule).requests[i].waiter.WaitingCancel?
    ensures var r := Run(schedule + [WaiterStep(i, false)]).requests; i < |r| && r[i].waiter.FreeingIrp?
  {
    assert (schedule + [WaiterStep(i, false)])[..|schedule|] == schedule;
  }

  // The caller gives a request up exactly when its cancel timed out and the completion routine
  // has not claimed it yet; a completion that came first is always waited for.
  lemma AbandonExactly(schedule: seq<Action>, i: nat, timeout: bool)
    requires i < |Run(schedule).requests| && Run(schedule).requests[i].waiter.Claiming?
    ensures var r, r' := Run(schedule).requests[i], Run(schedule + [WaiterStep(i, timeout)]).requests;
      i < |r'| && r'[i].waiter == (if r.completion.AtBus? || r.completion.Entered? then Returned(true) else WaitingSet)
  {
    assert (schedule + [WaiterStep(i, timeout)])[..|schedule|] == schedule;
    RunInv(schedule);
    assert Sound(Run(schedule).requests[i]);
  }

  // A step of the waiter or of the completion routine that reads or writes the shared block,
  // or cancels or frees the IRP, finds it not yet freed.
  lemma NoUseAfterFree(schedule: seq<Action>, a: Action)
    requires Enabled(Run(schedule), a)
    ensures a.WaiterStep? ==>
              var r := Run(schedule).requests[a.i];
              (!r.waiter.Releasing? ==> r.syncFrees == 0) &&
              (!r.waiter.Releasing? && !r.waiter.FreeingSync? ==> r.irpFrees == 0)
    ensures a.CompletionStep? ==>
              var r := Run(schedule).requests[a.i];
              (!r.completion.LateRelease? ==> r.syncFrees == 0) &&
              (r.completion.AtBus? || r.completion.Entered? || r.completion.LateIrp? ==> r.irpFrees == 0) &&
              (r.completion.LateBuffers? ==> r.bufferFrees == 0)
  {
    RunInv(schedule);
    if a.WaiterStep? || a.CompletionStep? {
      assert Sound(Run(schedule).requests[a.i]);
    }
  }

  // The remove lock counts exactly the requests whose cleanup is not over; once the teardown
  // wait returns, no request is at the bus driver and no completion routine will run.
  lemma TeardownWaits(schedule: seq<Action>)
    ensures var s := Run(schedule);
      && s.holds == Unfinished(s.requests)
      && (s.down ==> forall i :: 0 <= i < |s.requests| ==> Cleaned(s.requests[i]) && s.requests[i].completion.Finished?)
  {
    RunInv(schedule);
    var s := Run(schedule);
    if s.down {
      forall i | 0 <= i < |s.requests| ensures Cleaned(s.requests[i]) && s.requests[i].completion.Finished? {
        UnfinishedNone(s.requests, i);
        assert Sound(s.requests[i]);
      }
    }
  }

  // Steps a request has left.
  function Left(r: Request): nat {
    (match r.waiter
     case Waiting => 8
     case Cancelling => 7
     case WaitingCancel => 6
     case Claiming => 5
     case WaitingSet => 4
     case FreeingIrp => 3
     case FreeingSync => 2
     case Releasing => 1
     case Returned(_) => 0) +
    (match r.completion
     case AtBus => 6
     case Entered => 5
     case LateIrp => 4
     case LateBuffers => 3
     case LateSync => 2
     case LateRelease => 1
     case Signalling => 1
     case Finished => 0)
  }

  lemma WaiterNears(r: Request, timeout: bool)
    requires WaiterEnabled(r, timeout)
    ensures Left(WaiterMoves(r, timeout)) < Left(r)
  {
  }

  lemma CompletionNears(r: Request)
    requires Sound(r) && !r.completion.Finished?
    ensures Left(CompletionMoves(r)) < Left(r)
  {
  }

  lemma SomebodyMoves(r: Request)
    requires Sound(r) && !Cleaned(r)
    ensures WaiterEnabled(r, true) || !r.completion.Finished?
  {
  }

  // No request gets stuck: until it is cleaned up one of its two sides can move, and each
  // moves a bounded number of times.
  lemma Progress(schedule: seq<Action>, i: nat, timeout: bool)
    requires i < |Run(schedule).requests| && !Cleaned(Run(schedule).requests[i])
    ensures var s := Run(schedule); Enabled(s, WaiterStep(i, true)) || Enabled(s, CompletionStep(i))
    ensures var r := Run(schedule).requests[i];
      (WaiterEnabled(r, timeout) ==> Left(WaiterMoves(r, timeout)) < Left(r)) &&
      (!r.completion.Finished? ==> Left(CompletionMoves(r)) < Left(r))
  {
    RunInv(schedule);
    var r := Run(schedule).requests[i];
    assert Sound(r);
    SomebodyMoves(r);
    if WaiterEnabled(r, timeout) { WaiterNears(r, timeout); }
    if !r.completion.Finished? { CompletionNears(r); }
  }

  // Told once, told for good: what the caller was told about the abandonment never changes.
  lemma ReturnStands(schedule: seq<Action>, a: Action, i: nat)
    requires i < |Run(schedule).requests| && Run(schedule).requests[i].waiter.Returned?
    ensures i < |Run(schedule + [a]).requests|
    ensures Run(schedule + [a]).requests[i].waiter == Run(schedule).requests[i].waiter
  {
    assert (schedule + [a])[..|schedule|] == schedule;
  }
}
