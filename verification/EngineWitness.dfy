// Why ISOCH_STOP must not return before the frame callbacks it interrupted have run: a run
// that shows what a quiesce does otherwise. The driver ignores the status of the stop and
// relies on the bus driver for this.

module EngineWitness {
  import opened EngineModel
  import opened EngineTheorems

  lemma Step(h: seq<Action>, s: Engine, a: Action) returns (h': seq<Action>, s': Engine)
    requires s == Run(Init(1), h) && Enabled(s, a)
    ensures h' == h + [a] && s' == Apply(s, a) && s' == Run(Init(1), h')
  {
    RunSnoc(Init(1), h, a);
    h', s' := h + [a], Apply(s, a);
  }

  // One descriptor, and a session opened over it.
  lemma Opened() returns (h: seq<Action>, s: Engine)
    ensures s == Run(Init(1), h)
    ensures s.frames == [EmptyFrame()] && s.freeList == [0] && s.pendingList == [] && !s.draining && s.control == Idle
    ensures !s.pumpActive && !s.pumpAgain && s.inFlight == 0 && s.runners == [] && s.entering == s.finishing == 0
    ensures s.resourceAllocated && !s.stopped && s.requests == multiset{} && s.acquired == [] && s.location == []
  {
    h, s := Acquired();
    h, s := Step(h, s, CtlOpen);
  }

  lemma Acquired() returns (h: seq<Action>, s: Engine)
    ensures s == Run(Init(1), h)
    ensures s == Init(1).(resourceAllocated := true, control := Starting(true))
    ensures s.frames == [EmptyFrame()] && s.freeList == [0]
  {
    h, s := [], Init(1);
    assert s.frames == [EmptyFrame()] && s.freeList == [0];
    h, s := Step(h, s, CtlStartCheck);
    h, s := Step(h, s, CtlAllocated);
  }

  // A lap of the pump has claimed it and has a buffer to publish.
  lemma Filled() returns (h: seq<Action>, s: Engine)
    ensures s == Run(Init(1), h)
    ensures s.frames == [EmptyFrame().(cookie := 7)] && s.freeList == [] && s.pendingList == []
    ensures !s.draining && s.control == Idle && s.pumpActive && !s.pumpAgain && s.inFlight == 0 && s.finishing == 0
    ensures s.runners == [Runner(false, Publish(0, 0, 0, 7))]
    ensures s.resourceAllocated && !s.stopped && s.requests == multiset{}
  {
    h, s := Opened();
    h, s := Step(h, s, CallPump);
    h, s := Step(h, s, RunElection(false));
    h, s := Step(h, s, RunLap(0, NoBuffer));
    h, s := Step(h, s, RunLap(0, NoBuffer));
    h, s := Step(h, s, RunLap(0, Buffer(7, true)));
  }

  // The attach is at the bus driver, the pump has left, and the frame callback of the buffer
  // has been entered when the quiesce reaches its ISOCH_STOP.
  lemma StopWithCallbackEntered() returns (h: seq<Action>, s: Engine)
    ensures s == Run(Init(1), h)
    ensures |s.frames| == 1 && s.frames[0].state == Attaching && s.frames[0].dma == DmaFired
    ensures s.pendingList == [0] && s.draining && s.control == QuiesceStop && !s.pumpActive
    ensures s.inFlight == 1 && s.finishing == 0 && s.requests == multiset{AttachRequest(0)} && s.resourceAllocated
  {
    h, s := Filled();
    h, s := Step(h, s, RunLap(0, NoBuffer));
    h, s := Step(h, s, RunLap(0, NoBuffer));
    h, s := Step(h, s, RunLap(0, NoBuffer));
    h, s := Step(h, s, BusFrame(0, Success));
    h, s := Step(h, s, CtlBeginDrain);
  }

  // Had the stop returned at that point, the quiesce would have settled with a detach about
  // to go out on a resource the caller may now free.
  lemma StopMustWait() returns (h: seq<Action>, s: Engine, after: seq<Action>)
    ensures s == Run(Init(1), h) && s.control == QuiesceStop && !NoneFired(s)
    ensures var t := Run(IssueStop(s), after);
            t.control == Settled && t.inFlight == 1 && |t.frames| == 1 &&
            t.frames[0].state == Detaching && t.frames[0].carrier == ByTail
  {
    h, s := StopWithCallbackEntered();
    after := Settles(s);
  }

  // The drain ends before the entered callback takes the lock.
  lemma Drains(s: Engine) returns (h: seq<Action>, t: Engine)
    requires |s.frames| == 1 && s.frames[0].state == Attaching && s.frames[0].dma == DmaFired
    requires s.pendingList == [0] && s.draining && s.control == QuiesceStop && !s.pumpActive
    requires s.inFlight == 1 && s.finishing == 0 && s.requests == multiset{AttachRequest(0)} && s.resourceAllocated
    ensures t == Run(IssueStop(s), h)
    ensures t.control == QuiesceCheck(1) && t.inFlight == 0 && t.pendingList == [0] && !t.pumpActive
    ensures |t.frames| == 1 && t.frames[0].state == Pending && t.frames[0].dma == DmaFired
  {
    h, t := [], IssueStop(s);
    h, t := From(IssueStop(s), h, t, CtlClaim);
    h, t := From(IssueStop(s), h, t, BusAttachEnd(0, Success));
    h, t := From(IssueStop(s), h, t, RunDone);
    h, t := From(IssueStop(s), h, t, CtlDrained);
  }

  lemma Settles(s: Engine) returns (h: seq<Action>)
    requires |s.frames| == 1 && s.frames[0].state == Attaching && s.frames[0].dma == DmaFired
    requires s.pendingList == [0] && s.draining && s.control == QuiesceStop && !s.pumpActive
    requires s.inFlight == 1 && s.finishing == 0 && s.requests == multiset{AttachRequest(0)} && s.resourceAllocated
    ensures var t := Run(IssueStop(s), h);
            t.control == Settled && t.inFlight == 1 && |t.frames| == 1 &&
            t.frames[0].state == Detaching && t.frames[0].carrier == ByTail
  {
    var t: Engine;
    h, t := Drains(s);
    h, t := From(IssueStop(s), h, t, RunCallback(0));
    h, t := From(IssueStop(s), h, t, CtlCheck);
    h, t := From(IssueStop(s), h, t, CtlPumpIdle);
  }

  lemma From(origin: Engine, h: seq<Action>, s: Engine, a: Action) returns (h': seq<Action>, s': Engine)
    requires s == Run(origin, h) && Enabled(s, a)
    ensures h' == h + [a] && s' == Apply(s, a) && s' == Run(origin, h')
  {
    RunSnoc(origin, h, a);
    h', s' := h + [a], Apply(s, a);
  }
}
