// The engine as the driver writes it: an object whose lock holds update its fields in place.
// Each routine below is one hold of the engine spinlock or one call to the bus driver, and is
// proved to be the step of the transition system it stands for.

module CaptureEngine {
  import opened EngineModel
  import opened EngineInvariant
  import opened EnginePlane
  import opened EngineControl
  import opened EngineTheorems
  import opened EngineDrain
  import opened EngineFlows
  import opened EnginePumpCalls
  import opened EngineRecord

  // RemoveEntryList: scan to the entry and unlink it.
  method RemoveEntry(list: seq<nat>, d: nat) returns (rest: seq<nat>)
    ensures rest == Remove(list, d) && (d !in list ==> rest == list)
    ensures d in list ==>
              exists i :: 0 <= i < |list| && list[i] == d && d !in list[..i] && rest == list[..i] + list[i + 1..]
  {
    var i := 0;
    while i < |list| && list[i] != d
      invariant 0 <= i <= |list|
      invariant Remove(list, d) == list[..i] + Remove(list[i..], d) && d !in list[..i]
    {
      RemoveStep(list, d, i);
      i := i + 1;
    }
    if i == |list| {
      rest := list;
      assert list[i..] == [] && list[..i] == list;
    } else {
      assert list[i..][1..] == list[i + 1..];
      rest := list[..i] + list[i + 1..];
    }
  }

  lemma RemoveStep(list: seq<nat>, d: nat, i: nat)
    requires i < |list| && list[i] != d
    ensures list[..i] + Remove(list[i..], d) == list[..i + 1] + Remove(list[i + 1..], d)
  {
    assert list[i..][1..] == list[i + 1..];
    assert list[..i + 1] == list[..i] + [list[i]];
  }

  // The claim loop's walk of the pending list for a Pending descriptor.
  method FindPending(frames: seq<Frame>, list: seq<nat>) returns (i: nat)
    ensures i == FirstPending(frames, list)
  {
    i := 0;
    while i < |list| && !(list[i] < |frames| && frames[list[i]].state.Pending?)
      invariant 0 <= i <= |list|
      invariant FirstPending(frames, list) == i + FirstPending(frames, list[i..])
    {
      assert list[i..][1..] == list[i + 1..];
      i := i + 1;
    }
    assert i == |list| ==> list[i..] == [];
  }

  lemma PoolSize(n: nat, schedule: seq<Action>)
    ensures |Run(Init(n), schedule).frames| == n
  {
    RunInv(n, schedule);
  }

  lemma FreeHead(n: nat, schedule: seq<Action>, s: Engine)
    requires s == Run(Init(n), schedule)
    ensures s.freeList != [] ==> s.freeList[0] < |s.frames|
  {
    RunInv(n, schedule);
  }

  // What the control context can rely on while others run.
  predicate Spares(s: Engine, s': Engine) {
    && s'.control == s.control && s'.draining == s.draining && s'.stopped == s.stopped
    && s'.resourceAllocated == s.resourceAllocated && s'.listening == s.listening && |s'.frames| == |s.frames|
    && (s.draining ==> TotalRank(s'.frames) <= TotalRank(s.frames))
    && (Resting(s) ==> Resting(s') && HasQuarantined(s') == HasQuarantined(s))
  }

  // Nothing is in flight, and no frame callback can come.
  predicate Resting(s: Engine) {
    s.draining && s.stopped && s.inFlight == 0 && NoneFired(s)
  }

  lemma StepSpares(n: nat, schedule: seq<Action>, s: Engine, a: Action)
    requires s == Run(Init(n), schedule) && Enabled(s, a) && !a.ByControlPlane()
    ensures Spares(s, Apply(s, a))
  {
    RunInv(n, schedule);
    StepInv(s, a);
    if s.draining { InterferenceRank(s, a); }
  }

  lemma StopFacts(n: nat, schedule: seq<Action>, s: Engine)
    requires s == Run(Init(n), schedule)
    ensures s.control.QuiesceStop? ==> s.resourceAllocated
  {
    RunInv(n, schedule);
  }

  // A step beside the pump lap acquires nothing and takes nothing back.
  lemma AsideKeeps(s: Engine, s': Engine, a: Action)
    requires Enabled(s, a) && !a.RunLap? && s' == Apply(s, a)
    ensures s'.acquired == s.acquired && Records(s, s')
  {
    StepFlows(s, a);
    StepRecords(s, s', a);
  }

  // The callback's own hold, and that it is what the schedule does next.
  lemma CallbackDma(s: Engine, d: nat)
    requires d < |s.frames| && s.frames[d].dma.DmaFired?
    ensures var s' := ApplyTail(s, RunCallback(d));
      && s'.control == s.control && |s'.frames| == |s.frames| && !s'.frames[d].dma.DmaFired?
      && (forall e :: 0 <= e < |s.frames| && e != d ==> s'.frames[e] == s.frames[e])
  {
    if s.frames[d].state.Pending? {} else {}
  }

  lemma TailNext(s: Engine, a: Action)
    requires Enabled(s, a) && a.OfTail()
    ensures Next(s, a) == ApplyTail(s, a)
  {
  }

  // Past the stop no frame callback is entered any more.
  lemma DrainIsSafe(n: nat, schedule: seq<Action>, s: Engine)
    requires s == Run(Init(n), schedule)
    ensures InPass(s.control) || s.control.Settled? || (s.control.Idle? && s.draining) ==> Draining(s)
  {
    RunInv(n, schedule);
  }

  // An engine at rest between control transitions.
  lemma RestingFacts(n: nat, schedule: seq<Action>, s: Engine)
    requires s == Run(Init(n), schedule) && s.control.Idle? && s.draining
    ensures !s.listening && s.inFlight == 0 && s.pendingList == [] && Resting(s)
  {
    RunInv(n, schedule);
  }

  // The front-end has every buffer back but those a failed detach holds.
  predicate AllBack(s: Engine) {
    |s.location| == |s.acquired| &&
    forall t :: 0 <= t < |s.location| ==> s.location[t].AtClient? || Held(s, s.location[t])
  }

  predicate Held(s: Engine, where: Location) {
    where.AtFrame? && where.d < |s.frames| && s.frames[where.d].state.DetachFailed?
  }

  lemma SettledBack(n: nat, schedule: seq<Action>, s: Engine)
    requires s == Run(Init(n), schedule) && s.draining && (s.control.Idle? || s.control.Settled?)
    ensures AllBack(s)
  {
    RunInv(n, schedule);
    DrainedFacts(s);
    SettledFrames(s);
    forall t | 0 <= t < |s.location| ensures s.location[t].AtClient? || Held(s, s.location[t]) {
      assert BufferOk(s, t);
    }
  }

  lemma AllReturned(n: nat, before: seq<Action>, after: seq<Action>, s: Engine)
    requires before <= after && s == Run(Init(n), after) && AllBack(s)
    ensures forall t: nat :: t < |Run(Init(n), before).acquired| ==> Back(s, t)
  {
    AcquiredStays(n, before, after);
  }

  lemma RunningFacts(n: nat, schedule: seq<Action>, s: Engine)
    requires s == Run(Init(n), schedule) && !s.draining
    ensures s.control.Idle? && s.resourceAllocated
  {
    RunInv(n, schedule);
  }

  lemma SettledFacts(n: nat, schedule: seq<Action>, s: Engine)
    requires s == Run(Init(n), schedule) && s.control.Settled?
    ensures s.draining && s.resourceAllocated
  {
    RunInv(n, schedule);
  }

  lemma ReleaseFacts(n: nat, schedule: seq<Action>, s: Engine)
    requires s == Run(Init(n), schedule) && Enabled(s, CtlRelease)
    ensures s.draining
  {
    RunInv(n, schedule);
  }

  lemma ScanFacts(n: nat, schedule: seq<Action>, s: Engine)
    requires s == Run(Init(n), schedule) && s.control.ReleaseScan?
    ensures s.draining
    ensures forall j :: 0 <= j < s.control.i && j < |s.frames| ==> !s.frames[j].state.DetachFailed?
  {
    RunInv(n, schedule);
  }

  // Unlinking a descriptor from the pending list takes that entry and no other.
  lemma Unlinks(n: nat, schedule: seq<Action>, s: Engine, d: nat)
    requires s == Run(Init(n), schedule)
    ensures forall x :: x in Remove(s.pendingList, d) <==> x in s.pendingList && x != d
  {
    RunInv(n, schedule);
    RemoveFacts(s.pendingList, d, |s.frames|);
  }

  // The front-end's first offers were buffers, and they are what was acquired, in order.
  predicate TookFirst(before: seq<nat>, after: seq<nat>, offers: seq<Offer>, taken: nat) {
    && before <= after && |after| == |before| + taken && taken <= |offers|
    && forall j :: 0 <= j < taken ==> offers[j].Buffer? && after[|before| + j] == offers[j].c
  }

  lemma TakesOn(before: seq<nat>, was: seq<nat>, now: seq<nat>, offers: seq<Offer>, taken: nat, took: bool)
    requires TookFirst(before, was, offers, taken) && (took ==> taken < |offers| && offers[taken].Buffer?)
    requires now == if took then was + [offers[taken].c] else was
    ensures TookFirst(before, now, offers, if took then taken + 1 else taken)
  {
  }

  // Each of them that fits was submitted, but for the last when that was cancelled.
  predicate Submitted(base: nat, log: seq<BusEvent>, offers: seq<Offer>, taken: nat, cancelled: bool) {
    forall j :: 0 <= j < taken <= |offers| && offers[j].Buffer? && offers[j].fits ==>
      SubmittedIn(log, base + j) || (j == taken - 1 && cancelled)
  }

  lemma SubmitsOn(base: nat, log: seq<BusEvent>, now: seq<BusEvent>, offers: seq<Offer>, taken: nat, took: bool, cancelled: bool)
    requires Submitted(base, log, offers, taken, false) && log <= now && taken < |offers|
    requires took && offers[taken].Buffer? && offers[taken].fits ==> SubmittedIn(now, base + taken) || cancelled
    ensures Submitted(base, now, offers, if took then taken + 1 else taken, cancelled)
  {
    forall j | 0 <= j < taken && offers[j].Buffer? && offers[j].fits ensures SubmittedIn(now, base + j) {
      var i :| 0 <= i < |log| && log[i].AttachSubmitted? && log[i].t == base + j;
      assert now[i] == log[i];
    }
  }

  predicate Short(s: Engine) {
    s.draining || s.freeList == []
  }

  // Buffer t was submitted to the bus driver.
  predicate SubmittedIn(log: seq<BusEvent>, t: nat) {
    exists i :: 0 <= i < |log| && log[i].AttachSubmitted? && log[i].t == t
  }

  // What surrounds the fields of PHOTONIC_CAPTURE in the transition system.
  datatype World = World(
    runners: seq<Runner>, entering: nat, enteringCounted: nat, arming: nat, finishing: nat,
    control: Control, requests: multiset<BusRequest>, stopped: bool, calls: nat, answered: nat,
    acquired: seq<nat>, location: seq<Location>, delivered: seq<Delivery>, dmaGood: set<nat>,
    log: seq<BusEvent>)

  class Capture {
    // PHOTONIC_CAPTURE
    var frames: seq<Frame>
    var freeList: seq<nat>
    var pendingList: seq<nat>
    var draining: bool
    var pumpActive: bool
    var pumpAgain: bool
    var inFlight: int
    var listening: bool
    var resourceAllocated: bool
    var firstAttachDone: bool

    var w: World

    ghost var pool: nat
    ghost var history: seq<Action>

    function State(): Engine
      reads this
    {
      Engine(frames, freeList, pendingList, draining, pumpActive, pumpAgain, inFlight, listening,
             resourceAllocated, firstAttachDone, w.runners, w.entering, w.enteringCounted, w.arming, w.finishing,
             w.control, w.requests, w.stopped, w.calls, w.answered, w.acquired, w.location, w.delivered, w.dmaGood,
             w.log)
    }

    // Some schedule of the transition system reaches the object's state.
    ghost predicate Valid()
      reads this
    {
      State() == Run(Init(pool), history)
    }

    ghost predicate HandedBack()
      reads this
    {
      AllBack(State())
    }

    // The routine took the one step a: with Valid() before and after, and a enabled before,
    // the new state is the transition system's.
    twostate predicate Took(a: Action)
      reads this
    {
      pool == old(pool) && history == old(history) + [a]
    }

    twostate lemma TookValid(a: Action)
      requires old(Valid()) && Took(a)
      requires Enabled(old(State()), a) && State() == Apply(old(State()), a)
      ensures Valid()
    {
      RunSnoc(Init(pool), old(history), a);
    }

    // The run went on from where it was.
    twostate predicate Continues()
      reads this
    {
      pool == old(pool) && old(history) <= history
    }

    // The first step the run took was a.
    twostate predicate First(a: Action)
      reads this
    {
      |history| > |old(history)| && history[|old(history)|] == a
    }

    // The run took the step a, which made the engine live, and called the pump right after it.
    twostate predicate LiveBy(a: Action)
      reads this
    {
      exists k :: |old(history)| <= k && k + 1 < |history| && history[k] == a && history[k + 1] == CallPump
    }

    // The first k buffers acquired are back with the front-end or held by a failed detach.
    ghost predicate Returned(k: nat)
      reads this
    {
      forall t: nat :: t < k ==> Back(State(), t)
    }

    // Pool and history as before; used by the branches of a routine.
    twostate predicate Quietly()
      reads this
    {
      pool == old(pool) && history == old(history)
    }

    // PhotonicCaptureCreate: the pool on the free list, Draining set.
    constructor (n: nat)
      ensures Valid() && pool == n && history == [] && State() == Init(n)
    {
      frames := seq(n, i => EmptyFrame());
      freeList := seq(n, i requires 0 <= i < n => i as nat);
      pendingList := [];
      draining, pumpActive, pumpAgain, inFlight := true, false, false, 0;
      listening, resourceAllocated, firstAttachDone := false, false, false;
      w := World([], 0, 0, 0, 0, Idle, multiset{}, true, 0, 0, [], [], [], {}, []);
      pool := n;
      history := [];
    }

    // No other descriptor changed.
    twostate predicate OnlyFrame(d: nat)
      reads this
    {
      d < |frames| == |old(frames)| && forall e :: 0 <= e < |frames| && e != d ==> frames[e] == old(frames[e])
    }

    // ------------------------------------------------------ completions and frame callback

    // PhotonicCapturePumpIsochCallback.
    method IsochCallback(d: nat)
      requires Valid() && Enabled(State(), RunCallback(d))
      modifies this
      ensures Valid() && Took(RunCallback(d)) && OnlyFrame(d) && freeList == old(freeList)
      // a Pending descriptor leaves the list for its detach with the status the bus driver wrote,
      // an Attaching one is left to the attach completion, any other is somebody else's
      ensures old(frames[d]).state.Pending? ==>
                frames[d].state.Detaching? && frames[d].completion == old(frames[d]).dmaStatus && frames[d].carrier.ByTail? &&
                inFlight == old(inFlight) + 1 && forall x :: x in pendingList <==> x in old(pendingList) && x != d
      ensures old(frames[d]).state.Attaching? ==> frames[d].state.CompletedWhileAttaching?
      ensures !old(frames[d]).state.Pending? ==> inFlight == old(inFlight) && pendingList == old(pendingList)
      ensures !old(frames[d]).state.Pending? && !old(frames[d]).state.Attaching? ==> frames[d].state == old(frames[d]).state
      ensures frames[d].dma.DmaDone? && frames[d].cookie == old(frames[d]).cookie && frames[d].ticket == old(frames[d]).ticket
    {
      Unlinks(pool, history, State(), d);
      HoldForCallback(d);
      history := history + [RunCallback(d)];
      TookValid(RunCallback(d));
    }

    method HoldForCallback(d: nat)
      requires d < |frames| && frames[d].dma.DmaFired?
      modifies this
      ensures State() == ApplyTail(old(State()), RunCallback(d)) && Quietly()
      ensures freeList == old(freeList)
      ensures if old(frames[d]).state.Pending?
              then pendingList == Remove(old(pendingList), d) && inFlight == old(inFlight) + 1
              else pendingList == old(pendingList) && inFlight == old(inFlight)
      ensures frames == old(frames)[d :=
                if old(frames[d]).state.Pending?
                then old(frames[d]).(state := Detaching, completion := old(frames[d]).dmaStatus, carrier := ByTail, dma := DmaDone)
                else old(frames[d]).(
                  state := if old(frames[d]).state.Attaching? then CompletedWhileAttaching else old(frames[d]).state,
                  dma := DmaDone)]
    {
      if frames[d].state.Pending? {
        TakePending(d);
      } else {
        MarkComplete(d);
      }
    }

    method TakePending(d: nat)
      requires d < |frames|
      modifies this
      ensures State() == CallbackClaims(old(State()), d) && Quietly()
      ensures pendingList == Remove(old(pendingList), d) && inFlight == old(inFlight) + 1 && freeList == old(freeList)
      ensures frames == old(frames)[d := old(frames[d]).(state := Detaching, completion := old(frames[d]).dmaStatus,
                                                        carrier := ByTail, dma := DmaDone)]
    {
      pendingList := RemoveEntry(pendingList, d);
      frames := frames[d := frames[d].(state := Detaching, completion := frames[d].dmaStatus,
                                       carrier := ByTail, dma := DmaDone)];
      inFlight := inFlight + 1;
    }

    method MarkComplete(d: nat)
      requires d < |frames|
      modifies this
      ensures State() == CallbackDefers(old(State()), d) && Quietly()
      ensures pendingList == old(pendingList) && inFlight == old(inFlight) && freeList == old(freeList)
      ensures frames == old(frames)[d := old(frames[d]).(
                state := if old(frames[d]).state.Attaching? then CompletedWhileAttaching else old(frames[d]).state,
                dma := DmaDone)]
    {
      var state := frames[d].state;
      if state.Attaching? { state := CompletedWhileAttaching; }
      frames := frames[d := frames[d].(state := state, dma := DmaDone)];
    }

    // PhotonicCapturePumpAttachComplete.
    method AttachComplete(d: nat, st: Status)
      requires Valid() && Enabled(State(), BusAttachEnd(d, st))
      modifies this
      ensures Valid() && Took(BusAttachEnd(d, st)) && OnlyFrame(d) && inFlight == old(inFlight) && draining == old(draining)
      // a failed attach frees the descriptor and fails its buffer with the bus driver's status
      ensures !st.Success? ==>
                frames[d].state.Free? && freeList == old(freeList) + [d] &&
                (forall x :: x in pendingList <==> x in old(pendingList) && x != d) &&
                old(frames[d]).ticket < |w.location| &&
                w.location[old(frames[d]).ticket] == AtTail(old(frames[d]).cookie, false, st, false)
      // one whose frame is in already goes on to its detach with the status the bus driver wrote,
      // any other is published, and announced on a live engine
      ensures st.Success? && old(frames[d]).state.CompletedWhileAttaching? ==>
                frames[d].state.Detaching? && frames[d].completion == old(frames[d]).dmaStatus && frames[d].carrier.ByTail? &&
                forall x :: x in pendingList <==> x in old(pendingList) && x != d
      ensures st.Success? && !old(frames[d]).state.CompletedWhileAttaching? ==>
                frames[d].state.Pending? && pendingList == old(pendingList) &&
                w.arming == old(w.arming) + (if draining then 0 else 1)
      ensures st.Success? ==> freeList == old(freeList) && frames[d].ticket == old(frames[d]).ticket
    {
      Unlinks(pool, history, State(), d);
      RequestHolds(pool, history, State(), d);
      HoldForAttach(d, st);
      history := history + [BusAttachEnd(d, st)];
      TookValid(BusAttachEnd(d, st));
    }

    method HoldForAttach(d: nat, st: Status)
      requires AttachCanEnd(State(), d, st)
      modifies this
      ensures State() == AttachEnd(old(State()), d, st) && Quietly()
      ensures inFlight == old(inFlight) && draining == old(draining)
      ensures st.Success? && !old(frames[d]).state.CompletedWhileAttaching? ==>
                pendingList == old(pendingList) && w.arming == old(w.arming) + (if draining then 0 else 1)
      ensures !st.Success? || old(frames[d]).state.CompletedWhileAttaching? ==> pendingList == Remove(old(pendingList), d)
      ensures freeList == (if st.Success? then old(freeList) else old(freeList) + [d])
      ensures !st.Success? ==>
                w.location == Relocate(old(w.location), old(frames[d]).ticket, AtTail(old(frames[d]).cookie, false, st, false))
      ensures frames == old(frames)[d :=
                if !st.Success? then old(frames[d]).(state := Free, cookie := 0, carrier := Nobody, dma := DmaOff)
                else if old(frames[d]).state.CompletedWhileAttaching?
                then old(frames[d]).(state := Detaching, completion := old(frames[d]).dmaStatus, carrier := ByTail)
                else old(frames[d]).(state := Pending, carrier := Nobody)]
    {
      if !st.Success? {
        FailAttach(d, st);
      } else if frames[d].state.CompletedWhileAttaching? {
        FinishAttach(d);
      } else {
        PublishAttach(d);
      }
    }

    method FailAttach(d: nat, st: Status)
      requires d < |frames|
      modifies this
      ensures State() == AttachFailed(old(State()), d, st) && Quietly()
      ensures pendingList == Remove(old(pendingList), d) && freeList == old(freeList) + [d] && inFlight == old(inFlight)
      ensures frames == old(frames)[d := old(frames[d]).(state := Free, cookie := 0, carrier := Nobody, dma := DmaOff)]
      ensures w.location == Relocate(old(w.location), old(frames[d]).ticket, AtTail(old(frames[d]).cookie, false, st, false))
      ensures draining == old(draining)
    {
      var f := frames[d];
      pendingList := RemoveEntry(pendingList, d);
      frames := frames[d := f.(state := Free, cookie := 0, carrier := Nobody, dma := DmaOff)];
      freeList := freeList + [d];
      w := w.(requests := w.requests - multiset{AttachRequest(d)}, log := w.log + [AttachEnded(d, false)],
              location := Relocate(w.location, f.ticket, AtTail(f.cookie, false, st, false)));
    }

    method FinishAttach(d: nat)
      requires d < |frames|
      modifies this
      ensures State() == AttachFoundDone(old(State()), d) && Quietly()
      ensures pendingList == Remove(old(pendingList), d) && freeList == old(freeList) && inFlight == old(inFlight)
      ensures frames == old(frames)[d := old(frames[d]).(state := Detaching, completion := old(frames[d]).dmaStatus,
                                                        carrier := ByTail)]
      ensures draining == old(draining)
    {
      pendingList := RemoveEntry(pendingList, d);
      frames := frames[d := frames[d].(state := Detaching, completion := frames[d].dmaStatus, carrier := ByTail)];
      w := w.(requests := w.requests - multiset{AttachRequest(d)}, log := w.log + [AttachEnded(d, true)]);
    }

    method PublishAttach(d: nat)
      requires d < |frames|
      modifies this
      ensures State() == AttachPublished(old(State()), d) && Quietly()
      ensures pendingList == old(pendingList) && freeList == old(freeList) && inFlight == old(inFlight)
      ensures frames == old(frames)[d := old(frames[d]).(state := Pending, carrier := Nobody)]
      ensures draining == old(draining) && w.arming == old(w.arming) + (if draining then 0 else 1)
    {
      frames := frames[d := frames[d].(state := Pending, carrier := Nobody)];
      w := w.(requests := w.requests - multiset{AttachRequest(d)}, log := w.log + [AttachEnded(d, true)],
              finishing := if draining then w.finishing + 1 else w.finishing,
              arming := if draining then w.arming else w.arming + 1);
    }

    // PhotonicCapturePumpDetachComplete.
    method DetachComplete(d: nat, ok: bool)
      requires Valid() && Enabled(State(), BusDetachEnd(d, ok))
      modifies this
      ensures Valid() && Took(BusDetachEnd(d, ok)) && OnlyFrame(d)
      ensures pendingList == old(pendingList) && inFlight == old(inFlight)
      // the descriptor is free again and its buffer about to be delivered, full exactly when its
      // completion is a success, with a pump call to follow
      ensures ok ==>
                frames[d].state.Free? && freeList == old(freeList) + [d] && old(frames[d]).ticket < |w.location| &&
                w.location[old(frames[d]).ticket] ==
                  AtTail(old(frames[d]).cookie, old(frames[d]).completion.Success?, old(frames[d]).completion, true)
      // or it keeps buffer and cookie, off every list
      ensures !ok ==>
                frames[d].state.DetachFailed? && freeList == old(freeList) && w.location == old(w.location) &&
                frames[d].cookie == old(frames[d]).cookie && frames[d].ticket == old(frames[d]).ticket
    {
      RequestHolds(pool, history, State(), d);
      if ok {
        RecycleFrame(d);
      } else {
        QuarantineFrame(d);
      }
      history := history + [BusDetachEnd(d, ok)];
      TookValid(BusDetachEnd(d, ok));
    }

    method RecycleFrame(d: nat)
      requires d < |frames|
      modifies this
      ensures State() == DetachRecycled(old(State()), d) && Quietly()
      ensures pendingList == old(pendingList) && freeList == old(freeList) + [d] && inFlight == old(inFlight)
      ensures frames == old(frames)[d := old(frames[d]).(state := Free, cookie := 0, carrier := Nobody, dma := DmaOff)]
      ensures w.location == Relocate(old(w.location), old(frames[d]).ticket,
                AtTail(old(frames[d]).cookie, old(frames[d]).completion.Success?, old(frames[d]).completion, true))
    {
      var f := frames[d];
      frames := frames[d := f.(state := Free, cookie := 0, carrier := Nobody, dma := DmaOff)];
      freeList := freeList + [d];
      w := w.(requests := w.requests - multiset{DetachRequest(d)}, log := w.log + [DetachEnded(d, true)],
              location := Relocate(w.location, f.ticket, AtTail(f.cookie, f.completion.Success?, f.completion, true)));
    }

    method QuarantineFrame(d: nat)
      requires d < |frames|
      modifies this
      ensures State() == DetachQuarantined(old(State()), d) && Quietly()
      ensures pendingList == old(pendingList) && freeList == old(freeList) && inFlight == old(inFlight)
      ensures frames == old(frames)[d := old(frames[d]).(state := DetachFailed, carrier := Nobody, dma := DmaOff)]
      ensures w.location == old(w.location)
    {
      frames := frames[d := frames[d].(state := DetachFailed, carrier := Nobody, dma := DmaOff)];
      w := w.(requests := w.requests - multiset{DetachRequest(d)}, log := w.log + [DetachEnded(d, false)],
              finishing := w.finishing + 1);
    }

    // PhotonicCapturePumpBeginDetach out of the frame callback or the attach completion.
    method SubmitDetach(d: nat)
      requires Valid() && Enabled(State(), RunSubmit(d))
      modifies this
      ensures Valid() && Took(RunSubmit(d)) && OnlyFrame(d) && frames[d] == old(frames[d]).(carrier := ByBus)
      ensures w.requests == old(w.requests) + multiset{DetachRequest(d)} && w.log == old(w.log) + [DetachSubmitted(d)]
    {
      frames := frames[d := frames[d].(carrier := ByBus)];
      w := w.(requests := w.requests + multiset{DetachRequest(d)}, log := w.log + [DetachSubmitted(d)]);
      history := history + [RunSubmit(d)];
      TookValid(RunSubmit(d));
    }

    // The delivery of a detach or attach completion: the front-end gets the buffer as the tail
    // says, and a detach completion calls the pump next.
    method DeliverTail(t: nat)
      requires Valid() && Enabled(State(), RunDeliver(t))
      modifies this
      ensures Valid() && Took(RunDeliver(t)) && frames == old(frames) && inFlight == old(inFlight)
      ensures var tail := old(w.location[t]);
        && w.delivered == old(w.delivered) + [Delivery(t, tail.c, tail.full, tail.st)]
        && w.enteringCounted == old(w.enteringCounted) + (if tail.thenPump then 1 else 0)
        && w.finishing == old(w.finishing) + (if tail.thenPump then 0 else 1)
    {
      var tail := w.location[t];
      w := w.(delivered := w.delivered + [Delivery(t, tail.c, tail.full, tail.st)],
              location := Relocate(w.location, t, AtClient(|w.delivered|)),
              enteringCounted := if tail.thenPump then w.enteringCounted + 1 else w.enteringCounted,
              finishing := if tail.thenPump then w.finishing else w.finishing + 1);
      history := history + [RunDeliver(t)];
      TookValid(RunDeliver(t));
    }

    // KeSetEvent on FirstAttachDone.
    method SignalFirstAttach()
      requires Valid() && Enabled(State(), RunArmed)
      modifies this
      ensures Valid() && Took(RunArmed) && firstAttachDone && frames == old(frames)
      ensures w.arming == old(w.arming) - 1 && w.finishing == old(w.finishing) + 1
    {
      firstAttachDone := true;
      w := w.(arming := w.arming - 1, finishing := w.finishing + 1);
      history := history + [RunArmed];
      TookValid(RunArmed);
    }

    // PhotonicCapturePumpIrpDone.
    method IrpDone()
      requires Valid() && Enabled(State(), RunDone)
      modifies this
      ensures Valid() && Took(RunDone) && inFlight == old(inFlight) - 1 && frames == old(frames)
    {
      inFlight := inFlight - 1;
      w := w.(finishing := w.finishing - 1);
      history := history + [RunDone];
      TookValid(RunDone);
    }

    // -------------------------------------------------------------------------- the pump

    // Whatever else runs beside the pump's lap: completions, other pump calls and the control
    // context, any finite number of their steps.
    method OthersRun(budget: nat) returns (left: nat)
      requires Valid() && pumpActive
      modifies this
      ensures Valid() && Continues()
      ensures pumpActive && w.runners == old(w.runners) && |frames| == old(|frames|)
      ensures left <= budget && (pumpAgain && !old(pumpAgain) ==> left < budget)
      ensures w.acquired == old(w.acquired) && Records(old(State()), State())
    {
      left := budget;
      while left > 0
        invariant Valid() && Continues()
        invariant pumpActive && w.runners == old(w.runners) && |frames| == old(|frames|)
        invariant w.acquired == old(w.acquired) && Records(old(State()), State())
        invariant left <= budget && (pumpAgain && !old(pumpAgain) ==> left < budget)
      {
        var a: Action := *;
        left := left - 1;
        if !a.RunLap? && Enabled(State(), a) { Beside(a); }
      }
    }

    // One step of somebody else.
    method Beside(a: Action)
      requires Valid() && pumpActive && !a.RunLap? && Enabled(State(), a)
      modifies this
      ensures Valid() && Took(a) && pumpActive && w.runners == old(w.runners) && |frames| == old(|frames|)
      ensures w.acquired == old(w.acquired) && Records(old(State()), State())
    {
      PoolSize(pool, history);
      OthersKeepRunner(State(), a);
      AsideKeeps(State(), Apply(State(), a), a);
      Load(Apply(State(), a));
      history := history + [a];
      TookValid(a);
      PoolSize(pool, history);
    }

    method Load(s: Engine)
      modifies this
      ensures State() == s && Quietly()
    {
      frames, freeList, pendingList := s.frames, s.freeList, s.pendingList;
      draining, pumpActive, pumpAgain, inFlight := s.draining, s.pumpActive, s.pumpAgain, s.inFlight;
      listening, resourceAllocated, firstAttachDone := s.listening, s.resourceAllocated, s.firstAttachDone;
      w := World(s.runners, s.entering, s.enteringCounted, s.arming, s.finishing, s.control, s.requests, s.stopped,
                 s.calls, s.answered, s.acquired, s.location, s.delivered, s.dmaGood, s.log);
    }

    // The pump's own program point.
    predicate At(pc: LapPc)
      reads this
    {
      pumpActive && |w.runners| == 1 && w.runners[0].pc == pc && LapInRange(pc, |frames|)
    }

    // The runner moved on, the pool and the request for another lap as they were.
    twostate predicate Moved(pc: LapPc)
      reads this
    {
      At(pc) && |frames| == old(|frames|) && pumpAgain == old(pumpAgain) && old(w.log) <= w.log
    }

    // The pump found the engine draining or no descriptor free on its way.
    twostate predicate Stalled()
      reads this
    {
      exists k :: |old(history)| <= k <= |history| && Short(Run(Init(pool), history[..k]))
    }

    // CallPump and the election: the loser asks the runner for another lap.
    method EnterPump() returns (elected: bool)
      requires Valid()
      modifies this
      ensures Valid() && Continues() && history == old(history) + [CallPump, RunElection(false)]
      ensures elected == !old(pumpActive) && (elected ==> At(LapStart)) && (!elected ==> pumpActive && pumpAgain)
      ensures w.calls == old(w.calls) + 1
    {
      Arrive();
      elected := !pumpActive;
      PumpElection(pool, history);
      if pumpActive {
        LoseElection();
      } else {
        WinElection();
      }
      assert history == old(history) + [CallPump, RunElection(false)];
    }

    method Arrive()
      requires Valid()
      modifies this
      ensures Valid() && Took(CallPump) && w.entering > 0
      ensures pumpActive == old(pumpActive) && w.calls == old(w.calls)
    {
      w := w.(entering := w.entering + 1);
      history := history + [CallPump];
      TookValid(CallPump);
    }

    method LoseElection()
      requires Valid() && w.entering > 0 && pumpActive
      modifies this
      ensures Valid() && Took(RunElection(false)) && pumpActive && pumpAgain && w.calls == old(w.calls) + 1
    {
      pumpAgain := true;
      w := w.(entering := w.entering - 1, calls := w.calls + 1);
      history := history + [RunElection(false)];
      TookValid(RunElection(false));
    }

    method WinElection()
      requires Valid() && w.entering > 0 && !pumpActive && w.runners == []
      modifies this
      ensures Valid() && Took(RunElection(false)) && At(LapStart) && w.calls == old(w.calls) + 1
    {
      pumpActive := true;
      w := w.(entering := w.entering - 1, calls := w.calls + 1, runners := w.runners + [Runner(false, LapStart)]);
      history := history + [RunElection(false)];
      TookValid(RunElection(false));
    }

    // The runner's holds. Each moves it from one program point of the lap to the next.

    method ClearAgain()
      requires Valid() && At(LapStart)
      modifies this
      ensures Valid() && Took(RunLap(0, NoBuffer)) && At(if |frames| > 0 then Claim(0) else LapEnd)
      ensures |frames| == old(|frames|)
      ensures w.acquired == old(w.acquired) && old(w.log) <= w.log
    {
      pumpAgain := false;
      w := w.(runners := w.runners[0 := w.runners[0].(pc := if |frames| > 0 then Claim(0) else LapEnd)],
              answered := w.calls);
      history := history + [RunLap(0, NoBuffer)];
      TookValid(RunLap(0, NoBuffer));
    }

    // Draining, or no descriptor is free.
    method GiveUp(i: nat)
      requires Valid() && At(Claim(i)) && (draining || freeList == [])
      modifies this
      ensures Valid() && Took(RunLap(0, NoBuffer)) && Moved(LapEnd)
      ensures w.acquired == old(w.acquired)
    {
      w := w.(runners := w.runners[0 := w.runners[0].(pc := LapEnd)]);
      history := history + [RunLap(0, NoBuffer)];
      TookValid(RunLap(0, NoBuffer));
    }

    method ClaimFree(i: nat) returns (d: nat)
      requires Valid() && At(Claim(i)) && !draining && freeList != [] && freeList[0] < |frames|
      modifies this
      ensures Valid() && Took(RunLap(0, NoBuffer)) && Moved(LapPc.Acquire(i, d))
      ensures w.acquired == old(w.acquired)
    {
      d := freeList[0];
      freeList := freeList[1..];
      w := w.(runners := w.runners[0 := w.runners[0].(pc := LapPc.Acquire(i, d))]);
      history := history + [RunLap(0, NoBuffer)];
      TookValid(RunLap(0, NoBuffer));
    }

    // The acquire callback has nothing.
    method FindNothing(i: nat, d: nat)
      requires Valid() && At(LapPc.Acquire(i, d))
      modifies this
      ensures Valid() && Took(RunLap(0, NoBuffer)) && Moved(LapPc.GiveBack(d))
      ensures w.acquired == old(w.acquired)
    {
      w := w.(runners := w.runners[0 := w.runners[0].(pc := LapPc.GiveBack(d))]);
      history := history + [RunLap(0, NoBuffer)];
      TookValid(RunLap(0, NoBuffer));
    }

    // The acquire callback has a buffer smaller than a frame.
    method Refuse(i: nat, d: nat, c: nat) returns (t: nat)
      requires Valid() && At(LapPc.Acquire(i, d))
      modifies this
      ensures Valid() && Took(RunLap(0, Buffer(c, false))) && Moved(LapPc.Reject(i, d, t, c))
      ensures t == |old(w.acquired)| && w.acquired == old(w.acquired) + [c]
    {
      t := |w.acquired|;
      w := w.(acquired := w.acquired + [c], location := w.location + [AtRunner],
              runners := w.runners[0 := w.runners[0].(pc := LapPc.Reject(i, d, t, c))]);
      history := history + [RunLap(0, Buffer(c, false))];
      TookValid(RunLap(0, Buffer(c, false)));
    }

    // PhotonicCapturePumpPrime, on the claimed descriptor and outside the lock.
    method Prime(i: nat, d: nat, c: nat) returns (t: nat)
      requires Valid() && At(LapPc.Acquire(i, d))
      modifies this
      ensures Valid() && Took(RunLap(0, Buffer(c, true))) && Moved(LapPc.Publish(i, d, t, c))
      ensures t == |old(w.acquired)| && w.acquired == old(w.acquired) + [c]
    {
      t := |w.acquired|;
      frames := frames[d := frames[d].(cookie := c, completion := Success, dmaStatus := Success)];
      w := w.(acquired := w.acquired + [c], location := w.location + [AtRunner],
              runners := w.runners[0 := w.runners[0].(pc := LapPc.Publish(i, d, t, c))]);
      history := history + [RunLap(0, Buffer(c, true))];
      TookValid(RunLap(0, Buffer(c, true)));
    }

    // The claimed descriptor goes back to the head of the free list.
    method ReturnFrame(d: nat, pc: LapPc)
      requires Valid() && pumpActive && |w.runners| == 1 && d < |frames|
      requires (w.runners[0].pc == LapPc.GiveBack(d) && pc == LapEnd) ||
               (w.runners[0].pc.Reject? && w.runners[0].pc.d == d &&
                pc == RejectDeliver(w.runners[0].pc.i, w.runners[0].pc.t, w.runners[0].pc.c)) ||
               (w.runners[0].pc.Publish? && w.runners[0].pc.d == d && draining &&
                pc == CancelDeliver(w.runners[0].pc.t, w.runners[0].pc.c))
      modifies this
      ensures Valid() && Took(RunLap(0, NoBuffer)) && Moved(pc)
      ensures w.acquired == old(w.acquired)
    {
      frames := frames[d := frames[d].(state := Free)];
      freeList := [d] + freeList;
      w := w.(runners := w.runners[0 := w.runners[0].(pc := pc)]);
      history := history + [RunLap(0, NoBuffer)];
      TookValid(RunLap(0, NoBuffer));
    }

    method PublishFrame(i: nat, d: nat, t: nat, c: nat)
      requires Valid() && At(LapPc.Publish(i, d, t, c)) && !draining
      modifies this
      ensures Valid() && Took(RunLap(0, NoBuffer)) && Moved(LapPc.Submit(i, d))
      ensures w.acquired == old(w.acquired) && frames[d].ticket == t
    {
      LinkFrame(i, d, t);
      history := history + [RunLap(0, NoBuffer)];
      TookValid(RunLap(0, NoBuffer));
    }

    method LinkFrame(i: nat, d: nat, t: nat)
      requires |w.runners| == 1 && d < |frames|
      modifies this
      ensures State() == LapAttach(old(State()), 0, i, d, t) && Quietly()
      ensures |frames| == old(|frames|) && frames[d].ticket == t && w.acquired == old(w.acquired)
      ensures w.log == old(w.log)
    {
      frames := frames[d := frames[d].(state := Attaching, ticket := t, carrier := ByRunner)];
      pendingList := pendingList + [d];
      inFlight := inFlight + 1;
      w := w.(runners := w.runners[0 := w.runners[0].(pc := LapPc.Submit(i, d))],
              location := Relocate(w.location, t, AtFrame(d)));
    }

    // PhotonicCapturePumpBeginAttach.
    method BeginAttach(i: nat, d: nat)
      requires Valid() && At(LapPc.Submit(i, d))
      modifies this
      ensures Valid() && Took(RunLap(0, NoBuffer)) && Moved(NextIteration(old(State()), i))
      ensures w.acquired == old(w.acquired) && w.log == old(w.log) + [AttachSubmitted(d, old(frames[d]).ticket)]
    {
      CallBus(i, d);
      history := history + [RunLap(0, NoBuffer)];
      TookValid(RunLap(0, NoBuffer));
    }

    method CallBus(i: nat, d: nat)
      requires |w.runners| == 1 && d < |frames|
      modifies this
      ensures State() == LapSubmit(old(State()), 0, i, d) && Quietly()
      ensures w.acquired == old(w.acquired) && w.log == old(w.log) + [AttachSubmitted(d, old(frames[d]).ticket)]
    {
      var ticket := frames[d].ticket;
      frames := frames[d := frames[d].(carrier := ByBus, dma := DmaArmed)];
      w := w.(runners := w.runners[0 := w.runners[0].(pc := if i + 1 < |frames| then Claim(i + 1) else LapEnd)],
              requests := w.requests + multiset{AttachRequest(d)}, log := w.log + [AttachSubmitted(d, ticket)]);
    }

    // The front-end gets its buffer back unused.
    method HandBack(t: nat, c: nat, st: Status, next: LapPc)
      requires Valid() && pumpActive && |w.runners| == 1
      requires (w.runners[0].pc == CancelDeliver(t, c) && st == Cancelled && next == LapEnd) ||
               (w.runners[0].pc.RejectDeliver? && w.runners[0].pc == RejectDeliver(w.runners[0].pc.i, t, c) &&
                st == InvalidParameter && next == NextIteration(State(), w.runners[0].pc.i))
      modifies this
      ensures Valid() && Took(RunLap(0, NoBuffer)) && Moved(next)
      ensures w.acquired == old(w.acquired) && w.delivered == old(w.delivered) + [Delivery(t, c, false, st)]
    {
      w := w.(runners := w.runners[0 := w.runners[0].(pc := next)],
              delivered := w.delivered + [Delivery(t, c, false, st)],
              location := Relocate(w.location, t, AtClient(|w.delivered|)));
      history := history + [RunLap(0, NoBuffer)];
      TookValid(RunLap(0, NoBuffer));
    }

    // The last hold of PhotonicCapturePump: another lap if somebody asked for one.
    method Leave() returns (again: bool)
      requires Valid() && At(LapEnd)
      modifies this
      ensures Valid() && Took(RunLap(0, NoBuffer)) && again == old(pumpAgain)
      ensures again ==> At(LapStart)
      ensures !again ==> !pumpActive
      ensures w.acquired == old(w.acquired)
    {
      again := pumpAgain;
      if again {
        w := w.(runners := w.runners[0 := w.runners[0].(pc := LapStart)]);
      } else {
        pumpActive := false;
        w := w.(runners := w.runners[..0] + w.runners[1..],
                finishing := if w.runners[0].counted then w.finishing + 1 else w.finishing);
      }
      history := history + [RunLap(0, NoBuffer)];
      TookValid(RunLap(0, NoBuffer));
    }

    // PhotonicCapturePumpLap: one pass over the pool, everything else running in between.
    // offers is what the acquire callback has each time it is asked. The lap takes the buffers
    // in order, until the front-end has none or the pump stalls, and attaches each that fits.
    method PumpLap(offers: seq<Offer>, budget: nat) returns (left: nat, taken: nat)
      requires Valid() && At(if |frames| > 0 then Claim(0) else LapEnd) && |offers| == |frames|
      modifies this
      ensures Valid() && Continues() && At(LapEnd)
      ensures Spent(budget, left)
      ensures taken <= |offers| && TookFirst(old(w.acquired), w.acquired, offers, taken)
      ensures taken < |offers| ==> offers[taken].NoBuffer? || Stalled()
      ensures Submitted(|old(w.acquired)|, w.log, offers, taken, Stalled())
    {
      left, taken := budget, 0;
      var i := 0;
      var more := true;
      while i < |frames| && more
        invariant Valid() && Continues() && i <= |frames| == |offers|
        invariant At(if i < |frames| && more then Claim(i) else LapEnd)
        invariant Spent(budget, left)
        invariant if more then taken == i else taken < |offers| ==> offers[taken].NoBuffer? || Stalled()
        invariant taken <= i && TookFirst(old(w.acquired), w.acquired, offers, taken)
        invariant Submitted(|old(w.acquired)|, w.log, offers, taken, !more && Stalled())
        decreases |frames| - i
      {
        var took;
        ghost var was, log := w.acquired, w.log;
        left, more, took := Refill(i, left, offers[i]);
        TakesOn(old(w.acquired), was, w.acquired, offers, taken, took);
        SubmitsOn(|old(w.acquired)|, log, w.log, offers, taken, took, !more && Stalled());
        taken := if took then taken + 1 else taken;
        i := i + 1;
      }
    }

    // A new request for a lap costs somebody else a step.
    twostate predicate Spent(budget: nat, left: nat)
      reads this
    {
      left <= budget && (pumpAgain && !old(pumpAgain) ==> left < budget)
    }

    // One iteration: claim a descriptor, pull a buffer, and attach it or hand it back.
    method Refill(i: nat, budget: nat, offer: Offer) returns (left: nat, more: bool, took: bool)
      requires Valid() && At(Claim(i)) && i < |frames|
      modifies this
      ensures Valid() && Continues() && |frames| == old(|frames|) && old(w.log) <= w.log
      ensures At(if more then NextIteration(State(), i) else LapEnd)
      ensures Spent(budget, left) && Settles(offer, more, took)
    {
      left := OthersRun(budget);
      FreeHead(pool, history, State());
      if draining || freeList == [] {
        ghost var found := history;
        GiveUp(i);
        assert history[..|found|] == found;
        more, took := false, false;
      } else {
        left, more, took := UseFree(i, left, offer);
      }
    }

    // What one iteration does with the offer: a buffer is taken unless the pump stalls; one too
    // small goes straight back; one that fits is submitted, or cancelled when the engine drains.
    twostate predicate Settles(offer: Offer, more: bool, took: bool)
      reads this
    {
      var t := |old(w.acquired)|;
      && (took ==> offer.Buffer?) && (more ==> took) && (!took && offer.Buffer? ==> Stalled())
      && w.acquired == (if took then old(w.acquired) + [offer.c] else old(w.acquired))
      && (took && !offer.fits ==> more && HandedLast(Delivery(t, offer.c, false, InvalidParameter)))
      && (took && offer.fits ==>
            if more then SubmittedIn(w.log, t) else Stalled() && HandedLast(Delivery(t, offer.c, false, Cancelled)))
    }

    predicate HandedLast(v: Delivery)
      reads this
    {
      w.delivered != [] && w.delivered[|w.delivered| - 1] == v
    }

    method UseFree(i: nat, budget: nat, offer: Offer) returns (left: nat, more: bool, took: bool)
      requires Valid() && At(Claim(i)) && i < |frames| && !draining && freeList != [] && freeList[0] < |frames|
      modifies this
      ensures Valid() && Continues() && |frames| == old(|frames|) && old(w.log) <= w.log
      ensures At(if more then NextIteration(State(), i) else LapEnd)
      ensures Spent(budget, left) && Settles(offer, more, took) && (took <==> offer.Buffer?)
    {
      var d := ClaimFree(i);
      left := OthersRun(budget);
      took := offer.Buffer?;
      // the acquire callback
      if offer.NoBuffer? {
        left := PassOver(i, d, left);
        more := false;
      } else if offer.fits {
        left, more := AttachBuffer(i, d, offer.c, left);
      } else {
        left := RejectBuffer(i, d, offer.c, left);
        more := true;
      }
    }

    method RejectBuffer(i: nat, d: nat, c: nat, budget: nat) returns (left: nat)
      requires Valid() && At(LapPc.Acquire(i, d))
      modifies this
      ensures Valid() && Continues() && |frames| == old(|frames|) && old(w.log) <= w.log
      ensures At(NextIteration(State(), i)) && Spent(budget, left)
      ensures w.acquired == old(w.acquired) + [c]
      ensures HandedLast(Delivery(|old(w.acquired)|, c, false, InvalidParameter))
    {
      var t := Refuse(i, d, c);
      left := OthersRun(budget);
      ReturnFrame(d, RejectDeliver(i, t, c));
      left := OthersRun(left);
      HandBack(t, c, InvalidParameter, NextIteration(State(), i));
    }

    method PassOver(i: nat, d: nat, budget: nat) returns (left: nat)
      requires Valid() && At(LapPc.Acquire(i, d))
      modifies this
      ensures Valid() && Continues() && |frames| == old(|frames|) && At(LapEnd) && Spent(budget, left)
      ensures w.acquired == old(w.acquired) && old(w.log) <= w.log
    {
      FindNothing(i, d);
      left := OthersRun(budget);
      ReturnFrame(d, LapEnd);
    }

    method AttachBuffer(i: nat, d: nat, c: nat, budget: nat) returns (left: nat, more: bool)
      requires Valid() && At(LapPc.Acquire(i, d))
      modifies this
      ensures Valid() && Continues() && |frames| == old(|frames|) && old(w.log) <= w.log
      ensures At(if more then NextIteration(State(), i) else LapEnd) && Spent(budget, left)
      ensures w.acquired == old(w.acquired) + [c]
      ensures if more then SubmittedIn(w.log, |old(w.acquired)|)
              else Stalled() && HandedLast(Delivery(|old(w.acquired)|, c, false, Cancelled))
    {
      var t := Prime(i, d, c);
      left := OthersRun(budget);
      more := !draining;
      if draining {
        left := CancelBuffer(i, d, t, c, left);
      } else {
        left := SubmitBuffer(i, d, t, c, left);
      }
    }

    method CancelBuffer(i: nat, d: nat, t: nat, c: nat, budget: nat) returns (left: nat)
      requires Valid() && At(LapPc.Publish(i, d, t, c)) && draining
      modifies this
      ensures Valid() && Continues() && |frames| == old(|frames|) && At(LapEnd) && Spent(budget, left)
      ensures w.acquired == old(w.acquired) && old(w.log) <= w.log && HandedLast(Delivery(t, c, false, Cancelled)) && Stalled()
    {
      ghost var found := history;
      ReturnFrame(d, CancelDeliver(t, c));
      left := OthersRun(budget);
      HandBack(t, c, Cancelled, LapEnd);
      assert history[..|found|] == found;
    }

    method SubmitBuffer(i: nat, d: nat, t: nat, c: nat, budget: nat) returns (left: nat)
      requires Valid() && At(LapPc.Publish(i, d, t, c)) && !draining
      modifies this
      ensures Valid() && Continues() && |frames| == old(|frames|)
      ensures At(NextIteration(State(), i)) && Spent(budget, left)
      ensures w.acquired == old(w.acquired) && old(w.log) <= w.log && SubmittedIn(w.log, t)
    {
      PublishFrame(i, d, t, c);
      left := OthersRun(budget);
      BeginAttach(i, d);
      assert w.log[|w.log| - 1] == AttachSubmitted(d, t);
    }

    // PhotonicCapturePump. When the runner leaves, every pump call that reached the election
    // so far has been followed by the start of a lap.
    method Pump(budget: nat) returns (left: nat)
      requires Valid()
      modifies this
      ensures Valid() && Continues() && left <= budget
      ensures pumpActive || w.answered == w.calls
      ensures old(pumpActive) ==> pumpActive && pumpAgain
      ensures !old(pumpActive) ==> !pumpActive
    {
      left := budget;
      var elected := EnterPump();
      if !elected {
        return;
      }
      var again := true;
      while again
        invariant Valid() && Continues() && left <= budget
        invariant if again then At(LapStart) else !pumpActive
        decreases left, again
      {
        ClearAgain();
        // whatever the front-end has
        var offers: seq<Offer> := OffersFor(|frames|);
        var taken;
        left, taken := PumpLap(offers, left);
        left := OthersRun(left);
        again := Leave();
      }
      PumpElection(pool, history);
    }

    static method OffersFor(n: nat) returns (offers: seq<Offer>)
      ensures |offers| == n
    {
      offers := [];
      while |offers| < n
        invariant |offers| <= n
      {
        var offer: Offer := *;
        offers := offers + [offer];
      }
    }

    // ------------------------------------------------------------------------ the quiesce

    // Any finite number of steps of completions, pump calls and the bus driver.
    method Meanwhile()
      requires Valid()
      modifies this
      ensures Valid() && Continues() && Spares(old(State()), State())
    {
      var steps: nat := *;
      while steps > 0
        invariant Valid() && Continues() && Spares(old(State()), State())
      {
        var a: Action := *;
        steps := steps - 1;
        if !a.ByControlPlane() && Enabled(State(), a) {
          Elsewhere(a);
        }
      }
    }

    // One step outside the control context.
    method Elsewhere(a: Action)
      requires Valid() && !a.ByControlPlane() && Enabled(State(), a)
      modifies this
      ensures Valid() && Took(a) && Spares(old(State()), State())
      ensures State() == Apply(old(State()), a)
    {
      StepSpares(pool, history, State(), a);
      Load(Apply(State(), a));
      history := history + [a];
      TookValid(a);
    }

    method BeginDraining()
      requires Valid() && w.control.Idle? && !draining
      modifies this
      ensures Valid() && Took(CtlBeginDrain) && draining && w.control == QuiesceStop
    {
      draining := true;
      w := w.(control := QuiesceStop);
      history := history + [CtlBeginDrain];
      TookValid(CtlBeginDrain);
    }

    // The bus driver lets the frame callbacks it entered run before ISOCH_STOP returns.
    method RunEnteredCallbacks()
      requires Valid() && w.control.QuiesceStop?
      modifies this
      ensures Valid() && Continues() && w.control == old(w.control) && NoneFired(State())
    {
      var d := 0;
      while d < |frames|
        invariant Valid() && Continues() && w.control == old(w.control)
        invariant d <= |frames| && forall e :: 0 <= e < d ==> !frames[e].dma.DmaFired?
      {
        RunEntered(d);
        d := d + 1;
      }
    }

    method RunEntered(d: nat)
      requires Valid() && d < |frames|
      modifies this
      ensures Valid() && Continues() && w.control == old(w.control) && |frames| == old(|frames|)
      ensures !frames[d].dma.DmaFired?
      ensures forall e :: 0 <= e < |frames| && e != d ==> frames[e] == old(frames[e])
    {
      if frames[d].dma.DmaFired? {
        RunSnoc(Init(pool), history, RunCallback(d));
        TailNext(State(), RunCallback(d));
        CallbackDma(State(), d);
        IsochCallback(d);
      }
    }

    // PhotonicCaptureResourceIsochStop.
    method IsochStop()
      requires Valid() && w.control.QuiesceStop? && NoneFired(State())
      modifies this
      ensures Valid() && Took(CtlStop) && w.control == QuiesceClaim(1) && !listening
    {
      StopFacts(pool, history, State());
      w := w.(log := if resourceAllocated then w.log + [StopIssued] else w.log,
              stopped := w.stopped || resourceAllocated, control := QuiesceClaim(1));
      listening := listening && !resourceAllocated;
      history := history + [CtlStop];
      TookValid(CtlStop);
    }

    // One turn of the claim loop.
    method ClaimOne(pass: nat) returns (found: bool)
      requires Valid() && w.control == QuiesceClaim(pass)
      modifies this
      ensures Valid() && Took(CtlClaim) && draining == old(draining)
      ensures found ==> w.control.QuiesceSubmit? && w.control.pass == pass && w.control.d < |frames|
      ensures found ==> TotalRank(frames) < TotalRank(old(frames))
      // it takes the first Pending entry of the list, cancelled, or there is none
      ensures found ==>
                OnlyFrame(w.control.d) && old(frames)[w.control.d].state.Pending? &&
                frames[w.control.d].state.Detaching? && frames[w.control.d].completion.Cancelled?
      ensures !found ==> forall x :: x in pendingList && x < |frames| ==> !frames[x].state.Pending?
      ensures !found ==> w.control == QuiesceDrain(pass) && frames == old(frames) && pendingList == old(pendingList)
    {
      var i := FindPending(frames, pendingList);
      found := i < |pendingList|;
      if found {
        TakeForDetach(pass, pendingList[i]);
      } else {
        w := w.(control := QuiesceDrain(pass));
      }
      history := history + [CtlClaim];
      TookValid(CtlClaim);
    }

    method TakeForDetach(pass: nat, d: nat)
      requires d < |frames| && frames[d].state.Pending?
      modifies this
      ensures State() == ClaimPending(old(State()), pass, d) && Quietly() && draining == old(draining)
      ensures frames == old(frames)[d := old(frames[d]).(state := Detaching, completion := Cancelled, carrier := ByControl)]
      ensures TotalRank(frames) < TotalRank(old(frames))
    {
      MoveToDetach(pass, d);
      TotalRankFalls(old(frames), frames, d);
    }

    method MoveToDetach(pass: nat, d: nat)
      requires d < |frames| && frames[d].state.Pending?
      modifies this
      ensures State() == ClaimPending(old(State()), pass, d) && Quietly() && draining == old(draining)
      ensures frames == old(frames)[d := old(frames[d]).(state := Detaching, completion := Cancelled, carrier := ByControl)]
    {
      pendingList := RemoveEntry(pendingList, d);
      frames := frames[d := frames[d].(state := Detaching, completion := Cancelled, carrier := ByControl)];
      inFlight := inFlight + 1;
      w := w.(control := QuiesceSubmit(pass, d));
    }

    // PhotonicCapturePumpBeginDetach out of the claim loop.
    method BeginDetach(pass: nat, d: nat)
      requires Valid() && w.control == QuiesceSubmit(pass, d) && d < |frames|
      modifies this
      ensures Valid() && Took(CtlSubmit) && w.control == QuiesceClaim(pass) && draining == old(draining)
      ensures TotalRank(frames) <= TotalRank(old(frames))
    {
      frames := frames[d := frames[d].(carrier := ByBus)];
      w := w.(requests := w.requests + multiset{DetachRequest(d)}, log := w.log + [DetachSubmitted(d)],
              control := QuiesceClaim(pass));
      history := history + [CtlSubmit];
      TookValid(CtlSubmit);
      TotalRankFalls(old(frames), frames, -1);
    }

    // Detach every fully attached buffer. The claim lowers the rank and nothing raises it.
    method ClaimAll(pass: nat)
      requires Valid() && draining && w.control == QuiesceClaim(pass)
      modifies this
      ensures Valid() && Continues() && draining && w.control == QuiesceDrain(pass)
    {
      var found := true;
      while found
        invariant Valid() && Continues() && draining
        invariant w.control == (if found then QuiesceClaim(pass) else QuiesceDrain(pass))
        decreases found, TotalRank(frames)
      {
        found := ClaimAndDetach(pass);
      }
    }

    method ClaimAndDetach(pass: nat) returns (found: bool)
      requires Valid() && draining && w.control == QuiesceClaim(pass)
      modifies this
      ensures Valid() && Continues() && draining
      ensures w.control == (if found then QuiesceClaim(pass) else QuiesceDrain(pass))
      ensures found ==> TotalRank(frames) < TotalRank(old(frames))
    {
      Meanwhile();
      found := ClaimOne(pass);
      if found {
        var d := w.control.d;
        Meanwhile();
        BeginDetach(pass, d);
      }
    }

    // The wait for InFlightIrps: a finite number of steps of anybody else, then what is owed.
    method WaitDrained(pass: nat)
      requires Valid() && w.control == QuiesceDrain(pass)
      modifies this
      ensures Valid() && Continues() && w.control == QuiesceCheck(pass)
    {
      var left: nat := *;
      while inFlight != 0
        invariant Valid() && Continues() && w.control == QuiesceDrain(pass)
        decreases left, Weight(State())
      {
        var a: Action := *;
        if left > 0 && !a.ByControlPlane() && Enabled(State(), a) {
          left := left - 1;
          Elsewhere(a);
        } else {
          var st: Status, ok: bool := *, *;
          DrainIsSafe(pool, history, State());
          DrainProgress(pool, history, State(), st, ok);
          Elsewhere(OwedStep(State(), st, ok));
        }
      }
      SeeDrained(pass);
    }

    method SeeDrained(pass: nat)
      requires Valid() && w.control == QuiesceDrain(pass) && inFlight == 0
      modifies this
      ensures Valid() && Took(CtlDrained) && w.control == QuiesceCheck(pass)
    {
      w := w.(control := QuiesceCheck(pass));
      history := history + [CtlDrained];
      TookValid(CtlDrained);
    }

    method CheckPending(pass: nat) returns (more: bool)
      requires Valid() && w.control == QuiesceCheck(pass)
      modifies this
      ensures Valid() && Took(CtlCheck)
      ensures w.control == (if more then QuiesceClaim(pass + 1) else QuiescePumpIdle(pass))
    {
      more := pendingList != [];
      w := w.(control := if pendingList == [] then QuiescePumpIdle(pass) else QuiesceClaim(pass + 1));
      history := history + [CtlCheck];
      TookValid(CtlCheck);
    }

    // PhotonicCaptureTeardownWaitPumpIdle.
    method WaitPumpIdle()
      requires Valid() && draining && (w.control.QuiescePumpIdle? || w.control.Idle?)
      modifies this
      ensures Valid() && Continues() && Spares(old(State()), State()) && !pumpActive
    {
      var left: nat := *;
      while pumpActive
        invariant Valid() && Continues() && Spares(old(State()), State())
        decreases left, Weight(State())
      {
        var a: Action := *;
        if left > 0 && !a.ByControlPlane() && Enabled(State(), a) {
          left := left - 1;
          Elsewhere(a);
        } else {
          RunnerTurn();
        }
      }
    }

    // The runner of a draining engine nears its exit.
    method RunnerTurn()
      requires Valid() && draining && (w.control.QuiescePumpIdle? || w.control.Idle?) && pumpActive
      modifies this
      ensures Valid() && Took(RunLap(0, NoBuffer)) && Spares(old(State()), State())
      ensures Weight(State()) < Weight(old(State()))
    {
      DrainIsSafe(pool, history, State());
      RunnerProgress(pool, history, State());
      Elsewhere(RunLap(0, NoBuffer));
    }

    method SeePumpIdle(pass: nat)
      requires Valid() && w.control == QuiescePumpIdle(pass) && !pumpActive
      modifies this
      ensures Valid() && Took(CtlPumpIdle) && w.control == Settled && !pumpActive && !firstAttachDone
    {
      firstAttachDone := false;
      w := w.(control := Settled);
      history := history + [CtlPumpIdle];
      TookValid(CtlPumpIdle);
    }

    // PhotonicCaptureTeardownQuiesce: it terminates, after at most two passes of its outer
    // loop, and leaves every descriptor free or quarantined with nothing in flight.
    method Quiesce() returns (passes: nat)
      requires Valid() && (w.control.Idle? || w.control.Settled?)
      modifies this
      ensures Valid() && Continues() && passes <= 2 && draining && (w.control.Idle? || w.control.Settled?)
      ensures old(draining) ==> history == old(history) && State() == old(State())
      ensures !old(draining) ==> w.control == Settled && !pumpActive && !firstAttachDone
      ensures !old(draining) ==> inFlight == 0 && pendingList == [] && w.requests == multiset{}
      ensures HandedBack()
      ensures !old(draining) ==> forall d: nat :: d < |frames| ==>
                (d in freeList && frames[d].state.Free?) || (d !in freeList && frames[d].state.DetachFailed?)
    {
      passes := 0;
      if draining {
        SettledBack(pool, history, State());
        return;
      }
      RunningFacts(pool, history, State());
      StopContext();
      var more := true;
      while more
        invariant Valid() && Continues() && passes <= 2
        invariant w.control == (if more then QuiesceClaim(passes + 1) else QuiescePumpIdle(passes))
        decreases more, 2 - passes
      {
        TwoPasses(pool, history, State());
        passes := passes + 1;
        more := DrainPass(passes);
      }
      DrainIsSafe(pool, history, State());
      WaitPumpIdle();
      SeePumpIdle(passes);
      SettledOutcome();
    }

    lemma SettledOutcome()
      requires Valid() && w.control == Settled
      ensures draining && inFlight == 0 && pendingList == [] && w.requests == multiset{} && HandedBack()
      ensures forall d: nat :: d < |frames| ==>
                (d in freeList && frames[d].state.Free?) || (d !in freeList && frames[d].state.DetachFailed?)
    {
      DrainIsSafe(pool, history, State());
      SettledEngine(pool, history, State());
      SettledBack(pool, history, State());
    }

    method StopContext()
      requires Valid() && w.control.Idle? && !draining
      modifies this
      ensures Valid() && Continues() && w.control == QuiesceClaim(1)
    {
      BeginDraining();
      Meanwhile();
      RunEnteredCallbacks();
      IsochStop();
    }

    method DrainPass(pass: nat) returns (more: bool)
      requires Valid() && w.control == QuiesceClaim(pass)
      modifies this
      ensures Valid() && Continues()
      ensures w.control == (if more then QuiesceClaim(pass + 1) else QuiescePumpIdle(pass))
    {
      DrainIsSafe(pool, history, State());
      ClaimAll(pass);
      WaitDrained(pass);
      Meanwhile();
      more := CheckPending(pass);
    }

    // ------------------------------------------------------------------------ the release

    // PhotonicCaptureTeardownReleaseSessionResources, with the resource-handle step of
    // PhotonicCaptureResourceReleaseIsoch; o is what becomes of ISOCH_FREE_RESOURCES. What is
    // quarantined stays so unless the free of this call completed with success.
    method ReleaseSessionResources(o: FreeOutcome)
      requires Valid() && Enabled(State(), CtlRelease)
      modifies this
      ensures Valid() && Continues() && draining && w.control.Idle? && !listening && HandedBack() && First(CtlRelease)
      ensures resourceAllocated == (old(resourceAllocated) && o.NotSubmitted?)
      ensures HasQuarantined(State()) <==> old(HasQuarantined(State())) && !(old(resourceAllocated) && o.FreeSucceeded?)
    {
      ReleaseFacts(pool, history, State());
      BeginRelease();
      ghost var begun := history;
      FreeAndDeliver(o);
      assert history[|begun| - 1] == CtlRelease;
      RestingFacts(pool, history, State());
      SettledBack(pool, history, State());
    }

    method FreeAndDeliver(o: FreeOutcome)
      requires Valid() && w.control == ReleaseFree && draining
      modifies this
      ensures Valid() && Continues() && draining && w.control.Idle?
      ensures resourceAllocated == (old(resourceAllocated) && o.NotSubmitted?)
      ensures HasQuarantined(State()) <==> old(HasQuarantined(State())) && !(old(resourceAllocated) && o.FreeSucceeded?)
    {
      var flushed := resourceAllocated && o.FreeSucceeded?;
      var scan := FreeHandle(o);
      if scan {
        DeliverQuarantined(flushed);
      }
    }

    method BeginRelease()
      requires Valid() && Enabled(State(), CtlRelease)
      modifies this
      ensures Valid() && Took(CtlRelease) && w.control == ReleaseFree
      ensures frames == old(frames) && resourceAllocated == old(resourceAllocated) && draining == old(draining)
    {
      w := w.(control := ReleaseFree);
      history := history + [CtlRelease];
      TookValid(CtlRelease);
    }

    // PhotonicCaptureHasQuarantinedFrames.
    method HasQuarantinedFrames() returns (held: bool)
      ensures held == HasQuarantined(State())
    {
      var d := 0;
      while d < |frames|
        invariant d <= |frames| && forall e :: 0 <= e < d ==> !frames[e].state.DetachFailed?
      {
        if frames[d].state.DetachFailed? {
          return true;
        }
        d := d + 1;
      }
      return false;
    }

    method FreeHandle(o: FreeOutcome) returns (scan: bool)
      requires Valid() && w.control == ReleaseFree
      modifies this
      ensures Valid() && Took(CtlFree(o)) && frames == old(frames) && draining == old(draining)
      ensures resourceAllocated == (old(resourceAllocated) && o.NotSubmitted?)
      ensures scan == !(old(HasQuarantined(State())) && !Flushed(old(State()), o))
      ensures w.control == if scan then ReleaseScan(0, Flushed(old(State()), o)) else Idle
    {
      scan := SubmitFree(o);
      history := history + [CtlFree(o)];
      TookValid(CtlFree(o));
    }

    method SubmitFree(o: FreeOutcome) returns (scan: bool)
      modifies this
      ensures State() == FreeResources(old(State()), o) && Quietly()
      ensures scan == !(old(HasQuarantined(State())) && !Flushed(old(State()), o))
    {
      var reached := resourceAllocated && !o.NotSubmitted?;
      var flushed := reached && o.FreeSucceeded?;
      var held := HasQuarantinedFrames();
      scan := flushed || !held;
      resourceAllocated := resourceAllocated && !reached;
      w := w.(log := if reached then w.log + [ResourcesFreed(flushed)] else w.log,
              control := if scan then ReleaseScan(0, flushed) else Idle);
    }

    // The loop over the pool.
    method DeliverQuarantined(flushed: bool)
      requires Valid() && w.control == ReleaseScan(0, flushed)
      modifies this
      ensures Valid() && Continues() && w.control.Idle? && !HasQuarantined(State())
      ensures resourceAllocated == old(resourceAllocated) && draining
    {
      var i := 0;
      while i < |frames|
        invariant Valid() && Continues() && w.control == ReleaseScan(i, flushed)
        invariant i <= |frames| == old(|frames|) && resourceAllocated == old(resourceAllocated)
      {
        Meanwhile();
        ScanOne(i, flushed);
        i := i + 1;
      }
      ScanFacts(pool, history, State());
      EndScan(i, flushed);
    }

    method ScanOne(i: nat, flushed: bool)
      requires Valid() && w.control == ReleaseScan(i, flushed) && i < |frames|
      modifies this
      ensures Valid() && Continues() && w.control == ReleaseScan(i + 1, flushed)
      ensures |frames| == old(|frames|) && resourceAllocated == old(resourceAllocated)
    {
      if frames[i].state.DetachFailed? {
        var ticket, cookie := frames[i].ticket, frames[i].cookie;
        UnlinkQuarantined(i, flushed);
        Meanwhile();
        DeliverHeld(i, flushed, ticket, cookie);
      } else {
        PassFrame(i, flushed);
      }
    }

    method UnlinkQuarantined(i: nat, flushed: bool)
      requires Valid() && w.control == ReleaseScan(i, flushed) && i < |frames| && frames[i].state.DetachFailed?
      modifies this
      ensures Valid() && Took(CtlScan) && |frames| == old(|frames|) && resourceAllocated == old(resourceAllocated)
      ensures w.control == ReleaseDeliver(i, flushed, old(frames[i].ticket), old(frames[i].cookie))
    {
      RecycleQuarantined(i, flushed);
      history := history + [CtlScan];
      TookValid(CtlScan);
    }

    method RecycleQuarantined(i: nat, flushed: bool)
      requires i < |frames|
      modifies this
      ensures State() == ScanRecycle(old(State()), i, flushed) && Quietly()
    {
      var ticket, cookie := frames[i].ticket, frames[i].cookie;
      frames := frames[i := frames[i].(state := Free, cookie := 0)];
      freeList := freeList + [i];
      w := w.(location := Relocate(w.location, ticket, AtControl), control := ReleaseDeliver(i, flushed, ticket, cookie));
    }

    method DeliverHeld(i: nat, flushed: bool, t: nat, c: nat)
      requires Valid() && w.control == ReleaseDeliver(i, flushed, t, c)
      modifies this
      ensures Valid() && Took(CtlDeliver) && w.control == ReleaseScan(i + 1, flushed)
      ensures w.delivered == old(w.delivered) + [Delivery(t, c, false, Cancelled)]
      ensures |frames| == old(|frames|) && resourceAllocated == old(resourceAllocated)
    {
      w := w.(delivered := w.delivered + [Delivery(t, c, false, Cancelled)],
              location := Relocate(w.location, t, AtClient(|w.delivered|)), control := ReleaseScan(i + 1, flushed));
      history := history + [CtlDeliver];
      TookValid(CtlDeliver);
    }

    method PassFrame(i: nat, flushed: bool)
      requires Valid() && w.control == ReleaseScan(i, flushed) && i < |frames| && !frames[i].state.DetachFailed?
      modifies this
      ensures Valid() && Took(CtlScan) && w.control == ReleaseScan(i + 1, flushed)
      ensures |frames| == old(|frames|) && resourceAllocated == old(resourceAllocated)
    {
      w := w.(control := ReleaseScan(i + 1, flushed));
      history := history + [CtlScan];
      TookValid(CtlScan);
    }

    method EndScan(i: nat, flushed: bool)
      requires Valid() && w.control == ReleaseScan(i, flushed) && i >= |frames|
      modifies this
      ensures Valid() && Took(CtlScan) && w.control == Idle && frames == old(frames)
      ensures resourceAllocated == old(resourceAllocated) && draining == old(draining)
    {
      w := w.(control := Idle);
      history := history + [CtlScan];
      TookValid(CtlScan);
    }

    // ------------------------------------------------------------------- start and resume

    // The engine goes live: a start that holds the resource handle, or the resume after a
    // cancel resolution that quarantined nothing.
    method Open(a: Action)
      requires Valid() && (a.CtlOpen? || a.CtlResume?) && Enabled(State(), a)
      modifies this
      ensures Valid() && Took(a) && !draining && w.control == Idle && resourceAllocated == old(resourceAllocated)
      ensures !firstAttachDone && !w.stopped
    {
      GoLive();
      history := history + [a];
      TookValid(a);
    }

    method GoLive()
      modifies this
      ensures State() == OpenSession(old(State())) && Quietly() && !firstAttachDone && !w.stopped
    {
      draining, firstAttachDone := false, false;
      w := w.(stopped := false, control := Idle, log := w.log + [SessionOpened]);
    }

    method BeginStart()
      requires Valid() && Enabled(State(), CtlStartCheck)
      modifies this
      ensures Valid() && Took(CtlStartCheck) && w.control == Starting(false) && draining
      ensures resourceAllocated == old(resourceAllocated) && listening == old(listening)
    {
      w := w.(control := Starting(false));
      history := history + [CtlStartCheck];
      TookValid(CtlStartCheck);
    }

    // PhotonicCaptureResourceAllocateHandle, granted by the bus driver.
    method AllocateHandle()
      requires Valid() && w.control.Starting?
      modifies this
      ensures Valid() && Took(CtlAllocated) && w.control == Starting(true) && resourceAllocated
    {
      resourceAllocated := true;
      w := w.(control := Starting(true));
      history := history + [CtlAllocated];
      TookValid(CtlAllocated);
    }

    // PhotonicCaptureEnsureListen: only a live engine with a buffer on its list listens.
    // It waits for the first attach while others run, and gives up when none was signalled;
    // `granted` tells whether the bus driver accepts the listen.
    method EnsureListen(granted: bool)
      requires Valid() && w.control.Idle?
      modifies this
      ensures Valid() && Continues() && w.control.Idle? && draining == old(draining)
      ensures resourceAllocated == old(resourceAllocated)
      ensures old(listening) ==> listening
      ensures listening && !old(listening) ==> !draining && firstAttachDone && granted
      // once the first attach is signalled and the listen granted, it listens unless there is
      // nothing to listen for
      ensures granted && firstAttachDone ==> listening || draining || pendingList == []
      ensures draining || old(listening) ==> history == old(history)
    {
      if draining || listening || pendingList == [] {
        return;
      }
      Meanwhile();
      if !firstAttachDone {
        return;
      }
      if draining || listening || pendingList == [] || !granted {
        return;
      }
      Listen();
    }

    method Listen()
      requires Valid() && w.control.Idle? && !draining
      modifies this
      ensures Valid() && Took(CtlListen) && w.control.Idle? && listening && !draining
      ensures resourceAllocated == old(resourceAllocated) && firstAttachDone == old(firstAttachDone)
      ensures pendingList == old(pendingList)
    {
      listening := true;
      w := w.(log := w.log + [ListenIssued]);
      history := history + [CtlListen];
      TookValid(CtlListen);
    }
  }
}
