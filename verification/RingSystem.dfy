// The composed machine: the engine fed by the ring, and the ring's own control requests,
// which run under InterfaceMutex between control transitions of the engine.

module RingSystem {
  import opened EngineModel
  import opened EngineInvariant
  import opened EnginePlane
  import opened EngineControl
  import opened EngineTheorems
  import opened RingModel
  import opened EngineFlows

  datatype System = System(e: Engine, r: Ring)

  datatype Move =
    | EngineStep(a: Action)
    | MapRing(count: nat)
    | UnmapRing
    | RequeueRing
    | SelectMode(pumpRing: bool, oneShot: bool)

  // PhotonicCaptureCookieQuarantined, for every cookie.
  function HeldCookies(s: Engine): set<nat> {
    set d | 0 <= d < |s.frames| && s.frames[d].state.DetachFailed? :: s.frames[d].cookie
  }

  // The acquire callback is the ring's: it offers the slot in turn, or nothing.
  predicate OfferMatches(s: Engine, r: Ring, a: Action) {
    a.RunLap? && a.k < |s.runners| && s.runners[a.k].pc.Acquire? ==>
      if Ready(r) then a.offer.Buffer? && a.offer.c == r.next else a.offer.NoBuffer?
  }

  // Map: nothing mapped, nothing quarantined. Unmap: right after the stop it begins with.
  // A start may change the mode of an idle engine only.
  predicate Allowed(sys: System, m: Move) {
    match m
    case EngineStep(a) => Enabled(sys.e, a) && OfferMatches(sys.e, sys.r, a)
    case MapRing(count) =>
      sys.e.control.Idle? && sys.r.mapped == 0 && !HasQuarantined(sys.e) && 1 <= count <= MAX_VIDEO_FRAMES
    case UnmapRing => sys.e.control.Idle? && sys.e.draining
    case RequeueRing => true
    case SelectMode(_, _) => sys.e.control.Idle? && sys.e.draining
  }

  // The callback an engine step makes, if it makes one.
  function RingAfter(r: Ring, before: Engine, after: Engine): Ring {
    if |after.acquired| > |before.acquired| && Ready(r) then AcquireSlot(r, |before.acquired|)
    else if |after.delivered| > |before.delivered| then
      DeliverSlot(r, after.delivered[|before.delivered|].c, after.delivered[|before.delivered|].full)
    else r
  }

  function Moved(sys: System, m: Move): System
    requires Allowed(sys, m)
  {
    match m
    case EngineStep(a) => System(Apply(sys.e, a), RingAfter(sys.r, sys.e, Apply(sys.e, a)))
    case MapRing(count) => sys.(r := MapSlots(sys.r, count, |sys.e.acquired|, |sys.e.delivered|))
    case UnmapRing => sys.(r := UnmapSlots(sys.r, HeldCookies(sys.e), |sys.e.acquired|, |sys.e.delivered|))
    // the requeue ends with a pump call
    case RequeueRing => System(Apply(sys.e, CallPump), RequeueSlots(sys.r))
    case SelectMode(pumpRing, oneShot) => sys.(r := sys.r.(pumpRing := pumpRing, oneShot := oneShot))
  }

  // PhotonicIoctlCapturePrepare.
  function Prepared(n: nat): System {
    System(Init(n), EmptyRing())
  }

  function Play(n: nat, moves: seq<Move>): System
    decreases |moves|
  {
    if moves == [] then Prepared(n)
    else
      var sys := Play(n, moves[..|moves| - 1]);
      if Allowed(sys, moves[|moves| - 1]) then Moved(sys, moves[|moves| - 1]) else sys
  }

  // The engine's part of it: every theorem about schedules of the engine applies.
  function EnginePart(n: nat, moves: seq<Move>): seq<Action>
    decreases |moves|
  {
    if moves == [] then []
    else
      var m := moves[|moves| - 1];
      EnginePart(n, moves[..|moves| - 1]) +
      (if m.RequeueRing? then [CallPump]
       else if m.EngineStep? && Allowed(Play(n, moves[..|moves| - 1]), m) then [m.a] else [])
  }

  lemma {:induction false} EngineRefines(n: nat, moves: seq<Move>)
    ensures Play(n, moves).e == Run(Init(n), EnginePart(n, moves))
    decreases |moves|
  {
    if moves != [] {
      var before, m := moves[..|moves| - 1], moves[|moves| - 1];
      EngineRefines(n, before);
      if m.RequeueRing? {
        RunSnoc(Init(n), EnginePart(n, before), CallPump);
        assert EnginePart(n, moves) == EnginePart(n, before) + [CallPump];
      } else if m.EngineStep? && Allowed(Play(n, before), m) {
        RunSnoc(Init(n), EnginePart(n, before), m.a);
        assert EnginePart(n, moves) == EnginePart(n, before) + [m.a];
      } else {
        assert EnginePart(n, moves) == EnginePart(n, before);
      }
    }
  }

  // ---------------------------------------------------------------------- ring and engine

  predicate Agrees(sys: System) {
    RingOk(sys.r, sys.e.acquired, Gone(sys.e), StuckTickets(sys.e))
  }

  lemma EngineStepAgrees(n: nat, schedule: seq<Action>, sys: System, a: Action)
    requires sys.e == Run(Init(n), schedule) && Agrees(sys) && Enabled(sys.e, a) && OfferMatches(sys.e, sys.r, a)
    ensures Agrees(Moved(sys, EngineStep(a)))
  {
    var s, s', r := sys.e, Apply(sys.e, a), sys.r;
    StepFlows(s, a);
    GoneGrows(n, schedule, s, a);
    GoneDelivered(n, schedule, s);
    forall t: nat | Stuck(s, t) ensures Stuck(s', t) || t in Gone(s') { StuckStays(n, schedule, s, a, t); }
    if |s'.acquired| > |s.acquired| {
      AcquireOk(r, s.acquired, Gone(s), StuckTickets(s));
      SameOk(AcquireSlot(r, |s.acquired|), s'.acquired, Gone(s'), StuckTickets(s), StuckTickets(s'));
    } else if |s'.delivered| > |s.delivered| {
      var v := s'.delivered[|s.delivered|];
      DeliverOk(r, s.acquired, Gone(s), StuckTickets(s), v.t, v.full);
      SameOk(DeliverSlot(r, v.c, v.full), s'.acquired, Gone(s'), StuckTickets(s), StuckTickets(s'));
    } else {
      SameOk(r, s.acquired, Gone(s), StuckTickets(s), StuckTickets(s'));
    }
  }

  // What the engine holds between control transitions while idle: quarantined buffers.
  lemma IdleHolds(n: nat, schedule: seq<Action>, s: Engine, t: nat)
    requires s == Run(Init(n), schedule) && s.control.Idle? && s.draining && t < |s.acquired| && t !in Gone(s)
    ensures Stuck(s, t) && s.acquired[t] in HeldCookies(s)
  {
    RunInv(n, schedule);
    DrainedFacts(s);
    SettledFrames(s);
    assert BufferOk(s, t);
    assert s.location[t].AtFrame?;
    assert FrameOk(s, s.location[t].d);
  }

  lemma HeldTickets(n: nat, schedule: seq<Action>, s: Engine, i: nat)
    requires s == Run(Init(n), schedule) && i in HeldCookies(s)
    ensures exists t :: 0 <= t < |s.acquired| && t !in Gone(s) && s.acquired[t] == i
  {
    RunInv(n, schedule);
    var d :| 0 <= d < |s.frames| && s.frames[d].state.DetachFailed? && s.frames[d].cookie == i;
    assert FrameOk(s, d);
    assert s.frames[d].ticket !in Gone(s);
  }

  lemma NoneStuck(n: nat, schedule: seq<Action>, s: Engine)
    requires s == Run(Init(n), schedule) && s.control.Idle? && !HasQuarantined(s)
    ensures StuckTickets(s) == {}
  {
    forall t: nat | Stuck(s, t) ensures false {
      if s.location[t].AtControl? { ControlHolds(n, schedule, s, t); }
    }
  }

  lemma UnmapAgrees(n: nat, schedule: seq<Action>, sys: System)
    requires sys.e == Run(Init(n), schedule) && Agrees(sys) && sys.e.control.Idle? && sys.e.draining
    ensures Agrees(Moved(sys, UnmapRing))
    ensures forall i :: 0 <= i < MAX_VIDEO_FRAMES ==>
              (Moved(sys, UnmapRing).r.slots[i].locked <==> i in HeldCookies(sys.e))
  {
    var s := sys.e;
    GoneDelivered(n, schedule, s);
    forall t | 0 <= t < |s.acquired| && t !in Gone(s)
      ensures t in StuckTickets(s) && s.acquired[t] in HeldCookies(s)
    {
      IdleHolds(n, schedule, s, t);
    }
    forall i | i in HeldCookies(s) ensures exists t :: 0 <= t < |s.acquired| && t !in Gone(s) && s.acquired[t] == i {
      HeldTickets(n, schedule, s, i);
    }
    UnmapOk(sys.r, s.acquired, Gone(s), StuckTickets(s), HeldCookies(s), |s.delivered|);
  }

  lemma MoveAgrees(n: nat, schedule: seq<Action>, sys: System, m: Move)
    requires sys.e == Run(Init(n), schedule) && Agrees(sys) && Allowed(sys, m)
    ensures Agrees(Moved(sys, m))
  {
    var s := sys.e;
    match m
    case EngineStep(a) => EngineStepAgrees(n, schedule, sys, a);
    case MapRing(count) =>
      NoneStuck(n, schedule, s);
      MapOk(sys.r, s.acquired, Gone(s), count, |s.delivered|);
    case UnmapRing => UnmapAgrees(n, schedule, sys);
    case RequeueRing =>
      RequeueOk(sys.r, s.acquired, Gone(s), StuckTickets(s));
      assert Gone(Apply(s, CallPump)) == Gone(s) && StuckTickets(Apply(s, CallPump)) == StuckTickets(s);
    case SelectMode(pumpRing, oneShot) => ModeOk(sys.r, pumpRing, oneShot, s.acquired, Gone(s), StuckTickets(s));
  }

  lemma {:induction false} RingAgrees(n: nat, moves: seq<Move>)
    ensures Agrees(Play(n, moves))
    decreases |moves|
  {
    if moves == [] {
      EmptyRingOk();
      assert Gone(Init(n)) == {} && StuckTickets(Init(n)) == {};
    } else {
      RingAgrees(n, moves[..|moves| - 1]);
      EngineRefines(n, moves[..|moves| - 1]);
      var sys := Play(n, moves[..|moves| - 1]);
      if Allowed(sys, moves[|moves| - 1]) {
        MoveAgrees(n, EnginePart(n, moves[..|moves| - 1]), sys, moves[|moves| - 1]);
      }
    }
  }

  // Who has cookie c: a descriptor, the pump lap, a completion routine or a release.
  predicate EngineHolds(s: Engine, c: nat) {
    || (exists d :: 0 <= d < |s.frames| && s.frames[d].Holds() && s.frames[d].cookie == c)
    || (|s.runners| == 1 && LapTakes(s.runners[0].pc) && s.runners[0].pc.c == c)
    || (exists t :: 0 <= t < |s.location| && s.location[t].AtTail? && s.location[t].c == c)
    || (s.control.ReleaseDeliver? && s.control.c == c)
  }

  lemma HolderTicket(n: nat, schedule: seq<Action>, s: Engine, c: nat)
    requires s == Run(Init(n), schedule) && EngineHolds(s, c)
    ensures exists t :: 0 <= t < |s.acquired| && t !in Gone(s) && s.acquired[t] == c
  {
    RunInv(n, schedule);
    if d :| 0 <= d < |s.frames| && s.frames[d].Holds() && s.frames[d].cookie == c {
      assert FrameOk(s, d);
      assert s.frames[d].ticket !in Gone(s);
    } else if |s.runners| == 1 && LapTakes(s.runners[0].pc) && s.runners[0].pc.c == c {
      assert s.runners[0].pc.t !in Gone(s);
    } else if t :| 0 <= t < |s.location| && s.location[t].AtTail? && s.location[t].c == c {
      assert BufferOk(s, t);
      assert t !in Gone(s);
    } else {
      assert s.control.t !in Gone(s);
    }
  }

  lemma TicketHolder(n: nat, schedule: seq<Action>, s: Engine, t: nat)
    requires s == Run(Init(n), schedule) && t < |s.acquired| && t !in Gone(s)
    ensures EngineHolds(s, s.acquired[t])
  {
    RunInv(n, schedule);
    assert BufferOk(s, t);
    if s.location[t].AtFrame? { assert FrameOk(s, s.location[t].d); }
  }

  lemma CookieOf(n: nat, schedule: seq<Action>, s: Engine, d: nat)
    requires s == Run(Init(n), schedule) && d < |s.frames| && s.frames[d].Holds()
    ensures s.frames[d].ticket < |s.acquired| == |s.location| && s.frames[d].ticket !in Gone(s)
    ensures s.acquired[s.frames[d].ticket] == s.frames[d].cookie && s.location[s.frames[d].ticket] == AtFrame(d)
  {
    RunInv(n, schedule);
    assert FrameOk(s, d);
  }

  // Ring and engine agree, whatever interleaves: a slot is in flight exactly when the engine
  // holds its cookie, its pages are locked as long as it is, and no two descriptors hold one
  // slot.
  lemma OneHolder(n: nat, moves: seq<Move>)
    ensures var sys := Play(n, moves);
      && |sys.r.slots| == MAX_VIDEO_FRAMES
      && (forall i :: 0 <= i < MAX_VIDEO_FRAMES ==> (sys.r.slots[i].state.InFlight? <==> EngineHolds(sys.e, i)))
      && (forall i :: 0 <= i < MAX_VIDEO_FRAMES && sys.r.slots[i].state.InFlight? ==> sys.r.slots[i].locked)
      && (forall c: nat :: EngineHolds(sys.e, c) ==> c < MAX_VIDEO_FRAMES)
      && (forall d, e :: 0 <= d < e < |sys.e.frames| && sys.e.frames[d].Holds() && sys.e.frames[e].Holds() ==>
            sys.e.frames[d].cookie != sys.e.frames[e].cookie)
  {
    var sys, part := Play(n, moves), EnginePart(n, moves);
    RingAgrees(n, moves);
    EngineRefines(n, moves);
    var s, r := sys.e, sys.r;
    GoneDelivered(n, part, s);
    forall i | 0 <= i < MAX_VIDEO_FRAMES && r.slots[i].state.InFlight? ensures EngineHolds(s, i) && r.slots[i].locked {
      assert SlotOk(r, s.acquired, Gone(s), StuckTickets(s), i);
      TicketHolder(n, part, s, r.slots[i].ticket);
    }
    forall c: nat | EngineHolds(s, c) ensures c < MAX_VIDEO_FRAMES && r.slots[c].state.InFlight? {
      HolderTicket(n, part, s, c);
      var t :| 0 <= t < |s.acquired| && t !in Gone(s) && s.acquired[t] == c;
      assert TicketOk(r, s.acquired, Gone(s), t);
    }
    forall d, e | 0 <= d < e < |s.frames| && s.frames[d].Holds() && s.frames[e].Holds()
      ensures s.frames[d].cookie != s.frames[e].cookie
    {
      CookieOf(n, part, s, d);
      CookieOf(n, part, s, e);
      assert TicketOk(r, s.acquired, Gone(s), s.frames[d].ticket);
      assert TicketOk(r, s.acquired, Gone(s), s.frames[e].ticket);
    }
  }

  // An unmap unlocks every slot but those a quarantined descriptor holds, and a new ring is
  // mapped only over slots nobody holds.
  lemma UnmapKeepsQuarantine(n: nat, moves: seq<Move>, sys: System)
    requires sys == Play(n, moves) && Allowed(sys, UnmapRing)
    ensures var r' := Moved(sys, UnmapRing).r;
      |r'.slots| == MAX_VIDEO_FRAMES &&
      forall i :: 0 <= i < MAX_VIDEO_FRAMES ==> (r'.slots[i].locked <==> i in HeldCookies(sys.e))
  {
    RingAgrees(n, moves);
    EngineRefines(n, moves);
    UnmapAgrees(n, EnginePart(n, moves), sys);
  }

  lemma MapOverFree(n: nat, moves: seq<Move>, sys: System, count: nat)
    requires sys == Play(n, moves) && Allowed(sys, MapRing(count))
    ensures forall c: nat :: !EngineHolds(sys.e, c)
  {
    RingAgrees(n, moves);
    EngineRefines(n, moves);
    var part := EnginePart(n, moves);
    NoneStuck(n, part, sys.e);
    GoneDelivered(n, part, sys.e);
    MapOk(sys.r, sys.e.acquired, Gone(sys.e), count, |sys.e.delivered|);
    forall c: nat | EngineHolds(sys.e, c) ensures false {
      HolderTicket(n, part, sys.e, c);
    }
  }

  // A requeue takes back every slot the caller has: when the next slot in turn was one of
  // them, the ring has something to hand out again, and a pump call is on its way to the
  // election.
  lemma RequeueReady(n: nat, moves: seq<Move>, sys: System)
    requires sys == Play(n, moves) && sys.r.pumpRing && sys.r.mapped > 0
    ensures var sys' := Play(n, moves + [RequeueRing]);
      && sys.r.next < |sys.r.slots| == |sys'.r.slots| && sys.r.mapped <= |sys.r.slots|
      && (sys.r.slots[sys.r.next].state.Delivered? ==> Ready(sys'.r))
      && (Ready(sys.r) ==> Ready(sys'.r))
      && (forall i :: 0 <= i < sys.r.mapped ==> !sys'.r.slots[i].state.Delivered?)
      && sys'.e.entering == sys.e.entering + 1
  {
    assert (moves + [RequeueRing])[..|moves|] == moves;
    RingAgrees(n, moves);
  }

  // A map starts over with its first count slots locked and queued, ready when the session
  // pumps the ring.
  lemma MapReady(n: nat, moves: seq<Move>, sys: System, count: nat)
    requires sys == Play(n, moves) && Allowed(sys, MapRing(count))
    ensures var r' := Play(n, moves + [MapRing(count)]).r;
      && |r'.slots| == MAX_VIDEO_FRAMES && r'.mapped == count && r'.next == 0 && r'.total == 0 && r'.current == -1
      && (forall i :: 0 <= i < MAX_VIDEO_FRAMES ==> r'.slots[i].state.Queued? && (r'.slots[i].locked <==> i < count))
      && (r'.pumpRing ==> Ready(r'))
  {
    assert (moves + [MapRing(count)])[..|moves|] == moves;
    RingAgrees(n, moves);
  }

  // From the mapping on, slots reach the engine in index order, around and around.
  lemma SlotsRotate(n: nat, moves: seq<Move>, sys: System, t: nat)
    requires sys == Play(n, moves) && sys.r.mapped > 0 && sys.r.base <= t < |sys.e.acquired|
    ensures sys.e.acquired[t] == (t - sys.r.base) % sys.r.mapped
  {
    RingAgrees(n, moves);
    assert RotationOk(sys.r, sys.e.acquired);
  }

  // A full frame of a single-frame session passes its slot to the caller; any other delivery
  // puts it back in the rotation.
  lemma DeliveryPasses(n: nat, moves: seq<Move>, sys: System, a: Action)
    requires sys == Play(n, moves) && Allowed(sys, EngineStep(a)) && |Apply(sys.e, a).delivered| > |sys.e.delivered|
    ensures var v, r' := Apply(sys.e, a).delivered[|sys.e.delivered|], Moved(sys, EngineStep(a)).r;
      v.c < MAX_VIDEO_FRAMES == |r'.slots| && sys.r.slots[v.c].state.InFlight? &&
      r'.slots[v.c].state == (if v.full && sys.r.oneShot then SlotState.Delivered else Queued)
  {
    RingAgrees(n, moves);
    EngineRefines(n, moves);
    var part := EnginePart(n, moves);
    StepFlows(sys.e, a);
    GoneGrows(n, part, sys.e, a);
    GoneDelivered(n, part, sys.e);
    assert TicketOk(sys.r, sys.e.acquired, Gone(sys.e), Apply(sys.e, a).delivered[|sys.e.delivered|].t);
  }

  // The caller keeps it, whatever the engine does, until it is requeued, unmapped or remapped.
  lemma CallerKeeps(n: nat, moves: seq<Move>, sys: System, a: Action, i: nat)
    requires sys == Play(n, moves) && Allowed(sys, EngineStep(a))
    requires i < |sys.r.slots| && sys.r.slots[i].state.Delivered?
    ensures var r' := Moved(sys, EngineStep(a)).r; i < |r'.slots| && r'.slots[i] == sys.r.slots[i]
  {
    var after := Apply(sys.e, a);
    if |after.delivered| > |sys.e.delivered| { DeliveryPasses(n, moves, sys, a); }
    SlotUntouched(sys.r, sys.e, after, i);
  }

  lemma SlotUntouched(r: Ring, before: Engine, after: Engine, i: nat)
    requires i < |r.slots| && r.slots[i].state.Delivered?
    requires |after.delivered| > |before.delivered| ==> after.delivered[|before.delivered|].c != i
    ensures i < |RingAfter(r, before, after).slots| && RingAfter(r, before, after).slots[i] == r.slots[i]
  {
  }

  // ------------------------------------------------------------------- GET_TRANSFER_INFO

  // Full deliveries since the bookkeeping was reset, and the slot of the last of them.
  function FullCount(delivered: seq<Delivery>, since: nat): nat
    decreases |delivered|
  {
    if |delivered| <= since then 0
    else FullCount(delivered[..|delivered| - 1], since) + (if delivered[|delivered| - 1].full then 1 else 0)
  }

  function LastFull(delivered: seq<Delivery>, since: nat): int
    decreases |delivered|
  {
    if |delivered| <= since then -1
    else if delivered[|delivered| - 1].full then delivered[|delivered| - 1].c
    else LastFull(delivered[..|delivered| - 1], since)
  }

  predicate Reports(r: Ring, delivered: seq<Delivery>) {
    && r.since <= |delivered|
    && r.total == FullCount(delivered, r.since)
    && r.current == LastFull(delivered, r.since)
  }

  lemma OneMoreReports(r: Ring, delivered: seq<Delivery>, v: Delivery)
    requires Reports(r, delivered) && v.c < |r.slots|
    ensures Reports(DeliverSlot(r, v.c, v.full), delivered + [v])
  {
    assert (delivered + [v])[..|delivered|] == delivered;
  }

  lemma CallbackReports(r: Ring, before: Engine, after: Engine)
    requires Reports(r, before.delivered)
    requires after.delivered == before.delivered ||
             (after.acquired == before.acquired && |after.delivered| == |before.delivered| + 1 &&
              after.delivered[..|before.delivered|] == before.delivered &&
              after.delivered[|before.delivered|].c < |r.slots|)
    ensures Reports(RingAfter(r, before, after), after.delivered)
  {
    if |after.delivered| > |before.delivered| {
      var v := after.delivered[|before.delivered|];
      assert after.delivered == before.delivered + [v];
      OneMoreReports(r, before.delivered, v);
    }
  }

  // What the callback of an engine step leaves in the bookkeeping.
  lemma EngineStepReports(n: nat, schedule: seq<Action>, sys: System, a: Action)
    requires sys.e == Run(Init(n), schedule) && Agrees(sys) && Reports(sys.r, sys.e.delivered)
    requires Enabled(sys.e, a)
    ensures Reports(RingAfter(sys.r, sys.e, Apply(sys.e, a)), Apply(sys.e, a).delivered)
  {
    StepFlows(sys.e, a);
    if |Apply(sys.e, a).delivered| > |sys.e.delivered| { DeliveredInRange(n, schedule, sys, a); }
    CallbackReports(sys.r, sys.e, Apply(sys.e, a));
  }

  lemma DeliveredInRange(n: nat, schedule: seq<Action>, sys: System, a: Action)
    requires sys.e == Run(Init(n), schedule) && Agrees(sys) && Enabled(sys.e, a)
    requires |Apply(sys.e, a).delivered| > |sys.e.delivered|
    ensures Apply(sys.e, a).acquired == sys.e.acquired
    ensures Apply(sys.e, a).delivered[|sys.e.delivered|].c < |sys.r.slots|
  {
    GoneGrows(n, schedule, sys.e, a);
    GoneDelivered(n, schedule, sys.e);
    assert TicketOk(sys.r, sys.e.acquired, Gone(sys.e), Apply(sys.e, a).delivered[|sys.e.delivered|].t);
  }

  lemma MoveReports(sys: System, m: Move)
    requires Reports(sys.r, sys.e.delivered) && Allowed(sys, m) && !m.EngineStep?
    ensures Reports(Moved(sys, m).r, Moved(sys, m).e.delivered)
  {
    match m
    case MapRing(_) =>
    case UnmapRing =>
    case RequeueRing =>
    case SelectMode(_, _) =>
  }

  // What PHOTONIC_IOCTL_GET_TRANSFER_INFO reports is the history of deliveries since the map.
  lemma {:induction false} TransferInfo(n: nat, moves: seq<Move>)
    ensures Reports(Play(n, moves).r, Play(n, moves).e.delivered)
    decreases |moves|
  {
    if moves != [] {
      var before, m := moves[..|moves| - 1], moves[|moves| - 1];
      TransferInfo(n, before);
      if Allowed(Play(n, before), m) { TransferStep(n, before, m); }
    }
  }

  lemma TransferStep(n: nat, before: seq<Move>, m: Move)
    requires var sys := Play(n, before); Allowed(sys, m) && Reports(sys.r, sys.e.delivered)
    ensures var sys' := Moved(Play(n, before), m); Reports(sys'.r, sys'.e.delivered)
  {
    if m.EngineStep? {
      RingAgrees(n, before);
      EngineRefines(n, before);
      EngineStepReports(n, EnginePart(n, before), Play(n, before), m.a);
    } else {
      MoveReports(Play(n, before), m);
    }
  }
}
