// The inductive invariant of the engine, and the bus driver's own view of a run.

module BusMonitor {
  import opened EngineModel

  // What the bus driver can tell about one descriptor from the requests it saw.
  datatype Port =
    | PortIdle
    | PortAttaching(frameDone: bool)
    | PortAttached(frameDone: bool)
    | PortDetaching
    | PortStuck

  // The protocol monitor: it reads only the log. `last` is the newest ticket attached.
  datatype Monitor = Bad | Good(ports: seq<Port>, stopped: bool, last: int)

  predicate AllIdle(ports: seq<Port>) {
    forall d :: 0 <= d < |ports| ==> ports[d].PortIdle?
  }

  predicate NothingLive(ports: seq<Port>) {
    forall d :: 0 <= d < |ports| ==> ports[d].PortIdle? || ports[d].PortStuck?
  }

  function Observe(m: Monitor, e: BusEvent): Monitor {
    if m.Bad? then Bad
    else
      match e
      case AttachSubmitted(d, t) =>
        // the descriptor's IRP is idle, nothing is attached through it, buffers come in order
        if d < |m.ports| && m.ports[d].PortIdle? && t > m.last
        then m.(ports := m.ports[d := PortAttaching(false)], last := t) else Bad
      case AttachEnded(d, ok) =>
        if d < |m.ports| && m.ports[d].PortAttaching? && (ok || !m.ports[d].frameDone)
        then m.(ports := m.ports[d := if ok then PortAttached(m.ports[d].frameDone) else PortIdle]) else Bad
      case FrameDone(d) =>
        if d < |m.ports| && (m.ports[d].PortAttaching? || m.ports[d].PortAttached?) && !m.ports[d].frameDone && !m.stopped
        then m.(ports := m.ports[d := if m.ports[d].PortAttaching? then PortAttaching(true) else PortAttached(true)])
        else Bad
      case DetachSubmitted(d) =>
        // an incomplete buffer is detached only from a stopped context
        if d < |m.ports| && m.ports[d].PortAttached? && (m.ports[d].frameDone || m.stopped)
        then m.(ports := m.ports[d := PortDetaching]) else Bad
      case DetachEnded(d, ok) =>
        if d < |m.ports| && m.ports[d].PortDetaching?
        then m.(ports := m.ports[d := if ok then PortIdle else PortStuck]) else Bad
      case StopIssued => m.(stopped := true)
      case ListenIssued => if m.stopped then Bad else m
      case ResourcesFreed(ok) =>
        // the resource goes away only with no attach, no attached buffer and no detach left
        if NothingLive(m.ports)
        then (if ok then m.(ports := seq(|m.ports|, d => PortIdle)) else m) else Bad
      case SessionOpened => if AllIdle(m.ports) then m.(stopped := false) else Bad
  }

  function Watch(n: nat, log: seq<BusEvent>): Monitor
    decreases |log|
  {
    if log == [] then Good(seq(n, d => PortIdle), true, -1)
    else Observe(Watch(n, log[..|log| - 1]), log[|log| - 1])
  }

  lemma WatchSnoc(n: nat, log: seq<BusEvent>, e: BusEvent)
    ensures Watch(n, log + [e]) == Observe(Watch(n, log), e)
  {
    assert (log + [e])[..|log|] == log;
  }
}

module EngineInvariant {
  import opened EngineModel
  import opened BusMonitor

  // ------------------------------------------------------------------ lists and counting

  predicate NoDup(list: seq<nat>) {
    forall i, j :: 0 <= i < j < |list| ==> list[i] != list[j]
  }

  predicate Below(list: seq<nat>, n: nat) {
    forall i :: 0 <= i < |list| ==> list[i] < n
  }

  lemma {:induction false} RemoveMembers(list: seq<nat>, d: nat)
    requires NoDup(list)
    ensures forall x :: x in Remove(list, d) <==> x in list && x != d
  {
    if list != [] {
      assert forall x :: x in list <==> x == list[0] || x in list[1..];
      assert list[0] !in list[1..];
      if list[0] != d { RemoveMembers(list[1..], d); }
    }
  }

  lemma {:induction false} RemoveFacts(list: seq<nat>, d: nat, n: nat)
    requires NoDup(list) && Below(list, n)
    ensures NoDup(Remove(list, d)) && Below(Remove(list, d), n)
    ensures forall x :: x in Remove(list, d) <==> x in list && x != d
  {
    RemoveMembers(list, d);
    if list != [] && list[0] != d {
      RemoveFacts(list[1..], d, n);
      assert list[0] !in list[1..];
    }
  }

  // Descriptors whose detach a completion routine or frame callback must still submit.
  function TailFrames(frames: seq<Frame>): nat
    decreases |frames|
  {
    if frames == [] then 0
    else TailFrames(frames[..|frames| - 1]) + (if frames[|frames| - 1].carrier.ByTail? then 1 else 0)
  }

  lemma {:induction false} TailFramesUpdate(frames: seq<Frame>, d: nat, f: Frame)
    requires d < |frames|
    ensures TailFrames(frames[d := f]) ==
            TailFrames(frames) - (if frames[d].carrier.ByTail? then 1 else 0) + (if f.carrier.ByTail? then 1 else 0)
    decreases |frames|
  {
    var n := |frames| - 1;
    if d == n {
      assert frames[d := f][..n] == frames[..n];
    } else {
      TailFramesUpdate(frames[..n], d, f);
      assert frames[d := f][..n] == frames[..n][d := f];
    }
  }

  lemma {:induction false} TailFramesPositive(frames: seq<Frame>, d: nat)
    requires d < |frames| && frames[d].carrier.ByTail?
    ensures TailFrames(frames) > 0
    decreases |frames|
  {
    if d < |frames| - 1 { TailFramesPositive(frames[..|frames| - 1], d); }
  }

  lemma {:induction false} TailFramesNone(frames: seq<Frame>)
    requires forall d :: 0 <= d < |frames| ==> !frames[d].carrier.ByTail?
    ensures TailFrames(frames) == 0
    decreases |frames|
  {
    if frames != [] { TailFramesNone(frames[..|frames| - 1]); }
  }

  // Buffers a completion routine must still deliver.
  function TailBuffers(location: seq<Location>): nat
    decreases |location|
  {
    if location == [] then 0
    else TailBuffers(location[..|location| - 1]) + (if location[|location| - 1].AtTail? then 1 else 0)
  }

  lemma {:induction false} TailBuffersUpdate(location: seq<Location>, t: nat, w: Location)
    requires t < |location|
    ensures TailBuffers(location[t := w]) ==
            TailBuffers(location) - (if location[t].AtTail? then 1 else 0) + (if w.AtTail? then 1 else 0)
    decreases |location|
  {
    var n := |location| - 1;
    if t == n {
      assert location[t := w][..n] == location[..n];
    } else {
      TailBuffersUpdate(location[..n], t, w);
      assert location[t := w][..n] == location[..n][t := w];
    }
  }

  lemma TailBuffersAppend(location: seq<Location>, w: Location)
    ensures TailBuffers(location + [w]) == TailBuffers(location) + (if w.AtTail? then 1 else 0)
  {
    assert (location + [w])[..|location|] == location;
  }

  lemma {:induction false} TailBuffersPositive(location: seq<Location>, t: nat)
    requires t < |location| && location[t].AtTail?
    ensures TailBuffers(location) > 0
    decreases |location|
  {
    if t < |location| - 1 { TailBuffersPositive(location[..|location| - 1], t); }
  }

  // ------------------------------------------------------------------------ the invariant

  function LapHolds(pc: LapPc): int {
    match pc
    case Acquire(_, d) => d
    case GiveBack(d) => d
    case Reject(_, d, _, _) => d
    case Publish(_, d, _, _) => d
    case _ => -1
  }

  // The descriptor privately owned by the pump lap, or -1.
  function Claimed(s: Engine): int {
    if |s.runners| == 1 then LapHolds(s.runners[0].pc) else -1
  }

  predicate LapTakes(pc: LapPc) {
    pc.Reject? || pc.RejectDeliver? || pc.Publish? || pc.CancelDeliver?
  }

  // The descriptor's one IRP: at most one request at the bus, and its owner known.
  predicate IrpOk(s: Engine, f: Frame, d: nat) {
    && (f.carrier.Nobody? <==> f.state.Free? || f.state.Pending? || f.state.DetachFailed?)
    && (f.state.CompletedWhileAttaching? ==> f.carrier.ByBus?)
    && s.requests[AttachRequest(d)] ==
       (if (f.state.Attaching? || f.state.CompletedWhileAttaching?) && f.carrier.ByBus? then 1 else 0)
    && s.requests[DetachRequest(d)] == (if f.state.Detaching? && f.carrier.ByBus? then 1 else 0)
    && (f.carrier.ByRunner? ==> f.state.Attaching? && |s.runners| == 1 && s.runners[0].pc.Submit? && s.runners[0].pc.d == d)
    && (f.carrier.ByTail? ==> f.state.Detaching?)
    && (f.carrier.ByControl? ==> f.state.Detaching? && s.control.QuiesceSubmit? && s.control.d == d)
  }

  // What the bus driver may still do with the buffer.
  predicate DmaOk(s: Engine, f: Frame) {
    && (f.dma.DmaOff? <==> f.state.Free? || f.state.DetachFailed? || f.carrier.ByRunner?)
    && (f.state.CompletedWhileAttaching? || f.carrier.ByTail? ==> f.dma.DmaDone?)
    && (f.dma.DmaDone? ==> f.state.CompletedWhileAttaching? || f.state.Detaching?)
    && (f.state.Detaching? && f.dma.DmaArmed? ==> s.stopped)
    && ((f.dma.DmaFired? || f.dma.DmaDone?) && f.dmaStatus.Success? ==> f.ticket in s.dmaGood)
    && (f.state.Detaching? && f.completion.Success? ==> f.ticket in s.dmaGood)
  }

  predicate TicketAt(s: Engine, t: int, where: Location, c: int) {
    0 <= t < |s.location| == |s.acquired| && s.location[t] == where && s.acquired[t] == c
  }

  // One descriptor: on the list its state says and on no other, IRP, callback and buffer.
  predicate FrameOk(s: Engine, d: nat) {
    d < |s.frames| &&
    var f := s.frames[d];
    && (d in s.freeList <==> f.state.Free? && d != Claimed(s))
    && (d in s.pendingList <==> f.Listed())
    && IrpOk(s, f, d)
    && DmaOk(s, f)
    && (f.Holds() ==> TicketAt(s, f.ticket, AtFrame(d), f.cookie))
  }

  // One acquired buffer: the place recorded for it holds it.
  predicate BufferOk(s: Engine, t: nat) {
    t < |s.location| == |s.acquired| &&
    match s.location[t]
    case AtRunner => |s.runners| == 1 && LapTakes(s.runners[0].pc) && s.runners[0].pc.t == t
    case AtFrame(d) => d < |s.frames| && s.frames[d].Holds() && s.frames[d].ticket == t
    case AtTail(c, full, st, _) => c == s.acquired[t] && (full <==> st.Success?) && (full ==> t in s.dmaGood)
    case AtControl => s.control.ReleaseDeliver? && s.control.t == t
    case AtClient(i) => i < |s.delivered| && s.delivered[i].t == t
  }

  // One delivery.
  predicate DeliveryOk(s: Engine, i: nat) {
    i < |s.delivered| &&
    var v := s.delivered[i];
    TicketAt(s, v.t, AtClient(i), v.c) && (v.full <==> v.st.Success?) && (v.full ==> v.t in s.dmaGood)
  }

  predicate RunnerOk(s: Engine, pc: LapPc) {
    && LapInRange(pc, |s.frames|)
    && (LapHolds(pc) >= 0 ==> s.frames[LapHolds(pc)].state.Free?)
    && (LapTakes(pc) ==> TicketAt(s, pc.t, AtRunner, pc.c))
    && (pc.Publish? ==> s.frames[pc.d].cookie == pc.c)
    && (pc.Submit? ==> s.frames[pc.d].carrier.ByRunner?)
  }

  function RunnerCount(runners: seq<Runner>): nat {
    if |runners| == 1 then
      (if runners[0].counted then 1 else 0) + (if runners[0].pc.Submit? then 1 else 0)
    else 0
  }

  // The pump election: one runner at most, and no request for a lap is lost.
  predicate Election(s: Engine) {
    && |s.runners| == (if s.pumpActive then 1 else 0)
    && (s.pumpActive ==> RunnerOk(s, s.runners[0].pc))
    && s.answered <= s.calls
    && (s.answered < s.calls ==> s.pumpActive && (s.runners[0].pc.LapStart? || s.pumpAgain))
  }

  // InFlightIrps: requests at the bus, commitments not submitted yet, and unfinished tails.
  predicate Count(s: Engine) {
    s.inFlight == |s.requests| + TailFrames(s.frames) + TailBuffers(s.location) + RunnerCount(s.runners)
                  + s.enteringCounted + s.arming + s.finishing + (if s.control.QuiesceSubmit? then 1 else 0)
  }

  predicate Global(s: Engine) {
    && Below(s.freeList, |s.frames|) && NoDup(s.freeList)
    && Below(s.pendingList, |s.frames|) && NoDup(s.pendingList)
    && (forall r :: r in s.requests ==> r.d < |s.frames|)
    && (s.control.QuiesceSubmit? ==> s.control.d < |s.frames| && s.frames[s.control.d].carrier.ByControl?)
    && (s.control.ReleaseDeliver? ==> TicketAt(s, s.control.t, AtControl, s.control.c))
    && |s.location| == |s.acquired|
  }

  predicate Core(s: Engine) {
    && Global(s) && Election(s) && Count(s)
    && (forall d :: 0 <= d < |s.frames| ==> FrameOk(s, d))
    && (forall t :: 0 <= t < |s.location| ==> BufferOk(s, t))
    && (forall i :: 0 <= i < |s.delivered| ==> DeliveryOk(s, i))
  }

  predicate NoAttach(s: Engine) {
    forall d :: 0 <= d < |s.frames| ==> !s.frames[d].state.Attaching? && !s.frames[d].state.CompletedWhileAttaching?
  }

  // The runner, if any, holds neither a descriptor nor a buffer.
  predicate RunnerEmpty(s: Engine) {
    |s.runners| == 1 ==> s.runners[0].pc.LapStart? || s.runners[0].pc.Claim? || s.runners[0].pc.LapEnd?
  }

  // No control transition is under way, or one that runs on a settled engine.
  predicate Quiet(c: Control) {
    c.Idle? || c.Settled? || c.ReleaseFree? || c.ReleaseScan? || c.ReleaseDeliver? || c.Starting?
  }

  predicate InPass(c: Control) {
    c.QuiesceClaim? || c.QuiesceSubmit? || c.QuiesceDrain? || c.QuiesceCheck? || c.QuiescePumpIdle?
  }

  predicate FlushedNow(c: Control) {
    (c.ReleaseScan? || c.ReleaseDeliver?) && c.flushed
  }

  predicate ControlOk(s: Engine) {
    && (!s.control.Idle? ==> s.draining)
    && (s.draining && (Quiet(s.control) || s.control.QuiescePumpIdle?) ==> s.inFlight == 0 && s.pendingList == [])
    && (s.draining && Quiet(s.control) ==> RunnerEmpty(s))
    && (InPass(s.control) ==> 1 <= s.control.pass <= 2)
    && (s.control.QuiesceClaim? || s.control.QuiesceSubmit? || s.control.QuiesceDrain? ==>
          s.control.pass == 1 || NoAttach(s))
    && (s.control.QuiesceCheck? ==> NoAttach(s) && s.inFlight == 0)
    && (s.control.QuiesceDrain? || s.control.QuiesceCheck? ==> s.control.pass == 1 || s.pendingList == [])
    && (s.draining && !s.control.QuiesceStop? ==> s.stopped)
    && (s.stopped ==> s.draining && !s.listening && NoneFired(s))
    && (!s.draining || s.control.QuiesceStop? || InPass(s.control) || s.control.Settled? || s.control == Starting(true) ==>
          s.resourceAllocated)
    && (s.control.Starting? ==> !HasQuarantined(s))
    && (s.control.ReleaseScan? && !s.control.flushed ==> !HasQuarantined(s))
    && (s.control.ReleaseScan? ==> forall j :: 0 <= j < s.control.i && j < |s.frames| ==> !s.frames[j].state.DetachFailed?)
    && (FlushedNow(s.control) ==> s.log != [] && s.log[|s.log| - 1] == ResourcesFreed(true))
    && (s.control.ReleaseDeliver? ==>
          s.control.flushed &&
          forall j :: 0 <= j <= s.control.i && j < |s.frames| ==> !s.frames[j].state.DetachFailed?)
  }

  function PortOf(f: Frame, flushed: bool): Port {
    match f.state
    case Free => PortIdle
    case Attaching => if f.carrier.ByBus? then PortAttaching(!f.dma.DmaArmed?) else PortIdle
    case CompletedWhileAttaching => PortAttaching(true)
    case Pending => PortAttached(!f.dma.DmaArmed?)
    case Detaching => if f.carrier.ByBus? then PortDetaching else PortAttached(!f.dma.DmaArmed?)
    case DetachFailed => if flushed then PortIdle else PortStuck
  }

  // The bus driver's view of the run agrees with the descriptors.
  predicate Monitored(s: Engine) {
    var m := Watch(|s.frames|, s.log);
    && m.Good? && |m.ports| == |s.frames| && m.stopped == s.stopped
    && (forall d :: 0 <= d < |s.frames| ==> m.ports[d] == PortOf(s.frames[d], FlushedNow(s.control)))
    && m.last < |s.acquired|
    && (|s.runners| == 1 ==>
          match s.runners[0].pc
          case Publish(_, _, t, _) => t > m.last
          case Submit(_, d) => d < |s.frames| && s.frames[d].ticket > m.last
          case _ => true)
  }

  predicate Inv(s: Engine) {
    Core(s) && ControlOk(s) && Monitored(s)
  }

  lemma InitInv(n: nat)
    ensures Inv(Init(n))
  {
    var s := Init(n);
    forall d | 0 <= d < n ensures FrameOk(s, d) { assert s.freeList[d] == d; assert d in s.freeList; }
    TailFramesNone(s.frames);
  }
}
