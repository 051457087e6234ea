// The IOCTL front-end's ring of mapped frames: who owns a slot, in which order the engine
// gets them, and what is accounted for a delivery.

module RingModel {
  import opened Arithmetic

  // PHOTONIC_IOCTL_MAX_VIDEO_FRAMES
  const MAX_VIDEO_FRAMES: nat := 256

  // PHOTONIC_IOCTL_FRAME_STATE: at the ready, with the engine, with the caller.
  datatype SlotState = Queued | InFlight | Delivered

  // locked: the slot has an MDL whose pages are locked. ticket is bookkeeping of the model:
  // the acquisition that last took the slot.
  datatype Slot = Slot(state: SlotState, locked: bool, ticket: nat)

  // The ring half of PHOTONIC_IOCTL_CAPTURE. base and since are bookkeeping: how many buffers
  // had been acquired, and how many delivered, when the bookkeeping was last reset.
  datatype Ring = Ring(
    slots: seq<Slot>, mapped: nat, next: nat, current: int, total: nat, pumpRing: bool, oneShot: bool,
    base: nat, since: nat)

  function EmptyRing(): Ring {
    Ring(seq(MAX_VIDEO_FRAMES, i => Slot(Queued, false, 0)), 0, 0, -1, 0, false, false, 0, 0)
  }

  // PhotonicIoctlFramesAcquire has something to hand out.
  predicate Ready(r: Ring) {
    r.pumpRing && r.mapped != 0 && r.next < |r.slots| && r.slots[r.next].state.Queued?
  }

  function AcquireSlot(r: Ring, ticket: nat): Ring
    requires Ready(r)
  {
    r.(slots := r.slots[r.next := r.slots[r.next].(state := InFlight, ticket := ticket)],
       next := (r.next + 1) % r.mapped)
  }

  // PhotonicIoctlFramesDeliver.
  function DeliverSlot(r: Ring, c: nat, ok: bool): Ring {
    if c >= |r.slots| then r
    else
      r.(slots := r.slots[c := r.slots[c].(state := if ok && r.oneShot then Delivered else Queued)],
         current := if ok then c else r.current, total := if ok then r.total + 1 else r.total)
  }

  function Requeued(slot: Slot): Slot {
    if slot.state.Delivered? then slot.(state := Queued) else slot
  }

  // PhotonicIoctlFramesRequeue.
  function RequeueSlots(r: Ring): Ring {
    r.(slots := seq(|r.slots|, i requires 0 <= i < |r.slots| =>
                  if i < r.mapped then Requeued(r.slots[i]) else r.slots[i]))
  }

  // PhotonicIoctlFramesUnmap without Force: slots whose cookie is quarantined stay as they are.
  function UnmapSlot(slot: Slot, held: bool): Slot {
    if slot.locked && held then slot else slot.(state := Queued, locked := false)
  }

  function UnmapSlots(r: Ring, held: set<nat>, acquired: nat, delivered: nat): Ring {
    r.(slots := seq(|r.slots|, i requires 0 <= i < |r.slots| => UnmapSlot(r.slots[i], i in held)),
       mapped := 0, next := 0, current := -1, total := 0, base := acquired, since := delivered)
  }

  // PHOTONIC_IOCTL_MAP_VIDEO_FRAME, past its checks: leftovers are unlocked first.
  function MapSlots(r: Ring, n: nat, acquired: nat, delivered: nat): Ring {
    var u := UnmapSlots(r, {}, acquired, delivered);
    u.(slots := seq(|u.slots|, i requires 0 <= i < |u.slots| =>
                  if i < n then u.slots[i].(state := Queued, locked := true) else u.slots[i]),
       mapped := n)
  }

  // --------------------------------------------------------------- what the ring promises

  // The slot says who has it: gone are the tickets delivered, stuck those a failed detach holds.
  predicate SlotOk(r: Ring, acquired: seq<nat>, gone: set<nat>, stuck: set<nat>, i: nat) {
    i < |r.slots| &&
    var slot := r.slots[i];
    && (slot.state.InFlight? ==>
          slot.ticket < |acquired| && slot.ticket !in gone && acquired[slot.ticket] == i && slot.locked &&
          (i < r.mapped || slot.ticket in stuck))
    && (i < r.mapped ==> slot.locked)
  }

  // The ticket's slot is in flight and knows it.
  predicate TicketOk(r: Ring, acquired: seq<nat>, gone: set<nat>, t: nat) {
    t < |acquired| &&
    (t !in gone ==> acquired[t] < |r.slots| && r.slots[acquired[t]].state.InFlight? && r.slots[acquired[t]].ticket == t)
  }

  // Slots go out in index order from the mapping on.
  predicate RotationOk(r: Ring, acquired: seq<nat>) {
    r.mapped > 0 ==>
      r.base <= |acquired| && r.next == (|acquired| - r.base) % r.mapped &&
      forall t :: r.base <= t < |acquired| ==> acquired[t] == (t - r.base) % r.mapped
  }

  predicate RingOk(r: Ring, acquired: seq<nat>, gone: set<nat>, stuck: set<nat>) {
    && |r.slots| == MAX_VIDEO_FRAMES && r.mapped <= MAX_VIDEO_FRAMES && (r.mapped > 0 ==> r.next < r.mapped)
    && (forall i :: 0 <= i < |r.slots| ==> SlotOk(r, acquired, gone, stuck, i))
    && (forall t :: 0 <= t < |acquired| ==> TicketOk(r, acquired, gone, t))
    && RotationOk(r, acquired)
  }

  lemma EmptyRingOk()
    ensures RingOk(EmptyRing(), [], {}, {})
  {
  }

  lemma AcquireOk(r: Ring, acquired: seq<nat>, gone: set<nat>, stuck: set<nat>)
    requires RingOk(r, acquired, gone, stuck) && Ready(r) && forall t :: t in gone ==> t < |acquired|
    ensures RingOk(AcquireSlot(r, |acquired|), acquired + [r.next], gone, stuck)
  {
    var r', a' := AcquireSlot(r, |acquired|), acquired + [r.next];
    forall i | 0 <= i < |r'.slots| ensures SlotOk(r', a', gone, stuck, i) { assert SlotOk(r, acquired, gone, stuck, i); }
    forall t | 0 <= t < |a'| ensures TicketOk(r', a', gone, t) {
      if t < |acquired| { assert TicketOk(r, acquired, gone, t); }
    }
    NextIndex(|acquired| - r.base, r.mapped);
  }

  lemma DeliverOk(r: Ring, acquired: seq<nat>, gone: set<nat>, stuck: set<nat>, t: nat, ok: bool)
    requires RingOk(r, acquired, gone, stuck) && t < |acquired| && t !in gone
    ensures RingOk(DeliverSlot(r, acquired[t], ok), acquired, gone + {t}, stuck)
  {
    var r', g' := DeliverSlot(r, acquired[t], ok), gone + {t};
    assert TicketOk(r, acquired, gone, t);
    forall i | 0 <= i < |r'.slots| ensures SlotOk(r', acquired, g', stuck, i) {
      assert SlotOk(r, acquired, gone, stuck, i);
    }
    forall u | 0 <= u < |acquired| ensures TicketOk(r', acquired, g', u) { assert TicketOk(r, acquired, gone, u); }
  }

  // The engine moved buffers about without acquiring or delivering one.
  lemma SameOk(r: Ring, acquired: seq<nat>, gone: set<nat>, stuck: set<nat>, stuck': set<nat>)
    requires RingOk(r, acquired, gone, stuck) && stuck <= stuck' + gone
    ensures RingOk(r, acquired, gone, stuck')
  {
    forall i | 0 <= i < |r.slots| ensures SlotOk(r, acquired, gone, stuck', i) {
      assert SlotOk(r, acquired, gone, stuck, i);
    }
  }

  lemma RequeueOk(r: Ring, acquired: seq<nat>, gone: set<nat>, stuck: set<nat>)
    requires RingOk(r, acquired, gone, stuck)
    ensures RingOk(RequeueSlots(r), acquired, gone, stuck)
  {
    var r' := RequeueSlots(r);
    forall i | 0 <= i < |r'.slots| ensures SlotOk(r', acquired, gone, stuck, i) {
      assert SlotOk(r, acquired, gone, stuck, i);
    }
    forall t | 0 <= t < |acquired| ensures TicketOk(r', acquired, gone, t) { assert TicketOk(r, acquired, gone, t); }
  }

  lemma ModeOk(r: Ring, pumpRing: bool, oneShot: bool, acquired: seq<nat>, gone: set<nat>, stuck: set<nat>)
    requires RingOk(r, acquired, gone, stuck)
    ensures RingOk(r.(pumpRing := pumpRing, oneShot := oneShot), acquired, gone, stuck)
  {
    var r' := r.(pumpRing := pumpRing, oneShot := oneShot);
    forall i | 0 <= i < |r'.slots| ensures SlotOk(r', acquired, gone, stuck, i) {
      assert SlotOk(r, acquired, gone, stuck, i);
    }
    forall t | 0 <= t < |acquired| ensures TicketOk(r', acquired, gone, t) { assert TicketOk(r, acquired, gone, t); }
  }

  // After the stop the engine holds quarantined buffers only, and those are the held slots.
  lemma UnmapOk(r: Ring, acquired: seq<nat>, gone: set<nat>, stuck: set<nat>, held: set<nat>, delivered: nat)
    requires RingOk(r, acquired, gone, stuck)
    requires forall t :: 0 <= t < |acquired| && t !in gone ==> t in stuck && acquired[t] in held
    requires forall i :: i in held ==> exists t :: 0 <= t < |acquired| && t !in gone && acquired[t] == i
    ensures RingOk(UnmapSlots(r, held, |acquired|, delivered), acquired, gone, stuck)
    ensures forall i :: 0 <= i < MAX_VIDEO_FRAMES ==>
              (UnmapSlots(r, held, |acquired|, delivered).slots[i].locked <==> i in held)
  {
    var r' := UnmapSlots(r, held, |acquired|, delivered);
    forall t | 0 <= t < |acquired|
      ensures TicketOk(r', acquired, gone, t)
    {
      assert TicketOk(r, acquired, gone, t);
      if t !in gone { assert SlotOk(r, acquired, gone, stuck, acquired[t]); }
    }
    forall i | 0 <= i < |r'.slots| ensures SlotOk(r', acquired, gone, stuck, i) && (r'.slots[i].locked <==> i in held) {
      assert SlotOk(r, acquired, gone, stuck, i);
      if i in held {
        var t :| 0 <= t < |acquired| && t !in gone && acquired[t] == i;
        assert TicketOk(r, acquired, gone, t);
      }
    }
  }

  // With nothing mapped and nothing quarantined the engine holds no slot at all.
  lemma MapOk(r: Ring, acquired: seq<nat>, gone: set<nat>, n: nat, delivered: nat)
    requires RingOk(r, acquired, gone, {}) && r.mapped == 0 && 1 <= n <= MAX_VIDEO_FRAMES
    ensures RingOk(MapSlots(r, n, |acquired|, delivered), acquired, gone, {})
    ensures forall t :: 0 <= t < |acquired| ==> t in gone
  {
    forall t | 0 <= t < |acquired| ensures t in gone {
      assert TicketOk(r, acquired, gone, t);
      assert acquired[t] < |r.slots| ==> SlotOk(r, acquired, gone, {}, acquired[t]);
    }
    var r' := MapSlots(r, n, |acquired|, delivered);
    forall i | 0 <= i < |r'.slots| ensures SlotOk(r', acquired, gone, {}, i) {
      assert SlotOk(r, acquired, gone, {}, i);
    }
  }
}
