// The ring front-end as the driver writes it: a fixed array of slots changed in place under
// its own lock, and the list of registered frame events.

module RingFront {
  import opened RingModel

  // PHOTONIC_IOCTL_EVENT: how many more delivered frames until it fires.
  datatype Event = Event(handle: nat, countdown: nat)

  datatype EventStatus = Registered | NotStreaming | BadType | NoMemory | BadHandle

  datatype MapStatus = Mapped | AlreadyMapped | HeldByQuarantine | BadCount | BadSize | BadRange | LockFailed

  // One delivered frame: the entries that stay, counted down, and the handles that fire.
  function Remaining(events: seq<Event>): seq<Event> {
    if events == [] then []
    else if events[0].countdown == 1 then Remaining(events[1..])
    else [Event(events[0].handle, if events[0].countdown == 0 then 0 else events[0].countdown - 1)] + Remaining(events[1..])
  }

  function Fired(events: seq<Event>): seq<nat> {
    if events == [] then []
    else if events[0].countdown == 1 then [events[0].handle] + Fired(events[1..])
    else Fired(events[1..])
  }

  predicate Armed(events: seq<Event>) {
    forall e :: e in events ==> e.countdown >= 1
  }

  // The list after k delivered frames.
  function After(events: seq<Event>, k: nat): seq<Event>
    decreases k
  {
    if k == 0 then events else After(Remaining(events), k - 1)
  }

  lemma {:induction false} RemainingMembers(events: seq<Event>)
    requires Armed(events)
    ensures Armed(Remaining(events))
    ensures forall h: nat, n: nat :: n >= 1 ==> (Event(h, n) in Remaining(events) <==> Event(h, n + 1) in events)
  {
    if events != [] {
      var rest := events[1..];
      assert forall e :: e in events <==> e == events[0] || e in rest;
      RemainingMembers(rest);
      var e := events[0];
      if e.countdown != 1 {
        assert Remaining(events) == [Event(e.handle, e.countdown - 1)] + Remaining(rest);
        assert forall x :: x in Remaining(events) <==> x == Event(e.handle, e.countdown - 1) || x in Remaining(rest);
      }
    }
  }

  lemma {:induction false} FiredMembers(events: seq<Event>, h: nat)
    ensures h in Fired(events) <==> Event(h, 1) in events
  {
    if events != [] {
      assert forall e :: e in events <==> e == events[0] || e in events[1..];
      FiredMembers(events[1..], h);
    }
  }

  lemma {:induction false} FiredInOrder(a: seq<Event>, b: seq<Event>)
    ensures Fired(a + b) == Fired(a) + Fired(b)
  {
    if a == [] {
      assert a + b == b;
    } else {
      FiredInOrder(a[1..], b);
      assert (a + b)[1..] == a[1..] + b;
    }
  }

  lemma {:induction false} RemainingInOrder(a: seq<Event>, b: seq<Event>)
    ensures Remaining(a + b) == Remaining(a) + Remaining(b)
  {
    if a == [] {
      assert a + b == b;
    } else {
      RemainingInOrder(a[1..], b);
      assert (a + b)[1..] == a[1..] + b;
      var e := a[0];
      if e.countdown != 1 {
        var one := [Event(e.handle, if e.countdown == 0 then 0 else e.countdown - 1)];
        assert one + (Remaining(a[1..]) + Remaining(b)) == (one + Remaining(a[1..])) + Remaining(b);
      }
    }
  }

  // Entries fire, and stay, in the order of the list.
  lemma EventsInOrder(a: seq<Event>, b: seq<Event>)
    ensures Fired(a + b) == Fired(a) + Fired(b) && Remaining(a + b) == Remaining(a) + Remaining(b)
  {
    FiredInOrder(a, b);
    RemainingInOrder(a, b);
  }

  // An event registered with countdown n fires on the n-th delivered frame and on no other.
  lemma {:induction false} FiresExactly(events: seq<Event>, h: nat, k: nat)
    requires Armed(events)
    ensures h in Fired(After(events, k)) <==> Event(h, k + 1) in events
    decreases k
  {
    if k == 0 {
      FiredMembers(events, h);
    } else {
      RemainingMembers(events);
      FiresExactly(Remaining(events), h, k - 1);
    }
  }

  // PHOTONIC_IOCTL_CAPTURE, its ring and its events.
  class IoctlCapture {
    const slots: array<Slot>
    var mapped: nat
    var next: nat
    var current: int
    var total: nat
    var pumpRing: bool
    var oneShot: bool
    var events: seq<Event>
    var signalled: seq<nat>
    const imageSize: nat

    ghost var base: nat
    ghost var since: nat

    ghost predicate Valid()
      reads this, slots
    {
      slots.Length == MAX_VIDEO_FRAMES && mapped <= MAX_VIDEO_FRAMES && (mapped > 0 ==> next < mapped) && Armed(events)
    }

    ghost function Value(): Ring
      reads this, slots
    {
      Ring(slots[..], mapped, next, current, total, pumpRing, oneShot, base, since)
    }

    constructor (size: nat)
      ensures Valid() && Value() == EmptyRing() && fresh(slots) && events == [] && imageSize == size
    {
      slots := new Slot[MAX_VIDEO_FRAMES](i => Slot(Queued, false, 0));
      mapped, next, current, total, pumpRing, oneShot := 0, 0, -1, 0, false, false;
      events, signalled, imageSize := [], [], size;
      base, since := 0, 0;
      new;
      assert slots[..] == EmptyRing().slots;
    }

    // PhotonicIoctlFramesAcquire.
    method Acquire(ticket: nat) returns (acquired: bool, cookie: nat)
      requires Valid()
      modifies this, slots
      ensures Valid() && acquired == Ready(old(Value()))
      ensures Value() == (if acquired then AcquireSlot(old(Value()), ticket) else old(Value()))
      ensures acquired <==> old(pumpRing && mapped != 0 && slots[next].state.Queued?)
      ensures acquired ==> cookie == old(next) < slots.Length && next == (cookie + 1) % old(mapped)
      ensures acquired ==> slots[cookie] == old(slots[next]).(state := InFlight, ticket := ticket)
      ensures !acquired ==> next == old(next)
      ensures forall j :: 0 <= j < slots.Length && !(acquired && j == cookie) ==> slots[j] == old(slots[j])
      ensures mapped == old(mapped) && pumpRing == old(pumpRing) && oneShot == old(oneShot)
    {
      acquired, cookie := false, 0;
      if !pumpRing {
        return;
      }
      var index := next;
      if mapped != 0 && slots[index].state.Queued? {
        slots[index] := slots[index].(state := InFlight, ticket := ticket);
        next := (index + 1) % mapped;
        return true, index;
      }
    }

    // PhotonicIoctlFramesDeliver: a full frame is accounted and counted against the events.
    method Deliver(c: nat, ok: bool)
      requires Valid()
      modifies this, slots
      ensures Valid() && Value() == DeliverSlot(old(Value()), c, ok)
      ensures var counts := ok && c < MAX_VIDEO_FRAMES;
        events == (if counts then Remaining(old(events)) else old(events)) &&
        signalled == (if counts then old(signalled) + Fired(old(events)) else old(signalled))
      // only this slot changes: to the caller with a full frame in single-frame mode, else back
      // into the rotation
      ensures c < slots.Length ==> slots[c] == old(slots[c]).(state := if ok && oneShot then Delivered else Queued)
      ensures forall j :: 0 <= j < slots.Length && j != c ==> slots[j] == old(slots[j])
      ensures ok && c < MAX_VIDEO_FRAMES ==> current == c && total == old(total) + 1
      ensures !ok || c >= MAX_VIDEO_FRAMES ==> current == old(current) && total == old(total)
      ensures mapped == old(mapped) && next == old(next) && pumpRing == old(pumpRing) && oneShot == old(oneShot)
    {
      if c >= MAX_VIDEO_FRAMES {
        return;
      }
      slots[c] := slots[c].(state := if ok && oneShot then Delivered else Queued);
      if ok {
        current, total := c, total + 1;
        SignalEvents();
      }
    }

    // PhotonicIoctlFramesSignalEvents.
    method SignalEvents()
      requires Armed(events)
      modifies `events, `signalled
      ensures events == Remaining(old(events)) && Armed(events)
      ensures signalled == old(signalled) + Fired(old(events))
    {
      var kept, fired := CountDown(events);
      RemainingMembers(events);
      events, signalled := kept, signalled + fired;
    }

    static method CountDown(events: seq<Event>) returns (kept: seq<Event>, fired: seq<nat>)
      requires Armed(events)
      ensures kept == Remaining(events) && fired == Fired(events)
    {
      kept, fired := [], [];
      var i := 0;
      while i < |events|
        invariant i <= |events|
        invariant Remaining(events) == kept + Remaining(events[i..])
        invariant Fired(events) == fired + Fired(events[i..])
      {
        var e := events[i];
        assert events[i..][0] == e && events[i..][1..] == events[i + 1..];
        assert e in events;
        if e.countdown - 1 == 0 {
          assert (fired + [e.handle]) + Fired(events[i + 1..]) == fired + ([e.handle] + Fired(events[i + 1..]));
          fired := fired + [e.handle];
        } else {
          ghost var one := Event(e.handle, e.countdown - 1);
          assert (kept + [one]) + Remaining(events[i + 1..]) == kept + ([one] + Remaining(events[i + 1..]));
          kept := kept + [Event(e.handle, e.countdown - 1)];
        }
        i := i + 1;
      }
      assert events[i..] == [];
    }

    // PHOTONIC_IOCTL_REGISTER_EVENT: type 0 counts one frame, type 1 a whole ring. memory tells
    // whether the entry could be allocated, referenced whether the handle names an event.
    method RegisterEvent(handle: nat, kind: nat, memory: bool, referenced: bool) returns (status: EventStatus)
      requires Valid()
      modifies `events
      ensures Valid() && (status.NotStreaming? <==> mapped == 0) && (status.BadType? <==> mapped != 0 && kind > 1)
      ensures status.NoMemory? <==> mapped != 0 && kind <= 1 && !memory
      ensures status.Registered? <==> mapped != 0 && kind <= 1 && memory && referenced
      ensures events == (if status.Registered? then old(events) + [Event(handle, if kind == 0 then 1 else mapped)]
                         else old(events))
    {
      if mapped == 0 {
        return NotStreaming;
      }
      if kind != 0 && kind != 1 {
        return BadType;
      }
      if !memory {
        return NoMemory;
      }
      if !referenced {
        return BadHandle;
      }
      events := events + [Event(handle, if kind == 0 then 1 else mapped)];
      return Registered;
    }

    // PhotonicIoctlFramesRequeue, the slots.
    method Requeue()
      requires Valid()
      modifies slots
      ensures Valid() && Value() == RequeueSlots(old(Value()))
      ensures forall j :: 0 <= j < mapped && old(slots[j]).state.Delivered? ==>
                slots[j] == old(slots[j]).(state := Queued)
      ensures forall j :: 0 <= j < slots.Length && !(j < mapped && old(slots[j]).state.Delivered?) ==>
                slots[j] == old(slots[j])
    {
      var i := 0;
      while i < mapped
        invariant i <= mapped
        invariant forall j :: 0 <= j < slots.Length ==>
                    slots[j] == if j < i then Requeued(old(slots[j])) else old(slots[j])
      {
        if slots[i].state.Delivered? {
          slots[i] := slots[i].(state := Queued);
        }
        i := i + 1;
      }
      assert slots[..] == RequeueSlots(old(Value())).slots;
    }

    // PhotonicIoctlFramesUnmap; quarantined are the cookies PhotonicCaptureCookieQuarantined
    // tells apart.
    method Unmap(quarantined: set<nat>, force: bool, ghost acquired: nat, ghost delivered: nat)
      requires slots.Length == MAX_VIDEO_FRAMES && Armed(events)
      modifies `mapped, `next, `current, `total, `base, `since, slots
      ensures Valid() && Value() == UnmapSlots(old(Value()), if force then {} else quarantined, acquired, delivered)
      // only a locked slot of a quarantined cookie stays as it is
      ensures forall j :: 0 <= j < slots.Length ==>
                if old(slots[j]).locked && j in quarantined && !force then slots[j] == old(slots[j])
                else slots[j] == old(slots[j]).(state := Queued, locked := false)
      ensures mapped == 0 && next == 0 && current == -1 && total == 0
    {
      UnlockSlots(if force then {} else quarantined);
      mapped, next, current, total := 0, 0, -1, 0;
      base, since := acquired, delivered;
      assert slots[..] == UnmapSlots(old(Value()), if force then {} else quarantined, acquired, delivered).slots;
    }

    method UnlockSlots(held: set<nat>)
      requires slots.Length == MAX_VIDEO_FRAMES
      modifies slots
      ensures forall j :: 0 <= j < slots.Length ==> slots[j] == UnmapSlot(old(slots[j]), j in held)
    {
      var i := 0;
      while i < MAX_VIDEO_FRAMES
        invariant i <= MAX_VIDEO_FRAMES
        invariant forall j :: 0 <= j < i ==> slots[j] == UnmapSlot(old(slots[j]), j in held)
        invariant forall j :: i <= j < slots.Length ==> slots[j] == old(slots[j])
      {
        if !(slots[i].locked && i in held) {
          slots[i] := slots[i].(state := Queued, locked := false);
        }
        i := i + 1;
      }
    }

    // The lock loop of the map; it stops at the first frame that cannot be locked, which is
    // frame lockable.
    method LockSlots(count: nat, lockable: nat) returns (locked: nat)
      requires slots.Length == MAX_VIDEO_FRAMES && count <= MAX_VIDEO_FRAMES
      modifies slots
      ensures locked == if lockable < count then lockable else count
      ensures forall j :: 0 <= j < locked ==> slots[j] == old(slots[j]).(state := Queued, locked := true)
      ensures forall j :: locked <= j < slots.Length ==> slots[j] == old(slots[j])
    {
      locked := 0;
      while locked < count
        invariant locked <= count && locked <= lockable
        invariant forall j :: 0 <= j < locked ==> slots[j] == old(slots[j]).(state := Queued, locked := true)
        invariant forall j :: locked <= j < slots.Length ==> slots[j] == old(slots[j])
      {
        if locked == lockable {
          return;
        }
        slots[locked] := slots[locked].(state := Queued, locked := true);
        locked := locked + 1;
      }
    }

    // PHOTONIC_IOCTL_MAP_VIDEO_FRAME: what is refused before the ring is touched; lockable is
    // the number of frames whose pages can be locked.
    method Map(count: nat, size: nat, address: nat, quarantined: set<nat>, lockable: nat,
               ghost acquired: nat, ghost delivered: nat)
      returns (status: MapStatus)
      requires Valid()
      modifies `mapped, `next, `current, `total, `base, `since, slots
      ensures Valid()
      ensures status.AlreadyMapped? <==> old(mapped) != 0
      ensures status.HeldByQuarantine? <==> old(mapped) == 0 && quarantined != {}
      ensures status.AlreadyMapped? || status.HeldByQuarantine? ==> Value() == old(Value())
      ensures status.Mapped? || status.LockFailed? <==>
                old(mapped) == 0 && quarantined == {} && 1 <= count <= MAX_VIDEO_FRAMES && size == imageSize &&
                address + count * size <= 0x1_0000_0000
      ensures status.LockFailed? ==> lockable < count
      ensures status.Mapped? ==> lockable >= count && Value() == MapSlots(old(Value()), count, acquired, delivered)
      // a mapped ring starts over with its first frames locked and queued, and nothing else
      ensures status.Mapped? ==> mapped == count && next == 0 && current == -1 && total == 0
      ensures status.Mapped? ==> forall j :: 0 <= j < slots.Length ==>
                slots[j].state.Queued? && (slots[j].locked <==> j < count)
      ensures !status.Mapped? && !status.AlreadyMapped? && !status.HeldByQuarantine? ==>
                Value() == UnmapSlots(old(Value()), {}, acquired, delivered)
    {
      if mapped != 0 {
        return AlreadyMapped;
      }
      if quarantined != {} {
        return HeldByQuarantine;
      }
      Unmap({}, false, acquired, delivered);
      if count == 0 || count > MAX_VIDEO_FRAMES {
        return BadCount;
      }
      if size != imageSize {
        return BadSize;
      }
      if address + count * size > 0x1_0000_0000 {
        return BadRange;
      }
      status := MapFrames(count, lockable, acquired, delivered);
    }

    // Past the checks, on a ring that was just unmapped. A frame that cannot be locked undoes
    // the ones before it.
    method MapFrames(count: nat, lockable: nat, ghost acquired: nat, ghost delivered: nat) returns (status: MapStatus)
      requires Valid() && 1 <= count <= MAX_VIDEO_FRAMES
      requires Value() == UnmapSlots(Value(), {}, acquired, delivered)
      modifies `mapped, `next, `current, `total, `base, `since, slots
      ensures Valid() && status == (if lockable < count then LockFailed else Mapped)
      ensures Value() ==
              (if status.Mapped? then MapSlots(old(Value()), count, acquired, delivered) else old(Value()))
    {
      assert forall j :: 0 <= j < slots.Length ==> slots[..][j] == slots[j];
      var locked := LockSlots(count, lockable);
      mapped := locked;
      if locked < count {
        Unmap({}, false, acquired, delivered);
        assert slots[..] == old(slots[..]);
        return LockFailed;
      }
      next, current, total, mapped := 0, -1, 0, count;
      assert slots[..] == MapSlots(old(Value()), count, acquired, delivered).slots;
      return Mapped;
    }
  }
}
