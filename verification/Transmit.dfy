// The camera's transmitter: a ring of frame slots prefilled at the start and refilled one slot
// per transmitted frame, each frame queued to the kernel in bounded submits.

module Transmit {
  import opened Arithmetic

  // ISO_MAX_PKTS_PER_QUEUE, ISO_INTR_STRIDE, ISO_RING_FRAMES_MAX
  const MAX_PACKETS_PER_QUEUE: nat := 512
  const INTERRUPT_STRIDE: nat := 512
  const RING_FRAMES_MAX: nat := 4

  // One packet handed to the kernel: packet index of the frame in a slot, and its flags.
  datatype Packet = Packet(slot: nat, index: nat, sy: bool, interrupt: bool)

  function FramePacket(slot: nat, i: nat, ppf: nat, syAll: bool): Packet {
    Packet(slot, i, syAll || i == 0, i + 1 == ppf || (i + 1) % INTERRUPT_STRIDE == 0)
  }

  function FramePackets(slot: nat, count: nat, ppf: nat, syAll: bool): seq<Packet> {
    seq(count, i requires 0 <= i < count => FramePacket(slot, i, ppf, syAll))
  }

  // Packet i of a frame of ppf packets, flag by flag: start of frame on the first packet, or on
  // all, and an interrupt on the last and on every 512th.
  predicate IsPacket(p: Packet, slot: nat, i: nat, ppf: nat, syAll: bool) {
    && p.slot == slot && p.index == i && (p.sy <==> i == 0 || syAll)
    && (p.interrupt <==> i == ppf - 1 || (i + 1) % 512 == 0)
  }

  // Any stretch of INTERRUPT_STRIDE packets of a frame, or what is left of it, raises one.
  lemma InterruptsDense(slot: nat, i: nat, ppf: nat, syAll: bool)
    requires i < ppf
    ensures exists j :: i <= j < ppf && j < i + INTERRUPT_STRIDE && FramePacket(slot, j, ppf, syAll).interrupt
  {
    var j := i / INTERRUPT_STRIDE * INTERRUPT_STRIDE + INTERRUPT_STRIDE - 1;
    var k := if j < ppf then j else ppf - 1;
    assert FramePacket(slot, k, ppf, syAll).interrupt;
  }

  // iso_setup_ring
  function RingFrames(bufferBytes: nat, frameBytes: nat): nat
    requires frameBytes > 0
  {
    if bufferBytes / frameBytes > RING_FRAMES_MAX then RING_FRAMES_MAX else bufferBytes / frameBytes
  }

  // The ring is as deep as the buffer allows, up to four frames.
  lemma RingMost(bufferBytes: nat, frameBytes: nat)
    requires frameBytes > 0
    ensures var ring := RingFrames(bufferBytes, frameBytes);
            ring <= 4 && (ring < 4 ==> bufferBytes < frameBytes * (ring + 1))
  {
    QuotientAtLeast(bufferBytes, frameBytes, bufferBytes / frameBytes + 1);
  }

  // The whole ring lies inside the buffer.
  lemma RingFits(bufferBytes: nat, frameBytes: nat, slot: nat)
    requires frameBytes > 0 && slot < RingFrames(bufferBytes, frameBytes)
    ensures frameBytes * slot + frameBytes <= bufferBytes
  {
    assert bufferBytes == frameBytes * (bufferBytes / frameBytes) + bufferBytes % frameBytes;
    MultipleOrder(frameBytes, slot + 1, bufferBytes / frameBytes);
    assert frameBytes * (slot + 1) == frameBytes * slot + frameBytes;
  }

  class Transmitter {
    const ring: nat
    const ppf: nat
    const syAll: bool
    const oneShot: bool
    var running: bool
    // frame index rendered into each slot
    var slots: seq<nat>
    var refillSlot: nat
    var frameCounter: nat
    var framesTransmitted: nat
    var acked: nat
    // what the kernel took, oldest first, and how many of it it reported complete
    var queue: seq<Packet>
    ghost var accepted: nat
    ghost var allQueued: bool

    // Frame k sits in slot k mod ring; the look-ahead is one ring deep.
    ghost predicate InWindow()
      reads this
    {
      ring >= 1 && |slots| == ring && forall f :: framesTransmitted <= f < frameCounter ==> slots[f % ring] == f
    }

    // Packet k of the stream is packet k mod ppf of frame k / ppf.
    ghost predicate InOrder()
      reads this
    {
      ring >= 1 && ppf >= 1 && |queue| == frameCounter * ppf &&
      forall k :: 0 <= k < |queue| ==> IsPacket(queue[k], (k / ppf) % ring, k % ppf, ppf, syAll)
    }

    // What holds whatever is left over in acked.
    ghost predicate Streaming()
      reads this
    {
      && ring >= 1 && ppf >= 1 && accepted == framesTransmitted * ppf + acked
      && (running && !oneShot ==> refillSlot == framesTransmitted % ring && frameCounter == framesTransmitted + ring)
      && (running ==> framesTransmitted < frameCounter <= framesTransmitted + ring && InWindow())
      && (allQueued ==> InOrder())
    }

    ghost predicate Valid()
      reads this
    {
      Streaming() && (running ==> acked < ppf)
    }

    // iso_queue_frame: the kernel has room for that many packets and takes them in submits of
    // any sizes; what it took is the frame's packets in order, without gap or repetition.
    method QueueFrame(slot: nat, room: nat) returns (ok: bool)
      modifies `queue
      ensures ok <==> room >= ppf
      ensures |queue| == |old(queue)| + (if ok then ppf else room) && queue[..|old(queue)|] == old(queue)
      ensures forall k :: |old(queue)| <= k < |queue| ==> IsPacket(queue[k], slot, k - |old(queue)|, ppf, syAll)
      ensures queue == old(queue) + FramePackets(slot, if ok then ppf else room, ppf, syAll)
    {
      var queued := 0;
      while queued < ppf
        invariant queued <= ppf && queued <= room
        invariant queue == old(queue) + FramePackets(slot, queued, ppf, syAll)
      {
        var chunk := ppf - queued;
        if chunk > MAX_PACKETS_PER_QUEUE {
          chunk := MAX_PACKETS_PER_QUEUE;
        }
        var done := 0;
        while done < chunk
          invariant done <= chunk && queued + done <= room
          invariant queue == old(queue) + FramePackets(slot, queued + done, ppf, syAll)
        {
          if queued + done == room {
            return false;
          }
          var taken: nat := *;
          if taken < 1 || taken > chunk - done || queued + done + taken > room {
            taken := 1;
          }
          queue := queue + seq(taken, i requires 0 <= i < taken => FramePacket(slot, queued + done + i, ppf, syAll));
          done := done + taken;
        }
        queued := queued + chunk;
      }
      return true;
    }

    // Render the next frame into a slot and queue it.
    method Refill(slot: nat, room: nat)
      requires ring >= 1 && ppf >= 1 && |slots| == ring && slot == frameCounter % ring
      requires allQueued ==> InOrder()
      modifies `slots, `queue, `frameCounter, `allQueued
      ensures slots == old(slots)[slot := old(frameCounter)] && frameCounter == old(frameCounter) + 1
      ensures (allQueued <==> old(allQueued) && room >= ppf) && (allQueued ==> InOrder())
    {
      var frame := frameCounter;
      slots := slots[slot := frame];
      frameCounter := frameCounter + 1;
      var ok := QueueFrame(slot, room);
      allQueued := allQueued && ok;
      if allQueued {
        FrameAppends(old(queue), queue, frame, slot);
      }
    }

    lemma FrameAppends(before: seq<Packet>, after: seq<Packet>, frame: nat, slot: nat)
      requires ring >= 1 && ppf >= 1 && slot == frame % ring && |before| == frame * ppf
      requires after == before + FramePackets(slot, ppf, ppf, syAll)
      requires forall k :: 0 <= k < |before| ==> IsPacket(before[k], (k / ppf) % ring, k % ppf, ppf, syAll)
      ensures |after| == (frame + 1) * ppf
      ensures forall k :: 0 <= k < |after| ==> IsPacket(after[k], (k / ppf) % ring, k % ppf, ppf, syAll)
    {
      assert (frame + 1) * ppf == frame * ppf + ppf;
      forall k | 0 <= k < |after| ensures IsPacket(after[k], (k / ppf) % ring, k % ppf, ppf, syAll) {
        if k >= |before| {
          assert k == ppf * frame + (k - |before|);
          DivModIs(k, ppf, frame, k - |before|);
        }
      }
    }

    // dcam_iso_start past its checks: prefill the ring, or a single frame in one-shot mode.
    // takesAll tells that the kernel has room for every frame.
    constructor (ringFrames: nat, packets: nat, sy: bool, single: bool, takesAll: bool)
      requires ringFrames >= 1 && packets >= 1
      ensures Valid() && running && ring == ringFrames && ppf == packets && oneShot == single && syAll == sy
      ensures takesAll ==> allQueued
      ensures framesTransmitted == 0 && accepted == 0 && frameCounter == (if single then 1 else ringFrames)
    {
      ring, ppf, syAll, oneShot := ringFrames, packets, sy, single;
      slots := seq(ringFrames, i => 0);
      frameCounter, framesTransmitted, acked, queue := 0, 0, 0, [];
      refillSlot, running := 0, false;
      accepted, allQueued := 0, true;
      new;
      var prefill := if oneShot then 1 else ring;
      var slot := 0;
      while slot < prefill
        invariant slot <= prefill && frameCounter == slot && |slots| == ring
        invariant forall f :: 0 <= f < slot ==> slots[f % ring] == f
        invariant (allQueued ==> InOrder()) && (takesAll ==> allQueued)
        invariant framesTransmitted == acked == accepted == 0
      {
        DivModIs(slot, ring, 0, slot);
        var room: nat := *;
        if takesAll && room < ppf {
          room := ppf;
        }
        Refill(slot, room);
        forall f | 0 <= f < slot + 1 ensures slots[f % ring] == f { DivModIs(f, ring, 0, f); }
        slot := slot + 1;
      }
      refillSlot := prefill % ring;
      running := true;
      if !oneShot { DivModIs(ring, ring, 1, 0); DivModIs(0, ring, 0, 0); }
    }

    // Only slots whose frame has been transmitted are rewritten.
    twostate predicate RewritesSent()
      reads this
    {
      |slots| == |old(slots)| &&
      forall j :: 0 <= j < |slots| && slots[j] != old(slots[j]) ==> old(slots[j]) < framesTransmitted
    }

    // dcam_on_iso_interrupt. The stream keeps its order and its look-ahead of one ring; a slot
    // is rewritten only when its previous frame has been transmitted. A one-shot stops with
    // its frame.
    method Interrupt(completed: nat, takesAll: bool)
      requires Valid()
      modifies this
      ensures Valid() && RewritesSent()
      ensures takesAll && old(allQueued) ==> allQueued
      ensures accepted == old(accepted) +
                (if !old(running) then 0 else if completed > ring * ppf then ring * ppf else completed)
      ensures running ==> framesTransmitted == accepted / ppf && acked == accepted % ppf
      ensures running <==> old(running) && !(oneShot && framesTransmitted > old(framesTransmitted))
      ensures oneShot ==> framesTransmitted <= old(framesTransmitted) + 1 && frameCounter == old(frameCounter)
    {
      if running {
        var counted := Clamp(completed, ring * ppf);
        acked, accepted := acked + counted, accepted + counted;
        while acked >= ppf && running
          invariant Streaming() && accepted == old(accepted) + counted && RewritesSent()
          invariant takesAll && old(allQueued) ==> allQueued
          invariant running <==> !(oneShot && framesTransmitted > old(framesTransmitted))
          invariant framesTransmitted >= old(framesTransmitted)
          invariant oneShot ==> framesTransmitted <= old(framesTransmitted) + 1 && frameCounter == old(frameCounter)
          decreases acked
        {
          TransmitOne(takesAll);
        }
        if running { DivModIs(accepted, ppf, framesTransmitted, acked); }
      }
    }

    // One turn of the loop: a whole frame has been acknowledged.
    method TransmitOne(takesAll: bool)
      requires Streaming() && running && acked >= ppf
      modifies this
      ensures Streaming() && RewritesSent() && accepted == old(accepted) && acked == old(acked) - ppf
      ensures framesTransmitted == old(framesTransmitted) + 1 && running == !oneShot
      ensures takesAll && old(allQueued) ==> allQueued
      ensures oneShot ==> frameCounter == old(frameCounter)
    {
      acked := acked - ppf;
      framesTransmitted := framesTransmitted + 1;
      assert framesTransmitted * ppf == (framesTransmitted - 1) * ppf + ppf;
      if oneShot {
        running := false;
      } else {
        RefillNext(takesAll);
      }
    }

    // The refill of one turn: the slot of the frame that was just transmitted.
    method RefillNext(takesAll: bool)
      requires ring >= 1 && ppf >= 1 && framesTransmitted >= 1
      requires refillSlot == (framesTransmitted - 1) % ring && frameCounter == framesTransmitted - 1 + ring
      requires |slots| == ring && forall f :: framesTransmitted - 1 <= f < frameCounter ==> slots[f % ring] == f
      requires allQueued ==> InOrder()
      modifies `slots, `queue, `frameCounter, `allQueued, `refillSlot
      ensures refillSlot == framesTransmitted % ring && frameCounter == framesTransmitted + ring
      ensures InWindow() && RewritesSent() && (allQueued ==> InOrder())
      ensures takesAll && old(allQueued) ==> allQueued
    {
      var slot := refillSlot;
      // the slot still shows the frame just transmitted, and that frame alone is overwritten
      assert slots[slot] == framesTransmitted - 1;
      WrapAround(framesTransmitted - 1, ring);
      var room: nat := *;
      if takesAll && room < ppf {
        room := ppf;
      }
      Refill(slot, room);
      NextIndex(framesTransmitted - 1, ring);
      refillSlot := (slot + 1) % ring;
      forall f | framesTransmitted <= f < frameCounter ensures slots[f % ring] == f {
        if f < frameCounter - 1 { SlotsDiffer(framesTransmitted - 1, f, ring); }
      }
    }
  }

  function Clamp(completed: nat, outstanding: nat): nat {
    if completed > outstanding then outstanding else completed
  }

  lemma WrapAround(f: nat, ring: nat)
    requires ring > 0
    ensures (f + ring) % ring == f % ring
  {
    assert f == ring * (f / ring) + f % ring;
    assert ring * (f / ring + 1) == ring * (f / ring) + ring;
    DivModIs(f + ring, ring, f / ring + 1, f % ring);
  }

  // Two frames less than a ring apart have different slots.
  lemma SlotsDiffer(f: nat, g: nat, ring: nat)
    requires ring > 0 && f < g < f + ring
    ensures f % ring != g % ring
  {
    if f % ring == g % ring {
      var d := g / ring - f / ring;
      assert g - f == ring * d by {
        assert g == ring * (g / ring) + g % ring && f == ring * (f / ring) + f % ring;
        assert ring * d == ring * (g / ring) - ring * (f / ring);
      }
      MultipleSize(ring, d);
    }
  }
}
