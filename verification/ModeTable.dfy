// The table of video modes the driver builds from whatever a camera answers, and the selection
// it leaves the camera on.

module ModeTable {
  import opened Arithmetic
  import opened Format7

  // PHOTONIC_MAX_VIDEO_MODES, DCAM_MAX_IMAGE_BYTES, DCAM_NUM_MODES, DCAM_NUM_FORMATS
  const MAX_VIDEO_MODES: nat := 48
  const MAX_IMAGE_BYTES: nat := 0x1000_0000
  const NUM_MODES: nat := 8
  const NUM_FORMATS: nat := 3
  const MAX_ULONG: nat := 0xFFFF_FFFF

  // PHOTONIC_VIDEO_MODE
  datatype Entry = Entry(
    format: nat, mode: nat, coding: nat, width: nat, height: nat, defaultWidth: nat, defaultHeight: nat,
    isFormat7: bool, unitWidth: nat, unitHeight: nat, csr: nat, minInterval: nat, maxInterval: nat)

  // One Format 7 mode as read; Unread when a register access or the CSR pointer failed.
  datatype Answer =
    | Unread
    | Answer(csr: nat, maxSize: nat, unitSize: nat, codingMask: nat, curSize: nat, curCoding: nat, packetPara: nat,
             bytePerPacket: nat)

  // Bit 31 - k of a mask, the way the inquiry registers number their bits.
  predicate Bit(mask: nat, k: nat)
    requires k < 32
  {
    mask / Pow2(31 - k) % 2 == 1
  }

  // PhotonicDcamFormat7Interval
  function FrameInterval(bytes: nat, packet: nat): nat {
    if packet == 0 then 0
    else if bytes * 1250 / packet > MAX_ULONG then MAX_ULONG
    else bytes * 1250 / packet
  }

  datatype Window =
    | Skipped
    | Window(width: nat, height: nat, unitWidth: nat, unitHeight: nat, curWidth: nat, curHeight: nat,
             unitBytes: nat, maxBytes: nat)

  function AlignDown(x: nat, unit: nat): nat
    requires unit > 0
  {
    x / unit * unit
  }

  function Clamped(x: nat, limit: nat): nat {
    if x > limit then limit else x
  }

  // The scalable output window of one mode, or that it is skipped.
  function WindowOf(a: Answer): Window {
    if a.Unread? then Skipped
    else
      var maxW, maxH := a.maxSize / HALF, a.maxSize % HALF;
      if maxW == 0 || maxH == 0 then Skipped
      else
        var single := a.unitSize / HALF == 0 || a.unitSize % HALF == 0;
        var unitW := if single then maxW else a.unitSize / HALF;
        var unitH := if single then maxH else a.unitSize % HALF;
        var w, h := AlignDown(maxW, unitW), AlignDown(maxH, unitH);
        if w == 0 || h == 0 then Skipped
        else
          var curW := Clamped(AlignDown(a.curSize / HALF, unitW), w);
          var curH := Clamped(AlignDown(a.curSize % HALF, unitH), h);
          var empty := curW == 0 || curH == 0;
          var dw, dh := if empty then w else curW, if empty then h else curH;
          var bits := DriverBits(a.curCoding / 0x100_0000);
          if a.packetPara / HALF == 0 || a.packetPara % HALF == 0 || a.bytePerPacket / HALF == 0 then Skipped
          else if bits == 0 || dw * dh * bits / 8 > MAX_IMAGE_BYTES then Skipped
          else Window(w, h, unitW, unitH, dw, dh, a.packetPara / HALF, a.packetPara % HALF)
  }

  // A coding enters the table when the driver knows it and its largest frame fits the cap.
  predicate Usable(w: Window, coding: nat) {
    w.Window? && DriverBits(coding) != 0 && w.width * w.height * DriverBits(coding) / 8 <= MAX_IMAGE_BYTES
  }

  function EntryOf(mode: nat, csr: nat, w: Window, coding: nat): Entry
    requires w.Window?
  {
    var bytes := ImageBytes(w.curWidth, w.curHeight, DriverBits(coding));
    Entry(F7_FORMAT, mode, coding, w.width, w.height, w.curWidth, w.curHeight, true, w.unitWidth, w.unitHeight, csr,
          FrameInterval(bytes, w.maxBytes), FrameInterval(bytes, w.unitBytes))
  }

  // The entries of one mode from one coding on, and of all modes from one mode on.
  function CodingEntries(mode: nat, csr: nat, mask: nat, w: Window, coding: nat): seq<Entry>
    requires w.Window? && coding <= 32
    decreases 32 - coding
  {
    if coding == 32 then []
    else
      (if Bit(mask, coding) && Usable(w, coding) then [EntryOf(mode, csr, w, coding)] else [])
      + CodingEntries(mode, csr, mask, w, coding + 1)
  }

  function ModePart(mask: nat, answers: seq<Answer>, mode: nat): seq<Entry>
    requires |answers| == NUM_MODES && mode < NUM_MODES
  {
    var a := answers[mode];
    if Bit(mask, mode) && WindowOf(a).Window? then CodingEntries(mode, a.csr, a.codingMask, WindowOf(a), 0) else []
  }

  function ModeEntries(mask: nat, answers: seq<Answer>, mode: nat): seq<Entry>
    requires |answers| == NUM_MODES && mode <= NUM_MODES
    decreases NUM_MODES - mode
  {
    if mode == NUM_MODES then [] else ModePart(mask, answers, mode) + ModeEntries(mask, answers, mode + 1)
  }

  function Cut(entries: seq<Entry>): seq<Entry> {
    if |entries| > MAX_VIDEO_MODES then entries[..MAX_VIDEO_MODES] else entries
  }

  // --------------------------------------------------------------------- what the window is

  lemma AlignFacts(x: nat, unit: nat)
    requires unit > 0
    ensures AlignDown(x, unit) <= x && AlignDown(x, unit) % unit == 0
  {
    DivModIs(0, unit, 0, 0);
    FlooredMultiples(x, unit, 0);
  }

  // Whatever the camera answered: a nonempty default inside a maximum, both on the unit grid,
  // and nonzero packet bounds.
  lemma WindowFacts(a: Answer)
    ensures var w := WindowOf(a);
      w.Window? ==>
        && w.unitWidth > 0 && w.unitHeight > 0 && w.unitBytes > 0 && w.maxBytes > 0
        && 0 < w.curWidth <= w.width && 0 < w.curHeight <= w.height
        && w.width % w.unitWidth == 0 && w.height % w.unitHeight == 0
        && w.curWidth % w.unitWidth == 0 && w.curHeight % w.unitHeight == 0
  {
    var w := WindowOf(a);
    if w.Window? {
      AlignFacts(a.maxSize / HALF, w.unitWidth);
      AlignFacts(a.maxSize % HALF, w.unitHeight);
      AlignFacts(a.curSize / HALF, w.unitWidth);
      AlignFacts(a.curSize % HALF, w.unitHeight);
    }
  }

  // The advertised maximum leaves no room for another unit.
  lemma WindowMaximum(a: Answer)
    requires WindowOf(a).Window?
    ensures var w := WindowOf(a);
      w.width <= a.maxSize / HALF < w.width + w.unitWidth && w.height <= a.maxSize % HALF < w.height + w.unitHeight
    ensures a.unitSize / HALF != 0 && a.unitSize % HALF != 0 ==>
              WindowOf(a).unitWidth == a.unitSize / HALF && WindowOf(a).unitHeight == a.unitSize % HALF
  {
    AlignedWithin(a.maxSize / HALF, WindowOf(a).unitWidth);
    AlignedWithin(a.maxSize % HALF, WindowOf(a).unitHeight);
  }

  // One side of the default: the most whole units within the current size and the maximum.
  predicate Floored(size: nat, current: nat, limit: nat, unit: nat) {
    size <= current && size <= limit && (size == limit || current < size + unit)
  }

  // A current size that holds a unit each way is the default, cut to the grid and the maximum;
  // any other gives way to the maximum.
  lemma WindowDefault(a: Answer)
    requires WindowOf(a).Window?
    ensures var w, cw, ch := WindowOf(a), a.curSize / HALF, a.curSize % HALF;
      if cw >= w.unitWidth && ch >= w.unitHeight
      then Floored(w.curWidth, cw, w.width, w.unitWidth) && Floored(w.curHeight, ch, w.height, w.unitHeight)
      else w.curWidth == w.width && w.curHeight == w.height
    ensures var w, cw, ch := WindowOf(a), a.curSize / HALF, a.curSize % HALF;
      0 < cw <= w.width && 0 < ch <= w.height && cw % w.unitWidth == 0 && ch % w.unitHeight == 0 ==>
        w.curWidth == cw && w.curHeight == ch
  {
    WindowFacts(a);
    AlignedWithin(a.curSize / HALF, WindowOf(a).unitWidth);
    AlignedWithin(a.curSize % HALF, WindowOf(a).unitHeight);
    AlignedEmpty(a.curSize / HALF, WindowOf(a).unitWidth);
    AlignedEmpty(a.curSize % HALF, WindowOf(a).unitHeight);
  }

  lemma AlignedEmpty(x: nat, unit: nat)
    requires unit > 0
    ensures AlignDown(x, unit) == 0 <==> x < unit
  {
    QuotientAtLeast(x, unit, 1);
    if x / unit >= 1 { ScaleOrder(1, x / unit, unit); }
  }

  // What a mode needs to be offered: its registers read, a maximum that holds a unit each way
  // (no unit given means the maximum is the unit), and nonzero packet bounds, current packet
  // size and current depth.
  predicate Describes(a: Answer) {
    && a.Answer? && a.maxSize / HALF > 0 && a.maxSize % HALF > 0
    && (a.unitSize / HALF == 0 || a.unitSize % HALF == 0 ||
        (a.unitSize / HALF <= a.maxSize / HALF && a.unitSize % HALF <= a.maxSize % HALF))
    && a.packetPara / HALF > 0 && a.packetPara % HALF > 0 && a.bytePerPacket / HALF > 0
    && DriverBits(a.curCoding / 0x100_0000) != 0
  }

  // The window exists exactly with that and a default frame under the cap; a maximum under the
  // cap is enough.
  lemma WindowExists(a: Answer)
    ensures WindowOf(a).Window? ==>
              Describes(a) && WindowOf(a).unitBytes == a.packetPara / HALF && WindowOf(a).maxBytes == a.packetPara % HALF
    ensures WindowOf(a).Window? ==>
              WindowOf(a).curWidth * WindowOf(a).curHeight * DriverBits(a.curCoding / 0x100_0000) / 8 <= MAX_IMAGE_BYTES
    ensures Describes(a) &&
            (a.maxSize / HALF) * (a.maxSize % HALF) * DriverBits(a.curCoding / 0x100_0000) / 8 <= MAX_IMAGE_BYTES ==>
              WindowOf(a).Window?
  {
    if Describes(a) {
      var maxW, maxH := a.maxSize / HALF, a.maxSize % HALF;
      var single := a.unitSize / HALF == 0 || a.unitSize % HALF == 0;
      var unitW, unitH := if single then maxW else a.unitSize / HALF, if single then maxH else a.unitSize % HALF;
      AlignedEmpty(maxW, unitW);
      AlignedEmpty(maxH, unitH);
      AlignedWithin(maxW, unitW);
      AlignedWithin(maxH, unitH);
      var curW := Clamped(AlignDown(a.curSize / HALF, unitW), AlignDown(maxW, unitW));
      var curH := Clamped(AlignDown(a.curSize % HALF, unitH), AlignDown(maxH, unitH));
      var empty := curW == 0 || curH == 0;
      FrameOrder(if empty then AlignDown(maxW, unitW) else curW, maxW, if empty then AlignDown(maxH, unitH) else curH, maxH,
                 DriverBits(a.curCoding / 0x100_0000));
    } else if a.Answer? && a.unitSize / HALF > 0 && a.unitSize % HALF > 0 {
      AlignedEmpty(a.maxSize / HALF, a.unitSize / HALF);
      AlignedEmpty(a.maxSize % HALF, a.unitSize % HALF);
    }
  }

  lemma FrameOrder(w: nat, maxW: nat, h: nat, maxH: nat, bits: nat)
    requires w <= maxW && h <= maxH
    ensures w * h * bits / 8 <= maxW * maxH * bits / 8
  {
    ScaleOrder(w, maxW, h);
    ScaleOrder(h, maxH, maxW);
    assert w * h <= maxW * maxH;
    ScaleOrder(w * h, maxW * maxH, bits);
  }

  lemma AlignedWithin(x: nat, unit: nat)
    requires unit > 0
    ensures AlignDown(x, unit) <= x < AlignDown(x, unit) + unit
    ensures x % unit == 0 ==> AlignDown(x, unit) == x
  {
    assert x == unit * (x / unit) + x % unit;
  }

  // One packet each 1250 units of 100ns, rounded down and saturated at 32 bits.
  predicate IsInterval(x: nat, bytes: nat, packet: nat) {
    if bytes * 1250 < packet * 0x1_0000_0000 then packet * x <= bytes * 1250 < packet * (x + 1) else x == MAX_ULONG
  }

  lemma IntervalMeans(bytes: nat, packet: nat)
    requires packet > 0
    ensures IsInterval(FrameInterval(bytes, packet), bytes, packet)
  {
    var q := bytes * 1250 / packet;
    QuotientAtLeast(bytes * 1250, packet, q);
    QuotientAtLeast(bytes * 1250, packet, q + 1);
    QuotientAtLeast(bytes * 1250, packet, 0x1_0000_0000);
  }

  // An entry carries its mode's window, on its grid and under the cap,
  predicate EntryWindow(e: Entry, w: Window)
    requires w.Window?
  {
    && e.width == w.width && e.height == w.height && e.unitWidth == w.unitWidth && e.unitHeight == w.unitHeight
    && e.defaultWidth == w.curWidth && e.defaultHeight == w.curHeight && e.unitWidth > 0 && e.unitHeight > 0
    && 0 < e.defaultWidth <= e.width && 0 < e.defaultHeight <= e.height
    && e.width % e.unitWidth == 0 && e.height % e.unitHeight == 0
    && e.defaultWidth % e.unitWidth == 0 && e.defaultHeight % e.unitHeight == 0
    && DriverBits(e.coding) != 0 && e.width * e.height * DriverBits(e.coding) / 8 <= MAX_IMAGE_BYTES
  }

  // and the intervals of its default frame in the largest and in the unit packet.
  predicate EntryIntervals(e: Entry, unit: nat, max: nat) {
    var bytes := e.defaultWidth * e.defaultHeight * DriverBits(e.coding) / 8;
    unit > 0 && max > 0 && IsInterval(e.minInterval, bytes, max) && IsInterval(e.maxInterval, bytes, unit) &&
    (e.minInterval <= e.maxInterval <==> BoundsOrdered(bytes, unit, max))
  }

  // What a consumer of the table may rely on.
  predicate EntryOk(e: Entry, answers: seq<Answer>) {
    e.isFormat7 && e.format == F7_FORMAT && e.mode < NUM_MODES == |answers| &&
    var a, w := answers[e.mode], WindowOf(answers[e.mode]);
    a.Answer? && e.csr == a.csr && w.Window? && EntryWindow(e, w) &&
    EntryIntervals(e, a.packetPara / HALF, a.packetPara % HALF)
  }

  lemma LargerPacketFaster(bytes: nat, small: nat, large: nat)
    requires 0 < small <= large
    ensures FrameInterval(bytes, large) <= FrameInterval(bytes, small)
  {
    var q := bytes * 1250 / large;
    QuotientAtLeast(bytes * 1250, large, q);
    ScaleOrder(small, large, q);
    QuotientAtLeast(bytes * 1250, small, q);
  }

  // The bounds of a frame are in order when the unit is within the maximum, and otherwise only
  // when rounding or saturation hides the difference.
  predicate BoundsOrdered(bytes: nat, unit: nat, max: nat)
    requires unit > 0 && max > 0
  {
    unit <= max || bytes * 1250 / unit == bytes * 1250 / max || bytes * 1250 / unit >= MAX_ULONG
  }

  lemma IntervalsOrdered(bytes: nat, unit: nat, max: nat)
    requires unit > 0 && max > 0
    ensures FrameInterval(bytes, max) <= FrameInterval(bytes, unit) <==> BoundsOrdered(bytes, unit, max)
  {
    if unit <= max {
      LargerPacketFaster(bytes, unit, max);
    } else {
      SmallerQuotient(bytes * 1250, max, unit);
    }
  }

  lemma SmallerQuotient(x: nat, small: nat, large: nat)
    requires 0 < small <= large
    ensures x / large <= x / small
  {
    var q := x / large;
    QuotientAtLeast(x, large, q);
    ScaleOrder(small, large, q);
    QuotientAtLeast(x, small, q);
  }

  lemma EntryWindowOk(mode: nat, a: Answer, coding: nat)
    requires Usable(WindowOf(a), coding)
    ensures EntryWindow(EntryOf(mode, a.csr, WindowOf(a), coding), WindowOf(a))
  {
    WindowFacts(a);
  }

  lemma NoWrap(width: nat, height: nat, bits: nat)
    requires width * height * bits / 8 <= MAX_IMAGE_BYTES
    ensures ImageBytes(width, height, bits) == width * height * bits / 8
  {
  }

  lemma IntervalsOk(e: Entry, bytes: nat, unit: nat, max: nat)
    requires unit > 0 && max > 0 && bytes == e.defaultWidth * e.defaultHeight * DriverBits(e.coding) / 8
    requires e.minInterval == FrameInterval(bytes, max) && e.maxInterval == FrameInterval(bytes, unit)
    ensures EntryIntervals(e, unit, max)
  {
    IntervalMeans(bytes, max);
    IntervalMeans(bytes, unit);
    IntervalsOrdered(bytes, unit, max);
  }

  lemma EntryIntervalsOk(mode: nat, csr: nat, w: Window, coding: nat)
    requires Usable(w, coding) && w.curWidth <= w.width && w.curHeight <= w.height && w.unitBytes > 0 && w.maxBytes > 0
    ensures EntryIntervals(EntryOf(mode, csr, w, coding), w.unitBytes, w.maxBytes)
  {
    FrameOrder(w.curWidth, w.width, w.curHeight, w.height, DriverBits(coding));
    NoWrap(w.curWidth, w.curHeight, DriverBits(coding));
    IntervalsOk(EntryOf(mode, csr, w, coding), ImageBytes(w.curWidth, w.curHeight, DriverBits(coding)), w.unitBytes, w.maxBytes);
  }

  lemma EntryOfOk(mode: nat, answers: seq<Answer>, coding: nat)
    requires |answers| == NUM_MODES && mode < NUM_MODES && answers[mode].Answer? && Usable(WindowOf(answers[mode]), coding)
    ensures EntryOk(EntryOf(mode, answers[mode].csr, WindowOf(answers[mode]), coding), answers)
  {
    var a := answers[mode];
    WindowFacts(a);
    WindowExists(a);
    EntryWindowOk(mode, a, coding);
    EntryIntervalsOk(mode, a.csr, WindowOf(a), coding);
  }

  lemma {:induction false} CodingEntriesOk(mode: nat, answers: seq<Answer>, w: Window, coding: nat)
    requires |answers| == NUM_MODES && mode < NUM_MODES && answers[mode].Answer? && w == WindowOf(answers[mode])
    requires w.Window? && coding <= 32
    ensures forall e :: e in CodingEntries(mode, answers[mode].csr, answers[mode].codingMask, w, coding) ==>
              EntryOk(e, answers)
    decreases 32 - coding
  {
    if coding < 32 {
      CodingEntriesOk(mode, answers, w, coding + 1);
      if Usable(w, coding) { EntryOfOk(mode, answers, coding); }
    }
  }

  lemma ModePartOk(mask: nat, answers: seq<Answer>, mode: nat)
    requires |answers| == NUM_MODES && mode < NUM_MODES
    ensures forall e :: e in ModePart(mask, answers, mode) ==> EntryOk(e, answers)
  {
    if WindowOf(answers[mode]).Window? { CodingEntriesOk(mode, answers, WindowOf(answers[mode]), 0); }
  }

  lemma {:induction false} ModeEntriesOk(mask: nat, answers: seq<Answer>, mode: nat)
    requires |answers| == NUM_MODES && mode <= NUM_MODES
    ensures forall e :: e in ModeEntries(mask, answers, mode) ==> EntryOk(e, answers)
    decreases NUM_MODES - mode
  {
    if mode < NUM_MODES {
      ModeEntriesOk(mask, answers, mode + 1);
      ModePartOk(mask, answers, mode);
      var part, rest := ModePart(mask, answers, mode), ModeEntries(mask, answers, mode + 1);
      assert forall e :: e in part + rest ==> e in part || e in rest;
    }
  }

  // -------------------------------------------------------------- what belongs in the table

  // Coding k of mode m: both bits are set, the mode has a window, and the driver knows the
  // depth of the coding and its largest frame is under the cap.
  predicate Offered(mask: nat, answers: seq<Answer>, m: nat, k: nat)
    requires |answers| == NUM_MODES
  {
    m < NUM_MODES && k < 32 && mask / Pow2(31 - m) % 2 == 1 && answers[m].Answer? &&
    answers[m].codingMask / Pow2(31 - k) % 2 == 1 && WindowOf(answers[m]).Window? && DriverBits(k) != 0 &&
    WindowOf(answers[m]).width * WindowOf(answers[m]).height * DriverBits(k) / 8 <= MAX_IMAGE_BYTES
  }

  predicate Lists(entries: seq<Entry>, m: nat, k: nat) {
    exists i :: 0 <= i < |entries| && entries[i].mode == m && entries[i].coding == k
  }

  predicate Before(e: Entry, m: nat, k: nat) {
    e.mode < m || (e.mode == m && e.coding < k)
  }

  predicate Ordered(entries: seq<Entry>) {
    forall i, j :: 0 <= i < j < |entries| ==> Before(entries[i], entries[j].mode, entries[j].coding)
  }

  lemma JoinLists(a: seq<Entry>, b: seq<Entry>, m: nat, k: nat)
    requires Lists(a, m, k) || Lists(b, m, k)
    ensures Lists(a + b, m, k)
  {
    if Lists(a, m, k) {
      var i :| 0 <= i < |a| && a[i].mode == m && a[i].coding == k;
      assert (a + b)[i] == a[i];
    } else {
      var i :| 0 <= i < |b| && b[i].mode == m && b[i].coding == k;
      assert (a + b)[|a| + i] == b[i];
    }
  }

  lemma {:induction false} CodingHeld(mode: nat, csr: nat, mask: nat, w: Window, coding: nat, i: nat)
    requires w.Window? && coding <= 32 && i < |CodingEntries(mode, csr, mask, w, coding)|
    ensures var e := CodingEntries(mode, csr, mask, w, coding)[i];
            e.mode == mode && coding <= e.coding < 32 && Bit(mask, e.coding) && Usable(w, e.coding)
    decreases 32 - coding
  {
    var listed := Bit(mask, coding) && Usable(w, coding);
    if listed && i > 0 {
      CodingHeld(mode, csr, mask, w, coding + 1, i - 1);
    } else if !listed {
      CodingHeld(mode, csr, mask, w, coding + 1, i);
    }
  }

  lemma CodingsHeld(mode: nat, csr: nat, mask: nat, w: Window, coding: nat)
    requires w.Window? && coding <= 32
    ensures forall i :: 0 <= i < |CodingEntries(mode, csr, mask, w, coding)| ==>
              var e := CodingEntries(mode, csr, mask, w, coding)[i];
              e.mode == mode && coding <= e.coding < 32 && Bit(mask, e.coding) && Usable(w, e.coding)
  {
    forall i | 0 <= i < |CodingEntries(mode, csr, mask, w, coding)|
      ensures var e := CodingEntries(mode, csr, mask, w, coding)[i];
              e.mode == mode && coding <= e.coding < 32 && Bit(mask, e.coding) && Usable(w, e.coding)
    {
      CodingHeld(mode, csr, mask, w, coding, i);
    }
  }

  lemma JoinOrdered(a: seq<Entry>, b: seq<Entry>)
    requires Ordered(a) && Ordered(b)
    requires forall i, j :: 0 <= i < |a| && 0 <= j < |b| ==> Before(a[i], b[j].mode, b[j].coding)
    ensures Ordered(a + b)
  {
  }

  lemma {:induction false} CodingsOrdered(mode: nat, csr: nat, mask: nat, w: Window, coding: nat)
    requires w.Window? && coding <= 32
    ensures Ordered(CodingEntries(mode, csr, mask, w, coding))
    decreases 32 - coding
  {
    if coding < 32 {
      CodingsOrdered(mode, csr, mask, w, coding + 1);
      CodingsHeld(mode, csr, mask, w, coding + 1);
      JoinOrdered(if Bit(mask, coding) && Usable(w, coding) then [EntryOf(mode, csr, w, coding)] else [],
                  CodingEntries(mode, csr, mask, w, coding + 1));
    }
  }

  lemma {:induction false} CodingListed(mode: nat, csr: nat, mask: nat, w: Window, coding: nat, k: nat)
    requires w.Window? && coding <= k < 32 && Bit(mask, k) && Usable(w, k)
    ensures Lists(CodingEntries(mode, csr, mask, w, coding), mode, k)
    decreases 32 - coding
  {
    var rest := CodingEntries(mode, csr, mask, w, coding + 1);
    if coding == k {
      assert CodingEntries(mode, csr, mask, w, coding)[0].coding == k;
    } else {
      CodingListed(mode, csr, mask, w, coding + 1, k);
      JoinLists(if Bit(mask, coding) && Usable(w, coding) then [EntryOf(mode, csr, w, coding)] else [], rest, mode, k);
    }
  }

  lemma PartListed(mask: nat, answers: seq<Answer>, mode: nat)
    requires |answers| == NUM_MODES && mode < NUM_MODES
    ensures var es := ModePart(mask, answers, mode);
      && (forall i :: 0 <= i < |es| ==> es[i].mode == mode && Offered(mask, answers, mode, es[i].coding))
      && Ordered(es) && forall k :: Offered(mask, answers, mode, k) ==> Lists(es, mode, k)
  {
    var a := answers[mode];
    if Bit(mask, mode) && WindowOf(a).Window? {
      CodingsHeld(mode, a.csr, a.codingMask, WindowOf(a), 0);
      CodingsOrdered(mode, a.csr, a.codingMask, WindowOf(a), 0);
      forall k | Offered(mask, answers, mode, k) ensures Lists(ModePart(mask, answers, mode), mode, k) {
        CodingListed(mode, a.csr, a.codingMask, WindowOf(a), 0, k);
      }
    }
  }

  // All that is offered, in order, nothing else and nothing twice.
  lemma {:induction false} ModesListed(mask: nat, answers: seq<Answer>, mode: nat)
    requires |answers| == NUM_MODES && mode <= NUM_MODES
    ensures var es := ModeEntries(mask, answers, mode);
      && (forall i :: 0 <= i < |es| ==> es[i].mode >= mode && Offered(mask, answers, es[i].mode, es[i].coding))
      && Ordered(es) && forall m, k :: m >= mode && Offered(mask, answers, m, k) ==> Lists(es, m, k)
    decreases NUM_MODES - mode
  {
    if mode < NUM_MODES {
      ModesListed(mask, answers, mode + 1);
      PartListed(mask, answers, mode);
      var part, rest := ModePart(mask, answers, mode), ModeEntries(mask, answers, mode + 1);
      forall m, k | m >= mode && Offered(mask, answers, m, k) ensures Lists(part + rest, m, k) {
        assert m == mode || m >= mode + 1;
        JoinLists(part, rest, m, k);
      }
    }
  }

  // The table: the standard modes, then what is offered, in order and each once; what is
  // missing comes after everything in a full table.
  ghost predicate Complete(standard: seq<Entry>, mask: nat, answers: seq<Answer>, table: seq<Entry>)
    requires |answers| == NUM_MODES
  {
    && |standard| <= |table| <= MAX_VIDEO_MODES && table[..|standard|] == standard
    && (forall i :: |standard| <= i < |table| ==> Offered(mask, answers, table[i].mode, table[i].coding))
    && Ordered(table[|standard|..])
    && forall m, k :: Offered(mask, answers, m, k) ==>
         Lists(table[|standard|..], m, k) ||
         (|table| == MAX_VIDEO_MODES && forall i :: |standard| <= i < |table| ==> Before(table[i], m, k))
  }

  lemma CutListed(standard: seq<Entry>, entries: seq<Entry>, m: nat, k: nat)
    requires |standard| <= MAX_VIDEO_MODES && Ordered(entries) && Lists(entries, m, k)
    ensures var table := Cut(standard + entries);
      Lists(table[|standard|..], m, k) ||
      (|table| == MAX_VIDEO_MODES && forall i :: |standard| <= i < |table| ==> Before(table[i], m, k))
  {
    var table := Cut(standard + entries);
    var i :| 0 <= i < |entries| && entries[i].mode == m && entries[i].coding == k;
    assert forall j :: |standard| <= j < |table| ==> table[j] == entries[j - |standard|];
    if |standard| + i < |table| {
      assert table[|standard|..][i] == entries[i];
    }
  }

  lemma CutSplit(standard: seq<Entry>, entries: seq<Entry>)
    requires |standard| <= MAX_VIDEO_MODES
    ensures var table := Cut(standard + entries);
      && |standard| <= |table| <= MAX_VIDEO_MODES && table[..|standard|] == standard
      && |table| - |standard| <= |entries| && table[|standard|..] == entries[..|table| - |standard|]
      && forall i :: |standard| <= i < |table| ==> table[i] == entries[i - |standard|]
  {
  }

  lemma CutComplete(standard: seq<Entry>, mask: nat, answers: seq<Answer>, entries: seq<Entry>)
    requires |answers| == NUM_MODES && |standard| <= MAX_VIDEO_MODES && Ordered(entries)
    requires forall i :: 0 <= i < |entries| ==> Offered(mask, answers, entries[i].mode, entries[i].coding)
    requires forall m, k :: Offered(mask, answers, m, k) ==> Lists(entries, m, k)
    ensures Complete(standard, mask, answers, Cut(standard + entries))
  {
    var table := Cut(standard + entries);
    CutSplit(standard, entries);
    forall m, k | Offered(mask, answers, m, k)
      ensures Lists(table[|standard|..], m, k) ||
              (|table| == MAX_VIDEO_MODES && forall i :: |standard| <= i < |table| ==> Before(table[i], m, k))
    {
      CutListed(standard, entries, m, k);
    }
  }

  // ------------------------------------------------------------------- building the table

  lemma Regroup(a: seq<Entry>, b: seq<Entry>, c: seq<Entry>)
    ensures a + (b + c) == (a + b) + c
  {
  }

  lemma CutEarly(a: seq<Entry>, b: seq<Entry>)
    requires |a| > MAX_VIDEO_MODES
    ensures Cut(a + b) == Cut(a)
  {
  }

  // No room for e: everything from it on is dropped.
  lemma CutHere(a: seq<Entry>, e: Entry, rest: seq<Entry>)
    requires |a| == MAX_VIDEO_MODES
    ensures Cut(a + ([e] + rest)) == a && |a + ([e] + rest)| > MAX_VIDEO_MODES
  {
  }

  // The coding loop of one mode; full when the table had no room for an entry.
  method AddCodings(table: seq<Entry>, mode: nat, csr: nat, mask: nat, w: Window)
    returns (longer: seq<Entry>, full: bool)
    requires |table| <= MAX_VIDEO_MODES && w.Window?
    ensures longer == Cut(table + CodingEntries(mode, csr, mask, w, 0))
    ensures full <==> |table + CodingEntries(mode, csr, mask, w, 0)| > MAX_VIDEO_MODES
  {
    longer, full := table, false;
    var coding := 0;
    while coding < 32
      invariant coding <= 32 && |longer| <= MAX_VIDEO_MODES
      invariant table + CodingEntries(mode, csr, mask, w, 0) == longer + CodingEntries(mode, csr, mask, w, coding)
    {
      ghost var rest := CodingEntries(mode, csr, mask, w, coding + 1);
      if Bit(mask, coding) && Usable(w, coding) {
        var e := EntryOf(mode, csr, w, coding);
        if |longer| >= MAX_VIDEO_MODES {
          CutHere(longer, e, rest);
          return longer, true;
        }
        Regroup(longer, [e], rest);
        longer := longer + [e];
      } else {
        assert [] + rest == rest;
      }
      coding := coding + 1;
    }
    assert longer + [] == longer;
  }

  method AddMode(table: seq<Entry>, mask: nat, answers: seq<Answer>, mode: nat) returns (longer: seq<Entry>, full: bool)
    requires |table| <= MAX_VIDEO_MODES && |answers| == NUM_MODES && mode < NUM_MODES
    ensures longer == Cut(table + ModePart(mask, answers, mode))
    ensures full <==> |table + ModePart(mask, answers, mode)| > MAX_VIDEO_MODES
  {
    if Bit(mask, mode) && WindowOf(answers[mode]).Window? {
      var a := answers[mode];
      longer, full := AddCodings(table, mode, a.csr, a.codingMask, WindowOf(a));
    } else {
      assert table + [] == table;
      longer, full := table, false;
    }
  }

  // PhotonicDcamEnumerateFormat7 after the standard modes: every usable coding of every mode
  // in order, as far as the table has room.
  method EnumerateFormat7(standard: seq<Entry>, mask: nat, answers: seq<Answer>) returns (table: seq<Entry>)
    requires |standard| <= MAX_VIDEO_MODES && |answers| == NUM_MODES
    ensures table == Cut(standard + ModeEntries(mask, answers, 0))
    ensures Complete(standard, mask, answers, table)
  {
    table := standard;
    var mode, full := 0, false;
    while mode < NUM_MODES && !full
      invariant mode <= NUM_MODES && |table| <= MAX_VIDEO_MODES
      invariant Cut(standard + ModeEntries(mask, answers, 0)) ==
                (if full then table else Cut(table + ModeEntries(mask, answers, mode)))
    {
      ghost var before := table;
      table, full := AddMode(table, mask, answers, mode);
      ModeStep(before, mask, answers, mode);
      mode := mode + 1;
    }
    assert table + [] == table;
    AllComplete(standard, mask, answers);
  }

  lemma AllComplete(standard: seq<Entry>, mask: nat, answers: seq<Answer>)
    requires |standard| <= MAX_VIDEO_MODES && |answers| == NUM_MODES
    ensures Complete(standard, mask, answers, Cut(standard + ModeEntries(mask, answers, 0)))
  {
    ModesListed(mask, answers, 0);
    CutComplete(standard, mask, answers, ModeEntries(mask, answers, 0));
  }

  lemma ModeStep(table: seq<Entry>, mask: nat, answers: seq<Answer>, mode: nat)
    requires |table| <= MAX_VIDEO_MODES && |answers| == NUM_MODES && mode < NUM_MODES
    ensures var longer := table + ModePart(mask, answers, mode);
            Cut(table + ModeEntries(mask, answers, mode)) ==
            (if |longer| > MAX_VIDEO_MODES then Cut(longer) else Cut(longer + ModeEntries(mask, answers, mode + 1)))
  {
    var part, rest := ModePart(mask, answers, mode), ModeEntries(mask, answers, mode + 1);
    Regroup(table, part, rest);
    if |table + part| > MAX_VIDEO_MODES { CutEarly(table + part, rest); }
  }

  // Standard modes come from the driver's own geometry table.
  predicate Standard(e: Entry) {
    !e.isFormat7 && e.format < NUM_FORMATS && e.mode < NUM_MODES
  }

  // For any camera: at most 48 entries, and every Format 7 entry fit to be used.
  lemma TableOk(standard: seq<Entry>, mask: nat, answers: seq<Answer>)
    requires |answers| == NUM_MODES && forall e :: e in standard ==> Standard(e)
    ensures var table := Cut(standard + ModeEntries(mask, answers, 0));
      |table| <= MAX_VIDEO_MODES && forall e :: e in table ==> Standard(e) || EntryOk(e, answers)
  {
    ModeEntriesOk(mask, answers, 0);
    var all := standard + ModeEntries(mask, answers, 0);
    assert forall e :: e in Cut(all) ==> e in all;
    assert forall e :: e in all ==> e in standard || e in ModeEntries(mask, answers, 0);
  }

  // A camera that reports a unit of 20 bytes above its maximum of 10 for a 1000-byte frame.
  function InvertedAnswer(): Answer {
    Answer(0, 1000 * HALF + 1, HALF + 1, Pow2(31), 1000 * HALF + 1, 0, 20 * HALF + 10, 10 * HALF)
  }

  function InvertedAnswers(): seq<Answer> {
    [InvertedAnswer(), Unread, Unread, Unread, Unread, Unread, Unread, Unread]
  }

  lemma InvertedWindow()
    ensures WindowOf(InvertedAnswer()) == Window(1000, 1, 1, 1, 1000, 1, 20, 10)
  {
  }

  lemma FirstEntry(answers: seq<Answer>, mask: nat)
    requires |answers| == NUM_MODES && answers[0].Answer? && Bit(mask, 0) && Bit(answers[0].codingMask, 0)
    requires Usable(WindowOf(answers[0]), 0)
    ensures |ModeEntries(mask, answers, 0)| > 0
    ensures ModeEntries(mask, answers, 0)[0] == EntryOf(0, answers[0].csr, WindowOf(answers[0]), 0)
  {
    assert |CodingEntries(0, answers[0].csr, answers[0].codingMask, WindowOf(answers[0]), 0)| > 0;
  }

  // Its mode enters the table, whatever standard modes precede it, with inverted bounds.
  lemma InvertedEntry(standard: seq<Entry>)
    requires |standard| < MAX_VIDEO_MODES
    ensures exists e :: e in Cut(standard + ModeEntries(Pow2(31), InvertedAnswers(), 0)) &&
                        EntryOk(e, InvertedAnswers()) && e.minInterval > e.maxInterval
  {
    InvertedWindow();
    var w := WindowOf(InvertedAnswer());
    assert InvertedAnswers()[0] == InvertedAnswer();
    TopBit(31);
    var e := EntryOf(0, 0, w, 0);
    FirstEntry(InvertedAnswers(), Pow2(31));
    EntryOfOk(0, InvertedAnswers(), 0);
    InTable(standard, ModeEntries(Pow2(31), InvertedAnswers(), 0));
    InvertedBounds(w);
    assert e.minInterval > e.maxInterval;
  }

  lemma InvertedBounds(w: Window)
    requires w == Window(1000, 1, 1, 1, 1000, 1, 20, 10)
    ensures EntryOf(0, 0, w, 0).minInterval > EntryOf(0, 0, w, 0).maxInterval
  {
  }

  lemma TopBit(k: nat)
    ensures Pow2(k) / Pow2(k) % 2 == 1
  {
    DivModIs(Pow2(k), Pow2(k), 1, 0);
  }

  lemma InTable(standard: seq<Entry>, entries: seq<Entry>)
    requires |standard| < MAX_VIDEO_MODES && entries != []
    ensures entries[0] in Cut(standard + entries)
  {
    assert (standard + entries)[|standard|] == entries[0];
    assert Cut(standard + entries)[|standard|] == entries[0];
  }

  // ------------------------------------------------------------------ the current selection

  predicate Listed(table: seq<Entry>, format: nat, mode: nat) {
    exists i :: 0 <= i < |table| && table[i].format == format && table[i].mode == mode
  }

  // PhotonicDcamNormalizeSelection: the camera is left on the selection it had before the
  // probe if that is in the table, else on the first entry. formatTaken and modeTaken tell
  // whether the camera takes the two writes.
  method NormalizeSelection(cam: Camera, table: seq<Entry>, savedValid: bool, savedFormat: nat, savedMode: nat,
                            formatTaken: bool, modeTaken: bool)
    returns (written: bool)
    requires table != [] && forall e :: e in table ==> e.format < 8 && e.mode < 8
    modifies cam
    ensures cam.live == old(cam.live) && (written <==> formatTaken && modeTaken)
    ensures written ==> Listed(table, cam.format, cam.mode)
    ensures written && savedValid && Listed(table, savedFormat, savedMode) ==>
              cam.format == savedFormat && cam.mode == savedMode
    ensures written && !(savedValid && Listed(table, savedFormat, savedMode)) ==>
              cam.format == table[0].format && cam.mode == table[0].mode
  {
    var format, mode := table[0].format, table[0].mode;
    if savedValid {
      var i := 0;
      while i < |table|
        invariant i <= |table| && format == table[0].format && mode == table[0].mode
        invariant forall j :: 0 <= j < i ==> !(table[j].format == savedFormat && table[j].mode == savedMode)
      {
        if table[i].format == savedFormat && table[i].mode == savedMode {
          format, mode := savedFormat, savedMode;
          break;
        }
        i := i + 1;
      }
    }
    if !formatTaken { return false; }
    cam.WriteFormat(format * 0x2000_0000);
    if !modeTaken { return false; }
    cam.WriteMode(mode * 0x2000_0000);
    return true;
  }

  datatype Found = NotFound | Found(entry: Entry)

  // PhotonicDcamReadSelection: the two select fields, as the camera reports them.
  method ReadSelection(cam: Camera, formatRead: bool, modeRead: bool) returns (read: bool, format: nat, mode: nat)
    ensures (read <==> formatRead && modeRead) && (read ==> format == cam.format % 8 && mode == cam.mode % 8)
  {
    format, mode, read := 0, 0, formatRead && modeRead;
    if !formatRead { return; }
    format := cam.FormatWord() / 0x2000_0000;
    if !modeRead { return; }
    mode := cam.ModeWord() / 0x2000_0000;
  }

  // PhotonicDcamGetCurrentMode: coding is the live COLOR_CODING_ID, when it could be read;
  // formatRead and modeRead tell whether the select fields could be.
  method GetCurrentMode(cam: Camera, table: seq<Entry>, coding: nat, codingRead: bool, formatRead: bool, modeRead: bool)
    returns (f: Found, read: bool)
    ensures (read <==> formatRead && modeRead)
    ensures read ==> (f.Found? <==> Listed(table, cam.format % 8, cam.mode % 8))
    ensures f.Found? ==> read && f.entry in table && f.entry.format == cam.format % 8 && f.entry.mode == cam.mode % 8
    ensures f.Found? && f.entry.isFormat7 && codingRead && f.entry.coding != coding ==>
              forall e :: e in table && e.format == f.entry.format && e.mode == f.entry.mode ==> e.coding != coding
  {
    f := NotFound;
    var format, mode;
    read, format, mode := ReadSelection(cam, formatRead, modeRead);
    if read {
      f := Lookup(table, format, mode, coding, codingRead);
    }
  }

  // The entry of a selection.
  method Lookup(table: seq<Entry>, format: nat, mode: nat, coding: nat, codingRead: bool) returns (f: Found)
    ensures f.Found? <==> Listed(table, format, mode)
    ensures f.Found? ==> f.entry in table && f.entry.format == format && f.entry.mode == mode
    ensures f.Found? && f.entry.isFormat7 && codingRead && f.entry.coding != coding ==>
              forall e :: e in table && e.format == format && e.mode == mode ==> e.coding != coding
    // the first entry with that coding, or else the first one
    ensures f.Found? ==> exists i ::
              0 <= i < |table| && table[i] == f.entry &&
              forall j :: 0 <= j < i && table[j].format == format && table[j].mode == mode ==>
                codingRead && table[j].coding != coding && f.entry.coding == coding
  {
    var i := 0;
    while i < |table|
      invariant i <= |table|
      invariant forall j :: 0 <= j < i ==> !(table[j].format == format && table[j].mode == mode)
    {
      if table[i].format == format && table[i].mode == mode {
        var best := i;
        if table[i].isFormat7 && codingRead {
          best := FindCoding(table, i, format, mode, coding);
        }
        return Found(table[best]);
      }
      i := i + 1;
    }
    return NotFound;
  }

  // The first entry from i on with the live coding, or i itself.
  method FindCoding(table: seq<Entry>, i: nat, format: nat, mode: nat, coding: nat) returns (best: nat)
    requires i < |table| && table[i].format == format && table[i].mode == mode
    requires forall j :: 0 <= j < i ==> !(table[j].format == format && table[j].mode == mode)
    ensures best < |table| && table[best].format == format && table[best].mode == mode
    ensures best == i || (best > i && table[best].coding == coding)
    ensures forall k :: i <= k < best && table[k].format == format && table[k].mode == mode ==> table[k].coding != coding
    ensures table[best].coding != coding ==>
              forall e :: e in table && e.format == format && e.mode == mode ==> e.coding != coding
  {
    best := i;
    var j := i;
    while j < |table|
      invariant i <= j <= |table| && best == i
      invariant forall k :: i <= k < j ==> !(table[k].format == format && table[k].mode == mode && table[k].coding == coding)
    {
      if table[j].format == format && table[j].mode == mode && table[j].coding == coding {
        return j;
      }
      j := j + 1;
    }
  }

  // Every entry's selection fits the three-bit select field.
  lemma SelectionsFit(table: seq<Entry>, answers: seq<Answer>)
    requires forall e :: e in table ==> Standard(e) || EntryOk(e, answers)
    ensures forall e :: e in table ==> e.format < 8 && e.mode < 8
  {
  }

  // PhotonicDcamEnumerateModes: f7 tells whether the camera advertises format 7. An empty table
  // is a configuration error and leaves the selection alone.
  method EnumerateModes(cam: Camera, standard: seq<Entry>, f7: bool, mask: nat, answers: seq<Answer>,
                        savedValid: bool, savedFormat: nat, savedMode: nat, formatTaken: bool, modeTaken: bool)
    returns (table: seq<Entry>, written: bool)
    requires |standard| <= MAX_VIDEO_MODES && |answers| == NUM_MODES && forall e :: e in standard ==> Standard(e)
    modifies cam
    ensures if f7 then Complete(standard, mask, answers, table) else table == standard
    ensures written <==> table != [] && formatTaken && modeTaken
    ensures |table| <= MAX_VIDEO_MODES && forall e :: e in table ==> Standard(e) || EntryOk(e, answers)
    ensures written ==> cam.format < 8 && cam.mode < 8 && Listed(table, cam.format, cam.mode)
    ensures written && savedValid && Listed(table, savedFormat, savedMode) ==>
              cam.format == savedFormat && cam.mode == savedMode
  {
    table := standard;
    if f7 {
      table := EnumerateFormat7(standard, mask, answers);
      TableOk(standard, mask, answers);
    }
    written := false;
    SelectionsFit(table, answers);
    if table != [] {
      written := NormalizeSelection(cam, table, savedValid, savedFormat, savedMode, formatTaken, modeTaken);
    }
  }

  // Whatever the camera answered during the bring-up: once the selection is written, the lookup
  // of the current mode finds an entry for the camera's own selection, the one it had before
  // the probe if that is in the table.
  method EnumerateThenLookup(cam: Camera, standard: seq<Entry>, f7: bool, mask: nat, answers: seq<Answer>,
                             savedValid: bool, savedFormat: nat, savedMode: nat, formatTaken: bool, modeTaken: bool,
                             coding: nat, codingRead: bool, formatRead: bool, modeRead: bool)
    returns (table: seq<Entry>, written: bool, read: bool, f: Found)
    requires |standard| <= MAX_VIDEO_MODES && |answers| == NUM_MODES && forall e :: e in standard ==> Standard(e)
    modifies cam
    ensures if f7 then Complete(standard, mask, answers, table) else table == standard
    ensures (written <==> table != [] && formatTaken && modeTaken) && (read <==> formatRead && modeRead)
    ensures written && read ==>
              f.Found? && f.entry in table && f.entry.format == cam.format && f.entry.mode == cam.mode &&
              (Standard(f.entry) || EntryOk(f.entry, answers))
    ensures written && read && savedValid && Listed(table, savedFormat, savedMode) ==>
              f.entry.format == savedFormat && f.entry.mode == savedMode
  {
    table, written := EnumerateModes(cam, standard, f7, mask, answers, savedValid, savedFormat, savedMode,
                                     formatTaken, modeTaken);
    f, read := GetCurrentMode(cam, table, coding, codingRead, formatRead, modeRead);
  }
}
