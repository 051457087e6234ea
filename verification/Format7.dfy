// Format 7 negotiation: the driver programs a region of interest into the camera's registers,
// reads back the packet bounds, chooses a packet size and writes it; the camera then derives
// its stream geometry. Both sides, and what they agree on.

module Format7 {
  import opened Arithmetic
  import opened PacketSearch
  import opened BusAccess

  const WORD: nat := 0x1_0000_0000
  const HALF: nat := 0x1_0000
  // DCAM_F7_BUS_MAX_BPP, ISO_MAX_PACKETS_PER_FRAME, DCAM_NUM_F7_MODES, DCAM_F7_FORMAT
  const BUS_MAX_BPP: nat := 4096
  const MAX_PACKETS_PER_FRAME: nat := 4096
  const F7_MODES: nat := 4
  const F7_FORMAT: nat := 7

  // Bitwise or of register words.
  function Or(a: nat, b: nat): nat
    decreases a + b
  {
    if a == 0 && b == 0 then 0 else (if a % 2 == 1 || b % 2 == 1 then 1 else 0) + 2 * Or(a / 2, b / 2)
  }

  function Pow2(k: nat): (p: nat)
    ensures p > 0
  {
    if k == 0 then 1 else 2 * Pow2(k - 1)
  }

  // Fields that do not overlap combine like a sum.
  lemma {:induction false} OrDisjoint(a: nat, b: nat, k: nat)
    requires b < Pow2(k)
    ensures Or(a * Pow2(k), b) == a * Pow2(k) + b
    decreases k
  {
    if k == 0 {
      OrZero(a);
    } else {
      var x := a * Pow2(k - 1);
      assert a * Pow2(k) == 2 * x;
      OrDisjoint(a, b / 2, k - 1);
      assert (2 * x) / 2 == x && (2 * x) % 2 == 0;
    }
  }

  lemma {:induction false} OrZero(a: nat)
    ensures Or(a, 0) == a
  {
    if a > 0 { OrZero(a / 2); }
  }

  lemma Fields16(hi: nat, lo: nat)
    requires hi < HALF && lo < HALF
    ensures Or(hi * HALF, lo) == hi * HALF + lo < WORD
    ensures (hi * HALF + lo) / HALF == hi && (hi * HALF + lo) % HALF == lo
  {
    assert Pow2(16) == HALF by { assert Pow2(8) == 256; }
    OrDisjoint(hi, lo, 16);
    DivModIs(hi * HALF + lo, HALF, hi, lo);
  }

  // ------------------------------------------------------------------------- the camera

  // dcam_f7_bits_per_pixel
  function CameraBits(coding: nat): nat {
    match coding
    case 0 => 8
    case 1 => 12
    case 2 => 16
    case 5 => 16
    case 3 => 24
    case 4 => 24
    case 6 => 48
    case 7 => 8
    case 8 => 8
    case _ => 0
  }

  // PhotonicDcamCodingBpp
  function DriverBits(coding: nat): nat {
    match coding
    case 0 => 8
    case 7 => 8
    case 1 => 12
    case 2 => 16
    case 5 => 16
    case 3 => 24
    case 4 => 24
    case _ => 0
  }

  // The two tables agree wherever the driver knows the coding.
  lemma CodingsAgree(coding: nat)
    ensures DriverBits(coding) != 0 ==> DriverBits(coding) == CameraBits(coding)
  {
  }

  // PhotonicImageBytes, and the camera's own frame size: both narrow to 32 bits.
  function ImageBytes(width: nat, height: nat, bits: nat): nat {
    (width * height * bits / 8) % WORD
  }

  // dcam_f7_packet_params: one image line, rounded up to a quadlet.
  function UnitBytes(width: nat, bits: nat): (u: nat)
    ensures u >= 4 && u % 4 == 0
  {
    var line := (width * bits + 7) / 8;
    var quadlets := (line + 3) / 4 * 4;
    if quadlets == 0 then 4 else quadlets
  }

  function MaxBytes(unit: nat): nat
    requires unit > 0
  {
    if BUS_MAX_BPP / unit * unit < unit then unit else BUS_MAX_BPP / unit * unit
  }

  // The unit is the smallest positive number of whole quadlets that holds one line.
  lemma UnitMeans(width: nat, bits: nat, v: nat)
    requires v > 0 && v % 4 == 0 && width * bits <= 8 * v
    ensures width * bits <= 8 * UnitBytes(width, bits) && UnitBytes(width, bits) <= v
  {
    UnitHoldsLine(width, bits);
  }

  // The maximum is the largest multiple of the unit the bus carries, or the unit itself when
  // the bus carries none.
  lemma MaxMeans(unit: nat)
    requires unit > 0
    ensures unit <= BUS_MAX_BPP ==>
              MaxBytes(unit) % unit == 0 && MaxBytes(unit) <= BUS_MAX_BPP < MaxBytes(unit) + unit
    ensures unit > BUS_MAX_BPP ==> MaxBytes(unit) == unit
  {
    var q := BUS_MAX_BPP / unit;
    assert BUS_MAX_BPP == unit * q + BUS_MAX_BPP % unit;
    QuotientAtLeast(BUS_MAX_BPP, unit, 1);
    if q >= 1 {
      ScaleOrder(1, q, unit);
      DivModIs(q * unit, unit, q, 0);
    } else {
      assert q == 0;
    }
  }

  // Fixed: a standard format, whose packets come from the camera's own table.
  datatype Geometry = Fixed | Unstreamable | Stream(bpp: nat, ppf: nat, frameBytes: nat)

  // One mode's programmed state.
  datatype Live = Live(width: nat, height: nat, coding: nat, bpp: nat)
  {
    function Unit(): nat { UnitBytes(width, CameraBits(coding)) }

    // dcam_f7_bpp_is_legal
    predicate BppLegal(b: nat) {
      Unit() <= b <= MaxBytes(Unit()) && b % Unit() == 0
    }

    // PACKET_PARA_INQ: the unit shifted into the high half of a 32-bit word.
    function PacketPara(): nat {
      Or((Unit() * HALF) % WORD, MaxBytes(Unit()))
    }

    function Geometry(): Geometry {
      if CameraBits(coding) == 0 || bpp == 0 || width == 0 || height == 0 then Unstreamable
      else
        var bytes := ImageBytes(width, height, CameraBits(coding));
        if bytes / bpp == 0 || bytes / bpp > MAX_PACKETS_PER_FRAME then Unstreamable
        else Stream(bpp, bytes / bpp, bytes)
    }
  }

  // A select field keeps three bits.
  lemma SelectField(x: nat)
    ensures (x * 0x2000_0000) % WORD / 0x2000_0000 == x % 8
  {
  }

  datatype Register = ImageSize | CodingId | BytePerPacket

  class Camera {
    var format: nat
    var mode: nat
    var live: seq<Live>

    ghost predicate Valid()
      reads this
    {
      |live| == F7_MODES
    }

    // VIDEO_FORMAT and VIDEO_MODE latch the top three bits.
    method WriteFormat(word: nat)
      requires word < WORD
      modifies `format
      ensures format == word / 0x2000_0000
    {
      format := word / 0x2000_0000;
    }

    method WriteMode(word: nat)
      requires word < WORD
      modifies `mode
      ensures mode == word / 0x2000_0000
    {
      mode := word / 0x2000_0000;
    }

    // What they read back as.
    function FormatWord(): (word: nat)
      reads this
      ensures word / 0x2000_0000 == format % 8
    {
      SelectField(format);
      (format * 0x2000_0000) % WORD
    }

    function ModeWord(): (word: nat)
      reads this
      ensures word / 0x2000_0000 == mode % 8
    {
      SelectField(mode);
      (mode * 0x2000_0000) % WORD
    }

    // dcam_f7_csr_write: geometry and coding writes fall back to the recommended packet size,
    // an illegal packet size is NAKed and changes nothing.
    method WriteF7(m: nat, reg: Register, word: nat) returns (ok: bool)
      requires Valid() && m < F7_MODES && word < WORD
      modifies `live
      ensures Valid() && forall j :: 0 <= j < F7_MODES && j != m ==> live[j] == old(live[j])
      ensures reg.ImageSize? ==> ok && live[m].(bpp := 0) == Live(word / HALF, word % HALF, old(live[m].coding), 0)
      ensures reg.CodingId? ==> ok && live[m].(bpp := 0) == old(live[m]).(coding := word / 0x100_0000, bpp := 0)
      ensures !reg.BytePerPacket? ==> live[m].bpp == live[m].Unit()
      ensures reg.BytePerPacket? ==> (ok <==> old(live[m]).BppLegal(word / HALF))
      ensures reg.BytePerPacket? ==> live[m] == (if ok then old(live[m]).(bpp := word / HALF) else old(live[m]))
    {
      ok := true;
      match reg
      case ImageSize =>
        var next := live[m].(width := word / HALF, height := word % HALF);
        live := live[m := next.(bpp := next.Unit())];
      case CodingId =>
        var next := live[m].(coding := word / 0x100_0000);
        live := live[m := next.(bpp := next.Unit())];
      case BytePerPacket =>
        ok := live[m].BppLegal(word / HALF);
        if ok {
          live := live[m := live[m].(bpp := word / HALF)];
        }
    }

    // iso_compute_geometry for the latched format and mode.
    function StreamGeometry(): Geometry
      requires Valid()
      reads this
    {
      if format != F7_FORMAT then Fixed
      else if mode >= F7_MODES then Unstreamable
      else live[mode].Geometry()
    }
  }

  // ------------------------------------------------------------------------- the driver

  datatype Status = Configured | BadParameter | NoPacketisation | RegisterError

  // Photonic1394MaxIsochPayload at the stream speed, which is capped at S400.
  function MaxIsochPayload(scode: nat): nat {
    1024 * Pow2(if scode > 2 then 2 else scode)
  }

  // 1024 bytes at S100, twice as much with each speed step up to the camera's own ceiling.
  lemma PayloadDoubles(scode: nat)
    ensures MaxIsochPayload(0) == 1024
    ensures scode < 2 ==> MaxIsochPayload(scode + 1) == 2 * MaxIsochPayload(scode)
    ensures scode >= 2 ==> MaxIsochPayload(scode) == BUS_MAX_BPP
  {
    assert Pow2(1) == 2 && Pow2(2) == 4;
  }

  // What the stream asks for, and the speed code of the connection.
  datatype Request = Request(mode: nat, width: nat, height: nat, coding: nat, imageSize: nat, wanted: nat, scode: nat)
  {
    // The geometry the driver programs fits the registers, and its frame size is the one the
    // coding implies.
    predicate Matches() {
      mode < F7_MODES && width < HALF && height < HALF && coding < 256 && DriverBits(coding) != 0 &&
      imageSize == ImageBytes(width, height, DriverBits(coding))
    }

    function Unit(): nat { UnitBytes(width, CameraBits(coding)) }

    function Payload(): nat { MaxIsochPayload(scode) }

    // and its unit fits the 16-bit field it is reported in.
    predicate Fits() { Matches() && Unit() < HALF }

    predicate LegalSize(c: int) { Legal(c, Unit(), MaxBytes(Unit()), imageSize) }

    // The frame is a whole number of units, and one unit fits the bus.
    predicate Divides() { imageSize % Unit() == 0 && Unit() <= Payload() }

    // A nonempty region whose lines are whole quadlets and fit the bus.
    predicate QuadletLines() {
      Matches() && width > 0 && height > 0 && width * DriverBits(coding) % 32 == 0 &&
      width * DriverBits(coding) / 8 <= Payload()
    }
  }

  // A frame is at most height units: one line never exceeds the unit.
  lemma LinesFit(line: nat, unit: nat, height: nat)
    requires line <= 8 * unit && unit < HALF && height <= MAX_PACKETS_PER_FRAME
    ensures line * height / 8 <= height * unit < WORD
  {
    ScaleOrder(line, 8 * unit, height);
    assert 8 * unit * height == 8 * (height * unit);
    ScaleOrder(height, MAX_PACKETS_PER_FRAME, unit);
  }

  lemma UnitHoldsLine(width: nat, bits: nat)
    ensures width * bits <= 8 * UnitBytes(width, bits)
  {
    var x := width * bits;
    var line := (x + 7) / 8;
    assert x <= 8 * line;
  }

  lemma FrameFitsLines(r: Request)
    requires r.Matches() && r.Unit() < HALF && r.height <= MAX_PACKETS_PER_FRAME
    ensures r.imageSize <= r.height * r.Unit()
    ensures r.imageSize == r.width * CameraBits(r.coding) * r.height / 8
  {
    CodingsAgree(r.coding);
    LineFrame(r.width, r.height, CameraBits(r.coding));
  }

  lemma LineFrame(width: nat, height: nat, bits: nat)
    requires UnitBytes(width, bits) < HALF && height <= MAX_PACKETS_PER_FRAME
    ensures ImageBytes(width, height, bits) == width * bits * height / 8 <= height * UnitBytes(width, bits)
  {
    UnitHoldsLine(width, bits);
    LinesFit(width * bits, UnitBytes(width, bits), height);
    Reorder(width, height, bits);
  }

  lemma Reorder(a: nat, b: nat, c: nat)
    ensures a * b * c == a * c * b
  {
  }

  // Fewer packets than lines: a packet is at least one unit.
  lemma PacketsFit(frame: nat, height: nat, unit: nat, c: nat)
    requires unit > 0 && c >= unit && frame <= height * unit
    ensures frame / c <= height
  {
    ScaleOrder(unit, c, height);
    QuotientAtLeast(frame, c, height + 1);
    assert c * (height + 1) == c * height + c;
    assert unit * height == height * unit && c * height == height * c;
  }

  // A size the search picks is one the camera accepts.
  lemma ChosenIsAccepted(r: Request, c: nat)
    requires r.Fits() && r.LegalSize(c)
    ensures Live(r.width, r.height, r.coding, 0).BppLegal(c)
  {
  }

  // and one both sides cut the frame into whole packets with; the camera streams it exactly
  // when that makes no more packets than it can hold, and a frame of no more lines than that
  // never makes more packets than lines.
  lemma AgreedGeometry(r: Request, c: nat)
    requires r.Fits() && r.LegalSize(c) && r.imageSize > 0
    ensures c * (r.imageSize / c) == r.imageSize
    ensures Live(r.width, r.height, r.coding, c).Geometry() ==
            (if r.imageSize / c <= MAX_PACKETS_PER_FRAME then Stream(c, r.imageSize / c, r.imageSize) else Unstreamable)
    ensures r.height <= MAX_PACKETS_PER_FRAME ==> r.imageSize / c <= r.height
  {
    CodingsAgree(r.coding);
    Quotient(r.imageSize, c);
    NonzeroSides(r.width, r.height, DriverBits(r.coding));
    if r.height <= MAX_PACKETS_PER_FRAME {
      FrameFitsLines(r);
      PacketsFit(r.imageSize, r.height, r.Unit(), c);
    }
  }

  // Every legal size is a multiple of the unit,
  lemma SizeNeedsUnit(r: Request, d: int)
    requires r.LegalSize(d) && d <= r.Payload()
    ensures r.Divides()
  {
    DividesThrough(r.imageSize, d, r.Unit());
  }

  // and the unit is one itself when it divides the frame.
  lemma UnitIsLegal(r: Request)
    ensures r.imageSize % r.Unit() == 0 <==> r.LegalSize(r.Unit())
  {
    DivModIs(r.Unit(), r.Unit(), 1, 0);
  }

  // The sizes the bus carries and the camera accepts are exactly the multiples of the unit
  // within the payload that divide the frame.
  lemma CandidateMeans(r: Request, d: int)
    requires d > 0
    ensures r.LegalSize(d) && d <= r.Payload() <==> d % r.Unit() == 0 && d <= r.Payload() && r.imageSize % d == 0
    ensures r.Payload() <= 4096
  {
    PayloadDoubles(r.scode);
    if r.scode < 2 { PayloadDoubles(r.scode + 1); if r.scode == 0 { PayloadDoubles(2); } }
    MaxMeans(r.Unit());
    if d % r.Unit() == 0 {
      AtLeastUnit(d, r.Unit());
      if r.Unit() <= BUS_MAX_BPP { FlooredMultiples(BUS_MAX_BPP, r.Unit(), d); }
    }
  }

  lemma AtLeastUnit(d: nat, unit: nat)
    requires unit > 0 && d > 0 && d % unit == 0
    ensures d >= unit
  {
    if d < unit { DivModIs(d, unit, 0, d); }
  }

  // What the best size is, in terms of the frame, the unit and the payload alone.
  lemma BestMeans(r: Request, c: nat)
    requires BestSize(r, c)
    ensures c > 0 && c <= r.Payload() <= 4096 && c % r.Unit() == 0 && r.imageSize % c == 0
    ensures forall d: nat :: 0 < d <= r.Payload() && d % r.Unit() == 0 && r.imageSize % d == 0 ==>
              if r.imageSize * 1250 / c >= r.wanted then r.imageSize * 1250 / d >= r.wanted ==> d <= c
              else r.imageSize * 1250 / d < r.wanted && c <= d
  {
    CandidateMeans(r, c);
    forall d: nat | 0 < d <= r.Payload() && d % r.Unit() == 0 && r.imageSize % d == 0
      ensures if r.imageSize * 1250 / c >= r.wanted then r.imageSize * 1250 / d >= r.wanted ==> d <= c
              else r.imageSize * 1250 / d < r.wanted && c <= d
    {
      BestOver(r, c, d);
    }
  }

  lemma BestOver(r: Request, c: nat, d: nat)
    requires BestSize(r, c) && c > 0
    requires 0 < d <= r.Payload() && d % r.Unit() == 0 && r.imageSize % d == 0
    ensures if InTime(c, r.imageSize, r.wanted) then InTime(d, r.imageSize, r.wanted) ==> d <= c
            else !InTime(d, r.imageSize, r.wanted) && c <= d
  {
    CandidateMeans(r, d);
    CapMeans(MaxBytes(r.Unit()), r.Unit(), r.Payload(), r.imageSize, d);
  }

  // So some size is legal and fits the bus exactly when the unit divides the frame and fits it.
  lemma SizeExists(r: Request)
    ensures (exists d :: r.LegalSize(d) && d <= r.Payload()) <==> r.Divides()
  {
    UnitIsLegal(r);
    forall d | r.LegalSize(d) && d <= r.Payload() ensures r.Divides() { SizeNeedsUnit(r, d); }
  }

  lemma NonzeroSides(width: nat, height: nat, bits: nat)
    requires ImageBytes(width, height, bits) > 0
    ensures width > 0 && height > 0
  {
    assert width == 0 || height == 0 ==> width * height == 0;
  }

  // The register accesses of one configuration, in the order they are made, and whether the bus
  // carries each.
  datatype Carried = Carried(format: bool, mode: bool, size: bool, coding: bool, para: bool, packet: bool) {
    predicate All() { format && mode && size && coding && para && packet }
  }

  // PhotonicDcamConfigureFormat7 against the camera. lost tells whether the bus lost a register
  // access it made, nak whether the camera refused the packet size.
  method ConfigureFormat7(cam: Camera, r: Request, bus: Carried)
    returns (status: Status, bpp: nat, ppf: nat, nak: bool, lost: bool)
    requires cam.Valid() && r.mode < F7_MODES && r.coding < 256
    modifies cam
    ensures cam.Valid() && (r.imageSize == 0 ==> status.BadParameter?) && (bus.All() ==> !lost)
    ensures r.imageSize > 0 && !(bus.format && bus.mode && bus.size && bus.coding && bus.para) ==> lost
    ensures status.RegisterError? <==> nak || lost
    // it succeeds exactly when the unit divides the frame and fits the bus
    ensures r.Fits() && !lost ==> (status.Configured? <==> r.imageSize > 0 && r.Divides())
    ensures r.QuadletLines() && !lost ==> status.Configured?
    // the size chosen: the camera takes it, and it is the best one
    ensures r.Fits() ==> !nak && !status.NoPacketisation?
    ensures r.Fits() && status.Configured? ==>
              bpp * ppf == r.imageSize && 0 < bpp <= r.Payload() && bpp % r.Unit() == 0 && r.imageSize % bpp == 0
    // of all multiples of the unit within the payload that divide the frame: the largest one
    // not faster than the interval asked for, or else the smallest
    ensures r.Fits() && status.Configured? ==>
              forall d: nat :: 0 < d <= r.Payload() && d % r.Unit() == 0 && r.imageSize % d == 0 ==>
                if r.imageSize * 1250 / bpp >= r.wanted then r.imageSize * 1250 / d >= r.wanted ==> d <= bpp
                else r.imageSize * 1250 / d < r.wanted && bpp <= d
    // both sides agree on the frame
    ensures status.Configured? ==> cam.format == F7_FORMAT && cam.mode == r.mode
    ensures r.Fits() && status.Configured? ==>
              cam.StreamGeometry() == (if ppf <= MAX_PACKETS_PER_FRAME then Stream(bpp, ppf, r.imageSize) else Unstreamable)
    ensures r.Fits() && status.Configured? && r.height <= MAX_PACKETS_PER_FRAME ==> ppf <= r.height
  {
    bpp, ppf, nak, lost := 0, 0, false, false;
    if r.QuadletLines() { QuadletLinesStream(r); }
    if r.imageSize == 0 {
      return BadParameter, 0, 0, false, false;
    }
    lost := ProgramRegion(cam, r, bus);
    if lost || !bus.para { return RegisterError, 0, 0, false, true; }
    var unit, advertised := ReadBounds(cam, r);
    status, bpp, ppf, nak, lost := ChooseAndWrite(cam, r, unit, advertised, bus.packet);
    if r.Fits() && status.Configured? { BestMeans(r, bpp); }
  }

  // PACKET_PARA_INQ, split into its two halves.
  method ReadBounds(cam: Camera, r: Request) returns (unit: nat, advertised: nat)
    requires cam.Valid() && r.mode < F7_MODES
    requires r.Fits() ==> cam.live[r.mode].(bpp := 0) == Live(r.width, r.height, r.coding, 0)
    ensures advertised < HALF && (r.Fits() ==> unit == r.Unit() && advertised == MaxBytes(r.Unit()))
  {
    var para := cam.live[r.mode].PacketPara();
    if r.Fits() {
      PacketParaFields(r.Unit());
      assert cam.live[r.mode].Unit() == r.Unit();
    }
    unit, advertised := para / HALF, para % HALF;
  }

  method ChooseAndWrite(cam: Camera, r: Request, unit: nat, advertised: nat, carried: bool)
    returns (status: Status, bpp: nat, ppf: nat, nak: bool, lost: bool)
    requires cam.Valid() && r.mode < F7_MODES && r.coding < 256 && r.imageSize > 0 && advertised < HALF
    requires cam.format == F7_FORMAT && cam.mode == r.mode
    requires r.Fits() ==> unit == r.Unit() && advertised == MaxBytes(r.Unit())
    requires r.Fits() ==> cam.live[r.mode].(bpp := 0) == Live(r.width, r.height, r.coding, 0)
    modifies cam`live
    ensures cam.Valid() && (status.RegisterError? <==> nak || lost) && (carried ==> !lost)
    ensures r.Fits() && !lost ==> (status.Configured? <==> r.Divides())
    ensures r.Fits() ==> !nak && !status.NoPacketisation?
    ensures r.Fits() && status.Configured? ==>
              bpp * ppf == r.imageSize && BestSize(r, bpp)
    ensures r.Fits() && status.Configured? ==>
              cam.StreamGeometry() == (if ppf <= MAX_PACKETS_PER_FRAME then Stream(bpp, ppf, r.imageSize) else Unstreamable)
    ensures r.Fits() && status.Configured? && r.height <= MAX_PACKETS_PER_FRAME ==> ppf <= r.height
  {
    if unit == 0 || advertised == 0 {
      return NoPacketisation, 0, 0, false, false;
    }
    var c := ChoosePacket(unit, advertised, r.Payload(), r.imageSize, r.wanted);
    if r.Fits() { ChoiceMeans(r, c); }
    if c == 0 {
      return BadParameter, 0, 0, false, false;
    }
    if !carried { return RegisterError, 0, 0, false, true; }
    lost := false;
    var ok := WriteSize(cam, r.mode, c);
    if r.Fits() {
      ChosenIsAccepted(r, c);
      AgreedGeometry(r, c);
    }
    if !ok {
      return RegisterError, 0, 0, true, false;
    }
    return Configured, c, r.imageSize / c, false, false;
  }

  // A size that is legal, fits the bus and is the best such one.
  ghost predicate BestSize(r: Request, c: nat) {
    c <= r.Payload() && r.LegalSize(c) &&
    Chosen(c, r.Unit(), Cap(MaxBytes(r.Unit()), r.Unit(), r.Payload()), r.imageSize, r.wanted)
  }

  // What the choice comes to under the bounds this camera reports: a size is found exactly
  // when the unit divides the frame and fits the bus.
  lemma ChoiceMeans(r: Request, c: nat)
    requires c == 0 <==> forall d :: Legal(d, r.Unit(), MaxBytes(r.Unit()), r.imageSize) ==> d > r.Payload()
    requires c != 0 ==> Chosen(c, r.Unit(), Cap(MaxBytes(r.Unit()), r.Unit(), r.Payload()), r.imageSize, r.wanted)
    ensures c != 0 <==> r.Divides()
    ensures c != 0 ==> BestSize(r, c)
  {
    if c != 0 {
      CapMeans(MaxBytes(r.Unit()), r.Unit(), r.Payload(), r.imageSize, c);
      SizeNeedsUnit(r, c);
    } else {
      UnitIsLegal(r);
      assert Legal(r.Unit(), r.Unit(), MaxBytes(r.Unit()), r.imageSize) ==> r.Unit() > r.Payload();
    }
  }

  method WriteSize(cam: Camera, mode: nat, c: nat) returns (ok: bool)
    requires cam.Valid() && mode < F7_MODES && c < HALF
    modifies cam`live
    ensures cam.Valid() && (ok <==> old(cam.live[mode]).BppLegal(c))
    ensures ok ==> cam.live[mode] == old(cam.live[mode]).(bpp := c)
  {
    DivModIs(c * HALF, HALF, c, 0);
    ok := cam.WriteF7(mode, BytePerPacket, c * HALF);
  }

  // The four writes that select the mode and program its region and coding; the first that is
  // lost ends them.
  method ProgramRegion(cam: Camera, r: Request, bus: Carried) returns (lost: bool)
    requires cam.Valid() && r.mode < F7_MODES && r.coding < 256
    modifies cam
    ensures cam.Valid() && (!lost ==> cam.mode == r.mode && cam.format == F7_FORMAT)
    ensures lost <==> !(bus.format && bus.mode && bus.size && bus.coding)
    ensures !lost && r.width < HALF && r.height < HALF ==>
              cam.live[r.mode].(bpp := 0) == Live(r.width, r.height, r.coding, 0)
  {
    lost := true;
    if !bus.format { return; }
    cam.WriteFormat(F7_FORMAT * 0x2000_0000);
    if !bus.mode { return; }
    cam.WriteMode(r.mode * 0x2000_0000);
    if !bus.size { return; }
    ProgramSize(cam, r.mode, r.width % HALF, r.height % HALF);
    if !bus.coding { return; }
    lost := false;
    var ok := cam.WriteF7(r.mode, CodingId, r.coding * 0x100_0000);
  }

  method ProgramSize(cam: Camera, mode: nat, width: nat, height: nat)
    requires cam.Valid() && mode < F7_MODES && width < HALF && height < HALF
    modifies cam`live
    ensures cam.Valid() && cam.live[mode].width == width && cam.live[mode].height == height
  {
    Fields16(width, height);
    var ok := cam.WriteF7(mode, ImageSize, Or(width * HALF, height));
  }

  // The driver reads back exactly the unit and maximum the camera means.
  lemma PacketParaFields(unit: nat)
    requires 4 <= unit < HALF
    ensures MaxBytes(unit) < HALF
    ensures var para := Or((unit * HALF) % WORD, MaxBytes(unit));
            para / HALF == unit && para % HALF == MaxBytes(unit)
  {
    FlooredMultiples(BUS_MAX_BPP, unit, unit);
    Fields16(unit, MaxBytes(unit));
  }

  lemma Quotient(a: nat, b: nat)
    requires b > 0 && a % b == 0
    ensures b * (a / b) == a
  {
  }

  // A region whose lines are whole quadlets and fit the bus payload always streams: the unit
  // is one line, and it divides the frame.
  lemma QuadletLinesStream(r: Request)
    requires r.QuadletLines()
    ensures r.Fits() && r.Unit() == r.width * DriverBits(r.coding) / 8
    ensures r.imageSize == r.height * r.Unit() > 0 && r.Divides()
  {
    CodingsAgree(r.coding);
    PayloadDoubles(r.scode);
    var bits := DriverBits(r.coding);
    MultipleSize(bits, r.width);
    LineUnit(r.width, bits, r.width * bits / 32);
    LinesFrame(r.width, r.height, bits, r.Unit());
  }

  // A frame of whole lines of one unit each.
  lemma LinesFrame(width: nat, height: nat, bits: nat, unit: nat)
    requires width * bits == 8 * unit && 0 < unit < HALF && 0 < height < HALF
    ensures ImageBytes(width, height, bits) == height * unit > 0 && height * unit % unit == 0
  {
    Reorder(width, height, bits);
    ScaleOrder(height, HALF, unit);
    assert 8 * unit * height == 8 * (height * unit);
    DivModIs(height * unit, unit, height, 0);
    ScaleOrder(1, height, unit);
  }

  lemma LineUnit(width: nat, bits: nat, quads: nat)
    requires width * bits == 32 * quads && quads > 0
    ensures UnitBytes(width, bits) == 4 * quads == width * bits / 8
  {
  }

  // Without that alignment the padding of the lines shows: a region whose lines are not whole
  // quadlets is refused as long as the padding of all its lines stays below one line.
  lemma UnalignedLinesRefused(r: Request)
    requires r.Fits() && r.width > 0 && r.width * DriverBits(r.coding) % 32 != 0
    requires 0 < 4 * r.height < r.Unit() && r.height <= MAX_PACKETS_PER_FRAME
    ensures !r.Divides() && forall d :: r.LegalSize(d) ==> d > r.Payload()
  {
    CodingsAgree(r.coding);
    FrameFitsLines(r);
    var unit, h := r.Unit(), r.height;
    UnitPads(r.width, CameraBits(r.coding));
    PaddedFrame(r.width * CameraBits(r.coding), unit, h);
    BetweenMultiples(r.imageSize, unit, h);
    SizeExists(r);
  }

  lemma BetweenMultiples(x: nat, unit: nat, h: nat)
    requires unit > 0 && h > 0 && unit * h - unit < x < unit * h
    ensures x % unit != 0
  {
    assert unit * (h - 1) == unit * h - unit;
    DivModIs(x, unit, h - 1, x - unit * (h - 1));
  }

  // The unit exceeds an unaligned line by less than a quadlet.
  lemma UnitPads(width: nat, bits: nat)
    requires width * bits % 32 != 0
    ensures width * bits < 8 * UnitBytes(width, bits) < width * bits + 32
  {
  }

  lemma PaddedFrame(line: nat, unit: nat, h: nat)
    requires line < 8 * unit < line + 32 && 0 < 4 * h < unit
    ensures unit * h - unit < line * h / 8 < unit * h
  {
    var pad := 8 * unit - line;
    assert line * h == 8 * (unit * h) - pad * h;
    ScaleOrder(1, pad, h);
    ScaleOrder(pad, 31, h);
  }

  // dcam_f7_csr_pointer, with DCAM_F7_CSR_BLOCK and DCAM_F7_CSR_BLOCK_LEN
  function CsrPointer(csrBase: nat, mode: nat): nat
    requires csrBase >= SPACE_BASE
  {
    (csrBase - SPACE_BASE + 0xa00 + mode * 0x100) / 4
  }

  // The pointer the camera advertises leads the driver to exactly that mode's block.
  lemma PointerFindsBlock(csrBase: nat, mode: nat)
    requires WINDOW_MIN <= csrBase && csrBase % 4 == 0 && mode < F7_MODES
    requires csrBase + 0xa00 + F7_MODES * 0x100 <= WINDOW_MAX
    ensures CsrPointerToOffset(csrBase, CsrPointer(csrBase, mode), 0x48) == Offset(0xa00 + mode * 0x100)
  {
  }
}
