// The driver's choice of a Format 7 packet size. The specification knows nothing of targets
// and clamps: among the legal sizes it wants the largest that is not faster than the frame
// interval asked for, or else the smallest.

module PacketSearch {
  import opened Arithmetic

  // DCAM_ISO_CYCLE_100NS
  const CYCLE: nat := 1250

  // A size the camera accepts, the bus carries and the frame divides into.
  predicate Legal(c: int, unit: nat, cap: nat, frame: nat)
    requires unit > 0
  {
    unit <= c <= cap && c % unit == 0 && frame % c == 0
  }

  // One packet each 125us cycle: streaming the frame in packets of c bytes takes at least
  // the interval asked for.
  predicate InTime(c: int, frame: nat, wanted: nat)
    requires c > 0
  {
    frame * CYCLE / c >= wanted
  }

  // The size the design asks for.
  ghost predicate Chosen(c: nat, unit: nat, cap: nat, frame: nat, wanted: nat)
    requires unit > 0
  {
    && Legal(c, unit, cap, frame)
    && (if InTime(c, frame, wanted)
        then forall d :: Legal(d, unit, cap, frame) && InTime(d, frame, wanted) ==> d <= c
        else forall d :: Legal(d, unit, cap, frame) ==> !InTime(d, frame, wanted) && c <= d)
  }

  // The advertised maximum under the payload limit of the bus speed.
  function Cap(advertised: nat, unit: nat, payload: nat): nat
    requires unit > 0
  {
    if advertised > payload then payload / unit * unit else advertised
  }

  // The rate-derived size, snapped to a unit multiple.
  function Target(frame: nat, wanted: nat, unit: nat, cap: nat): nat
    requires unit > 0
  {
    var raw := if wanted != 0 then (if frame * CYCLE / wanted > cap then cap else frame * CYCLE / wanted) else cap;
    var floored := raw / unit * unit;
    var snapped := if floored == 0 then unit else floored;
    if snapped > cap then cap else snapped
  }

  // Capping loses no size that both limits allow.
  lemma CapMeans(advertised: nat, unit: nat, payload: nat, frame: nat, d: int)
    requires unit > 0
    ensures Legal(d, unit, Cap(advertised, unit, payload), frame) <==>
            Legal(d, unit, advertised, frame) && d <= payload
  {
    if d % unit == 0 { FlooredMultiples(payload, unit, d); }
  }

  lemma InTimeMeans(d: int, frame: nat, wanted: nat)
    requires d > 0
    ensures InTime(d, frame, wanted) <==> wanted == 0 || d <= frame * CYCLE / wanted
  {
    QuotientAtLeast(frame * CYCLE, d, wanted);
    if wanted != 0 { QuotientAtLeast(frame * CYCLE, wanted, d); }
  }

  // At or below the target is the same as in time, except that one unit stands in for a rate
  // slower than the geometry can go.
  lemma TargetMeans(d: int, unit: nat, cap: nat, frame: nat, wanted: nat)
    requires unit > 0 && Legal(d, unit, cap, frame)
    ensures var t := Target(frame, wanted, unit, cap);
            if InTime(unit, frame, wanted) then (d <= t <==> InTime(d, frame, wanted))
            else !InTime(d, frame, wanted) && (d <= t <==> d == unit)
  {
    var limit := if wanted != 0 then frame * CYCLE / wanted else cap;
    var raw := if limit > cap then cap else limit;
    InTimeMeans(d, frame, wanted);
    InTimeMeans(unit, frame, wanted);
    assert InTime(d, frame, wanted) <==> d <= raw;
    FloorMeans(d, unit, raw);
  }

  lemma FloorMeans(d: int, unit: nat, raw: nat)
    requires unit > 0 && d >= unit && d % unit == 0
    ensures if raw >= unit then raw / unit * unit >= unit && (d <= raw / unit * unit <==> d <= raw)
            else raw / unit * unit == 0
    ensures raw / unit * unit <= raw
  {
    FlooredMultiples(raw, unit, d);
    DivModIs(unit, unit, 1, 0);
    FlooredMultiples(raw, unit, unit);
    if raw < unit { DivModIs(raw, unit, 0, raw); }
  }

  // Every legal size under c is at most best.
  ghost predicate Scanned(c: int, best: int, unit: nat, cap: nat, frame: nat)
    requires unit > 0
  {
    forall d :: Legal(d, unit, cap, frame) && d < c ==> d <= best
  }

  lemma ScanNext(c: int, best: int, unit: nat, cap: nat, frame: nat)
    requires unit > 0 && c >= unit && c % unit == 0 && Scanned(c, best, unit, cap, frame)
    ensures (c + unit) % unit == 0
    ensures Scanned(c + unit, if Legal(c, unit, cap, frame) then c else best, unit, cap, frame)
  {
    NextMultiple(c, unit);
    forall d | Legal(d, unit, cap, frame) && d < c + unit
      ensures d <= if Legal(c, unit, cap, frame) then c else best
    {
      if d > c { NoneBetween(c, unit, d); }
    }
  }

  // The scan of the legal multiples around a target; 0 when none divides the frame.
  method Search(unit: nat, cap: nat, frame: nat, target: nat) returns (c: nat)
    requires unit > 0
    ensures c == 0 ==> forall d :: !Legal(d, unit, cap, frame)
    ensures c != 0 ==> Legal(c, unit, cap, frame)
    ensures c != 0 && c <= target ==> forall d :: Legal(d, unit, cap, frame) && d <= target ==> d <= c
    ensures c > target ==> forall d :: Legal(d, unit, cap, frame) ==> target < d && c <= d
  {
    var below, above := 0, 0;
    var candidate := unit;
    DivModIs(unit, unit, 1, 0);
    while candidate <= cap
      invariant candidate >= unit && candidate % unit == 0 && above == 0
      invariant below <= target && (below != 0 ==> Legal(below, unit, cap, frame))
      invariant Scanned(candidate, below, unit, cap, frame)
    {
      ScanNext(candidate, below, unit, cap, frame);
      if frame % candidate == 0 {
        if candidate <= target {
          below := candidate;
        } else {
          above := candidate;
          break;
        }
      }
      candidate := candidate + unit;
    }
    c := if below != 0 then below else above;
  }

  lemma NextMultiple(c: int, unit: nat)
    requires unit > 0 && c % unit == 0
    ensures (c + unit) % unit == 0
  {
    assert c == unit * (c / unit);
    assert unit * (c / unit + 1) == c + unit;
    DivModIs(c + unit, unit, c / unit + 1, 0);
  }

  lemma NoneBetween(c: int, unit: nat, d: int)
    requires unit > 0 && c % unit == 0 && d % unit == 0 && d > c
    ensures d >= c + unit
  {
    var j, k := c / unit, d / unit;
    assert c == unit * j && d == unit * k;
    if k <= j { MultipleOrder(unit, k, j); } else { MultipleOrder(unit, j + 1, k); }
    assert unit * (j + 1) == unit * j + unit;
  }

  // The packet-size part of PhotonicDcamConfigureFormat7: sound, optimal and complete.
  method ChoosePacket(unit: nat, advertised: nat, payload: nat, frame: nat, wanted: nat) returns (c: nat)
    requires unit > 0 && frame > 0
    ensures c == 0 <==> forall d :: Legal(d, unit, advertised, frame) ==> d > payload
    ensures c != 0 ==> Chosen(c, unit, Cap(advertised, unit, payload), frame, wanted)
    ensures c != 0 ==> c <= advertised && c <= payload
  {
    var cap := Cap(advertised, unit, payload);
    forall d ensures Legal(d, unit, cap, frame) <==> Legal(d, unit, advertised, frame) && d <= payload {
      CapMeans(advertised, unit, payload, frame, d);
    }
    if cap == 0 {
      return 0;
    }
    var target := Target(frame, wanted, unit, cap);
    c := Search(unit, cap, frame, target);
    forall d | Legal(d, unit, cap, frame)
      ensures if InTime(unit, frame, wanted) then (d <= target <==> InTime(d, frame, wanted))
              else !InTime(d, frame, wanted) && (d <= target <==> d == unit)
    {
      TargetMeans(d, unit, cap, frame, wanted);
    }
  }
}
