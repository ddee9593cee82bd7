/** The colour assignment of the animal detector: a class id chosen by the
    detection model is mapped to the BGR triple used to draw its box and label.

    The palette has three base colours, selected by `cls % 3`; each base colour is
    then shifted channel by channel by an increment pattern scaled by the palette
    cycle `cls / 3`. In detection.py the expression `base + inc * cycle % 256`
    groups as `base + ((inc * cycle) % 256)`: only the shift is reduced modulo 256,
    so a channel lies in `[base, base + 255]` and may exceed 255.

    Python's `//` and `%` round toward negative infinity. With the positive
    divisors used here that is exactly Dafny's Euclidean `/` and `%`, for every
    integer, so class ids are taken as `int` and the model is exact. */
module Colours {

  /** A colour in OpenCV's channel order: blue, green, red. */
  datatype Bgr = Bgr(blue: int, green: int, red: int)

  /** Channel `i` of a colour, in the order of the tuple (0 = blue, 1 = green, 2 = red). */
  function Channel(c: Bgr, i: nat): int
    requires i < 3
  {
    if i == 0 then c.blue else if i == 1 then c.green else c.red
  }

  /** The base palette, one colour per slot: blue, green, red. */
  const BaseColours: seq<Bgr> := [Bgr(255, 0, 0), Bgr(0, 255, 0), Bgr(0, 0, 255)]

  /** The per-slot increment pattern applied once per palette cycle. */
  const Increments: seq<Bgr> := [Bgr(1, -2, 1), Bgr(-2, 1, -1), Bgr(1, -1, 2)]

  /** Number of palette slots (the length of the base palette). */
  const PaletteSize: nat := 3

  /** The modulus applied to the shift of each channel. */
  const ShiftModulus: nat := 256

  /** After this many class ids the colours repeat: 3 slots times 256 shifts. */
  const Period: nat := 768

  /** Channel `i` of the colour for palette slot `slot` in palette cycle `cycle`. */
  function Shifted(slot: nat, i: nat, cycle: int): int
    requires slot < PaletteSize && i < 3
  {
    Channel(BaseColours[slot], i) + (Channel(Increments[slot], i) * cycle) % ShiftModulus
  }

  /** The colour drawn for detections of class `cls`. Every channel stays within
      255 of its base value; the first three class ids get the base palette itself. */
  function GetColours(cls: int): (c: Bgr)
    ensures forall i :: 0 <= i < 3 ==>
      Channel(BaseColours[cls % PaletteSize], i) <= Channel(c, i) <= Channel(BaseColours[cls % PaletteSize], i) + 255
    ensures 0 <= c.blue <= 510 && 0 <= c.green <= 510 && 0 <= c.red <= 510
    ensures 0 <= cls < PaletteSize ==> c == BaseColours[cls]
  {
    var slot := cls % PaletteSize;
    var cycle := cls / PaletteSize;
    Bgr(Shifted(slot, 0, cycle), Shifted(slot, 1, cycle), Shifted(slot, 2, cycle))
  }

  /** Euclidean division by a positive divisor is unique. */
  lemma DivModUnique(a: int, d: int, q: int, r: int)
    requires d > 0 && a == d * q + r && 0 <= r < d
    ensures a / d == q && a % d == r
  {
    var m := a / d - q;
    assert d * m == r - a % d by {
      assert a == d * (a / d) + a % d;
      assert d * (a / d) - d * q == d * m;
    }
    if m > 0 {
      PositiveMultiple(d, m);
    } else if m < 0 {
      PositiveMultiple(d, -m);
    }
  }

  /** A positive multiple of a positive number is at least that number. */
  lemma PositiveMultiple(d: int, m: int)
    requires d > 0 && m > 0
    ensures d * m >= d
  {
    assert d * m == d * (m - 1) + d;
  }

  /** Adding a multiple of 256 does not change a residue modulo 256. */
  lemma ModAddMultiple(x: int, k: int)
    ensures (x + ShiftModulus * k) % ShiftModulus == x % ShiftModulus
  {
    var q := x / ShiftModulus;
    var r := x % ShiftModulus;
    assert x + ShiftModulus * k == ShiftModulus * (q + k) + r;
    DivModUnique(x + ShiftModulus * k, ShiftModulus, q + k, r);
  }

  /** Scaling preserves congruence modulo 256. */
  lemma MulModCongruent(c: int, x: int, y: int)
    requires x % ShiftModulus == y % ShiftModulus
    ensures (c * x) % ShiftModulus == (c * y) % ShiftModulus
  {
    var r := x % ShiftModulus;
    var a := x / ShiftModulus;
    var b := y / ShiftModulus;
    assert c * x == c * r + ShiftModulus * (c * a);
    assert c * y == c * r + ShiftModulus * (c * b);
    ModAddMultiple(c * r, c * a);
    ModAddMultiple(c * r, c * b);
  }

  /** A class id's position within the period is made of its slot and the
      residue of its cycle: `cls % 768 == 3 * ((cls / 3) % 256) + cls % 3`. */
  lemma PeriodDecomposition(cls: int)
    ensures cls % Period == PaletteSize * ((cls / PaletteSize) % ShiftModulus) + cls % PaletteSize
  {
    var s := cls % PaletteSize;
    var q := cls / PaletteSize;
    var t := q % ShiftModulus;
    var k := q / ShiftModulus;
    assert cls == Period * k + (PaletteSize * t + s);
    DivModUnique(cls, Period, k, PaletteSize * t + s);
  }

  /** Two class ids occupy the same position in the period exactly when they share
      a palette slot and their cycles agree modulo 256. */
  lemma SamePeriodPosition(a: int, b: int)
    ensures a % Period == b % Period <==>
      a % PaletteSize == b % PaletteSize && (a / PaletteSize) % ShiftModulus == (b / PaletteSize) % ShiftModulus
  {
    PeriodDecomposition(a);
    PeriodDecomposition(b);
    var sa, sb := a % PaletteSize, b % PaletteSize;
    var ta, tb := (a / PaletteSize) % ShiftModulus, (b / PaletteSize) % ShiftModulus;
    if a % Period == b % Period {
      assert PaletteSize * ta + sa == PaletteSize * tb + sb;
      DivModUnique(PaletteSize * ta + sa, PaletteSize, ta, sa);
      DivModUnique(PaletteSize * tb + sb, PaletteSize, tb, sb);
    }
  }

  /** Within one palette slot, the colour is decided by the cycle modulo 256. */
  lemma SameSlotColours(a: int, b: int)
    requires a % PaletteSize == b % PaletteSize
    ensures GetColours(a) == GetColours(b) <==>
      (a / PaletteSize) % ShiftModulus == (b / PaletteSize) % ShiftModulus
  {
    var s := a % PaletteSize;
    var qa, qb := a / PaletteSize, b / PaletteSize;
    if qa % ShiftModulus == qb % ShiftModulus {
      MulModCongruent(Increments[s].blue, qa, qb);
      MulModCongruent(Increments[s].green, qa, qb);
      MulModCongruent(Increments[s].red, qa, qb);
    } else {
      // Every slot has one channel whose increment is 1: that channel exposes the cycle.
      if s == 0 || s == 2 {
        assert GetColours(a).blue != GetColours(b).blue;
      } else {
        assert GetColours(a).green != GetColours(b).green;
      }
    }
  }

  /** A class id whose cycle is a multiple of 256 shifts no channel at all. */
  lemma ZeroShift(cls: int, i: nat)
    requires i < 3 && (cls / PaletteSize) % ShiftModulus == 0
    ensures Channel(GetColours(cls), i) == Channel(BaseColours[cls % PaletteSize], i)
  {
    var s := cls % PaletteSize;
    var q := cls / PaletteSize;
    MulModCongruent(Channel(Increments[s], i), q, 0);
  }

  /** Colours from different palette slots never coincide, whatever the class ids. */
  lemma DifferentSlotsDiffer(a: int, b: int)
    requires a % PaletteSize != b % PaletteSize
    ensures GetColours(a) != GetColours(b)
  {
    // Equal colours from different slots would pin the channel where one base has
    // 255 to exactly 255, which happens only for an unshifted colour; an unshifted
    // base colour has 0 where the other slot's colour is at least 255.
    if (a / PaletteSize) % ShiftModulus == 0 {
      ZeroShift(a, 0); ZeroShift(a, 1); ZeroShift(a, 2);
    }
    if (b / PaletteSize) % ShiftModulus == 0 {
      ZeroShift(b, 0); ZeroShift(b, 1); ZeroShift(b, 2);
    }
  }

  /** Two class ids get the same colour exactly when they are congruent modulo 768. */
  lemma ColoursEqualIff(a: int, b: int)
    ensures GetColours(a) == GetColours(b) <==> a % Period == b % Period
  {
    SamePeriodPosition(a, b);
    if a % PaletteSize == b % PaletteSize {
      SameSlotColours(a, b);
    } else {
      DifferentSlotsDiffer(a, b);
    }
  }

  /** The colours repeat with period 768. */
  lemma Periodic(cls: int)
    ensures GetColours(cls + Period) == GetColours(cls)
  {
    DivModUnique(cls + Period, Period, cls / Period + 1, cls % Period);
    ColoursEqualIff(cls + Period, cls);
  }

  /** Within one period the colours are unique: distinct class ids in 0..767 never
      share a colour. */
  lemma UniqueWithinPeriod(a: int, b: int)
    requires 0 <= a < Period && 0 <= b < Period && a != b
    ensures GetColours(a) != GetColours(b)
  {
    DivModUnique(a, Period, 0, a);
    DivModUnique(b, Period, 0, b);
    ColoursEqualIff(a, b);
  }

  /** Class 3, the first id of the second cycle, already leaves the 0..255 channel
      range: its blue channel is 256. */
  lemma ClassThreeLeavesByteRange()
    ensures GetColours(3) == Bgr(256, 254, 1)
    ensures GetColours(3).blue > 255
  {
  }
}
