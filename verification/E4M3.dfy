// The non-negative half of the E4M3 format: code c stands for Grid(c), and the top code,
// NOT_A_NUMBER, takes the place of the grid point one above the largest number, 448.
// Conversion rounds to nearest, ties to even, as section 4.3.1 of IEEE 754-2019 defines it.
module E4M3 {
  type Byte = b: int | 0 <= b < 256

  const NOT_A_NUMBER: Byte := 127
  const NEGATIVE_ZERO: Byte := 128

  // The value of a code in units of 2^-9: 16 steps of one unit, then 8 steps of each
  // doubled size.
  function Units(c: nat): nat {
    if c < 16 then c else 2 * Units(c - 8)
  }

  function UnitStep(c: nat): (step: nat)
    ensures step > 0
  {
    if c < 16 then 1 else 2 * UnitStep(c - 8)
  }

  function Grid(c: nat): real {
    Units(c) as real / 512.0
  }

  // The distance from code c to the next one.
  function Step(c: nat): (step: real)
    ensures step > 0.0
  {
    UnitStep(c) as real / 512.0
  }

  predicate IsNegative(b: Byte) {
    NEGATIVE_ZERO < b < 255
  }

  predicate IsFinite(b: Byte) {
    b != NOT_A_NUMBER && b != 255
  }

  // A scale the correction accepts; negative zero compares as not below zero.
  predicate IsScale(b: Byte) {
    IsFinite(b) && !IsNegative(b)
  }

  function Value(b: Byte): (x: real)
    requires IsScale(b)
    ensures x >= 0.0
  {
    if b == NEGATIVE_ZERO then 0.0 else Grid(b)
  }

  // ---- the grid -----------------------------------------------------------------------------

  lemma {:induction false} UnitsStep(c: nat)
    ensures Units(c + 1) == Units(c) + UnitStep(c)
  {
    if c >= 16 {
      UnitsStep(c - 8);
    }
  }

  lemma GridStep(c: nat)
    ensures Grid(c + 1) == Grid(c) + Step(c)
  {
    UnitsStep(c);
  }

  lemma {:induction false} GridIncreases(c: nat, d: nat)
    requires c < d
    ensures Grid(c) + Step(c) <= Grid(d)
    decreases d
  {
    GridStep(d - 1);
    if c < d - 1 {
      GridIncreases(c, d - 1);
    }
  }

  // From the first normal number on, a step is at most an eighth of the value.
  lemma {:induction false} StepIsRelative(c: nat)
    requires c >= 8
    ensures 8.0 * Step(c) <= Grid(c)
  {
    StepInUnits(c);
  }

  lemma {:induction false} StepInUnits(c: nat)
    requires c >= 8
    ensures 8 * UnitStep(c) <= Units(c)
  {
    if c >= 16 {
      StepInUnits(c - 8);
    }
  }

  lemma LargestNumber()
    ensures Grid(126) == 448.0 && Grid(127) == 480.0
  {
    assert Units(14) == 14 && Units(22) == 28 && Units(30) == 56 && Units(38) == 112;
    assert Units(46) == 224 && Units(54) == 448 && Units(62) == 896 && Units(70) == 1792;
    assert Units(78) == 3584 && Units(86) == 7168 && Units(94) == 14336 && Units(102) == 28672;
    assert Units(110) == 57344 && Units(118) == 114688 && Units(126) == 229376;
    GridStep(126);
    assert UnitStep(22) == 2 && UnitStep(30) == 4 && UnitStep(38) == 8 && UnitStep(46) == 16;
    assert UnitStep(54) == 32 && UnitStep(62) == 64 && UnitStep(70) == 128 && UnitStep(78) == 256;
    assert UnitStep(86) == 512 && UnitStep(94) == 1024 && UnitStep(102) == 2048 && UnitStep(110) == 4096;
    assert UnitStep(118) == 8192 && UnitStep(126) == 16384;
  }

  // ---- rounding -----------------------------------------------------------------------------

  function Distance(x: real, y: real): real {
    if x < y then y - x else x - y
  }

  // c is the nearest of the codes up to NOT_A_NUMBER, the even one of two that are equally near.
  ghost predicate IsNearestEven(x: real, c: nat) {
    && c <= NOT_A_NUMBER
    && (forall d: nat :: d <= NOT_A_NUMBER && d != c ==>
          || Distance(x, Grid(c)) < Distance(x, Grid(d))
          || (Distance(x, Grid(c)) == Distance(x, Grid(d)) && c % 2 == 0))
  }

  // The last code at or below x.
  function Below(x: real, c: nat): (r: nat)
    requires c <= NOT_A_NUMBER && Grid(c) <= x
    ensures c <= r <= NOT_A_NUMBER && Grid(r) <= x && (r < NOT_A_NUMBER ==> x < Grid(r + 1))
    decreases NOT_A_NUMBER - c
  {
    if c == NOT_A_NUMBER || x < Grid(c + 1) then c else Below(x, c + 1)
  }

  // The nearer of codes low and low + 1, which lie at the given distances.
  function Nearer(low: nat, down: real, up: real): nat {
    if down < up then low
    else if down > up then low + 1
    else if low % 2 == 0 then low else low + 1
  }

  function Convert(x: real): (c: Byte)
    requires x >= 0.0
    ensures c <= NOT_A_NUMBER
  {
    var low := Below(x, 0);
    if low == NOT_A_NUMBER then NOT_A_NUMBER else Nearer(low, x - Grid(low), Grid(low + 1) - x)
  }

  // The gap of the grid in which x lies.
  function LocalStep(x: real): (step: real)
    requires x >= 0.0
    ensures step > 0.0
  {
    Step(Below(x, 0))
  }

  lemma FartherCodes(x: real, low: nat, d: nat)
    requires Grid(low) <= x < Grid(low + 1) && d != low && d != low + 1
    ensures Distance(x, Grid(d)) > (if d < low then x - Grid(low) else Grid(low + 1) - x)
  {
    if d < low {
      GridIncreases(d, low);
    } else {
      GridIncreases(low + 1, d);
    }
  }

  // The chosen code lies at the smaller one of the two neighbours' distances.
  ghost predicate IsNearer(low: nat, c: nat, distance: real, down: real, up: real) {
    && distance <= down && distance <= up
    && ((c == low && distance == down) || (c == low + 1 && distance == up))
    && (down == up ==> c % 2 == 0)
  }

  lemma NearerIsNearer(x: real, low: nat)
    requires Grid(low) <= x < Grid(low + 1)
    ensures var c := Nearer(low, x - Grid(low), Grid(low + 1) - x);
            IsNearer(low, c, Distance(x, Grid(c)), x - Grid(low), Grid(low + 1) - x)
  {
  }

  lemma ConvertChoosesNearer(x: real)
    requires 0.0 <= x < Grid(NOT_A_NUMBER)
    ensures var low, c := Below(x, 0), Convert(x);
            low < NOT_A_NUMBER && IsNearer(low, c, Distance(x, Grid(c)), x - Grid(low), Grid(low + 1) - x)
  {
    NearerIsNearer(x, Below(x, 0));
  }

  lemma ConvertBeats(x: real, d: nat)
    requires 0.0 <= x < Grid(NOT_A_NUMBER) && d != Convert(x)
    ensures var c := Convert(x);
            || Distance(x, Grid(c)) < Distance(x, Grid(d))
            || (Distance(x, Grid(c)) == Distance(x, Grid(d)) && c % 2 == 0)
  {
    ConvertChoosesNearer(x);
    var low := Below(x, 0);
    if d != low && d != low + 1 {
      FartherCodes(x, low, d);
    }
  }

  lemma ConvertIsNearestEven(x: real)
    requires 0.0 <= x < Grid(NOT_A_NUMBER)
    ensures IsNearestEven(x, Convert(x))
  {
    forall d: nat | d <= NOT_A_NUMBER && d != Convert(x)
      ensures Distance(x, Grid(Convert(x))) < Distance(x, Grid(d))
           || (Distance(x, Grid(Convert(x))) == Distance(x, Grid(d)) && Convert(x) % 2 == 0)
    {
      ConvertBeats(x, d);
    }
  }

  lemma ConvertWithinHalfStep(x: real)
    requires 0.0 <= x < Grid(NOT_A_NUMBER)
    ensures Distance(x, Grid(Convert(x))) <= LocalStep(x) / 2.0
  {
    ConvertChoosesNearer(x);
    GridStep(Below(x, 0));
  }

  lemma NearestEvenIsUnique(x: real, c: nat, d: nat)
    requires IsNearestEven(x, c) && IsNearestEven(x, d)
    ensures c == d
  {
    if c < d {
      BetweenAdjacent(x, c, d);
    } else if d < c {
      BetweenAdjacent(x, d, c);
    }
  }

  // Two equally near codes have no code between them, so just one of them is even.
  lemma BetweenAdjacent(x: real, c: nat, d: nat)
    requires c < d <= NOT_A_NUMBER && IsNearestEven(x, c)
    ensures !IsNearestEven(x, d)
  {
    GridIncreases(c, c + 1);
    if c + 1 < d {
      GridIncreases(c + 1, d);
    }
  }

  lemma ConvertKeepsGrid(c: nat)
    requires c <= NOT_A_NUMBER
    ensures Grid(c) >= 0.0 && Convert(Grid(c)) == c
  {
    var low := Below(Grid(c), 0);
    if low < c {
      GridStep(low);
      if low + 1 < c {
        GridIncreases(low + 1, c);
      }
      assert false;
    } else if c < low {
      GridIncreases(c, low);
      assert false;
    }
    if c < NOT_A_NUMBER {
      GridStep(c);
    }
  }

  // Rounding never passes a grid point.
  lemma ConvertStaysBelow(x: real, c: nat)
    requires c <= NOT_A_NUMBER && 0.0 <= x <= Grid(c)
    ensures Convert(x) <= c
  {
    var low := Below(x, 0);
    if low > c {
      GridIncreases(c, low);
      assert false;
    } else if low == c {
      ConvertKeepsGrid(c);
    }
  }
}
