/**
 * The cost calculator: boards times unit prices, with the plates of a floating
 * pressure-treated wall split between the treated and the standard price.
 */
module WallCosts {
  import opened JsMath

  /** `calculateStudCost`: no boards cost nothing, and boards at a
      non-negative price never cost less than nothing. */
  function StudCost(studsNeeded: int, studUnitCost: real): (c: real)
    ensures studsNeeded == 0 ==> c == 0.0
    ensures studsNeeded >= 0 && studUnitCost >= 0.0 ==> c >= 0.0
  {
    if studsNeeded >= 0 && studUnitCost >= 0.0 then
      MulLeqNonNeg(0.0, studUnitCost, studsNeeded as real);
      studsNeeded as real * studUnitCost
    else studsNeeded as real * studUnitCost
  }

  /** How the plates of a floating pressure-treated wall are billed. */
  datatype PlateSplit = PlateSplit(pressureTreated: int, regular: int)

  /** Half the plates, rounded up, are pressure-treated; the rest are regular.
      The two parts add up to all plates and differ by at most one, the odd
      plate going to the treated side. */
  function SplitPlates(platesNeeded: int): (s: PlateSplit)
    ensures s.pressureTreated + s.regular == platesNeeded
    ensures 0 <= s.pressureTreated - s.regular <= 1
  {
    var pressureTreated := Ceil(platesNeeded as real / 2.0);
    assert (2 * pressureTreated) as real == 2.0 * pressureTreated as real;
    PlateSplit(pressureTreated, platesNeeded - pressureTreated)
  }

  /** `calculatePlateCost`: every plate at the standard price, unless the
      wall is floating and pressure-treated, when the treated half (rounded
      up) takes the treated price; the split shows only when the two prices
      differ. */
  function PlateCost(platesNeeded: int, plateUnitCost: real, isFloatingWall: bool,
                     isPressureTreated: bool, pressureTreatedPlateCost: real): (c: real)
    ensures !(isFloatingWall && isPressureTreated) || plateUnitCost == pressureTreatedPlateCost ==>
      c == platesNeeded as real * plateUnitCost
  {
    if isFloatingWall && isPressureTreated then
      var split := SplitPlates(platesNeeded);
      var a, b := split.pressureTreated as real, split.regular as real;
      assert a + b == platesNeeded as real;
      assert a * plateUnitCost + b * plateUnitCost == (a + b) * plateUnitCost;
      a * pressureTreatedPlateCost + b * plateUnitCost
    else platesNeeded as real * plateUnitCost
  }

  /** `calculateTotalCost`: the total never falls below either non-negative
      part. */
  function TotalCost(studCost: real, plateCost: real): (c: real)
    ensures studCost >= 0.0 && plateCost >= 0.0 ==> c >= studCost && c >= plateCost
    ensures plateCost == 0.0 ==> c == studCost
  {
    studCost + plateCost
  }

  /** Unless the wall is both floating and pressure-treated, every plate is
      billed at the standard price and the treated price plays no part. */
  lemma PlateCostWithoutSplit(n: int, unit: real, isFloating: bool, isTreated: bool, pt1: real, pt2: real)
    requires !(isFloating && isTreated)
    ensures PlateCost(n, unit, isFloating, isTreated, pt1) == n as real * unit
    ensures PlateCost(n, unit, isFloating, isTreated, pt1) == PlateCost(n, unit, isFloating, isTreated, pt2)
  {
  }

  /** With equal prices the split is invisible: the cost is plates times price. */
  lemma PlateCostUniformPrice(n: int, unit: real, isFloating: bool, isTreated: bool)
    ensures PlateCost(n, unit, isFloating, isTreated, unit) == n as real * unit
  {
    if isFloating && isTreated {
      var s := SplitPlates(n);
      assert s.pressureTreated as real + s.regular as real == n as real;
      assert s.pressureTreated as real * unit + s.regular as real * unit
          == (s.pressureTreated as real + s.regular as real) * unit;
    }
  }

  /** With both prices within [lo, hi], the plate cost lies between all
      plates at lo and all plates at hi. */
  lemma PlateCostBetweenPrices(n: int, unit: real, isFloating: bool, isTreated: bool, ptUnit: real,
                               lo: real, hi: real)
    requires n >= 0 && lo <= unit <= hi && lo <= ptUnit <= hi
    ensures n as real * lo <= PlateCost(n, unit, isFloating, isTreated, ptUnit) <= n as real * hi
  {
    if isFloating && isTreated {
      var s := SplitPlates(n);
      var a, b := s.pressureTreated as real, s.regular as real;
      assert a >= 0.0 && b >= 0.0 && a + b == n as real;
      WeightedBetween(n as real, a, b, ptUnit, unit, lo, hi);
    } else {
      PlateCostWithoutSplit(n, unit, isFloating, isTreated, ptUnit, ptUnit);
      MulLeqNonNeg(lo, unit, n as real);
      MulLeqNonNeg(unit, hi, n as real);
    }
  }

  /** Splitting a non-negative quantity between two prices in a range costs
      between the whole at the lower and at the upper bound. */
  lemma WeightedBetween(n: real, a: real, b: real, x: real, y: real, lo: real, hi: real)
    requires a >= 0.0 && b >= 0.0 && a + b == n
    requires lo <= x <= hi && lo <= y <= hi
    ensures n * lo <= a * x + b * y <= n * hi
  {
    MulLeqNonNeg(lo, x, a);
    MulLeqNonNeg(x, hi, a);
    MulLeqNonNeg(lo, y, b);
    MulLeqNonNeg(y, hi, b);
    assert n * lo == a * lo + b * lo;
    assert n * hi == a * hi + b * hi;
  }

  /** Non-negative boards and prices give non-negative costs. */
  lemma CostsNonNegative(studs: int, plates: int, studUnit: real, plateUnit: real,
                         isFloating: bool, isTreated: bool, ptUnit: real)
    requires studs >= 0 && plates >= 0 && studUnit >= 0.0 && plateUnit >= 0.0 && ptUnit >= 0.0
    ensures StudCost(studs, studUnit) >= 0.0
    ensures PlateCost(plates, plateUnit, isFloating, isTreated, ptUnit) >= 0.0
    ensures TotalCost(StudCost(studs, studUnit), PlateCost(plates, plateUnit, isFloating, isTreated, ptUnit)) >= 0.0
  {
    var hi := if plateUnit <= ptUnit then ptUnit else plateUnit;
    PlateCostBetweenPrices(plates, plateUnit, isFloating, isTreated, ptUnit, 0.0, hi);
    MulLeqNonNeg(0.0, studUnit, studs as real);
  }

  /** Stud cost is linear in the boards: pricing summed boards equals summing
      the prices of the parts. */
  lemma StudCostAdditive(a: int, b: int, unit: real)
    ensures StudCost(a + b, unit) == StudCost(a, unit) + StudCost(b, unit)
  {
    assert (a + b) as real * unit == a as real * unit + b as real * unit;
  }

  /** The worked figure: four floating treated plates at 3.50 and 4.25 cost
      2 x 4.25 + 2 x 3.50 = 15.50; untreated they cost 4 x 3.50 = 14. */
  lemma PlateCostExamples()
    ensures SplitPlates(4) == PlateSplit(2, 2)
    ensures SplitPlates(5) == PlateSplit(3, 2)
    ensures PlateCost(4, 3.5, true, true, 4.25) == 15.5
    ensures PlateCost(4, 3.5, true, false, 4.25) == 14.0
  {
    assert Ceil(2.0) == 2;
    assert Ceil(2.5) == 3;
  }
}
