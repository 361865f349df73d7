/**
 * `feetToFeetInches`: a length in decimal feet rounded to whole inches and
 * rendered as feet′-inches″.
 */
module Format {
  import opened JsMath
  import opened Text

  datatype FeetInches = FeetInches(feet: int, inches: int)

  /** The feet and inches `feetToFeetInches` prints: the length rounded to the
      nearest whole inch (halves up), then `Math.floor(totalIn / 12)` feet and
      `totalIn % 12` inches. For a non-negative length they make up the rounded
      total, the inches stay below a foot and the total is within half an inch
      of the input. */
  function SplitFeetInches(valueFt: real): (p: FeetInches)
    ensures valueFt >= 0.0 ==>
      && p.feet >= 0 && 0 <= p.inches < 12
      && p.feet * 12 + p.inches == Round(valueFt * 12.0)
      && -0.5 < (p.feet * 12 + p.inches) as real - valueFt * 12.0 <= 0.5
  {
    var totalIn := Round(valueFt * 12.0);
    var ft := (totalIn as real / 12.0).Floor;
    FloorDivIsEuclidean(totalIn, 12);
    assert totalIn >= 0 ==> TruncRem(totalIn, 12) == totalIn % 12;
    FeetInches(ft, TruncRem(totalIn, 12))
  }

  /** `feetToFeetInches(valueFt)`: feet, the prime and dash, inches, the double
      prime. */
  function FeetToFeetInches(valueFt: real): (s: string)
    ensures |s| >= 5 && s[|s| - 1] == '\U{2033}'
  {
    var p := SplitFeetInches(valueFt);
    IntToString(p.feet) + "\U{2032}-" + IntToString(p.inches) + "\U{2033}"
  }

  /** A non-negative length renders as the quotient and remainder of its rounded
      inches by twelve, in plain decimal digits. */
  lemma RenderNonNegative(valueFt: real)
    requires valueFt >= 0.0
    ensures var totalIn := Round(valueFt * 12.0);
            && totalIn >= 0
            && FeetToFeetInches(valueFt)
               == NatToString(totalIn / 12) + "\U{2032}-" + NatToString(totalIn % 12) + "\U{2033}"
  {
    var p := SplitFeetInches(valueFt);
    var totalIn := Round(valueFt * 12.0);
    assert p.feet == totalIn / 12 && p.inches == totalIn % 12;
  }

  /** A whole number of feet renders as that number and zero inches. */
  lemma RenderWholeFeet(n: nat)
    ensures FeetToFeetInches(n as real) == NatToString(n) + "\U{2032}-0\U{2033}"
  {
    var t := n * 12;
    assert n as real * 12.0 == t as real;
    RoundOfInteger(t);
    assert SplitFeetInches(n as real) == FeetInches(n, 0);
    assert NatToString(0) == "0";
  }

  /** A run of digits ended by a non-digit marker is read back unambiguously. */
  lemma DigitsThenMarker(p: string, c: char, r: string)
    requires AllDigits(p) && !IsDigit(c)
    ensures forall k :: 0 <= k < |p| ==> IsDigit((p + [c] + r)[k])
    ensures (p + [c] + r)[|p|] == c
  {
  }

  lemma SplitAtMarker(p1: string, r1: string, p2: string, r2: string, c: char)
    requires AllDigits(p1) && AllDigits(p2) && !IsDigit(c)
    requires p1 + [c] + r1 == p2 + [c] + r2
    ensures p1 == p2 && r1 == r2
  {
    var s1, s2 := p1 + [c] + r1, p2 + [c] + r2;
    DigitsThenMarker(p1, c, r1);
    DigitsThenMarker(p2, c, r2);
    if |p1| < |p2| {
      assert false;
    }
    if |p2| < |p1| {
      assert false;
    }
    assert p1 == s1[..|p1|] && p2 == s2[..|p2|];
    assert r1 == s1[|p1| + 1..] && r2 == s2[|p2| + 1..];
  }

  /** Two non-negative lengths render alike exactly when they round to the same
      whole number of inches. */
  lemma RenderInjective(x: real, y: real)
    requires x >= 0.0 && y >= 0.0
    ensures FeetToFeetInches(x) == FeetToFeetInches(y) <==> Round(x * 12.0) == Round(y * 12.0)
  {
    if FeetToFeetInches(x) == FeetToFeetInches(y) {
      RenderDeterminesSplit(x, y);
    }
  }

  /** Equal renderings of non-negative lengths come from equal splits. */
  lemma RenderDeterminesSplit(x: real, y: real)
    requires x >= 0.0 && y >= 0.0
    requires FeetToFeetInches(x) == FeetToFeetInches(y)
    ensures SplitFeetInches(x) == SplitFeetInches(y)
  {
    var a, b := SplitFeetInches(x), SplitFeetInches(y);
    FieldsFromRendering(a.feet, a.inches, b.feet, b.inches);
  }

  /** The feet and inches fields can be read back from their rendering. */
  lemma FieldsFromRendering(f1: nat, i1: nat, f2: nat, i2: nat)
    requires NatToString(f1) + "\U{2032}-" + NatToString(i1) + "\U{2033}"
          == NatToString(f2) + "\U{2032}-" + NatToString(i2) + "\U{2033}"
    ensures f1 == f2 && i1 == i2
  {
    var fa, fb := NatToString(f1), NatToString(f2);
    var ia, ib := NatToString(i1), NatToString(i2);
    DigitsFromRendering(fa, ia, fb, ib);
    assert DecimalValue(fa) == f1 && DecimalValue(ia) == i1;
  }

  /** Two digit strings on each side of the foot mark are read back as they were. */
  lemma DigitsFromRendering(fa: string, ia: string, fb: string, ib: string)
    requires AllDigits(fa) && AllDigits(ia) && AllDigits(fb) && AllDigits(ib)
    requires fa + "\U{2032}-" + ia + "\U{2033}" == fb + "\U{2032}-" + ib + "\U{2033}"
    ensures fa == fb && ia == ib
  {
    assert fa + "\U{2032}-" + ia + "\U{2033}" == fa + ['\U{2032}'] + ("-" + ia + "\U{2033}");
    assert fb + "\U{2032}-" + ib + "\U{2033}" == fb + ['\U{2032}'] + ("-" + ib + "\U{2033}");
    SplitAtMarker(fa, "-" + ia + "\U{2033}", fb, "-" + ib + "\U{2033}", '\U{2032}');
    assert ia == ("-" + ia + "\U{2033}")[1..|ia| + 1];
    assert ib == ("-" + ib + "\U{2033}")[1..|ib| + 1];
  }

  /** The formatted figures: 8.5 ft is 8′-6″, and a sixteenth of an inch short
      of 10 ft rounds up to 10′-0″. */
  lemma FormatExamples()
    ensures SplitFeetInches(8.5) == FeetInches(8, 6)
    ensures SplitFeetInches(10.0 - 1.0 / 192.0) == FeetInches(10, 0)
  {
    assert Round(102.0) == 102;
    assert Round(119.9375) == 120;
    FloorDivIsEuclidean(102, 12);
    FloorDivIsEuclidean(120, 12);
  }

  /** Below zero the floor and the truncating remainder disagree: a length of
      minus one inch splits into minus one foot and minus one inch. */
  lemma NegativeSplitExample()
    ensures SplitFeetInches(-1.0 / 12.0) == FeetInches(-1, -1)
  {
    assert Round(-1.0) == -1;
    assert (-1.0 / 12.0).Floor == -1;
  }
}
