/**
 * The dimension calculator: turns a wall's run length, stud spacing, corner
 * build-ups and plate choices into piece counts (not yet boards to buy).
 */
module WallDimensions {
  import opened ApiTypes
  import opened JsMath

  /** Studs placed every `spacing` inches along the run, plus the starting stud;
      no studs at all for a non-positive spacing. With a positive spacing, `r - 1`
      whole spacings fit in the run and `r` do not. */
  function RegularStuds(lengthInches: real, spacing: real): (r: int)
    ensures spacing > 0.0 ==> (r - 1) as real * spacing <= lengthInches < r as real * spacing
    ensures spacing <= 0.0 ==> r == 0
  {
    if spacing > 0.0 then
      var q := lengthInches / spacing;
      assert q * spacing == lengthInches;
      assert q.Floor as real <= q < q.Floor as real + 1.0;
      MulLeq(q.Floor as real, q, spacing);
      MulLt(q, q.Floor as real + 1.0, spacing);
      assert (q.Floor + 1) as real == q.Floor as real + 1.0;
      assert lengthInches < (q.Floor + 1) as real * spacing;
      assert ((q.Floor + 1) - 1) as real * spacing <= lengthInches;
      q.Floor + 1
    else 0
  }

  /** With a positive spacing, even a run of zero length gets one stud. */
  lemma RegularStudsAtLeastOne(lengthInches: real, spacing: real)
    requires spacing > 0.0 && lengthInches >= 0.0
    ensures RegularStuds(lengthInches, spacing) >= 1
  {
    var r := RegularStuds(lengthInches, spacing);
    if r <= 0 {
      MulLeq(r as real, 0.0, spacing);
    }
  }

  /** A longer run never needs fewer studs. */
  lemma RegularStudsMonotoneInLength(l1: real, l2: real, spacing: real)
    requires spacing > 0.0 && l1 <= l2
    ensures RegularStuds(l1, spacing) <= RegularStuds(l2, spacing)
  {
    var r1, r2 := RegularStuds(l1, spacing), RegularStuds(l2, spacing);
    assert (r1 - 1) as real * spacing <= l1;
    assert l2 < r2 as real * spacing;
    if r2 < r1 {
      MulLeq(r2 as real, (r1 - 1) as real, spacing);
      assert false;
    }
  }

  /** A wider spacing never needs more studs on a run of non-negative length. */
  lemma RegularStudsAntitoneInSpacing(lengthInches: real, s1: real, s2: real)
    requires 0.0 < s1 <= s2 && lengthInches >= 0.0
    ensures RegularStuds(lengthInches, s1) >= RegularStuds(lengthInches, s2)
  {
    var r1, r2 := RegularStuds(lengthInches, s1), RegularStuds(lengthInches, s2);
    RegularStudsAtLeastOne(lengthInches, s1);
    assert lengthInches < r1 as real * s1;
    assert (r2 - 1) as real * s2 <= lengthInches;
    if r1 < r2 {
      ProductMonotone(r1 as real, (r2 - 1) as real, s1, s2);
      assert false;
    }
  }

  /** Extra studs one wall end needs for its corner build-up: two for a
      double or a California corner, three for a three-stud corner, none
      without a corner. */
  function CornerStudsAt(corner: Option<CornerType>): (n: nat)
    ensures corner == Some(DoubleCorner) || corner == Some(California) ==> n == 2
    ensures corner == Some(ThreeStud) ==> n == 3
    ensures n == 0 <==> corner.None?
    ensures n <= 3
  {
    match corner
    case Some(DoubleCorner) => 2
    case Some(ThreeStud) => 3
    case Some(California) => 2
    case None => 0
  }

  datatype CornerStuds = CornerStuds(left: nat, right: nat, total: nat)

  /** The corner studs of both ends, each end looked up independently. */
  function CalculateCornerStuds(left: Option<CornerType>, right: Option<CornerType>): (c: CornerStuds)
    ensures c.left == CornerStudsAt(left) && c.right == CornerStudsAt(right)
    ensures c.total == c.left + c.right
  {
    var l := CornerStudsAt(left);
    var r := CornerStudsAt(right);
    CornerStuds(l, r, l + r)
  }

  /** The corner total lies in 0..6, is zero only without corners, is 6 only
      with a three-stud corner at both ends, and does not depend on which end
      is called left; a double corner beside a three-stud one needs five. */
  lemma CornerStudsTotalBounds(left: Option<CornerType>, right: Option<CornerType>)
    ensures CalculateCornerStuds(left, right).total <= 6
    ensures CalculateCornerStuds(left, right).total == 6 <==> left == Some(ThreeStud) && right == Some(ThreeStud)
    ensures CalculateCornerStuds(Some(DoubleCorner), Some(ThreeStud)).total == 5
    ensures CalculateCornerStuds(Some(California), Some(California)).total == 4
    ensures CalculateCornerStuds(left, right).total == 0 <==> left.None? && right.None?
    ensures CalculateCornerStuds(left, right).total == CalculateCornerStuds(right, left).total
  {
  }

  /** Plate runs: one or two on top, and two under a floating wall (a treated
      sleeper plus a standard plate), else one. */
  function CalculatePlateCount(top: TopPlate, bottom: BottomPlate): (n: int)
    ensures 2 <= n <= 4
    ensures n == 2 <==> top == SingleTop && bottom == StandardBottom
    ensures n == 4 <==> top == DoubleTop && bottom == FloatingBottom
  {
    (if top == DoubleTop then 2 else 1) + (if bottom == FloatingBottom then 2 else 1)
  }

  /** Feet to inches, a conversion that dividing by twelve undoes. */
  function FeetToInches(feet: real): (inches: real)
    ensures inches / 12.0 == feet
  {
    feet * 12.0
  }
}
