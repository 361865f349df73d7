/**
 * The two-field feet/inches length input: an initial split of a decimal length,
 * the decimal length the two fields stand for, and the change handlers that
 * fold twelve or more inches into the feet field.
 */
module FeetInchesInput {
  import opened ApiTypes
  import opened JsMath

  /** The number an input reports on change: a value, or NaN when the field
      does not hold a number. */
  datatype NumEntry = NaN | Num(value: real)

  /** The two fields; an unset field is `None`. */
  datatype Fields = Fields(feet: Option<real>, inches: Option<real>)

  /** `Math.round(x * 100) / 100`: `x` to the nearest hundredth. */
  function RoundToHundredths(x: real): (r: real)
    ensures x - 0.005 < r <= x + 0.005
  {
    var n := Round(x * 100.0);
    assert x * 100.0 - 0.5 < n as real <= x * 100.0 + 0.5;
    n as real / 100.0
  }

  /** The decimal feet the fields stand for; an unset field counts as zero. */
  function DecimalFeet(f: Fields): real {
    f.feet.GetOr(0.0) + f.inches.GetOr(0.0) / 12.0
  }

  /** The fields a finite default length starts from: its whole feet, and the
      inches of the fractional part to the nearest hundredth. Without a finite
      default both fields start unset. The inches lie in 0..12 (a fraction just
      below a whole foot rounds up to 12.00) and the fields stand for the
      default to within a two-hundredth of an inch. */
  function InitialFields(defaultValueDecimalFeet: Option<real>): (f: Fields)
    ensures defaultValueDecimalFeet.None? ==> f == Fields(None, None)
    ensures defaultValueDecimalFeet.Some? ==>
      var d := defaultValueDecimalFeet.value;
      && f.feet == Some(d.Floor as real)
      && f.inches.Some? && 0.0 <= f.inches.value <= 12.0
      && -0.005 / 12.0 <= DecimalFeet(f) - d <= 0.005 / 12.0
  {
    match defaultValueDecimalFeet
    case None => Fields(None, None)
    case Some(d) =>
      var inches := RoundToHundredths((d - d.Floor as real) * 12.0);
      assert 0 <= Round((d - d.Floor as real) * 12.0 * 100.0) <= 1200;
      Fields(Some(d.Floor as real), Some(inches))
  }

  /** The initial split AS WRITTEN can show twelve inches: a default of
      10 ft less a 2400th of a foot splits into 9 ft and 11.995 in, which
      rounds to 12.00 in. */
  lemma InitialInchesCanReachTwelve()
    ensures InitialFields(Some(10.0 - 1.0 / 2400.0)) == Fields(Some(9.0), Some(12.0))
  {
    var d := 10.0 - 1.0 / 2400.0;
    assert d.Floor == 9;
    var x := (d - 9.0) * 12.0 * 100.0;
    assert x == 1199.5;
    assert (x + 0.5).Floor == 1200;
  }

  /** The twelve inches of the split as written stay in the inches field: a
      feet entry of 5 over them stands for 6 ft, where the intended split
      (10 ft 0 in) would stand for 5 ft. */
  lemma TwelveInchesSurviveFeetEntry()
    ensures DecimalFeet(AfterFeetChange(InitialFields(Some(10.0 - 1.0 / 2400.0)), Num(5.0))) == 6.0
    ensures DecimalFeet(AfterFeetChange(NormalisedInitialFields(Some(10.0 - 1.0 / 2400.0)), Num(5.0))) == 5.0
  {
    InitialInchesCanReachTwelve();
  }

  /** The initial split as intended: a rounding that reaches twelve inches
      carries one foot into the feet field, as the inches handler does for an
      entry of twelve or more. The inches then lie in [0, 12), the fields
      stand for the same length as the split as written, and that length is
      the default to within a two-hundredth of an inch. */
  function NormalisedInitialFields(defaultValueDecimalFeet: Option<real>): (f: Fields)
    ensures defaultValueDecimalFeet.None? ==> f == Fields(None, None)
    ensures defaultValueDecimalFeet.Some? ==>
      var d := defaultValueDecimalFeet.value;
      && f.feet.Some? && f.feet.value == f.feet.value.Floor as real
      && d.Floor as real <= f.feet.value <= d.Floor as real + 1.0
      && f.inches.Some? && 0.0 <= f.inches.value < 12.0
      && DecimalFeet(f) == DecimalFeet(InitialFields(defaultValueDecimalFeet))
      && -0.005 / 12.0 <= DecimalFeet(f) - d <= 0.005 / 12.0
  {
    var f := InitialFields(defaultValueDecimalFeet);
    if f.inches == Some(12.0) then
      var whole := f.feet.value.Floor + 1;
      assert (whole as real).Floor == whole;
      Fields(Some(whole as real), Some(0.0))
    else
      f
  }

  /** `handleFeetChange`: a number is stored, NaN clears the field. */
  function AfterFeetChange(f: Fields, value: NumEntry): Fields {
    match value
    case NaN => f.(feet := None)
    case Num(v) => f.(feet := Some(v))
  }

  /** `handleInchesChange`: NaN clears the inches; twelve inches or more move
      their whole feet into the feet field (starting it when unset); a negative
      entry is clamped to zero; anything else is stored as is. */
  function AfterInchesChange(f: Fields, value: NumEntry): Fields {
    match value
    case NaN => f.(inches := None)
    case Num(v) =>
      if v >= 12.0 then
        var extraFeet := (v / 12.0).Floor;
        var remInches := v - extraFeet as real * 12.0;
        Fields(Some(if f.feet.Some? then f.feet.value + extraFeet as real else extraFeet as real),
               Some(remInches))
      else if v < 0.0 then f.(inches := Some(0.0))
      else f.(inches := Some(v))
  }

  /** After any numeric inches entry the inches field holds a value in [0, 12). */
  lemma InchesEntryNormalised(f: Fields, v: real)
    ensures var g := AfterInchesChange(f, Num(v));
            g.inches.Some? && 0.0 <= g.inches.value < 12.0
  {
    if v >= 12.0 {
      var q := v / 12.0;
      assert q * 12.0 == v;
      assert q.Floor as real <= q < q.Floor as real + 1.0;
    }
  }

  /** Folding keeps the length: a non-negative entry of `v` inches makes the
      fields stand for the previous feet plus `v / 12`; a negative entry is
      clamped to zero inches. */
  lemma InchesEntryKeepsLength(f: Fields, v: real)
    ensures v >= 0.0 ==> DecimalFeet(AfterInchesChange(f, Num(v))) == f.feet.GetOr(0.0) + v / 12.0
    ensures v < 0.0 ==> DecimalFeet(AfterInchesChange(f, Num(v))) == f.feet.GetOr(0.0)
  {
  }

  /** Twelve inches or more: the feet grow by the whole feet of the entry, or
      become them when unset, and the inches keep the remainder. */
  lemma InchesEntryFoldsFeet(f: Fields, v: real)
    requires v >= 12.0
    ensures var g := AfterInchesChange(f, Num(v));
            var extra := (v / 12.0).Floor;
            && extra >= 1
            && g.feet == Some(f.feet.GetOr(0.0) + extra as real)
            && g.inches == Some(v - 12.0 * extra as real)
  {
  }

  /** Below twelve inches the feet field is untouched. */
  lemma SmallInchesEntryKeepsFeet(f: Fields, v: real)
    requires v < 12.0
    ensures AfterInchesChange(f, Num(v)).feet == f.feet
    ensures AfterInchesChange(f, Num(v)).inches == Some(if v < 0.0 then 0.0 else v)
  {
  }

  /** A NaN entry clears its own field and leaves the other one alone. */
  lemma NaNClears(f: Fields)
    ensures AfterFeetChange(f, NaN) == Fields(None, f.inches)
    ensures AfterInchesChange(f, NaN) == Fields(f.feet, None)
  {
  }

  /** A feet entry never touches the inches, so the length moves by exactly the
      change in feet. */
  lemma FeetEntryKeepsInches(f: Fields, v: real)
    ensures AfterFeetChange(f, Num(v)).inches == f.inches
    ensures DecimalFeet(AfterFeetChange(f, Num(v))) == v + f.inches.GetOr(0.0) / 12.0
  {
  }

  /** The input as a component: the two state fields and their change handlers. */
  class FeetInchesField {
    var feet: Option<real>
    var inches: Option<real>

    function State(): Fields
      reads this
    {
      Fields(feet, inches)
    }

    /** The fields start from the split of the default length as written:
        the whole feet, and the inches of the fraction rounded to hundredths,
        which may read 12. */
    constructor(defaultValueDecimalFeet: Option<real>)
      ensures State() == InitialFields(defaultValueDecimalFeet)
    {
      if defaultValueDecimalFeet.Some? {
        var d := defaultValueDecimalFeet.value;
        feet := Some(d.Floor as real);
        inches := Some(RoundToHundredths((d - d.Floor as real) * 12.0));
      } else {
        feet := None;
        inches := None;
      }
    }

    /** The hidden decimal-feet value submitted with the form. */
    function Value(): (r: real)
      reads this
      ensures r == DecimalFeet(State())
    {
      feet.GetOr(0.0) + inches.GetOr(0.0) / 12.0
    }

    method HandleFeetChange(value: NumEntry)
      modifies this
      ensures State() == AfterFeetChange(old(State()), value)
    {
      if value.NaN? {
        feet := None;
      } else {
        feet := Some(value.value);
      }
    }

    method HandleInchesChange(value: NumEntry)
      modifies this
      ensures State() == AfterInchesChange(old(State()), value)
    {
      if value.NaN? {
        inches := None;
        return;
      }
      var v := value.value;
      if v >= 12.0 {
        var extraFeet := (v / 12.0).Floor;
        var remInches := v - extraFeet as real * 12.0;
        feet := if feet.Some? then Some(feet.value + extraFeet as real) else Some(extraFeet as real);
        inches := Some(remInches);
      } else if v < 0.0 {
        inches := Some(0.0);
      } else {
        inches := Some(v);
      }
    }
  }

  /** Typing 5 feet then 12.5 inches into empty fields shows 6 feet 0.5 inches;
      typing 8 feet then 6 inches stands for 8.5 feet. */
  method ExampleEntries() returns (folded: Fields, decimal: real)
    ensures folded == Fields(Some(6.0), Some(0.5))
    ensures decimal == 8.5
  {
    var input := new FeetInchesField(None);
    input.HandleFeetChange(Num(5.0));
    input.HandleInchesChange(Num(12.5));
    assert (12.5 / 12.0).Floor == 1;
    folded := input.State();

    var other := new FeetInchesField(None);
    other.HandleFeetChange(Num(8.0));
    other.HandleInchesChange(Num(6.0));
    decimal := other.Value();
  }
}
