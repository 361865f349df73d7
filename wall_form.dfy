/**
 * The wall form hook: the form's field state, the live estimate it shows
 * (dimensions, boards on 8 ft stock, board-based linear feet, costs), the
 * basic validation, the submit guard that builds a create request, and the
 * three presets.
 */
module WallForm {
  import opened ApiTypes
  import opened Text
  import opened WallDimensions
  import opened WallLumber
  import opened WallCosts

  /** The form fields. An empty number field is `None`. */
  datatype FormState = FormState(
    nameValue: string,
    lengthValue: Option<real>,
    heightValue: Option<real>,
    studSpacing: StudSpacing,
    topPlate: TopPlate,
    bottomPlate: BottomPlate,
    bottomPlateTreatment: Treatment,
    leftCorner: Option<CornerType>,
    rightCorner: Option<CornerType>,
    floorGap: Option<real>,
    isLoadBearing: bool
  )

  /** Stud and plate stock are both bought as 8 ft boards. */
  const StockLengthFt: real := 8.0

  /** The form's starting fields: each initial value when given, else an empty
      name and numbers, 16" spacing, a double top plate, a standard untreated
      bottom plate, no corners, not load-bearing. */
  function InitialFormState(initialValues: WallPatch): (s: FormState)
    ensures initialValues == EmptyWallPatch ==>
      s == FormState("", None, None, Spacing16, DoubleTop, StandardBottom, Untreated, None, None, None, false)
    ensures initialValues.length == s.lengthValue && initialValues.height == s.heightValue
  {
    FormState(
      initialValues.name.GetOr(""),
      initialValues.length,
      initialValues.height,
      initialValues.studSpacing.GetOr(Spacing16),
      initialValues.topPlate.GetOr(DoubleTop),
      initialValues.bottomPlate.GetOr(StandardBottom),
      initialValues.bottomPlateTreatment.GetOr(Untreated),
      Flatten(initialValues.leftCorner),
      Flatten(initialValues.rightCorner),
      Flatten(initialValues.floorGap),
      initialValues.loadBearing.GetOr(false))
  }

  /** The live estimate the form shows. */
  datatype Calculations = Calculations(
    regularStuds: int,
    totalCornerStuds: int,
    totalStuds: int,
    totalPlates: int,
    studsNeeded: int,
    platesNeeded: int,
    studLinearFeet: real,
    plateLinearFeet: real,
    totalLinearFeet: real,
    studCost: real,
    plateCost: real,
    totalCost: real
  )

  /** The `calculations` memo: an empty length or height counts as 0, and
      missing pricing falls back to the default prices. */
  function Calculate(s: FormState, pricing: Option<PricingConfig>): Calculations {
    var wallLength := s.lengthValue.GetOr(0.0);
    var wallHeight := s.heightValue.GetOr(0.0);
    var regularStuds := RegularStuds(FeetToInches(wallLength), s.studSpacing.Inches());
    var totalCornerStuds := CalculateCornerStuds(s.leftCorner, s.rightCorner).total;
    var totalStuds := regularStuds + totalCornerStuds;
    var totalPlates := CalculatePlateCount(s.topPlate, s.bottomPlate);
    var studsNeeded := BoardsNeeded(totalStuds, wallHeight, StockLengthFt);
    var platesNeeded := BoardsNeeded(totalPlates, wallLength, StockLengthFt);
    var studLinearFeet := BoardLinearFeet(studsNeeded, StockLengthFt);
    var plateLinearFeet := BoardLinearFeet(platesNeeded, StockLengthFt);
    var prices := pricing.GetOr(DefaultPricing);
    var studCost := StudCost(studsNeeded, prices.studUnitCost);
    var plateCost := PlateCost(platesNeeded, prices.plateUnitCost, s.bottomPlate == FloatingBottom,
                               s.bottomPlateTreatment == PressureTreated, prices.pressureTreatedPlateCost);
    Calculations(regularStuds, totalCornerStuds, totalStuds, totalPlates, studsNeeded, platesNeeded,
                 studLinearFeet, plateLinearFeet, TotalLinearFeet(studLinearFeet, plateLinearFeet),
                 studCost, plateCost, TotalCost(studCost, plateCost))
  }

  /** An empty length or height field estimates exactly like a 0 entered there. */
  lemma BlankCountsAsZero(s: FormState, pricing: Option<PricingConfig>)
    ensures Calculate(s.(lengthValue := None), pricing) == Calculate(s.(lengthValue := Some(0.0)), pricing)
    ensures Calculate(s.(heightValue := None), pricing) == Calculate(s.(heightValue := Some(0.0)), pricing)
  {
  }

  /** With a zero height no stud boards are bought, and with a zero length no
      plate boards. */
  lemma ZeroDimensionBuysNothing(s: FormState, pricing: Option<PricingConfig>)
    ensures s.heightValue.GetOr(0.0) == 0.0 ==> Calculate(s, pricing).studsNeeded == 0
    ensures s.lengthValue.GetOr(0.0) == 0.0 ==> Calculate(s, pricing).platesNeeded == 0
  {
  }

  /** The studs are the regular studs plus the corner studs, and the estimate's
      linear feet are the footage of the 8 ft boards bought. */
  lemma CalculateTotals(s: FormState, pricing: Option<PricingConfig>)
    ensures var c := Calculate(s, pricing);
            && c.totalStuds == c.regularStuds + c.totalCornerStuds
            && c.totalLinearFeet == 8.0 * (c.studsNeeded + c.platesNeeded) as real
            && c.totalCost == c.studCost + c.plateCost
  {
  }

  /** With positive dimensions the boards bought cover every stud at full height
      and every plate run at full length. */
  lemma CalculateCovers(s: FormState, pricing: Option<PricingConfig>)
    requires s.lengthValue.GetOr(0.0) > 0.0 && s.heightValue.GetOr(0.0) > 0.0
    ensures var c := Calculate(s, pricing);
            && c.studLinearFeet >= PieceFootage(c.totalStuds, s.heightValue.GetOr(0.0))
            && c.plateLinearFeet >= PieceFootage(c.totalPlates, s.lengthValue.GetOr(0.0))
  {
    var c := Calculate(s, pricing);
    var wallLength, wallHeight := s.lengthValue.GetOr(0.0), s.heightValue.GetOr(0.0);
    var studs, plates := c.totalStuds, c.totalPlates;
    var inches := FeetToInches(wallLength);
    assert inches >= 0.0;
    RegularStudsAtLeastOne(inches, s.studSpacing.Inches());
    assert studs >= 0 && plates >= 0;
    BoardsCoverPieces(studs, wallHeight, StockLengthFt);
    BoardsCoverPieces(plates, wallLength, StockLengthFt);
    assert c.studLinearFeet == BoardLinearFeet(BoardsNeeded(studs, wallHeight, StockLengthFt), StockLengthFt);
    assert c.plateLinearFeet == BoardLinearFeet(BoardsNeeded(plates, wallLength, StockLengthFt), StockLengthFt);
  }

  /** Without loaded pricing and without a treated floating plate, every board
      costs 3.50. */
  lemma DefaultPricesPerBoard(s: FormState)
    requires !(s.bottomPlate == FloatingBottom && s.bottomPlateTreatment == PressureTreated)
    ensures var c := Calculate(s, None);
            c.totalCost == 3.5 * (c.studsNeeded + c.platesNeeded) as real
  {
  }

  /** Which field errors `validateBasics` shows. */
  datatype ValidationState = ValidationState(
    nameError: Option<string>,
    lengthError: Option<string>,
    heightError: Option<string>
  )

  const NoErrors := ValidationState(None, None, None)

  /** The rule of each field: a name that is not blank after trimming, and a
      length and a height above zero (an empty field counting as 0). */
  predicate NameOk(s: FormState) { !IsBlank(s.nameValue) }
  predicate LengthOk(s: FormState) { s.lengthValue.GetOr(0.0) > 0.0 }
  predicate HeightOk(s: FormState) { s.heightValue.GetOr(0.0) > 0.0 }

  /** The errors of a form state, field by field. */
  function BasicErrors(s: FormState): ValidationState {
    ValidationState(
      if NameOk(s) then None else Some("Name is required"),
      if LengthOk(s) then None else Some("Enter a valid positive length"),
      if HeightOk(s) then None else Some("Enter a valid positive height"))
  }

  /** No field shows an error exactly when all three rules hold, and each
      failing rule shows its own message in its own field. */
  lemma BasicErrorsIff(s: FormState)
    ensures BasicErrors(s) == NoErrors <==> NameOk(s) && LengthOk(s) && HeightOk(s)
    ensures !NameOk(s) <==> BasicErrors(s).nameError == Some("Name is required")
    ensures !LengthOk(s) <==> BasicErrors(s).lengthError == Some("Enter a valid positive length")
    ensures !HeightOk(s) <==> BasicErrors(s).heightError == Some("Enter a valid positive height")
  {
  }

  /** The create request `handleSubmit` builds: the trimmed name, empty numbers
      as 0, and a floor gap (0 when empty) only under a floating plate. */
  function SubmitValues(s: FormState): (r: WallRequest)
    ensures r.name == Trim(s.nameValue)
    ensures r.floorGap.Some? <==> s.bottomPlate == FloatingBottom
    ensures s.bottomPlate == FloatingBottom && s.floorGap.Some? ==> r.floorGap == s.floorGap
    ensures s.bottomPlate == FloatingBottom && s.floorGap.None? ==> r.floorGap == Some(0.0)
    ensures s.lengthValue.None? ==> r.length == 0.0
    ensures s.heightValue.None? ==> r.height == 0.0
  {
    WallRequest(
      Trim(s.nameValue),
      s.lengthValue.GetOr(0.0),
      s.heightValue.GetOr(0.0),
      s.studSpacing,
      s.topPlate,
      s.bottomPlate,
      s.isLoadBearing,
      s.bottomPlateTreatment,
      s.leftCorner,
      s.rightCorner,
      if s.bottomPlate == FloatingBottom then Some(s.floorGap.GetOr(0.0)) else None)
  }

  /** A form opened on a request and submitted unchanged gives that request
      back, provided its name is already trimmed and it carries a floor gap
      exactly when its bottom plate floats. */
  lemma SubmitRoundTrip(r: WallRequest)
    requires Trim(r.name) == r.name
    requires r.floorGap.Some? <==> r.bottomPlate == FloatingBottom
    ensures SubmitValues(InitialFormState(AsPatch(r))) == r
  {
  }

  /** `prev.heightValue || fallback`: an empty or zero height takes the fallback. */
  function HeightOr(height: Option<real>, fallback: real): (r: Option<real>)
    ensures r.Some?
    ensures height.Some? && height.value != 0.0 ==> r == height
    ensures height.None? || height.value == 0.0 ==> r == Some(fallback)
  {
    if height.Some? && height.value != 0.0 then height else Some(fallback)
  }

  /** The load-bearing preset: 16" spacing, double top plate, standard untreated
      bottom, California corners both ends, load-bearing, 9 ft unless a height
      is set. */
  function PresetLoadBearing(prev: FormState): FormState {
    prev.(studSpacing := Spacing16, topPlate := DoubleTop, bottomPlate := StandardBottom,
          bottomPlateTreatment := Untreated, leftCorner := Some(California),
          rightCorner := Some(California), isLoadBearing := true,
          heightValue := HeightOr(prev.heightValue, 9.0))
  }

  /** The non-load-bearing preset: 16" spacing, single top plate, standard
      untreated bottom, one California corner on the left, 8 ft unless a height
      is set. */
  function PresetNonLoadBearing(prev: FormState): FormState {
    prev.(studSpacing := Spacing16, topPlate := SingleTop, bottomPlate := StandardBottom,
          bottomPlateTreatment := Untreated, leftCorner := Some(California),
          rightCorner := None, isLoadBearing := false,
          heightValue := HeightOr(prev.heightValue, 8.0))
  }

  /** The basement preset: an 8 ft floating wall on a pressure-treated plate
      with a 2" floor gap, single top plate, California corners both ends. */
  function PresetBasementFloating(prev: FormState): FormState {
    prev.(heightValue := Some(8.0), studSpacing := Spacing16, topPlate := SingleTop,
          bottomPlate := FloatingBottom, bottomPlateTreatment := PressureTreated,
          floorGap := Some(2.0), leftCorner := Some(California),
          rightCorner := Some(California), isLoadBearing := false)
  }

  /** No preset touches the name or the length. */
  lemma PresetsKeepNameAndLength(prev: FormState)
    ensures PresetLoadBearing(prev).nameValue == prev.nameValue
    ensures PresetLoadBearing(prev).lengthValue == prev.lengthValue
    ensures PresetNonLoadBearing(prev).nameValue == prev.nameValue
    ensures PresetNonLoadBearing(prev).lengthValue == prev.lengthValue
    ensures PresetBasementFloating(prev).nameValue == prev.nameValue
    ensures PresetBasementFloating(prev).lengthValue == prev.lengthValue
  {
  }

  /** The framing presets keep a height already set (and non-zero), else use 9
      or 8 ft; the basement preset always sets 8 ft and a 2" gap. Every preset
      leaves a positive height when the previous one was positive or unset. */
  lemma PresetHeights(prev: FormState)
    ensures prev.heightValue.Some? && prev.heightValue.value != 0.0 ==>
      && PresetLoadBearing(prev).heightValue == prev.heightValue
      && PresetNonLoadBearing(prev).heightValue == prev.heightValue
    ensures prev.heightValue.None? || prev.heightValue.value == 0.0 ==>
      && PresetLoadBearing(prev).heightValue == Some(9.0)
      && PresetNonLoadBearing(prev).heightValue == Some(8.0)
    ensures PresetBasementFloating(prev).heightValue == Some(8.0)
    ensures PresetBasementFloating(prev).floorGap == Some(2.0)
    ensures prev.heightValue.GetOr(0.0) >= 0.0 ==>
      && HeightOk(PresetLoadBearing(prev))
      && HeightOk(PresetNonLoadBearing(prev))
      && HeightOk(PresetBasementFloating(prev))
  {
  }

  /** Applying a preset twice is applying it once. */
  lemma PresetsIdempotent(prev: FormState)
    ensures PresetLoadBearing(PresetLoadBearing(prev)) == PresetLoadBearing(prev)
    ensures PresetNonLoadBearing(PresetNonLoadBearing(prev)) == PresetNonLoadBearing(prev)
    ensures PresetBasementFloating(PresetBasementFloating(prev)) == PresetBasementFloating(prev)
  {
  }

  /** The hook's state: the form fields and the field errors on display. */
  class WallFormHook {
    var formState: FormState
    var validation: ValidationState

    constructor(initialValues: WallPatch)
      ensures formState == InitialFormState(initialValues)
      ensures validation == NoErrors
    {
      formState := InitialFormState(initialValues);
      validation := NoErrors;
    }

    /** `validateBasics`: records each failing field's message and reports
        whether none failed; the fields are not changed. */
    method ValidateBasics() returns (valid: bool)
      modifies this
      ensures formState == old(formState)
      ensures validation == BasicErrors(formState)
      ensures valid <==> NameOk(formState) && LengthOk(formState) && HeightOk(formState)
    {
      var newValidation := NoErrors;
      valid := true;
      if IsBlank(formState.nameValue) {
        newValidation := newValidation.(nameError := Some("Name is required"));
        valid := false;
      }
      if formState.lengthValue.GetOr(0.0) <= 0.0 {
        newValidation := newValidation.(lengthError := Some("Enter a valid positive length"));
        valid := false;
      }
      if formState.heightValue.GetOr(0.0) <= 0.0 {
        newValidation := newValidation.(heightError := Some("Enter a valid positive height"));
        valid := false;
      }
      validation := newValidation;
    }

    /** `handleSubmit`: validates, and only when valid returns the request that
        is handed to `onSubmit`. */
    method HandleSubmit() returns (submitted: Option<WallRequest>)
      modifies this
      ensures formState == old(formState)
      ensures validation == BasicErrors(formState)
      ensures submitted.Some? <==> NameOk(formState) && LengthOk(formState) && HeightOk(formState)
      ensures submitted.Some? ==> submitted.value == SubmitValues(formState)
    {
      var valid := ValidateBasics();
      if !valid {
        return None;
      }
      submitted := Some(SubmitValues(formState));
    }

    method ApplyPresetLoadBearing()
      modifies this
      ensures formState == PresetLoadBearing(old(formState))
      ensures validation == old(validation)
    {
      formState := PresetLoadBearing(formState);
    }

    method ApplyPresetNonLoadBearing()
      modifies this
      ensures formState == PresetNonLoadBearing(old(formState))
      ensures validation == old(validation)
    {
      formState := PresetNonLoadBearing(formState);
    }

    method ApplyPresetBasementFloating()
      modifies this
      ensures formState == PresetBasementFloating(old(formState))
      ensures validation == old(validation)
    {
      formState := PresetBasementFloating(formState);
    }
  }

  /** A submitted request has a non-blank trimmed name and positive dimensions. */
  lemma SubmittedIsSound(s: FormState)
    requires NameOk(s) && LengthOk(s) && HeightOk(s)
    ensures var r := SubmitValues(s);
            && r.name != [] && r.name == Trim(r.name) && r.length > 0.0 && r.height > 0.0
  {
    TrimEnds(s.nameValue);
    TrimIdempotent(s.nameValue);
  }
}
