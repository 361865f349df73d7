/**
 * The wall service: the rules a wall request and a stored wall must meet,
 * the three named presets, and the create/update calls that refuse an invalid
 * request before it reaches the API client.
 */
module WallService {
  import opened ApiTypes
  import opened Text
  import opened Validation
  import opened MockAdapter
  import WallForm

  // ---- The messages ----

  const NameRequired := "Wall name is required"
  const NameTooLong := "Wall name must be less than 50 characters"
  const LengthNotPositive := "Wall length must be positive"
  const LengthTooLong := "Wall length must be less than 100 feet"
  const HeightNotPositive := "Wall height must be positive"
  const HeightTooHigh := "Wall height must be less than 20 feet"
  const FloorGapNegative := "Floor gap cannot be negative"
  const LoadBearingSpacing24 := "Load bearing walls cannot use 24\" stud spacing"
  const FloorGapRequired := "Floor gap is required for floating bottom plates"

  // ---- validateWallRequest ----

  /** A present name must be non-blank and at most 50 characters. */
  function NameErrors(r: WallPatch): seq<string> {
    if r.name.Some? then
      Report(Check(IsBlank(r.name.value), NameRequired)) + Report(Check(Utf16Length(r.name.value) > 50, NameTooLong))
    else []
  }

  /** A present measure must be positive and at most `max`. */
  function RangeErrors(value: Option<real>, max: real, notPositive: string, tooLarge: string): seq<string> {
    if value.Some? then
      Report(Check(value.value <= 0.0, notPositive)) + Report(Check(value.value > max, tooLarge))
    else []
  }

  /** A present length must lie in (0, 100] feet. */
  function LengthErrors(r: WallPatch): seq<string> {
    RangeErrors(r.length, 100.0, LengthNotPositive, LengthTooLong)
  }

  /** A present height must lie in (0, 20] feet. */
  function HeightErrors(r: WallPatch): seq<string> {
    RangeErrors(r.height, 20.0, HeightNotPositive, HeightTooHigh)
  }

  /** A defined floor gap must not be negative. */
  function FloorGapCheck(r: WallPatch): Check {
    var gap := Flatten(r.floorGap);
    Check(gap.Some? && gap.value < 0.0, FloorGapNegative)
  }

  /** The errors `validateWallRequest` reports: the name errors, then the
      length, the height and the floor-gap errors. */
  function RequestErrors(r: WallPatch): seq<string> {
    NameErrors(r) + LengthErrors(r) + HeightErrors(r) + Report(FloorGapCheck(r))
  }

  /** What a request must satisfy, field by field; absent fields are not checked. */
  predicate RequestAcceptable(r: WallPatch) {
    && (r.name.Some? ==> !IsBlank(r.name.value) && Utf16Length(r.name.value) <= 50)
    && (r.length.Some? ==> 0.0 < r.length.value <= 100.0)
    && (r.height.Some? ==> 0.0 < r.height.value <= 20.0)
    && (Flatten(r.floorGap).Some? ==> Flatten(r.floorGap).value >= 0.0)
  }

  /** `validateWallRequest`: each check pushes its message when it fails. */
  method ValidateWallRequest(request: WallPatch) returns (result: ValidationResult)
    ensures result.errors == RequestErrors(request)
    ensures result.isValid <==> RequestAcceptable(request)
    ensures result.isValid <==> result.errors == []
  {
    var errors: seq<string> := [];
    if request.name.Some? {
      var name := request.name.value;
      errors := PushWhen(errors, IsBlank(name), NameRequired);
      errors := PushWhen(errors, name != [] && Utf16Length(name) > 50, NameTooLong);
    }
    ghost var names := errors;
    errors := PushRangeErrors(errors, request.length, 100.0, LengthNotPositive, LengthTooLong);
    ghost var lengths := errors;
    errors := PushRangeErrors(errors, request.height, 20.0, HeightNotPositive, HeightTooHigh);
    ghost var heights := errors;
    var gap := Flatten(request.floorGap);
    errors := PushWhen(errors, gap.Some? && gap.value < 0.0, FloorGapNegative);
    RequestErrorsByGroup(request, names, lengths, heights, errors);
    RequestValidIff(request);
    result := ValidationResult(|errors| == 0, errors);
  }

  /** The length and height blocks of `validateWallRequest`: a present value
      pushes a message when it is not positive and another when it exceeds
      `max`. */
  method PushRangeErrors(errors: seq<string>, value: Option<real>, max: real, notPositive: string,
                         tooLarge: string) returns (r: seq<string>)
    ensures r == errors + RangeErrors(value, max, notPositive, tooLarge)
  {
    r := errors;
    if value.Some? {
      r := PushWhen(r, value.value <= 0.0, notPositive);
      r := PushWhen(r, value.value > max, tooLarge);
    }
  }

  /** Errors collected group by group add up to the request errors. */
  lemma RequestErrorsByGroup(r: WallPatch, names: seq<string>, lengths: seq<string>, heights: seq<string>,
                             errors: seq<string>)
    requires names == NameErrors(r) && lengths == names + LengthErrors(r)
    requires heights == lengths + HeightErrors(r) && errors == heights + Report(FloorGapCheck(r))
    ensures errors == RequestErrors(r)
  {
  }

  /** A request has no errors exactly when every present field is in range. */
  lemma RequestValidIff(r: WallPatch)
    ensures RequestErrors(r) == [] <==> RequestAcceptable(r)
  {
  }

  /** An empty update request is valid, and the upper bounds are inclusive: a
      100 ft long, 20 ft high wall passes; just past them, or at zero, exactly
      one error is reported. The name limit counts UTF-16 code units, so 26
      emoji are too long. */
  lemma RequestBoundaries(name: string)
    requires !IsBlank(name) && Utf16Length(name) <= 50
    ensures RequestErrors(EmptyWallPatch) == []
    ensures RequestErrors(EmptyWallPatch.(name := Some(name), length := Some(100.0), height := Some(20.0))) == []
    ensures RequestErrors(EmptyWallPatch.(length := Some(100.5))) == [LengthTooLong]
    ensures RequestErrors(EmptyWallPatch.(height := Some(0.0))) == [HeightNotPositive]
    ensures RequestErrors(EmptyWallPatch.(name := Some(seq(26, k => '\U{1F600}')))) == [NameTooLong]
  {
    var emoji := seq(26, k => '\U{1F600}');
    Utf16LengthOfEmoji();
    NotBlankWhenFirstIsSolid(emoji);
    var long := EmptyWallPatch.(name := Some(emoji));
    assert NameErrors(long) == [NameTooLong];
    assert LengthErrors(long) == [] && HeightErrors(long) == [] && Report(FloorGapCheck(long)) == [];
  }

  /** Length and height each report at most one error, so a request collects
      at most five; only a name both blank and longer than 50 characters (51
      spaces, say) reports two name errors. */
  lemma RequestErrorsAtMostFive(r: WallPatch)
    ensures |RequestErrors(r)| <= 5
  {
  }

  // ---- validateWall ----

  /** The rules a stored wall must meet, in check order. */
  function WallChecks(w: Wall): seq<Check> {
    [Check(IsBlank(w.name), NameRequired),
     Check(w.length <= 0.0, LengthNotPositive),
     Check(w.height <= 0.0, HeightNotPositive),
     Check(w.floorGap.Some? && w.floorGap.value < 0.0, FloorGapNegative),
     Check(w.loadBearing && w.studSpacing == Spacing24, LoadBearingSpacing24),
     Check(w.bottomPlate == FloatingBottom && w.floorGap.None?, FloorGapRequired)]
  }

  function WallErrors(w: Wall): seq<string> {
    FailedMessages(WallChecks(w))
  }

  /** What a stored wall must satisfy: a name, positive dimensions, no
      negative floor gap, no 24" spacing under load, and a floor gap under a
      floating plate. There is no upper bound on length or height. */
  predicate WallAcceptable(w: Wall) {
    && !IsBlank(w.name) && w.length > 0.0 && w.height > 0.0
    && (w.floorGap.Some? ==> w.floorGap.value >= 0.0)
    && !(w.loadBearing && w.studSpacing == Spacing24)
    && (w.bottomPlate == FloatingBottom ==> w.floorGap.Some?)
  }

  /** `validateWall`: each check pushes its message when it fails. */
  method ValidateWall(wall: Wall) returns (result: ValidationResult)
    ensures result.errors == WallErrors(wall)
    ensures result.isValid <==> WallAcceptable(wall)
    ensures result.isValid <==> result.errors == []
  {
    var errors: seq<string> := [];
    errors := PushWhen(errors, IsBlank(wall.name), NameRequired);
    errors := PushWhen(errors, wall.length <= 0.0, LengthNotPositive);
    errors := PushWhen(errors, wall.height <= 0.0, HeightNotPositive);
    errors := PushWhen(errors, wall.floorGap.Some? && wall.floorGap.value < 0.0, FloorGapNegative);
    errors := PushWhen(errors, wall.loadBearing && wall.studSpacing == Spacing24, LoadBearingSpacing24);
    errors := PushWhen(errors, wall.bottomPlate == FloatingBottom && wall.floorGap.None?, FloorGapRequired);
    WallErrorsSpelledOut(wall);
    WallValidIff(wall);
    result := ValidationResult(|errors| == 0, errors);
  }

  /** The wall errors, rule by rule in check order. */
  lemma WallErrorsSpelledOut(w: Wall)
    ensures WallErrors(w) == [] + Report(Check(IsBlank(w.name), NameRequired))
      + Report(Check(w.length <= 0.0, LengthNotPositive))
      + Report(Check(w.height <= 0.0, HeightNotPositive))
      + Report(Check(w.floorGap.Some? && w.floorGap.value < 0.0, FloorGapNegative))
      + Report(Check(w.loadBearing && w.studSpacing == Spacing24, LoadBearingSpacing24))
      + Report(Check(w.bottomPlate == FloatingBottom && w.floorGap.None?, FloorGapRequired))
  {
    FailedMessagesOfSixChecks(WallChecks(w), Check(IsBlank(w.name), NameRequired),
      Check(w.length <= 0.0, LengthNotPositive), Check(w.height <= 0.0, HeightNotPositive),
      Check(w.floorGap.Some? && w.floorGap.value < 0.0, FloorGapNegative),
      Check(w.loadBearing && w.studSpacing == Spacing24, LoadBearingSpacing24),
      Check(w.bottomPlate == FloatingBottom && w.floorGap.None?, FloorGapRequired));
  }

  /** A wall has no errors exactly when it is acceptable. */
  lemma WallValidIff(w: Wall)
    ensures WallErrors(w) == [] <==> WallAcceptable(w)
  {
    WallErrorsSpelledOut(w);
  }

  /** Once positive, the length and height play no further part: any other
      positive values give the same errors. */
  lemma WallHasNoUpperBounds(w: Wall, length: real, height: real)
    requires w.length > 0.0 && w.height > 0.0 && length > 0.0 && height > 0.0
    ensures WallErrors(w.(length := length, height := height)) == WallErrors(w)
  {
    assert WallChecks(w.(length := length, height := height)) == WallChecks(w);
  }

  /** On a wall that is otherwise acceptable, 24" spacing under load and a
      floating plate without a floor gap are each reported with their own
      message, and in that order when both apply. */
  lemma WallBusinessRules(w: Wall)
    requires WallAcceptable(w.(loadBearing := false, bottomPlate := StandardBottom))
    ensures var spacing := w.loadBearing && w.studSpacing == Spacing24;
            var gap := w.bottomPlate == FloatingBottom && w.floorGap.None?;
            && (spacing && !gap ==> WallErrors(w) == [LoadBearingSpacing24])
            && (gap && !spacing ==> WallErrors(w) == [FloorGapRequired])
            && (spacing && gap ==> WallErrors(w) == [LoadBearingSpacing24,
                                                      FloorGapRequired])
  {
    var cs := WallChecks(w);
    FailedMessagesOfSixWhenFirstFourPass(cs);
  }

  // ---- getWallPresets ----

  const LoadBearingPreset := WallPatch(Some("Load Bearing Wall"), None, None, Some(Spacing16), Some(DoubleTop),
    Some(StandardBottom), Some(true), Some(Untreated), Some(Some(California)), Some(Some(California)), None)

  /** The right corner key is present and holds `undefined`. */
  const NonLoadBearingPreset := WallPatch(Some("Non-Load Bearing Wall"), None, None, Some(Spacing16),
    Some(SingleTop), Some(StandardBottom), Some(false), Some(Untreated), Some(Some(California)), Some(None), None)

  const BasementFloatingPreset := WallPatch(Some("Basement Floating Wall"), None, None, Some(Spacing16),
    Some(SingleTop), Some(FloatingBottom), Some(false), Some(PressureTreated), Some(Some(California)),
    Some(Some(California)), Some(Some(2.0)))

  /** The three presets pass request validation. */
  lemma PresetsAreValidRequests()
    ensures RequestErrors(LoadBearingPreset) == []
    ensures RequestErrors(NonLoadBearingPreset) == []
    ensures RequestErrors(BasementFloatingPreset) == []
  {
    NotBlankWhenFirstIsSolid("Load Bearing Wall");
    NotBlankWhenFirstIsSolid("Non-Load Bearing Wall");
    NotBlankWhenFirstIsSolid("Basement Floating Wall");
    RequestValidIff(LoadBearingPreset);
    RequestValidIff(NonLoadBearingPreset);
    RequestValidIff(BasementFloatingPreset);
  }

  /** The framing choices a preset fixes agree with a form state. */
  predicate FramingMatches(s: WallForm.FormState, p: WallPatch) {
    && p.studSpacing == Some(s.studSpacing)
    && p.topPlate == Some(s.topPlate)
    && p.bottomPlate == Some(s.bottomPlate)
    && p.bottomPlateTreatment == Some(s.bottomPlateTreatment)
    && p.loadBearing == Some(s.isLoadBearing)
    && Flatten(p.leftCorner) == s.leftCorner
    && Flatten(p.rightCorner) == s.rightCorner
    && (p.floorGap.Some? ==> Flatten(p.floorGap) == s.floorGap)
  }

  /** The form's preset buttons and the service's presets choose the same
      framing, whatever the form held before. */
  lemma PresetsAgreeWithForm(prev: WallForm.FormState)
    ensures FramingMatches(WallForm.PresetLoadBearing(prev), LoadBearingPreset)
    ensures FramingMatches(WallForm.PresetNonLoadBearing(prev), NonLoadBearingPreset)
    ensures FramingMatches(WallForm.PresetBasementFloating(prev), BasementFloatingPreset)
  {
  }

  /** A form with a name and a positive length, put through any preset and
      submitted, gives a wall `validateWall` accepts (the height of a form
      without one, or with a non-negative one, is made valid by the preset). */
  lemma PresetFormsSubmitValidWalls(prev: WallForm.FormState, id: string, projectId: string)
    requires WallForm.NameOk(prev) && WallForm.LengthOk(prev) && prev.heightValue.GetOr(0.0) >= 0.0
    ensures WallErrors(WallFrom(id, projectId, WallForm.SubmitValues(WallForm.PresetLoadBearing(prev)))) == []
    ensures WallErrors(WallFrom(id, projectId, WallForm.SubmitValues(WallForm.PresetNonLoadBearing(prev)))) == []
    ensures WallErrors(WallFrom(id, projectId, WallForm.SubmitValues(WallForm.PresetBasementFloating(prev)))) == []
  {
    WallForm.PresetHeights(prev);
    WallForm.PresetsKeepNameAndLength(prev);
    SubmittedWallValid(WallForm.PresetLoadBearing(prev), id, projectId);
    SubmittedWallValid(WallForm.PresetNonLoadBearing(prev), id, projectId);
    SubmittedWallValid(WallForm.PresetBasementFloating(prev), id, projectId);
  }

  /** A form that passes its own checks, is not load-bearing on 24" spacing
      and has no negative gap under a floating plate submits a wall
      `validateWall` accepts. */
  lemma SubmittedWallValid(s: WallForm.FormState, id: string, projectId: string)
    requires WallForm.NameOk(s) && WallForm.LengthOk(s) && WallForm.HeightOk(s)
    requires !(s.isLoadBearing && s.studSpacing == Spacing24)
    requires s.bottomPlate == FloatingBottom ==> s.floorGap.GetOr(0.0) >= 0.0
    ensures WallErrors(WallFrom(id, projectId, WallForm.SubmitValues(s))) == []
  {
    var r := WallForm.SubmitValues(s);
    WallForm.SubmittedIsSound(s);
    BlankIff(r.name);
    WallValidIff(WallFrom(id, projectId, r));
  }

  // ---- The guarded API calls ----

  class WallService {
    const api: MockApiClient

    constructor(api: MockApiClient)
      ensures this.api == api
    {
      this.api := api;
    }

    /** `getWalls`: the client's walls of the project, or its error; each
        wall names the project when the client's table keeps walls with their
        projects. */
    method GetWalls(projectId: string) returns (r: Result<seq<Wall>>)
      ensures r == OrFallback(GetWallsOp(api.projects, projectId), "Failed to fetch walls")
      ensures r.Success? && WallsBelong(api.projects) ==>
        forall k :: 0 <= k < |r.value| ==> r.value[k].projectId == projectId
    {
      var response := api.GetWalls(projectId);
      r := OrFallback(response, "Failed to fetch walls");
    }

    /** `getWall`: the client's wall, or its error; the wall names the
        project when the client's table keeps walls with their projects. */
    method GetWall(projectId: string, wallId: string) returns (r: Result<Wall>)
      ensures r == OrFallback(GetWallOp(api.projects, projectId, wallId), "Failed to fetch wall")
      ensures r.Success? ==> r.value.id == wallId
      ensures r.Success? && WallsBelong(api.projects) ==> r.value.projectId == projectId
    {
      var response := api.GetWall(projectId, wallId);
      r := OrFallback(response, "Failed to fetch wall");
    }

    /** `createWall`: an invalid request fails with its errors joined by ", "
        and never reaches the client; a valid one is created by the client. */
    method CreateWall(projectId: string, request: WallRequest, id: string, now: string) returns (r: Result<Wall>)
      modifies api
      ensures WallsBelong(old(api.projects)) ==> WallsBelong(api.projects)
      ensures api.pricingConfig == old(api.pricingConfig)
      ensures RequestErrors(AsPatch(request)) != [] ==>
        r == Failure(Join(RequestErrors(AsPatch(request)), ", ")) && api.projects == old(api.projects)
      ensures RequestErrors(AsPatch(request)) == [] ==>
        var o := CreateWallOp(old(api.projects), projectId, request, id, now);
        api.projects == o.projects && r == OrFallback(o.response, "Failed to create wall")
    {
      var validation := ValidateWallRequest(AsPatch(request));
      if !validation.isValid {
        return Failure(Join(validation.errors, ", "));
      }
      var response := api.CreateWall(projectId, request, id, now);
      r := OrFallback(response, "Failed to create wall");
    }

    /** `updateWall`: the same guard in front of the client's update. */
    method UpdateWall(projectId: string, wallId: string, request: WallPatch, now: string) returns (r: Result<Wall>)
      modifies api
      ensures WallsBelong(old(api.projects)) ==> WallsBelong(api.projects)
      ensures api.pricingConfig == old(api.pricingConfig)
      ensures RequestErrors(request) != [] ==>
        r == Failure(Join(RequestErrors(request), ", ")) && api.projects == old(api.projects)
      ensures RequestErrors(request) == [] ==>
        var o := UpdateWallOp(old(api.projects), projectId, wallId, request, now);
        api.projects == o.projects && r == OrFallback(o.response, "Failed to update wall")
    {
      var validation := ValidateWallRequest(request);
      if !validation.isValid {
        return Failure(Join(validation.errors, ", "));
      }
      var response := api.UpdateWall(projectId, wallId, request, now);
      r := OrFallback(response, "Failed to update wall");
    }

    /** `deleteWall`: no validation; the client's removal, or its error. */
    method DeleteWall(projectId: string, wallId: string, now: string) returns (r: Result<()>)
      modifies api
      ensures WallsBelong(old(api.projects)) ==> WallsBelong(api.projects)
      ensures api.pricingConfig == old(api.pricingConfig)
      ensures var o := DeleteWallOp(old(api.projects), projectId, wallId, now);
              api.projects == o.projects && r == OrFallback(o.response, "Failed to delete wall")
    {
      var response := api.DeleteWall(projectId, wallId, now);
      r := OrFallback(response, "Failed to delete wall");
    }
  }

  /** A wall created through the service is stored only if it passed the
      request rules: every wall the service adds has a non-blank name of at
      most 50 characters and dimensions within (0, 100] by (0, 20]. */
  lemma CreatedWallsPassedTheRules(ps: seq<Project>, projectId: string, request: WallRequest, id: string, now: string)
    requires RequestErrors(AsPatch(request)) == []
    requires CreateWallOp(ps, projectId, request, id, now).response.Success?
    ensures var w := CreateWallOp(ps, projectId, request, id, now).response.value;
            && !IsBlank(w.name) && Utf16Length(w.name) <= 50
            && 0.0 < w.length <= 100.0 && 0.0 < w.height <= 20.0
            && (w.floorGap.Some? ==> w.floorGap.value >= 0.0)
  {
    RequestValidIff(AsPatch(request));
  }
}
