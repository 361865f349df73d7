/**
 * The pricing service: the range rules a partial pricing update must meet,
 * the default prices, the regional presets, and the update call that refuses
 * an out-of-range configuration before it reaches the API client.
 */
module PricingService {
  import opened ApiTypes
  import opened Validation
  import opened MockAdapter
  import opened Text

  // ---- The messages ----

  const StudNegative := "Stud unit cost cannot be negative"
  const StudTooHigh := "Stud unit cost seems unreasonably high"
  const PlateNegative := "Plate unit cost cannot be negative"
  const PlateTooHigh := "Plate unit cost seems unreasonably high"
  const TreatedNegative := "Pressure treated plate cost cannot be negative"
  const TreatedTooHigh := "Pressure treated plate cost seems unreasonably high"

  /** The dearest unit price the service accepts, in dollars. */
  const MaxUnitCost: real := 100.0

  // ---- validatePricingConfig ----

  /** A present price must lie in [0, 100]. */
  function CostErrors(cost: Option<real>, negative: string, tooHigh: string): seq<string> {
    if cost.Some? then
      Report(Check(cost.value < 0.0, negative)) + Report(Check(cost.value > MaxUnitCost, tooHigh))
    else []
  }

  /** The errors `validatePricingConfig` reports: the stud price errors, then
      the plate and the pressure-treated plate price errors. */
  function PricingErrors(c: PricingPatch): seq<string> {
    CostErrors(c.studUnitCost, StudNegative, StudTooHigh)
    + CostErrors(c.plateUnitCost, PlateNegative, PlateTooHigh)
    + CostErrors(c.pressureTreatedPlateCost, TreatedNegative, TreatedTooHigh)
  }

  /** A price that is absent, or present and within [0, 100]. */
  predicate CostAcceptable(cost: Option<real>) {
    cost.Some? ==> 0.0 <= cost.value <= MaxUnitCost
  }

  /** What a pricing update must satisfy; absent prices are not checked. */
  predicate PricingAcceptable(c: PricingPatch) {
    CostAcceptable(c.studUnitCost) && CostAcceptable(c.plateUnitCost)
    && CostAcceptable(c.pressureTreatedPlateCost)
  }

  /** One price block of `validatePricingConfig`: a present price pushes a
      message when it is negative and another when it exceeds 100. */
  method PushCostErrors(errors: seq<string>, cost: Option<real>, negative: string, tooHigh: string)
    returns (r: seq<string>)
    ensures r == errors + CostErrors(cost, negative, tooHigh)
  {
    r := errors;
    if cost.Some? {
      r := PushWhen(r, cost.value < 0.0, negative);
      r := PushWhen(r, cost.value > MaxUnitCost, tooHigh);
    }
  }

  /** `validatePricingConfig`. */
  method ValidatePricingConfig(config: PricingPatch) returns (result: ValidationResult)
    ensures result.errors == PricingErrors(config)
    ensures result.isValid <==> PricingAcceptable(config)
    ensures result.isValid <==> result.errors == []
  {
    var errors: seq<string> := [];
    errors := PushCostErrors(errors, config.studUnitCost, StudNegative, StudTooHigh);
    errors := PushCostErrors(errors, config.plateUnitCost, PlateNegative, PlateTooHigh);
    errors := PushCostErrors(errors, config.pressureTreatedPlateCost, TreatedNegative, TreatedTooHigh);
    PricingValidIff(config);
    result := ValidationResult(|errors| == 0, errors);
  }

  /** A price block reports nothing exactly when the price is acceptable, and
      never more than one message, since no price is both negative and above
      100. */
  lemma CostErrorsIff(cost: Option<real>, negative: string, tooHigh: string)
    ensures CostErrors(cost, negative, tooHigh) == [] <==> CostAcceptable(cost)
    ensures |CostErrors(cost, negative, tooHigh)| <= 1
  {
  }

  /** A pricing update has no errors exactly when every present price is in
      [0, 100]; both bounds are inclusive. */
  lemma PricingValidIff(c: PricingPatch)
    ensures PricingErrors(c) == [] <==> PricingAcceptable(c)
  {
    CostErrorsIff(c.studUnitCost, StudNegative, StudTooHigh);
    CostErrorsIff(c.plateUnitCost, PlateNegative, PlateTooHigh);
    CostErrorsIff(c.pressureTreatedPlateCost, TreatedNegative, TreatedTooHigh);
  }

  /** Each price reports at most one error, so an update collects at most
      three, one per out-of-range price. */
  lemma PricingErrorsAtMostThree(c: PricingPatch)
    ensures |PricingErrors(c)| <= 3
  {
    CostErrorsIff(c.studUnitCost, StudNegative, StudTooHigh);
    CostErrorsIff(c.plateUnitCost, PlateNegative, PlateTooHigh);
    CostErrorsIff(c.pressureTreatedPlateCost, TreatedNegative, TreatedTooHigh);
  }

  /** A lone negative stud price reports only the stud message, a lone price
      above 100 only its "unreasonably high" message, and an empty update
      nothing. */
  lemma PricingErrorExamples(cost: real)
    ensures PricingErrors(PricingPatch(None, None, None)) == []
    ensures cost < 0.0 ==> PricingErrors(PricingPatch(Some(cost), None, None)) == [StudNegative]
    ensures cost > MaxUnitCost ==> PricingErrors(PricingPatch(None, Some(cost), None)) == [PlateTooHigh]
    ensures cost > MaxUnitCost ==> PricingErrors(PricingPatch(None, None, Some(cost))) == [TreatedTooHigh]
  {
  }

  // ---- The default and regional prices ----

  /** A full configuration as an update that sets every price. */
  function AsPricingPatch(c: PricingConfig): (p: PricingPatch)
    ensures forall current: PricingConfig :: MergePricing(current, p) == c
  {
    PricingPatch(Some(c.studUnitCost), Some(c.plateUnitCost), Some(c.pressureTreatedPlateCost))
  }

  /** The regions `getRegionalPricingPresets` offers, keyed by these names. */
  datatype Region = USNortheast | USSouthwest | USWest | USMidwest {
    function Name(): string {
      match this
      case USNortheast => "US-Northeast"
      case USSouthwest => "US-Southwest"
      case USWest => "US-West"
      case USMidwest => "US-Midwest"
    }
  }

  /** The preset prices of each region. */
  function RegionalPreset(region: Region): PricingConfig {
    match region
    case USNortheast => PricingConfig(4.2, 4.2, 5.1)
    case USSouthwest => PricingConfig(3.1, 3.1, 3.8)
    case USWest => PricingConfig(3.8, 3.8, 4.6)
    case USMidwest => PricingConfig(3.3, 3.3, 4.0)
  }

  /** `getRegionalPricingPresets`: the presets keyed by region name. */
  function RegionalPricingPresets(): (presets: map<string, PricingConfig>)
    ensures |presets| == 4
    ensures forall region: Region :: region.Name() in presets && presets[region.Name()] == RegionalPreset(region)
  {
    map[USNortheast.Name() := RegionalPreset(USNortheast), USSouthwest.Name() := RegionalPreset(USSouthwest),
        USWest.Name() := RegionalPreset(USWest), USMidwest.Name() := RegionalPreset(USMidwest)]
  }

  /** The default prices and every regional preset pass the update rules,
      price studs and plates alike, and charge at least as much for a
      pressure-treated plate as for an untreated one. */
  lemma PresetsAreAcceptable(region: Region)
    ensures PricingErrors(AsPricingPatch(DefaultPricing)) == []
    ensures PricingErrors(AsPricingPatch(RegionalPreset(region))) == []
    ensures var p := RegionalPreset(region);
            p.studUnitCost == p.plateUnitCost && p.plateUnitCost <= p.pressureTreatedPlateCost
    ensures DefaultPricing.plateUnitCost <= DefaultPricing.pressureTreatedPlateCost
  {
    PricingValidIff(AsPricingPatch(DefaultPricing));
    PricingValidIff(AsPricingPatch(RegionalPreset(region)));
  }

  // ---- The guarded API calls ----

  class PricingService {
    const api: MockApiClient

    constructor(api: MockApiClient)
      ensures this.api == api
    {
      this.api := api;
    }

    /** `getPricingConfig`: the client's configuration. */
    method GetPricingConfig() returns (r: Result<PricingConfig>)
      ensures r == Success(api.pricingConfig)
    {
      var response := api.GetPricingConfig();
      r := OrFallback(response, "Failed to fetch pricing config");
    }

    /** `updatePricingConfig`: an out-of-range update fails with its errors
        joined by ", " and leaves the prices alone; an acceptable one is merged
        over the current prices. */
    method UpdatePricingConfig(config: PricingPatch) returns (r: Result<PricingConfig>)
      modifies api
      ensures api.projects == old(api.projects)
      ensures !PricingAcceptable(config) ==>
        r == Failure(Join(PricingErrors(config), ", ")) && api.pricingConfig == old(api.pricingConfig)
      ensures PricingAcceptable(config) ==>
        api.pricingConfig == MergePricing(old(api.pricingConfig), config) && r == Success(api.pricingConfig)
    {
      var validation := ValidatePricingConfig(config);
      if !validation.isValid {
        return Failure(Join(validation.errors, ", "));
      }
      var response := api.UpdatePricingConfig(config);
      r := OrFallback(response, "Failed to update pricing config");
    }

    /** `getDefaultPricingConfig`. */
    method GetDefaultPricingConfig() returns (c: PricingConfig)
      ensures PricingErrors(AsPricingPatch(c)) == []
      ensures c == DefaultPricing
    {
      PresetsAreAcceptable(USNortheast);
      c := PricingConfig(3.5, 3.5, 4.25);
    }
  }

  /** Prices accepted by the service stay in range: merging an acceptable
      update over in-range prices keeps every price in [0, 100]. */
  lemma AcceptedUpdatesKeepPricesInRange(c: PricingConfig, patch: PricingPatch)
    requires PricingAcceptable(AsPricingPatch(c)) && PricingAcceptable(patch)
    ensures PricingAcceptable(AsPricingPatch(MergePricing(c, patch)))
  {
  }
}
