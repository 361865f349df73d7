/**
 * The figures a wall's row in the wall list shows: pieces, piece-based linear
 * feet, boards on 8 ft stock and costs, and the board total.
 */
module WallItem {
  import opened ApiTypes
  import opened WallDimensions
  import opened WallLumber
  import opened WallCosts
  import WallForm

  datatype ItemFigures = ItemFigures(
    studs: int,
    plateCount: int,
    studsLF: real,
    platesLF: real,
    totalLF: real,
    ptPlateRuns: int,
    studsToBuy: int,
    platesToBuy: int,
    estStudCost: real,
    estPlateCost: real,
    estTotalCost: real
  )

  const StudLengthFt: real := 8.0
  const PlateLengthFt: real := 8.0

  /** The derived numbers of a wall row: studs at the spacing plus corner studs,
      linear feet as pieces times their length, boards on 8 ft stock, and costs
      at the loaded prices or the default ones. */
  function Figures(wall: Wall, pricing: Option<PricingConfig>): ItemFigures {
    var lengthFt := wall.length;
    var heightFt := wall.height;
    var regular := RegularStuds(FeetToInches(lengthFt), wall.studSpacing.Inches());
    var corners := CalculateCornerStuds(wall.leftCorner, wall.rightCorner).total;
    var studs := regular + corners;
    var plateCount := CalculatePlateCount(wall.topPlate, wall.bottomPlate);
    var studsLF := PieceFootage(studs, heightFt);
    var platesLF := PieceFootage(plateCount, lengthFt);
    var ptPlateRuns :=
      if wall.bottomPlate == FloatingBottom && wall.bottomPlateTreatment == PressureTreated then 1 else 0;
    var prices := pricing.GetOr(DefaultPricing);
    var studsToBuy := BoardsNeeded(studs, heightFt, StudLengthFt);
    var platesToBuy := BoardsNeeded(plateCount, lengthFt, PlateLengthFt);
    var estStudCost := StudCost(studsToBuy, prices.studUnitCost);
    var estPlateCost := PlateCost(platesToBuy, prices.plateUnitCost, wall.bottomPlate == FloatingBottom,
                                  wall.bottomPlateTreatment == PressureTreated, prices.pressureTreatedPlateCost);
    ItemFigures(studs, plateCount, studsLF, platesLF, studsLF + platesLF, ptPlateRuns,
                studsToBuy, platesToBuy, estStudCost, estPlateCost, TotalCost(estStudCost, estPlateCost))
  }

  /** The "Boards:" total of a row: never below either non-negative part. */
  function BoardTotal(f: ItemFigures): (n: int)
    ensures f.studsToBuy >= 0 && f.platesToBuy >= 0 ==> n >= f.studsToBuy && n >= f.platesToBuy
  {
    f.studsToBuy + f.platesToBuy
  }

  /** One pressure-treated plate run exactly for a floating treated bottom. */
  lemma PtPlateRunsIff(wall: Wall, pricing: Option<PricingConfig>)
    ensures Figures(wall, pricing).ptPlateRuns == 1 <==>
            wall.bottomPlate == FloatingBottom && wall.bottomPlateTreatment == PressureTreated
    ensures Figures(wall, pricing).ptPlateRuns in {0, 1}
  {
  }

  /** The row's linear feet are the footage of the pieces themselves, with no
      rounding to whole boards; for positive dimensions the boards counted in
      the row's total cover that footage. */
  lemma BoardTotalCoversLinearFeet(wall: Wall, pricing: Option<PricingConfig>)
    requires wall.length > 0.0 && wall.height > 0.0
    ensures var f := Figures(wall, pricing);
            && f.totalLF == PieceFootage(f.studs, wall.height) + PieceFootage(f.plateCount, wall.length)
            && BoardLinearFeet(f.studsToBuy, 8.0) >= f.studsLF
            && BoardLinearFeet(f.platesToBuy, 8.0) >= f.platesLF
            && BoardLinearFeet(BoardTotal(f), 8.0) >= f.totalLF
  {
    var f := Figures(wall, pricing);
    var studs, plates := f.studs, f.plateCount;
    var inches := FeetToInches(wall.length);
    assert inches >= 0.0;
    RegularStudsAtLeastOne(inches, wall.studSpacing.Inches());
    assert studs >= 0 && plates >= 0;
    BoardsCoverPieces(studs, wall.height, StudLengthFt);
    BoardsCoverPieces(plates, wall.length, PlateLengthFt);
    assert f.studsToBuy == BoardsNeeded(studs, wall.height, StudLengthFt);
    assert f.platesToBuy == BoardsNeeded(plates, wall.length, PlateLengthFt);
    assert BoardLinearFeet(BoardTotal(f), 8.0)
        == BoardLinearFeet(f.studsToBuy, 8.0) + BoardLinearFeet(f.platesToBuy, 8.0);
  }

  /** A wall created from the form shows the same pieces, boards and costs as
      the form's estimate did; only the linear feet differ, the form's
      board-based footage being at least the row's piece-based footage. */
  lemma AgreesWithForm(s: WallForm.FormState, pricing: Option<PricingConfig>, id: string, projectId: string)
    requires s.lengthValue.Some? && s.heightValue.Some?
    ensures var c := WallForm.Calculate(s, pricing);
            var f := Figures(WallFrom(id, projectId, WallForm.SubmitValues(s)), pricing);
            && f.studs == c.totalStuds && f.plateCount == c.totalPlates
            && f.studsToBuy == c.studsNeeded && f.platesToBuy == c.platesNeeded
            && f.estStudCost == c.studCost && f.estPlateCost == c.plateCost
            && f.estTotalCost == c.totalCost
            && BoardTotal(f) as real * 8.0 == c.totalLinearFeet
  {
  }

  /** The footage the form shows covers the footage the row shows, for positive
      dimensions. */
  lemma FormFootageCoversItemFootage(s: WallForm.FormState, pricing: Option<PricingConfig>, id: string, projectId: string)
    requires s.lengthValue.Some? && s.heightValue.Some?
    requires s.lengthValue.value > 0.0 && s.heightValue.value > 0.0
    ensures var c := WallForm.Calculate(s, pricing);
            var f := Figures(WallFrom(id, projectId, WallForm.SubmitValues(s)), pricing);
            && c.studLinearFeet >= f.studsLF
            && c.plateLinearFeet >= f.platesLF
            && c.totalLinearFeet >= f.totalLF
  {
    var c := WallForm.Calculate(s, pricing);
    var f := Figures(WallFrom(id, projectId, WallForm.SubmitValues(s)), pricing);
    AgreesWithForm(s, pricing, id, projectId);
    WallForm.CalculateCovers(s, pricing);
    assert f.studsLF == PieceFootage(c.totalStuds, s.heightValue.GetOr(0.0));
    assert f.platesLF == PieceFootage(c.totalPlates, s.lengthValue.GetOr(0.0));
  }

  /** Without loaded pricing the row is priced at the default prices. */
  lemma MissingPricingUsesDefaults(wall: Wall)
    ensures Figures(wall, None) == Figures(wall, Some(DefaultPricing))
  {
  }
}
