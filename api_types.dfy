/**
 * The records exchanged between the estimator's services, stores and API
 * clients: walls, projects, pricing, and the request shapes that create or
 * patch them. String-valued unions of the source become datatypes; an
 * optional property becomes an `Option`.
 */
module ApiTypes {

  datatype Option<+T> = None | Some(value: T) {
    function GetOr(default: T): T {
      match this
      case Some(v) => v
      case None => default
    }
  }

  /** What an API client or a service call returns: the data or an error message. */
  datatype Result<+T> = Success(value: T) | Failure(error: string)

  /** On-centre stud spacing, written '12' | '16' | '24' in the source. */
  datatype StudSpacing = Spacing12 | Spacing16 | Spacing24 {
    /** The spacing in inches, as `Number(studSpacing)` / `parseInt(studSpacing, 10)` read it. */
    function Inches(): (r: real)
      ensures r in {12.0, 16.0, 24.0}
    {
      match this
      case Spacing12 => 12.0
      case Spacing16 => 16.0
      case Spacing24 => 24.0
    }
  }

  datatype TopPlate = SingleTop | DoubleTop
  datatype BottomPlate = StandardBottom | FloatingBottom
  datatype Treatment = Untreated | PressureTreated
  datatype CornerType = California | DoubleCorner | ThreeStud

  /** A stored wall. Lengths and heights are in feet, the floor gap in inches. */
  datatype Wall = Wall(
    id: string,
    projectId: string,
    name: string,
    length: real,
    height: real,
    studSpacing: StudSpacing,
    topPlate: TopPlate,
    bottomPlate: BottomPlate,
    loadBearing: bool,
    bottomPlateTreatment: Treatment,
    leftCorner: Option<CornerType>,
    rightCorner: Option<CornerType>,
    floorGap: Option<real>
  )

  /** The fields a client supplies to create a wall (everything but the ids). */
  datatype WallRequest = WallRequest(
    name: string,
    length: real,
    height: real,
    studSpacing: StudSpacing,
    topPlate: TopPlate,
    bottomPlate: BottomPlate,
    loadBearing: bool,
    bottomPlateTreatment: Treatment,
    leftCorner: Option<CornerType>,
    rightCorner: Option<CornerType>,
    floorGap: Option<real>
  )

  /** `None` for a missing key, `Some(None)` for a key present with the value
      `undefined`, `Some(Some(v))` for a key holding `v`. */
  function Flatten<T>(o: Option<Option<T>>): (r: Option<T>)
    ensures r.Some? <==> o.Some? && o.value.Some?
    ensures r.Some? ==> r.value == o.value.value
  {
    if o.Some? then o.value else None
  }

  /** `{ id, projectId, ...request }`: the wall a create request describes. */
  function WallFrom(id: string, projectId: string, r: WallRequest): Wall {
    Wall(id, projectId, r.name, r.length, r.height, r.studSpacing, r.topPlate, r.bottomPlate,
         r.loadBearing, r.bottomPlateTreatment, r.leftCorner, r.rightCorner, r.floorGap)
  }

  /** A partial wall request (an update, or a form's initial values): every
      field optional. The wall's own optional fields distinguish a missing key
      from a key explicitly holding `undefined`, which an object spread copies. */
  datatype WallPatch = WallPatch(
    name: Option<string>,
    length: Option<real>,
    height: Option<real>,
    studSpacing: Option<StudSpacing>,
    topPlate: Option<TopPlate>,
    bottomPlate: Option<BottomPlate>,
    loadBearing: Option<bool>,
    bottomPlateTreatment: Option<Treatment>,
    leftCorner: Option<Option<CornerType>>,
    rightCorner: Option<Option<CornerType>>,
    floorGap: Option<Option<real>>
  )

  const EmptyWallPatch := WallPatch(None, None, None, None, None, None, None, None, None, None, None)

  /** A full create request seen as a patch: every key present. */
  function AsPatch(r: WallRequest): WallPatch
  {
    WallPatch(Some(r.name), Some(r.length), Some(r.height), Some(r.studSpacing),
              Some(r.topPlate), Some(r.bottomPlate), Some(r.loadBearing),
              Some(r.bottomPlateTreatment), Some(r.leftCorner), Some(r.rightCorner), Some(r.floorGap))
  }

  datatype Project = Project(
    id: string,
    name: string,
    createdAt: string,
    updatedAt: Option<string>,
    archived: Option<bool>,
    walls: seq<Wall>
  )

  datatype ProjectPatch = ProjectPatch(name: Option<string>, archived: Option<bool>)

  datatype PricingConfig = PricingConfig(
    studUnitCost: real,
    plateUnitCost: real,
    pressureTreatedPlateCost: real
  )

  datatype PricingPatch = PricingPatch(
    studUnitCost: Option<real>,
    plateUnitCost: Option<real>,
    pressureTreatedPlateCost: Option<real>
  )

  /** `response.error || fallback` on a failed response. */
  function OrFallback<T>(r: Result<T>, fallback: string): (s: Result<T>)
    ensures s.Success? <==> r.Success?
    ensures r.Success? || r.error != "" ==> s == r
    ensures r.Failure? && r.error == "" ==> s == Failure(fallback)
  {
    match r
    case Success(_) => r
    case Failure(e) => Failure(if e == "" then fallback else e)
  }

  /** The prices every calculator falls back to when no configuration is loaded. */
  const DefaultPricing := PricingConfig(3.5, 3.5, 4.25)
}
