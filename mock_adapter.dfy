/**
 * The in-memory API client: a table of projects, each owning its walls, and a
 * pricing configuration. Lookups that miss report "Project not found" or
 * "Wall not found" and change nothing. Fresh ids and timestamps, which the
 * client draws from `crypto.randomUUID` and the clock, are parameters.
 *
 * Each operation is first stated as a function from the old table to an
 * `Outcome` (the new table and the response); the class's methods are proved
 * to perform exactly that outcome.
 */
module MockAdapter {
  import opened ApiTypes
  import opened Seqs

  const ProjectNotFound := "Project not found"
  const WallNotFound := "Wall not found"

  /** The table after an operation, and what the operation answered. */
  datatype Outcome<T> = Outcome(projects: seq<Project>, response: Result<T>)

  /** `projects.findIndex(p => p.id === id)`: the first project with that id. */
  function ProjectIndex(ps: seq<Project>, id: string): (r: Option<nat>)
    ensures r.Some? ==> r.value < |ps| && ps[r.value].id == id
    ensures r.Some? ==> forall j :: 0 <= j < r.value ==> ps[j].id != id
    ensures r.None? <==> forall j :: 0 <= j < |ps| ==> ps[j].id != id
  {
    FindIndex(ps, (p: Project) => p.id == id)
  }

  /** `walls.findIndex(w => w.id === wallId)`: the first wall with that id. */
  function WallIndex(ws: seq<Wall>, wallId: string): (r: Option<nat>)
    ensures r.Some? ==> r.value < |ws| && ws[r.value].id == wallId
    ensures r.Some? ==> forall j :: 0 <= j < r.value ==> ws[j].id != wallId
    ensures r.None? <==> forall j :: 0 <= j < |ws| ==> ws[j].id != wallId
  {
    FindIndex(ws, (w: Wall) => w.id == wallId)
  }

  /** `!p.archived`: a project is listed unless it is flagged archived. */
  predicate IsActive(p: Project) {
    p.archived != Some(true)
  }

  /** The table invariant: every wall records the id of the project that holds it. */
  predicate WallsBelong(ps: seq<Project>) {
    forall i, k :: 0 <= i < |ps| && 0 <= k < |ps[i].walls| ==> ps[i].walls[k].projectId == ps[i].id
  }

  /** The two seeded projects; their timestamps are the moment the client is
      loaded and one day before. */
  function SeedProjects(now: string, dayBefore: string): seq<Project> {
    [ Project("1", "Sample House Project", now, Some(now), Some(false),
              [Wall("wall-1", "1", "North Wall", 20.0, 9.0, Spacing16, DoubleTop, StandardBottom,
                    true, Untreated, Some(California), Some(California), None)]),
      Project("2", "Garage Addition", dayBefore, Some(dayBefore), Some(false), []) ]
  }

  /** The seeded pricing. */
  const SeedPricing := PricingConfig(3.5, 3.5, 4.25)

  /** `s.splice(i, 1)`. */
  function RemoveAt<T>(s: seq<T>, i: nat): (r: seq<T>)
    requires i < |s|
    ensures |r| == |s| - 1
    ensures forall j :: 0 <= j < i ==> r[j] == s[j]
    ensures forall j :: i <= j < |r| ==> r[j] == s[j + 1]
  {
    s[..i] + s[i + 1..]
  }

  /** A fresh project as `createProject` stores it. */
  function NewProject(id: string, name: string, now: string): Project {
    Project(id, name, now, Some(now), Some(false), [])
  }

  /** `{ ...project, ...request, updatedAt }`: present keys overwrite. */
  function PatchProject(p: Project, patch: ProjectPatch, now: string): (q: Project)
    ensures q.id == p.id && q.createdAt == p.createdAt && q.walls == p.walls
    ensures q.updatedAt == Some(now)
    ensures q.name == (if patch.name.Some? then patch.name.value else p.name)
    ensures q.archived == (if patch.archived.Some? then patch.archived else p.archived)
  {
    Project(p.id, patch.name.GetOr(p.name), p.createdAt, Some(now),
            if patch.archived.Some? then patch.archived else p.archived, p.walls)
  }

  /** `{ ...wall, ...request }`: present keys of the patch overwrite, absent
      ones keep the wall's value, and the ids stay. */
  function PatchWall(w: Wall, patch: WallPatch): (v: Wall)
    ensures v.id == w.id && v.projectId == w.projectId
    ensures v.name == (if patch.name.Some? then patch.name.value else w.name)
    ensures v.length == (if patch.length.Some? then patch.length.value else w.length)
    ensures v.height == (if patch.height.Some? then patch.height.value else w.height)
    ensures v.studSpacing == (if patch.studSpacing.Some? then patch.studSpacing.value else w.studSpacing)
    ensures v.topPlate == (if patch.topPlate.Some? then patch.topPlate.value else w.topPlate)
    ensures v.bottomPlate == (if patch.bottomPlate.Some? then patch.bottomPlate.value else w.bottomPlate)
    ensures v.loadBearing == (if patch.loadBearing.Some? then patch.loadBearing.value else w.loadBearing)
    ensures v.bottomPlateTreatment ==
      (if patch.bottomPlateTreatment.Some? then patch.bottomPlateTreatment.value else w.bottomPlateTreatment)
    ensures v.leftCorner == (if patch.leftCorner.Some? then patch.leftCorner.value else w.leftCorner)
    ensures v.rightCorner == (if patch.rightCorner.Some? then patch.rightCorner.value else w.rightCorner)
    ensures v.floorGap == (if patch.floorGap.Some? then patch.floorGap.value else w.floorGap)
  {
    Wall(w.id, w.projectId,
         patch.name.GetOr(w.name), patch.length.GetOr(w.length), patch.height.GetOr(w.height),
         patch.studSpacing.GetOr(w.studSpacing), patch.topPlate.GetOr(w.topPlate),
         patch.bottomPlate.GetOr(w.bottomPlate), patch.loadBearing.GetOr(w.loadBearing),
         patch.bottomPlateTreatment.GetOr(w.bottomPlateTreatment),
         patch.leftCorner.GetOr(w.leftCorner), patch.rightCorner.GetOr(w.rightCorner),
         patch.floorGap.GetOr(w.floorGap))
  }

  /** An update without keys leaves the wall as it was, and an update that
      carries every key of a create request turns the wall into the wall that
      request describes, under the same ids; patching twice with the same
      update is patching once. */
  lemma PatchWallLaws(w: Wall, patch: WallPatch, r: WallRequest)
    ensures PatchWall(w, EmptyWallPatch) == w
    ensures PatchWall(w, AsPatch(r)) == WallFrom(w.id, w.projectId, r)
    ensures PatchWall(PatchWall(w, patch), patch) == PatchWall(w, patch)
  {
  }

  /** `{ ...pricingConfig, ...config }`. */
  function MergePricing(c: PricingConfig, patch: PricingPatch): (m: PricingConfig)
    ensures m.studUnitCost == (if patch.studUnitCost.Some? then patch.studUnitCost.value else c.studUnitCost)
    ensures m.plateUnitCost == (if patch.plateUnitCost.Some? then patch.plateUnitCost.value else c.plateUnitCost)
    ensures m.pressureTreatedPlateCost ==
      (if patch.pressureTreatedPlateCost.Some? then patch.pressureTreatedPlateCost.value else c.pressureTreatedPlateCost)
  {
    PricingConfig(patch.studUnitCost.GetOr(c.studUnitCost), patch.plateUnitCost.GetOr(c.plateUnitCost),
                  patch.pressureTreatedPlateCost.GetOr(c.pressureTreatedPlateCost))
  }

  /** The walls of a duplicate AS WRITTEN: each wall in order, with a fresh
      wall id and a further fresh id as its project id, and every other field
      of the original wall. */
  function CopiedWallsAsWritten(ws: seq<Wall>, wallId: nat -> string, wallProjectId: nat -> string): (r: seq<Wall>)
    ensures |r| == |ws|
    ensures forall k :: 0 <= k < |r| ==> r[k].id == wallId(k) && r[k].projectId == wallProjectId(k)
    ensures forall k :: 0 <= k < |r| ==> r[k].(id := ws[k].id, projectId := ws[k].projectId) == ws[k]
  {
    seq(|ws|, k requires 0 <= k < |ws| => ws[k].(id := wallId(k), projectId := wallProjectId(k)))
  }

  /** `duplicateProject`'s copy as written. */
  function DuplicatedAsWritten(original: Project, newId: string, now: string,
                               wallId: nat -> string, wallProjectId: nat -> string): Project
  {
    Project(newId, original.name + " (Copy)", now, Some(now), Some(false),
            CopiedWallsAsWritten(original.walls, wallId, wallProjectId))
  }

  /** The walls of a duplicate as intended: each wall in order, with a fresh
      wall id, owned by the copy, and every other field of the original wall. */
  function CopiedWalls(ws: seq<Wall>, newProjectId: string, wallId: nat -> string): (r: seq<Wall>)
    ensures |r| == |ws|
    ensures forall k :: 0 <= k < |r| ==> r[k].id == wallId(k) && r[k].projectId == newProjectId
    ensures forall k :: 0 <= k < |r| ==> r[k].(id := ws[k].id, projectId := ws[k].projectId) == ws[k]
  {
    seq(|ws|, k requires 0 <= k < |ws| => ws[k].(id := wallId(k), projectId := newProjectId))
  }

  /** The copy `duplicateProject` should append: the original's fields and
      walls, a fresh id, the name suffixed " (Copy)", not archived, and every
      copied wall owned by the copy. */
  function Duplicated(original: Project, newId: string, now: string, wallId: nat -> string): Project
  {
    Project(newId, original.name + " (Copy)", now, Some(now), Some(false),
            CopiedWalls(original.walls, newId, wallId))
  }

  // ---- Operations on the table ----

  function GetProjectOp(ps: seq<Project>, id: string): Result<Project> {
    match ProjectIndex(ps, id)
    case None => Failure(ProjectNotFound)
    case Some(i) => Success(ps[i])
  }

  function UpdateProjectOp(ps: seq<Project>, id: string, patch: ProjectPatch, now: string): Outcome<Project> {
    match ProjectIndex(ps, id)
    case None => Outcome(ps, Failure(ProjectNotFound))
    case Some(i) =>
      var p := PatchProject(ps[i], patch, now);
      Outcome(ps[i := p], Success(p))
  }

  function DeleteProjectOp(ps: seq<Project>, id: string): Outcome<()> {
    match ProjectIndex(ps, id)
    case None => Outcome(ps, Failure(ProjectNotFound))
    case Some(i) => Outcome(RemoveAt(ps, i), Success(()))
  }

  /** `duplicateProject` as written: the copy's walls take the drawn
      `wallProjectId` ids. */
  function DuplicateProjectOp(ps: seq<Project>, id: string, newId: string, now: string,
                              wallId: nat -> string, wallProjectId: nat -> string): Outcome<Project> {
    match ProjectIndex(ps, id)
    case None => Outcome(ps, Failure(ProjectNotFound))
    case Some(i) =>
      var d := DuplicatedAsWritten(ps[i], newId, now, wallId, wallProjectId);
      Outcome(ps + [d], Success(d))
  }

  /** `duplicateProject` as intended: the copy's walls are owned by the copy. */
  function DuplicateProjectIntendedOp(ps: seq<Project>, id: string, newId: string, now: string,
                                      wallId: nat -> string): Outcome<Project> {
    match ProjectIndex(ps, id)
    case None => Outcome(ps, Failure(ProjectNotFound))
    case Some(i) =>
      var d := Duplicated(ps[i], newId, now, wallId);
      Outcome(ps + [d], Success(d))
  }

  function GetWallsOp(ps: seq<Project>, projectId: string): Result<seq<Wall>> {
    match ProjectIndex(ps, projectId)
    case None => Failure(ProjectNotFound)
    case Some(i) => Success(ps[i].walls)
  }

  function GetWallOp(ps: seq<Project>, projectId: string, wallId: string): Result<Wall> {
    match ProjectIndex(ps, projectId)
    case None => Failure(ProjectNotFound)
    case Some(i) =>
      match WallIndex(ps[i].walls, wallId)
      case None => Failure(WallNotFound)
      case Some(j) => Success(ps[i].walls[j])
  }

  function CreateWallOp(ps: seq<Project>, projectId: string, request: WallRequest,
                        id: string, now: string): Outcome<Wall> {
    match ProjectIndex(ps, projectId)
    case None => Outcome(ps, Failure(ProjectNotFound))
    case Some(i) =>
      var w := WallFrom(id, projectId, request);
      Outcome(ps[i := ps[i].(walls := ps[i].walls + [w], updatedAt := Some(now))], Success(w))
  }

  function UpdateWallOp(ps: seq<Project>, projectId: string, wallId: string, patch: WallPatch,
                        now: string): Outcome<Wall> {
    match ProjectIndex(ps, projectId)
    case None => Outcome(ps, Failure(ProjectNotFound))
    case Some(i) =>
      match WallIndex(ps[i].walls, wallId)
      case None => Outcome(ps, Failure(WallNotFound))
      case Some(j) =>
        var w := PatchWall(ps[i].walls[j], patch);
        Outcome(ps[i := ps[i].(walls := ps[i].walls[j := w], updatedAt := Some(now))], Success(w))
  }

  function DeleteWallOp(ps: seq<Project>, projectId: string, wallId: string, now: string): Outcome<()> {
    match ProjectIndex(ps, projectId)
    case None => Outcome(ps, Failure(ProjectNotFound))
    case Some(i) =>
      match WallIndex(ps[i].walls, wallId)
      case None => Outcome(ps, Failure(WallNotFound))
      case Some(j) =>
        Outcome(ps[i := ps[i].(walls := RemoveAt(ps[i].walls, j), updatedAt := Some(now))], Success(()))
  }

  // ---- Properties of the operations ----

  /** An unknown project id answers "Project not found" from every operation
      and leaves the table as it was. */
  lemma UnknownProjectChangesNothing(ps: seq<Project>, id: string, patch: ProjectPatch, now: string,
                                     newId: string, wallIdOf: nat -> string, wallProjectId: nat -> string,
                                     wallId: string, request: WallRequest, wallPatch: WallPatch)
    requires forall j :: 0 <= j < |ps| ==> ps[j].id != id
    ensures GetProjectOp(ps, id) == Failure(ProjectNotFound)
    ensures UpdateProjectOp(ps, id, patch, now) == Outcome(ps, Failure(ProjectNotFound))
    ensures DeleteProjectOp(ps, id) == Outcome(ps, Failure(ProjectNotFound))
    ensures DuplicateProjectOp(ps, id, newId, now, wallIdOf, wallProjectId) == Outcome(ps, Failure(ProjectNotFound))
    ensures DuplicateProjectIntendedOp(ps, id, newId, now, wallIdOf) == Outcome(ps, Failure(ProjectNotFound))
    ensures GetWallsOp(ps, id) == Failure(ProjectNotFound)
    ensures GetWallOp(ps, id, wallId) == Failure(ProjectNotFound)
    ensures CreateWallOp(ps, id, request, newId, now) == Outcome(ps, Failure(ProjectNotFound))
    ensures UpdateWallOp(ps, id, wallId, wallPatch, now) == Outcome(ps, Failure(ProjectNotFound))
    ensures DeleteWallOp(ps, id, wallId, now) == Outcome(ps, Failure(ProjectNotFound))
  {
  }

  /** An unknown wall id in a known project answers "Wall not found" and leaves
      the table as it was. */
  lemma UnknownWallChangesNothing(ps: seq<Project>, projectId: string, wallId: string,
                                  patch: WallPatch, now: string)
    requires ProjectIndex(ps, projectId).Some?
    requires forall k :: 0 <= k < |ps[ProjectIndex(ps, projectId).value].walls| ==>
               ps[ProjectIndex(ps, projectId).value].walls[k].id != wallId
    ensures GetWallOp(ps, projectId, wallId) == Failure(WallNotFound)
    ensures UpdateWallOp(ps, projectId, wallId, patch, now) == Outcome(ps, Failure(WallNotFound))
    ensures DeleteWallOp(ps, projectId, wallId, now) == Outcome(ps, Failure(WallNotFound))
  {
  }

  /** A found project is updated in place: its id, creation time and walls
      stay, the present keys of the patch are taken, and every other project
      is unchanged. */
  lemma UpdateProjectTouchesOnlyTarget(ps: seq<Project>, id: string, patch: ProjectPatch, now: string)
    requires ProjectIndex(ps, id).Some?
    ensures var i := ProjectIndex(ps, id).value;
            var o := UpdateProjectOp(ps, id, patch, now);
            && |o.projects| == |ps|
            && (forall j :: 0 <= j < |ps| && j != i ==> o.projects[j] == ps[j])
            && o.response == Success(o.projects[i])
            && o.projects[i].id == id && o.projects[i].walls == ps[i].walls
            && o.projects[i].createdAt == ps[i].createdAt
            && o.projects[i].name == patch.name.GetOr(ps[i].name)
  {
  }

  /** Deleting removes exactly the first project with that id and keeps the
      others in their order. */
  lemma DeleteProjectRemovesFirstMatch(ps: seq<Project>, id: string)
    requires ProjectIndex(ps, id).Some?
    ensures var i := ProjectIndex(ps, id).value;
            DeleteProjectOp(ps, id) == Outcome(ps[..i] + ps[i + 1..], Success(()))
    ensures multiset(DeleteProjectOp(ps, id).projects) + multiset{ps[ProjectIndex(ps, id).value]} == multiset(ps)
  {
    var i := ProjectIndex(ps, id).value;
    assert ps == ps[..i] + [ps[i]] + ps[i + 1..];
  }

  /** Duplicating, as written, appends one copy and leaves the stored
      projects, the original among them, untouched; the copy has a fresh id,
      the suffixed name, fresh timestamps, is not archived, and holds as many
      walls as the original, each the original wall under a fresh id and with
      the freshly drawn project id of its position. */
  lemma DuplicateAppendsCopy(ps: seq<Project>, id: string, newId: string, now: string,
                             wallId: nat -> string, wallProjectId: nat -> string)
    requires ProjectIndex(ps, id).Some?
    ensures var i := ProjectIndex(ps, id).value;
            var o := DuplicateProjectOp(ps, id, newId, now, wallId, wallProjectId);
            && |o.projects| == |ps| + 1 && o.projects[..|ps|] == ps
            && o.response == Success(o.projects[|ps|])
            && var d := o.projects[|ps|];
               && d.id == newId && d.name == ps[i].name + " (Copy)" && d.archived == Some(false)
               && d.createdAt == now && d.updatedAt == Some(now)
               && |d.walls| == |ps[i].walls|
               && forall k :: 0 <= k < |d.walls| ==>
                    d.walls[k].projectId == wallProjectId(k) && d.walls[k].id == wallId(k)
                    && d.walls[k].(id := ps[i].walls[k].id, projectId := ps[i].walls[k].projectId) == ps[i].walls[k]
  {
    var i := ProjectIndex(ps, id).value;
    var o := DuplicateProjectOp(ps, id, newId, now, wallId, wallProjectId);
    assert o.projects[..|ps|] == ps;
  }

  /** The intended duplicate appends the same copy, except that each copied
      wall is owned by the copy: it is the as-written duplicate whose drawn
      wall project ids all equal the copy's id. */
  lemma DuplicateIntendedAppendsOwnedCopy(ps: seq<Project>, id: string, newId: string, now: string,
                                          wallId: nat -> string)
    requires ProjectIndex(ps, id).Some?
    ensures DuplicateProjectIntendedOp(ps, id, newId, now, wallId)
            == DuplicateProjectOp(ps, id, newId, now, wallId, k => newId)
    ensures var o := DuplicateProjectIntendedOp(ps, id, newId, now, wallId);
            && |o.projects| == |ps| + 1 && o.projects[..|ps|] == ps
            && forall k :: 0 <= k < |o.projects[|ps|].walls| ==> o.projects[|ps|].walls[k].projectId == newId
  {
    var i := ProjectIndex(ps, id).value;
    var written := CopiedWallsAsWritten(ps[i].walls, wallId, k => newId);
    var intended := CopiedWalls(ps[i].walls, newId, wallId);
    assert |written| == |intended|;
    forall k | 0 <= k < |written|
      ensures written[k] == intended[k]
    {
      assert written[k] == ps[i].walls[k].(id := wallId(k), projectId := newId);
    }
    assert written == intended;
    DuplicateAppendsCopy(ps, id, newId, now, wallId, k => newId);
  }

  /** A new wall is appended to its project's walls, the project's update
      time is set, and every other project is unchanged. */
  lemma CreateWallAppends(ps: seq<Project>, projectId: string, request: WallRequest, id: string, now: string)
    requires ProjectIndex(ps, projectId).Some?
    ensures var i := ProjectIndex(ps, projectId).value;
            var o := CreateWallOp(ps, projectId, request, id, now);
            && |o.projects| == |ps|
            && (forall j :: 0 <= j < |ps| && j != i ==> o.projects[j] == ps[j])
            && o.projects[i].walls == ps[i].walls + [WallFrom(id, projectId, request)]
            && o.projects[i].updatedAt == Some(now)
            && o.response == Success(WallFrom(id, projectId, request))
  {
  }

  /** Updating a wall changes only the matched wall of the matched project;
      the wall keeps its id and owner and takes the present keys of the patch. */
  lemma UpdateWallTouchesOnlyTarget(ps: seq<Project>, projectId: string, wallId: string,
                                    patch: WallPatch, now: string)
    requires ProjectIndex(ps, projectId).Some?
    requires WallIndex(ps[ProjectIndex(ps, projectId).value].walls, wallId).Some?
    ensures var i := ProjectIndex(ps, projectId).value;
            var j := WallIndex(ps[i].walls, wallId).value;
            var o := UpdateWallOp(ps, projectId, wallId, patch, now);
            && |o.projects| == |ps|
            && (forall q :: 0 <= q < |ps| && q != i ==> o.projects[q] == ps[q])
            && |o.projects[i].walls| == |ps[i].walls|
            && (forall k :: 0 <= k < |ps[i].walls| && k != j ==> o.projects[i].walls[k] == ps[i].walls[k])
            && o.projects[i].walls[j] == PatchWall(ps[i].walls[j], patch)
            && o.projects[i].walls[j].id == wallId
            && o.projects[i].walls[j].projectId == ps[i].walls[j].projectId
            && o.projects[i].updatedAt == Some(now)
            && o.projects[i].(walls := ps[i].walls, updatedAt := ps[i].updatedAt) == ps[i]
            && o.response == Success(o.projects[i].walls[j])
  {
  }

  /** Deleting a wall removes exactly that wall from its project. */
  lemma DeleteWallRemovesFirstMatch(ps: seq<Project>, projectId: string, wallId: string, now: string)
    requires ProjectIndex(ps, projectId).Some?
    requires WallIndex(ps[ProjectIndex(ps, projectId).value].walls, wallId).Some?
    ensures var i := ProjectIndex(ps, projectId).value;
            var j := WallIndex(ps[i].walls, wallId).value;
            var o := DeleteWallOp(ps, projectId, wallId, now);
            && |o.projects| == |ps|
            && (forall q :: 0 <= q < |ps| && q != i ==> o.projects[q] == ps[q])
            && o.projects[i].walls == ps[i].walls[..j] + ps[i].walls[j + 1..]
            && o.response == Success(())
  {
  }

  /** Updating a project keeps every wall owned by the project that holds it. */
  lemma UpdateProjectKeepsWallsOwned(ps: seq<Project>, id: string, patch: ProjectPatch, now: string)
    ensures WallsBelong(ps) ==> WallsBelong(UpdateProjectOp(ps, id, patch, now).projects)
  {
  }

  /** Deleting a project keeps every wall owned by the project that holds it. */
  lemma DeleteProjectKeepsWallsOwned(ps: seq<Project>, id: string)
    ensures WallsBelong(ps) ==> WallsBelong(DeleteProjectOp(ps, id).projects)
  {
    if ProjectIndex(ps, id).Some? {
      var i := ProjectIndex(ps, id).value;
      var del := DeleteProjectOp(ps, id).projects;
      assert forall q :: 0 <= q < |del| ==> del[q] == ps[if q < i then q else q + 1];
    }
  }

  /** A created wall is owned by the project it is appended to. */
  lemma CreateWallKeepsWallsOwned(ps: seq<Project>, projectId: string, request: WallRequest, id: string, now: string)
    ensures WallsBelong(ps) ==> WallsBelong(CreateWallOp(ps, projectId, request, id, now).projects)
  {
  }

  /** Patching a wall never changes its owner. */
  lemma UpdateWallKeepsWallsOwned(ps: seq<Project>, projectId: string, wallId: string, patch: WallPatch, now: string)
    ensures WallsBelong(ps) ==> WallsBelong(UpdateWallOp(ps, projectId, wallId, patch, now).projects)
  {
  }

  /** Deleting a wall keeps the remaining walls with their projects. */
  lemma DeleteWallKeepsWallsOwned(ps: seq<Project>, projectId: string, wallId: string, now: string)
    ensures WallsBelong(ps) ==> WallsBelong(DeleteWallOp(ps, projectId, wallId, now).projects)
  {
    if ProjectIndex(ps, projectId).Some? {
      var i := ProjectIndex(ps, projectId).value;
      if WallIndex(ps[i].walls, wallId).Some? {
        var j := WallIndex(ps[i].walls, wallId).value;
        var ws := DeleteWallOp(ps, projectId, wallId, now).projects[i].walls;
        assert forall k :: 0 <= k < |ws| ==> ws[k] == ps[i].walls[if k < j then k else k + 1];
      }
    }
  }

  /** The seeded table keeps every wall with its project. */
  lemma SeedWallsBelong(now: string, dayBefore: string)
    ensures WallsBelong(SeedProjects(now, dayBefore))
  {
  }

  /** Merging an empty partial configuration changes nothing, and merging the
      same partial twice is merging it once. */
  lemma MergePricingLaws(c: PricingConfig, patch: PricingPatch)
    ensures MergePricing(c, PricingPatch(None, None, None)) == c
    ensures MergePricing(MergePricing(c, patch), patch) == MergePricing(c, patch)
    ensures patch.studUnitCost.Some? && patch.plateUnitCost.Some? && patch.pressureTreatedPlateCost.Some? ==>
      MergePricing(c, patch) == PricingConfig(patch.studUnitCost.value, patch.plateUnitCost.value,
                                              patch.pressureTreatedPlateCost.value)
  {
  }

  /** The duplicate as written loses ownership: as soon as the original has a
      wall and the freshly drawn project id of that wall differs from the
      copy's id (as two random UUIDs do), the table no longer keeps every wall
      with its project. */
  lemma DuplicateAsWrittenOrphansWalls(ps: seq<Project>, i: nat, newId: string, now: string,
                                       wallId: nat -> string, wallProjectId: nat -> string)
    requires i < |ps| && |ps[i].walls| > 0
    requires wallProjectId(0) != newId
    ensures !WallsBelong(ps + [DuplicatedAsWritten(ps[i], newId, now, wallId, wallProjectId)])
  {
    var t := ps + [DuplicatedAsWritten(ps[i], newId, now, wallId, wallProjectId)];
    assert t[|ps|].walls[0].projectId == wallProjectId(0);
  }

  /** The intended duplicate appended to a table that keeps walls with their
      projects still does. */
  lemma DuplicatedKeepsWallsOwned(ps: seq<Project>, i: nat, newId: string, now: string, wallId: nat -> string)
    requires i < |ps| && WallsBelong(ps)
    ensures WallsBelong(ps + [Duplicated(ps[i], newId, now, wallId)])
  {
  }

  /** The in-memory client: the project table and the pricing configuration.
      Every operation but `DuplicateProject` keeps `WallsBelong`; the
      duplicate, as written, breaks it as soon as the original has a wall. */
  class MockApiClient {
    var projects: seq<Project>
    var pricingConfig: PricingConfig

    /** The client starts from the seeded projects and prices. */
    constructor(now: string, dayBefore: string)
      ensures projects == SeedProjects(now, dayBefore) && pricingConfig == SeedPricing
      ensures WallsBelong(projects)
    {
      SeedWallsBelong(now, dayBefore);
      projects := SeedProjects(now, dayBefore);
      pricingConfig := SeedPricing;
    }

    /** `getProjects`: the projects not archived, and `total` counting every
        stored project, archived ones included. */
    method GetProjects() returns (data: seq<Project>, total: int)
      ensures data == Filter(projects, IsActive)
      ensures total == |projects| && |data| <= total
      ensures forall k :: 0 <= k < |data| ==> IsActive(data[k])
    {
      data := Filter(projects, IsActive);
      total := |projects|;
    }

    /** `getProject`: the first project with that id, or "Project not found". */
    method GetProject(id: string) returns (r: Result<Project>)
      ensures r == GetProjectOp(projects, id)
      ensures r.Failure? <==> forall j :: 0 <= j < |projects| ==> projects[j].id != id
      ensures r.Success? ==> r.value.id == id && r.value in projects
    {
      var index := ProjectIndex(projects, id);
      if index.None? {
        return Failure(ProjectNotFound);
      }
      r := Success(projects[index.value]);
    }

    /** `createProject`: appends a fresh, unarchived project without walls. */
    method CreateProject(name: string, id: string, now: string) returns (r: Result<Project>)
      modifies this
      ensures WallsBelong(old(projects)) ==> WallsBelong(projects)
      ensures projects == old(projects) + [NewProject(id, name, now)]
      ensures r == Success(NewProject(id, name, now))
      ensures pricingConfig == old(pricingConfig)
    {
      var project := NewProject(id, name, now);
      projects := projects + [project];
      r := Success(project);
    }

    method UpdateProject(id: string, request: ProjectPatch, now: string) returns (r: Result<Project>)
      modifies this
      ensures WallsBelong(old(projects)) ==> WallsBelong(projects)
      ensures Outcome(projects, r) == UpdateProjectOp(old(projects), id, request, now)
      ensures pricingConfig == old(pricingConfig)
    {
      UpdateProjectKeepsWallsOwned(projects, id, request, now);
      var index := ProjectIndex(projects, id);
      if index.None? {
        return Failure(ProjectNotFound);
      }
      var i := index.value;
      projects := projects[i := PatchProject(projects[i], request, now)];
      r := Success(projects[i]);
    }

    method DeleteProject(id: string) returns (r: Result<()>)
      modifies this
      ensures WallsBelong(old(projects)) ==> WallsBelong(projects)
      ensures Outcome(projects, r) == DeleteProjectOp(old(projects), id)
      ensures pricingConfig == old(pricingConfig)
    {
      DeleteProjectKeepsWallsOwned(projects, id);
      var index := ProjectIndex(projects, id);
      if index.None? {
        return Failure(ProjectNotFound);
      }
      projects := RemoveAt(projects, index.value);
      r := Success(());
    }

    /** `duplicateProject` as written: each copied wall gets the drawn
        `wallProjectId` of its position as its project id, so the copy's walls
        name a project other than the copy whenever that id differs from
        `newId`. */
    method DuplicateProject(id: string, newId: string, now: string, wallId: nat -> string,
                            wallProjectId: nat -> string)
      returns (r: Result<Project>)
      modifies this
      ensures Outcome(projects, r) == DuplicateProjectOp(old(projects), id, newId, now, wallId, wallProjectId)
      ensures r.Success? && |r.value.walls| > 0 && wallProjectId(0) != newId ==> !WallsBelong(projects)
      ensures pricingConfig == old(pricingConfig)
    {
      var index := ProjectIndex(projects, id);
      if index.None? {
        return Failure(ProjectNotFound);
      }
      var duplicated := DuplicatedAsWritten(projects[index.value], newId, now, wallId, wallProjectId);
      if |projects[index.value].walls| > 0 && wallProjectId(0) != newId {
        DuplicateAsWrittenOrphansWalls(projects, index.value, newId, now, wallId, wallProjectId);
      }
      projects := projects + [duplicated];
      r := Success(duplicated);
    }

    /** `getWalls`: the walls of the first project with that id; when the
        table keeps walls with their projects, each of them names that
        project. */
    method GetWalls(projectId: string) returns (r: Result<seq<Wall>>)
      ensures r == GetWallsOp(projects, projectId)
      ensures r.Success? && WallsBelong(projects) ==>
        forall k :: 0 <= k < |r.value| ==> r.value[k].projectId == projectId
    {
      var index := ProjectIndex(projects, projectId);
      if index.None? {
        return Failure(ProjectNotFound);
      }
      r := Success(projects[index.value].walls);
    }

    /** `getWall`: the first wall with that id in the first project with that
        id; it names that project when the table keeps walls with their
        projects. */
    method GetWall(projectId: string, wallId: string) returns (r: Result<Wall>)
      ensures r == GetWallOp(projects, projectId, wallId)
      ensures r.Success? ==> r.value.id == wallId
      ensures r.Success? && WallsBelong(projects) ==> r.value.projectId == projectId
    {
      var index := ProjectIndex(projects, projectId);
      if index.None? {
        return Failure(ProjectNotFound);
      }
      var project := projects[index.value];
      var wallIndex := WallIndex(project.walls, wallId);
      if wallIndex.None? {
        return Failure(WallNotFound);
      }
      r := Success(project.walls[wallIndex.value]);
    }

    method CreateWall(projectId: string, request: WallRequest, id: string, now: string) returns (r: Result<Wall>)
      modifies this
      ensures WallsBelong(old(projects)) ==> WallsBelong(projects)
      ensures Outcome(projects, r) == CreateWallOp(old(projects), projectId, request, id, now)
      ensures pricingConfig == old(pricingConfig)
    {
      CreateWallKeepsWallsOwned(projects, projectId, request, id, now);
      var index := ProjectIndex(projects, projectId);
      if index.None? {
        return Failure(ProjectNotFound);
      }
      var i := index.value;
      var wall := WallFrom(id, projectId, request);
      projects := projects[i := projects[i].(walls := projects[i].walls + [wall], updatedAt := Some(now))];
      r := Success(wall);
    }

    method UpdateWall(projectId: string, wallId: string, request: WallPatch, now: string) returns (r: Result<Wall>)
      modifies this
      ensures WallsBelong(old(projects)) ==> WallsBelong(projects)
      ensures Outcome(projects, r) == UpdateWallOp(old(projects), projectId, wallId, request, now)
      ensures pricingConfig == old(pricingConfig)
    {
      UpdateWallKeepsWallsOwned(projects, projectId, wallId, request, now);
      var index := ProjectIndex(projects, projectId);
      if index.None? {
        return Failure(ProjectNotFound);
      }
      var i := index.value;
      var wallIndex := WallIndex(projects[i].walls, wallId);
      if wallIndex.None? {
        return Failure(WallNotFound);
      }
      var j := wallIndex.value;
      var wall := PatchWall(projects[i].walls[j], request);
      projects := projects[i := projects[i].(walls := projects[i].walls[j := wall], updatedAt := Some(now))];
      r := Success(wall);
    }

    method DeleteWall(projectId: string, wallId: string, now: string) returns (r: Result<()>)
      modifies this
      ensures WallsBelong(old(projects)) ==> WallsBelong(projects)
      ensures Outcome(projects, r) == DeleteWallOp(old(projects), projectId, wallId, now)
      ensures pricingConfig == old(pricingConfig)
    {
      DeleteWallKeepsWallsOwned(projects, projectId, wallId, now);
      var index := ProjectIndex(projects, projectId);
      if index.None? {
        return Failure(ProjectNotFound);
      }
      var i := index.value;
      var wallIndex := WallIndex(projects[i].walls, wallId);
      if wallIndex.None? {
        return Failure(WallNotFound);
      }
      projects := projects[i := projects[i].(walls := RemoveAt(projects[i].walls, wallIndex.value),
                                             updatedAt := Some(now))];
      r := Success(());
    }

    method GetPricingConfig() returns (r: Result<PricingConfig>)
      ensures r == Success(pricingConfig)
    {
      r := Success(pricingConfig);
    }

    /** `updatePricingConfig`: merges the partial configuration over the current one. */
    method UpdatePricingConfig(config: PricingPatch) returns (r: Result<PricingConfig>)
      modifies this
      ensures pricingConfig == MergePricing(old(pricingConfig), config)
      ensures projects == old(projects)
      ensures r == Success(pricingConfig)
    {
      pricingConfig := MergePricing(pricingConfig, config);
      r := Success(pricingConfig);
    }
  }
}
