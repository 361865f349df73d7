/**
 * The project service: the name rule in front of project creation and
 * renaming, archiving as an update of the archived flag, the wall statistics
 * of a project, and the whole-project validation that walks its walls.
 */
module ProjectService {
  import opened ApiTypes
  import opened Text
  import opened Seqs
  import opened Validation
  import opened MockAdapter
  import WallService

  // ---- The project name rule ----

  const ProjectNameRequired := "Project name is required"
  const ProjectNameTooLong := "Project name must be less than 100 characters"

  /** The error `createProject` and `updateProject` throw for a name: a blank
      name first, then one longer than 100 characters; none for a good name. */
  function NameRejection(name: string): (r: Option<string>)
    ensures r.None? <==> !IsBlank(name) && Utf16Length(name) <= 100
  {
    if IsBlank(name) then Some(ProjectNameRequired)
    else if Utf16Length(name) > 100 then Some(ProjectNameTooLong)
    else None
  }

  /** The name errors `validateProject` collects. */
  function ProjectNameErrors(name: string): seq<string> {
    Report(Check(IsBlank(name), ProjectNameRequired)) + Report(Check(Utf16Length(name) > 100, ProjectNameTooLong))
  }

  /** The guard of creation and the name part of `validateProject` agree: a
      name is refused exactly when it has errors, and the error thrown is the
      first one collected. */
  lemma NameRejectionIsFirstNameError(name: string)
    ensures NameRejection(name).None? <==> ProjectNameErrors(name) == []
    ensures NameRejection(name).Some? ==> ProjectNameErrors(name)[0] == NameRejection(name).value
  {
  }

  // ---- getProjectStats ----

  /** What `getProjectStats` reports. */
  datatype ProjectStats = ProjectStats(wallCount: nat, totalLinearFeet: real, averageWallHeight: real,
                                       loadBearingWalls: nat)

  function LengthOf(w: Wall): real { w.length }
  function HeightOf(w: Wall): real { w.height }
  predicate IsLoadBearing(w: Wall) { w.loadBearing }

  /** `walls.reduce((sum, wall) => sum + measure(wall), 0)`: the walls are
      added from the first to the last. */
  function Sum(ws: seq<Wall>, measure: Wall -> real): real {
    if ws == [] then 0.0 else Sum(ws[..|ws| - 1], measure) + measure(ws[|ws| - 1])
  }

  /** `getProjectStats`: the wall count, the total length, the mean height (0
      without walls) and the number of load-bearing walls. */
  function Stats(p: Project): (s: ProjectStats)
    ensures s.wallCount == |p.walls| && s.loadBearingWalls <= s.wallCount
    ensures s.wallCount == 0 ==> s.totalLinearFeet == 0.0 && s.averageWallHeight == 0.0
  {
    var n := |p.walls|;
    ProjectStats(n, Sum(p.walls, LengthOf),
                 if n > 0 then Sum(p.walls, HeightOf) / n as real else 0.0,
                 |Filter(p.walls, IsLoadBearing)|)
  }

  /** The sum over two lists of walls is the sum over each. */
  lemma {:induction false} SumAppend(a: seq<Wall>, b: seq<Wall>, measure: Wall -> real)
    ensures Sum(a + b, measure) == Sum(a, measure) + Sum(b, measure)
  {
    if b == [] {
      assert a + b == a;
    } else {
      assert (a + b)[..|a + b| - 1] == a + b[..|b| - 1];
      SumAppend(a, b[..|b| - 1], measure);
    }
  }

  /** Walls that measure the same one by one sum to the same. */
  lemma {:induction false} SumPointwise(a: seq<Wall>, b: seq<Wall>, measure: Wall -> real)
    requires |a| == |b| && forall k :: 0 <= k < |a| ==> measure(a[k]) == measure(b[k])
    ensures Sum(a, measure) == Sum(b, measure)
  {
    if a != [] {
      SumPointwise(a[..|a| - 1], b[..|b| - 1], measure);
    }
  }

  /** A sum of measures that all lie in [lo, hi] lies between n * lo and n * hi. */
  lemma {:induction false} SumBounds(ws: seq<Wall>, measure: Wall -> real, lo: real, hi: real)
    requires forall k :: 0 <= k < |ws| ==> lo <= measure(ws[k]) <= hi
    ensures |ws| as real * lo <= Sum(ws, measure) <= |ws| as real * hi
  {
    if ws != [] {
      var init := ws[..|ws| - 1];
      assert forall k :: 0 <= k < |init| ==> init[k] == ws[k];
      SumBounds(init, measure, lo, hi);
      assert |ws| as real * lo == |init| as real * lo + lo;
      assert |ws| as real * hi == |init| as real * hi + hi;
    }
  }

  /** The mean height lies between the lowest and the highest wall: if every
      wall's height is within [lo, hi], so is the average. */
  lemma StatsBounds(p: Project, lo: real, hi: real)
    requires |p.walls| > 0
    requires forall k :: 0 <= k < |p.walls| ==> lo <= p.walls[k].height <= hi
    ensures lo <= Stats(p).averageWallHeight <= hi
  {
    var n := |p.walls| as real;
    SumBounds(p.walls, HeightOf, lo, hi);
    var total := Sum(p.walls, HeightOf);
    assert n * lo <= total <= n * hi;
    assert total / n >= lo by {
      assert total / n * n == total;
    }
    assert total / n <= hi by {
      assert total / n * n == total;
    }
  }

  /** Positive measures sum to a positive total. */
  lemma {:induction false} SumPositive(ws: seq<Wall>, measure: Wall -> real)
    requires |ws| > 0 && forall k :: 0 <= k < |ws| ==> measure(ws[k]) > 0.0
    ensures Sum(ws, measure) > 0.0
  {
    var init := ws[..|ws| - 1];
    if init != [] {
      assert forall k :: 0 <= k < |init| ==> init[k] == ws[k];
      SumPositive(init, measure);
    }
  }

  /** Positive wall lengths give a positive total length. */
  lemma TotalLengthPositive(p: Project)
    requires |p.walls| > 0 && forall k :: 0 <= k < |p.walls| ==> p.walls[k].length > 0.0
    ensures Stats(p).totalLinearFeet > 0.0
  {
    SumPositive(p.walls, LengthOf);
  }

  /** Adding a wall through the client adds one to the wall count, its length
      to the total, and one to the load-bearing count when it bears load. */
  lemma StatsAfterCreateWall(ps: seq<Project>, projectId: string, request: WallRequest, id: string, now: string)
    requires ProjectIndex(ps, projectId).Some?
    ensures var i := ProjectIndex(ps, projectId).value;
            var before := Stats(ps[i]);
            var after := Stats(CreateWallOp(ps, projectId, request, id, now).projects[i]);
            && after.wallCount == before.wallCount + 1
            && after.totalLinearFeet == before.totalLinearFeet + request.length
            && after.loadBearingWalls == before.loadBearingWalls + (if request.loadBearing then 1 else 0)
  {
    var i := ProjectIndex(ps, projectId).value;
    var w := WallFrom(id, projectId, request);
    var ws := ps[i].walls + [w];
    assert CreateWallOp(ps, projectId, request, id, now).projects[i].walls == ws;
    assert ws[..|ws| - 1] == ps[i].walls;
    FilterAppend(ps[i].walls, [w], IsLoadBearing);
  }

  /** Removing a wall through the client takes it out of every statistic. */
  lemma StatsAfterDeleteWall(ps: seq<Project>, projectId: string, wallId: string, now: string)
    requires ProjectIndex(ps, projectId).Some?
    requires WallIndex(ps[ProjectIndex(ps, projectId).value].walls, wallId).Some?
    ensures var i := ProjectIndex(ps, projectId).value;
            var w := ps[i].walls[WallIndex(ps[i].walls, wallId).value];
            var before := Stats(ps[i]);
            var after := Stats(DeleteWallOp(ps, projectId, wallId, now).projects[i]);
            && after.wallCount == before.wallCount - 1
            && after.totalLinearFeet == before.totalLinearFeet - w.length
            && after.loadBearingWalls == before.loadBearingWalls - (if w.loadBearing then 1 else 0)
  {
    var i := ProjectIndex(ps, projectId).value;
    var ws := ps[i].walls;
    var j := WallIndex(ws, wallId).value;
    assert DeleteWallOp(ps, projectId, wallId, now).projects[i].walls == ws[..j] + ws[j + 1..];
    assert ws == ws[..j] + [ws[j]] + ws[j + 1..];
    SumAppend(ws[..j] + [ws[j]], ws[j + 1..], LengthOf);
    SumAppend(ws[..j], [ws[j]], LengthOf);
    SumAppend(ws[..j], ws[j + 1..], LengthOf);
    assert [ws[j]][..0] == [];
    FilterAppend(ws[..j] + [ws[j]], ws[j + 1..], IsLoadBearing);
    FilterAppend(ws[..j], [ws[j]], IsLoadBearing);
    FilterAppend(ws[..j], ws[j + 1..], IsLoadBearing);
  }

  /** A duplicate, as the mock client writes it or with its walls owned by
      the copy, reports the same statistics as its original. */
  lemma DuplicateHasSameStats(p: Project, newId: string, now: string, wallId: nat -> string,
                              wallProjectId: nat -> string)
    ensures Stats(DuplicatedAsWritten(p, newId, now, wallId, wallProjectId)) == Stats(p)
    ensures Stats(Duplicated(p, newId, now, wallId)) == Stats(p)
  {
    var copy := DuplicatedAsWritten(p, newId, now, wallId, wallProjectId).walls;
    SumPointwise(copy, p.walls, LengthOf);
    SumPointwise(copy, p.walls, HeightOf);
    LoadBearingCountPointwise(copy, p.walls);
    var owned := Duplicated(p, newId, now, wallId).walls;
    SumPointwise(owned, p.walls, LengthOf);
    SumPointwise(owned, p.walls, HeightOf);
    LoadBearingCountPointwise(owned, p.walls);
  }

  /** Walls that bear load one by one alike count alike. */
  lemma {:induction false} LoadBearingCountPointwise(a: seq<Wall>, b: seq<Wall>)
    requires |a| == |b| && forall k :: 0 <= k < |a| ==> a[k].loadBearing == b[k].loadBearing
    ensures |Filter(a, IsLoadBearing)| == |Filter(b, IsLoadBearing)|
  {
    if a != [] {
      assert forall k :: 0 <= k < |a| - 1 ==> a[1..][k] == a[k + 1] && b[1..][k] == b[k + 1];
      LoadBearingCountPointwise(a[1..], b[1..]);
      assert IsLoadBearing(a[0]) == IsLoadBearing(b[0]);
    }
  }

  // ---- validateProject ----

  /** The wall messages of `validateProject`: each names the wall, by id
      when its name is missing, by name otherwise. */
  function WallNameMissing(w: Wall): string { "Wall name is required for wall " + w.id }
  function WallLengthNotPositive(w: Wall): string { "Wall length must be positive for wall " + w.name }
  function WallHeightNotPositive(w: Wall): string { "Wall height must be positive for wall " + w.name }

  /** The errors `validateProject` collects for one wall. */
  function WallIssues(w: Wall): seq<string> {
    Report(Check(IsBlank(w.name), WallNameMissing(w)))
    + Report(Check(w.length <= 0.0, WallLengthNotPositive(w)))
    + Report(Check(w.height <= 0.0, WallHeightNotPositive(w)))
  }

  /** The wall errors of a list of walls, wall by wall in order. */
  function WallsIssues(ws: seq<Wall>): seq<string> {
    FlatMap(ws, WallIssues)
  }

  /** The errors `validateProject` reports. */
  function ProjectErrors(p: Project): seq<string> {
    ProjectNameErrors(p.name) + WallsIssues(p.walls)
  }

  /** What `validateProject` demands of a wall: a name and positive dimensions. */
  predicate WallSound(w: Wall) {
    !IsBlank(w.name) && w.length > 0.0 && w.height > 0.0
  }

  /** What `validateProject` demands of a project. */
  predicate ProjectAcceptable(p: Project) {
    !IsBlank(p.name) && Utf16Length(p.name) <= 100 && forall k :: 0 <= k < |p.walls| ==> WallSound(p.walls[k])
  }

  /** A wall reports nothing exactly when it is sound, and at most three
      errors. */
  lemma WallIssuesIff(w: Wall)
    ensures WallIssues(w) == [] <==> WallSound(w)
    ensures |WallIssues(w)| <= 3
  {
  }

  /** A list of walls reports nothing exactly when every wall is sound, and
      at most three errors per wall. */
  lemma WallsIssuesIff(ws: seq<Wall>)
    ensures WallsIssues(ws) == [] <==> forall k :: 0 <= k < |ws| ==> WallSound(ws[k])
    ensures |WallsIssues(ws)| <= 3 * |ws|
  {
    forall k | 0 <= k < |ws|
      ensures (WallIssues(ws[k]) == [] <==> WallSound(ws[k])) && |WallIssues(ws[k])| <= 3
    {
      WallIssuesIff(ws[k]);
    }
    FlatMapEmpty(ws, WallIssues);
    FlatMapBound(ws, WallIssues, 3);
  }

  /** A project reports no errors exactly when it is acceptable, and at most
      two name errors and three per wall. */
  lemma ProjectValidIff(p: Project)
    ensures ProjectErrors(p) == [] <==> ProjectAcceptable(p)
    ensures |ProjectErrors(p)| <= 2 + 3 * |p.walls|
  {
    WallsIssuesIff(p.walls);
  }

  /** A wall the wall service accepts passes the project's wall checks too;
      the converse fails, since the project does not check the floor gap or
      the spacing under load. */
  lemma AcceptedWallsAreSound(w: Wall)
    ensures WallService.WallAcceptable(w) ==> WallIssues(w) == []
  {
  }

  /** One block of `validateProject`'s loop: the three checks of one wall. */
  method PushWallIssues(errors: seq<string>, wall: Wall) returns (r: seq<string>)
    ensures r == errors + WallIssues(wall)
  {
    r := PushWhen(errors, IsBlank(wall.name), WallNameMissing(wall));
    r := PushWhen(r, wall.length <= 0.0, WallLengthNotPositive(wall));
    r := PushWhen(r, wall.height <= 0.0, WallHeightNotPositive(wall));
  }

  /** The loop of `validateProject`: the checks of every wall in order,
      pushed after the errors already collected. */
  method PushWallsIssues(errors: seq<string>, walls: seq<Wall>) returns (r: seq<string>)
    ensures r == errors + WallsIssues(walls)
  {
    r := errors;
    assert walls[..0] == [];
    for i := 0 to |walls|
      invariant r == errors + WallsIssues(walls[..i])
    {
      ghost var before := r;
      r := PushWallIssues(r, walls[i]);
      FlatMapStep(errors, walls, WallIssues, i, before, r);
    }
    assert walls[..|walls|] == walls;
  }

  /** `validateProject`: the name checks, then the checks of every wall in
      order. */
  method ValidateProject(project: Project) returns (result: ValidationResult)
    ensures result.errors == ProjectErrors(project)
    ensures result.isValid <==> ProjectAcceptable(project)
    ensures result.isValid <==> result.errors == []
  {
    var errors: seq<string> := [];
    errors := PushWhen(errors, IsBlank(project.name), ProjectNameRequired);
    errors := PushWhen(errors, project.name != [] && Utf16Length(project.name) > 100, ProjectNameTooLong);
    assert errors == ProjectNameErrors(project.name);
    errors := PushWallsIssues(errors, project.walls);
    ProjectValidIff(project);
    result := ValidationResult(|errors| == 0, errors);
  }

  // ---- Archiving ----

  /** Archiving a project hides it from the list: the active projects are one
      fewer when it was active, and the same otherwise; unarchiving shows it
      again. */
  lemma ArchiveTogglesListing(ps: seq<Project>, id: string, now: string)
    requires ProjectIndex(ps, id).Some?
    ensures var i := ProjectIndex(ps, id).value;
            var archived := UpdateProjectOp(ps, id, ProjectPatch(None, Some(true)), now);
            var restored := UpdateProjectOp(ps, id, ProjectPatch(None, Some(false)), now);
            && !IsActive(archived.projects[i]) && IsActive(restored.projects[i])
            && |Filter(archived.projects, IsActive)| == |Filter(ps, IsActive)| - (if IsActive(ps[i]) then 1 else 0)
            && |Filter(restored.projects, IsActive)| == |Filter(ps, IsActive)| + (if IsActive(ps[i]) then 0 else 1)
  {
    var i := ProjectIndex(ps, id).value;
    var archived := UpdateProjectOp(ps, id, ProjectPatch(None, Some(true)), now).projects;
    var restored := UpdateProjectOp(ps, id, ProjectPatch(None, Some(false)), now).projects;
    FilterAroundIndex(ps, i);
    FilterAroundIndex(archived, i);
    FilterAroundIndex(restored, i);
    assert archived[..i] == ps[..i] && archived[i + 1..] == ps[i + 1..];
    assert restored[..i] == ps[..i] && restored[i + 1..] == ps[i + 1..];
  }

  /** The active projects split around one index. */
  lemma FilterAroundIndex(ps: seq<Project>, i: nat)
    requires i < |ps|
    ensures |Filter(ps, IsActive)| ==
      |Filter(ps[..i], IsActive)| + (if IsActive(ps[i]) then 1 else 0) + |Filter(ps[i + 1..], IsActive)|
  {
    assert ps == ps[..i] + [ps[i]] + ps[i + 1..];
    FilterAppend(ps[..i] + [ps[i]], ps[i + 1..], IsActive);
    FilterAppend(ps[..i], [ps[i]], IsActive);
    assert [ps[i]][1..] == [];
  }

  // ---- The guarded API calls ----

  class ProjectService {
    const api: MockApiClient

    constructor(api: MockApiClient)
      ensures this.api == api
    {
      this.api := api;
    }

    /** `getProjects`: the projects that are not archived. */
    method GetProjects() returns (r: Result<seq<Project>>)
      ensures r.Success? && r.value == Filter(api.projects, IsActive)
      ensures forall k :: 0 <= k < |r.value| ==> r.value[k].archived != Some(true)
    {
      var data, total := api.GetProjects();
      r := OrFallback(Success(data), "Failed to fetch projects");
    }

    /** `getProject`: the first project with that id, or the client's error. */
    method GetProject(id: string) returns (r: Result<Project>)
      ensures r == OrFallback(GetProjectOp(api.projects, id), "Failed to fetch project")
      ensures r.Success? ==> r.value.id == id
    {
      var response := api.GetProject(id);
      r := OrFallback(response, "Failed to fetch project");
    }

    /** `createProject`: a blank or over-long name is refused and nothing is
        stored; a good name is stored as a fresh project at the end of the
        table. */
    method CreateProject(name: string, id: string, now: string) returns (r: Result<Project>)
      modifies api
      ensures WallsBelong(old(api.projects)) ==> WallsBelong(api.projects)
      ensures api.pricingConfig == old(api.pricingConfig)
      ensures NameRejection(name).Some? ==>
        r == Failure(NameRejection(name).value) && api.projects == old(api.projects)
      ensures NameRejection(name).None? ==>
        api.projects == old(api.projects) + [NewProject(id, name, now)] && r == Success(NewProject(id, name, now))
    {
      if IsBlank(name) {
        return Failure(ProjectNameRequired);
      }
      if Utf16Length(name) > 100 {
        return Failure(ProjectNameTooLong);
      }
      var response := api.CreateProject(name, id, now);
      r := OrFallback(response, "Failed to create project");
    }

    /** `updateProject`: a present name must pass the same rule; otherwise
        the client's update. */
    method UpdateProject(id: string, request: ProjectPatch, now: string) returns (r: Result<Project>)
      modifies api
      ensures WallsBelong(old(api.projects)) ==> WallsBelong(api.projects)
      ensures api.pricingConfig == old(api.pricingConfig)
      ensures request.name.Some? && NameRejection(request.name.value).Some? ==>
        r == Failure(NameRejection(request.name.value).value) && api.projects == old(api.projects)
      ensures request.name.None? || NameRejection(request.name.value).None? ==>
        var o := UpdateProjectOp(old(api.projects), id, request, now);
        api.projects == o.projects && r == OrFallback(o.response, "Failed to update project")
    {
      if request.name.Some? {
        if IsBlank(request.name.value) {
          return Failure(ProjectNameRequired);
        }
        if Utf16Length(request.name.value) > 100 {
          return Failure(ProjectNameTooLong);
        }
      }
      var response := api.UpdateProject(id, request, now);
      r := OrFallback(response, "Failed to update project");
    }

    /** `deleteProject`. */
    method DeleteProject(id: string) returns (r: Result<()>)
      modifies api
      ensures WallsBelong(old(api.projects)) ==> WallsBelong(api.projects)
      ensures api.pricingConfig == old(api.pricingConfig)
      ensures var o := DeleteProjectOp(old(api.projects), id);
              api.projects == o.projects && r == OrFallback(o.response, "Failed to delete project")
    {
      var response := api.DeleteProject(id);
      r := OrFallback(response, "Failed to delete project");
    }

    /** `duplicateProject`: the client's duplicate, whose copied walls, as the
        mock client writes them, carry the drawn `wallProjectId` ids. */
    method DuplicateProject(id: string, newId: string, now: string, wallId: nat -> string,
                            wallProjectId: nat -> string)
      returns (r: Result<Project>)
      modifies api
      ensures api.pricingConfig == old(api.pricingConfig)
      ensures var o := DuplicateProjectOp(old(api.projects), id, newId, now, wallId, wallProjectId);
              api.projects == o.projects && r == OrFallback(o.response, "Failed to duplicate project")
    {
      var response := api.DuplicateProject(id, newId, now, wallId, wallProjectId);
      r := OrFallback(response, "Failed to duplicate project");
    }

    /** `archiveProject`: an update that sets the archived flag. */
    method ArchiveProject(id: string, now: string) returns (r: Result<Project>)
      modifies api
      ensures WallsBelong(old(api.projects)) ==> WallsBelong(api.projects)
      ensures api.pricingConfig == old(api.pricingConfig)
      ensures var o := UpdateProjectOp(old(api.projects), id, ProjectPatch(None, Some(true)), now);
              api.projects == o.projects && r == OrFallback(o.response, "Failed to update project")
      ensures r.Success? ==> !IsActive(r.value)
    {
      r := UpdateProject(id, ProjectPatch(None, Some(true)), now);
    }

    /** `unarchiveProject`: an update that clears the archived flag. */
    method UnarchiveProject(id: string, now: string) returns (r: Result<Project>)
      modifies api
      ensures WallsBelong(old(api.projects)) ==> WallsBelong(api.projects)
      ensures api.pricingConfig == old(api.pricingConfig)
      ensures var o := UpdateProjectOp(old(api.projects), id, ProjectPatch(None, Some(false)), now);
              api.projects == o.projects && r == OrFallback(o.response, "Failed to update project")
      ensures r.Success? ==> IsActive(r.value)
    {
      r := UpdateProject(id, ProjectPatch(None, Some(false)), now);
    }
  }
}
