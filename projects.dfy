/** The projects container: a list of projects keyed by `id`, each active or
    inactive, with status counts and create / update / delete actions. Times
    are milliseconds since the epoch. */
module Projects {
  import opened Wrappers
  import opened Collections

  datatype ProjectStatus = Active | Inactive

  datatype Project = Project(
    id: string,
    name: string,
    description: string,
    status: ProjectStatus,
    createdAt: int,
    updatedAt: int)

  /** What a caller supplies to create a project: everything but the id and the times. */
  datatype ProjectDraft = ProjectDraft(name: string, description: string, status: ProjectStatus)

  /** A partial update: each present field overwrites the stored one. */
  datatype ProjectPatch = ProjectPatch(
    name: Option<string>,
    description: Option<string>,
    status: Option<ProjectStatus>)

  // ---------------------------------------------------------------------------
  // Getters

  /** The index of the first project with this id, or -1. */
  function IndexOfProject(ps: seq<Project>, id: string): (r: int)
    ensures -1 <= r < |ps|
    ensures r == -1 <==> forall i :: 0 <= i < |ps| ==> ps[i].id != id
    ensures 0 <= r ==> ps[r].id == id && forall i :: 0 <= i < r ==> ps[i].id != id
  {
    FindIndex(ps, (p: Project) => p.id == id)
  }

  /** `getProjectById`: the first project with this id, if any. */
  function ProjectById(ps: seq<Project>, id: string): (r: Option<Project>)
    ensures r.None? <==> forall i :: 0 <= i < |ps| ==> ps[i].id != id
    ensures r.Some? ==> r.value.id == id && r.value == ps[IndexOfProject(ps, id)]
  {
    var i := IndexOfProject(ps, id);
    if i == -1 then None else Some(ps[i])
  }

  /** How many projects have this status. */
  function CountWithStatus(ps: seq<Project>, status: ProjectStatus): (r: nat)
    ensures r <= |ps|
    ensures r == 0 <==> forall i :: 0 <= i < |ps| ==> ps[i].status != status
  {
    var f := (p: Project) => p.status == status;
    if forall i :: 0 <= i < |ps| ==> !f(ps[i]) then
      FilterNone(ps, f);
      |Filter(ps, f)|
    else
      var i :| 0 <= i < |ps| && f(ps[i]);
      assert ps[i] in Filter(ps, f);
      |Filter(ps, f)|
  }

  /** `getActiveProjectsCount`. */
  function ActiveProjectsCount(ps: seq<Project>): nat {
    CountWithStatus(ps, Active)
  }

  /** `getInactiveProjectsCount`. */
  function InactiveProjectsCount(ps: seq<Project>): nat {
    CountWithStatus(ps, Inactive)
  }

  datatype ProjectStats = ProjectStats(total: nat, active: nat, inactive: nat)

  /** `getAllProjectsStats`: the size of the list and the count per status. */
  function AllProjectsStats(ps: seq<Project>): (r: ProjectStats)
    ensures r.total == |ps|
    ensures r.active == ActiveProjectsCount(ps) && r.inactive == InactiveProjectsCount(ps)
  {
    ProjectStats(|ps|, ActiveProjectsCount(ps), InactiveProjectsCount(ps))
  }

  /** Every project is either active or inactive, so the two counts add up to the total. */
  lemma {:induction false} ProjectStatsAddUp(ps: seq<Project>)
    ensures var s := AllProjectsStats(ps); s.total == s.active + s.inactive
  {
    if ps != [] {
      ProjectStatsAddUp(ps[1..]);
    }
  }

  /** The count of a status over a concatenation is the sum of the counts. */
  lemma CountWithStatusAppend(a: seq<Project>, b: seq<Project>, status: ProjectStatus)
    ensures CountWithStatus(a + b, status) == CountWithStatus(a, status) + CountWithStatus(b, status)
  {
    FilterAppend(a, b, (p: Project) => p.status == status);
  }

  /** Creating a project adds one to the total and one to the count of its own status. */
  lemma StatsAfterCreate(ps: seq<Project>, p: Project)
    ensures var before := AllProjectsStats(ps); var after := AllProjectsStats(ps + [p]);
      after.total == before.total + 1
      && after.active == before.active + (if p.status == Active then 1 else 0)
      && after.inactive == before.inactive + (if p.status == Inactive then 1 else 0)
  {
    CountWithStatusAppend(ps, [p], Active);
    CountWithStatusAppend(ps, [p], Inactive);
  }

  /** Deleting the project at index `i` takes one from the total and one from the
      count of that project's status. */
  lemma StatsAfterRemove(ps: seq<Project>, i: nat)
    requires i < |ps|
    ensures var before := AllProjectsStats(ps); var after := AllProjectsStats(RemoveAt(ps, i));
      after.total == before.total - 1
      && after.active == before.active - (if ps[i].status == Active then 1 else 0)
      && after.inactive == before.inactive - (if ps[i].status == Inactive then 1 else 0)
  {
    assert ps == ps[..i] + [ps[i]] + ps[i + 1..];
    CountWithStatusAppend(ps[..i] + [ps[i]], ps[i + 1..], Active);
    CountWithStatusAppend(ps[..i] + [ps[i]], ps[i + 1..], Inactive);
    CountWithStatusAppend(ps[..i], [ps[i]], Active);
    CountWithStatusAppend(ps[..i], [ps[i]], Inactive);
    CountWithStatusAppend(ps[..i], ps[i + 1..], Active);
    CountWithStatusAppend(ps[..i], ps[i + 1..], Inactive);
  }

  // ---------------------------------------------------------------------------
  // The default seed

  /** 2024-01-15, 2024-02-10 and 2024-03-05 at midnight UTC, in milliseconds. */
  const January15: int := 1705276800000
  const February10: int := 1707523200000
  const March5: int := 1709596800000

  /** `loadDefaultProjects`: the three seed projects. */
  function DefaultProjects(): (r: seq<Project>)
    ensures |r| == 3
    ensures r[0].id == "1" && r[1].id == "2" && r[2].id == "3"
    ensures r[0].status == Active && r[1].status == Inactive && r[2].status == Active
  {
    [Project("1", "Web Application", "Una aplicación web moderna con Vue.js y TypeScript", Active, January15, January15),
     Project("2", "Mobile App", "Aplicación móvil para iOS y Android", Inactive, February10, February10),
     Project("3", "API Backend", "API REST con Node.js y Express", Active, March5, March5)]
  }

  /** The seed holds two active projects and one inactive one, with distinct ids. */
  lemma DefaultProjectsStats()
    ensures AllProjectsStats(DefaultProjects()) == ProjectStats(3, 2, 1)
    ensures forall i, j :: 0 <= i < j < 3 ==> DefaultProjects()[i].id != DefaultProjects()[j].id
  {
    StatsOfActiveInactiveActive(DefaultProjects());
  }

  lemma StatsOfActiveInactiveActive(ps: seq<Project>)
    requires |ps| == 3 && ps[0].status == Active && ps[1].status == Inactive && ps[2].status == Active
    ensures AllProjectsStats(ps) == ProjectStats(3, 2, 1)
  {
    assert ps == [ps[0]] + [ps[1]] + [ps[2]];
    CountWithStatusAppend([ps[0]] + [ps[1]], [ps[2]], Active);
    CountWithStatusAppend([ps[0]] + [ps[1]], [ps[2]], Inactive);
    CountWithStatusAppend([ps[0]], [ps[1]], Active);
    CountWithStatusAppend([ps[0]], [ps[1]], Inactive);
  }

  // ---------------------------------------------------------------------------
  // The store

  /** The project after a partial update at time `now`: present fields overwrite,
      id and creation time are kept. */
  function Patched(p: Project, patch: ProjectPatch, now: int): (r: Project)
    ensures r.id == p.id && r.createdAt == p.createdAt && r.updatedAt == now
    ensures r.name == patch.name.GetOr(p.name) && r.description == patch.description.GetOr(p.description)
    ensures r.status == patch.status.GetOr(p.status)
  {
    Project(p.id, patch.name.GetOr(p.name), patch.description.GetOr(p.description),
            patch.status.GetOr(p.status), p.createdAt, now)
  }

  class ProjectsStore {
    var projects: seq<Project>

    constructor ()
      ensures projects == []
    {
      projects := [];
    }

    /** `loadDefaultProjects`: replaces the list by the seed. */
    method LoadDefaultProjects()
      modifies this`projects
      ensures projects == DefaultProjects()
    {
      projects := DefaultProjects();
    }

    /** `createProject`: appends one project created and updated at `now`. */
    method CreateProject(draft: ProjectDraft, id: string, now: int) returns (p: Project)
      modifies this`projects
      ensures p == Project(id, draft.name, draft.description, draft.status, now, now)
      ensures projects == old(projects) + [p]
    {
      p := Project(id, draft.name, draft.description, draft.status, now, now);
      projects := projects + [p];
    }

    /** `updateProject`: patches the first project with this id, or returns `None`
        and changes nothing. */
    method UpdateProject(id: string, patch: ProjectPatch, now: int) returns (r: Option<Project>)
      modifies this`projects
      ensures var i := IndexOfProject(old(projects), id);
        if i == -1 then r == None && projects == old(projects)
        else r == Some(Patched(old(projects)[i], patch, now)) && projects == old(projects)[i := r.value]
    {
      var i := IndexOfProject(projects, id);
      if i > -1 {
        var updated := Patched(projects[i], patch, now);
        projects := projects[i := updated];
        r := Some(updated);
      } else {
        r := None;
      }
    }

    /** `deleteProject`: removes the first project with this id and keeps the order
        of the rest; `false` and no change when there is none. */
    method DeleteProject(id: string) returns (deleted: bool)
      modifies this`projects
      ensures var i := IndexOfProject(old(projects), id);
        deleted == (i != -1)
        && projects == if i == -1 then old(projects) else RemoveAt(old(projects), i)
    {
      var i := IndexOfProject(projects, id);
      if i > -1 {
        projects := RemoveAt(projects, i);
        deleted := true;
      } else {
        deleted := false;
      }
    }
  }
}
