/** Operations that combine the projects container and the workflows container:
    a project together with its workflow statistics, every project with its
    workflows, the global counts, and deleting a project with its workflows. */
module ProjectWorkflows {
  import opened Wrappers
  import opened Collections
  import P = Projects
  import W = Workflows

  /** A project with the statistics and the active-workflow count of its workflows. */
  datatype ProjectWithStats = ProjectWithStats(
    project: P.Project,
    stats: W.WorkflowStats,
    activeWorkflowsCount: nat)

  /** A project with its workflows, their statistics and their active count. */
  datatype ProjectWithWorkflows = ProjectWithWorkflows(
    project: P.Project,
    workflows: seq<W.Workflow>,
    stats: W.WorkflowStats,
    activeWorkflowsCount: nat)

  /** `getProjectWithStats`: `None` for an unknown project id, otherwise the first
      project with that id and the figures of the workflows that carry it. */
  function ProjectWithStatsOf(ps: seq<P.Project>, ws: seq<W.Workflow>, projectId: string): (r: Option<ProjectWithStats>)
    ensures r.None? <==> forall i :: 0 <= i < |ps| ==> ps[i].id != projectId
    ensures r.Some? ==> Some(r.value.project) == P.ProjectById(ps, projectId)
    ensures r.Some? ==> r.value.stats.executions == |W.WorkflowsByProject(ws, projectId)|
    ensures r.Some? ==> r.value.activeWorkflowsCount <= r.value.stats.executions
    ensures r.Some? ==> r.value.stats == W.ProjectWorkflowStats(ws, projectId)
    ensures r.Some? ==> r.value.activeWorkflowsCount == W.ActiveWorkflowsCount(ws, projectId)
  {
    match P.ProjectById(ps, projectId)
    case None => None
    case Some(project) =>
      Some(ProjectWithStats(project, W.ProjectWorkflowStats(ws, projectId), W.ActiveWorkflowsCount(ws, projectId)))
  }

  function WithWorkflows(project: P.Project, ws: seq<W.Workflow>): ProjectWithWorkflows {
    ProjectWithWorkflows(project, W.WorkflowsByProject(ws, project.id),
                         W.ProjectWorkflowStats(ws, project.id), W.ActiveWorkflowsCount(ws, project.id))
  }

  /** `getProjectsWithWorkflows`: one entry per project, in the same order; each
      entry holds exactly the workflows that carry that project's id. */
  function ProjectsWithWorkflows(ps: seq<P.Project>, ws: seq<W.Workflow>): (r: seq<ProjectWithWorkflows>)
    ensures |r| == |ps|
    ensures forall i :: 0 <= i < |r| ==> r[i].project == ps[i]
    ensures forall i, j :: 0 <= i < |r| && 0 <= j < |r[i].workflows| ==>
      r[i].workflows[j].projectId == ps[i].id && r[i].workflows[j] in ws
    ensures forall i, k :: 0 <= i < |r| && 0 <= k < |ws| && ws[k].projectId == ps[i].id ==> ws[k] in r[i].workflows
    ensures forall i :: 0 <= i < |r| ==>
      r[i].stats.executions == |r[i].workflows| && r[i].activeWorkflowsCount <= |r[i].workflows|
    ensures forall i :: 0 <= i < |r| ==>
      r[i].workflows == W.WorkflowsByProject(ws, ps[i].id)
      && r[i].stats == W.ProjectWorkflowStats(ws, ps[i].id)
      && r[i].activeWorkflowsCount == W.ActiveWorkflowsCount(ws, ps[i].id)
  {
    seq(|ps|, i requires 0 <= i < |ps| => WithWorkflows(ps[i], ws))
  }

  datatype GlobalStats = GlobalStats(projects: P.ProjectStats, workflows: W.AllWorkflowStats)

  /** `getGlobalStats`: the project counts and the workflow counts side by side. */
  function GlobalStatsOf(ps: seq<P.Project>, ws: seq<W.Workflow>): (r: GlobalStats)
    ensures r.projects.total == |ps| && r.workflows.total == |ws|
    ensures r.projects == P.AllProjectsStats(ps) && r.workflows == W.WorkflowTotals(ws)
  {
    GlobalStats(P.AllProjectsStats(ps), W.WorkflowTotals(ws))
  }

  /** Both halves of the global figures add up: projects by status, workflows by status. */
  lemma GlobalStatsAddUp(ps: seq<P.Project>, ws: seq<W.Workflow>)
    ensures var g := GlobalStatsOf(ps, ws);
      g.projects.total == g.projects.active + g.projects.inactive
      && g.workflows.total == g.workflows.running + g.workflows.success + g.workflows.failed + g.workflows.pending
  {
    P.ProjectStatsAddUp(ps);
    W.WorkflowTotalsAddUp(ws);
  }

  /** `deleteProjectAndWorkflows`: first removes the project's workflows; only when
      that removed at least one does it delete the project. The result is `true`
      exactly when workflows were removed and the project was found; the workflows
      stay removed even when the project id is unknown. */
  method DeleteProjectAndWorkflows(projects: P.ProjectsStore, workflows: W.WorkflowsStore, projectId: string)
    returns (ok: bool)
    modifies projects`projects, workflows`workflows
    ensures workflows.workflows == W.WithoutProject(old(workflows.workflows), projectId)
    ensures var removed := W.WorkflowsByProject(old(workflows.workflows), projectId) != [];
      var i := P.IndexOfProject(old(projects.projects), projectId);
      ok == (removed && i != -1)
      && projects.projects == if ok then RemoveAt(old(projects.projects), i) else old(projects.projects)
  {
    var success := workflows.DeleteWorkflowsByProjectId(projectId);
    if success {
      ok := projects.DeleteProject(projectId);
    } else {
      ok := false;
    }
  }
}
