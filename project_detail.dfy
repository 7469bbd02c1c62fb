/** The project detail screen: the assignments of one project, its
    allocation metrics and progress, and how a load changes what it shows. */
module ProjectDetailScreen {
  import opened Basics
  import opened Seqs
  import opened Entities
  import opened AllocationMetrics
  import opened Classifiers

  const LoadFailedText: string := "Failed to fetch project details"

  /** `assignments.filter(a => a.projectId === id)`: exactly the project's
      assignments, in their original order. */
  function ProjectAssignments(xs: seq<Assignment>, id: string): (r: seq<Assignment>)
    ensures forall i :: 0 <= i < |r| ==> r[i].projectId == id
    ensures forall a :: a in r <==> a in xs && a.projectId == id
    ensures IsSubsequence(r, xs)
  {
    var p := (a: Assignment) => a.projectId == id;
    FilterSelects(xs, p);
    Filter(xs, p)
  }

  /** The numbers in the metric cards. */
  datatype Metrics = Metrics(totalAllocation: int, teamMembers: nat, avgAllocation: int, progress: int)

  function ProjectMetrics(p: Project, xs: seq<Assignment>): (m: Metrics)
    ensures m.teamMembers == |xs|
    ensures m.totalAllocation == TotalAllocation(xs)
    ensures xs == [] ==> m.avgAllocation == 0 && m.totalAllocation == 0
    ensures xs != [] ==>
              2 * |xs| * m.avgAllocation - |xs| <= 2 * m.totalAllocation < 2 * |xs| * m.avgAllocation + |xs|
    ensures 25 <= m.progress <= 100
    ensures m.progress == 100 <==> p.status == "completed"
    ensures m.progress == 65 <==> p.status == "active"
  {
    Metrics(TotalAllocation(xs), |xs|, AvgAllocation(xs), ProgressPercentage(p.status))
  }

  /** What the screen holds. */
  datatype DetailState = DetailState(project: Option<Project>, assignments: seq<Assignment>, loading: bool, notices: seq<Notice>)

  const InitialState: DetailState := DetailState(None, [], true, [])

  /** The fetch effect. Without a route id nothing happens, so the spinner
      stays. Otherwise the project is fetched first and the assignment list
      only after it succeeded; any failure leaves one error notice. */
  function Load(s: DetailState, routeId: Option<string>,
                projectResponse: Response<Project>, assignmentsResponse: Response<seq<Assignment>>): (r: DetailState)
    ensures routeId.None? || routeId.value == "" ==> r == s
    ensures routeId.Some? && routeId.value != "" ==> !r.loading
    ensures routeId.Some? && routeId.value != "" && projectResponse.Failed? ==>
              r == s.(loading := false, notices := s.notices + [ErrorNotice(LoadFailedText)])
    ensures routeId.Some? && routeId.value != "" && projectResponse.Ok? && assignmentsResponse.Failed? ==>
              r == s.(project := Some(projectResponse.value), loading := false,
                       notices := s.notices + [ErrorNotice(LoadFailedText)])
    ensures routeId.Some? && routeId.value != "" && projectResponse.Ok? && assignmentsResponse.Ok? ==>
              r == s.(project := Some(projectResponse.value),
                       assignments := ProjectAssignments(assignmentsResponse.value, routeId.value),
                       loading := false)
  {
    if routeId.None? || routeId.value == "" then s
    else if projectResponse.Failed? then
      s.(loading := false, notices := s.notices + [ErrorNotice(LoadFailedText)])
    else
      var withProject := s.(project := Some(projectResponse.value));
      if assignmentsResponse.Failed? then
        withProject.(loading := false, notices := s.notices + [ErrorNotice(LoadFailedText)])
      else
        withProject.(assignments := ProjectAssignments(assignmentsResponse.value, routeId.value), loading := false)
  }

  /** After a successful load from the initial state every held assignment
      belongs to the routed project. */
  lemma LoadedAssignmentsBelong(routeId: string, pr: Response<Project>, ar: Response<seq<Assignment>>)
    requires routeId != ""
    ensures var r := Load(InitialState, Some(routeId), pr, ar);
      forall i :: 0 <= i < |r.assignments| ==> r.assignments[i].projectId == routeId
  {
  }

  datatype View = Spinner | NotFound | Details(project: Project, metrics: Metrics)

  function CurrentView(s: DetailState): (v: View)
    ensures s.loading ==> v == Spinner
    ensures !s.loading && s.project.None? ==> v == NotFound
    ensures !s.loading && s.project.Some? ==> v.Details? && v.project == s.project.value
  {
    if s.loading then Spinner
    else if s.project.None? then NotFound
    else Details(s.project.value, ProjectMetrics(s.project.value, s.assignments))
  }

  /** With no route id the screen never leaves the spinner. */
  lemma NoRouteIdKeepsSpinner(pr: Response<Project>, ar: Response<seq<Assignment>>)
    ensures CurrentView(Load(InitialState, None, pr, ar)) == Spinner
  {
  }
}
