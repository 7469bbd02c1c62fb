/** The manager dashboard: the two collections it loads together and the
    team-wide numbers on its cards. */
module DashboardScreen {
  import opened Basics
  import opened Seqs
  import opened Entities
  import opened Rounding

  const LoadFailedText: string := "Failed to load dashboard data"

  /** What the dashboard holds. */
  datatype DashboardState = DashboardState(engineers: seq<Engineer>, projects: seq<Project>,
                                           loading: bool, notices: seq<Notice>)

  const InitialState: DashboardState := DashboardState([], [], true, [])

  /** Both lists are requested together; either failure leaves both lists as
      they were and shows one error notice. */
  function Load(s: DashboardState, engineersResponse: Response<seq<Engineer>>, projectsResponse: Response<seq<Project>>)
    : (r: DashboardState)
    ensures !r.loading
    ensures engineersResponse.Ok? && projectsResponse.Ok? ==>
              r == s.(engineers := engineersResponse.value, projects := projectsResponse.value, loading := false)
    ensures engineersResponse.Failed? || projectsResponse.Failed? ==>
              r == s.(loading := false, notices := s.notices + [ErrorNotice(LoadFailedText)])
  {
    if engineersResponse.Ok? && projectsResponse.Ok? then
      s.(engineers := engineersResponse.value, projects := projectsResponse.value, loading := false)
    else
      s.(loading := false, notices := s.notices + [ErrorNotice(LoadFailedText)])
  }

  /** `projects.filter(p => p.status === 'active').length`. */
  function ActiveProjects(ps: seq<Project>): (k: nat)
    ensures k <= |ps|
  {
    Count(ps, (p: Project) => p.status == "active")
  }

  /** A project counts as active exactly when it is in the list with status "active". */
  lemma ActiveProjectsCounted(ps: seq<Project>, p: Project)
    ensures p in Filter(ps, (q: Project) => q.status == "active") <==> p in ps && p.status == "active"
    ensures (forall i :: 0 <= i < |ps| ==> ps[i].status == "active") ==> ActiveProjects(ps) == |ps|
    ensures (forall i :: 0 <= i < |ps| ==> ps[i].status != "active") ==> ActiveProjects(ps) == 0
  {
    var f := (q: Project) => q.status == "active";
    FilterMembership(ps, f, p);
    if forall i :: 0 <= i < |ps| ==> ps[i].status == "active" {
      FilterKeepsAll(ps, f);
    }
    if forall i :: 0 <= i < |ps| ==> ps[i].status != "active" {
      FilterDropsAll(ps, f);
    }
  }

  /** The allocation an engineer's card shows: `100 - availability`. It is
      0 exactly for a fully available engineer and 100 exactly for a fully
      booked one, and stays in 0..100 while the availability does. */
  function UsedCapacity(e: Engineer): (c: int)
    ensures c == 0 <==> e.availability == 100
    ensures c == 100 <==> e.availability == 0
    ensures 0 <= e.availability <= 100 ==> 0 <= c <= 100
  {
    100 - e.availability
  }

  /** The availability as a function value, for sums over the team. */
  function Availability(e: Engineer): int
  {
    e.availability
  }

  /** `engineers.reduce((sum, e) => sum + (100 - e.availability), 0)`; with
      every availability in 0..100 it lies between 0 and 100 per engineer. */
  function TotalUsed(es: seq<Engineer>): (t: int)
    ensures es == [] ==> t == 0
    ensures (forall i :: 0 <= i < |es| ==> 0 <= es[i].availability <= 100) ==> 0 <= t <= 100 * |es|
  {
    if forall i :: 0 <= i < |es| ==> 0 <= es[i].availability <= 100 then
      SumBounds(es, UsedCapacity, 0, 100);
      Sum(es, UsedCapacity)
    else
      Sum(es, UsedCapacity)
  }

  /** The team total is the full capacity of the team less what is still available. */
  lemma {:induction false} TotalUsedIsCapacityLessAvailable(es: seq<Engineer>)
    ensures TotalUsed(es) == 100 * |es| - Sum(es, Availability)
  {
    if es != [] {
      TotalUsedIsCapacityLessAvailable(es[1..]);
    }
  }

  /** `totalEngineers > 0 ? Math.round(total / totalEngineers) : 0`: the
      average allocation rounded half up, 0 with no engineers. */
  function AvgUsed(es: seq<Engineer>): (r: int)
    ensures es == [] ==> r == 0
    ensures es != [] ==> 2 * |es| * r - |es| <= 2 * TotalUsed(es) < 2 * |es| * r + |es|
  {
    Average(TotalUsed(es), |es|)
  }

  /** With every availability in 0..100 the average allocation lies in 0..100. */
  lemma AvgUsedBounds(es: seq<Engineer>)
    requires forall i :: 0 <= i < |es| ==> 0 <= es[i].availability <= 100
    ensures es == [] ==> AvgUsed(es) == 0
    ensures 0 <= AvgUsed(es) <= 100
  {
    SumBounds(es, UsedCapacity, 0, 100);
    if es != [] {
      AverageBounds(TotalUsed(es), |es|, 0, 100);
    }
  }

  /** A team with nothing available is fully allocated on average. */
  lemma FullyBookedTeam(es: seq<Engineer>)
    requires es != []
    requires forall i :: 0 <= i < |es| ==> es[i].availability == 0
    ensures AvgUsed(es) == 100
  {
    SumBounds(es, UsedCapacity, 100, 100);
    AverageOfConstant(100, |es|);
  }
}
