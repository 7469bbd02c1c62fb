/** The engineer's own dashboard: who loads data, the engineer record and
    assignment list it picks out, and the numbers on its cards. */
module EngineerDashboardScreen {
  import opened Basics
  import opened Seqs
  import opened Entities
  import opened AllocationMetrics

  const LoadFailedText: string := "Failed to load dashboard data"

  /** Data is fetched only for a signed-in engineer with a non-empty id:
      never without a user, without an id, or for a manager. */
  predicate ShouldLoad(u: Option<User>)
    ensures ShouldLoad(u) ==> u.Some? && u.value.id != ""
    ensures u.Some? && u.value.role == ManagerRole ==> !ShouldLoad(u)
  {
    u.Some? && u.value.role == EngineerRole && u.value.id != ""
  }

  /** Index `i` holds the first engineer carrying `id`. */
  predicate FirstWithIdAt(es: seq<Engineer>, id: string, i: int)
  {
    0 <= i < |es| && es[i].id == id && forall j :: 0 <= j < i ==> es[j].id != id
  }

  /** `engineers.find(e => e.id === id)`. */
  function FindById(es: seq<Engineer>, id: string): (r: Option<Engineer>)
    ensures r.None? <==> forall i :: 0 <= i < |es| ==> es[i].id != id
    ensures r.Some? ==> exists i :: FirstWithIdAt(es, id, i) && r.value == es[i]
  {
    if es == [] then None
    else if es[0].id == id then
      assert FirstWithIdAt(es, id, 0);
      Some(es[0])
    else
      var r := FindById(es[1..], id);
      if r.Some? then
        var i :| FirstWithIdAt(es[1..], id, i) && r.value == es[1..][i];
        assert FirstWithIdAt(es, id, i + 1);
        r
      else
        assert forall i :: 1 <= i < |es| ==> es[i].id == es[1..][i - 1].id;
        r
  }

  /** `assignments.filter(a => a.engineerId === id)`: exactly the engineer's
      assignments, in their original order. */
  function EngineerAssignments(xs: seq<Assignment>, id: string): (r: seq<Assignment>)
    ensures forall i :: 0 <= i < |r| ==> r[i].engineerId == id
    ensures forall a :: a in r <==> a in xs && a.engineerId == id
    ensures IsSubsequence(r, xs)
  {
    var p := (a: Assignment) => a.engineerId == id;
    FilterSelects(xs, p);
    Filter(xs, p)
  }

  /** What the dashboard holds. */
  datatype DashboardState = DashboardState(engineer: Option<Engineer>, assignments: seq<Assignment>,
                                           loading: bool, notices: seq<Notice>)

  const InitialState: DashboardState := DashboardState(None, [], true, [])

  /** The load effect. The engineer list is fetched first, the assignment
      list after it; either failure leaves one error notice. The spinner
      always stops. */
  function Load(s: DashboardState, u: Option<User>,
                engineersResponse: Response<seq<Engineer>>, assignmentsResponse: Response<seq<Assignment>>)
    : (r: DashboardState)
    ensures !r.loading
    ensures !ShouldLoad(u) ==> r == s.(loading := false)
    ensures ShouldLoad(u) && engineersResponse.Failed? ==>
              r == s.(loading := false, notices := s.notices + [ErrorNotice(LoadFailedText)])
    ensures ShouldLoad(u) && engineersResponse.Ok? ==>
              r.engineer == FindById(engineersResponse.value, u.value.id)
    ensures ShouldLoad(u) && engineersResponse.Ok? && assignmentsResponse.Failed? ==>
              r.assignments == s.assignments && r.notices == s.notices + [ErrorNotice(LoadFailedText)]
    ensures ShouldLoad(u) && engineersResponse.Ok? && assignmentsResponse.Ok? ==>
              r.assignments == EngineerAssignments(assignmentsResponse.value, u.value.id) && r.notices == s.notices
  {
    if !ShouldLoad(u) then s.(loading := false)
    else if engineersResponse.Failed? then
      s.(loading := false, notices := s.notices + [ErrorNotice(LoadFailedText)])
    else
      var withEngineer := s.(engineer := FindById(engineersResponse.value, u.value.id));
      if assignmentsResponse.Failed? then
        withEngineer.(loading := false, notices := s.notices + [ErrorNotice(LoadFailedText)])
      else
        withEngineer.(assignments := EngineerAssignments(assignmentsResponse.value, u.value.id), loading := false)
  }

  /** After a load from the initial state the dashboard shows only the
      signed-in engineer's own record and assignments. */
  lemma LoadShowsOnlyOwnData(u: Option<User>, er: Response<seq<Engineer>>, ar: Response<seq<Assignment>>)
    ensures var r := Load(InitialState, u, er, ar);
      (r.engineer.Some? ==> ShouldLoad(u) && r.engineer.value.id == u.value.id)
      && (forall i :: 0 <= i < |r.assignments| ==> r.assignments[i].engineerId == u.value.id)
  {
  }

  /** `engineerData?.skills?.length || 0`. */
  function TotalSkills(e: Option<Engineer>): (k: nat)
    ensures e.None? ==> k == 0
    ensures e.Some? ==> k == |e.value.skills|
  {
    if e.Some? then |e.value.skills| else 0
  }

  /** `engineerData?.availability || 100`: a missing engineer and an
      availability of 0 both show 100, since `||` treats 0 as missing. */
  function AvailableCapacity(e: Option<Engineer>): (c: int)
    ensures c != 0
    ensures e.Some? && e.value.availability != 0 ==> c == e.value.availability
    ensures e.None? || e.value.availability == 0 ==> c == 100
  {
    if e.Some? && e.value.availability != 0 then e.value.availability else 100
  }
}
