/** The engineer list: a manager-only screen that loads and refreshes the
    engineers and summarises them in three counts. */
module EngineerListScreen {
  import opened Basics
  import opened Seqs
  import opened Entities
  import opened RoleGate

  const AccessDeniedText: string := "Access denied. Only managers can view engineers."
  const LoadFailedText: string := "Failed to fetch engineers"
  const RefreshedText: string := "Engineers list refreshed"
  const RefreshFailedText: string := "Failed to refresh engineers"

  /** What the list screen holds. */
  datatype ListState = ListState(engineers: seq<Engineer>, loading: bool, notices: seq<Notice>)

  const InitialState: ListState := ListState([], true, [])

  /** Mounting with the session's user. A present non-manager gets one error
      and nothing is fetched; with no user nothing happens at all, so the
      spinner stays; a manager's fetch fills the list or reports one error. */
  function Open(s: ListState, u: Option<User>, response: Response<seq<Engineer>>): (r: ListState)
    ensures AccessDenied(u) ==> r == s.(notices := s.notices + [ErrorNotice(AccessDeniedText)])
    ensures u.None? ==> r == s
    ensures IsManager(u) && response.Ok? ==> r == s.(engineers := response.value, loading := false)
    ensures IsManager(u) && response.Failed? ==>
              r == s.(loading := false, notices := s.notices + [ErrorNotice(LoadFailedText)])
  {
    if AccessDenied(u) then s.(notices := s.notices + [ErrorNotice(AccessDeniedText)])
    else if !IsManager(u) then s
    else match response
      case Ok(es) => s.(engineers := es, loading := false)
      case Failed(_) => s.(loading := false, notices := s.notices + [ErrorNotice(LoadFailedText)])
  }

  /** However the mount goes, no user sees more than one notice and only a
      manager ever sees engineers. */
  lemma OpenOutcome(u: Option<User>, response: Response<seq<Engineer>>)
    ensures |Open(InitialState, u, response).notices| <= 1
    ensures Open(InitialState, u, response).engineers != [] ==> IsManager(u)
    ensures !Open(InitialState, u, response).loading <==> IsManager(u)
  {
  }

  /** The refresh button: nothing unless the user is a manager. */
  function Refresh(s: ListState, u: Option<User>, response: Response<seq<Engineer>>): (r: ListState)
    ensures !IsManager(u) ==> r == s
    ensures IsManager(u) && response.Ok? ==>
              r == s.(engineers := response.value, loading := false, notices := s.notices + [SuccessNotice(RefreshedText)])
    ensures IsManager(u) && response.Failed? ==>
              r == s.(loading := false, notices := s.notices + [ErrorNotice(RefreshFailedText)])
  {
    if !IsManager(u) then s
    else match response
      case Ok(es) => s.(engineers := es, loading := false, notices := s.notices + [SuccessNotice(RefreshedText)])
      case Failed(_) => s.(loading := false, notices := s.notices + [ErrorNotice(RefreshFailedText)])
  }

  /** "Available": engineers with a positive availability. */
  function AvailableCount(es: seq<Engineer>): (k: nat)
    ensures k <= |es|
  {
    Count(es, (e: Engineer) => e.availability > 0)
  }

  /** "Senior": engineers whose seniority is exactly "senior". */
  function SeniorCount(es: seq<Engineer>): (k: nat)
    ensures k <= |es|
  {
    Count(es, (e: Engineer) => e.seniority == Some("senior"))
  }

  /** An engineer is counted exactly when it is listed and meets the card's condition. */
  lemma CountsMembership(es: seq<Engineer>, e: Engineer)
    ensures e in Filter(es, (x: Engineer) => x.availability > 0) <==> e in es && e.availability > 0
    ensures e in Filter(es, (x: Engineer) => x.seniority == Some("senior")) <==> e in es && e.seniority == Some("senior")
  {
    FilterMembership(es, (x: Engineer) => x.availability > 0, e);
    FilterMembership(es, (x: Engineer) => x.seniority == Some("senior"), e);
  }

  /** `new Set(engineers.map(e => e.department).filter(Boolean))`. */
  function Departments(es: seq<Engineer>): (ds: set<string>)
    ensures "" !in ds
    ensures forall i :: 0 <= i < |es| && es[i].department.Some? && es[i].department.value != "" ==>
              es[i].department.value in ds
    ensures forall d :: d in ds ==> exists i :: 0 <= i < |es| && es[i].department == Some(d)
  {
    set i | 0 <= i < |es| && es[i].department.Some? && es[i].department.value != "" :: es[i].department.value
  }

  /** "Departments": the number of distinct non-empty departments. */
  function DepartmentCount(es: seq<Engineer>): (k: nat)
    ensures k <= |es|
  {
    DepartmentsBound(es);
    |Departments(es)|
  }

  /** The count is 0 exactly when no engineer has a non-empty department. */
  lemma DepartmentCountZero(es: seq<Engineer>)
    ensures DepartmentCount(es) == 0 <==>
              forall i :: 0 <= i < |es| ==> es[i].department.None? || es[i].department.value == ""
  {
    if exists i :: 0 <= i < |es| && es[i].department.Some? && es[i].department.value != "" {
      var i :| 0 <= i < |es| && es[i].department.Some? && es[i].department.value != "";
      assert es[i].department.value in Departments(es);
    }
  }

  lemma {:induction false} DepartmentsBound(es: seq<Engineer>)
    ensures |Departments(es)| <= |es|
  {
    if es != [] {
      DepartmentsBound(es[1..]);
      var rest := Departments(es[1..]);
      var d := es[0].department.GetOr("");
      forall x | x in Departments(es) ensures x in rest + {d} {
        var i :| 0 <= i < |es| && es[i].department.Some? && es[i].department.value != "" && x == es[i].department.value;
        if i > 0 {
          assert es[1..][i - 1] == es[i];
        }
      }
      SubsetCard(Departments(es), rest + {d});
    }
  }

  lemma SubsetCard<T>(a: set<T>, b: set<T>)
    requires a <= b
    ensures |a| <= |b|
  {
    assert b == a + (b - a);
  }

  /** Engineers who all share one department count as one department. */
  lemma SharedDepartment(es: seq<Engineer>, d: string)
    requires es != [] && d != ""
    requires forall i :: 0 <= i < |es| ==> es[i].department == Some(d)
    ensures DepartmentCount(es) == 1
  {
    assert Departments(es) == {d} by {
      assert d in Departments(es) by {
        assert es[0].department.value == d;
      }
    }
  }
}
