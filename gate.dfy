/** Role-based visibility: which affordances a viewer gets, decided from the
    viewer's role and id and the record's owner. */
module RoleGate {
  import opened Basics
  import opened Entities

  /** `currentUser?.role === 'manager'`. */
  predicate IsManager(u: Option<User>)
  {
    u.Some? && u.value.role == ManagerRole
  }

  /** `currentUser?.role === 'engineer'`. */
  predicate IsEngineer(u: Option<User>)
  {
    u.Some? && u.value.role == EngineerRole
  }

  /** `isEngineer && currentUser?.id === assignment.engineerId`. */
  predicate IsAssignedEngineer(u: Option<User>, a: Assignment)
  {
    IsEngineer(u) && u.value.id == a.engineerId
  }

  /** A manager is never an assigned engineer. */
  lemma ManagerNeverAssigned(u: Option<User>, a: Assignment)
    requires IsManager(u)
    ensures !IsAssignedEngineer(u, a)
  {
  }

  /** Which controls the assignment detail screen renders. */
  datatype DetailControls = DetailControls(
    headerEditDelete: bool,   // Edit and Delete buttons in the page header
    actionsCard: bool,        // the sidebar "Actions" card
    sidebarEditDelete: bool,  // Edit/Delete buttons inside the Actions card
    assignedMessage: bool)    // the encouragement block for the assigned engineer

  /** The controls of the detail screen, following the nesting of the rendered
      conditions: an outer `isManager || isAssignedEngineer`, with `isManager`
      and `isAssignedEngineer` blocks inside. */
  function Controls(u: Option<User>, a: Assignment): (c: DetailControls)
    ensures c.headerEditDelete <==> u.Some? && u.value.role == ManagerRole
    ensures c.sidebarEditDelete <==> u.Some? && u.value.role == ManagerRole
    ensures c.assignedMessage <==> u.Some? && u.value.role == EngineerRole && u.value.id == a.engineerId
    ensures c.actionsCard <==> c.sidebarEditDelete || c.assignedMessage
    ensures !(c.sidebarEditDelete && c.assignedMessage)
  {
    var outer := IsManager(u) || IsAssignedEngineer(u, a);
    DetailControls(
      outer && IsManager(u),
      outer,
      outer && IsManager(u),
      outer && IsAssignedEngineer(u, a))
  }

  /** The three outcomes of the gate for one record. */
  datatype Affordance = NoActions | ViewOnly | EditDelete

  /** The gate as a single decision, read off the rendered controls. */
  function DetailAffordance(u: Option<User>, a: Assignment): (r: Affordance)
    ensures r == EditDelete <==> IsManager(u)
    ensures r == ViewOnly <==> u.Some? && u.value.role == EngineerRole && u.value.id == a.engineerId
    ensures r == NoActions <==> !IsManager(u) && !IsAssignedEngineer(u, a)
  {
    var c := Controls(u, a);
    if c.sidebarEditDelete then EditDelete
    else if c.assignedMessage then ViewOnly
    else NoActions
  }

  /** An engineer viewing someone else's assignment gets nothing; a manager
      gets edit and delete on every assignment. */
  lemma GateByOwner(u: User, a: Assignment)
    ensures u.role == EngineerRole && u.id != a.engineerId ==> DetailAffordance(Some(u), a) == NoActions
    ensures u.role == EngineerRole && u.id == a.engineerId ==> DetailAffordance(Some(u), a) == ViewOnly
    ensures u.role == ManagerRole ==> DetailAffordance(Some(u), a) == EditDelete
  {
  }

  /** Screens that only managers may use deny a present non-manager
      (`user && user.role !== 'manager'`). An absent user is not denied. */
  function AccessDenied(u: Option<User>): (denied: bool)
    ensures denied ==> u.Some?
    ensures u.Some? ==> (denied <==> !IsManager(u))
  {
    u.Some? && u.value.role != ManagerRole
  }

  /** Create links and the "View All" link render only for a manager. */
  function ShowManagerLinks(u: Option<User>): (shown: bool)
    ensures shown <==> u.Some? && u.value.role == ManagerRole
  {
    IsManager(u)
  }

  /** Where the detail screen's back button goes. */
  function BackTarget(u: Option<User>): (path: string)
    ensures IsEngineer(u) ==> path == "/my-assignments"
    ensures !IsEngineer(u) ==> path == "/assignments"
  {
    if IsEngineer(u) then "/my-assignments" else "/assignments"
  }
}
