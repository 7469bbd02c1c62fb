/** The assignment detail screen: its load guard, the manager-only delete
    guard, the edit callback, and the fallbacks shown for missing snapshots. */
module AssignmentDetailScreen {
  import opened Basics
  import opened Entities
  import opened RoleGate
  import opened Search

  const MissingIdText: string := "Assignment ID is required"
  const LoadFailedText: string := "Failed to load assignment details"
  const NotManagerText: string := "Only managers can delete assignments"
  const DeletedText: string := "Assignment deleted successfully"
  const DeleteFailedText: string := "Failed to delete assignment"
  const UpdatedText: string := "Assignment updated successfully!"

  /** `assignment.project?.name || 'Unknown Project'`. */
  function ProjectLabel(a: Assignment): (s: string)
    ensures ProjectName(a).None? || ProjectName(a).value == "" ==> s == "Unknown Project"
    ensures ProjectName(a).Some? && ProjectName(a).value != "" ==> s == ProjectName(a).value
  {
    var n := ProjectName(a);
    if n.Some? && n.value != "" then n.value else "Unknown Project"
  }

  /** `assignment.engineer?.name || 'Unknown Engineer'`. */
  function EngineerLabel(a: Assignment): (s: string)
    ensures EngineerName(a).None? || EngineerName(a).value == "" ==> s == "Unknown Engineer"
    ensures EngineerName(a).Some? && EngineerName(a).value != "" ==> s == EngineerName(a).value
  {
    var n := EngineerName(a);
    if n.Some? && n.value != "" then n.value else "Unknown Engineer"
  }

  /** `assignment.engineer?.skills?.length || 0`. */
  function SkillsCount(a: Assignment): (k: nat)
    ensures a.engineer.None? || a.engineer.value.skills.None? ==> k == 0
    ensures a.engineer.Some? && a.engineer.value.skills.Some? ==> k == |a.engineer.value.skills.value|
  {
    if a.engineer.Some? && a.engineer.value.skills.Some? then |a.engineer.value.skills.value| else 0
  }

  /** What the screen renders. */
  datatype View = Spinner | NotFound | Details(a: Assignment)

  /** The state the screen component holds. */
  class AssignmentDetailPage {
    var assignment: Option<Assignment>
    var loading: bool
    var currentUser: Option<User>
    var notices: seq<Notice>
    var navigatedTo: Option<string>

    /** Mounting: the user is read from the session, the assignment is not loaded yet. */
    constructor (user: Option<User>)
      ensures assignment.None? && loading && currentUser == user
      ensures notices == [] && navigatedTo.None?
    {
      assignment, loading, currentUser := None, true, user;
      notices, navigatedTo := [], None;
    }

    function CurrentView(): (v: View)
      reads this
      ensures loading ==> v == Spinner
      ensures !loading && assignment.None? ==> v == NotFound
      ensures !loading && assignment.Some? ==> v == Details(assignment.value)
    {
      if loading then Spinner
      else if assignment.None? then NotFound
      else Details(assignment.value)
    }

    /** The fetch effect. Without a route id it shows one error, navigates back
        and fetches nothing (and `loading` is left as it was). */
    method Load(routeId: Option<string>, response: Response<Assignment>) returns (fetched: bool)
      modifies this`assignment, this`loading, this`notices, this`navigatedTo
      ensures fetched <==> routeId.Some? && routeId.value != ""
      ensures !fetched ==>
                assignment == old(assignment) && loading == old(loading)
                && notices == old(notices) + [ErrorNotice(MissingIdText)] && navigatedTo == Some("/assignments")
      ensures fetched ==> !loading
      ensures fetched && response.Ok? ==>
                assignment == Some(response.value) && notices == old(notices) && navigatedTo == old(navigatedTo)
      ensures fetched && response.Failed? ==>
                assignment == old(assignment) && notices == old(notices) + [ErrorNotice(LoadFailedText)]
                && navigatedTo == Some("/assignments")
    {
      if routeId.None? || routeId.value == "" {
        notices := notices + [ErrorNotice(MissingIdText)];
        navigatedTo := Some("/assignments");
        return false;
      }
      fetched := true;
      loading := true;
      match response {
        case Ok(a) =>
          assignment := Some(a);
        case Failed(_) =>
          notices := notices + [ErrorNotice(LoadFailedText)];
          navigatedTo := Some("/assignments");
      }
      loading := false;
    }

    /** The delete button. Unless an assignment is loaded and the user is a
        manager, one error notice and no service call. A declined confirmation
        does nothing. Otherwise one call, then one notice. */
    method HandleDelete(confirmed: bool, response: Response<()>) returns (called: bool)
      modifies this`notices, this`navigatedTo
      ensures called <==> assignment.Some? && IsManager(currentUser) && confirmed
      ensures !(assignment.Some? && IsManager(currentUser)) ==>
                notices == old(notices) + [ErrorNotice(NotManagerText)] && navigatedTo == old(navigatedTo)
      ensures assignment.Some? && IsManager(currentUser) && !confirmed ==>
                notices == old(notices) && navigatedTo == old(navigatedTo)
      ensures called && response.Ok? ==>
                notices == old(notices) + [SuccessNotice(DeletedText)] && navigatedTo == Some("/assignments")
      ensures called && response.Failed? ==>
                notices == old(notices) + [ErrorNotice(DeleteFailedText)] && navigatedTo == old(navigatedTo)
    {
      if assignment.None? || currentUser.None? || currentUser.value.role != ManagerRole {
        notices := notices + [ErrorNotice(NotManagerText)];
        return false;
      }
      if !confirmed {
        return false;
      }
      called := true;
      match response {
        case Ok(_) =>
          notices := notices + [SuccessNotice(DeletedText)];
          navigatedTo := Some("/assignments");
        case Failed(_) =>
          notices := notices + [ErrorNotice(DeleteFailedText)];
      }
    }

    /** The edit sheet's callback: the held assignment becomes the updated one. */
    method OnUpdate(updated: Assignment)
      modifies this`assignment, this`notices
      ensures assignment == Some(updated)
      ensures notices == old(notices) + [SuccessNotice(UpdatedText)]
    {
      assignment := Some(updated);
      notices := notices + [SuccessNotice(UpdatedText)];
    }
  }
}
