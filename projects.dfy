/** The project list: its fetch handler, which tolerates a response without a
    project list, and the manager-only create links. */
module ProjectsScreen {
  import opened Basics
  import opened Entities
  import opened RoleGate

  const LoadFailedText: string := "Failed to fetch projects"

  /** `response.projects || []`: a missing list reads as an empty one. */
  function ProjectsOrEmpty(listed: Option<seq<Project>>): (ps: seq<Project>)
    ensures listed.None? ==> ps == []
    ensures listed.Some? ==> ps == listed.value
  {
    listed.GetOr([])
  }

  /** The state the list component holds. */
  class ProjectsPage {
    var projects: seq<Project>
    var loading: bool
    var currentUser: Option<User>
    var notices: seq<Notice>

    constructor (user: Option<User>)
      ensures projects == [] && loading && currentUser == user && notices == []
    {
      projects, loading, currentUser, notices := [], true, user, [];
    }

    /** `fetchProjects`, run on mount, on returning to the list and by the
        refresh button. A response without a list empties the screen; a
        failure keeps the old list and shows the server's message or the
        fallback text. */
    method Fetch(response: Response<Option<seq<Project>>>)
      modifies this`projects, this`loading, this`notices
      ensures !loading
      ensures response.Ok? ==> projects == ProjectsOrEmpty(response.value) && notices == old(notices)
      ensures response.Failed? ==>
                projects == old(projects)
                && notices == old(notices) + [ErrorNotice(FailureText(response.serverMessage, LoadFailedText))]
    {
      loading := true;
      match response {
        case Ok(listed) =>
          projects := ProjectsOrEmpty(listed);
        case Failed(m) =>
          notices := notices + [ErrorNotice(FailureText(m, LoadFailedText))];
      }
      loading := false;
    }

    /** The header's "Create Project" link. */
    function ShowCreateLink(): (shown: bool)
      reads this
      ensures shown <==> IsManager(currentUser)
    {
      currentUser.Some? && currentUser.value.role == ManagerRole
    }

    /** The "No projects found" block, with its "Create Your First Project" link. */
    function EmptyState(): (r: Option<bool>)
      reads this
      ensures r.Some? <==> projects == []
      ensures r.Some? ==> (r.value <==> IsManager(currentUser))
    {
      if |projects| == 0 then Some(ShowCreateLink()) else None
    }
  }

  /** Whatever the list holds, a non-manager is never offered a create link. */
  lemma NoCreateLinkForNonManager(page: ProjectsPage)
    requires !IsManager(page.currentUser)
    ensures !page.ShowCreateLink()
    ensures page.EmptyState() != Some(true)
  {
  }
}
