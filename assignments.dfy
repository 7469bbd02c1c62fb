/** The assignment list screen: the creation schema and payload, the search,
    the summary metrics, and the list state that create, delete and update
    patch in place. */
module AssignmentsScreen {
  import opened Basics
  import opened Seqs
  import opened Entities
  import opened RoleGate
  import opened Search
  import opened Rounding
  import opened AllocationMetrics

  /** The creation form. `allocationPercentage` is `None` when the number input
      holds no number (`parseInt` gave NaN); `endDate` is `None` when null. */
  datatype AssignmentForm = AssignmentForm(
    engineerId: string,
    projectId: string,
    allocationPercentage: Option<int>,
    startDate: string,
    endDate: Option<string>,
    role: string)

  /** The form's initial and reset values. */
  const DefaultForm: AssignmentForm := AssignmentForm("", "", Some(100), "", Some(""), "")

  /** A form field the schema can reject. */
  datatype Field = EngineerIdField | ProjectIdField | AllocationField | StartDateField | RoleField

  /** The fields the schema rejects, in declaration order: required strings
      must be non-empty, the allocation a number in 1..100; `endDate` is free. */
  function SchemaErrors(f: AssignmentForm): (errs: seq<Field>)
    ensures errs == [] <==>
            f.engineerId != "" && f.projectId != "" && f.startDate != "" && f.role != ""
            && f.allocationPercentage.Some? && 1 <= f.allocationPercentage.value <= 100
    ensures AllocationField in errs <==>
            f.allocationPercentage.None? || !(1 <= f.allocationPercentage.value <= 100)
    ensures RoleField in errs <==> f.role == ""
  {
    (if f.engineerId == "" then [EngineerIdField] else [])
    + (if f.projectId == "" then [ProjectIdField] else [])
    + (if f.allocationPercentage.None? || !(1 <= f.allocationPercentage.value <= 100) then [AllocationField] else [])
    + (if f.startDate == "" then [StartDateField] else [])
    + (if f.role == "" then [RoleField] else [])
  }

  /** The body of the create request. */
  datatype CreateRequest = CreateRequest(
    engineerId: string,
    projectId: string,
    allocationPercentage: int,
    startDate: string,
    endDate: Option<string>,
    role: string)

  /** The request built from a valid form; `endDate || undefined` turns an empty
      or null end date into an absent one. */
  function RequestOf(f: AssignmentForm): (r: CreateRequest)
    requires SchemaErrors(f) == []
    ensures 1 <= r.allocationPercentage <= 100
    ensures r.endDate.None? <==> f.endDate.None? || f.endDate.value == ""
    ensures r.endDate.Some? ==> r.endDate == f.endDate
    ensures r.engineerId == f.engineerId && r.projectId == f.projectId
    ensures r.startDate == f.startDate && r.role == f.role
  {
    CreateRequest(
      f.engineerId, f.projectId, f.allocationPercentage.value, f.startDate,
      if f.endDate.Some? && f.endDate.value != "" then f.endDate else None,
      f.role)
  }

  /** An allocation of 150 is refused, 100 accepted, other fields being valid. */
  lemma AllocationRange(f: AssignmentForm)
    requires f.engineerId != "" && f.projectId != "" && f.startDate != "" && f.role != ""
    ensures SchemaErrors(f.(allocationPercentage := Some(150))) == [AllocationField]
    ensures SchemaErrors(f.(allocationPercentage := Some(100))) == []
  {
  }

  /** `assignments.filter(a => a.id !== id)`: the list after a successful delete. */
  function RemoveById(xs: seq<Assignment>, id: string): (r: seq<Assignment>)
    ensures IsSubsequence(r, xs)
    ensures forall a :: a in r <==> a in xs && a.id != id
  {
    var p := (a: Assignment) => a.id != id;
    FilterSelects(xs, p);
    Filter(xs, p)
  }

  /** `assignments.map(a => a.id === u.id ? u : a)`: the list after an update. */
  function ReplaceById(xs: seq<Assignment>, u: Assignment): (r: seq<Assignment>)
    ensures |r| == |xs|
  {
    if xs == [] then []
    else [if xs[0].id == u.id then u else xs[0]] + ReplaceById(xs[1..], u)
  }

  /** Deleting an id no entry carries leaves the list as it was. */
  lemma RemoveMissingIdKeepsList(xs: seq<Assignment>, id: string)
    requires forall i :: 0 <= i < |xs| ==> xs[i].id != id
    ensures RemoveById(xs, id) == xs
  {
    FilterKeepsAll(xs, (a: Assignment) => a.id != id);
  }

  /** Update replaces the entries whose id is the updated one, position by
      position, and leaves every other entry as it was. */
  lemma {:induction false} ReplaceByIdAt(xs: seq<Assignment>, u: Assignment, i: nat)
    requires i < |xs|
    ensures ReplaceById(xs, u)[i] == if xs[i].id == u.id then u else xs[i]
  {
    if i > 0 {
      ReplaceByIdAt(xs[1..], u, i - 1);
    }
  }

  /** Update keeps every position's id, so the list's ids are unchanged. */
  lemma ReplaceByIdKeepsIds(xs: seq<Assignment>, u: Assignment)
    ensures forall i :: 0 <= i < |xs| ==> ReplaceById(xs, u)[i].id == xs[i].id
  {
    forall i | 0 <= i < |xs| ensures ReplaceById(xs, u)[i].id == xs[i].id {
      ReplaceByIdAt(xs, u, i);
    }
  }

  /** `assignments.filter(a => a.project?.name).length`: a present, non-empty project name. */
  function ActiveAssignments(xs: seq<Assignment>): (k: nat)
    ensures k <= |xs|
  {
    Count(xs, (a: Assignment) => ProjectName(a).Some? && ProjectName(a).value != "")
  }

  /** An assignment is counted exactly when its project snapshot carries a
      non-empty name; all named gives the length, none named gives 0. */
  lemma ActiveAssignmentsCounted(xs: seq<Assignment>, a: Assignment)
    ensures a in Filter(xs, (b: Assignment) => ProjectName(b).Some? && ProjectName(b).value != "") <==>
              a in xs && ProjectName(a).Some? && ProjectName(a).value != ""
    ensures (forall i :: 0 <= i < |xs| ==> ProjectName(xs[i]).Some? && ProjectName(xs[i]).value != "") ==>
              ActiveAssignments(xs) == |xs|
    ensures (forall i :: 0 <= i < |xs| ==> ProjectName(xs[i]).None? || ProjectName(xs[i]).value == "") ==>
              ActiveAssignments(xs) == 0
  {
    var p := (b: Assignment) => ProjectName(b).Some? && ProjectName(b).value != "";
    FilterMembership(xs, p, a);
    if forall i :: 0 <= i < |xs| ==> ProjectName(xs[i]).Some? && ProjectName(xs[i]).value != "" {
      FilterKeepsAll(xs, p);
    }
    if forall i :: 0 <= i < |xs| ==> ProjectName(xs[i]).None? || ProjectName(xs[i]).value == "" {
      FilterDropsAll(xs, p);
    }
  }

  /** Appending a created assignment adds one to the count and its allocation to the total. */
  lemma AppendMetrics(xs: seq<Assignment>, a: Assignment)
    ensures |xs + [a]| == |xs| + 1
    ensures Sum(xs + [a], Allocation) == Sum(xs, Allocation) + a.allocationPercentage
    ensures ActiveAssignments(xs) <= ActiveAssignments(xs + [a]) <= ActiveAssignments(xs) + 1
  {
    SumAppend(xs, [a], Allocation);
    FilterAppend(xs, [a], (a: Assignment) => ProjectName(a).Some? && ProjectName(a).value != "");
  }

  const AccessDeniedText: string := "Access denied. Only managers can view assignments."
  const CreatedText: string := "Assignment created successfully!"
  const CreateFailedText: string := "Failed to create assignment. Please try again."
  const DeletedText: string := "Assignment deleted successfully!"
  const DeleteFailedText: string := "Failed to delete assignment."
  const LoadFailedText: string := "Failed to load data"
  const RefreshedText: string := "Assignments refreshed successfully"
  const RefreshFailedText: string := "Failed to refresh data"

  /** The three collections fetched together for the screen. */
  datatype Collections = Collections(engineers: seq<Engineer>, projects: seq<Project>, assignments: seq<Assignment>)

  /** The state the screen component holds. */
  class AssignmentsPage {
    var assignments: seq<Assignment>
    var engineers: seq<Engineer>
    var projects: seq<Project>
    var loading: bool
    var initialLoading: bool
    var showForm: bool
    var searchTerm: string
    var form: AssignmentForm
    var notices: seq<Notice>

    constructor ()
      ensures assignments == [] && engineers == [] && projects == []
      ensures !loading && initialLoading && !showForm && searchTerm == ""
      ensures form == DefaultForm && notices == []
    {
      assignments, engineers, projects := [], [], [];
      loading, initialLoading, showForm, searchTerm := false, true, false, "";
      form, notices := DefaultForm, [];
    }

    /** The rows currently rendered. */
    function Visible(): (r: seq<Assignment>)
      reads this
      ensures IsSubsequence(r, assignments)
      ensures forall a :: a in r <==> a in assignments && AssignmentMatches(a, searchTerm)
      ensures searchTerm == "" ==> r == assignments
    {
      EmptyTermKeepsList(assignments, []);
      FilterAssignments(assignments, searchTerm)
    }

    /** The manager-only check, run once the user is known: a present
      non-manager gets one notice and is sent to the dashboard. */
    method CheckAccess(u: Option<User>) returns (redirect: Option<string>)
      modifies this`notices
      ensures redirect.Some? <==> AccessDenied(u)
      ensures redirect.Some? ==> redirect.value == "/dashboard"
      ensures notices == old(notices) + (if AccessDenied(u) then [ErrorNotice(AccessDeniedText)] else [])
    {
      if AccessDenied(u) {
        notices := notices + [ErrorNotice(AccessDeniedText)];
        redirect := Some("/dashboard");
      } else {
        redirect := None;
      }
    }

    /** The initial fetch of all three collections; all are applied together or none. */
    method Load(response: Response<Collections>)
      modifies this`engineers, this`projects, this`assignments, this`initialLoading, this`notices
      ensures !initialLoading
      ensures response.Ok? ==> engineers == response.value.engineers && projects == response.value.projects
                               && assignments == response.value.assignments && notices == old(notices)
      ensures response.Failed? ==> engineers == old(engineers) && projects == old(projects)
                                   && assignments == old(assignments)
                                   && notices == old(notices) + [ErrorNotice(LoadFailedText)]
    {
      initialLoading := true;
      match response {
        case Ok(c) =>
          engineers, projects, assignments := c.engineers, c.projects, c.assignments;
        case Failed(_) =>
          notices := notices + [ErrorNotice(LoadFailedText)];
      }
      initialLoading := false;
    }

    /** The refresh button: like the initial fetch, plus a success notice. */
    method Refresh(response: Response<Collections>)
      modifies this`engineers, this`projects, this`assignments, this`initialLoading, this`notices
      ensures !initialLoading
      ensures response.Ok? ==> engineers == response.value.engineers && projects == response.value.projects
                               && assignments == response.value.assignments
                               && notices == old(notices) + [SuccessNotice(RefreshedText)]
      ensures response.Failed? ==> engineers == old(engineers) && projects == old(projects)
                                   && assignments == old(assignments)
                                   && notices == old(notices) + [ErrorNotice(RefreshFailedText)]
    {
      initialLoading := true;
      match response {
        case Ok(c) =>
          engineers, projects, assignments := c.engineers, c.projects, c.assignments;
          notices := notices + [SuccessNotice(RefreshedText)];
        case Failed(_) =>
          notices := notices + [ErrorNotice(RefreshFailedText)];
      }
      initialLoading := false;
    }

    /** The "New Assignment" / "Cancel" button. */
    method ToggleForm()
      modifies this`showForm
      ensures showForm == !old(showForm)
    {
      showForm := !showForm;
    }

    /** Submitting the form. A form the schema rejects sends nothing and changes
        nothing. Otherwise one create request is sent; its response either
        appends the created assignment once at the end, resets and hides the
        form and shows one success notice, or leaves list and form alone and
        shows one error notice. */
    method Submit(data: AssignmentForm, response: Response<Assignment>) returns (request: Option<CreateRequest>)
      modifies this`assignments, this`loading, this`form, this`showForm, this`notices
      ensures SchemaErrors(data) != [] ==>
                request.None? && assignments == old(assignments) && loading == old(loading)
                && form == old(form) && showForm == old(showForm) && notices == old(notices)
      ensures SchemaErrors(data) == [] ==> request == Some(RequestOf(data)) && !loading
      ensures SchemaErrors(data) == [] && response.Ok? ==>
              assignments == old(assignments) + [response.value] && form == DefaultForm && !showForm
              && notices == old(notices) + [SuccessNotice(CreatedText)]
      ensures SchemaErrors(data) == [] && response.Failed? ==>
              assignments == old(assignments) && form == old(form) && showForm == old(showForm)
              && notices == old(notices) + [ErrorNotice(FailureText(response.serverMessage, CreateFailedText))]
    {
      if SchemaErrors(data) != [] {
        request := None;
        return;
      }
      loading := true;
      request := Some(RequestOf(data));
      match response {
        case Ok(created) =>
          assignments := assignments + [created];
          notices := notices + [SuccessNotice(CreatedText)];
          form := DefaultForm;
          showForm := false;
        case Failed(m) =>
          notices := notices + [ErrorNotice(FailureText(m, CreateFailedText))];
      }
      loading := false;
    }

    /** Deleting one assignment: on success the entries with that id go and the
        rest keep their order; on failure the list is untouched. Either way
        exactly one notice. */
    method Delete(id: string, response: Response<()>)
      modifies this`assignments, this`notices
      ensures response.Ok? ==> assignments == RemoveById(old(assignments), id)
                               && notices == old(notices) + [SuccessNotice(DeletedText)]
      ensures response.Failed? ==>
                assignments == old(assignments)
                && notices == old(notices) + [ErrorNotice(FailureText(response.serverMessage, DeleteFailedText))]
      ensures |notices| == |old(notices)| + 1
    {
      match response
      case Ok(_) =>
        assignments := RemoveById(assignments, id);
        notices := notices + [SuccessNotice(DeletedText)];
      case Failed(m) =>
        notices := notices + [ErrorNotice(FailureText(m, DeleteFailedText))];
    }

    /** The edit sheet's callback with the updated assignment. */
    method OnUpdate(updated: Assignment)
      modifies this`assignments
      ensures assignments == ReplaceById(old(assignments), updated)
      ensures |assignments| == |old(assignments)|
    {
      assignments := ReplaceById(assignments, updated);
    }
  }
}
