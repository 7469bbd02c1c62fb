/** The project creation screen: the required-skills editor, the submit guard
    chain and the normalisation of the payload sent to the project service. */
module CreateProjectScreen {
  import opened Basics
  import opened Seqs
  import opened Text
  import opened Entities
  import opened RoleGate

  const AccessDeniedText: string := "Access denied. Only managers can create projects."
  const MissingFieldsText: string := "Project name and start date are required."
  const MissingUserIdText: string := "User ID not found. Please log in again."
  const CreatedText: string := "Project created successfully!"
  const CreateFailedText: string := "Failed to create project. Please try again."

  /** The form values; `teamSize` is `None` when the number input parses to NaN. */
  datatype ProjectForm = ProjectForm(
    name: string,
    description: string,
    startDate: string,
    endDate: string,
    teamSize: Option<int>,
    requiredSkills: seq<string>,
    status: string)

  const DefaultForm: ProjectForm := ProjectForm("", "", "", "", Some(1), [], "planning")

  /** The body of the create call. */
  datatype ProjectPayload = ProjectPayload(
    name: string,
    description: Option<string>,
    startDate: string,
    endDate: Option<string>,
    teamSize: int,
    requiredSkills: seq<string>,
    managerId: string,
    status: string)

  /** Why a submit stops before the create call. */
  datatype Rejection = NotManager | MissingNameOrStart | MissingUserId

  function RejectionText(r: Rejection): (t: string)
    ensures t == AccessDeniedText <==> r.NotManager?
    ensures t == MissingFieldsText <==> r.MissingNameOrStart?
    ensures t == MissingUserIdText <==> r.MissingUserId?
  {
    match r
    case NotManager => AccessDeniedText
    case MissingNameOrStart => MissingFieldsText
    case MissingUserId => MissingUserIdText
  }

  /** `s || undefined`: the empty string is sent as an absent field. */
  function OrAbsent(s: string): (o: Option<string>)
    ensures o.None? <==> s == ""
    ensures o.Some? ==> o.value == s
  {
    if s == "" then None else Some(s)
  }

  /** `teamSize || 1`: NaN and 0 fall back to 1, any other number is kept. */
  function TeamSizeOrOne(t: Option<int>): (n: int)
    ensures n != 0
    ensures t.Some? && t.value != 0 ==> n == t.value
    ensures t.None? || t.value == 0 ==> n == 1
  {
    if t.Some? && t.value != 0 then t.value else 1
  }

  /** The submit handler's guards, in order, then the payload. */
  function SubmitDecision(u: Option<User>, f: ProjectForm): (r: Result<ProjectPayload, Rejection>)
    ensures r == Failure(NotManager) <==> !IsManager(u)
    ensures r == Failure(MissingNameOrStart) <==> IsManager(u) && (f.name == "" || f.startDate == "")
    ensures r == Failure(MissingUserId) <==>
              IsManager(u) && f.name != "" && f.startDate != "" && u.value.id == ""
    ensures r.Success? ==>
              r.value.name == f.name && r.value.startDate == f.startDate
              && r.value.description == OrAbsent(f.description) && r.value.endDate == OrAbsent(f.endDate)
              && r.value.teamSize == TeamSizeOrOne(f.teamSize) && r.value.requiredSkills == f.requiredSkills
              && r.value.managerId == u.value.id && r.value.status == f.status
  {
    if u.None? || u.value.role != ManagerRole then Failure(NotManager)
    else if f.name == "" || f.startDate == "" then Failure(MissingNameOrStart)
    else if u.value.id == "" then Failure(MissingUserId)
    else Success(ProjectPayload(f.name, OrAbsent(f.description), f.startDate, OrAbsent(f.endDate),
                                TeamSizeOrOne(f.teamSize), f.requiredSkills, u.value.id, f.status))
  }

  /** Whatever the form holds, an accepted payload carries no empty string and
      no zero team size, and it names the submitting manager. */
  lemma AcceptedPayloadIsComplete(u: Option<User>, f: ProjectForm)
    requires SubmitDecision(u, f).Success?
    ensures var p := SubmitDecision(u, f).value;
      p.name != "" && p.startDate != "" && p.managerId != "" && p.teamSize != 0
      && (p.description.Some? ==> p.description.value != "")
      && (p.endDate.Some? ==> p.endDate.value != "")
      && IsManager(u) && p.managerId == u.value.id
  {
  }

  /** The defaults submitted unchanged by a manager are rejected for the
      missing name and start date. */
  lemma DefaultFormNeedsNameAndStart(u: Option<User>)
    requires IsManager(u)
    ensures SubmitDecision(u, DefaultForm) == Failure(MissingNameOrStart)
  {
  }

  /** A skill list the editor can produce: no duplicates, and every entry
      trimmed and non-empty. */
  predicate WellFormedSkills(skills: seq<string>)
  {
    (forall i :: 0 <= i < |skills| ==> skills[i] != "" && IsTrimmed(skills[i]))
    && (forall i, j :: 0 <= i < j < |skills| ==> skills[i] != skills[j])
  }

  /** The editor's state: the skill list and the text in the input box. */
  datatype SkillEditor = SkillEditor(skills: seq<string>, input: string)

  /** `addSkill`: append the trimmed input when it is non-empty and new, and
      clear the box; otherwise nothing changes. */
  function SkillAdded(e: SkillEditor): (r: SkillEditor)
    ensures Trim(e.input) == "" || Trim(e.input) in e.skills ==> r == e
    ensures Trim(e.input) != "" && Trim(e.input) !in e.skills ==>
              r.skills == e.skills + [Trim(e.input)] && r.input == ""
  {
    var t := Trim(e.input);
    if t != "" && t !in e.skills then SkillEditor(e.skills + [t], "") else e
  }

  /** `removeSkill`: keep every entry different from the removed one, so
      every occurrence goes and the rest stay in order. */
  function SkillRemoved(skills: seq<string>, skill: string): (r: seq<string>)
    ensures skill !in r
    ensures forall x :: x in r <==> x in skills && x != skill
    ensures IsSubsequence(r, skills)
  {
    var p := (s: string) => s != skill;
    FilterSelects(skills, p);
    Filter(skills, p)
  }

  lemma AddSkillKeepsWellFormed(e: SkillEditor)
    requires WellFormedSkills(e.skills)
    ensures WellFormedSkills(SkillAdded(e).skills)
  {
    var t := Trim(e.input);
    if t != "" && t !in e.skills {
      var r := e.skills + [t];
      forall i, j | 0 <= i < j < |r| ensures r[i] != r[j] {
        if j == |e.skills| {
          assert r[i] == e.skills[i];
        }
      }
    }
  }

  /** Pressing add twice is the same as pressing it once. */
  lemma AddSkillIdempotent(e: SkillEditor)
    ensures SkillAdded(SkillAdded(e)) == SkillAdded(e)
  {
    var t := Trim(e.input);
    if t != "" && t !in e.skills {
      assert Trim("") == "";
    }
  }

  lemma RemoveSkillKeepsWellFormed(skills: seq<string>, skill: string)
    requires WellFormedSkills(skills)
    ensures WellFormedSkills(SkillRemoved(skills, skill))
  {
    FilterIsSubsequence(skills, s => s != skill);
    SubsequenceKeepsWellFormed(SkillRemoved(skills, skill), skills);
  }

  lemma {:induction false} SubsequenceKeepsWellFormed(ys: seq<string>, xs: seq<string>)
    requires IsSubsequence(ys, xs) && WellFormedSkills(xs)
    ensures WellFormedSkills(ys)
  {
    if ys != [] {
      assert xs != [];
      assert WellFormedSkills(xs[1..]) by {
        forall i, j | 0 <= i < j < |xs[1..]| ensures xs[1..][i] != xs[1..][j] {
          assert xs[1..][i] == xs[i + 1] && xs[1..][j] == xs[j + 1];
        }
      }
      if ys[0] == xs[0] && IsSubsequence(ys[1..], xs[1..]) {
        SubsequenceKeepsWellFormed(ys[1..], xs[1..]);
        SubsequenceMembers(ys[1..], xs[1..]);
        forall j | 0 < j < |ys| ensures ys[0] != ys[j] {
          assert ys[j] == ys[1..][j - 1];
          assert ys[j] in xs[1..];
          var k :| 0 <= k < |xs[1..]| && xs[1..][k] == ys[j];
          assert xs[k + 1] == ys[j];
        }
      } else {
        SubsequenceKeepsWellFormed(ys, xs[1..]);
      }
    }
  }

  /** Adding a new skill and then removing it restores the list. */
  lemma RemoveUndoesAdd(e: SkillEditor)
    requires Trim(e.input) != "" && Trim(e.input) !in e.skills
    ensures SkillRemoved(SkillAdded(e).skills, Trim(e.input)) == e.skills
  {
    var t := Trim(e.input);
    FilterAppend(e.skills, [t], s => s != t);
    FilterKeepsAll(e.skills, s => s != t);
    FilterDropsAll([t], s => s != t);
  }

  /** The screen's own state: the form, the skill input box, the submit flag,
      the notices shown and the route navigated to. */
  class CreateProjectPage {
    var form: ProjectForm
    var newSkill: string
    var loading: bool
    var notices: seq<Notice>
    var navigatedTo: Option<string>

    /** The skills the form holds are always ones the editor could produce. */
    predicate Valid()
      reads this
    {
      WellFormedSkills(form.requiredSkills)
    }

    constructor ()
      ensures Valid()
      ensures form == DefaultForm && newSkill == "" && !loading
      ensures notices == [] && navigatedTo.None?
    {
      form, newSkill, loading := DefaultForm, "", false;
      notices, navigatedTo := [], None;
    }

    /** The mount effect: a present non-manager is sent to the dashboard. */
    method CheckAccess(u: Option<User>)
      modifies this`notices, this`navigatedTo
      ensures AccessDenied(u) ==>
                notices == old(notices) + [ErrorNotice(AccessDeniedText)] && navigatedTo == Some("/dashboard")
      ensures !AccessDenied(u) ==> notices == old(notices) && navigatedTo == old(navigatedTo)
    {
      if AccessDenied(u) {
        notices := notices + [ErrorNotice(AccessDeniedText)];
        navigatedTo := Some("/dashboard");
      }
    }

    method EditNewSkill(text: string)
      modifies this`newSkill
      ensures newSkill == text
    {
      newSkill := text;
    }

    /** The plain form inputs; the skill list is only changed by the editor. */
    method EditFields(name: string, description: string, startDate: string, endDate: string,
                      teamSize: Option<int>, status: string)
      requires Valid()
      modifies this`form
      ensures Valid()
      ensures form == ProjectForm(name, description, startDate, endDate, teamSize,
                                  old(form.requiredSkills), status)
    {
      form := ProjectForm(name, description, startDate, endDate, teamSize, form.requiredSkills, status);
    }

    method AddSkill()
      requires Valid()
      modifies this`form, this`newSkill
      ensures Valid()
      ensures SkillEditor(form.requiredSkills, newSkill)
              == SkillAdded(SkillEditor(old(form.requiredSkills), old(newSkill)))
      ensures form == old(form).(requiredSkills := form.requiredSkills)
    {
      var t := Trim(newSkill);
      if t != "" && t !in form.requiredSkills {
        AddSkillKeepsWellFormed(SkillEditor(form.requiredSkills, newSkill));
        form := form.(requiredSkills := form.requiredSkills + [t]);
        newSkill := "";
      }
    }

    method RemoveSkill(skill: string)
      requires Valid()
      modifies this`form
      ensures Valid()
      ensures form == old(form).(requiredSkills := SkillRemoved(old(form.requiredSkills), skill))
    {
      RemoveSkillKeepsWellFormed(form.requiredSkills, skill);
      form := form.(requiredSkills := SkillRemoved(form.requiredSkills, skill));
    }

    /** The submit handler. A rejected submit shows its one error and sends
        nothing; an accepted one sends the payload and reports the outcome. */
    method Submit(u: Option<User>, response: Response<()>) returns (sent: Option<ProjectPayload>)
      modifies this`loading, this`notices, this`navigatedTo
      ensures !loading
      ensures sent.Some? <==> SubmitDecision(u, form).Success?
      ensures sent.Some? ==> sent.value == SubmitDecision(u, form).value
      ensures SubmitDecision(u, form).Failure? ==>
                notices == old(notices) + [ErrorNotice(RejectionText(SubmitDecision(u, form).error))]
                && navigatedTo == old(navigatedTo)
      ensures sent.Some? && response.Ok? ==>
                notices == old(notices) + [SuccessNotice(CreatedText)] && navigatedTo == Some("/projects")
      ensures sent.Some? && response.Failed? ==>
                notices == old(notices) + [ErrorNotice(FailureText(response.serverMessage, CreateFailedText))]
                && navigatedTo == old(navigatedTo)
    {
      loading := true;
      var decision := SubmitDecision(u, form);
      match decision {
        case Failure(why) =>
          notices := notices + [ErrorNotice(RejectionText(why))];
          sent := None;
        case Success(payload) =>
          sent := Some(payload);
          match response {
            case Ok(_) =>
              notices := notices + [SuccessNotice(CreatedText)];
              navigatedTo := Some("/projects");
            case Failed(m) =>
              notices := notices + [ErrorNotice(FailureText(m, CreateFailedText))];
          }
      }
      loading := false;
    }
  }
}
