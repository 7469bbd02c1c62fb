# Engineer management front end — verified model of the screen logic

This project models the logic inside the React screens of an engineering
resource manager: managers assign engineers to projects, and engineers see
their own assignments. Every screen is mostly fetching and markup, but each
holds a small layer of decisions. The model covers that layer:

- the role gate (who sees edit/delete, the read-only view, the create links, the access-denied notice);
- the case-insensitive search filters;
- the derived numbers (counts, uncapped totals, averages rounded like `Math.round`, utilisation, progress);
- the list patches after a create, an update or a delete;
- the form logic (the assignment schema, the project-creation guard chain and payload, the required-skills editor, the comma-separated skills field);
- the small classifiers (status and seniority badges, skill icons by first match, initials, skill-chip truncation).

Screens whose handlers update component state in place (the assignment list,
the assignment detail, the project creation form and the project list) are
classes whose methods are those handlers. The other screens are functions from
the state before to the state after, plus pure functions for what they show.
Service responses are parameters (`Response<T>`: a value, or a failure that
may carry the server's message). Toasts are kept as a list of notices, and
navigation as the route navigated to.

Modules, one per file:

- `Basics` holds `Option`, `Response`, `Result`, `Notice` and the server-message fallback.
- `Seqs` holds filter, count, sum and subsequence.
- `Text` holds ASCII lower/upper case, `includes`, `trim`, `split` and `join`.
- `Rounding` holds `Math.round` of a quotient.
- `Entities` holds the records.
- `RoleGate` holds the role predicates and affordances.
- `Search` holds the search filters.
- `Classifiers` holds the badges, skill icons and chips.
- `AllocationMetrics` holds the allocation total and average.
- Each screen has one module: `AssignmentsScreen`, `AssignmentDetailScreen`, `CreateProjectScreen`, `ProfileScreen`, `ProjectDetailScreen`, `EngineerDashboardScreen`, `DashboardScreen`, `EngineerDetailScreen`, `EngineerListScreen` and `ProjectsScreen`.

## Model

Source paths are relative to the repository root.

| member | source | states |
|---|---|---|
| Basics.FailureText | frontend/src/components/screens/Assignments/Assignments.tsx:124 | the server's message is shown when present and non-empty; otherwise the screen's fallback text |
| Rounding.RoundDiv | frontend/src/components/screens/Assignments/Assignments.tsx:168-170 | `Math.round(s/n)` for positive n is the unique r with 2nr - n <= 2s < 2nr + n (halves round up) |
| Rounding.RoundDivUnique | frontend/src/components/screens/Assignments/Assignments.tsx:168-170 | any r inside that bracket is the rounded quotient, so the rounding is determined |
| Rounding.AverageBounds | frontend/src/components/screens/Assignments/Assignments.tsx:168-170 | a rounded average of values in lo..hi lies in lo..hi |
| Rounding.AverageOfConstant | frontend/src/components/screens/Assignments/Assignments.tsx:168-170 | the average of n equal values is that value |
| Text.IncludesIff | frontend/src/components/screens/Assignments/Assignments.tsx:161-163 | `includes` holds exactly when the needle occurs at some position |
| Text.Trim | frontend/src/components/screens/Projects/CreateProject.tsx:69 | `trim` yields a string with no whitespace at either end that is a slice of the input with only whitespace cut off |
| Text.TrimSpacePrefix | frontend/src/components/screens/Profile/Profile.tsx:84 | trimming removes any whitespace in front of an already trimmed string |
| Text.SplitAtFirst | frontend/src/components/screens/Profile/Profile.tsx:84 | `split` cuts at the first separator; the part before it is the first piece |
| Text.JoinSplit | frontend/src/components/screens/Profile/Profile.tsx:84 | joining the pieces of a split with the separator gives the original string back |
| RoleGate.ManagerNeverAssigned | frontend/src/components/screens/Assignments/AssignmentDetail.tsx:127-129 | a manager is never the assigned engineer |
| RoleGate.Controls | frontend/src/components/screens/Assignments/AssignmentDetail.tsx:155-177 | edit/delete appear in the header and the sidebar only for a manager; the Actions card appears for a manager or the assigned engineer; the assigned-engineer message appears only for an engineer whose id is the assignment's, never with edit/delete |
| RoleGate.DetailAffordance | frontend/src/components/screens/Assignments/AssignmentDetail.tsx:379-410 | manager gives edit/delete, the assigned engineer gives view-only, anyone else gives no actions; each holds in both directions |
| RoleGate.GateByOwner | frontend/src/components/screens/Assignments/AssignmentDetail.tsx:127-129 | an engineer gets view-only exactly on their own assignment; a manager always gets edit/delete |
| RoleGate.AccessDenied | frontend/src/components/screens/Assignments/Assignments.tsx:63 | only a present user whose role is not "manager" is denied; an absent user is not |
| RoleGate.ShowManagerLinks | frontend/src/components/screens/Dashboard/Dashboard.tsx:263-278 | "View All" and "Create Project" render exactly for a manager |
| RoleGate.BackTarget | frontend/src/components/screens/Assignments/AssignmentDetail.tsx:138 | back goes to /my-assignments for an engineer, /assignments for everyone else |
| Search.FieldMatchesIff | frontend/src/components/screens/Assignments/Assignments.tsx:161-163 | a field matches exactly when the lower-cased term occurs in the lower-cased field |
| Search.AssignmentMatches | frontend/src/components/screens/Assignments/Assignments.tsx:160-164 | the empty term matches every assignment (its role is always present); with neither engineer nor project snapshot an assignment matches exactly when the term occurs in its role |
| Search.EmptyTermKeepsList | frontend/src/components/screens/Engineer/Engineer.tsx:60-63 | with an empty term both filters return the whole list |
| Search.RoleOccurrenceMatches | frontend/src/components/screens/Assignments/Assignments.tsx:163 | a term occurring in the role, ignoring case, makes the assignment match |
| Search.TermCaseInsensitive | frontend/src/components/screens/Assignments/Assignments.tsx:160-164 | lower-casing the term never changes either filter's verdict |
| Search.FilterAssignments | frontend/src/components/screens/Assignments/Assignments.tsx:160-164 | an order-preserving subsequence of the list that holds an assignment exactly when it is in the list and matches |
| Search.EngineerMatches | frontend/src/components/screens/Engineer/Engineer.tsx:60-63 | the empty term matches every engineer (the name is always present); an engineer without skills matches exactly when the term occurs in the name |
| Search.FilterEngineers | frontend/src/components/screens/Engineer/Engineer.tsx:60-63 | an order-preserving subsequence of the list that holds an engineer exactly when it is in the list and matches |
| Classifiers.BucketOf | frontend/src/components/screens/Projects/Projects.tsx:46-53 | each known status gets its own bucket, in both directions; everything else is unknown |
| Classifiers.StatusTone | frontend/src/components/screens/Projects/ProjectDetail.tsx:88-95 | the grey default colour is used exactly for an unknown status |
| Classifiers.StatusIcon | frontend/src/components/screens/Projects/Projects.tsx:55-62 | an unknown status gets the screen's default icon |
| Classifiers.StatusIconsDistinct | frontend/src/components/screens/Projects/CreateProject.tsx:130-137 | with each screen's default (file, alert, building), a known status never shows the default; icons and colours agree exactly when buckets agree |
| Classifiers.ProgressPercentage | frontend/src/components/screens/Projects/ProjectDetail.tsx:109 | 100 exactly for completed, 65 exactly for active, 25 otherwise |
| Classifiers.RoleTone | frontend/src/components/screens/Profile/Profile.tsx:110-112 | the manager style exactly for "manager", the engineer style for every other role |
| Classifiers.ProfileSeniorityTone | frontend/src/components/screens/Profile/Profile.tsx:114-120 | the default colour exactly for values other than "senior" and "mid", "junior" included |
| Classifiers.ProfileSeniorityIcon | frontend/src/components/screens/Profile/Profile.tsx:122-128 | the default icon exactly for values other than "senior" and "mid", and exactly where the colour is the default |
| Classifiers.DashboardSeniorityTone | frontend/src/components/screens/Dashboard/Dashboard.tsx:79-86 | grey exactly for a missing seniority or one outside senior, mid and junior |
| Classifiers.SkillChips | frontend/src/components/screens/Dashboard/Dashboard.tsx:229-238 | the first min(3, n) skills are shown, a "+(n-3) more" badge appears exactly when n > 3, and shown plus hidden is n |
| Classifiers.FirstMatch | frontend/src/components/screens/EngineerDashboard/EngineerDashboard.tsx:71-103 | the category is that of the first rule, in order, with a matching keyword, and no earlier rule matches; the default applies only when none matches |
| Classifiers.ReactNativeIsCode | frontend/src/components/screens/EngineerDashboard/EngineerDashboard.tsx:74-83 | a skill containing "react native" is classified as code, never mobile |
| Classifiers.SkillIcon | frontend/src/components/screens/EngineerDashboard/EngineerDashboard.tsx:71-103 | the default icon exactly when no branch has a keyword in the lower-cased skill; otherwise the category of the first branch, in source order, that has one |
| AllocationMetrics.TotalAllocation | frontend/src/components/screens/Assignments/Assignments.tsx:169 | the uncapped sum: 0 for no assignments, and between n and 100n for n allocations in 1..100 |
| AllocationMetrics.AvgAllocation | frontend/src/components/screens/Assignments/Assignments.tsx:168-170 | 0 for an empty list; otherwise the total divided by the count, rounded half up |
| AllocationMetrics.AvgAllocationBounds | frontend/src/components/screens/Assignments/Assignments.tsx:168-170 | 0 for an empty list; with every allocation in 1..100 the rounded average is in 1..100 |
| AllocationMetrics.TotalOfEqualAllocations | frontend/src/components/screens/Projects/ProjectDetail.tsx:106 | n assignments of p% each total n times p, with no cap (two of 60% total 120) |
| AllocationMetrics.TotalAllocationAppend | frontend/src/components/screens/EngineerDashboard/EngineerDashboard.tsx:63 | the total of a concatenation is the sum of the totals |
| AssignmentsScreen.SchemaErrors | frontend/src/components/screens/Assignments/Assignments.tsx:38-45 | the form is valid exactly when engineer, project, start date and role are non-empty and the allocation is a number in 1..100; the allocation and role errors are each reported exactly when their rule fails |
| AssignmentsScreen.RequestOf | frontend/src/components/screens/Assignments/Assignments.tsx:109-116 | the create request carries the form's fields, and an empty end date is sent as absent |
| AssignmentsScreen.AllocationRange | frontend/src/components/screens/Assignments/Assignments.tsx:41 | an otherwise valid form is rejected at 150% and accepted at 100% |
| AssignmentsScreen.RemoveById | frontend/src/components/screens/Assignments/Assignments.tsx:133 | delete keeps an order-preserving subsequence holding exactly the entries with another id |
| AssignmentsScreen.RemoveMissingIdKeepsList | frontend/src/components/screens/Assignments/Assignments.tsx:133 | deleting an id that no entry carries leaves the list unchanged |
| AssignmentsScreen.ReplaceById | frontend/src/components/screens/Assignments/Assignments.tsx:502-505 | an update keeps the list's length |
| AssignmentsScreen.ReplaceByIdAt | frontend/src/components/screens/Assignments/Assignments.tsx:502-505 | position by position, an entry with the updated id becomes the update and every other entry is unchanged |
| AssignmentsScreen.ReplaceByIdKeepsIds | frontend/src/components/screens/Assignments/Assignments.tsx:502-505 | an update keeps every position's id |
| AssignmentsScreen.ActiveAssignments | frontend/src/components/screens/Assignments/Assignments.tsx:167 | the active count never exceeds the total |
| AssignmentsScreen.ActiveAssignmentsCounted | frontend/src/components/screens/Assignments/Assignments.tsx:167 | an assignment is counted exactly when it is in the list and its project snapshot has a non-empty name; all named gives the length, none named gives 0 |
| AssignmentsScreen.AppendMetrics | frontend/src/components/screens/Assignments/Assignments.tsx:119-170 | appending a created assignment adds one to the total and its allocation to the sum, and at most one to the active count |
| AssignmentsScreen.AssignmentsPage.constructor | frontend/src/components/screens/Assignments/Assignments.tsx:48-78 | empty lists, initial spinner, form hidden, empty search, default form (allocation 100) |
| AssignmentsScreen.AssignmentsPage.Visible | frontend/src/components/screens/Assignments/Assignments.tsx:160-164 | the rendered rows are an order-preserving subsequence holding exactly the matching assignments; an empty search shows them all |
| AssignmentsScreen.AssignmentsPage.CheckAccess | frontend/src/components/screens/Assignments/Assignments.tsx:60-67 | a present non-manager gets one error and is redirected to /dashboard; anyone else gets nothing |
| AssignmentsScreen.AssignmentsPage.Load | frontend/src/components/screens/Assignments/Assignments.tsx:81-104 | success replaces the three lists; failure keeps them and adds one error; the spinner stops either way |
| AssignmentsScreen.AssignmentsPage.Refresh | frontend/src/components/screens/Assignments/Assignments.tsx:140-158 | as the load, with a success notice on success |
| AssignmentsScreen.AssignmentsPage.ToggleForm | frontend/src/components/screens/Assignments/Assignments.tsx:203 | the form's visibility flips and nothing else changes |
| AssignmentsScreen.AssignmentsPage.Submit | frontend/src/components/screens/Assignments/Assignments.tsx:106-128 | an invalid form sends nothing; a success appends the returned assignment once at the end, resets and hides the form; a failure changes no list and shows one error |
| AssignmentsScreen.AssignmentsPage.Delete | frontend/src/components/screens/Assignments/Assignments.tsx:130-138 | success removes exactly the entries with that id; failure keeps the list and shows one error |
| AssignmentsScreen.AssignmentsPage.OnUpdate | frontend/src/components/screens/Assignments/Assignments.tsx:502-505 | the list becomes the replace-by-id of the update |
| AssignmentDetailScreen.ProjectLabel | frontend/src/components/screens/Assignments/AssignmentDetail.tsx:426 | a missing or empty project name shows "Unknown Project" |
| AssignmentDetailScreen.EngineerLabel | frontend/src/components/screens/Assignments/AssignmentDetail.tsx:434 | a missing or empty engineer name shows "Unknown Engineer" |
| AssignmentDetailScreen.SkillsCount | frontend/src/components/screens/Assignments/AssignmentDetail.tsx:205 | the skills count falls back to 0 when the engineer or the skills are missing |
| AssignmentDetailScreen.AssignmentDetailPage.constructor | frontend/src/components/screens/Assignments/AssignmentDetail.tsx:31-33 | no assignment, the spinner on, the given user, no notices and no navigation |
| AssignmentDetailScreen.AssignmentDetailPage.CurrentView | frontend/src/components/screens/Assignments/AssignmentDetail.tsx:96-125 | spinner while loading, "not found" without an assignment, the details otherwise |
| AssignmentDetailScreen.AssignmentDetailPage.Load | frontend/src/components/screens/Assignments/AssignmentDetail.tsx:41-63 | without a route id: one error, navigation to /assignments, no fetch, spinner kept; a success stores the assignment; a failure shows one error and navigates back |
| AssignmentDetailScreen.AssignmentDetailPage.HandleDelete | frontend/src/components/screens/Assignments/AssignmentDetail.tsx:65-80 | unless an assignment is loaded and the user is a manager: one error and no call; the call happens exactly when also confirmed; success navigates to /assignments |
| AssignmentDetailScreen.AssignmentDetailPage.OnUpdate | frontend/src/components/screens/Assignments/AssignmentDetail.tsx:88-91 | the held assignment becomes the updated one, with one success notice |
| CreateProjectScreen.SubmitDecision | frontend/src/components/screens/Projects/CreateProject.tsx:84-112 | the guards in order (non-manager or no user, then empty name or start date, then empty user id), each in both directions; an accepted payload keeps name, start date, skills and status, sends empty description and end date as absent, a falsy team size as 1, and the user's id as manager |
| CreateProjectScreen.RejectionText | frontend/src/components/screens/Projects/CreateProject.tsx:84-99 | each rejection has its own message, in both directions: access denied, missing name or start date, missing user id |
| CreateProjectScreen.OrAbsent | frontend/src/components/screens/Projects/CreateProject.tsx:105-107 | an empty text is sent as absent, any other text as itself |
| CreateProjectScreen.AcceptedPayloadIsComplete | frontend/src/components/screens/Projects/CreateProject.tsx:84-112 | an accepted payload has no empty required field, no empty optional field, a non-zero team size, and names the submitting manager |
| CreateProjectScreen.DefaultFormNeedsNameAndStart | frontend/src/components/screens/Projects/CreateProject.tsx:54-64 | a manager submitting the untouched defaults is stopped by the name/start-date guard |
| CreateProjectScreen.TeamSizeOrOne | frontend/src/components/screens/Projects/CreateProject.tsx:108 | NaN and 0 become 1; any other number is kept |
| CreateProjectScreen.SkillAdded | frontend/src/components/screens/Projects/CreateProject.tsx:68-74 | the trimmed input is appended and the box cleared when it is non-empty and new; otherwise neither list nor box changes |
| CreateProjectScreen.AddSkillKeepsWellFormed | frontend/src/components/screens/Projects/CreateProject.tsx:69-70 | adding keeps the list free of duplicates, empty and untrimmed entries |
| CreateProjectScreen.AddSkillIdempotent | frontend/src/components/screens/Projects/CreateProject.tsx:69 | adding twice equals adding once |
| CreateProjectScreen.SkillRemoved | frontend/src/components/screens/Projects/CreateProject.tsx:76-79 | removal drops every occurrence of the skill and keeps every other entry, in order |
| CreateProjectScreen.RemoveSkillKeepsWellFormed | frontend/src/components/screens/Projects/CreateProject.tsx:76-79 | removal keeps the list well formed |
| CreateProjectScreen.RemoveUndoesAdd | frontend/src/components/screens/Projects/CreateProject.tsx:68-79 | removing a skill just added restores the list |
| CreateProjectScreen.CreateProjectPage.constructor | frontend/src/components/screens/Projects/CreateProject.tsx:54-64 | the defaults: team size 1, no skills, status "planning", empty texts |
| CreateProjectScreen.CreateProjectPage.CheckAccess | frontend/src/components/screens/Projects/CreateProject.tsx:46-52 | a present non-manager gets one error and goes to /dashboard |
| CreateProjectScreen.CreateProjectPage.EditNewSkill | frontend/src/components/screens/Projects/CreateProject.tsx:328 | the new-skill box holds the typed text |
| CreateProjectScreen.CreateProjectPage.EditFields | frontend/src/components/screens/Projects/CreateProject.tsx:185-288 | the form fields take the edited values, the skill list is untouched and the invariant is kept |
| CreateProjectScreen.CreateProjectPage.AddSkill | frontend/src/components/screens/Projects/CreateProject.tsx:68-74 | the list and box move as the add function says; other fields and the well-formed invariant are kept |
| CreateProjectScreen.CreateProjectPage.RemoveSkill | frontend/src/components/screens/Projects/CreateProject.tsx:76-79 | the list moves as the remove function says; the invariant is kept |
| CreateProjectScreen.CreateProjectPage.Submit | frontend/src/components/screens/Projects/CreateProject.tsx:81-128 | a rejection shows its one message and sends nothing; an accepted payload is sent; success navigates to /projects; failure shows the server's message or the fallback |
| ProfileScreen.CleanPieces | frontend/src/components/screens/Profile/Profile.tsx:84 | parsed skills are never empty and always trimmed |
| ProfileScreen.ParseSkills | frontend/src/components/screens/Profile/Profile.tsx:84 | every parsed skill is non-empty, trimmed and comma-free |
| ProfileScreen.JoinSkills | frontend/src/components/screens/Profile/Profile.tsx:64 | no skills give the empty text; comma-free skills give exactly one comma-separated piece per skill |
| ProfileScreen.ParseJoin | frontend/src/components/screens/Profile/Profile.tsx:64-84 | skills that are trimmed, non-empty and comma-free survive join-then-parse unchanged |
| ProfileScreen.ParseNormalises | frontend/src/components/screens/Profile/Profile.tsx:84 | re-parsing the joined parse of any text gives the same list |
| ProfileScreen.ResetValues | frontend/src/components/screens/Profile/Profile.tsx:61-68 | seniority defaults to "junior" and capacity to 100 when missing or falsy; the department to ""; the skills to their ", " join |
| ProfileScreen.UpdateData | frontend/src/components/screens/Profile/Profile.tsx:81-88 | the update carries the form's fields with parsed, plain skills |
| ProfileScreen.ResetThenSubmit | frontend/src/components/screens/Profile/Profile.tsx:61-88 | saving a freshly reset form sends the loaded skills, name, seniority, capacity and department back |
| ProfileScreen.Initials | frontend/src/components/screens/Profile/Profile.tsx:101-108 | at most two characters |
| ProfileScreen.InitialsOfWord | frontend/src/components/screens/Profile/Profile.tsx:101-108 | one word gives its first letter, uppercased |
| ProfileScreen.InitialsOfWords | frontend/src/components/screens/Profile/Profile.tsx:101-108 | two words give their first letters, uppercased, in order, whatever follows |
| ProfileScreen.InitialsIgnoreLeadingSpace | frontend/src/components/screens/Profile/Profile.tsx:101-108 | a leading space does not change the initials |
| ProfileScreen.AvatarText | frontend/src/components/screens/Profile/Profile.tsx:156 | "U" before the profile loads, at most two initials after |
| ProjectDetailScreen.ProjectAssignments | frontend/src/components/screens/Projects/ProjectDetail.tsx:42-44 | exactly the project's assignments are kept, in order |
| ProjectDetailScreen.ProjectMetrics | frontend/src/components/screens/Projects/ProjectDetail.tsx:106-109 | team members is the list length; the average is 0 for none and otherwise the rounded quotient of the total; progress follows the status |
| ProjectDetailScreen.Load | frontend/src/components/screens/Projects/ProjectDetail.tsx:31-52 | no route id changes nothing; the project is fetched first and the assignments only after; each failure adds one error; the spinner stops |
| ProjectDetailScreen.LoadedAssignmentsBelong | frontend/src/components/screens/Projects/ProjectDetail.tsx:42-45 | after a first load every held assignment belongs to the routed project |
| ProjectDetailScreen.CurrentView | frontend/src/components/screens/Projects/ProjectDetail.tsx:57-86 | spinner while loading, "not found" without a project, details otherwise |
| ProjectDetailScreen.NoRouteIdKeepsSpinner | frontend/src/components/screens/Projects/ProjectDetail.tsx:29-33 | with no route id the spinner never goes away |
| EngineerDashboardScreen.FindById | frontend/src/components/screens/EngineerDashboard/EngineerDashboard.tsx:35-36 | none exactly when no engineer has the id; otherwise the first one that has it |
| EngineerDashboardScreen.ShouldLoad | frontend/src/components/screens/EngineerDashboard/EngineerDashboard.tsx:31 | data is fetched only for a present user with a non-empty id, never for a manager |
| EngineerDashboardScreen.EngineerAssignments | frontend/src/components/screens/EngineerDashboard/EngineerDashboard.tsx:42-43 | exactly the engineer's assignments are kept, in order |
| EngineerDashboardScreen.Load | frontend/src/components/screens/EngineerDashboard/EngineerDashboard.tsx:23-59 | nothing is fetched unless the user is an engineer with an id; the engineers come first and the assignments after; failures add one error; the spinner always stops |
| EngineerDashboardScreen.LoadShowsOnlyOwnData | frontend/src/components/screens/EngineerDashboard/EngineerDashboard.tsx:32-43 | after a first load the engineer shown and every assignment are the signed-in engineer's |
| EngineerDashboardScreen.TotalSkills | frontend/src/components/screens/EngineerDashboard/EngineerDashboard.tsx:68 | 0 without an engineer, the skills count otherwise |
| EngineerDashboardScreen.AvailableCapacity | frontend/src/components/screens/EngineerDashboard/EngineerDashboard.tsx:69 | 100 when the engineer is missing or the availability is 0; the availability otherwise |
| DashboardScreen.Load | frontend/src/components/screens/Dashboard/Dashboard.tsx:37-59 | both lists are replaced only when both requests succeed; otherwise neither changes and one error shows |
| DashboardScreen.ActiveProjectsCounted | frontend/src/components/screens/Dashboard/Dashboard.tsx:91 | a project is counted exactly when its status is "active"; all active gives the length, none gives 0 |
| DashboardScreen.ActiveProjects | frontend/src/components/screens/Dashboard/Dashboard.tsx:91 | never more than the number of projects |
| DashboardScreen.UsedCapacity | frontend/src/components/screens/Dashboard/Dashboard.tsx:92 | an engineer's allocation is 0 exactly when fully available, 100 exactly when nothing is available, and in 0..100 while the availability is |
| DashboardScreen.TotalUsed | frontend/src/components/screens/Dashboard/Dashboard.tsx:92 | 0 for no engineers; between 0 and 100 per engineer when every availability is in 0..100 |
| DashboardScreen.AvgUsed | frontend/src/components/screens/Dashboard/Dashboard.tsx:93 | 0 with no engineers; otherwise the total divided by the count, rounded half up |
| DashboardScreen.TotalUsedIsCapacityLessAvailable | frontend/src/components/screens/Dashboard/Dashboard.tsx:92 | the total allocation is 100 per engineer less the summed availability |
| DashboardScreen.AvgUsedBounds | frontend/src/components/screens/Dashboard/Dashboard.tsx:93 | 0 with no engineers; within 0..100 when every availability is |
| DashboardScreen.FullyBookedTeam | frontend/src/components/screens/Dashboard/Dashboard.tsx:92-93 | a team with nothing available averages 100 |
| EngineerDetailScreen.Utilization | frontend/src/components/screens/EngineerDetail/EngineerDetail.tsx:94-96 | 0 when the total is not positive; otherwise the rounded used * 100 / total |
| EngineerDetailScreen.UtilizationBounds | frontend/src/components/screens/EngineerDetail/EngineerDetail.tsx:94-96 | used within 0..total gives 0..100, exactly 0 for nothing used and 100 for everything used |
| EngineerDetailScreen.Placeholder | frontend/src/components/screens/EngineerDetail/EngineerDetail.tsx:41-50 | id and availability come from the capacity; role "engineer", no skills and fixed placeholder name and email |
| EngineerDetailScreen.Load | frontend/src/components/screens/EngineerDetail/EngineerDetail.tsx:31-61 | no route id changes nothing; a capacity record sets it and the placeholder; a missing record or a failure shows one error |
| EngineerDetailScreen.CurrentView | frontend/src/components/screens/EngineerDetail/EngineerDetail.tsx:63-96 | "not found" exactly when loaded and the engineer or the capacity is missing |
| EngineerDetailScreen.FirstLoadOutcome | frontend/src/components/screens/EngineerDetail/EngineerDetail.tsx:38-74 | a first load shows details exactly when a capacity record came back, for the engineer that record names |
| EngineerDetailScreen.NoRouteIdKeepsSpinner | frontend/src/components/screens/EngineerDetail/EngineerDetail.tsx:29-33 | with no route id the spinner never goes away |
| EngineerListScreen.Open | frontend/src/components/screens/Engineer/Engineer.tsx:32-58 | a present non-manager gets exactly one error and no fetch; no user leaves everything, spinner included; a manager's fetch fills the list or adds one error |
| EngineerListScreen.OpenOutcome | frontend/src/components/screens/Engineer/Engineer.tsx:32-58 | at most one notice; engineers only for a manager; the spinner stops exactly for a manager |
| EngineerListScreen.Refresh | frontend/src/components/screens/Engineer/Engineer.tsx:65-79 | nothing unless the user is a manager; then the list and a success notice, or one error |
| EngineerListScreen.AvailableCount | frontend/src/components/screens/Engineer/Engineer.tsx:148 | never more than the number of engineers |
| EngineerListScreen.SeniorCount | frontend/src/components/screens/Engineer/Engineer.tsx:164 | never more than the number of engineers |
| EngineerListScreen.CountsMembership | frontend/src/components/screens/Engineer/Engineer.tsx:148-164 | an engineer is counted exactly when its availability is positive, or its seniority is exactly "senior" |
| EngineerListScreen.Departments | frontend/src/components/screens/Engineer/Engineer.tsx:180 | the empty department is never in the set; every non-empty department of an engineer is; every member is some engineer's department |
| EngineerListScreen.DepartmentCount | frontend/src/components/screens/Engineer/Engineer.tsx:180 | the number of distinct non-empty departments is at most the number of engineers |
| EngineerListScreen.DepartmentCountZero | frontend/src/components/screens/Engineer/Engineer.tsx:180 | 0 exactly when no engineer has a non-empty department |
| EngineerListScreen.SharedDepartment | frontend/src/components/screens/Engineer/Engineer.tsx:180 | engineers sharing one department count as one |
| ProjectsScreen.ProjectsOrEmpty | frontend/src/components/screens/Projects/Projects.tsx:27 | a response without a project list gives the empty list |
| ProjectsScreen.ProjectsPage.constructor | frontend/src/components/screens/Projects/Projects.tsx:12-14 | no projects, the spinner on, the given user and no notices |
| ProjectsScreen.ProjectsPage.Fetch | frontend/src/components/screens/Projects/Projects.tsx:22-34 | success replaces the list (missing list: empty); failure keeps it and shows the server's message or the fallback; the spinner stops |
| ProjectsScreen.ProjectsPage.ShowCreateLink | frontend/src/components/screens/Projects/Projects.tsx:96-103 | the header's create link exactly for a manager |
| ProjectsScreen.ProjectsPage.EmptyState | frontend/src/components/screens/Projects/Projects.tsx:108-122 | the empty state exactly for an empty list, its create link exactly for a manager |
| ProjectsScreen.NoCreateLinkForNonManager | frontend/src/components/screens/Projects/Projects.tsx:96-122 | a non-manager is offered neither create link |

## Left out

- Network and services: every service call is a parameter of the handler (`Response<T>`); `Promise.all` is modelled as "all succeed or one failure".
- Toasts, `navigate`, `window.confirm`, React effects, JSX and styling: toasts are notices, navigation is the route recorded, the confirmation is a boolean parameter, and colours and icons are enumerations.
- `console.log` and `console.error` calls are not modelled.
- The randomised progress and `avgProgress` on the engineer dashboard are not modelled; they are placeholders built on `Math.random`.
- Dates and the clock ("Days Active", `toLocaleDateString`, `createdAt`/`updatedAt` of the placeholder engineer) are not modelled.
- The hard-coded Quick Stats figures on the profile screen are constants, not logic.
- yup and react-hook-form internals: only the constraints the assignment schema states are modelled. A number input's `parseInt` result is an `Option<int>` with `None` for NaN; the parsing itself is not modelled.
- Floating point: `Math.round(a / b)` is exact rational rounding, half up. IEEE cases where the float quotient lands on the other side of .5 are not modelled.
- Concurrency: responses arriving out of order are not modelled; the code has no cancellation either.
- Text: lower/upper case and `trim` are modelled on ASCII only, without Unicode case folding or JavaScript's full whitespace class.
- Records: `availability`, `allocationPercentage` and the capacity figures are integers, and an absent user id is the empty string; `availability` is always present in `Engineer`, so the Available card's `e.availability &&` test reduces to `> 0`.
- Records: `skills` is always present in `Engineer`, so the `skills?.` in `engineerData?.skills?.length || 0` cannot short-circuit; a missing list and an empty one would both give 0, so no result is lost.
- The assignment list's per-card skill chips and the edit form opened by `handleEdit` are not modelled beyond the update callback they end in.
- The profile screen's own load and save handlers only wrap service calls and are not modelled; `ResetValues` and `UpdateData` are what they compute.
- ProfileScreen.Initials: its contract only bounds the length; what the characters are is stated by the lemmas for one word, two words and a leading space, not for every input.
