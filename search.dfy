/** Free-text search of the list screens: a case-insensitive substring match
    over a fixed list of fields, where an absent optional field is a non-match. */
module Search {
  import opened Basics
  import opened Text
  import opened Seqs
  import opened Entities

  /** `field?.toLowerCase().includes(term.toLowerCase())`, false for an absent field. */
  predicate FieldMatches(field: Option<string>, term: string)
  {
    field.Some? && Includes(Lower(field.value), Lower(term))
  }

  /** The engineer name of an assignment's snapshot, when both are present. */
  function EngineerName(a: Assignment): Option<string>
  {
    if a.engineer.Some? then a.engineer.value.name else None
  }

  /** The project name of an assignment's snapshot, when both are present. */
  function ProjectName(a: Assignment): Option<string>
  {
    if a.project.Some? then a.project.value.name else None
  }

  /** The empty term is found in every present field. */
  lemma EmptyTermFound(field: string)
    ensures FieldMatches(Some(field), "")
  {
    assert Lower("") == "";
    assert OccursAt(Lower(field), "", 0);
    IncludesIff(Lower(field), "");
  }

  /** The assignment list search: engineer name, then project name, then role.
      The role is always present, so the empty term matches every assignment;
      without snapshots the `?.` chains short-circuit and the role alone decides. */
  predicate AssignmentMatches(a: Assignment, term: string)
    ensures term == "" ==> AssignmentMatches(a, term)
    ensures a.engineer.None? && a.project.None? ==>
              (AssignmentMatches(a, term) <==> Includes(Lower(a.role), Lower(term)))
  {
    EmptyTermFound(a.role);
    FieldMatches(EngineerName(a), term)
    || FieldMatches(ProjectName(a), term)
    || FieldMatches(Some(a.role), term)
  }

  /** `assignments.filter(a => AssignmentMatches(a, term))`: an
      order-preserving selection of exactly the matching assignments. */
  function FilterAssignments(xs: seq<Assignment>, term: string): (r: seq<Assignment>)
    ensures IsSubsequence(r, xs)
    ensures forall a :: a in r <==> a in xs && AssignmentMatches(a, term)
  {
    var p := (a: Assignment) => AssignmentMatches(a, term);
    FilterSelects(xs, p);
    Filter(xs, p)
  }

  /** The engineer list search: the name, or any one skill. The name is
      always present, so the empty term matches every engineer; without
      skills the name alone decides. */
  predicate EngineerMatches(e: Engineer, term: string)
    ensures term == "" ==> EngineerMatches(e, term)
    ensures e.skills == [] ==> (EngineerMatches(e, term) <==> Includes(Lower(e.name), Lower(term)))
  {
    EmptyTermFound(e.name);
    FieldMatches(Some(e.name), term)
    || exists k :: 0 <= k < |e.skills| && FieldMatches(Some(e.skills[k]), term)
  }

  /** `engineers.filter(e => EngineerMatches(e, term))`: an order-preserving
      selection of exactly the matching engineers. */
  function FilterEngineers(xs: seq<Engineer>, term: string): (r: seq<Engineer>)
    ensures IsSubsequence(r, xs)
    ensures forall e :: e in r <==> e in xs && EngineerMatches(e, term)
  {
    var p := (e: Engineer) => EngineerMatches(e, term);
    FilterSelects(xs, p);
    Filter(xs, p)
  }

  /** A field matches whenever the term, lower-cased, occurs in the lower-cased field. */
  lemma OccurrenceMatches(field: string, term: string, i: nat)
    requires i + |term| <= |field|
    requires Lower(field)[i..i + |term|] == Lower(term)
    ensures FieldMatches(Some(field), term)
  {
    IncludesIff(Lower(field), Lower(term));
    assert OccursAt(Lower(field), Lower(term), i);
  }

  /** A field matches exactly when the lower-cased term occurs somewhere in it. */
  lemma FieldMatchesIff(field: string, term: string)
    ensures FieldMatches(Some(field), term) <==> exists i :: OccursAt(Lower(field), Lower(term), i)
  {
    assert FieldMatches(Some(field), term) == Includes(Lower(field), Lower(term));
    IncludesIff(Lower(field), Lower(term));
  }

  /** With an empty term both searches return the list unchanged. */
  lemma EmptyTermKeepsList(xs: seq<Assignment>, es: seq<Engineer>)
    ensures FilterAssignments(xs, "") == xs
    ensures FilterEngineers(es, "") == es
  {
    FilterKeepsAll(xs, (a: Assignment) => AssignmentMatches(a, ""));
    FilterKeepsAll(es, (e: Engineer) => EngineerMatches(e, ""));
  }

  /** A term found in the role (ignoring case) matches, whether or not the
      engineer and project snapshots are present. */
  lemma RoleOccurrenceMatches(a: Assignment, term: string, i: nat)
    requires i + |term| <= |a.role|
    requires Lower(a.role)[i..i + |term|] == Lower(term)
    ensures AssignmentMatches(a, term)
  {
    OccurrenceMatches(a.role, term, i);
  }

  /** Searching is insensitive to the case of the term. */
  lemma TermCaseInsensitive(a: Assignment, e: Engineer, term: string)
    ensures AssignmentMatches(a, Lower(term)) <==> AssignmentMatches(a, term)
    ensures EngineerMatches(e, Lower(term)) <==> EngineerMatches(e, term)
  {
    LowerIdempotent(term);
  }
}
