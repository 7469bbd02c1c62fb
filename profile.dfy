/** The profile screen: the comma-separated skills field, the form reset from
    the loaded profile, the update body, the avatar initials and the badge
    colours. */
module ProfileScreen {
  import opened Basics
  import opened Text

  /** The profile as the profile service returns it; every field but the name
      and the role may be missing. */
  datatype ProfileData = ProfileData(
    name: string,
    role: string,
    skills: Option<seq<string>>,
    seniority: Option<string>,
    maxCapacity: Option<int>,
    department: Option<string>)

  /** The edit form; the skills are one comma-separated string. */
  datatype ProfileForm = ProfileForm(
    name: string,
    role: string,
    skills: string,
    seniority: string,
    maxCapacity: int,
    department: string)

  /** The body of the update call. */
  datatype ProfileUpdate = ProfileUpdate(
    name: string,
    skills: seq<string>,
    seniority: string,
    maxCapacity: int,
    department: string)

  const DefaultProfileForm: ProfileForm := ProfileForm("", "engineer", "", "junior", 100, "")

  /** A skill that survives a trip through the text field unchanged. */
  predicate PlainSkill(s: string)
  {
    s != "" && IsTrimmed(s) && ',' !in s
  }

  /** Trim every piece and drop the empty ones (`map(trim).filter(Boolean)`). */
  function CleanPieces(pieces: seq<string>): (r: seq<string>)
    ensures |r| <= |pieces|
    ensures forall i :: 0 <= i < |r| ==> r[i] != "" && IsTrimmed(r[i])
  {
    if pieces == [] then []
    else
      var t := Trim(pieces[0]);
      (if t != "" then [t] else []) + CleanPieces(pieces[1..])
  }

  /** The skills list sent on submit: every parsed skill is non-empty,
      trimmed and free of commas. */
  function ParseSkills(text: string): (r: seq<string>)
    ensures forall i :: 0 <= i < |r| ==> PlainSkill(r[i])
  {
    SplitPiecesFree(text, ',');
    CleanPiecesCommaFree(Split(text, ','));
    CleanPieces(Split(text, ','))
  }

  /** The text the skills field is reset to: empty for no skills, and for
      skills without commas exactly one comma-separated piece per skill. */
  function JoinSkills(skills: seq<string>): (r: string)
    ensures skills == [] ==> r == ""
    ensures skills != [] && (forall i :: 0 <= i < |skills| ==> ',' !in skills[i]) ==>
              |Split(r, ',')| == |skills|
  {
    if forall i :: 0 <= i < |skills| ==> ',' !in skills[i] then
      JoinPieceCount("", skills);
      assert "" + Join(skills, ", ") == Join(skills, ", ");
      Join(skills, ", ")
    else
      Join(skills, ", ")
  }

  /** After a comma-free prefix, a ", " join of comma-free skills splits at
      commas into one piece per skill (one piece when there are none). */
  lemma {:induction false} JoinPieceCount(p: string, skills: seq<string>)
    requires ',' !in p
    requires forall i :: 0 <= i < |skills| ==> ',' !in skills[i]
    ensures |Split(p + Join(skills, ", "), ',')| == if skills == [] then 1 else |skills|
    decreases |skills|
  {
    if |skills| <= 1 {
      var s := p + Join(skills, ", ");
      assert skills == [] ==> s == p;
      assert |skills| == 1 ==> s == p + skills[0];
      assert ',' !in s;
      SplitFree(s, ',');
    } else {
      var a := p + skills[0];
      var b := " " + Join(skills[1..], ", ");
      assert p + Join(skills, ", ") == a + [','] + b;
      assert ',' !in a;
      SplitAtFirst(a, ',', b);
      assert ',' !in " ";
      JoinPieceCount(" ", skills[1..]);
    }
  }

  /** A trimmed piece of a string without commas has no comma either. */
  lemma TrimKeepsCommaFree(s: string)
    requires ',' !in s
    ensures ',' !in Trim(s)
  {
    var i, j :| CutAt(s, Trim(s), i, j);
    forall k | 0 <= k < |Trim(s)| ensures Trim(s)[k] != ',' {
      assert Trim(s)[k] == s[i + k];
    }
  }

  lemma {:induction false} CleanPiecesCommaFree(pieces: seq<string>)
    requires forall k :: 0 <= k < |pieces| ==> ',' !in pieces[k]
    ensures forall i :: 0 <= i < |CleanPieces(pieces)| ==> PlainSkill(CleanPieces(pieces)[i])
  {
    if pieces != [] {
      TrimKeepsCommaFree(pieces[0]);
      CleanPiecesCommaFree(pieces[1..]);
    }
  }

  lemma AllSpaceTrimsToEmpty(p: string)
    requires AllSpace(p)
    ensures Trim(p) == ""
  {
    TrimSpacePrefix(p, "");
    assert p + "" == p;
  }

  /** The round trip behind the reset: after any run of whitespace, parsing
      the joined list gives the list back. */
  lemma {:induction false} ParseJoinAfterSpace(p: string, skills: seq<string>)
    requires AllSpace(p)
    requires forall i :: 0 <= i < |skills| ==> PlainSkill(skills[i])
    ensures ParseSkills(p + JoinSkills(skills)) == skills
    decreases |skills|
  {
    assert ',' !in p;
    if skills == [] {
      assert p + JoinSkills(skills) == p;
      SplitFree(p, ',');
      AllSpaceTrimsToEmpty(p);
    } else if |skills| == 1 {
      var s := p + skills[0];
      assert s == p + JoinSkills(skills);
      assert ',' !in s;
      SplitFree(s, ',');
      TrimSpacePrefix(p, skills[0]);
    } else {
      var a := p + skills[0];
      var b := " " + JoinSkills(skills[1..]);
      assert p + JoinSkills(skills) == a + [','] + b;
      assert ',' !in a;
      SplitAtFirst(a, ',', b);
      TrimSpacePrefix(p, skills[0]);
      assert AllSpace(" ");
      ParseJoinAfterSpace(" ", skills[1..]);
      assert Split(a + [','] + b, ',')[1..] == Split(b, ',');
    }
  }

  /** Parsing the text the field was reset to returns the original skills. */
  lemma ParseJoin(skills: seq<string>)
    requires forall i :: 0 <= i < |skills| ==> PlainSkill(skills[i])
    ensures ParseSkills(JoinSkills(skills)) == skills
  {
    assert "" + JoinSkills(skills) == JoinSkills(skills);
    ParseJoinAfterSpace("", skills);
  }

  /** Parsing is a normalisation: re-parsing its own joined output changes nothing. */
  lemma ParseNormalises(text: string)
    ensures ParseSkills(JoinSkills(ParseSkills(text))) == ParseSkills(text)
  {
    ParseJoin(ParseSkills(text));
  }

  /** The values the form is reset to once the profile has loaded. */
  function ResetValues(p: ProfileData): (f: ProfileForm)
    ensures f.name == p.name && f.role == p.role
    ensures p.skills.Some? ==> f.skills == JoinSkills(p.skills.value)
    ensures p.skills.None? ==> f.skills == ""
    ensures f.seniority != ""
    ensures p.seniority.Some? && p.seniority.value != "" ==> f.seniority == p.seniority.value
    ensures p.seniority.None? || p.seniority.value == "" ==> f.seniority == "junior"
    ensures f.maxCapacity != 0
    ensures p.maxCapacity.Some? && p.maxCapacity.value != 0 ==> f.maxCapacity == p.maxCapacity.value
    ensures p.maxCapacity.None? || p.maxCapacity.value == 0 ==> f.maxCapacity == 100
    ensures f.department == p.department.GetOr("")
  {
    ProfileForm(
      p.name,
      p.role,
      if p.skills.Some? then JoinSkills(p.skills.value) else "",
      if p.seniority.Some? && p.seniority.value != "" then p.seniority.value else "junior",
      if p.maxCapacity.Some? && p.maxCapacity.value != 0 then p.maxCapacity.value else 100,
      p.department.GetOr(""))
  }

  /** The body sent on submit; the role is not part of it. */
  function UpdateData(f: ProfileForm): (u: ProfileUpdate)
    ensures forall i :: 0 <= i < |u.skills| ==> PlainSkill(u.skills[i])
    ensures u.name == f.name && u.seniority == f.seniority
    ensures u.maxCapacity == f.maxCapacity && u.department == f.department
  {
    ProfileUpdate(f.name, ParseSkills(f.skills), f.seniority, f.maxCapacity, f.department)
  }

  /** Saving a freshly reset form sends back the loaded profile, with its
      missing fields filled by the defaults. */
  lemma ResetThenSubmit(p: ProfileData)
    requires p.skills.Some? ==> forall i :: 0 <= i < |p.skills.value| ==> PlainSkill(p.skills.value[i])
    ensures UpdateData(ResetValues(p)).skills == p.skills.GetOr([])
    ensures UpdateData(ResetValues(p)).name == p.name
    ensures p.seniority.Some? && p.seniority.value != "" ==> UpdateData(ResetValues(p)).seniority == p.seniority.value
    ensures p.maxCapacity.Some? && p.maxCapacity.value != 0 ==> UpdateData(ResetValues(p)).maxCapacity == p.maxCapacity.value
    ensures p.department.Some? ==> UpdateData(ResetValues(p)).department == p.department.value
  {
    if p.skills.Some? {
      ParseJoin(p.skills.value);
    } else {
      assert Split("", ',') == [""];
    }
  }

  /** The first character of every word, skipping empty words (`charAt(0)` of "" is ""). */
  function FirstChars(words: seq<string>): (r: string)
    ensures |r| <= |words|
  {
    if words == [] then []
    else (if words[0] == [] then [] else [words[0][0]]) + FirstChars(words[1..])
  }

  /** `getInitials`. */
  function Initials(name: string): (r: string)
    ensures |r| <= 2
  {
    var u := Upper(FirstChars(Split(name, ' ')));
    if |u| <= 2 then u else u[..2]
  }

  /** A single word gives its own first letter, uppercased. */
  lemma InitialsOfWord(a: string)
    requires a != [] && ' ' !in a
    ensures Initials(a) == [UpperChar(a[0])]
  {
    SplitFree(a, ' ');
  }

  /** Two words give the two first letters, uppercased, in order, whatever follows. */
  lemma InitialsOfWords(a: string, s: string)
    requires a != [] && ' ' !in a
    requires s != [] && s[0] != ' '
    ensures Initials(a + " " + s) == [UpperChar(a[0]), UpperChar(s[0])]
  {
    SplitAtFirst(a, ' ', s);
    assert a + " " + s == a + [' '] + s;
    var ws := Split(s, ' ');
    assert ws[0] == [s[0]] + Split(s[1..], ' ')[0];
    var f := FirstChars([a] + ws);
    assert ([a] + ws)[0] == a && ([a] + ws)[1..] == ws;
    assert FirstChars(ws) == [s[0]] + FirstChars(ws[1..]);
    assert f == [a[0]] + ([s[0]] + FirstChars(ws[1..]));
    UpperAppend([a[0], s[0]], FirstChars(ws[1..]));
    assert f == [a[0], s[0]] + FirstChars(ws[1..]);
  }

  /** Leading spaces do not change the initials. */
  lemma InitialsIgnoreLeadingSpace(s: string)
    ensures Initials(" " + s) == Initials(s)
  {
    SplitAtFirst("", ' ', s);
    assert "" + [' '] + s == " " + s;
    var ws := Split(s, ' ');
    assert ([""] + ws)[0] == "" && ([""] + ws)[1..] == ws;
    assert FirstChars([""] + ws) == FirstChars(ws);
  }

  /** The avatar: the initials of the loaded profile's name, "U" before loading. */
  function AvatarText(profile: Option<ProfileData>): (t: string)
    ensures profile.None? ==> t == "U"
    ensures profile.Some? ==> |t| <= 2
  {
    if profile.Some? then Initials(profile.value.name) else "U"
  }
}
