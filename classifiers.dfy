/** The small display classifiers the screens share: status and seniority
    buckets with a default, the role colour, the progress bucket of a project,
    the skill-icon category chosen by first match, and skill-chip truncation.
    Tailwind class strings are abstracted to a colour tone and lucide icons to
    an `Icon` value. */
module Classifiers {
  import opened Basics
  import opened Text

  datatype Tone = Emerald | Blue | Amber | Purple | Indigo | Gray
  datatype Icon = Zap | CheckCircle | Clock | FileText | AlertCircle | Building | Star | TrendingUp | Target

  /** The three known project statuses and a bucket for every other string. */
  datatype StatusBucket = Active | Completed | Planning | UnknownStatus

  function BucketOf(status: string): (b: StatusBucket)
    ensures b == Active <==> status == "active"
    ensures b == Completed <==> status == "completed"
    ensures b == Planning <==> status == "planning"
  {
    match status
    case "active" => Active
    case "completed" => Completed
    case "planning" => Planning
    case _ => UnknownStatus
  }

  /** `getStatusColor`: green/emerald, blue and amber for the known statuses,
      gray otherwise (the same tones on every screen that has it). */
  function StatusTone(status: string): (t: Tone)
    ensures t == Gray <==> BucketOf(status) == UnknownStatus
  {
    match BucketOf(status)
    case Active => Emerald
    case Completed => Blue
    case Planning => Amber
    case UnknownStatus => Gray
  }

  /** `getStatusIcon`: the known statuses share their icons across screens;
      each screen has its own default icon. */
  function StatusIcon(status: string, fallback: Icon): (i: Icon)
    ensures BucketOf(status) == UnknownStatus ==> i == fallback
  {
    match BucketOf(status)
    case Active => Zap
    case Completed => CheckCircle
    case Planning => Clock
    case UnknownStatus => fallback
  }

  /** The default status icon of the project creation form and the project detail screen. */
  const FormStatusFallback: Icon := FileText
  /** The default status icon of the manager dashboard. */
  const DashboardStatusFallback: Icon := AlertCircle
  /** The default status icon of the project list. */
  const ListStatusFallback: Icon := Building

  /** The three known statuses get three distinct icons and tones, none equal
      to any screen's default, so an unknown status is always recognisable. */
  lemma StatusIconsDistinct(s1: string, s2: string, fallback: Icon)
    requires fallback in {FormStatusFallback, DashboardStatusFallback, ListStatusFallback}
    requires BucketOf(s1) != UnknownStatus
    ensures StatusIcon(s1, fallback) != fallback
    ensures StatusTone(s1) != Gray
    ensures StatusIcon(s1, fallback) == StatusIcon(s2, fallback) <==> BucketOf(s1) == BucketOf(s2)
    ensures StatusTone(s1) == StatusTone(s2) <==> BucketOf(s1) == BucketOf(s2)
  {
  }

  /** `progressPercentage`: 100 for completed, 65 for active, 25 for anything else. */
  function ProgressPercentage(status: string): (p: int)
    ensures 25 <= p <= 100
    ensures p == 100 <==> status == "completed"
    ensures p == 65 <==> status == "active"
  {
    if status == "completed" then 100 else if status == "active" then 65 else 25
  }

  /** The profile screen's `getRoleColor`: only "manager" gets the manager style. */
  function RoleTone(role: string): (t: Tone)
    ensures t == Indigo <==> role == "manager"
    ensures t == Indigo || t == Emerald
  {
    if role == "manager" then Indigo else Emerald
  }

  /** The profile screen's `getSeniorityColor`: senior and mid are distinguished,
      everything else (including "junior") gets the default. */
  function ProfileSeniorityTone(seniority: string): (t: Tone)
    ensures t == Gray <==> seniority != "senior" && seniority != "mid"
  {
    match seniority
    case "senior" => Amber
    case "mid" => Blue
    case _ => Gray
  }

  /** The profile screen's `getSeniorityIcon`, with the same buckets as its colour. */
  function ProfileSeniorityIcon(seniority: string): (i: Icon)
    ensures i == Target <==> seniority != "senior" && seniority != "mid"
    ensures (i == Target) == (ProfileSeniorityTone(seniority) == Gray)
  {
    match seniority
    case "senior" => Star
    case "mid" => TrendingUp
    case _ => Target
  }

  /** The manager dashboard's `getSeniorityColor`: senior, mid and junior are
      distinct; an absent or unknown seniority gets the default. */
  function DashboardSeniorityTone(seniority: Option<string>): (t: Tone)
    ensures t == Gray <==> seniority.None? || seniority.value !in {"senior", "mid", "junior"}
  {
    if seniority.None? then Gray
    else match seniority.value
      case "senior" => Purple
      case "mid" => Blue
      case "junior" => Emerald
      case _ => Gray
  }

  /** The skill-chip row: the first three skills, and a "+n more" badge. */
  datatype Chips = Chips(shown: seq<string>, more: Option<nat>)

  /** `skills.slice(0, 3)` and, when `skills.length > 3`, `+{skills.length - 3} more`. */
  function SkillChips(skills: seq<string>): (c: Chips)
    ensures |c.shown| == if |skills| < 3 then |skills| else 3
    ensures c.shown <= skills
    ensures c.more.Some? <==> |skills| > 3
    ensures |c.shown| + c.more.GetOr(0) == |skills|
  {
    if |skills| > 3 then Chips(skills[..3], Some(|skills| - 3)) else Chips(skills, None)
  }

  /** The icon category chosen for a skill. */
  datatype SkillCategory =
    | CodeSkill | BackendSkill | WebSkill | MobileSkill | LanguageSkill
    | CloudSkill | SecuritySkill | DesignSkill | DataSkill | OtherSkill

  /** One branch of the if-chain: a category and the keywords that select it. */
  datatype Rule = Rule(category: SkillCategory, keywords: seq<string>)

  /** The branches of `getSkillIcon`, in the order they are tried. */
  const SkillRules: seq<Rule> := [
    Rule(CodeSkill, ["react", "javascript", "typescript", "js"]),
    Rule(BackendSkill, ["node", "express", "backend"]),
    Rule(WebSkill, ["html", "css", "frontend"]),
    Rule(MobileSkill, ["mobile", "react native", "flutter"]),
    Rule(LanguageSkill, ["python", "java", "c++"]),
    Rule(CloudSkill, ["aws", "cloud", "devops"]),
    Rule(SecuritySkill, ["security", "cyber"]),
    Rule(DesignSkill, ["ui", "ux", "design"]),
    Rule(DataSkill, ["data", "analytics", "ml"])
  ]

  /** Some keyword of the rule occurs in the (lower-cased) skill. */
  predicate RuleMatches(lowered: string, r: Rule)
  {
    exists k :: 0 <= k < |r.keywords| && Includes(lowered, r.keywords[k])
  }

  /** `rules[i]` is the first rule that matches. */
  predicate FirstMatchAt(lowered: string, rules: seq<Rule>, i: int)
  {
    0 <= i < |rules| && RuleMatches(lowered, rules[i])
    && forall j :: 0 <= j < i ==> !RuleMatches(lowered, rules[j])
  }

  /** The category of the first matching rule, or `OtherSkill` when none matches. */
  function FirstMatch(lowered: string, rules: seq<Rule>): (c: SkillCategory)
    ensures (exists i :: FirstMatchAt(lowered, rules, i) && c == rules[i].category)
         || ((forall i :: 0 <= i < |rules| ==> !RuleMatches(lowered, rules[i])) && c == OtherSkill)
  {
    if rules == [] then OtherSkill
    else if RuleMatches(lowered, rules[0]) then
      assert FirstMatchAt(lowered, rules, 0);
      rules[0].category
    else
      var c := FirstMatch(lowered, rules[1..]);
      FirstMatchSkip(lowered, rules, c);
      c
  }

  /** When the first rule does not match, a first match of the remaining rules
      is a first match of all of them. */
  lemma FirstMatchSkip(lowered: string, rules: seq<Rule>, c: SkillCategory)
    requires rules != [] && !RuleMatches(lowered, rules[0])
    requires (exists i :: FirstMatchAt(lowered, rules[1..], i) && c == rules[1..][i].category)
          || ((forall i :: 0 <= i < |rules[1..]| ==> !RuleMatches(lowered, rules[1..][i])) && c == OtherSkill)
    ensures (exists i :: FirstMatchAt(lowered, rules, i) && c == rules[i].category)
         || ((forall i :: 0 <= i < |rules| ==> !RuleMatches(lowered, rules[i])) && c == OtherSkill)
  {
    if exists i :: FirstMatchAt(lowered, rules[1..], i) && c == rules[1..][i].category {
      var i :| FirstMatchAt(lowered, rules[1..], i) && c == rules[1..][i].category;
      assert FirstMatchAt(lowered, rules, i + 1) by {
        forall j | 0 <= j < i + 1 ensures !RuleMatches(lowered, rules[j]) {
          if j > 0 { assert rules[j] == rules[1..][j - 1]; }
        }
      }
    } else {
      forall i | 0 <= i < |rules| ensures !RuleMatches(lowered, rules[i]) {
        if i > 0 { assert rules[i] == rules[1..][i - 1]; }
      }
    }
  }

  /** No branch yields the default category. */
  lemma RulesNeverDefault()
    ensures forall i :: 0 <= i < |SkillRules| ==> SkillRules[i].category != OtherSkill
  {
  }

  /** `getSkillIcon(skill)`: the category of the first branch, in source
      order, with a keyword in the lower-cased skill; the default exactly
      when no branch has one. */
  function SkillIcon(skill: string): (c: SkillCategory)
    ensures c == OtherSkill <==>
            forall i :: 0 <= i < |SkillRules| ==> !RuleMatches(Lower(skill), SkillRules[i])
    ensures c != OtherSkill ==>
            exists i :: FirstMatchAt(Lower(skill), SkillRules, i) && c == SkillRules[i].category
  {
    RulesNeverDefault();
    FirstMatch(Lower(skill), SkillRules)
  }

  /** A needle that starts with another needle is found only where that one is. */
  lemma IncludesPrefixNeedle(hay: string, needle: string, prefix: string)
    requires prefix <= needle
    requires Includes(hay, needle)
    ensures Includes(hay, prefix)
  {
    IncludesIff(hay, needle);
    var i :| OccursAt(hay, needle, i);
    assert hay[i..i + |prefix|] == needle[..|prefix|];
    assert OccursAt(hay, prefix, i);
    IncludesIff(hay, prefix);
  }

  /** First-match order: a skill mentioning "react native" is classified as
      code, so the "react native" keyword of the mobile branch never decides. */
  lemma ReactNativeIsCode(skill: string)
    requires Includes(Lower(skill), "react native")
    ensures SkillIcon(skill) == CodeSkill
  {
    IncludesPrefixNeedle(Lower(skill), "react native", "react");
    assert RuleMatches(Lower(skill), SkillRules[0]) by {
      assert SkillRules[0].keywords[0] == "react";
    }
  }
}
