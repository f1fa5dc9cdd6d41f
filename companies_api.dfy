/** The company suggestions endpoint (`backend/app/api/v1/companies.py`):
    questions, skills and round names gathered from the published
    experiences whose company name matches, the tips parsed from the
    preparation guide, and the defaults used when either comes up short.
    The guide is the value the language-model call produced (its
    `response` field); producing it is not part of this model.
    `list(set(xs))` has no defined order in Python: the model takes the
    first occurrences in order, and only order-free facts (no duplicates,
    membership, bounds) are stated about those lists. */
module CompaniesApi {
  import opened Util
  import opened Json
  import opened Models

  datatype Suggestions = Suggestions(
    companyName: string,
    interviewQuestions: seq<Js>,
    skillsToBuild: seq<string>,
    preparationTips: seq<string>,
    commonRounds: seq<Js>,
    /** `total_experiences`, absent from the answer for no match. */
    totalExperiences: Option<nat>)

  /** The published rows whose company name contains the requested one
      (`ilike('%name%')`), in table order. */
  function Matching(experiences: seq<Experience>, companyName: string): seq<Experience> {
    FilterSeq(experiences, (e: Experience) => ILike(e.companyName, companyName) && e.isPublished)
  }

  // ---------------------------------------------------------------------------
  // What one experience contributes

  /** `questions[:3]` for each list-valued category, in the dict's order. */
  function CategoryHeads(fields: seq<Field>): (r: seq<Js>)
    ensures |r| <= 3 * |fields|
  {
    if fields == [] then []
    else
      var f := fields[|fields| - 1];
      CategoryHeads(fields[..|fields| - 1]) + (if f.value.Arr? then Take(f.value.items, 3) else [])
  }

  /** The questions an experience contributes: none unless its
      `questions_asked` is a non-empty dict. */
  function QuestionsOf(e: Experience): seq<Js> {
    if PyTruthy(e.questionsAsked) && e.questionsAsked.Obj? then CategoryHeads(e.questionsAsked.fields) else []
  }

  /** `round_data.get('round_name') or round_data.get('round_type', 'Unknown')`. */
  function RoundLabel(round: seq<Field>): Js {
    var name := DictGet(round, "round_name", Null);
    if PyTruthy(name) then name else DictGet(round, "round_type", Str("Unknown"))
  }

  /** The labels of the dict-valued rounds, in order. */
  function Labels(rounds: seq<Js>): (r: seq<Js>)
    ensures |r| <= |rounds|
  {
    if rounds == [] then []
    else
      var round := rounds[|rounds| - 1];
      Labels(rounds[..|rounds| - 1]) + (if round.Obj? then [RoundLabel(round.fields)] else [])
  }

  /** The round labels an experience contributes: none unless its
      `interview_rounds` is a non-empty list. */
  function RoundsOf(e: Experience): seq<Js> {
    if PyTruthy(e.interviewRounds) && e.interviewRounds.Arr? then Labels(e.interviewRounds.items) else []
  }

  const DsaSkill: string := "Data Structures & Algorithms"
  const DesignSkill: string := "System Design"
  const CodingSkill: string := "Coding Practice"
  const OopSkill: string := "Object-Oriented Programming"

  /** The skills a strategy text names, in the order of the four tests. */
  function DsaItem(s: string): seq<string> {
    if Contains(s, "dsa") || Contains(s, "data structure") then [DsaSkill] else []
  }
  function DesignItem(s: string): seq<string> {
    if Contains(s, "system design") then [DesignSkill] else []
  }
  function CodingItem(s: string): seq<string> {
    if Contains(s, "coding") || Contains(s, "programming") then [CodingSkill] else []
  }
  function OopItem(s: string): seq<string> {
    if Contains(s, "oops") || Contains(s, "object oriented") then [OopSkill] else []
  }

  function SkillsIn(strategy: string): seq<string> {
    var s := Lower(strategy);
    DsaItem(s) + DesignItem(s) + CodingItem(s) + OopItem(s)
  }

  /** The skills an experience contributes: none without a strategy text. */
  function SkillsOf(e: Experience): seq<string> {
    if e.preparationStrategy.Some? && e.preparationStrategy.value != "" then SkillsIn(e.preparationStrategy.value) else []
  }

  // ---------------------------------------------------------------------------
  // All experiences

  function AllQuestions(es: seq<Experience>): seq<Js> { Gather(es, QuestionsOf) }
  function AllRounds(es: seq<Experience>): seq<Js> { Gather(es, RoundsOf) }
  function AllSkills(es: seq<Experience>): seq<string> { Gather(es, SkillsOf) }

  // ---------------------------------------------------------------------------
  // Tips

  predicate IsMarker(c: char) {
    c == '-' || c == '\U{2022}' || c == '*'
  }

  /** `lstrip('-•*')`. */
  function StripMarkers(s: string): (r: string)
    ensures |r| <= |s| && r == s[|s| - |r|..]
    ensures r == [] || !IsMarker(r[0])
    ensures forall i :: 0 <= i < |s| - |r| ==> IsMarker(s[i])
  {
    if s != [] && IsMarker(s[0]) then StripMarkers(s[1..]) else s
  }

  /** Longer than ten characters, with no white space at either end. */
  predicate WellFormedTip(t: string) {
    |t| > 10 && !IsSpace(t[0]) && !IsSpace(t[|t| - 1])
  }

  /** The tip a guide line yields, if any. */
  function TipOf(line: string): (r: Option<string>)
    ensures r.Some? ==> WellFormedTip(r.value)
  {
    var l := Trim(line);
    if l != "" && IsMarker(l[0]) then
      var tip := Trim(StripMarkers(l));
      if tip != "" && |tip| > 10 then Some(tip) else None
    else None
  }

  /** The values `f` keeps, in order. */
  function Choose<A, B>(xs: seq<A>, f: A -> Option<B>): (r: seq<B>)
    ensures |r| <= |xs|
  {
    if xs == [] then []
    else
      var rest := Choose(xs[..|xs| - 1], f);
      match f(xs[|xs| - 1])
      case Some(y) => rest + [y]
      case None => rest
  }

  /** The tips of the lines, in order. */
  function TipsOf(lines: seq<string>): (r: seq<string>)
    ensures |r| <= |lines|
    ensures forall i :: 0 <= i < |r| ==> WellFormedTip(r[i])
  {
    TipsWellFormed(lines);
    Choose(lines, TipOf)
  }

  /** The tips of a guide text: none for a falsy guide. */
  function ParsedTips(guide: Js): seq<string> {
    if guide.Str? && guide.s != "" then TipsOf(Split(guide.s, '\n')) else []
  }

  // The fixed tips, one constant each.
  const PracticeDailyTip: string := "Practice coding problems daily on platforms like LeetCode"
  const RoundsTip: string := "Prepare for multiple interview rounds"
  const ResearchTip: string := "Research the company's recent projects and initiatives"
  const ExplainTip: string := "Practice explaining your thought process clearly"
  const DsaTip: string := "Practice Data Structures and Algorithms problems"
  const CodingRoundsTip: string := "Prepare for technical coding rounds"
  const DesignTip: string := "Review system design concepts (for senior roles)"
  const BehaviouralTip: string := "Practice behavioral questions and STAR method"
  const ProjectsTip: string := "Build projects relevant to the role"
  const AskTip: string := "Prepare questions to ask the interviewer"

  function DefaultTips(companyName: string): seq<string> {
    ["Focus on " + companyName + "'s core technologies and values", PracticeDailyTip, RoundsTip, ResearchTip, ExplainTip]
  }

  function FallbackTips(companyName: string): seq<string> {
    ["Research " + companyName + "'s interview process and expectations",
     DsaTip, CodingRoundsTip, DesignTip, BehaviouralTip, ProjectsTip, AskTip]
  }

  /** Fewer than five tips are topped up with the five defaults. */
  function Padded(tips: seq<string>, companyName: string): seq<string> {
    if |tips| < 5 then tips + DefaultTips(companyName) else tips
  }

  /** `preparation_tips` before the final cut: a text is parsed line by line;
      a falsy guide gives no tips; any other value has no `split`, and the
      `AttributeError` lands in the `except` branch. */
  function PreparationTips(guide: Js, companyName: string): seq<string> {
    if guide.Str? then Padded(ParsedTips(guide), companyName)
    else if PyTruthy(guide) then FallbackTips(companyName)
    else Padded([], companyName)
  }

  const DefaultSkills: seq<string> :=
    ["Data Structures & Algorithms", "Problem Solving", "System Design", "Coding Practice", "Technical Communication"]
  const DefaultRounds: seq<Js> := [Str("Online Assessment"), Str("Technical Round"), Str("HR Round")]

  // ---------------------------------------------------------------------------
  // GET /companies/{company_name}/suggestions

  /** `unique_questions[:8]`, with `unique_questions = list(set(all_questions))[:10]`. */
  function QuestionsList(es: seq<Experience>): seq<Js> {
    Take(Take(Dedup(AllQuestions(es)), 10), 8)
  }

  /** `unique_skills[:6]`, or the five defaults for none. */
  function SkillsList(es: seq<Experience>): seq<string> {
    var unique := Take(Dedup(AllSkills(es)), 8);
    if unique != [] then Take(unique, 6) else DefaultSkills
  }

  /** `unique_rounds[:5]`, or the three defaults for none. */
  function RoundsList(es: seq<Experience>): seq<Js> {
    var unique := Take(Dedup(AllRounds(es)), 6);
    if unique != [] then Take(unique, 5) else DefaultRounds
  }

  /** `preparation_tips[:7]`. */
  function TipsList(guide: Js, companyName: string): seq<string> {
    Take(PreparationTips(guide, companyName), 7)
  }

  function SuggestionsOutcome(t: Tables, companyName: string, guide: Js): Result<Suggestions> {
    var es := Matching(t.experiences, companyName);
    if es == [] then Ok(Suggestions(companyName, [], [], [], [], None))
    else if !AllHashable(AllQuestions(es)) || !AllHashable(AllRounds(es)) then Err(InternalError)
    else Ok(Suggestions(companyName, QuestionsList(es), SkillsList(es), TipsList(guide, companyName), RoundsList(es), Some(|es|)))
  }

  // ---------------------------------------------------------------------------
  // Properties

  /** No match: the company name and four empty lists, with no total; and
      only then. */
  lemma NoMatchEmpty(t: Tables, companyName: string, guide: Js)
    ensures var r := SuggestionsOutcome(t, companyName, guide);
      (forall i :: 0 <= i < |t.experiences| ==>
         !(ILike(t.experiences[i].companyName, companyName) && t.experiences[i].isPublished)) <==>
      r == Ok(Suggestions(companyName, [], [], [], [], None))
  {
    var es := Matching(t.experiences, companyName);
    if es != [] {
      assert es[0] in t.experiences;
    }
  }

  /** With a match, the answer is assembled from the four lists and the
      number of matching rows, which are exactly the published ones whose
      name contains the requested one. */
  lemma MatchAssembled(t: Tables, companyName: string, guide: Js, e: Experience)
    requires SuggestionsOutcome(t, companyName, guide).Ok?
    requires Matching(t.experiences, companyName) != []
    ensures var es := Matching(t.experiences, companyName);
      SuggestionsOutcome(t, companyName, guide).value ==
        Suggestions(companyName, QuestionsList(es), SkillsList(es), TipsList(guide, companyName), RoundsList(es), Some(|es|)) &&
      (e in es <==> e in t.experiences && ILike(e.companyName, companyName) && e.isPublished)
  {
  }

  /** One experience contributes at most the first three questions of each
      list-valued category, and nothing for any other value. */
  lemma {:induction false} CategoryHeadsMembers(fields: seq<Field>, x: Js)
    ensures x in CategoryHeads(fields) <==>
      exists f :: f in fields && f.value.Arr? && x in Take(f.value.items, 3)
  {
    if fields != [] {
      var init := fields[..|fields| - 1];
      CategoryHeadsMembers(init, x);
      assert fields == init + [fields[|fields| - 1]];
    }
  }

  /** The questions returned are distinct, at most eight, and each is one of
      the first three of some category of some of the experiences. */
  lemma QuestionsReturned(es: seq<Experience>)
    ensures var qs := QuestionsList(es);
      NoDuplicates(qs) && |qs| <= 8 &&
      forall i :: 0 <= i < |qs| ==>
        exists e :: (e in es && e.questionsAsked.Obj? &&
          exists f :: f in e.questionsAsked.fields && f.value.Arr? && qs[i] in Take(f.value.items, 3))
  {
    var all := AllQuestions(es);
    var qs := QuestionsList(es);
    TakeKeepsNoDuplicates(Dedup(all), 10);
    TakeKeepsNoDuplicates(Take(Dedup(all), 10), 8);
    forall i | 0 <= i < |qs|
      ensures exists e :: (e in es && e.questionsAsked.Obj? &&
        exists f :: f in e.questionsAsked.fields && f.value.Arr? && qs[i] in Take(f.value.items, 3))
    {
      assert qs[i] == Dedup(all)[i];
      GatherMembers(es, QuestionsOf, qs[i]);
      var e :| e in es && qs[i] in QuestionsOf(e);
      CategoryHeadsMembers(e.questionsAsked.fields, qs[i]);
    }
  }

  /** The round label: a truthy `round_name`; else `round_type` as stored;
      else "Unknown". */
  lemma RoundLabelRule(round: seq<Field>)
    ensures PyTruthy(Lookup(round, "round_name")) ==> RoundLabel(round) == Lookup(round, "round_name")
    ensures !PyTruthy(Lookup(round, "round_name")) && Lookup(round, "round_type") != Undefined ==>
      RoundLabel(round) == Lookup(round, "round_type")
    ensures !PyTruthy(Lookup(round, "round_name")) && (forall i :: 0 <= i < |round| ==> round[i].key != "round_type") ==>
      RoundLabel(round) == Str("Unknown")
  {
  }

  lemma {:induction false} LabelsMembers(rounds: seq<Js>, x: Js)
    ensures x in Labels(rounds) <==> exists round :: round in rounds && round.Obj? && x == RoundLabel(round.fields)
  {
    if rounds != [] {
      var init := rounds[..|rounds| - 1];
      LabelsMembers(init, x);
      assert rounds == init + [rounds[|rounds| - 1]];
    }
  }

  /** No round anywhere gives the three default rounds; otherwise the rounds
      are distinct, at most five, and each is the label of a dict round of
      one of the experiences. */
  lemma RoundsReturned(es: seq<Experience>)
    ensures var rs := RoundsList(es);
      (AllRounds(es) == [] ==> rs == DefaultRounds) &&
      (AllRounds(es) != [] ==>
        rs != [] && NoDuplicates(rs) && |rs| <= 5 &&
        forall i :: 0 <= i < |rs| ==>
          exists e :: (e in es && e.interviewRounds.Arr? &&
            exists round :: round in e.interviewRounds.items && round.Obj? && rs[i] == RoundLabel(round.fields)))
  {
    var all := AllRounds(es);
    if all != [] {
      assert all[0] in Dedup(all);
      var rs := RoundsList(es);
      TakeKeepsNoDuplicates(Dedup(all), 6);
      TakeKeepsNoDuplicates(Take(Dedup(all), 6), 5);
      forall i | 0 <= i < |rs|
        ensures exists e :: (e in es && e.interviewRounds.Arr? &&
          exists round :: round in e.interviewRounds.items && round.Obj? && rs[i] == RoundLabel(round.fields))
      {
        assert rs[i] == Dedup(all)[i];
        GatherMembers(es, RoundsOf, rs[i]);
        var e :| e in es && rs[i] in RoundsOf(e);
        LabelsMembers(e.interviewRounds.items, rs[i]);
      }
    }
  }

  const KnownSkills: seq<string> := [DsaSkill, DesignSkill, CodingSkill, OopSkill]

  /** Each keyword test names its skill, whatever the case of the text. */
  lemma SkillRules(strategy: string)
    ensures var s := Lower(strategy);
      (DsaSkill in SkillsIn(strategy) <==> Contains(s, "dsa") || Contains(s, "data structure")) &&
      (DesignSkill in SkillsIn(strategy) <==> Contains(s, "system design")) &&
      (CodingSkill in SkillsIn(strategy) <==> Contains(s, "coding") || Contains(s, "programming")) &&
      (OopSkill in SkillsIn(strategy) <==> Contains(s, "oops") || Contains(s, "object oriented"))
    ensures forall x :: x in SkillsIn(strategy) ==> x in KnownSkills
  {
  }

  lemma {:induction false} SeqSetSize<T>(s: seq<T>)
    ensures |set x | x in s| <= |s|
    ensures NoDuplicates(s) ==> |set x | x in s| == |s|
  {
    if s != [] {
      var init := s[..|s| - 1];
      SeqSetSize(init);
      assert (set x | x in s) == (set x | x in init) + {s[|s| - 1]};
      if NoDuplicates(s) {
        assert s[|s| - 1] !in init;
      }
    }
  }

  /** A list of distinct elements drawn from `k` is no longer than `k`. */
  lemma DistinctWithin<T>(s: seq<T>, k: seq<T>)
    requires NoDuplicates(s) && forall i :: 0 <= i < |s| ==> s[i] in k
    ensures |s| <= |k|
  {
    SeqSetSize(s);
    SeqSetSize(k);
    SubsetSize(set x | x in s, set x | x in k);
  }

  lemma {:induction false} SubsetSize<T>(a: set<T>, b: set<T>)
    requires a <= b
    ensures |a| <= |b|
    decreases |a|
  {
    if a != {} {
      var x :| x in a;
      SubsetSize(a - {x}, b - {x});
    }
  }

  /** The default skills come back exactly when no strategy names a skill;
      otherwise the skills are distinct known ones, so the cuts at eight and
      six never bite. */
  lemma SkillsReturned(es: seq<Experience>)
    ensures var sk := SkillsList(es);
      (sk == DefaultSkills <==> AllSkills(es) == []) &&
      (AllSkills(es) != [] ==>
        NoDuplicates(sk) && |sk| <= 4 && sk == Dedup(AllSkills(es)) && forall i :: 0 <= i < |sk| ==> sk[i] in KnownSkills)
  {
    var all := AllSkills(es);
    var u := Dedup(all);
    forall i | 0 <= i < |u|
      ensures u[i] in KnownSkills
    {
      GatherMembers(es, SkillsOf, u[i]);
      var e :| e in es && u[i] in SkillsOf(e);
      SkillRules(e.preparationStrategy.value);
    }
    DistinctWithin(u, KnownSkills);
    if all != [] {
      assert all[0] in u;
      assert SkillsList(es) == u;
      assert DefaultSkills[1] !in KnownSkills;
    }
  }

  /** The tips returned: between five and seven. A text guide gives its
      parsed tips, topped up with the defaults when there are fewer than
      five; a falsy guide gives the five defaults; any other value the seven
      fallback tips. */
  lemma TipsReturned(guide: Js, companyName: string)
    ensures 5 <= |TipsList(guide, companyName)| <= 7
    ensures guide.Str? || !PyTruthy(guide) ==>
      var tips, parsed := TipsList(guide, companyName), ParsedTips(guide);
      (|parsed| < 5 ==> tips == parsed + Take(DefaultTips(companyName), 7 - |parsed|)) &&
      (|parsed| >= 5 ==> tips == Take(parsed, 7))
    ensures !guide.Str? && PyTruthy(guide) ==> TipsList(guide, companyName) == FallbackTips(companyName)
  {
    if guide.Str? || !PyTruthy(guide) {
      TextTips(guide, companyName);
      PaddedCut(ParsedTips(guide), companyName, TipsList(guide, companyName));
    } else {
      FallbackCut(companyName);
      assert TipsList(guide, companyName) == Take(FallbackTips(companyName), 7);
    }
  }

  /** A text or falsy guide goes through the parse and the padding. */
  lemma TextTips(guide: Js, companyName: string)
    requires guide.Str? || !PyTruthy(guide)
    ensures TipsList(guide, companyName) == Take(Padded(ParsedTips(guide), companyName), 7)
  {
  }

  lemma FallbackCut(companyName: string)
    ensures |FallbackTips(companyName)| == 7 && Take(FallbackTips(companyName), 7) == FallbackTips(companyName)
  {
  }

  lemma {:induction false} ChooseMembers<A, B>(xs: seq<A>, f: A -> Option<B>, y: B)
    ensures y in Choose(xs, f) <==> exists x :: x in xs && f(x) == Some(y)
  {
    if xs != [] {
      var init := xs[..|xs| - 1];
      ChooseMembers(init, f, y);
      assert xs == init + [xs[|xs| - 1]];
    }
  }

  lemma ChooseStep<A, B>(xs: seq<A>, f: A -> Option<B>, j: nat)
    requires j < |xs|
    ensures Choose(xs[..j + 1], f) == Choose(xs[..j], f) + (if f(xs[j]).Some? then [f(xs[j]).value] else [])
  {
    assert xs[..j + 1][..j] == xs[..j];
  }

  lemma TipsWellFormed(lines: seq<string>)
    ensures forall i :: 0 <= i < |Choose(lines, TipOf)| ==> WellFormedTip(Choose(lines, TipOf)[i])
  {
    var r := Choose(lines, TipOf);
    forall i | 0 <= i < |r|
      ensures WellFormedTip(r[i])
    {
      ChooseMembers(lines, TipOf, r[i]);
    }
  }

  lemma PaddedCut(parsed: seq<string>, companyName: string, tips: seq<string>)
    requires tips == Take(Padded(parsed, companyName), 7)
    ensures 5 <= |tips| <= 7 &&
      (|parsed| < 5 ==> tips == parsed + Take(DefaultTips(companyName), 7 - |parsed|)) &&
      (|parsed| >= 5 ==> tips == Take(parsed, 7))
  {
    if |parsed| < 5 {
      var d := DefaultTips(companyName);
      assert |d| == 5;
      assert Take(parsed + d, 7) == parsed + Take(d, 7 - |parsed|);
    }
  }

  /** A parsed tip comes from one line of the guide. */
  lemma TipsMembers(lines: seq<string>, tip: string)
    ensures tip in TipsOf(lines) <==> exists line :: line in lines && TipOf(line) == Some(tip)
  {
    ChooseMembers(lines, TipOf, tip);
  }

  /** A parsed tip is a marker line with its markers and white space stripped. */
  lemma TipRule(line: string)
    requires TipOf(line).Some?
    ensures var l := Trim(line);
      l != [] && IsMarker(l[0]) && TipOf(line).value == Trim(StripMarkers(l)) && WellFormedTip(TipOf(line).value)
  {
  }

  /** A list or dict among the questions or round labels makes `set()` raise. */
  lemma UnhashableRaises(t: Tables, companyName: string, guide: Js)
    requires Matching(t.experiences, companyName) != []
    ensures SuggestionsOutcome(t, companyName, guide).Err? <==>
      exists x :: Unhashable(x) &&
        (x in AllQuestions(Matching(t.experiences, companyName)) || x in AllRounds(Matching(t.experiences, companyName)))
  {
  }

  // ---------------------------------------------------------------------------
  // The handler as written

  method GetCompanySuggestions(db: Db, companyName: string, guide: Js) returns (r: Result<Suggestions>)
    ensures r == SuggestionsOutcome(db.Contents(), companyName, guide)
  {
    var experiences := Matching(db.experiences, companyName);
    if experiences == [] {
      return Ok(Suggestions(companyName, [], [], [], [], None));
    }
    var allQuestions, allSkills, allRounds := CollectPatterns(experiences);
    if !AllHashable(allQuestions) || !AllHashable(allRounds) {
      return Err(InternalError);
    }
    var uniqueQuestions := Take(Dedup(allQuestions), 10);
    var uniqueSkills := Take(Dedup(allSkills), 8);
    var uniqueRounds := Take(Dedup(allRounds), 6);
    var tips := GuideTips(guide, companyName);
    assert SuggestionsOutcome(db.Contents(), companyName, guide) == Ok(Suggestions(companyName,
      QuestionsList(experiences), SkillsList(experiences), TipsList(guide, companyName), RoundsList(experiences), Some(|experiences|)));
    assert Take(uniqueQuestions, 8) == QuestionsList(experiences);
    assert (if uniqueSkills != [] then Take(uniqueSkills, 6) else DefaultSkills) == SkillsList(experiences);
    assert (if uniqueRounds != [] then Take(uniqueRounds, 5) else DefaultRounds) == RoundsList(experiences);
    r := Ok(Suggestions(
      companyName,
      Take(uniqueQuestions, 8),
      if uniqueSkills != [] then Take(uniqueSkills, 6) else DefaultSkills,
      Take(tips, 7),
      if uniqueRounds != [] then Take(uniqueRounds, 5) else DefaultRounds,
      Some(|experiences|)));
  }

  /** The loop over the experiences. */
  method CollectPatterns(experiences: seq<Experience>)
    returns (allQuestions: seq<Js>, allSkills: seq<string>, allRounds: seq<Js>)
    ensures allQuestions == AllQuestions(experiences)
    ensures allSkills == AllSkills(experiences)
    ensures allRounds == AllRounds(experiences)
  {
    allQuestions, allSkills, allRounds := [], [], [];
    var i := 0;
    while i < |experiences|
      invariant 0 <= i <= |experiences|
      invariant allQuestions == AllQuestions(experiences[..i])
      invariant allSkills == AllSkills(experiences[..i])
      invariant allRounds == AllRounds(experiences[..i])
    {
      var exp := experiences[i];
      assert experiences[..i + 1][..i] == experiences[..i];
      assert AllQuestions(experiences[..i + 1]) == AllQuestions(experiences[..i]) + QuestionsOf(exp);
      assert AllSkills(experiences[..i + 1]) == AllSkills(experiences[..i]) + SkillsOf(exp);
      assert AllRounds(experiences[..i + 1]) == AllRounds(experiences[..i]) + RoundsOf(exp);
      if PyTruthy(exp.questionsAsked) && exp.questionsAsked.Obj? {
        allQuestions := ExtendQuestions(allQuestions, exp.questionsAsked.fields);
      }
      if PyTruthy(exp.interviewRounds) && exp.interviewRounds.Arr? {
        allRounds := ExtendRounds(allRounds, exp.interviewRounds.items);
      }
      if exp.preparationStrategy.Some? && exp.preparationStrategy.value != "" {
        allSkills := ExtendSkills(allSkills, exp.preparationStrategy.value);
      }
      i := i + 1;
    }
    assert experiences[..|experiences|] == experiences;
  }

  /** The loop over one dict of questions. */
  method ExtendQuestions(acc: seq<Js>, fields: seq<Field>) returns (r: seq<Js>)
    ensures r == acc + CategoryHeads(fields)
  {
    r := acc;
    var j := 0;
    while j < |fields|
      invariant 0 <= j <= |fields|
      invariant r == acc + CategoryHeads(fields[..j])
    {
      assert fields[..j + 1][..j] == fields[..j];
      if fields[j].value.Arr? {
        r := r + Take(fields[j].value.items, 3);
      }
      j := j + 1;
    }
    assert fields[..|fields|] == fields;
  }

  /** The loop over one list of rounds. */
  method ExtendRounds(acc: seq<Js>, rounds: seq<Js>) returns (r: seq<Js>)
    ensures r == acc + Labels(rounds)
  {
    r := acc;
    var j := 0;
    while j < |rounds|
      invariant 0 <= j <= |rounds|
      invariant r == acc + Labels(rounds[..j])
    {
      assert rounds[..j + 1][..j] == rounds[..j];
      if rounds[j].Obj? {
        var roundName := DictGet(rounds[j].fields, "round_name", Null);
        if !PyTruthy(roundName) {
          roundName := DictGet(rounds[j].fields, "round_type", Str("Unknown"));
        }
        r := r + [roundName];
      }
      j := j + 1;
    }
    assert rounds[..|rounds|] == rounds;
  }

  /** The four keyword tests on one strategy text. */
  method ExtendSkills(acc: seq<string>, strategy: string) returns (r: seq<string>)
    ensures r == acc + SkillsIn(strategy)
  {
    var strategyLower := Lower(strategy);
    r := acc;
    if Contains(strategyLower, "dsa") || Contains(strategyLower, "data structure") {
      r := r + [DsaSkill];
    }
    assert r == acc + DsaItem(strategyLower);
    if Contains(strategyLower, "system design") {
      r := r + [DesignSkill];
    }
    assert r == acc + DsaItem(strategyLower) + DesignItem(strategyLower);
    if Contains(strategyLower, "coding") || Contains(strategyLower, "programming") {
      r := r + [CodingSkill];
    }
    assert r == acc + DsaItem(strategyLower) + DesignItem(strategyLower) + CodingItem(strategyLower);
    if Contains(strategyLower, "oops") || Contains(strategyLower, "object oriented") {
      r := r + [OopSkill];
    }
    SkillsAssoc(acc, strategyLower);
  }

  lemma SkillsAssoc(acc: seq<string>, s: string)
    ensures acc + DsaItem(s) + DesignItem(s) + CodingItem(s) + OopItem(s) == acc + (DsaItem(s) + DesignItem(s) + CodingItem(s) + OopItem(s))
  {
  }

  /** The `try` block's tip parsing and padding, and its `except` branch. */
  method GuideTips(guide: Js, companyName: string) returns (tips: seq<string>)
    ensures tips == PreparationTips(guide, companyName)
  {
    tips := [];
    if PyTruthy(guide) {
      if !guide.Str? {
        return FallbackTips(companyName);
      }
      tips := LineTips(Split(guide.s, '\n'));
    }
    assert tips == ParsedTips(guide);
    if |tips| < 5 {
      tips := tips + DefaultTips(companyName);
    }
  }

  /** The loop over the guide's lines. */
  method LineTips(lines: seq<string>) returns (tips: seq<string>)
    ensures tips == Choose(lines, TipOf)
  {
    tips := [];
    var j := 0;
    while j < |lines|
      invariant 0 <= j <= |lines|
      invariant tips == Choose(lines[..j], TipOf)
    {
      var tip := LineTip(lines[j]);
      tips := AddTip(lines, j, tips, tip);
      j := j + 1;
    }
    assert lines[..|lines|] == lines;
  }

  /** The loop body's append: the tips of one more line. */
  method AddTip(lines: seq<string>, j: nat, tips: seq<string>, tip: Option<string>) returns (r: seq<string>)
    requires j < |lines| && tips == Choose(lines[..j], TipOf) && tip == TipOf(lines[j])
    ensures r == Choose(lines[..j + 1], TipOf)
  {
    ChooseStep(lines, TipOf, j);
    r := tips;
    if tip.Some? {
      r := r + [tip.value];
    }
  }

  /** One line: a marker line, stripped, if what is left is long enough. */
  method LineTip(raw: string) returns (r: Option<string>)
    ensures r == TipOf(raw)
  {
    r := None;
    var line := Trim(raw);
    if line != "" && IsMarker(line[0]) {
      var tip := Trim(StripMarkers(line));
      if tip != "" && |tip| > 10 {
        r := Some(tip);
      }
    }
  }
}
