/** The pattern extraction and roadmap parts of the AI service
    (`backend/app/services/ai_service.py`): per-company tallies, the
    questions gathered per category, and the echoing roadmap. The calls to
    the language model are not part of this model. */
module AiService {
  import opened Util
  import opened Json
  import opened Models
  import opened PyDict

  /** `companies[name]`: `count`, `selected`, `questions` (never filled) and `rounds`. */
  datatype CompanyPattern = CompanyPattern(count: nat, selected: nat, questions: seq<Js>, rounds: seq<Js>)

  datatype Patterns = Patterns(
    companies: seq<(string, CompanyPattern)>,
    commonQuestions: seq<(string, seq<Js>)>,
    roles: seq<(string, Js)>)

  // ---------------------------------------------------------------------------
  // One experience

  /** What `rounds.extend(exp.interview_rounds)` appends for a truthy value:
      a list's items, a dict's keys or a string's characters. */
  function RoundsOf(e: Experience): seq<Js> {
    if PyTruthy(e.interviewRounds) then Iterated(e.interviewRounds) else []
  }

  /** `exp.questions_asked.items()` when it is a non-empty dict. */
  function QuestionFields(e: Experience): seq<Field> {
    if PyTruthy(e.questionsAsked) && e.questionsAsked.Obj? then e.questionsAsked.fields else []
  }

  /** One company entry updated for one experience. */
  function Credit(p: CompanyPattern, e: Experience): CompanyPattern {
    CompanyPattern(p.count + 1, p.selected + (if e.finalResult == "Selected" then 1 else 0), p.questions,
      p.rounds + RoundsOf(e))
  }

  const Fresh: CompanyPattern := CompanyPattern(0, 0, [], [])

  function AddCompany(cs: seq<(string, CompanyPattern)>, e: Experience): seq<(string, CompanyPattern)> {
    var cs1 := Ensure(cs, e.companyName, Fresh);
    var k := Find(cs1, e.companyName).value;
    cs1[k := (e.companyName, Credit(cs1[k].1, e))]
  }

  /** One `(category, questions)` item: the key is created, and a list extends it. */
  function AddQuestion(cq: seq<(string, seq<Js>)>, f: Field): seq<(string, seq<Js>)> {
    var cq1 := Ensure(cq, f.key, []);
    var k := Find(cq1, f.key).value;
    if f.value.Arr? then cq1[k := (f.key, cq1[k].1 + f.value.items)] else cq1
  }

  function AddQuestions(cq: seq<(string, seq<Js>)>, fields: seq<Field>): seq<(string, seq<Js>)> {
    if fields == [] then cq else AddQuestion(AddQuestions(cq, fields[..|fields| - 1]), fields[|fields| - 1])
  }

  function AddExperience(p: Patterns, e: Experience): Patterns {
    Patterns(AddCompany(p.companies, e), AddQuestions(p.commonQuestions, QuestionFields(e)), p.roles)
  }

  /** The dictionaries `extract_patterns` builds, one experience after another. */
  function PatternsOf(es: seq<Experience>): Patterns {
    if es == [] then Patterns([], [], []) else AddExperience(PatternsOf(es[..|es| - 1]), es[|es| - 1])
  }

  /** An experience the loop body gets through: `.items()` exists on its
      questions and `extend` can iterate its rounds. */
  predicate Extractable(e: Experience) {
    QuestionsReadable(e) && RoundsIterable(e)
  }

  /** `extract_patterns`: `None` is the `AttributeError` of `.items()` on a
      truthy non-dict (line 36) or the `TypeError` of `extend` on a truthy
      number (line 44), either of which ends the call. */
  function ExtractOutcome(es: seq<Experience>): Option<Patterns> {
    if AllExtractable(es) then Some(PatternsOf(es)) else None
  }

  predicate AllExtractable(es: seq<Experience>) {
    forall i :: 0 <= i < |es| ==> Extractable(es[i])
  }

  lemma ExtractableStep(es: seq<Experience>, i: nat)
    requires i < |es| && AllExtractable(es[..i]) && Extractable(es[i])
    ensures AllExtractable(es[..i + 1])
  {
    var p := es[..i + 1];
    forall j | 0 <= j < |p|
      ensures Extractable(p[j])
    {
      if j < i {
        assert p[j] == es[..i][j];
      }
    }
  }

  // ---------------------------------------------------------------------------
  // Reference tallies

  function Names(es: seq<Experience>): (r: seq<string>)
    ensures |r| == |es| && forall i :: 0 <= i < |es| ==> r[i] == es[i].companyName
  {
    if es == [] then [] else Names(es[..|es| - 1]) + [es[|es| - 1].companyName]
  }

  /** Experiences at the company. */
  function CountAt(es: seq<Experience>, c: string): nat {
    if es == [] then 0 else CountAt(es[..|es| - 1], c) + (if es[|es| - 1].companyName == c then 1 else 0)
  }

  /** Selected experiences at the company; never more than all of them. */
  function SelectedAt(es: seq<Experience>, c: string): (n: nat)
    ensures n <= CountAt(es, c)
  {
    if es == [] then 0
    else
      var e := es[|es| - 1];
      SelectedAt(es[..|es| - 1], c) + (if e.companyName == c && e.finalResult == "Selected" then 1 else 0)
  }

  /** The company's experiences' rounds, in order. */
  function RoundsAt(es: seq<Experience>, c: string): seq<Js> {
    if es == [] then [] else RoundsAt(es[..|es| - 1], c) + (if es[|es| - 1].companyName == c then RoundsOf(es[|es| - 1]) else [])
  }

  /** The list-valued entries for the category in one dict, in order. */
  function FieldQuestions(fields: seq<Field>, cat: string): seq<Js> {
    if fields == [] then []
    else
      var f := fields[|fields| - 1];
      FieldQuestions(fields[..|fields| - 1], cat) + (if f.key == cat && f.value.Arr? then f.value.items else [])
  }

  function FieldKeys(fields: seq<Field>): (r: seq<string>)
    ensures |r| == |fields| && forall i :: 0 <= i < |fields| ==> r[i] == fields[i].key
  {
    if fields == [] then [] else FieldKeys(fields[..|fields| - 1]) + [fields[|fields| - 1].key]
  }

  /** The category's questions across the experiences, in order. */
  function CategoryQuestions(es: seq<Experience>, cat: string): seq<Js> {
    if es == [] then [] else CategoryQuestions(es[..|es| - 1], cat) + FieldQuestions(QuestionFields(es[|es| - 1]), cat)
  }

  /** Some experience's question dict has the category as a key. */
  predicate HasCategory(es: seq<Experience>, cat: string) {
    exists e :: e in es && cat in FieldKeys(QuestionFields(e))
  }

  // ---------------------------------------------------------------------------
  // Properties

  /** One experience credits its own company only. */
  lemma AddCompanyEntry(cs: seq<(string, CompanyPattern)>, e: Experience, c: string)
    requires NoDuplicates(Keys(cs))
    ensures var cs' := AddCompany(cs, e);
      NoDuplicates(Keys(cs')) &&
      Keys(cs') == (if e.companyName in Keys(cs) then Keys(cs) else Keys(cs) + [e.companyName]) &&
      Entry(cs', c) == (if c == e.companyName then Some(Credit(Entry(cs, c).GetOr(Fresh), e)) else Entry(cs, c))
  {
    var cs1 := Ensure(cs, e.companyName, Fresh);
    var k := Find(cs1, e.companyName).value;
    if e.companyName in Keys(cs) {
      EntryAt(cs, k);
    }
    UpsertFacts(cs, e.companyName, Fresh, Credit(cs1[k].1, e), c);
  }

  /** The companies appear once each, in order of first appearance. */
  lemma {:induction false} CompanyKeys(es: seq<Experience>)
    ensures NoDuplicates(Keys(PatternsOf(es).companies))
    ensures Keys(PatternsOf(es).companies) == Dedup(Names(es))
  {
    if es != [] {
      var init := es[..|es| - 1];
      var e := es[|es| - 1];
      CompanyKeys(init);
      AddCompanyEntry(PatternsOf(init).companies, e, e.companyName);
      assert Names(es)[..|Names(es)| - 1] == Names(init);
      assert e.companyName in Keys(PatternsOf(init).companies) <==> e.companyName in Dedup(Names(init));
    }
  }

  /** The reference entry for a company: its count, selected count, no
      questions and its rounds in order. */
  function TallyAt(es: seq<Experience>, c: string): CompanyPattern {
    CompanyPattern(CountAt(es, c), SelectedAt(es, c), [], RoundsAt(es, c))
  }

  lemma TallyStep(es: seq<Experience>, c: string)
    requires es != []
    ensures var e := es[|es| - 1];
      TallyAt(es, c) == if c == e.companyName then Credit(TallyAt(es[..|es| - 1], c), e) else TallyAt(es[..|es| - 1], c)
  {
    var e := es[|es| - 1];
    if c != e.companyName {
      assert RoundsAt(es, c) == RoundsAt(es[..|es| - 1], c) + [];
    }
  }

  /** Each company's entry holds its experience count, its selected count,
      no questions and its rounds in order; a company no experience names
      has no entry. */
  lemma {:induction false} CompanyTallies(es: seq<Experience>, c: string)
    ensures Entry(PatternsOf(es).companies, c) == (if c in Names(es) then Some(TallyAt(es, c)) else None)
  {
    if es != [] {
      var init := es[..|es| - 1];
      var e := es[|es| - 1];
      var cs := PatternsOf(init).companies;
      CompanyTallies(init, c);
      CompanyKeys(init);
      AddCompanyEntry(cs, e, c);
      TallyStep(es, c);
      assert Names(es) == Names(init) + [e.companyName];
      if c == e.companyName && c !in Names(init) {
        NoneBefore(init, c);
        assert TallyAt(init, c) == Fresh;
      }
    }
  }

  /** A company not yet seen has no count, selection or rounds. */
  lemma {:induction false} NoneBefore(es: seq<Experience>, c: string)
    requires c !in Names(es)
    ensures CountAt(es, c) == 0 && SelectedAt(es, c) == 0 && RoundsAt(es, c) == []
  {
    if es != [] {
      assert Names(es[..|es| - 1]) == Names(es)[..|es| - 1];
      NoneBefore(es[..|es| - 1], c);
    }
  }

  /** Selection never exceeds the experience count. */
  lemma SelectedBounded(es: seq<Experience>, c: string)
    requires Entry(PatternsOf(es).companies, c).Some?
    ensures Entry(PatternsOf(es).companies, c).value.selected <= Entry(PatternsOf(es).companies, c).value.count
  {
    CompanyTallies(es, c);
  }

  /** One `(category, questions)` item extends its own category only. */
  lemma AddQuestionEntry(cq: seq<(string, seq<Js>)>, f: Field, cat: string)
    requires NoDuplicates(Keys(cq))
    ensures var cq' := AddQuestion(cq, f);
      NoDuplicates(Keys(cq')) &&
      Entry(cq', cat) == (if cat == f.key then Some(Entry(cq, cat).GetOr([]) + (if f.value.Arr? then f.value.items else []))
                          else Entry(cq, cat))
  {
    var cq1 := Ensure(cq, f.key, []);
    var k := Find(cq1, f.key).value;
    var before := cq1[k].1;
    EnsuredAt(cq, f.key, [], cq1, k);
    if f.value.Arr? {
      UpsertAt(cq, f.key, [], before + f.value.items, cat, cq1, k, cq1[k := (f.key, before + f.value.items)]);
    } else {
      UpsertAt(cq, f.key, [], before, cat, cq1, k, cq1[k := (f.key, before)]);
      assert cq1[k := (f.key, before)] == cq1;
      assert before + [] == before;
    }
  }

  lemma {:induction false} AddQuestionsEntry(cq: seq<(string, seq<Js>)>, fields: seq<Field>, cat: string)
    requires NoDuplicates(Keys(cq))
    ensures var cq' := AddQuestions(cq, fields);
      NoDuplicates(Keys(cq')) &&
      Entry(cq', cat) == (if cat in FieldKeys(fields) then Some(Entry(cq, cat).GetOr([]) + FieldQuestions(fields, cat))
                          else Entry(cq, cat))
  {
    if fields != [] {
      var init := fields[..|fields| - 1];
      var f := fields[|fields| - 1];
      var mid := AddQuestions(cq, init);
      AddQuestionsEntry(cq, init, cat);
      AddQuestionEntry(mid, f, cat);
      assert FieldKeys(fields) == FieldKeys(init) + [f.key];
      var added := if f.key == cat && f.value.Arr? then f.value.items else [];
      assert FieldQuestions(fields, cat) == FieldQuestions(init, cat) + added;
      var base := Entry(cq, cat).GetOr([]);
      if cat !in FieldKeys(init) {
        NoFieldQuestions(init, cat);
        assert FieldQuestions(fields, cat) == added;
        if cat == f.key {
          assert Entry(mid, cat).GetOr([]) == base;
        }
      } else {
        assert Entry(mid, cat) == Some(base + FieldQuestions(init, cat));
        if cat == f.key {
          AppendAssoc(base, FieldQuestions(init, cat), added);
        } else {
          assert added == [];
          assert FieldQuestions(fields, cat) == FieldQuestions(init, cat);
        }
      }
    }
  }

  lemma {:induction false} NoFieldQuestions(fields: seq<Field>, cat: string)
    requires cat !in FieldKeys(fields)
    ensures FieldQuestions(fields, cat) == []
  {
    if fields != [] {
      assert FieldKeys(fields[..|fields| - 1]) == FieldKeys(fields)[..|fields| - 1];
      NoFieldQuestions(fields[..|fields| - 1], cat);
    }
  }

  /** `common_questions[cat]` is the in-order concatenation of the list
      values filed under `cat`; a category with only non-list values is
      created empty; one never seen is absent. */
  lemma {:induction false} CommonQuestions(es: seq<Experience>, cat: string)
    ensures var cq := PatternsOf(es).commonQuestions;
      NoDuplicates(Keys(cq)) &&
      Entry(cq, cat) == (if HasCategory(es, cat) then Some(CategoryQuestions(es, cat)) else None)
  {
    if es != [] {
      var init := es[..|es| - 1];
      var e := es[|es| - 1];
      CommonQuestions(init, cat);
      var cq := PatternsOf(init).commonQuestions;
      AddQuestionsEntry(cq, QuestionFields(e), cat);
      HasCategoryStep(es, cat);
      assert PatternsOf(es).commonQuestions == AddQuestions(cq, QuestionFields(e));
      assert CategoryQuestions(es, cat) == CategoryQuestions(init, cat) + FieldQuestions(QuestionFields(e), cat);
      if !HasCategory(init, cat) {
        NoCategory(init, cat);
        assert Entry(cq, cat).GetOr([]) == [];
      }
      if !(cat in FieldKeys(QuestionFields(e))) {
        NoFieldQuestions(QuestionFields(e), cat);
        assert CategoryQuestions(es, cat) == CategoryQuestions(init, cat);
      }
    }
  }

  lemma HasCategoryStep(es: seq<Experience>, cat: string)
    requires es != []
    ensures HasCategory(es, cat) <==>
      HasCategory(es[..|es| - 1], cat) || cat in FieldKeys(QuestionFields(es[|es| - 1]))
  {
    assert es == es[..|es| - 1] + [es[|es| - 1]];
  }

  lemma {:induction false} NoCategory(es: seq<Experience>, cat: string)
    requires !HasCategory(es, cat)
    ensures CategoryQuestions(es, cat) == []
  {
    if es != [] {
      var init := es[..|es| - 1];
      assert !HasCategory(init, cat) by {
        forall e | e in init
          ensures cat !in FieldKeys(QuestionFields(e))
        {
          assert e in es;
        }
      }
      NoCategory(init, cat);
      NoFieldQuestions(QuestionFields(es[|es| - 1]), cat);
    }
  }

  /** `roles` is never filled. */
  lemma {:induction false} RolesEmpty(es: seq<Experience>)
    ensures PatternsOf(es).roles == []
  {
    if es != [] {
      RolesEmpty(es[..|es| - 1]);
    }
  }

  /** When the call does not raise, its answer holds each company's tally,
      each category's questions and no roles. */
  lemma ExtractedPatterns(es: seq<Experience>, c: string, cat: string)
    requires ExtractOutcome(es).Some?
    ensures var p := ExtractOutcome(es).value;
      Entry(p.companies, c) == (if c in Names(es) then Some(TallyAt(es, c)) else None) &&
      Entry(p.commonQuestions, cat) == (if HasCategory(es, cat) then Some(CategoryQuestions(es, cat)) else None) &&
      p.roles == []
  {
    CompanyTallies(es, c);
    CommonQuestions(es, cat);
    RolesEmpty(es);
  }

  /** Rounds stored as a dict contribute its keys, and as text its characters. */
  lemma RoundsOfShapes(e: Experience)
    ensures e.interviewRounds.Obj? ==>
      RoundsOf(e) == seq(|e.interviewRounds.fields|, i requires 0 <= i < |e.interviewRounds.fields| => Str(e.interviewRounds.fields[i].key))
    ensures e.interviewRounds.Str? ==>
      RoundsOf(e) == seq(|e.interviewRounds.s|, i requires 0 <= i < |e.interviewRounds.s| => Str([e.interviewRounds.s[i]]))
    ensures e.interviewRounds.Arr? ==> RoundsOf(e) == e.interviewRounds.items
  {
  }

  // ---------------------------------------------------------------------------
  // The loop as written

  /** `extract_patterns` as the loop it is: one pass over the experiences,
      stopped by the first experience the body cannot get through. */
  method ExtractPatterns(experiences: seq<Experience>) returns (p: Option<Patterns>)
    ensures p == ExtractOutcome(experiences)
  {
    var patterns := Patterns([], [], []);
    var i := 0;
    while i < |experiences|
      invariant 0 <= i <= |experiences|
      invariant AllExtractable(experiences[..i])
      invariant patterns == PatternsOf(experiences[..i])
    {
      assert experiences[..i + 1][..i] == experiences[..i];
      var exp := experiences[i];
      assert PatternsOf(experiences[..i + 1]) == AddExperience(PatternsOf(experiences[..i]), exp);
      var next := Iteration(patterns, exp);
      if next.None? {
        RaisesAt(experiences, i);
        return None;
      }
      patterns := next.value;
      ExtractableStep(experiences, i);
      i := i + 1;
    }
    assert experiences[..|experiences|] == experiences;
    p := Some(patterns);
  }

  /** The loop body for one experience: its questions (lines 35-40), then
      its company entry with its rounds (lines 22-32 and 43-44). */
  method Iteration(patterns: Patterns, exp: Experience) returns (next: Option<Patterns>)
    ensures next == if Extractable(exp) then Some(AddExperience(patterns, exp)) else None
  {
    var commonQuestions := patterns.commonQuestions;
    if PyTruthy(exp.questionsAsked) {
      if !exp.questionsAsked.Obj? {
        return None;
      }
      commonQuestions := MergeQuestions(commonQuestions, exp.questionsAsked.fields);
    } else {
      assert AddQuestions(commonQuestions, QuestionFields(exp)) == commonQuestions;
    }
    var credited := CreditCompany(patterns.companies, exp);
    if credited.None? {
      return None;
    }
    next := Some(Patterns(credited.value, commonQuestions, patterns.roles));
  }

  /** One experience the body cannot get through makes the whole call raise. */
  lemma RaisesAt(es: seq<Experience>, i: nat)
    requires i < |es| && !Extractable(es[i])
    ensures ExtractOutcome(es) == None
  {
  }

  /** The company part of one iteration: the entry is created if new and
      credited, and its rounds are extended; `None` when `extend` raises. */
  method CreditCompany(cs: seq<(string, CompanyPattern)>, exp: Experience) returns (r: Option<seq<(string, CompanyPattern)>>)
    ensures r == if RoundsIterable(exp) then Some(AddCompany(cs, exp)) else None
  {
    var t := cs;
    if exp.companyName !in Keys(t) {
      t := t + [(exp.companyName, Fresh)];
      assert Keys(t)[|t| - 1] == exp.companyName;
    }
    var k := Find(t, exp.companyName).value;
    var entry := t[k].1;
    entry := entry.(count := entry.count + 1);
    if exp.finalResult == "Selected" {
      entry := entry.(selected := entry.selected + 1);
    }
    if PyTruthy(exp.interviewRounds) {
      if !(exp.interviewRounds.Arr? || exp.interviewRounds.Obj? || exp.interviewRounds.Str?) {
        return None;
      }
      entry := entry.(rounds := entry.rounds + Iterated(exp.interviewRounds));
    }
    assert entry == Credit(t[k].1, exp);
    r := Some(t[k := (exp.companyName, entry)]);
  }

  /** The inner loop over one experience's question dict. */
  method MergeQuestions(cq: seq<(string, seq<Js>)>, fields: seq<Field>) returns (r: seq<(string, seq<Js>)>)
    ensures r == AddQuestions(cq, fields)
  {
    r := cq;
    var j := 0;
    while j < |fields|
      invariant 0 <= j <= |fields|
      invariant r == AddQuestions(cq, fields[..j])
    {
      assert fields[..j + 1][..j] == fields[..j];
      var f := fields[j];
      if f.key !in Keys(r) {
        r := r + [(f.key, [])];
        assert Keys(r)[|r| - 1] == f.key;
      }
      var c := Find(r, f.key).value;
      if f.value.Arr? {
        r := r[c := (f.key, r[c].1 + f.value.items)];
      }
      j := j + 1;
    }
    assert fields[..|fields|] == fields;
  }

  // ---------------------------------------------------------------------------
  // Roadmap

  datatype Roadmap = Roadmap(currentSkills: seq<string>, targetRole: string, targetCompanies: seq<string>,
                             recommendations: seq<string>, timeline: string)

  /** `generate_personalized_roadmap`: the inputs echoed beside fixed advice. */
  function PersonalizedRoadmap(skills: seq<string>, role: string, companies: seq<string>): (r: Roadmap)
    ensures r.currentSkills == skills && r.targetRole == role && r.targetCompanies == companies
    ensures |r.recommendations| == 4 && r.timeline == "8-12 weeks"
  {
    Roadmap(skills, role, companies,
      ["Focus on DSA fundamentals", "Practice coding problems", "Build relevant projects", "Prepare for technical rounds"],
      "8-12 weeks")
  }
}
