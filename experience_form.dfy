/** The experience form (`frontend/src/pages/ExperienceForm.tsx`): a
    four-step wizard over one draft, with small editors that append to or
    remove from the draft's lists, and a submit button that creates or
    updates depending on the route. The mutations' outcomes are not part of
    the state here: both only toast and navigate. */
module ExperienceForm {
  import opened Util
  import PyDict

  /** `STEPS.length - 1`: the last of the four steps. */
  const LastStep: int := 3

  /** A stored round: `{round_name: 'Round n', ...newRound}`. */
  datatype Round = Round(roundName: string, roundType: string, questions: seq<string>, difficulty: string)

  datatype RoundDraft = RoundDraft(roundType: string, questions: seq<string>, difficulty: string)

  datatype QuestionDraft = QuestionDraft(category: string, question: string)

  /** The fields of `formData` the editors touch, and the rest as they are sent.
      `questionsAsked` is an object: its categories in key order, each with its
      list of questions. */
  datatype Draft = Draft(
    companyName: string,
    role: string,
    packageOffered: Option<real>,
    interviewRounds: seq<Round>,
    questionsAsked: seq<(string, seq<string>)>,
    preparationStrategy: string,
    resourcesFollowed: seq<string>,
    rejectionReasons: string,
    finalResult: string,
    isAnonymous: bool)

  datatype FormState = FormState(
    currentStep: int,
    formData: Draft,
    newResource: string,
    newRound: RoundDraft,
    newQuestion: QuestionDraft)

  const EmptyRound: RoundDraft := RoundDraft("", [], "")
  const EmptyQuestion: QuestionDraft := QuestionDraft("DSA", "")

  const EmptyDraft: Draft :=
    Draft("", "", None, [], [("DSA", []), ("Technical", []), ("HR", []), ("Managerial", [])],
          "", [], "", "Selected", false)

  const Start: FormState := FormState(0, EmptyDraft, "", EmptyRound, EmptyQuestion)

  function Max(a: int, b: int): int {
    if a < b then b else a
  }

  /** `xs.filter((_, i) => i !== index)`. */
  function RemoveAt<T>(xs: seq<T>, index: int): (r: seq<T>)
    ensures 0 <= index < |xs| ==> |r| == |xs| - 1
    ensures 0 <= index < |xs| ==> forall j :: 0 <= j < index ==> r[j] == xs[j]
    ensures 0 <= index < |xs| ==> forall j :: index <= j < |r| ==> r[j] == xs[j + 1]
    ensures !(0 <= index < |xs|) ==> r == xs
  {
    if 0 <= index < |xs| then xs[..index] + xs[index + 1..] else xs
  }

  // ---------------------------------------------------------------------------
  // Transitions, as values

  /** Previous: `Math.max(0, currentStep - 1)`. */
  function AfterPrevious(s: FormState): FormState {
    s.(currentStep := Max(0, s.currentStep - 1))
  }

  /** Next: `Math.min(STEPS.length - 1, currentStep + 1)`. */
  function AfterNext(s: FormState): FormState {
    s.(currentStep := Min(LastStep, s.currentStep + 1))
  }

  /** `addResource`. */
  function AfterAddResource(s: FormState): FormState {
    var t := Trim(s.newResource);
    if t != "" then
      s.(formData := s.formData.(resourcesFollowed := s.formData.resourcesFollowed + [t]), newResource := "")
    else s
  }

  /** `removeResource(index)`. */
  function AfterRemoveResource(s: FormState, index: int): FormState {
    s.(formData := s.formData.(resourcesFollowed := RemoveAt(s.formData.resourcesFollowed, index)))
  }

  /** The name a new round is given: one more than the rounds already there. */
  function RoundName(count: nat): string {
    "Round " + NatToString(count + 1)
  }

  /** `addRound`. */
  function AfterAddRound(s: FormState): FormState {
    if s.newRound.roundType != "" then
      var r := Round(RoundName(|s.formData.interviewRounds|), s.newRound.roundType, s.newRound.questions, s.newRound.difficulty);
      s.(formData := s.formData.(interviewRounds := s.formData.interviewRounds + [r]), newRound := EmptyRound)
    else s
  }

  /** A round's delete button. */
  function AfterDeleteRound(s: FormState, index: int): FormState {
    s.(formData := s.formData.(interviewRounds := RemoveAt(s.formData.interviewRounds, index)))
  }

  /** `questions_asked?.[category] || []`. */
  function Listed(questions: seq<(string, seq<string>)>, category: string): seq<string> {
    PyDict.Entry(questions, category).GetOr([])
  }

  /** `{...questions, [category]: list}`: a category already there keeps its
      place, a new one goes last. */
  function WithCategory(questions: seq<(string, seq<string>)>, category: string, list: seq<string>): seq<(string, seq<string>)> {
    var d1 := PyDict.Ensure(questions, category, []);
    d1[PyDict.Find(d1, category).value := (category, list)]
  }

  /** `addQuestion`. */
  function AfterAddQuestion(s: FormState): FormState {
    var q := Trim(s.newQuestion.question);
    if q != "" then
      var c := s.newQuestion.category;
      var qs := s.formData.questionsAsked;
      s.(formData := s.formData.(questionsAsked := WithCategory(qs, c, Listed(qs, c) + [q])), newQuestion := EmptyQuestion)
    else s
  }

  /** The call `handleSubmit` makes. */
  datatype Submission = Create(data: Draft) | Update(id: string, data: Draft)

  /** A route parameter in a condition: absent and `''` are falsy. */
  function SubmitCall(s: FormState, id: Option<string>): (c: Submission)
    ensures c.Update? <==> id.Some? && id.value != ""
    ensures c.data == s.formData
    ensures c.Update? ==> c.id == id.value
  {
    if id.Some? && id.value != "" then Update(id.value, s.formData) else Create(s.formData)
  }

  // ---------------------------------------------------------------------------
  // Properties

  predicate StepInRange(s: FormState) {
    0 <= s.currentStep <= LastStep
  }

  /** The buttons keep the step within the four steps, Previous stops at the
      first and Next at the last. */
  lemma StepsClamped(s: FormState)
    requires StepInRange(s)
    ensures StepInRange(AfterPrevious(s)) && StepInRange(AfterNext(s))
    ensures s.currentStep == 0 ==> AfterPrevious(s) == s
    ensures s.currentStep == LastStep ==> AfterNext(s) == s
    ensures s.currentStep < LastStep ==> AfterPrevious(AfterNext(s)) == s
    ensures s.currentStep > 0 ==> AfterNext(AfterPrevious(s)) == s
  {
  }

  /** Every editor stays on its step. */
  lemma EditorsKeepStep(s: FormState, index: int)
    ensures AfterAddResource(s).currentStep == s.currentStep && AfterRemoveResource(s, index).currentStep == s.currentStep
    ensures AfterAddRound(s).currentStep == s.currentStep && AfterDeleteRound(s, index).currentStep == s.currentStep
    ensures AfterAddQuestion(s).currentStep == s.currentStep
  {
  }

  /** A resource is appended, trimmed, exactly when it is not blank, and the
      input is then cleared; a blank one changes nothing. */
  lemma AddResourceRule(s: FormState)
    ensures Trim(s.newResource) != "" ==>
      AfterAddResource(s).formData.resourcesFollowed == s.formData.resourcesFollowed + [Trim(s.newResource)] &&
      AfterAddResource(s).newResource == "" &&
      AfterAddResource(s).formData.(resourcesFollowed := s.formData.resourcesFollowed) == s.formData
    ensures Trim(s.newResource) == "" ==> AfterAddResource(s) == s
  {
  }

  /** Removing a resource drops that position alone and keeps the order. */
  lemma RemoveResourceRule(s: FormState, index: int)
    requires 0 <= index < |s.formData.resourcesFollowed|
    ensures var before := s.formData.resourcesFollowed;
      var after := AfterRemoveResource(s, index).formData.resourcesFollowed;
      after == before[..index] + before[index + 1..] &&
      multiset(after) + multiset{before[index]} == multiset(before)
  {
    var before := s.formData.resourcesFollowed;
    assert before == before[..index] + [before[index]] + before[index + 1..];
  }

  /** A round is added only with a type; it is named after the count so far
      and the draft is reset. */
  lemma AddRoundRule(s: FormState)
    ensures s.newRound.roundType == "" ==> AfterAddRound(s) == s
    ensures s.newRound.roundType != "" ==>
      var rounds := AfterAddRound(s).formData.interviewRounds;
      |rounds| == |s.formData.interviewRounds| + 1 &&
      rounds[..|rounds| - 1] == s.formData.interviewRounds &&
      rounds[|rounds| - 1] == Round("Round " + NatToString(|s.formData.interviewRounds| + 1), s.newRound.roundType,
                                    s.newRound.questions, s.newRound.difficulty) &&
      AfterAddRound(s).newRound == EmptyRound
  {
  }

  /** Deleting a round renames nothing: every remaining round keeps its name. */
  lemma DeleteRoundKeepsNames(s: FormState, index: int)
    requires 0 <= index < |s.formData.interviewRounds|
    ensures var after := AfterDeleteRound(s, index).formData.interviewRounds;
      forall round :: round in after ==> round in s.formData.interviewRounds
    ensures var after := AfterDeleteRound(s, index).formData.interviewRounds;
      forall j :: 0 <= j < |after| ==> after[j].roundName == s.formData.interviewRounds[if j < index then j else j + 1].roundName
  {
    var before := s.formData.interviewRounds;
    var after := AfterDeleteRound(s, index).formData.interviewRounds;
    forall round | round in after
      ensures round in before
    {
      var j :| 0 <= j < |after| && after[j] == round;
      if j < index {
        assert before[j] == round;
      } else {
        assert before[j + 1] == round;
      }
    }
  }

  /** Because names follow the count, adding after a deletion can repeat a
      name: three rounds, the first deleted, then one more, gives two rounds
      named "Round 3". */
  lemma RoundNamesCanRepeat(s: FormState)
    requires s.formData.interviewRounds == [] && s.newRound.roundType == "HR"
    ensures var s1 := AfterAddRound(s).(newRound := s.newRound);
      var s2 := AfterAddRound(s1).(newRound := s.newRound);
      var s3 := AfterAddRound(s2).(newRound := s.newRound);
      var s4 := AfterDeleteRound(s3, 0);
      var rounds := AfterAddRound(s4).formData.interviewRounds;
      |rounds| == 3 && rounds[1].roundName == "Round 3" && rounds[2].roundName == "Round 3"
  {
    assert NatToString(1) == "1" && NatToString(2) == "2" && NatToString(3) == "3";
  }

  /** A question goes, trimmed, to its chosen category alone and the draft
      goes back to a blank DSA question; a blank one changes nothing. */
  lemma AddQuestionRule(s: FormState, other: string)
    requires NoDuplicates(PyDict.Keys(s.formData.questionsAsked))
    ensures Trim(s.newQuestion.question) == "" ==> AfterAddQuestion(s) == s
    ensures Trim(s.newQuestion.question) != "" ==>
      var qs := AfterAddQuestion(s).formData.questionsAsked;
      var c := s.newQuestion.category;
      var keys := PyDict.Keys(s.formData.questionsAsked);
      NoDuplicates(PyDict.Keys(qs)) &&
      PyDict.Keys(qs) == (if c in keys then keys else keys + [c]) &&
      PyDict.Entry(qs, c) == Some(Listed(s.formData.questionsAsked, c) + [Trim(s.newQuestion.question)]) &&
      (other != c ==> Listed(qs, other) == Listed(s.formData.questionsAsked, other)) &&
      AfterAddQuestion(s).newQuestion == QuestionDraft("DSA", "") &&
      AfterAddQuestion(s).formData.(questionsAsked := s.formData.questionsAsked) == s.formData
  {
    var qs := s.formData.questionsAsked;
    var c := s.newQuestion.category;
    PyDict.UpsertFacts(qs, c, [], Listed(qs, c) + [Trim(s.newQuestion.question)], other);
  }

  /** The form starts with the four categories in order, each once. */
  lemma StartCategories()
    ensures PyDict.Keys(Start.formData.questionsAsked) == ["DSA", "Technical", "HR", "Managerial"]
    ensures NoDuplicates(PyDict.Keys(Start.formData.questionsAsked))
    ensures forall i :: 0 <= i < |Start.formData.questionsAsked| ==> Start.formData.questionsAsked[i].1 == []
  {
  }

  // ---------------------------------------------------------------------------
  // The component

  class Page {
    var currentStep: int
    var formData: Draft
    var newResource: string
    var newRound: RoundDraft
    var newQuestion: QuestionDraft

    function State(): FormState
      reads this
    {
      FormState(currentStep, formData, newResource, newRound, newQuestion)
    }

    constructor ()
      ensures State() == Start
    {
      currentStep, formData, newResource, newRound, newQuestion := 0, EmptyDraft, "", EmptyRound, EmptyQuestion;
    }

    method Previous()
      modifies this
      ensures State() == AfterPrevious(old(State()))
    {
      currentStep := Max(0, currentStep - 1);
    }

    method Next()
      modifies this
      ensures State() == AfterNext(old(State()))
    {
      currentStep := Min(LastStep, currentStep + 1);
    }

    method ResourceTyped(value: string)
      modifies this
      ensures State() == old(State()).(newResource := value)
    {
      newResource := value;
    }

    method AddResource()
      modifies this
      ensures State() == AfterAddResource(old(State()))
    {
      var t := Trim(newResource);
      if t != "" {
        formData := formData.(resourcesFollowed := formData.resourcesFollowed + [t]);
        newResource := "";
      }
    }

    method RemoveResource(index: int)
      modifies this
      ensures State() == AfterRemoveResource(old(State()), index)
    {
      formData := formData.(resourcesFollowed := RemoveAt(formData.resourcesFollowed, index));
    }

    method RoundTypeChosen(value: string)
      modifies this
      ensures State() == old(State()).(newRound := old(newRound).(roundType := value))
    {
      newRound := newRound.(roundType := value);
    }

    method AddRound()
      modifies this
      ensures State() == AfterAddRound(old(State()))
    {
      if newRound.roundType != "" {
        var roundNumber := |formData.interviewRounds| + 1;
        var round := Round("Round " + NatToString(roundNumber), newRound.roundType, newRound.questions, newRound.difficulty);
        formData := formData.(interviewRounds := formData.interviewRounds + [round]);
        newRound := EmptyRound;
      }
    }

    method DeleteRound(index: int)
      modifies this
      ensures State() == AfterDeleteRound(old(State()), index)
    {
      formData := formData.(interviewRounds := RemoveAt(formData.interviewRounds, index));
    }

    method QuestionTyped(category: string, question: string)
      modifies this
      ensures State() == old(State()).(newQuestion := QuestionDraft(category, question))
    {
      newQuestion := QuestionDraft(category, question);
    }

    method AddQuestion()
      modifies this
      ensures State() == AfterAddQuestion(old(State()))
    {
      var q := Trim(newQuestion.question);
      if q != "" {
        var category := newQuestion.category;
        var listed := PyDict.Entry(formData.questionsAsked, category).GetOr([]);
        formData := formData.(questionsAsked := WithCategory(formData.questionsAsked, category, listed + [q]));
        newQuestion := EmptyQuestion;
      }
    }

    /** `handleSubmit`; `id` is the route parameter. */
    method Submit(id: Option<string>) returns (call: Submission)
      ensures call == SubmitCall(State(), id)
    {
      if id.Some? && id.value != "" {
        call := Update(id.value, formData);
      } else {
        call := Create(formData);
      }
    }
  }
}
