/**
 * The wizard's step sequencer: the step list built from the generated
 * questions, the current position in it, the answers collected, and the
 * transitions the screens trigger. Each transition is a function on
 * `WizardState`; the class `Wizard` holds the same fields and its methods make
 * the same changes in place.
 */
module UseWizard {
  import opened Wrappers
  import opened JsText
  import opened WizardTypes
  import opened StepValidation

  // ---- the step list ----

  /**
   * The steps for `questionCount` questions: the idea, the model choice, one
   * step per question, the final clarification and the results.
   */
  function BuildSteps(questionCount: nat): (steps: seq<Step>)
    ensures |steps| == questionCount + 4
    ensures steps[0] == Step("initial-idea", "Initial Idea")
    ensures steps[1] == Step("model-selection", "Model Selection")
    ensures forall k :: 2 <= k < questionCount + 2 ==>
      steps[k] == Step(QuestionStepId(k - 2), "Question " + NatToDecimal(k - 1))
    ensures steps[questionCount + 2] == Step("final-clarification", "Final Clarification")
    ensures steps[questionCount + 3] == Step("results", "Results")
  {
    var dynamicQuestionSteps :=
      seq(questionCount, index requires 0 <= index < questionCount =>
        Step(QuestionStepId(index), "Question " + NatToDecimal(index + 1)));
    [Step("initial-idea", "Initial Idea"), Step("model-selection", "Model Selection")]
    + dynamicQuestionSteps
    + [Step("final-clarification", "Final Clarification"), Step("results", "Results")]
  }

  /** Where each fixed id sits in a step list, and where the question steps are. */
  lemma StepIdAt(n: nat, k: nat)
    requires k < n + 4
    ensures var id := BuildSteps(n)[k].id;
      && (id == "initial-idea" <==> k == 0)
      && (id == "model-selection" <==> k == 1)
      && (id == "final-clarification" <==> k == n + 2)
      && (id == "results" <==> k == n + 3)
      && (id == "question-0" <==> n > 0 && k == 2)
      && (IsQuestionStep(id) <==> 2 <= k < n + 2)
  {
    var id := BuildSteps(n)[k].id;
    FixedStepIds();
    assert QuestionStepId(0) == "question-0";
    if 2 <= k < n + 2 {
      if id == "question-0" {
        QuestionStepIdInjective(k - 2, 0);
      }
    }
  }

  /** Moving forward: one step on, but never past the last step. */
  function NextIndex(current: nat, totalSteps: nat): (next: nat)
    requires totalSteps > 0
    ensures next < totalSteps
    ensures current + 1 < totalSteps ==> next == current + 1
    ensures current + 1 >= totalSteps ==> next == totalSteps - 1
  {
    var candidate := current + 1;
    if candidate < totalSteps - 1 then candidate else totalSteps - 1
  }

  /** Moving back: one step back, but never before the first step. */
  function PreviousIndex(current: nat): (previous: nat)
    ensures current > 0 ==> previous + 1 == current
    ensures current == 0 ==> previous == 0
  {
    var candidate := current - 1;
    if candidate > 0 then candidate else 0
  }

  // ---- answer selection ----

  predicate NoDuplicates(xs: seq<string>) {
    forall i, j :: 0 <= i < j < |xs| ==> xs[i] != xs[j]
  }

  /**
   * `Array.from(new Set(xs))`: each element once. A duplicate-free list comes
   * back unchanged; that is the only kind a wizard state holds (`WellTyped`).
   */
  function Dedup(xs: seq<string>): (r: seq<string>)
    ensures NoDuplicates(r)
    ensures forall x :: x in r <==> x in xs
    ensures NoDuplicates(xs) ==> r == xs
  {
    if xs == [] then []
    else
      var init := Dedup(xs[..|xs| - 1]);
      var last := xs[|xs| - 1];
      assert forall x :: x in xs <==> x in xs[..|xs| - 1] || x == last by {
        assert xs == xs[..|xs| - 1] + [last];
      }
      if last in init then init else init + [last]
  }

  /** The elements of `xs` other than `x`, in order (deleting from a set keeps the others' order). */
  function Without(xs: seq<string>, x: string): (r: seq<string>)
    ensures forall y :: y in r <==> y in xs && y != x
    ensures NoDuplicates(xs) ==> NoDuplicates(r)
    ensures x !in xs ==> r == xs
  {
    if xs == [] then []
    else
      var rest := Without(xs[1..], x);
      assert forall y :: y in xs <==> y == xs[0] || y in xs[1..] by {
        assert xs == [xs[0]] + xs[1..];
      }
      assert NoDuplicates(xs) ==> xs[0] !in xs[1..] && NoDuplicates(xs[1..]);
      if xs[0] == x then rest
      else
        assert xs == [xs[0]] + xs[1..];
        [xs[0]] + rest
  }

  /**
   * The new selection of a multi-choice question: an option already chosen is
   * removed, any other is added at the end; nothing is chosen twice, and no
   * other option changes.
   */
  function Toggle(selection: seq<string>, option: string): (r: seq<string>)
    ensures NoDuplicates(r)
    ensures option in r <==> option !in selection
    ensures forall x :: x != option ==> (x in r <==> x in selection)
    ensures NoDuplicates(selection) && option !in selection ==> r == selection + [option]
    ensures NoDuplicates(selection) && option in selection ==> r == Without(selection, option)
  {
    var selectionSet := Dedup(selection);
    if option in selectionSet then Without(selectionSet, option)
    else
      var r := selectionSet + [option];
      assert forall i :: 0 <= i < |selectionSet| ==> r[i] == selectionSet[i] && r[i] != option;
      r
  }

  /** Deleting from a list with a known first element. */
  lemma WithoutCons(head: string, tail: seq<string>, x: string)
    ensures Without([head] + tail, x) == (if head == x then [] else [head]) + Without(tail, x)
  {
    assert ([head] + tail)[0] == head && ([head] + tail)[1..] == tail;
  }

  /** Toggling an option twice leaves the same options chosen. */
  lemma ToggleTwiceSameChoices(selection: seq<string>, option: string)
    ensures forall x :: x in Toggle(Toggle(selection, option), option) <==> x in selection
  {
  }

  /** Toggling an unchosen option on and off restores a duplicate-free selection exactly. */
  lemma ToggleTwiceRestores(selection: seq<string>, option: string)
    requires NoDuplicates(selection) && option !in selection
    ensures Toggle(Toggle(selection, option), option) == selection
  {
    var once := selection + [option];
    assert Toggle(selection, option) == once;
    assert NoDuplicates(once) by {
      assert forall i :: 0 <= i < |selection| ==> once[i] == selection[i];
    }
    WithoutLast(selection, option);
  }

  /** Removing the last element of a sequence that holds it nowhere else. */
  lemma {:induction false} WithoutLast(xs: seq<string>, x: string)
    requires x !in xs
    ensures Without(xs + [x], x) == xs
    decreases |xs|
  {
    if xs == [] {
    } else {
      assert (xs + [x])[1..] == xs[1..] + [x];
      WithoutLast(xs[1..], x);
      assert xs == [xs[0]] + xs[1..];
    }
  }

  /** Toggling a chosen option off and on moves it to the end of the selection. */
  lemma ToggleTwiceMovesToEnd(selection: seq<string>, option: string)
    requires NoDuplicates(selection) && option in selection
    ensures Toggle(Toggle(selection, option), option) == Without(selection, option) + [option]
  {
  }

  /** Each code point of a string as a one-character string: what iterating a string yields. */
  function Chars(s: string): (cs: seq<string>)
    ensures |cs| == |s| && forall i :: 0 <= i < |s| ==> cs[i] == [s[i]]
  {
    seq(|s|, i requires 0 <= i < |s| => [s[i]])
  }

  /**
   * `(slot as string[] | null) || []`: the current choices of a multi-choice
   * question. A non-empty string in the slot is iterable too, so it yields its
   * characters; well-typed answers never put one there.
   */
  function SelectionOf(slot: Answer): (selection: seq<string>)
    ensures slot.Multi? ==> selection == slot.values
    ensures slot.Unanswered? ==> selection == []
    ensures slot.Single? ==> |selection| == |slot.value| && forall x :: x in selection ==> |x| == 1
    ensures slot.Single? ==> selection == Chars(slot.value)
    ensures slot.Single? ==> forall i :: 0 <= i < |slot.value| ==> selection[i] == [slot.value[i]]
  {
    match slot
    case Unanswered => []
    case Multi(values) => values
    case Single(value) => if value == "" then [] else Chars(value)
  }

  /**
   * Writes `a` into slot `i` of a copy of the answer array. Writing past the
   * end lengthens the array; the slots skipped read as unanswered.
   */
  function SetSlot(answers: seq<Answer>, i: nat, a: Answer): (r: seq<Answer>)
    ensures |r| == if i < |answers| then |answers| else i + 1
    ensures r[i] == a
    ensures forall k :: 0 <= k < |r| && k != i ==> r[k] == AnswerAt(answers, k)
  {
    if i < |answers| then answers[i := a]
    else answers + seq(i - |answers|, _ => Unanswered) + [a]
  }

  /**
   * The answers after choosing `option` for question `questionIndex`: `None`
   * when there is no such question (reading its kind throws). On a
   * single-choice question the slot becomes the option; on a multi-choice
   * question the option is toggled; the other slots keep their values.
   */
  function SelectAnswer(answers: seq<Answer>, questions: seq<Question>, questionIndex: int, option: string)
    : (r: Option<seq<Answer>>)
    ensures r.None? <==> !(0 <= questionIndex < |questions|)
    ensures r.Some? ==>
      && questionIndex < |r.value|
      && (questionIndex < |answers| ==> |r.value| == |answers|)
      && (forall k :: 0 <= k < |r.value| && k != questionIndex ==> r.value[k] == AnswerAt(answers, k))
      && (questions[questionIndex].kind == SingleChoice ==> r.value[questionIndex] == Single(option))
      && (questions[questionIndex].kind == MultiChoice ==>
            && r.value[questionIndex].Multi?
            && NoDuplicates(r.value[questionIndex].values)
            && (var selection := SelectionOf(AnswerAt(answers, questionIndex));
                NoDuplicates(selection) ==>
                  r.value[questionIndex].values ==
                    if option in selection then Without(selection, option) else selection + [option])
            && (option in r.value[questionIndex].values <==> option !in SelectionOf(AnswerAt(answers, questionIndex)))
            && (forall x :: x != option ==>
                  (x in r.value[questionIndex].values <==> x in SelectionOf(AnswerAt(answers, questionIndex)))))
  {
    if !(0 <= questionIndex < |questions|) then None
    else if questions[questionIndex].kind == MultiChoice then
      var currentSelection := SelectionOf(AnswerAt(answers, questionIndex));
      Some(SetSlot(answers, questionIndex, Multi(Toggle(currentSelection, option))))
    else
      Some(SetSlot(answers, questionIndex, Single(option)))
  }

  // ---- the sequencer's state and its transitions ----

  datatype WizardState = WizardState(
    currentStep: nat,
    isLoading: bool,
    error: Option<string>,
    initialFormValues: Option<IdeaValues>,
    selectedModel: ModelId,
    questions: seq<Question>,
    answers: seq<Answer>,
    finalClarification: string,
    generatedTdd: string)

  function TotalSteps(s: WizardState): (total: nat)
    ensures total == |s.questions| + 4
  {
    |BuildSteps(|s.questions|)|
  }

  /** A fresh wizard: first step, nothing collected, the first model of the list chosen. */
  function InitialState(): WizardState {
    WizardState(0, false, None, None, Models[0], [], [], "", "")
  }

  /** One answer slot per question. */
  predicate Parallel(s: WizardState) {
    |s.answers| == |s.questions|
  }

  /**
   * Every answered slot has the shape its question's kind asks for, and a
   * multi-choice slot, built from a set, holds each choice once.
   */
  predicate WellTyped(s: WizardState) {
    forall i :: 0 <= i < |s.answers| && i < |s.questions| ==>
      && (s.answers[i] == Unanswered || ShapeFits(s.answers[i], s.questions[i].kind))
      && (s.answers[i].Multi? ==> NoDuplicates(s.answers[i].values))
  }

  predicate StepInRange(s: WizardState) {
    s.currentStep < TotalSteps(s)
  }

  predicate Invariant(s: WizardState) {
    Parallel(s) && WellTyped(s) && StepInRange(s)
  }

  /** Moving forward changes the position only, by the clamped step. */
  function Next(s: WizardState): (r: WizardState)
    ensures r.(currentStep := s.currentStep) == s
    ensures r.currentStep == NextIndex(s.currentStep, TotalSteps(s))
  {
    s.(currentStep := NextIndex(s.currentStep, TotalSteps(s)))
  }

  /** Moving back changes the position only, by the clamped step. */
  function Previous(s: WizardState): (r: WizardState)
    ensures r.(currentStep := s.currentStep) == s
    ensures r.currentStep == PreviousIndex(s.currentStep)
  {
    s.(currentStep := PreviousIndex(s.currentStep))
  }

  /**
   * Starting over gives a fresh wizard, except that an error message on display
   * stays (the source resets every field but the error).
   */
  function StartOver(s: WizardState): (r: WizardState)
    ensures r == InitialState().(error := s.error)
  {
    s.(currentStep := 0, initialFormValues := None, questions := [], answers := [],
       finalClarification := "", generatedTdd := "", isLoading := false,
       selectedModel := Gemini20Flash)
  }

  /** Choosing a model changes nothing else, and the step stays. */
  function ModelSelect(s: WizardState, model: ModelId): (r: WizardState)
    ensures r.selectedModel == model && r.(selectedModel := s.selectedModel) == s
  {
    s.(selectedModel := model)
  }

  /** Editing the final clarification changes nothing else. */
  function EditFinalClarification(s: WizardState, text: string): (r: WizardState)
    ensures r.finalClarification == text && r.(finalClarification := s.finalClarification) == s
  {
    s.(finalClarification := text)
  }

  /** Choosing an option: only the answers change, and `None` when the question does not exist. */
  function AnswerSelect(s: WizardState, questionIndex: int, option: string): (r: Option<WizardState>)
    ensures r.None? <==> !(0 <= questionIndex < |s.questions|)
    ensures r.Some? ==> r.value.(answers := s.answers) == s
  {
    match SelectAnswer(s.answers, s.questions, questionIndex, option)
    case None => None
    case Some(answers) => Some(s.(answers := answers))
  }

  /** What a remote call gave back: its data, or what it threw. */
  datatype Thrown = ErrorThrown(message: string) | OtherThrown
  datatype Outcome<+T> = Success(data: T) | Failure(thrown: Thrown)

  /** The message shown for a failure: an `Error`'s own message, otherwise the handler's fallback. */
  function FailureMessage(thrown: Thrown, fallback: string): string {
    match thrown
    case ErrorThrown(message) => message
    case OtherThrown => fallback
  }

  const UnknownValidationError := "An unknown error occurred during validation."
  const MissingInitialValues := "Initial values not found."
  const QuestionsError := "An error occurred while generating questions. Please try again."
  const TddError := "An error occurred while generating the TDD. Please try again."

  /** The idea form with its idea text passed through the sanitiser. */
  function Sanitized(values: IdeaValues, sanitize: string -> string): (r: IdeaValues)
    ensures r.platform == values.platform && r.idea == sanitize(values.idea)
  {
    values.(idea := sanitize(values.idea))
  }

  /**
   * Submitting the idea: on success the sanitised form is kept and the wizard
   * moves one step on; on failure the error is shown and nothing else changes.
   * Loading is off afterwards either way.
   */
  function InitialSubmit(s: WizardState, values: IdeaValues, sanitize: string -> string, outcome: Outcome<()>)
    : (r: WizardState)
    ensures outcome.Success? ==>
      r == s.(isLoading := false, error := None, initialFormValues := Some(Sanitized(values, sanitize)),
              currentStep := NextIndex(s.currentStep, TotalSteps(s)))
    ensures outcome.Failure? ==>
      r == s.(isLoading := false, error := Some(FailureMessage(outcome.thrown, UnknownValidationError)))
  {
    var totalSteps := TotalSteps(s);
    var entered := s.(isLoading := true, error := None);
    var settled :=
      match outcome
      case Success(_) =>
        entered.(initialFormValues := Some(Sanitized(values, sanitize)),
                 currentStep := NextIndex(entered.currentStep, totalSteps))
      case Failure(thrown) => entered.(error := Some(FailureMessage(thrown, UnknownValidationError)));
    settled.(isLoading := false)
  }

  /** The request the question generator is sent. */
  datatype QuestionsRequest = QuestionsRequest(values: IdeaValues, model: ModelId)

  /**
   * Generating the questions. Without a submitted idea nothing is sent and the
   * error says so. On success the questions are replaced, every answer slot is
   * reset to unanswered and the wizard moves one step on, clamped by the step
   * count from before the questions changed; on failure only the error changes.
   */
  function GenerateQuestions(s: WizardState, outcome: Outcome<seq<Question>>): (r: WizardState)
    ensures !r.isLoading
    ensures s.initialFormValues.None? ==> r == s.(isLoading := false, error := Some(MissingInitialValues))
    ensures s.initialFormValues.Some? && outcome.Success? ==>
      && r.questions == outcome.data
      && |r.answers| == |outcome.data|
      && (forall i :: 0 <= i < |r.answers| ==> r.answers[i] == Unanswered)
      && r.currentStep == NextIndex(s.currentStep, TotalSteps(s))
      && r == s.(isLoading := false, error := None, questions := r.questions, answers := r.answers,
                 currentStep := r.currentStep)
    ensures s.initialFormValues.Some? && outcome.Failure? ==>
      r == s.(isLoading := false, error := Some(FailureMessage(outcome.thrown, QuestionsError)))
  {
    var totalSteps := TotalSteps(s);
    var entered := s.(isLoading := true, error := None);
    var settled :=
      if entered.initialFormValues.None? then entered.(error := Some(MissingInitialValues))
      else
        match outcome
        case Success(questions) =>
          entered.(questions := questions,
                   answers := seq(|questions|, _ => Unanswered),
                   currentStep := NextIndex(entered.currentStep, totalSteps))
        case Failure(thrown) => entered.(error := Some(FailureMessage(thrown, QuestionsError)));
    settled.(isLoading := false)
  }

  /** The request the generator is sent for questions, if one is sent at all. */
  function QuestionsRequestOf(s: WizardState): (r: Option<QuestionsRequest>)
    ensures r.Some? <==> s.initialFormValues.Some?
    ensures r.Some? ==> r.value == QuestionsRequest(s.initialFormValues.value, s.selectedModel)
  {
    match s.initialFormValues
    case None => None
    case Some(values) => Some(QuestionsRequest(values, s.selectedModel))
  }

  /** The request the document generator is sent: everything collected so far. */
  datatype TddRequest = TddRequest(
    initialFormValues: Option<IdeaValues>,
    questions: seq<Question>,
    answers: seq<Answer>,
    finalClarification: string,
    model: ModelId)

  function TddRequestOf(s: WizardState): TddRequest {
    TddRequest(s.initialFormValues, s.questions, s.answers, s.finalClarification, s.selectedModel)
  }

  /**
   * Generating the document: on success it is kept and the wizard moves one
   * step on; on any failure the error is the one fixed message, whatever was
   * thrown, and nothing else changes.
   */
  function GenerateTdd(s: WizardState, outcome: Outcome<string>): (r: WizardState)
    ensures outcome.Success? ==>
      r == s.(isLoading := false, error := None, generatedTdd := outcome.data,
              currentStep := NextIndex(s.currentStep, TotalSteps(s)))
    ensures outcome.Failure? ==> r == s.(isLoading := false, error := Some(TddError))
  {
    var totalSteps := TotalSteps(s);
    var entered := s.(isLoading := true, error := None);
    var settled :=
      match outcome
      case Success(tdd) =>
        entered.(generatedTdd := tdd, currentStep := NextIndex(entered.currentStep, totalSteps))
      case Failure(_) => entered.(error := Some(TddError));
    settled.(isLoading := false)
  }

  // ---- derived flags ----

  datatype DerivedFlags = DerivedFlags(
    isFirstStep: bool,
    isLastStep: bool,
    isModelSelectionStep: bool,
    isFinalClarificationStep: bool,
    isGenerating: bool,
    isFirstQuestionStep: bool,
    isBackButtonDisabled: bool)

  /** `steps[currentStep]`, which is `undefined` past the end of the list. */
  function CurrentStepData(s: WizardState): (r: Option<Step>)
    ensures r.Some? <==> StepInRange(s)
  {
    var steps := BuildSteps(|s.questions|);
    if s.currentStep < |steps| then Some(steps[s.currentStep]) else None
  }

  /** Which fixed id the current step has, if the current step exists. */
  lemma CurrentStepIdFacts(s: WizardState)
    ensures var n := |s.questions|;
      && (CurrentIdIs(s, "model-selection") <==> s.currentStep == 1)
      && (CurrentIdIs(s, "final-clarification") <==> s.currentStep == n + 2)
      && (CurrentIdIs(s, "question-0") <==> n > 0 && s.currentStep == 2)
  {
    if s.currentStep < |s.questions| + 4 {
      StepIdAt(|s.questions|, s.currentStep);
    }
  }

  /** True when the current step exists and has the id `id`. */
  predicate CurrentIdIs(s: WizardState, id: string) {
    CurrentStepData(s).Some? && CurrentStepData(s).value.id == id
  }

  /**
   * The flags the screens read, stated by position in the step list: the
   * model choice is step 1, the final clarification the one before the last,
   * the first question step 2 when there are questions; the document is being
   * generated while loading on the final clarification, and going back is
   * disabled while loading and on the first question.
   */
  function Flags(s: WizardState): (f: DerivedFlags)
    ensures f.isFirstStep <==> s.currentStep == 0
    ensures f.isLastStep <==> s.currentStep == TotalSteps(s) - 1
    ensures f.isModelSelectionStep <==> s.currentStep == 1
    ensures f.isFinalClarificationStep <==> s.currentStep == |s.questions| + 2
    ensures f.isFirstQuestionStep <==> |s.questions| > 0 && s.currentStep == 2
    ensures f.isGenerating <==> s.isLoading && s.currentStep == |s.questions| + 2
    ensures f.isBackButtonDisabled <==> s.isLoading || (|s.questions| > 0 && s.currentStep == 2)
  {
    CurrentStepIdFacts(s);
    var isFinalClarificationStep := CurrentIdIs(s, "final-clarification");
    var isFirstQuestionStep := CurrentIdIs(s, "question-0");
    DerivedFlags(
      s.currentStep == 0,
      s.currentStep == TotalSteps(s) - 1,
      CurrentIdIs(s, "model-selection"),
      isFinalClarificationStep,
      isFinalClarificationStep && s.isLoading,
      isFirstQuestionStep,
      s.isLoading || isFirstQuestionStep)
  }

  // ---- what the transitions keep ----

  lemma InitialStateInvariant()
    ensures Invariant(InitialState())
  {
  }

  lemma NextKeepsInvariant(s: WizardState)
    requires Invariant(s)
    ensures Invariant(Next(s))
  {
  }

  lemma PreviousKeepsInvariant(s: WizardState)
    requires Invariant(s)
    ensures Invariant(Previous(s))
  {
  }

  /** Start over lands in a valid state whatever state it leaves. */
  lemma StartOverEstablishesInvariant(s: WizardState)
    ensures Invariant(StartOver(s))
  {
  }

  lemma ModelSelectKeepsInvariant(s: WizardState, model: ModelId)
    requires Invariant(s)
    ensures Invariant(ModelSelect(s, model))
  {
  }

  lemma EditFinalClarificationKeepsInvariant(s: WizardState, text: string)
    requires Invariant(s)
    ensures Invariant(EditFinalClarification(s, text))
  {
  }

  /** Choosing an answer keeps one slot per question, each of its question's shape and without repeats. */
  lemma AnswerSelectKeepsInvariant(s: WizardState, questionIndex: int, option: string)
    requires Invariant(s)
    requires AnswerSelect(s, questionIndex, option).Some?
    ensures Invariant(AnswerSelect(s, questionIndex, option).value)
  {
    var r := AnswerSelect(s, questionIndex, option).value;
    assert |r.answers| == |s.answers|;
    forall i | 0 <= i < |r.answers| && i < |r.questions|
      ensures r.answers[i] == Unanswered || ShapeFits(r.answers[i], r.questions[i].kind)
      ensures r.answers[i].Multi? ==> NoDuplicates(r.answers[i].values)
    {
      if i != questionIndex {
        assert r.answers[i] == s.answers[i];
      }
    }
  }

  /**
   * Under the invariant a multi-choice slot never holds a string, so the
   * character quirk of `SelectionOf` never fires, and its choices are distinct.
   */
  lemma WellTypedSelection(s: WizardState, i: nat)
    requires WellTyped(s) && i < |s.answers| && i < |s.questions| && s.questions[i].kind == MultiChoice
    ensures !s.answers[i].Single?
    ensures NoDuplicates(SelectionOf(s.answers[i]))
  {
  }

  /**
   * In a valid wizard, choosing an option of a multi-choice question appends it
   * to the end of the current choices when it is new, and otherwise deletes it
   * with the other choices kept in order.
   */
  lemma AnswerSelectToggleInOrder(s: WizardState, questionIndex: nat, option: string)
    requires Invariant(s) && questionIndex < |s.questions| && s.questions[questionIndex].kind == MultiChoice
    ensures var selection := SelectionOf(s.answers[questionIndex]);
      AnswerSelect(s, questionIndex, option).Some? &&
      AnswerSelect(s, questionIndex, option).value.answers[questionIndex].values ==
        if option in selection then Without(selection, option) else selection + [option]
  {
    WellTypedSelection(s, questionIndex);
  }

  lemma InitialSubmitKeepsInvariant(s: WizardState, values: IdeaValues, sanitize: string -> string,
                                    validation: Outcome<()>)
    requires Invariant(s)
    ensures Invariant(InitialSubmit(s, values, sanitize, validation))
  {
  }

  lemma GenerateTddKeepsInvariant(s: WizardState, document: Outcome<string>)
    requires Invariant(s)
    ensures Invariant(GenerateTdd(s, document))
  {
  }

  /**
   * Generating questions keeps the invariant whenever the new step list still
   * reaches the advanced position, in particular when it is started from the
   * model selection step, where the screens offer it.
   */
  lemma GenerateQuestionsKeepsInvariant(s: WizardState, outcome: Outcome<seq<Question>>)
    requires Invariant(s)
    requires outcome.Success? ==> s.currentStep <= |outcome.data| + 2
    ensures Invariant(GenerateQuestions(s, outcome))
  {
  }

  /**
   * From the model selection step, generated questions lead to the first
   * question, where going back is disabled, or straight to the final
   * clarification when there are none.
   */
  lemma GenerateQuestionsFromModelSelection(s: WizardState, questions: seq<Question>)
    requires Invariant(s) && s.currentStep == 1 && s.initialFormValues.Some?
    ensures var r := GenerateQuestions(s, Success(questions));
      && Invariant(r)
      && r.currentStep == 2
      && (questions != [] ==> Flags(r).isFirstQuestionStep && Flags(r).isBackButtonDisabled)
      && (questions == [] ==> Flags(r).isFinalClarificationStep)
  {
    GenerateQuestionsKeepsInvariant(s, Success(questions));
    var r := GenerateQuestions(s, Success(questions));
    assert r.questions == questions && r.currentStep == 2;
  }

  /**
   * Start over names its model by the literal "gemini-2.0-flash"; that is the
   * first entry of the model list, the one a fresh wizard starts with.
   */
  lemma StartOverKeepsDefaultModel(s: WizardState)
    ensures StartOver(s).selectedModel == InitialState().selectedModel
    ensures ModelName(StartOver(s).selectedModel) == "gemini-2.0-flash"
    ensures StartOver(s).selectedModel == Models[0]
  {
  }

  /**
   * What a failed call shows: idea validation and question generation show a
   * thrown `Error`'s own message and their own fallback for anything else;
   * TDD generation shows its fixed message whatever was thrown.
   */
  lemma FailureMessageShown(s: WizardState, values: IdeaValues, sanitize: string -> string, message: string)
    ensures InitialSubmit(s, values, sanitize, Failure(ErrorThrown(message))).error == Some(message)
    ensures InitialSubmit(s, values, sanitize, Failure(OtherThrown)).error == Some(UnknownValidationError)
    ensures s.initialFormValues.Some? ==>
      && GenerateQuestions(s, Failure(ErrorThrown(message))).error == Some(message)
      && GenerateQuestions(s, Failure(OtherThrown)).error == Some(QuestionsError)
    ensures GenerateTdd(s, Failure(ErrorThrown(message))).error == Some(TddError)
    ensures GenerateTdd(s, Failure(OtherThrown)).error == Some(TddError)
  {
  }

  /**
   * The step is clamped with the step count from before the questions changed,
   * so a wizard asked to regenerate from a late step, getting fewer questions,
   * points past the end of the new list.
   */
  lemma GenerateQuestionsLateCanOverrun()
    ensures var q := Question("Q", ["A"], SingleChoice);
      var s := WizardState(6, false, None, Some(IdeaValues("a resume app", WebApp)), Gemini20Flash,
                           [q, q, q, q, q], [Unanswered, Unanswered, Unanswered, Unanswered, Unanswered], "", "");
      var r := GenerateQuestions(s, Success([q]));
      Invariant(s) && r.currentStep == 7 && !StepInRange(r) && CurrentStepData(r).None?
  {
  }

  // ---- the hook, as an object whose fields change in place ----

  class Wizard {
    var currentStep: nat
    var isLoading: bool
    var error: Option<string>
    var initialFormValues: Option<IdeaValues>
    var selectedModel: ModelId
    var questions: seq<Question>
    var answers: seq<Answer>
    var finalClarification: string
    var generatedTdd: string

    function State(): WizardState
      reads this
    {
      WizardState(currentStep, isLoading, error, initialFormValues, selectedModel,
                  questions, answers, finalClarification, generatedTdd)
    }

    ghost predicate Valid()
      reads this
    {
      Invariant(State())
    }

    function Steps(): (steps: seq<Step>)
      reads this
      ensures |steps| == |questions| + 4
    {
      BuildSteps(|questions|)
    }

    constructor ()
      ensures State() == InitialState() && Valid()
    {
      currentStep := 0;
      isLoading := false;
      error := None;
      initialFormValues := None;
      selectedModel := Models[0];
      questions := [];
      answers := [];
      finalClarification := "";
      generatedTdd := "";
    }

    /** `setCurrentStep(prev => Math.min(prev + 1, totalSteps - 1))` with the step count of the caller's render. */
    method Advance(totalSteps: nat)
      requires totalSteps > 0
      modifies this`currentStep
      ensures currentStep == NextIndex(old(currentStep), totalSteps)
    {
      currentStep := if currentStep + 1 < totalSteps - 1 then currentStep + 1 else totalSteps - 1;
    }

    method GoToNextStep()
      modifies this
      ensures State() == Next(old(State()))
      ensures old(Valid()) ==> Valid()
    {
      Advance(|Steps()|);
      if old(Valid()) {
        NextKeepsInvariant(old(State()));
      }
    }

    method GoToPreviousStep()
      modifies this
      ensures State() == Previous(old(State()))
      ensures old(Valid()) ==> Valid()
    {
      currentStep := if currentStep - 1 > 0 then currentStep - 1 else 0;
      if old(Valid()) {
        PreviousKeepsInvariant(old(State()));
      }
    }

    method HandleStartOver()
      modifies this
      ensures State() == StartOver(old(State()))
      ensures Valid()
    {
      currentStep := 0;
      initialFormValues := None;
      questions := [];
      answers := [];
      finalClarification := "";
      generatedTdd := "";
      isLoading := false;
      selectedModel := Gemini20Flash;
      StartOverEstablishesInvariant(old(State()));
    }

    method HandleModelSelect(model: ModelId)
      modifies this
      ensures State() == ModelSelect(old(State()), model)
      ensures old(Valid()) ==> Valid()
    {
      selectedModel := model;
      if old(Valid()) {
        ModelSelectKeepsInvariant(old(State()), model);
      }
    }

    method SetFinalClarification(text: string)
      modifies this
      ensures State() == EditFinalClarification(old(State()), text)
      ensures old(Valid()) ==> Valid()
    {
      finalClarification := text;
      if old(Valid()) {
        EditFinalClarificationKeepsInvariant(old(State()), text);
      }
    }

    /**
     * The idea form is sanitised and sent for validation; `outcome` is what the
     * validation call gave back, `sent` what it was given.
     */
    method HandleInitialSubmit(values: IdeaValues, sanitize: string -> string, outcome: Outcome<()>)
      returns (sent: IdeaValues)
      modifies this
      ensures sent == Sanitized(values, sanitize)
      ensures State() == InitialSubmit(old(State()), values, sanitize, outcome)
      ensures old(Valid()) ==> Valid()
    {
      var totalSteps := |Steps()|;
      isLoading := true;
      error := None;
      var sanitizedValues := values.(idea := sanitize(values.idea));
      sent := sanitizedValues;
      match outcome {
        case Success(_) =>
          initialFormValues := Some(sanitizedValues);
          Advance(totalSteps);
        case Failure(ErrorThrown(message)) =>
          error := Some(message);
        case Failure(OtherThrown) =>
          error := Some(UnknownValidationError);
      }
      isLoading := false;
      if old(Valid()) {
        InitialSubmitKeepsInvariant(old(State()), values, sanitize, outcome);
      }
    }

    /**
     * Asks for questions about the submitted idea; `sent` is the request, `None`
     * when no idea was submitted and nothing was sent.
     */
    method HandleGenerateQuestions(outcome: Outcome<seq<Question>>) returns (sent: Option<QuestionsRequest>)
      modifies this
      ensures sent == QuestionsRequestOf(old(State()))
      ensures State() == GenerateQuestions(old(State()), outcome)
    {
      var totalSteps := |Steps()|;
      isLoading := true;
      error := None;
      if initialFormValues.None? {
        sent := None;
        error := Some(MissingInitialValues);
      } else {
        sent := Some(QuestionsRequest(initialFormValues.value, selectedModel));
        match outcome {
          case Success(data) =>
            questions := data;
            answers := seq(|data|, _ => Unanswered);
            Advance(totalSteps);
          case Failure(ErrorThrown(message)) =>
            error := Some(message);
          case Failure(OtherThrown) =>
            error := Some(QuestionsError);
        }
      }
      isLoading := false;
    }

    /**
     * Chooses `option` for question `questionIndex`. `ok` is false, and nothing
     * changes, when there is no such question (the source throws reading its kind).
     */
    method HandleAnswerSelect(questionIndex: int, option: string) returns (ok: bool)
      modifies this
      ensures ok <==> 0 <= questionIndex < |old(questions)|
      ensures ok ==> State() == AnswerSelect(old(State()), questionIndex, option).value
      ensures !ok ==> State() == old(State())
      ensures old(Valid()) ==> Valid()
    {
      if !(0 <= questionIndex < |questions|) {
        return false;
      }
      ghost var before := State();
      var newAnswers := answers;
      var question := questions[questionIndex];
      if question.kind == MultiChoice {
        var currentSelection := SelectionOf(AnswerAt(newAnswers, questionIndex));
        var selectionSet := Dedup(currentSelection);
        if option in selectionSet {
          selectionSet := Without(selectionSet, option);
        } else {
          selectionSet := selectionSet + [option];
        }
        assert selectionSet == Toggle(currentSelection, option);
        newAnswers := SetSlot(newAnswers, questionIndex, Multi(selectionSet));
      } else {
        newAnswers := SetSlot(newAnswers, questionIndex, Single(option));
      }
      assert SelectAnswer(before.answers, before.questions, questionIndex, option) == Some(newAnswers);
      answers := newAnswers;
      assert State() == before.(answers := newAnswers);
      ok := true;
      if old(Valid()) {
        AnswerSelectKeepsInvariant(old(State()), questionIndex, option);
      }
    }

    /** Sends everything collected to the document generator; `sent` is the request. */
    method HandleGenerateTdd(outcome: Outcome<string>) returns (sent: TddRequest)
      modifies this
      ensures sent == TddRequestOf(old(State()))
      ensures State() == GenerateTdd(old(State()), outcome)
      ensures old(Valid()) ==> Valid()
    {
      var totalSteps := |Steps()|;
      isLoading := true;
      error := None;
      sent := TddRequest(initialFormValues, questions, answers, finalClarification, selectedModel);
      match outcome {
        case Success(tdd) =>
          generatedTdd := tdd;
          Advance(totalSteps);
        case Failure(_) =>
          error := Some(TddError);
      }
      isLoading := false;
      if old(Valid()) {
        GenerateTddKeepsInvariant(old(State()), outcome);
      }
    }
  }
}
