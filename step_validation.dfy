/** Business rules for wizard steps: whether an answer is complete and how question step ids are read. */
module StepValidation {
  import opened Wrappers
  import opened JsText
  import opened WizardTypes

  /** The options an answer has picked, whatever its shape. */
  function Picked(answer: Answer): seq<string> {
    match answer
    case Unanswered => []
    case Single(v) => if v == "" then [] else [v]
    case Multi(vs) => vs
  }

  /** True when the answer has the shape its question kind asks for. */
  predicate ShapeFits(answer: Answer, kind: QuestionKind) {
    match answer
    case Unanswered => false
    case Single(_) => kind == SingleChoice
    case Multi(_) => kind == MultiChoice
  }

  /**
   * An answer is complete exactly when it has the shape of its question's kind
   * and picks something; so a list answer to a single-choice question and a
   * string answer to a multi-choice question are both incomplete.
   */
  function IsQuestionAnswerComplete(answer: Answer, kind: QuestionKind): (complete: bool)
    ensures complete <==> ShapeFits(answer, kind) && Picked(answer) != []
  {
    if answer.Unanswered? then false
    else if kind == MultiChoice then answer.Multi? && |answer.values| > 0
    else answer.Single? && |answer.value| > 0
  }

  const QuestionPrefix := "question-"

  predicate IsQuestionStep(stepId: string) {
    StartsWith(stepId, QuestionPrefix)
  }

  /**
   * A question step id is exactly the prefix followed by anything: every such
   * string is one, and every one splits that way.
   */
  lemma QuestionStepShape(stepId: string, rest: string)
    ensures IsQuestionStep(QuestionPrefix + rest)
    ensures IsQuestionStep(stepId) <==>
      |stepId| >= |QuestionPrefix| && stepId == QuestionPrefix + stepId[|QuestionPrefix|..]
  {
    assert (QuestionPrefix + rest)[..|QuestionPrefix|] == QuestionPrefix;
    if |stepId| >= |QuestionPrefix| {
      assert stepId == stepId[..|QuestionPrefix|] + stepId[|QuestionPrefix|..];
    }
  }

  /** The id of the step for question `i`. */
  function QuestionStepId(i: nat): (id: string)
    ensures IsQuestionStep(id)
  {
    QuestionPrefix + NatToDecimal(i)
  }

  /** The piece of a step id after its first '-' and before any second one; `None` stands for `undefined`. */
  function SecondField(stepId: string): Option<string> {
    var parts := Split(stepId, '-');
    if |parts| > 1 then Some(parts[1]) else None
  }

  /** `parseInt(stepId.split("-")[1], 10)`; `parseInt(undefined)` is NaN. */
  function ParseSecondField(stepId: string): (r: Option<int>)
    ensures r.Some? ==> r.value >= 0
  {
    match SecondField(stepId)
    case None => None
    case Some(field) => ParseInt(field)
  }

  /** The index a question step id carries, or the error the source throws. */
  function GetQuestionIndex(stepId: string): (r: Result<int, string>)
    ensures !IsQuestionStep(stepId) <==> r == Err("Step ID " + stepId + " is not a question step")
    ensures r.Ok? ==> IsQuestionStep(stepId) && r.value >= 0 && ParseSecondField(stepId) == Some(r.value)
    ensures IsQuestionStep(stepId) && r.Err? ==>
      ParseSecondField(stepId).None? && r.error == "Invalid question index in step ID: " + stepId
  {
    if !IsQuestionStep(stepId) then
      Err("Step ID " + stepId + " is not a question step")
    else
      var index := ParseSecondField(stepId);
      if index.None? then
        assert ("Invalid question index in step ID: " + stepId)[0] == 'I';
        assert ("Step ID " + stepId + " is not a question step")[0] == 'S';
        Err("Invalid question index in step ID: " + stepId)
      else
        Ok(index.value)
  }

  /** The id a step list gives question `i` reads back as `i`. */
  lemma QuestionIndexRoundTrip(i: nat)
    ensures GetQuestionIndex(QuestionStepId(i)) == Ok(i)
  {
    var ds := NatToDecimal(i);
    assert '-' !in ds by {
      forall k | 0 <= k < |ds| ensures ds[k] != '-' { assert IsDigit(ds[k]); }
    }
    assert QuestionStepId(i) == "question" + ['-'] + ds;
    SplitAfterPrefix("question", '-', ds);
    SplitNoSeparator(ds, '-');
    assert SecondField(QuestionStepId(i)) == Some(ds);
  }

  /** Different questions have different step ids. */
  lemma QuestionStepIdInjective(i: nat, j: nat)
    requires QuestionStepId(i) == QuestionStepId(j)
    ensures i == j
  {
    QuestionIndexRoundTrip(i);
    QuestionIndexRoundTrip(j);
  }

  /**
   * Whether the footer must keep "next" disabled: never off a question step;
   * on a question step, when its index is malformed, when no question has that
   * index, or when that question's answer is not complete.
   */
  function IsCurrentQuestionUnanswered(current: Step, questions: seq<Question>, answers: seq<Answer>): (r: bool)
    ensures !IsQuestionStep(current.id) ==> !r
    ensures IsQuestionStep(current.id) && GetQuestionIndex(current.id).Err? ==> r
    ensures IsQuestionStep(current.id) && GetQuestionIndex(current.id).Ok? ==>
      var i := GetQuestionIndex(current.id).value;
      r == (i >= |questions| || !IsQuestionAnswerComplete(AnswerAt(answers, i), questions[i].kind))
  {
    if !IsQuestionStep(current.id) then false
    else
      match GetQuestionIndex(current.id)
      case Err(_) => true
      case Ok(i) =>
        if !(0 <= i < |questions|) then true
        else !IsQuestionAnswerComplete(AnswerAt(answers, i), questions[i].kind)
  }

  /** None of the fixed step ids is a question step id; "question-0" is one. */
  lemma FixedStepIds()
    ensures !IsQuestionStep("initial-idea") && !IsQuestionStep("model-selection")
    ensures !IsQuestionStep("final-clarification") && !IsQuestionStep("results")
    ensures IsQuestionStep("question-0")
  {
    assert QuestionPrefix[0] == 'q';
    assert "initial-idea"[..9][0] == 'i';
    assert "model-selection"[..9][0] == 'm';
    assert "final-clarification"[..9][0] == 'f';
    assert |"results"| < |QuestionPrefix|;
    assert "question-0"[..9] == QuestionPrefix;
  }

  /** What a step id says about the kind of step. */
  datatype StepTypeInfo = StepTypeInfo(
    isFirstStep: bool,
    isModelSelectionStep: bool,
    isFinalClarificationStep: bool,
    isResultsStep: bool,
    isQuestionStep: bool,
    isFirstQuestionStep: bool)

  /** How many of the five step kinds an info claims. */
  function KindsClaimed(info: StepTypeInfo): nat {
    (if info.isFirstStep then 1 else 0) + (if info.isModelSelectionStep then 1 else 0)
    + (if info.isFinalClarificationStep then 1 else 0) + (if info.isResultsStep then 1 else 0)
    + (if info.isQuestionStep then 1 else 0)
  }

  /** Classifies a step id; an id claims at most one kind, and the first question is a question. */
  function GetStepTypeInfo(stepId: string): (info: StepTypeInfo)
    ensures KindsClaimed(info) <= 1
    ensures info.isFirstQuestionStep ==> info.isQuestionStep
    ensures info.isQuestionStep <==> IsQuestionStep(stepId)
  {
    FixedStepIds();
    StepTypeInfo(
      stepId == "initial-idea",
      stepId == "model-selection",
      stepId == "final-clarification",
      stepId == "results",
      IsQuestionStep(stepId),
      stepId == "question-0")
  }
}
