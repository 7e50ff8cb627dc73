/**
 * Step routing: a step id is classified into one of the registered step kinds
 * and the matching screen is chosen, with a guard that refuses a question step
 * whose index names no question.
 */
module StepRouter {
  import opened Wrappers
  import opened JsText
  import opened WizardTypes
  import opened StepValidation

  /** The keys of the step component registry. */
  datatype StepType = InitialIdeaType | ModelSelectionType | QuestionType | FinalClarificationType | ResultsType

  function RegistryKey(t: StepType): string {
    match t
    case InitialIdeaType => "initial-idea"
    case ModelSelectionType => "model-selection"
    case QuestionType => "question"
    case FinalClarificationType => "final-clarification"
    case ResultsType => "results"
  }

  predicate IsRegistryKey(id: string) {
    id in {"initial-idea", "model-selection", "question", "final-clarification", "results"}
  }

  /** The registry entry an own key of the registry names. */
  function RegistryType(id: string): (t: StepType)
    requires IsRegistryKey(id)
    ensures RegistryKey(t) == id
  {
    if id == "initial-idea" then InitialIdeaType
    else if id == "model-selection" then ModelSelectionType
    else if id == "question" then QuestionType
    else if id == "final-clarification" then FinalClarificationType
    else ResultsType
  }

  /** A JavaScript number-or-undefined holding a parsed question index. */
  datatype IndexValue = Undefined | NaN | Index(value: int)

  /** The number `parseInt` gave, NaN standing for "no digits". */
  function FromParse(p: Option<int>): (v: IndexValue)
    ensures v != Undefined
  {
    match p
    case None => NaN
    case Some(i) => Index(i)
  }

  /** How a template literal writes the index. */
  function IndexText(v: IndexValue): string {
    match v
    case Undefined => "undefined"
    case NaN => "NaN"
    case Index(i) => IntToDecimal(i)
  }

  datatype ParsedStep = ParsedStep(stepType: StepType, questionIndex: IndexValue)

  /**
   * Classifies a step id. Ids starting with "question-" are question steps
   * carrying the number after the first '-'; the registry's own keys stand for
   * themselves (the bare "question" without an index); any other id is refused.
   */
  function ParseStepId(stepId: string): (r: Result<ParsedStep, string>)
    ensures r.Err? <==> !IsQuestionStep(stepId) && !IsRegistryKey(stepId)
    ensures r.Err? ==> r.error == "Unknown step ID: " + stepId
    ensures IsQuestionStep(stepId) ==>
      r == Ok(ParsedStep(QuestionType, FromParse(ParseSecondField(stepId))))
    ensures r.Ok? && !IsQuestionStep(stepId) ==>
      RegistryKey(r.value.stepType) == stepId && r.value.questionIndex == Undefined
  {
    if IsQuestionStep(stepId) then
      Ok(ParsedStep(QuestionType, FromParse(ParseSecondField(stepId))))
    else if IsRegistryKey(stepId) then
      Ok(ParsedStep(RegistryType(stepId), Undefined))
    else
      Err("Unknown step ID: " + stepId)
  }

  /** The router and the validation helpers read the same index out of a question step id. */
  lemma ParseStepIdAgreesWithGetQuestionIndex(stepId: string)
    requires IsQuestionStep(stepId)
    ensures ParseStepId(stepId).Ok?
    ensures forall i :: ParseStepId(stepId).value.questionIndex == Index(i) <==> GetQuestionIndex(stepId) == Ok(i)
    ensures ParseStepId(stepId).value.questionIndex == NaN <==> GetQuestionIndex(stepId).Err?
  {
  }

  /** What the router hands the chosen screen. */
  datatype RouterProps = RouterProps(
    current: Step,
    questions: seq<Question>,
    answers: seq<Answer>,
    finalClarification: string,
    generatedTdd: string,
    selectedModel: ModelId,
    isLoading: bool)

  /** The screen the router renders, with the data it passes on. */
  datatype View =
    | InitialIdeaView(isSubmitting: bool)
    | ModelSelectionView(selectedModel: ModelId)
    | QuestionView(questionIndex: nat, question: Question, answer: Answer)
    | FinalClarificationView(value: string)
    | ResultsView(tdd: string, model: ModelId)

  /**
   * Chooses the screen for the current step. An unknown id fails as the parser
   * does; a question step renders only when its index names an existing
   * question (this refuses the bare "question", a malformed number and an index
   * out of range), and then shows that question with its answer slot.
   */
  function Route(props: RouterProps): (r: Result<View, string>)
    ensures ParseStepId(props.current.id).Err? ==> r == Err(ParseStepId(props.current.id).error)
    ensures ParseStepId(props.current.id).Ok? && ParseStepId(props.current.id).value.stepType == QuestionType ==>
      var index := ParseStepId(props.current.id).value.questionIndex;
      && (r.Ok? <==> index.Index? && 0 <= index.value < |props.questions|)
      && (r.Err? ==> r.error == "Invalid question index: " + IndexText(index))
    ensures r.Ok? && r.value.QuestionView? ==>
      && r.value.questionIndex < |props.questions|
      && r.value.question == props.questions[r.value.questionIndex]
      && r.value.answer == AnswerAt(props.answers, r.value.questionIndex)
      && ParseStepId(props.current.id) == Ok(ParsedStep(QuestionType, Index(r.value.questionIndex)))
    ensures ParseStepId(props.current.id).Ok? && ParseStepId(props.current.id).value.stepType != QuestionType ==> r.Ok?
  {
    match ParseStepId(props.current.id)
    case Err(e) => Err(e)
    case Ok(ParsedStep(stepType, questionIndex)) =>
      match stepType
      case InitialIdeaType => Ok(InitialIdeaView(props.isLoading))
      case ModelSelectionType => Ok(ModelSelectionView(props.selectedModel))
      case QuestionType =>
        if !questionIndex.Index? || !(0 <= questionIndex.value < |props.questions|) then
          Err("Invalid question index: " + IndexText(questionIndex))
        else
          var i := questionIndex.value;
          Ok(QuestionView(i, props.questions[i], AnswerAt(props.answers, i)))
      case FinalClarificationType => Ok(FinalClarificationView(props.finalClarification))
      case ResultsType => Ok(ResultsView(props.generatedTdd, props.selectedModel))
  }

  /** The id of question `i` parses as a question step carrying `i`. */
  lemma ParseQuestionStepId(i: nat)
    ensures ParseStepId(QuestionStepId(i)) == Ok(ParsedStep(QuestionType, Index(i)))
  {
    QuestionIndexRoundTrip(i);
  }

  /** A question step whose index names a question renders that question with its answer. */
  lemma RouteQuestionStep(props: RouterProps, i: nat)
    requires ParseStepId(props.current.id) == Ok(ParsedStep(QuestionType, Index(i)))
    requires i < |props.questions|
    ensures Route(props) == Ok(QuestionView(i, props.questions[i], AnswerAt(props.answers, i)))
  {
  }

  // ---- the registry test as the source writes it ----

  /** The property names every JavaScript object inherits from `Object.prototype`. */
  const ObjectPrototypeKeys: set<string> := {
    "constructor", "hasOwnProperty", "isPrototypeOf", "propertyIsEnumerable",
    "toString", "toLocaleString", "valueOf", "__proto__",
    "__defineGetter__", "__defineSetter__", "__lookupGetter__", "__lookupSetter__"
  }

  /** The result of the source's parser: the type is whatever key the `in` test accepted. */
  datatype RawParsedStep = RawParsedStep(typeName: string, questionIndex: IndexValue)

  /**
   * The parser as written: its registry test is JavaScript's `in`, which is
   * also true for the names the registry object inherits.
   */
  function ParseStepIdAsWritten(stepId: string): (r: Result<RawParsedStep, string>)
    ensures r.Ok? <==> IsQuestionStep(stepId) || stepId in ObjectPrototypeKeys || IsRegistryKey(stepId)
    ensures r.Err? ==> r.error == "Unknown step ID: " + stepId
    ensures stepId in ObjectPrototypeKeys ==> r == Ok(RawParsedStep(stepId, Undefined))
  {
    PrototypeKeysOutsideRegistry(stepId);
    if IsQuestionStep(stepId) then
      Ok(RawParsedStep("question", FromParse(ParseSecondField(stepId))))
    else if IsRegistryKey(stepId) || stepId in ObjectPrototypeKeys then
      Ok(RawParsedStep(stepId, Undefined))
    else
      Err("Unknown step ID: " + stepId)
  }

  /** No inherited name is a registry key or a question step id. */
  lemma PrototypeKeysOutsideRegistry(k: string)
    ensures k in ObjectPrototypeKeys ==> !IsRegistryKey(k) && !IsQuestionStep(k)
  {
    if k in ObjectPrototypeKeys {
      assert k[0] != 'q' || |k| < |QuestionPrefix|;
    }
  }

  /**
   * The discrepancy: "toString" passes the as-written registry test and comes
   * back with a type no screen handles, so the router's default case throws
   * "Unhandled step type: toString"; the parser the model uses refuses it with
   * "Unknown step ID: toString", as it does every other unregistered id.
   */
  lemma InheritedKeyEscapesRegistry()
    ensures ParseStepIdAsWritten("toString") == Ok(RawParsedStep("toString", Undefined))
    ensures !IsRegistryKey("toString")
    ensures ParseStepId("toString") == Err("Unknown step ID: toString")
  {
    PrototypeKeysOutsideRegistry("toString");
    assert "Unknown step ID: " + "toString" == "Unknown step ID: toString";
  }

  /**
   * Apart from the inherited names the two parsers agree, and the parser the
   * model uses only ever yields a registered type.
   */
  lemma ParseStepIdCorrectsAsWritten(stepId: string)
    ensures stepId !in ObjectPrototypeKeys ==>
      match ParseStepId(stepId)
      case Err(e) => ParseStepIdAsWritten(stepId) == Err(e)
      case Ok(p) => ParseStepIdAsWritten(stepId) == Ok(RawParsedStep(RegistryKey(p.stepType), p.questionIndex))
    ensures stepId in ObjectPrototypeKeys ==>
      && ParseStepIdAsWritten(stepId) == Ok(RawParsedStep(stepId, Undefined))
      && ParseStepId(stepId) == Err("Unknown step ID: " + stepId)
  {
    if stepId in ObjectPrototypeKeys {
      PrototypeKeysOutsideRegistry(stepId);
    }
  }

  /**
   * The router over the parser as written: the switch on the accepted type
   * name has a case per registry key, and its default case throws for any
   * other name, which only an inherited name can reach.
   */
  function RouteAsWritten(props: RouterProps): (r: Result<View, string>)
    ensures ParseStepIdAsWritten(props.current.id).Err? ==> r == Err(ParseStepIdAsWritten(props.current.id).error)
    ensures props.current.id in ObjectPrototypeKeys ==> r == Err("Unhandled step type: " + props.current.id)
  {
    PrototypeKeysOutsideRegistry(props.current.id);
    match ParseStepIdAsWritten(props.current.id)
    case Err(e) => Err(e)
    case Ok(RawParsedStep(typeName, questionIndex)) =>
      if typeName == "initial-idea" then Ok(InitialIdeaView(props.isLoading))
      else if typeName == "model-selection" then Ok(ModelSelectionView(props.selectedModel))
      else if typeName == "question" then
        if !questionIndex.Index? || !(0 <= questionIndex.value < |props.questions|) then
          Err("Invalid question index: " + IndexText(questionIndex))
        else
          var i := questionIndex.value;
          Ok(QuestionView(i, props.questions[i], AnswerAt(props.answers, i)))
      else if typeName == "final-clarification" then Ok(FinalClarificationView(props.finalClarification))
      else if typeName == "results" then Ok(ResultsView(props.generatedTdd, props.selectedModel))
      else Err("Unhandled step type: " + typeName)
  }

  /**
   * Off the inherited names the router as written and the router the model
   * uses render the same screen or fail with the same message; on an inherited
   * name the first throws "Unhandled step type", the second "Unknown step ID".
   */
  lemma RouteCorrectsAsWritten(props: RouterProps)
    ensures props.current.id !in ObjectPrototypeKeys ==> RouteAsWritten(props) == Route(props)
    ensures props.current.id in ObjectPrototypeKeys ==>
      && RouteAsWritten(props) == Err("Unhandled step type: " + props.current.id)
      && Route(props) == Err("Unknown step ID: " + props.current.id)
  {
    ParseStepIdCorrectsAsWritten(props.current.id);
  }
}
