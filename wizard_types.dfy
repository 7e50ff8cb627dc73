/** The values the wizard passes around: questions, answers, steps, models and the idea form. */
module WizardTypes {

  /**
   * A question's kind tag. Only the tag "multi-choice" changes behaviour; any
   * other tag the generation service sends reads as single choice.
   */
  datatype QuestionKind = SingleChoice | MultiChoice

  /** A generated question: its prompt, the options offered and its kind. */
  datatype Question = Question(text: string, options: seq<string>, kind: QuestionKind)

  /**
   * One answer slot, `string | string[] | null` in the source: nothing chosen
   * yet, the chosen option of a single-choice question, or the options chosen
   * for a multi-choice question in the order they were chosen.
   */
  datatype Answer = Unanswered | Single(value: string) | Multi(values: seq<string>)

  /** The slot for question `i`; reading past the end of the array gives `undefined`, which every reader treats as unanswered. */
  function AnswerAt(answers: seq<Answer>, i: int): (a: Answer)
    ensures 0 <= i < |answers| ==> a == answers[i]
    ensures !(0 <= i < |answers|) ==> a == Unanswered
  {
    if 0 <= i < |answers| then answers[i] else Unanswered
  }

  /** One entry of the wizard's step list. */
  datatype Step = Step(id: string, name: string)

  /** The generation models on offer. */
  datatype ModelId = Gemini20Flash | Gemini25Pro

  function ModelName(m: ModelId): string {
    match m
    case Gemini20Flash => "gemini-2.0-flash"
    case Gemini25Pro => "gemini-2.5-pro"
  }

  /** The model list, in the order the selection screen shows it. */
  const Models: seq<ModelId> := [Gemini20Flash, Gemini25Pro]

  datatype Platform = WebApp | MobileApp | DesktopApp

  /** What the user typed on the first screen. */
  datatype IdeaValues = IdeaValues(idea: string, platform: Platform)
}
