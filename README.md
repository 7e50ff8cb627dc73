# Architext wizard — a verified Dafny model

Architext turns a product idea into a technical design document (TDD) through
a multi-step wizard:

1. The user writes an idea and picks a platform.
2. They choose a language model.
3. They answer the generated clarification questions, one step per question.
4. They add a final clarification.
5. They read the generated document.

This project models the core of that wizard and of the endpoint that formats
the answers for the generation chain:

- `UseWizard` (`use_wizard.dfy`) is the `useWizard` hook. It covers:
  - the step list built from the questions;
  - clamped forward/back navigation;
  - start over;
  - model choice;
  - the single-choice and multi-choice answer toggles;
  - the three remote round trips: validate the idea, generate the questions, generate the TDD;
  - the flags derived from the current step.

  The hook's state is the datatype `WizardState`. Every handler is a pure
  transition on it. The `Wizard` class has one field per piece of React state,
  and its methods update those fields in place. Each method is proved to move
  the fields exactly as its transition function does. Every transition except
  question generation is proved to keep the wizard invariant: answers
  parallel to questions, well-shaped answers with no choice repeated, and
  the current step inside the list. Question generation keeps it only when the new list still reaches
  the current step, as it does when generation starts from model selection.
- `StepValidation` (`step_validation.dfy`) holds the step-validation utilities:
  - answer completeness;
  - question-step ids and `getQuestionIndex` with its two error messages;
  - the unanswered-question check;
  - `getStepTypeInfo`.
- `StepRouter` (`step_router.dfy`) holds `parseStepId` and `Route`, which picks
  the screen and its data. `Route` is built on the corrected parser
  (see "## Findings"), so it never reaches the switch's default case.
  `RouteAsWritten` is the router over the parser as written, with that
  default case's "Unhandled step type" error; the two routers agree on every
  id except the inherited `Object.prototype` names.
- `GenerateTdd` (`generate_tdd.dfy`) is the `/generate_tdd` endpoint up to the
  chain call:
  - the `Q: …\nA: …` pairs over `zip`;
  - the newline join;
  - the `dict.get` defaults;
  - the `KeyError` when a paired question has no `"question"` key.
- `JsText` (`js_text.dfy`) models the JavaScript and Python string built-ins
  used above, as far as the wizard relies on them:
  - `split`;
  - `"\n".join`;
  - template-literal decimals;
  - `parseInt(…, 10)`, including leading white space, a sign and trailing junk.
- `WizardTypes` holds the shared entities.
- `WizardSteps` holds whole-wizard properties and concrete walkthroughs.

Remote calls are not executed. Each handler takes the call's outcome as a
parameter: success with its data, a thrown `Error` with its message, or
another thrown value. The handler returns the request it would have sent.

Three behaviours of the code that are easy to overlook, and that the model
keeps:

- Start over sets the model to `gemini-2.0-flash`, the first entry of the
  model list, rather than clearing it (`use-wizard.ts:68`).
- Start over leaves `error` as it was (`use-wizard.ts:60-69`).
- Completeness requires the answer's shape to match the question type. A
  string answer to a multi-choice question counts as incomplete
  (`step-validation.ts:15-19`).

## Model

| member | source | states |
|---|---|---|
| JsText.IndexOf | src/components/wizard/utils/step-validation.ts:37 | None exactly when the character does not occur; otherwise the index of its first occurrence |
| JsText.Split | src/components/wizard/utils/step-validation.ts:37 | `split` yields at least one field and no field contains the separator |
| JsText.Join | api/generate_tdd.py:25 | joining no parts gives the empty string, one part gives that part |
| JsText.JoinSplit | api/generate_tdd.py:25 | splitting at a separator and joining with it gives back the original string |
| JsText.SplitAfterPrefix | src/components/wizard/utils/step-validation.ts:37 | a separator-free prefix followed by the separator becomes exactly the first field |
| JsText.NatToDecimal | src/components/wizard/hooks/use-wizard.ts:37-38 | the template-literal decimal of a number is non-empty, all digits, has no leading zero and denotes that number |
| JsText.IntToDecimal | src/components/wizard/step-router.tsx:135 | the text of an index starts with a minus sign iff the index is negative, and `parseInt` reads it back as the same index |
| JsText.NatToDecimalInjective | src/components/wizard/hooks/use-wizard.ts:37 | distinct numbers have distinct decimal texts |
| JsText.TrimStart | src/components/wizard/utils/step-validation.ts:37 | `parseInt` drops exactly the leading white space and line terminators |
| JsText.LeadingDigits | src/components/wizard/utils/step-validation.ts:37 | `parseInt` reads the longest all-digit prefix |
| JsText.ParseInt | src/components/wizard/utils/step-validation.ts:37 | with no minus sign the result is never negative; an all-digit text parses to its value |
| JsText.ParseIntOfDecimal | src/components/wizard/hooks/use-wizard.ts:37 | `parseInt` of the decimal text of n is n |
| StepValidation.IsQuestionAnswerComplete | src/components/wizard/utils/step-validation.ts:9-20 | complete iff the answer has the shape of its question type and picks something |
| StepValidation.QuestionStepId | src/components/wizard/hooks/use-wizard.ts:37 | every generated question id is recognised as a question step |
| StepValidation.ParseSecondField | src/components/wizard/utils/step-validation.ts:37 | the parsed second dash field of a question id is never negative |
| StepValidation.QuestionStepShape | src/components/wizard/utils/step-validation.ts:25-27 | `isQuestionStep` holds exactly for the prefix `question-` followed by anything |
| StepValidation.GetQuestionIndex | src/components/wizard/utils/step-validation.ts:32-44 | the "is not a question step" error exactly for ids without the prefix; the "Invalid question index" error when the index is NaN; otherwise a non-negative index |
| StepValidation.QuestionIndexRoundTrip | src/components/wizard/utils/step-validation.ts:32-44 | the index read back from `question-i` is i |
| StepValidation.QuestionStepIdInjective | src/components/wizard/hooks/use-wizard.ts:36-39 | two questions never share a step id |
| StepValidation.IsCurrentQuestionUnanswered | src/components/wizard/utils/step-validation.ts:49-69 | false off question steps; true on a bad index or a missing question; otherwise the negation of completeness |
| StepValidation.FixedStepIds | src/components/wizard/utils/step-validation.ts:74-80 | the four fixed ids are not question steps and `question-0` is one |
| StepValidation.GetStepTypeInfo | src/components/wizard/utils/step-validation.ts:74-90 | at most one step kind is claimed; the first question step is a question step; the question flag agrees with the prefix test |
| StepRouter.RegistryType | src/components/wizard/step-router.tsx:72-78 | each registry key names the step type registered under it |
| StepRouter.FromParse | src/components/wizard/step-router.tsx:85 | a parsed question index is never undefined (NaN or a number) |
| StepRouter.ParseStepId | src/components/wizard/step-router.tsx:83-94 | "Unknown step ID" exactly for ids that are neither question ids nor own registry keys; a question id gives the question type with its parsed index |
| StepRouter.ParseStepIdAgreesWithGetQuestionIndex | src/components/wizard/step-router.tsx:84-87 | the router reads the same index as `getQuestionIndex`, and NaN exactly where it throws |
| StepRouter.Route | src/components/wizard/step-router.tsx:114-166 | over the corrected parse: parse errors propagate; a question step renders iff its index names an existing question, else "Invalid question index"; other step types always render |
| StepRouter.RouteAsWritten | src/components/wizard/step-router.tsx:83-166 | over the parse as written: parse errors propagate, and an inherited name reaches the default case and fails with "Unhandled step type: " and the name |
| StepRouter.RouteCorrectsAsWritten | src/components/wizard/step-router.tsx:89-166 | the two routers give the same screen or error on every id except the inherited names, where the code as written says "Unhandled step type" and the corrected router "Unknown step ID" |
| StepRouter.ParseStepIdAsWritten | src/components/wizard/step-router.tsx:83-94 | accepts exactly the question ids, the registry keys and the inherited `Object.prototype` names, each inherited name standing for itself with no index; every other id gets "Unknown step ID" |
| StepRouter.PrototypeKeysOutsideRegistry | src/components/wizard/step-router.tsx:89 | no inherited name is a registry key or a question id |
| StepRouter.InheritedKeyEscapesRegistry | src/components/wizard/step-router.tsx:89-93 | `toString` gets through the check as written but is an unknown step id |
| StepRouter.ParseStepIdCorrectsAsWritten | src/components/wizard/step-router.tsx:83-94 | the corrected parse agrees with the code as written on every id except the inherited names, which it rejects |
| UseWizard.BuildSteps | src/components/wizard/hooks/use-wizard.ts:35-48 | the list is initial idea, model selection, one step per question, final clarification, results, with the exact ids and names |
| UseWizard.StepIdAt | src/components/wizard/hooks/use-wizard.ts:35-48 | each fixed id sits at exactly one position; question ids fill exactly positions 2 to n+1 |
| UseWizard.TotalSteps | src/components/wizard/hooks/use-wizard.ts:50 | the step count is the question count plus four |
| UseWizard.NextIndex | src/components/wizard/hooks/use-wizard.ts:52-54 | forward moves by one and never leaves the list |
| UseWizard.PreviousIndex | src/components/wizard/hooks/use-wizard.ts:56-58 | back moves by one and stops at the first step |
| UseWizard.Next | src/components/wizard/hooks/use-wizard.ts:52-54 | only the current step changes |
| UseWizard.Previous | src/components/wizard/hooks/use-wizard.ts:56-58 | only the current step changes |
| UseWizard.StartOver | src/components/wizard/hooks/use-wizard.ts:60-69 | everything returns to the initial state except the error message |
| UseWizard.StartOverKeepsDefaultModel | src/components/wizard/hooks/use-wizard.ts:60-69 | the model literal "gemini-2.0-flash" that start over writes is the first entry of the model list, the one a fresh wizard starts with |
| UseWizard.ModelSelect | src/components/wizard/hooks/use-wizard.ts:94-96 | only the chosen model changes |
| UseWizard.EditFinalClarification | src/components/wizard/hooks/use-wizard.ts:27 | only the final clarification changes |
| UseWizard.Dedup | src/components/wizard/hooks/use-wizard.ts:133 | building the set keeps the same members, removes duplicates, and leaves duplicate-free input unchanged (the only input a valid wizard gives it) |
| UseWizard.Without | src/components/wizard/hooks/use-wizard.ts:134-135 | deleting removes exactly the option and keeps the rest duplicate-free |
| UseWizard.WithoutCons | src/components/wizard/hooks/use-wizard.ts:134-135 | deletion goes element by element: the first element stays in front unless it is the option, so the remaining choices keep their order |
| UseWizard.Toggle | src/components/wizard/hooks/use-wizard.ts:130-139 | the option is selected afterwards iff it was not before; every other choice keeps its membership; no duplicates; on a duplicate-free selection a new option is appended at the end and a chosen one is deleted with the others kept in order |
| UseWizard.ToggleTwiceSameChoices | src/components/wizard/hooks/use-wizard.ts:130-139 | toggling the same option twice restores the set of choices |
| UseWizard.ToggleTwiceRestores | src/components/wizard/hooks/use-wizard.ts:130-139 | adding then removing an option restores the exact list |
| UseWizard.WithoutLast | src/components/wizard/hooks/use-wizard.ts:134-137 | removing an option just appended gives back the list before it |
| UseWizard.ToggleTwiceMovesToEnd | src/components/wizard/hooks/use-wizard.ts:130-139 | removing then re-adding an option moves it to the end of the list |
| UseWizard.SetSlot | src/components/wizard/hooks/use-wizard.ts:127-143 | writing one slot sets it, leaves every other slot as it read, and grows the array only when writing past its end |
| UseWizard.SelectionOf | src/components/wizard/hooks/use-wizard.ts:131-133 | a multi-choice slot gives its choices as stored, an empty slot none, and a string slot its own characters in order, entry i being the one-character string of character i |
| UseWizard.SelectAnswer | src/components/wizard/hooks/use-wizard.ts:125-145 | fails iff there is no question at the index; single choice stores the option; multi choice toggles it, appending a new option at the end of a duplicate-free selection and deleting a chosen one in place; other answers are untouched |
| UseWizard.AnswerSelect | src/components/wizard/hooks/use-wizard.ts:125-145 | fails iff the index is out of range; otherwise only the answers change |
| UseWizard.InitialSubmit | src/components/wizard/hooks/use-wizard.ts:71-92 | on success the sanitized values are stored and the wizard advances; on failure the error is the thrown message or the fallback; loading ends either way |
| UseWizard.GenerateQuestions | src/components/wizard/hooks/use-wizard.ts:98-123 | missing idea values give "Initial values not found."; success stores the questions with one empty answer each and advances; failure keeps them |
| UseWizard.GenerateTdd | src/components/wizard/hooks/use-wizard.ts:147-166 | success stores the document and advances; any failure sets the fixed TDD error |
| UseWizard.FailureMessageShown | src/components/wizard/hooks/use-wizard.ts:83-162 | idea validation and question generation show a thrown `Error`'s own message and their own fallback for anything else; TDD generation shows its fixed message whatever was thrown |
| UseWizard.CurrentStepData | src/components/wizard/hooks/use-wizard.ts:168 | the current step exists iff the index is inside the list |
| UseWizard.CurrentStepIdFacts | src/components/wizard/hooks/use-wizard.ts:168-175 | the current id is model selection, final clarification or `question-0` exactly at their positions |
| UseWizard.Flags | src/components/wizard/hooks/use-wizard.ts:168-176 | each derived flag holds exactly at its position in the list; generating means loading at the final clarification; back is disabled while loading or on the first question |
| UseWizard.InitialStateInvariant | src/components/wizard/hooks/use-wizard.ts:19-28 | the initial state satisfies the wizard invariant |
| UseWizard.NextKeepsInvariant | src/components/wizard/hooks/use-wizard.ts:52-54 | moving forward keeps the invariant |
| UseWizard.PreviousKeepsInvariant | src/components/wizard/hooks/use-wizard.ts:56-58 | moving back keeps the invariant |
| UseWizard.StartOverEstablishesInvariant | src/components/wizard/hooks/use-wizard.ts:60-69 | start over gives a valid state from any state |
| UseWizard.ModelSelectKeepsInvariant | src/components/wizard/hooks/use-wizard.ts:94-96 | choosing a model keeps the invariant |
| UseWizard.EditFinalClarificationKeepsInvariant | src/components/wizard/hooks/use-wizard.ts:27 | editing the final clarification keeps the invariant |
| UseWizard.AnswerSelectKeepsInvariant | src/components/wizard/hooks/use-wizard.ts:125-145 | a successful answer selection keeps the invariant, including that no multi-choice slot repeats a choice |
| UseWizard.WellTypedSelection | src/components/wizard/hooks/use-wizard.ts:131-132 | under the invariant a multi-choice slot never holds a plain string, and its current choices are distinct |
| UseWizard.AnswerSelectToggleInOrder | src/components/wizard/hooks/use-wizard.ts:130-139 | in a valid wizard, choosing a new option of a multi-choice question appends it at the end, and choosing a chosen one deletes it with the rest kept in order |
| UseWizard.InitialSubmitKeepsInvariant | src/components/wizard/hooks/use-wizard.ts:71-92 | idea validation keeps the invariant whatever its outcome |
| UseWizard.GenerateTddKeepsInvariant | src/components/wizard/hooks/use-wizard.ts:147-166 | TDD generation keeps the invariant whatever its outcome |
| UseWizard.GenerateQuestionsKeepsInvariant | src/components/wizard/hooks/use-wizard.ts:98-123 | question generation keeps the invariant when the new list still reaches past the current step |
| UseWizard.GenerateQuestionsFromModelSelection | src/components/wizard/hooks/use-wizard.ts:98-123 | generating from model selection lands on the first question with back disabled, or on the final clarification when there are no questions |
| UseWizard.GenerateQuestionsLateCanOverrun | src/components/wizard/hooks/use-wizard.ts:111 | advancing with the step count from before the new questions can leave the list |
| UseWizard.Wizard.Steps | src/components/wizard/hooks/use-wizard.ts:35-50 | the live step list has the question count plus four entries |
| UseWizard.Wizard.constructor | src/components/wizard/hooks/use-wizard.ts:19-28 | the fields start in the initial state, which satisfies the invariant |
| UseWizard.Wizard.Advance | src/components/wizard/hooks/use-wizard.ts:52-54 | only the current step changes, to the clamped next index |
| UseWizard.Wizard.GoToNextStep | src/components/wizard/hooks/use-wizard.ts:52-54 | the fields move as `Next` says and the invariant is kept |
| UseWizard.Wizard.GoToPreviousStep | src/components/wizard/hooks/use-wizard.ts:56-58 | the fields move as `Previous` says and the invariant is kept |
| UseWizard.Wizard.HandleStartOver | src/components/wizard/hooks/use-wizard.ts:60-69 | the fields move as `StartOver` says and the invariant holds afterwards |
| UseWizard.Wizard.HandleModelSelect | src/components/wizard/hooks/use-wizard.ts:94-96 | the fields move as `ModelSelect` says and the invariant is kept |
| UseWizard.Wizard.SetFinalClarification | src/components/wizard/hooks/use-wizard.ts:185 | the fields move as `EditFinalClarification` says and the invariant is kept |
| UseWizard.Wizard.HandleInitialSubmit | src/components/wizard/hooks/use-wizard.ts:71-92 | sends the sanitized values; the fields move as `InitialSubmit` says; the invariant is kept |
| UseWizard.Wizard.HandleGenerateQuestions | src/components/wizard/hooks/use-wizard.ts:98-123 | sends the request iff the idea values exist; the fields move as `GenerateQuestions` says |
| UseWizard.Wizard.HandleAnswerSelect | src/components/wizard/hooks/use-wizard.ts:125-145 | succeeds iff a question exists at the index; then the fields move as `AnswerSelect` says; otherwise nothing changes; the invariant is kept |
| UseWizard.Wizard.HandleGenerateTdd | src/components/wizard/hooks/use-wizard.ts:147-166 | sends the idea, questions, answers, clarification and model; the fields move as `GenerateTdd` says; the invariant is kept |
| WizardSteps.StepIdsDistinct | src/components/wizard/hooks/use-wizard.ts:35-48 | no two steps of the list share an id |
| WizardSteps.QuestionStepsOfList | src/components/wizard/hooks/use-wizard.ts:36-39 | exactly the question steps of the list are question steps, and the step at position k reads back index k-2 |
| WizardSteps.BuiltStepsRoute | src/components/wizard/step-router.tsx:114-162 | every step of a built list routes without error to the screen for its position |
| WizardSteps.QuestionStepRoutes | src/components/wizard/step-router.tsx:133-144 | a question step of a built list renders its own question with its answer |
| WizardSteps.FixedStepRoutes | src/components/wizard/step-router.tsx:116-162 | the four fixed steps of a built list render their own screens with their data |
| WizardSteps.FlagsMatchStepTypeInfo | src/components/wizard/utils/step-validation.ts:74-90 | on the built list exactly one step kind is claimed, and `getStepTypeInfo` agrees with the hook's flags |
| WizardSteps.UnansweredOnBuiltSteps | src/components/wizard/utils/step-validation.ts:49-69 | on the built list only a question step can be unanswered, and then exactly when its answer is incomplete |
| WizardSteps.AnswerSelectCompletes | src/components/wizard/hooks/use-wizard.ts:125-145 | a single-choice answer is complete iff the chosen option is non-empty; a multi-choice answer is complete afterwards iff the option was not chosen before or some other option was |
| WizardSteps.SubmitIdeaScenario | src/components/wizard/hooks/use-wizard.ts:71-92 | a validated idea moves the fresh wizard to model selection with the idea stored |
| WizardSteps.RejectedIdeaScenario | src/components/wizard/hooks/use-wizard.ts:83-91 | a rejected idea shows the validation message and stays on the step |
| WizardSteps.SingleChoiceScenario | src/components/wizard/hooks/use-wizard.ts:140-142 | picking "Social" answers the single-choice question with that option |
| WizardSteps.MultiChoiceScenario | src/components/wizard/hooks/use-wizard.ts:130-139 | picking AWS then GCP selects both in order; picking AWS again leaves only GCP |
| WizardSteps.StringSlotReadAsCharacters | src/components/wizard/hooks/use-wizard.ts:131-139 | a string left in a multi-choice slot is read as its characters: toggling "a" on "ab" leaves ["b"] |
| GenerateTdd.QaPairs | api/generate_tdd.py:21-24 | one `Q:/A:` pair per position of the shorter list, built from that position's question and answer; `KeyError: 'question'` iff a paired question lacks the key |
| GenerateTdd.QuestionsAndAnswers | api/generate_tdd.py:21-25 | succeeds iff every paired question has its text; an empty list gives the empty string |
| GenerateTdd.GenerateTddInput | api/generate_tdd.py:21-36 | fails with `KeyError: 'question'` iff a paired question lacks its text; otherwise idea and platform come from the form values, defaulting to empty, the clarification passes through and the Q/A block is the joined pairs |
| GenerateTdd.QuestionsAndAnswersLines | api/generate_tdd.py:21-25 | with single-line texts the prompt block reads back, line by line, as alternating `Q:` and `A:` lines |
| GenerateTdd.QuestionsAndAnswersAppend | api/generate_tdd.py:21-25 | one more question and answer appends a newline and one more pair |

## Left out

- Rendering, the step components and their props beyond what `Route` picks are
  not modelled. React's batching and re-rendering are left out as well. Each
  handler is one atomic transition.
- Asynchrony is not modelled. Two handlers cannot interleave in the model,
  and `isLoading` is a plain field rather than a guard against overlapping calls.
- The server actions (`validateIdea`, `generateQuestions`, `generateTdd`), the
  HTTP layer and the generation chain are not part of this model. Their result
  is a parameter of each handler.
- DOMPurify is an uninterpreted `sanitize` function parameter. The model does
  not say what it removes.
- `useCyclingIndex`, the loading-message timers, the clipboard and the
  placeholder animations use clocks and the browser, so they are left out.
- The Zod form schema is not modelled. Any idea text reaches the handler.
- The `console.error` and `print` logging is left out.
- StepRouter.Route: is built on the corrected `ParseStepId`, so it never
  reaches the default case of the switch at `step-router.tsx:164-165`. That
  case and its "Unhandled step type" error are modelled by `RouteAsWritten`.
- The question type is `MultiChoice` for the tag `"multi-choice"` and
  `SingleChoice` for everything else, matching the hook's test.
- JsText.NatToDecimal: writes every number digit by digit. JavaScript writes
  numbers of 10^21 and above in exponent form (`1e+21`), which matters only
  for the text of the "Invalid question index" error.
- JsText.ParseInt: reads digits as an exact integer. JavaScript numbers are
  doubles, so texts of more than about 15 significant digits lose precision
  there, and `"-0"` gives negative zero.
- JsText: characters are Unicode code points, not UTF-16 code units. This
  matters nowhere here, because every separator and prefix the wizard searches
  for is ASCII.
- UseWizard.HandleAnswerSelect: the hook throws a `TypeError` when no question
  exists at the index. The model reports that case as `ok == false` with the
  state unchanged, and does not model the exception reaching React.
- The request body validation of the endpoint is not modelled. The endpoint
  declares `answers` as a list of strings, while the wizard sends an array for
  a multi-choice answer and null for an unanswered one. `GenerateTdd` starts
  from a payload that has already been accepted.
- Question dictionaries are `map<string, string>`. Values of other JSON types
  are not modelled.
- The older copies of the endpoint and of the wizard components elsewhere in
  the repository are not modelled.
- UseWizard.Wizard.HandleGenerateQuestions: does not promise to keep the
  invariant. The handler advances with the step count from before the new
  questions. A shorter list generated from a later step can leave the current
  step outside the list (`GenerateQuestionsLateCanOverrun`). The invariant is
  proved only when the new list still reaches the current step
  (`GenerateQuestionsKeepsInvariant`), which holds whenever generation starts
  from model selection, as the interface does.

## Findings

| source | as written | input that shows it | evidently intended | confidence | as-written member | corrected member |
|---|---|---|---|---|---|---|
| src/components/wizard/step-router.tsx:89-93 | the registry test uses `in`, which also accepts names inherited from `Object.prototype` | step id `toString` | any id that is neither a question id nor an own registry key throws "Unknown step ID" | high; not executed | StepRouter.ParseStepIdAsWritten, StepRouter.RouteAsWritten | StepRouter.ParseStepId, StepRouter.Route |

`StepRouter.InheritedKeyEscapesRegistry` exhibits the discrepancy for
`toString`. `StepRouter.ParseStepIdCorrectsAsWritten` proves that the
corrected parse differs from the code as written only on the inherited names.
`StepRouter.RouteCorrectsAsWritten` carries this to the router: on an
inherited name the code as written throws "Unhandled step type" from the
switch's default case, and the corrected router throws "Unknown step ID".
