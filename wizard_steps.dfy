/**
 * How the step list the sequencer builds fits the validation helpers and the
 * router: ids are unique, every step routes to its screen, the sequencer's
 * flags agree with the id classification, and worked scenarios.
 */
module WizardSteps {
  import opened Wrappers
  import opened JsText
  import opened WizardTypes
  import opened StepValidation
  import opened StepRouter
  import opened UseWizard

  /** No two steps of a list share an id, so an id names one position. */
  lemma StepIdsDistinct(n: nat)
    ensures forall i, j :: 0 <= i < j < n + 4 ==> BuildSteps(n)[i].id != BuildSteps(n)[j].id
  {
    var steps := BuildSteps(n);
    forall i, j | 0 <= i < j < n + 4
      ensures steps[i].id != steps[j].id
    {
      StepIdAt(n, i);
      StepIdAt(n, j);
    }
  }

  /** Exactly the question positions hold question step ids, and each reads back as its question's index. */
  lemma QuestionStepsOfList(n: nat, k: nat)
    requires k < n + 4
    ensures IsQuestionStep(BuildSteps(n)[k].id) <==> 2 <= k < n + 2
    ensures 2 <= k < n + 2 ==> GetQuestionIndex(BuildSteps(n)[k].id) == Ok(k - 2)
  {
    StepIdAt(n, k);
    if 2 <= k < n + 2 {
      QuestionIndexRoundTrip(k - 2);
    }
  }

  /**
   * Every step of a list built for the current questions routes without
   * throwing, each to its own screen; a question step always finds its
   * question, so the router's index guard never fires on these lists.
   */
  lemma BuiltStepsRoute(props: RouterProps, k: nat)
    requires k < |props.questions| + 4
    requires props.current == BuildSteps(|props.questions|)[k]
    ensures Route(props).Ok?
    ensures var n := |props.questions|; var view := Route(props).value;
      && (k == 0 ==> view == InitialIdeaView(props.isLoading))
      && (k == 1 ==> view == ModelSelectionView(props.selectedModel))
      && (2 <= k < n + 2 ==> view == QuestionView(k - 2, props.questions[k - 2], AnswerAt(props.answers, k - 2)))
      && (k == n + 2 ==> view == FinalClarificationView(props.finalClarification))
      && (k == n + 3 ==> view == ResultsView(props.generatedTdd, props.selectedModel))
  {
    if 2 <= k < |props.questions| + 2 {
      QuestionStepRoutes(props, k);
    } else {
      FixedStepRoutes(props, k);
    }
  }

  /** A question step of a built list renders its own question with its answer. */
  lemma QuestionStepRoutes(props: RouterProps, k: nat)
    requires 2 <= k < |props.questions| + 2
    requires props.current == BuildSteps(|props.questions|)[k]
    ensures Route(props) == Ok(QuestionView(k - 2, props.questions[k - 2], AnswerAt(props.answers, k - 2)))
  {
    var i := k - 2;
    assert props.current.id == QuestionStepId(i);
    ParseQuestionStepId(i);
    RouteQuestionStep(props, i);
  }

  /** The four fixed steps of a built list render their own screens. */
  lemma FixedStepRoutes(props: RouterProps, k: nat)
    requires k < 2 || |props.questions| + 2 <= k < |props.questions| + 4
    requires props.current == BuildSteps(|props.questions|)[k]
    ensures var n := |props.questions|;
      && (k == 0 ==> Route(props) == Ok(InitialIdeaView(props.isLoading)))
      && (k == 1 ==> Route(props) == Ok(ModelSelectionView(props.selectedModel)))
      && (k == n + 2 ==> Route(props) == Ok(FinalClarificationView(props.finalClarification)))
      && (k == n + 3 ==> Route(props) == Ok(ResultsView(props.generatedTdd, props.selectedModel)))
  {
    var n := |props.questions|;
    var id := props.current.id;
    StepIdAt(n, k);
    assert !IsQuestionStep(id) && IsRegistryKey(id);
    if k == 0 {
      assert ParseStepId(id) == Ok(ParsedStep(InitialIdeaType, Undefined));
    } else if k == 1 {
      assert ParseStepId(id) == Ok(ParsedStep(ModelSelectionType, Undefined));
    } else if k == n + 2 {
      assert ParseStepId(id) == Ok(ParsedStep(FinalClarificationType, Undefined));
    } else {
      assert ParseStepId(id) == Ok(ParsedStep(ResultsType, Undefined));
    }
  }

  /**
   * On a step of its own list, the sequencer's position-based flags agree with
   * the id-based classification, which claims exactly one kind of step.
   */
  lemma FlagsMatchStepTypeInfo(s: WizardState)
    requires StepInRange(s)
    ensures var info := GetStepTypeInfo(CurrentStepData(s).value.id); var f := Flags(s);
      && KindsClaimed(info) == 1
      && f.isFirstStep == info.isFirstStep
      && f.isLastStep == info.isResultsStep
      && f.isModelSelectionStep == info.isModelSelectionStep
      && f.isFinalClarificationStep == info.isFinalClarificationStep
      && f.isFirstQuestionStep == info.isFirstQuestionStep
  {
    StepIdAt(|s.questions|, s.currentStep);
  }

  /**
   * On a step of its own list, "next" is held back exactly on a question step
   * whose answer is not yet complete.
   */
  lemma UnansweredOnBuiltSteps(s: WizardState)
    requires Parallel(s) && StepInRange(s)
    ensures var k := s.currentStep; var n := |s.questions|;
      IsCurrentQuestionUnanswered(CurrentStepData(s).value, s.questions, s.answers) <==>
        2 <= k < n + 2 && !IsQuestionAnswerComplete(s.answers[k - 2], s.questions[k - 2].kind)
  {
    var k := s.currentStep;
    var step := CurrentStepData(s).value;
    if 2 <= k < |s.questions| + 2 {
      assert step.id == QuestionStepId(k - 2);
      QuestionIndexRoundTrip(k - 2);
      assert AnswerAt(s.answers, k - 2) == s.answers[k - 2];
    } else {
      StepIdAt(|s.questions|, k);
      assert !IsQuestionStep(step.id);
    }
  }

  /**
   * Choosing a non-empty option on a single-choice question completes it. On a
   * multi-choice question the question is complete afterwards exactly when the
   * option was not chosen before (so it is now), or some other option was
   * chosen before (and still is).
   */
  lemma AnswerSelectCompletes(s: WizardState, questionIndex: nat, option: string)
    requires Parallel(s) && questionIndex < |s.questions|
    ensures var r := AnswerSelect(s, questionIndex, option).value;
      var q := s.questions[questionIndex];
      var before := SelectionOf(s.answers[questionIndex]);
      && (q.kind == SingleChoice ==>
            (IsQuestionAnswerComplete(r.answers[questionIndex], q.kind) <==> option != ""))
      && (q.kind == MultiChoice ==>
            (IsQuestionAnswerComplete(r.answers[questionIndex], q.kind) <==> r.answers[questionIndex].values != []))
      && (q.kind == MultiChoice ==>
            (IsQuestionAnswerComplete(r.answers[questionIndex], q.kind) <==>
               option !in before || exists x :: x in before && x != option))
  {
    var r := AnswerSelect(s, questionIndex, option).value;
    var before := SelectionOf(s.answers[questionIndex]);
    if s.questions[questionIndex].kind == MultiChoice {
      var after := r.answers[questionIndex].values;
      if after != [] {
        if option !in before {
        } else {
          assert after[0] in after;
          assert after[0] != option && after[0] in before;
        }
      } else {
        if option !in before {
          assert option in after;
        } else {
          assert forall x :: x != option ==> (x in after <==> x in before);
        }
      }
    }
  }

  // ---- worked scenarios ----

  /** A valid idea, once the validation call succeeds, moves the fresh wizard from step 0 to step 1. */
  lemma SubmitIdeaScenario(sanitize: string -> string)
    ensures var values := IdeaValues("Build a resume review app for students", WebApp);
      var r := InitialSubmit(InitialState(), values, sanitize, Success(()));
      && r.currentStep == 1
      && r.initialFormValues == Some(Sanitized(values, sanitize))
      && r.error == None && !r.isLoading
  {
  }

  /** A rejected idea shows the service's message, stays on the step and stops loading. */
  lemma RejectedIdeaScenario(s: WizardState, values: IdeaValues, sanitize: string -> string)
    ensures var r := InitialSubmit(s, values, sanitize, Failure(ErrorThrown("idea too vague")));
      r.error == Some("idea too vague") && r.currentStep == s.currentStep && !r.isLoading
  {
  }

  /**
   * A multi-choice slot that holds a string is read as the list of its
   * characters: toggling "a" on the slot "ab" leaves just "b". Well-typed
   * answers never reach this path (`WellTypedSelection`).
   */
  lemma StringSlotReadAsCharacters()
    ensures SelectionOf(Single("ab")) == ["a", "b"]
    ensures Toggle(SelectionOf(Single("ab")), "a") == ["b"]
  {
    var selection := SelectionOf(Single("ab"));
    assert selection == ["a", "b"];
    assert NoDuplicates(selection);
    WithoutCons("a", ["b"], "a");
    assert ["a"] + ["b"] == selection;
  }

  /** Choosing "Social" for a single-choice question answers it, and "next" is no longer held back. */
  lemma SingleChoiceScenario()
    ensures var q := Question("Auth method?", ["Email", "Social", "None"], SingleChoice);
      var s := InitialState().(currentStep := 2, questions := [q], answers := [Unanswered],
                               initialFormValues := Some(IdeaValues("Build a resume review app", WebApp)));
      var r := AnswerSelect(s, 0, "Social").value;
      && r.answers == [Single("Social")]
      && !IsCurrentQuestionUnanswered(CurrentStepData(r).value, r.questions, r.answers)
  {
    var q := Question("Auth method?", ["Email", "Social", "None"], SingleChoice);
    var s := InitialState().(currentStep := 2, questions := [q], answers := [Unanswered],
                             initialFormValues := Some(IdeaValues("Build a resume review app", WebApp)));
    var r := AnswerSelect(s, 0, "Social").value;
    assert r.answers == [Single("Social")];
    UnansweredOnBuiltSteps(r);
  }

  /** The three toggles of the cloud scenario. */
  lemma CloudToggles()
    ensures Toggle([], "AWS") == ["AWS"]
    ensures Toggle(["AWS"], "GCP") == ["AWS", "GCP"]
    ensures Toggle(["AWS", "GCP"], "AWS") == ["GCP"]
  {
    AddToEmpty();
    AddGcp();
    RemoveAws();
  }

  lemma AddToEmpty()
    ensures Toggle([], "AWS") == ["AWS"]
  {
  }

  lemma AddGcp()
    ensures Toggle(["AWS"], "GCP") == ["AWS", "GCP"]
  {
    assert "AWS" != "GCP" by { assert "AWS"[0] != "GCP"[0]; }
    assert Dedup(["AWS"]) == ["AWS"];
  }

  lemma RemoveAws()
    ensures Toggle(["AWS", "GCP"], "AWS") == ["GCP"]
  {
    assert "AWS" != "GCP" by { assert "AWS"[0] != "GCP"[0]; }
    assert Dedup(["AWS", "GCP"]) == ["AWS", "GCP"];
    assert ["AWS", "GCP"][1..] == ["GCP"];
    assert Without(["GCP"], "AWS") == ["GCP"];
  }

  /** One toggle on a one-question wizard. */
  lemma MultiChoiceStep(answers: seq<Answer>, q: Question, option: string, current: seq<string>)
    requires |answers| == 1 && q.kind == MultiChoice && SelectionOf(answers[0]) == current
    ensures SelectAnswer(answers, [q], 0, option) == Some([Multi(Toggle(current, option))])
  {
    assert answers[0 := Multi(Toggle(current, option))] == [Multi(Toggle(current, option))];
  }

  /** Toggling "AWS" then "GCP" chooses both in that order; toggling "AWS" again leaves "GCP". */
  lemma MultiChoiceScenario()
    ensures var q := Question("Cloud?", ["AWS", "GCP", "Azure"], MultiChoice);
      var a0 := SelectAnswer([Unanswered], [q], 0, "AWS").value;
      var a1 := SelectAnswer(a0, [q], 0, "GCP").value;
      var a2 := SelectAnswer(a1, [q], 0, "AWS").value;
      a1 == [Multi(["AWS", "GCP"])] && a2 == [Multi(["GCP"])]
  {
    var q := Question("Cloud?", ["AWS", "GCP", "Azure"], MultiChoice);
    CloudToggles();
    MultiChoiceStep([Unanswered], q, "AWS", []);
    MultiChoiceStep([Multi(["AWS"])], q, "GCP", ["AWS"]);
    MultiChoiceStep([Multi(["AWS", "GCP"])], q, "AWS", ["AWS", "GCP"]);
  }
}
