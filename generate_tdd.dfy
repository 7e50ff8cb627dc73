/**
 * The document-generation endpoint's own logic: the collected questions and
 * answers are written as "Q: … / A: …" pairs joined by newlines, and the idea
 * and platform are read from the form values with empty defaults, to make the
 * input of the generation chain.
 */
module GenerateTdd {
  import opened Wrappers
  import opened JsText

  /** A JSON object as the endpoint receives it, with text values. */
  type Dict = map<string, string>

  datatype TddGenerationPayload = TddGenerationPayload(
    initialFormValues: Dict,
    questions: seq<Dict>,
    answers: seq<string>,
    finalClarification: string)

  /** The variables handed to the generation chain's prompt. */
  datatype ChainInput = ChainInput(
    userIdea: string,
    platform: string,
    questionsAndAnswers: string,
    finalClarification: string)

  /** `d.get(key, default)`. */
  function Get(d: Dict, key: string, default: string): (v: string)
    ensures key in d ==> v == d[key]
    ensures key !in d ==> v == default
  {
    if key in d then d[key] else default
  }

  function Min(a: nat, b: nat): nat {
    if a < b then a else b
  }

  /** The text of one question with its answer. */
  function QaPair(question: string, answer: string): string {
    "Q: " + question + "\nA: " + answer
  }

  const KeyErrorQuestion := "KeyError: 'question'"

  /** Every question that `zip` pairs with an answer has a "question" entry. */
  predicate PairedQuestionsHaveText(questions: seq<Dict>, answers: seq<string>) {
    forall k :: 0 <= k < Min(|questions|, |answers|) ==> "question" in questions[k]
  }

  /**
   * The pairs of `zip(questions, answers)`, one per question that has an
   * answer, in order, or a `KeyError` when a paired question has no text.
   */
  function QaPairs(questions: seq<Dict>, answers: seq<string>): (r: Result<seq<string>, string>)
    ensures r.Ok? <==> PairedQuestionsHaveText(questions, answers)
    ensures r.Ok? ==>
      && |r.value| == Min(|questions|, |answers|)
      && forall k :: 0 <= k < |r.value| ==> r.value[k] == QaPair(questions[k]["question"], answers[k])
    ensures r.Err? ==> r.error == KeyErrorQuestion
  {
    if questions == [] || answers == [] then Ok([])
    else if "question" !in questions[0] then Err(KeyErrorQuestion)
    else
      match QaPairs(questions[1..], answers[1..])
      case Err(e) =>
        assert !PairedQuestionsHaveText(questions, answers) by {
          var k :| 0 <= k < Min(|questions| - 1, |answers| - 1) && "question" !in questions[1..][k];
          assert questions[k + 1] == questions[1..][k];
        }
        Err(e)
      case Ok(rest) =>
        assert PairedQuestionsHaveText(questions, answers) by {
          forall k | 0 <= k < Min(|questions|, |answers|) ensures "question" in questions[k] {
            if k > 0 { assert questions[k] == questions[1..][k - 1]; }
          }
        }
        Ok([QaPair(questions[0]["question"], answers[0])] + rest)
  }

  /** `"\n".join(qa_pairs)`: the text the prompt receives, or the `KeyError`. */
  function QuestionsAndAnswers(questions: seq<Dict>, answers: seq<string>): (r: Result<string, string>)
    ensures r.Ok? <==> PairedQuestionsHaveText(questions, answers)
    ensures questions == [] || answers == [] ==> r == Ok("")
  {
    match QaPairs(questions, answers)
    case Err(e) => Err(e)
    case Ok(pairs) => Ok(Join(pairs, "\n"))
  }

  /**
   * The chain's input for a payload: the idea and platform from the form
   * values, "" when missing; the Q/A text; the final clarification as sent.
   */
  function GenerateTddInput(payload: TddGenerationPayload): (r: Result<ChainInput, string>)
    ensures r.Ok? <==> PairedQuestionsHaveText(payload.questions, payload.answers)
    ensures r.Err? ==> r.error == KeyErrorQuestion
    ensures r.Ok? ==>
      && r.value.userIdea == (if "idea" in payload.initialFormValues then payload.initialFormValues["idea"] else "")
      && r.value.platform == (if "platform" in payload.initialFormValues then payload.initialFormValues["platform"] else "")
      && r.value.finalClarification == payload.finalClarification
      && Ok(r.value.questionsAndAnswers) == QuestionsAndAnswers(payload.questions, payload.answers)
  {
    match QuestionsAndAnswers(payload.questions, payload.answers)
    case Err(e) =>
      assert QaPairs(payload.questions, payload.answers).Err?;
      Err(e)
    case Ok(qa) =>
      Ok(ChainInput(
        Get(payload.initialFormValues, "idea", ""),
        Get(payload.initialFormValues, "platform", ""),
        qa,
        payload.finalClarification))
  }

  /** The lines the Q/A text is made of: a "Q: " line and an "A: " line per pair. */
  function QaLines(questions: seq<Dict>, answers: seq<string>): seq<string>
    requires PairedQuestionsHaveText(questions, answers)
  {
    if questions == [] || answers == [] then []
    else
      assert PairedQuestionsHaveText(questions[1..], answers[1..]) by {
        forall k | 0 <= k < Min(|questions| - 1, |answers| - 1) ensures "question" in questions[1..][k] {
          assert questions[1..][k] == questions[k + 1];
        }
      }
      ["Q: " + questions[0]["question"], "A: " + answers[0]] + QaLines(questions[1..], answers[1..])
  }

  /** No paired question or answer text contains a line break. */
  predicate SingleLineTexts(questions: seq<Dict>, answers: seq<string>)
    requires PairedQuestionsHaveText(questions, answers)
  {
    forall k :: 0 <= k < Min(|questions|, |answers|) ==>
      '\n' !in questions[k]["question"] && '\n' !in answers[k]
  }

  /** The lines of one pair, when neither text spans lines. */
  lemma PairLines(q: string, a: string)
    requires '\n' !in q && '\n' !in a
    ensures Split(QaPair(q, a), '\n') == ["Q: " + q, "A: " + a]
  {
    assert '\n' !in "Q: " + q && '\n' !in "A: " + a;
    assert QaPair(q, a) == ("Q: " + q) + ['\n'] + ("A: " + a);
    SplitAfterPrefix("Q: " + q, '\n', "A: " + a);
    SplitNoSeparator("A: " + a, '\n');
  }

  /** The lines of one pair followed by a line break and more text. */
  lemma PairLinesThen(q: string, a: string, tail: string)
    requires '\n' !in q && '\n' !in a
    ensures Split(QaPair(q, a) + "\n" + tail, '\n') == ["Q: " + q, "A: " + a] + Split(tail, '\n')
  {
    assert '\n' !in "Q: " + q && '\n' !in "A: " + a;
    assert QaPair(q, a) + "\n" + tail == ("Q: " + q) + ['\n'] + (("A: " + a) + ['\n'] + tail);
    SplitAfterPrefix("Q: " + q, '\n', ("A: " + a) + ['\n'] + tail);
    SplitAfterPrefix("A: " + a, '\n', tail);
  }

  /**
   * The Q/A text can be read back: when no question or answer spans lines,
   * splitting it at line breaks gives each question and each answer on its own
   * line, in order.
   */
  lemma {:induction false} QuestionsAndAnswersLines(questions: seq<Dict>, answers: seq<string>)
    requires PairedQuestionsHaveText(questions, answers) && SingleLineTexts(questions, answers)
    requires questions != [] && answers != []
    ensures Split(QuestionsAndAnswers(questions, answers).value, '\n') == QaLines(questions, answers)
    decreases |questions|
  {
    var q := questions[0]["question"];
    var a := answers[0];
    var pairs := QaPairs(questions, answers).value;
    var qs, ans := questions[1..], answers[1..];
    assert PairedQuestionsHaveText(qs, ans) && SingleLineTexts(qs, ans) by {
      forall k | 0 <= k < Min(|qs|, |ans|)
        ensures "question" in qs[k] && '\n' !in qs[k]["question"] && '\n' !in ans[k]
      {
        assert qs[k] == questions[k + 1] && ans[k] == answers[k + 1];
      }
    }
    assert QaLines(questions, answers) == ["Q: " + q, "A: " + a] + QaLines(qs, ans);
    if qs == [] || ans == [] {
      assert pairs == [QaPair(q, a)];
      PairLines(q, a);
    } else {
      var rest := QaPairs(qs, ans).value;
      assert pairs == [QaPair(q, a)] + rest;
      assert Join(pairs, "\n") == QaPair(q, a) + "\n" + Join(rest, "\n");
      PairLinesThen(q, a, Join(rest, "\n"));
      QuestionsAndAnswersLines(qs, ans);
    }
  }

  /** Answering one more question appends a line break and its pair: order is kept and nothing trails. */
  lemma QuestionsAndAnswersAppend(questions: seq<Dict>, answers: seq<string>, question: Dict, answer: string)
    requires |questions| == |answers| && questions != []
    requires PairedQuestionsHaveText(questions, answers) && "question" in question
    ensures QuestionsAndAnswers(questions + [question], answers + [answer]) ==
      Ok(QuestionsAndAnswers(questions, answers).value + "\n" + QaPair(question["question"], answer))
  {
    var qs, ans := questions + [question], answers + [answer];
    assert PairedQuestionsHaveText(qs, ans) by {
      forall k | 0 <= k < Min(|qs|, |ans|) ensures "question" in qs[k] {
        if k < |questions| { assert qs[k] == questions[k]; }
      }
    }
    var pairs := QaPairs(questions, answers).value;
    var longer := QaPairs(qs, ans).value;
    assert longer == pairs + [QaPair(question["question"], answer)] by {
      forall k | 0 <= k < |pairs| ensures longer[k] == pairs[k] {
        assert qs[k] == questions[k] && ans[k] == answers[k];
      }
    }
    JoinSnoc(pairs, "\n", QaPair(question["question"], answer));
  }
}
