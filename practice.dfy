/**
 * Checking submitted answers: the batch scorer of `practice_all` and
 * `practice_set`, and the single-question check of `question`. A submitted
 * form is a map from field names to the strings the browser sent.
 */
module Practice {
  import opened Wrappers
  import opened Text
  import opened Questions
  import opened SetFilter

  /** A form field, or nothing when it was not submitted (app/routes.py:118). */
  function FormValue(form: map<string, string>, key: string): Option<string>
  {
    if key in form then Some(form[key]) else None
  }

  /** The form field that carries the answer to the question at 1-based position `idx`. */
  function AnswerKey(idx: nat): string
  {
    "ans_" + Decimal(idx)
  }

  /** Python truthiness of a string that may be `None`. */
  predicate Filled(o: Option<string>)
  {
    o.Some? && o.value != ""
  }

  /** The batch rule: no verdict unless both the selection and the stored answer are non-empty. */
  function BatchVerdict(selected: Option<string>, correct: Option<string>): (r: Option<bool>)
    ensures r.None? <==> !Filled(selected) || !Filled(correct)
    ensures r == Some(true) <==> Filled(selected) && selected == correct
  {
    if Filled(selected) && Filled(correct) then Some(selected == correct) else None
  }

  /** The single-question rule: no verdict only when the stored answer is empty or missing. */
  function SingleVerdict(selected: Option<string>, correct: Option<string>): (r: Option<bool>)
    ensures r.None? <==> !Filled(correct)
    ensures r == Some(true) <==> Filled(correct) && selected == correct
  {
    if Filled(correct) then Some(selected == correct) else None
  }

  /** When something was selected, the two rules agree. */
  lemma VerdictsAgreeWhenAnswered(selected: Option<string>, correct: Option<string>)
    requires Filled(selected)
    ensures BatchVerdict(selected, correct) == SingleVerdict(selected, correct)
  {
  }

  /** When nothing (or the empty string) was selected, the batch rule gives no verdict but the single rule says wrong. */
  lemma VerdictsDifferWhenUnanswered(selected: Option<string>, correct: Option<string>)
    requires !Filled(selected) && Filled(correct)
    ensures BatchVerdict(selected, correct) == None
    ensures SingleVerdict(selected, correct) == Some(false)
  {
  }

  /** One row of the result table: what was selected, the verdict, and the stored answer. */
  datatype Entry = Entry(selected: Option<string>, isCorrect: Option<bool>, correct: Option<string>)

  /** The positions whose verdict is true. */
  function CorrectPositions(results: map<int, Entry>): set<int>
  {
    set i | i in results && results[i].isCorrect == Some(true)
  }

  /** The entry for position `i` records the submitted field, the stored answer and the batch verdict on them. */
  predicate EntryFor(qs: seq<Question>, form: map<string, string>, i: int, e: Entry)
    requires 1 <= i <= |qs|
  {
    && e.selected == FormValue(form, AnswerKey(i))
    && e.correct == qs[i - 1].answer
    && (e.isCorrect.None? <==> !Filled(e.selected) || !Filled(e.correct))
    && (e.isCorrect.Some? ==> e.isCorrect.value == (e.selected == e.correct))
  }

  /** What the scoring loop promises: one entry per position, and a score that counts the true verdicts. */
  ghost predicate Scored(qs: seq<Question>, form: map<string, string>, results: map<int, Entry>, score: nat)
  {
    && (forall i :: i in results <==> 1 <= i <= |qs|)
    && (forall i :: 1 <= i <= |qs| ==> i in results && EntryFor(qs, form, i, results[i]))
    && score == |CorrectPositions(results)|
    && score <= |qs|
  }

  /** The POST branch of `practice_all`: score every question against the submitted form. */
  method ScoreSubmission(questions: seq<Question>, form: map<string, string>)
    returns (results: map<int, Entry>, score: nat)
    ensures Scored(questions, form, results, score)
  {
    results := map[];
    score := 0;
    for idx := 1 to |questions| + 1
      invariant forall i :: i in results <==> 1 <= i < idx
      invariant forall i :: 1 <= i < idx ==> i in results && EntryFor(questions, form, i, results[i])
      invariant score == |CorrectPositions(results)|
      invariant score <= idx - 1
    {
      var q := questions[idx - 1];
      var selected := FormValue(form, AnswerKey(idx));
      var correctAnswer := q.answer;
      var isCorrect := BatchVerdict(selected, correctAnswer);
      var entry := Entry(selected, isCorrect, correctAnswer);
      CountStep(results, idx, entry);
      if isCorrect == Some(true) {
        score := score + 1;
      }
      results := results[idx := entry];
    }
  }

  /** Adding the entry for a new position adds one to the count exactly when its verdict is true. */
  lemma CountStep(results: map<int, Entry>, idx: int, e: Entry)
    requires idx !in results
    ensures |CorrectPositions(results[idx := e])|
            == |CorrectPositions(results)| + (if e.isCorrect == Some(true) then 1 else 0)
  {
    var before := CorrectPositions(results);
    if e.isCorrect == Some(true) {
      assert CorrectPositions(results[idx := e]) == before + {idx};
    } else {
      assert CorrectPositions(results[idx := e]) == before;
    }
  }

  /** The POST branch of `practice_set`: the questions of one set, scored the same way. */
  method PracticeSet(allQuestions: seq<Question>, setId: nat, form: map<string, string>)
    returns (questions: seq<Question>, results: map<int, Entry>, score: nat)
    ensures questions == SetMembers(allQuestions, setId)
    ensures Scored(questions, form, results, score)
  {
    questions := FilterBySet(allQuestions, setId);
    results, score := ScoreSubmission(questions, form);
  }

  /** The score is the number of positions whose submitted answer is non-empty and equals the stored one. */
  lemma ScoreCountsMatches(qs: seq<Question>, form: map<string, string>, results: map<int, Entry>, score: nat)
    requires Scored(qs, form, results, score)
    ensures score == |set i | 1 <= i <= |qs| && Filled(FormValue(form, AnswerKey(i)))
                                 && FormValue(form, AnswerKey(i)) == qs[i - 1].answer|
  {
    var matches := set i | 1 <= i <= |qs| && Filled(FormValue(form, AnswerKey(i)))
                           && FormValue(form, AnswerKey(i)) == qs[i - 1].answer;
    forall i | i in results
      ensures i in CorrectPositions(results) <==> i in matches
    {
      assert 1 <= i <= |qs|;
    }
    assert CorrectPositions(results) == matches;
  }

  /**
   * Three questions with stored answers A, B and C, and a form that answers
   * the first with A, the second with X and leaves the third out: right,
   * wrong, no verdict, and a score of one.
   */
  lemma ScoringExample(qs: seq<Question>, form: map<string, string>, results: map<int, Entry>, score: nat)
    requires |qs| == 3 && qs[0].answer == Some("A") && qs[1].answer == Some("B") && qs[2].answer == Some("C")
    requires form == map["ans_1" := "A", "ans_2" := "X"]
    requires Scored(qs, form, results, score)
    ensures results[1].isCorrect == Some(true)
    ensures results[2].isCorrect == Some(false)
    ensures results[3].isCorrect == None
    ensures score == 1
  {
    assert AnswerKey(1) == "ans_1" && AnswerKey(2) == "ans_2" && AnswerKey(3) == "ans_3";
    assert "ans_3" != "ans_1" && "ans_3" != "ans_2" by { assert "ans_3"[4] != "ans_1"[4] && "ans_3"[4] != "ans_2"[4]; }
    assert "X" != "B" by { assert "X"[0] != "B"[0]; }
    assert EntryFor(qs, form, 1, results[1]) && EntryFor(qs, form, 2, results[2]) && EntryFor(qs, form, 3, results[3]);
    forall i | i in results
      ensures i in CorrectPositions(results) <==> i == 1
    {
      assert i == 1 || i == 2 || i == 3;
    }
    assert CorrectPositions(results) == {1};
  }

  /** The `question` route's outcome: an unknown position, or the verdict on the submitted answer. */
  datatype Checked = NotFound | Verdict(question: Question, isCorrect: Option<bool>)

  /** The POST branch of `question`: look up position `qId` and check the form's `answer` field. */
  function CheckAnswer(questions: seq<Question>, qId: int, form: map<string, string>): (r: Checked)
    ensures r.NotFound? <==> qId < 1 || qId > |questions|
    ensures r.Verdict? ==> r.question == questions[qId - 1]
    ensures r.Verdict? ==> (r.isCorrect.None? <==> !Filled(questions[qId - 1].answer))
    ensures r.Verdict? && r.isCorrect.Some? ==>
              r.isCorrect.value == (FormValue(form, "answer") == questions[qId - 1].answer)
  {
    if qId < 1 || qId > |questions| then NotFound
    else
      var q := questions[qId - 1];
      Verdict(q, SingleVerdict(FormValue(form, "answer"), q.answer))
  }
}
