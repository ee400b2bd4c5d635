/** `add_question`: validate the submitted form and append one question built from it. */
module AddForm {
  import opened Wrappers
  import opened Text
  import opened Questions

  /** A form field, read as the empty string when it was not submitted (app/routes.py:79-85). */
  function Field(form: map<string, string>, key: string): string
  {
    if key in form then form[key] else ""
  }

  /** The form passes validation: text and all four options are non-blank and the answer names one of A to D. */
  predicate Acceptable(form: map<string, string>)
  {
    && Trim(Field(form, "text")) != ""
    && Trim(Field(form, "option_a")) != ""
    && Trim(Field(form, "option_b")) != ""
    && Trim(Field(form, "option_c")) != ""
    && Trim(Field(form, "option_d")) != ""
    && Upper(Trim(Field(form, "answer"))) in Choices
  }

  /**
   * Handle a submitted add form against the loaded collection. A rejected form
   * leaves the collection as it was; an accepted one appends exactly one
   * question, with the stripped fields, the four options and the upper-cased answer.
   */
  method AddQuestion(questions: seq<Question>, form: map<string, string>)
    returns (stored: seq<Question>, added: bool)
    ensures added <==> Acceptable(form)
    ensures !added ==> stored == questions
    ensures added ==> |stored| == |questions| + 1 && stored[..|questions|] == questions
    ensures added ==> stored[|questions|] == Question(
              Trim(Field(form, "text")),
              map["A" := Trim(Field(form, "option_a")), "B" := Trim(Field(form, "option_b")),
                  "C" := Trim(Field(form, "option_c")), "D" := Trim(Field(form, "option_d"))],
              Some(Upper(Trim(Field(form, "answer")))),
              Some(Trim(Field(form, "topic"))))
    ensures added ==> WellFormed(stored[|questions|])
    ensures (forall q :: q in questions ==> WellFormed(q)) ==> (forall q :: q in stored ==> WellFormed(q))
  {
    var text := Trim(Field(form, "text"));
    var optionA := Trim(Field(form, "option_a"));
    var optionB := Trim(Field(form, "option_b"));
    var optionC := Trim(Field(form, "option_c"));
    var optionD := Trim(Field(form, "option_d"));
    var answer := Upper(Trim(Field(form, "answer")));
    var topic := Trim(Field(form, "topic"));
    if text == "" || optionA == "" || optionB == "" || optionC == "" || optionD == "" || answer !in Choices {
      return questions, false;
    }
    var options := map["A" := optionA, "B" := optionB, "C" := optionC, "D" := optionD];
    var newQuestion := Question(text, options, Some(answer), Some(topic));
    TrimIdempotent(Field(form, "text"));
    FourOptionsWellFormed(text, optionA, optionB, optionC, optionD, answer, topic);
    stored := questions + [newQuestion];
    added := true;
  }

  lemma FourOptionsWellFormed(text: string, a: string, b: string, c: string, d: string, answer: string, topic: string)
    requires text != "" && Trim(text) == text && answer in Choices
    ensures WellFormed(Question(text, map["A" := a, "B" := b, "C" := c, "D" := d], Some(answer), Some(topic)))
  {
    assert map["A" := a, "B" := b, "C" := c, "D" := d].Keys == Choices;
    ChoicesDistinct();
  }

  /** A form whose answer is "E" is rejected, whatever the other fields hold. */
  lemma AnswerOutsideChoicesRejected(form: map<string, string>)
    requires Field(form, "answer") == "E"
    ensures !Acceptable(form)
  {
    TrimFixed("E");
    assert Upper("E") == "E";
    assert "E" !in Choices by {
      assert "E"[0] != "A"[0] && "E"[0] != "B"[0] && "E"[0] != "C"[0] && "E"[0] != "D"[0];
    }
  }

  /** Submitted answers are case- and blank-insensitive: " b " is accepted as B. */
  lemma AnswerIsNormalised(form: map<string, string>)
    requires Field(form, "answer") == " b "
    ensures Upper(Trim(Field(form, "answer"))) == "B"
  {
    assert TrimStart(" b ") == "b " by { assert " b "[1..] == "b "; }
    assert TrimEnd("b ") == "b" by { assert "b "[..1] == "b"; }
  }
}
