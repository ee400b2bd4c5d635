/**
 * The question record the routes read and write. In the stored JSON each
 * question is a dict with the keys `text`, `options`, `answer` and `topic`;
 * here it is a record whose `answer` and `topic` may be absent (`None`).
 */
module Questions {
  import opened Wrappers
  import opened Text
  import opened Json
  import opened Seqs

  datatype Question = Question(
    text: string,
    options: map<string, string>,
    answer: Option<string>,
    topic: Option<string>)

  /** The only option labels a question may carry. */
  const Choices: set<string> := {"A", "B", "C", "D"}

  lemma ChoicesDistinct()
    ensures |Choices| == 4
  {
    assert "A" != "B" && "A" != "C" && "A" != "D" && "B" != "C" && "B" != "D" && "C" != "D" by {
      assert "A"[0] != "B"[0] && "A"[0] != "C"[0] && "A"[0] != "D"[0];
      assert "B"[0] != "C"[0] && "B"[0] != "D"[0] && "C"[0] != "D"[0];
    }
  }

  /** An option label is unchanged by `strip()` and `upper()`. */
  lemma ChoiceIsStripped(a: string)
    requires a in Choices
    ensures a != "" && Trim(a) == a && Upper(a) == a
  {
    assert a == "A" || a == "B" || a == "C" || a == "D";
    assert |a| == 1 && !IsSpace(a[0]) && UpperChar(a[0]) == a[0];
    TrimFixed(a);
  }

  /**
   * What every question the routes create satisfies: stripped, non-empty
   * text; at least two options, all labelled A to D; and an answer, when
   * there is one, that labels one of those options.
   */
  predicate WellFormed(q: Question)
  {
    && q.text != []
    && Trim(q.text) == q.text
    && q.options.Keys <= Choices
    && |q.options.Keys| >= 2
    && (q.answer.Some? ==> q.answer.value in q.options)
  }

  /** The options dict of a question as JSON. */
  function EncodeOptions(options: map<string, string>): map<string, Json>
  {
    map k | k in options :: JStr(options[k])
  }

  function EncodeAnswer(answer: Option<string>): Json
  {
    match answer
    case None => JNull
    case Some(a) => JStr(a)
  }

  /** The JSON dict the routes build for a question (and `save_questions` writes). */
  function Encode(q: Question): Json
  {
    var base := map["text" := JStr(q.text), "options" := JObj(EncodeOptions(q.options)), "answer" := EncodeAnswer(q.answer)];
    match q.topic
    case None => JObj(base)
    case Some(t) => JObj(base["topic" := JStr(t)])
  }

  /** The encoded form of a collection, one dict per question. */
  function EncodeAll(qs: seq<Question>): seq<Json>
  {
    MapSeq(qs, Encode)
  }

  /** The fields of an encoded question, each read back by its key. */
  lemma EncodeFields(q: Question)
    ensures Encode(q).JObj?
    ensures var m := Encode(q).fields;
      && "text" in m && m["text"] == JStr(q.text)
      && "options" in m && m["options"] == JObj(EncodeOptions(q.options))
      && "answer" in m && m["answer"] == EncodeAnswer(q.answer)
      && ("topic" in m <==> q.topic.Some?)
      && (q.topic.Some? ==> m["topic"] == JStr(q.topic.value))
      && "set" !in m
  {
    assert "text"[1] != "topic"[1] && "options"[0] != "topic"[0] && "answer"[0] != "topic"[0];
    assert "text"[0] != "options"[0] && "text"[0] != "answer"[0] && "options"[0] != "answer"[0];
    assert "set"[0] != "text"[0] && "set"[0] != "options"[0] && "set"[0] != "answer"[0] && "set"[0] != "topic"[0];
  }
}
