/**
 * `import_questions`: select the list of incoming items from the parsed
 * payload, normalise each item into a clean question (dropping the ones that
 * cannot be), and append the survivors to the loaded collection.
 */
module Import {
  import opened Wrappers
  import opened Text
  import opened Json
  import opened Questions
  import opened Store
  import opened Seqs

  /** How a submitted import ends. Only `Imported` changes the collection. */
  datatype ImportStatus =
    | Imported(count: nat)
    | EmptyPayload        // the payload field is blank
    | InvalidJson         // the payload does not parse
    | BadShape            // neither a list nor a dict whose `questions` is a list
    | NoValidQuestions    // every item was dropped
    | AnswerNotText       // an item's answer is truthy but not a string, so stripping it raises

  /** The incoming items: a dict's `questions` list, or a bare list; `None` for any other shape. */
  function ImportShape(data: Json): (r: Option<seq<Json>>)
    ensures IsWrapped(data) && data.fields["questions"].JArr? ==> r == Some(data.fields["questions"].items)
    ensures data.JArr? ==> r == Some(data.items)
    ensures r.None? <==> !data.JArr? && !(IsWrapped(data) && data.fields["questions"].JArr?)
  {
    if IsWrapped(data) && data.fields["questions"].JArr? then Some(data.fields["questions"].items)
    else if data.JArr? then Some(data.items)
    else None
  }

  /** Import and load agree on every shape import accepts. */
  lemma ImportShapeAgreesWithLoad(data: Json)
    requires ImportShape(data).Some?
    ensures LoadShape(Some(data)) == JArr(ImportShape(data).value)
  {
  }

  /** Load is laxer: a dict whose `questions` is not a list is returned as is by load and refused by import. */
  lemma LoadAcceptsNonListQuestions(data: Json)
    requires IsWrapped(data) && !data.fields["questions"].JArr?
    ensures ImportShape(data).None?
    ensures LoadShape(Some(data)) == data.fields["questions"]
  {
  }

  /** Stripping the answer raises when it is present, truthy and not a string (app/routes.py:185). */
  predicate AnswerCrashes(m: map<string, Json>)
  {
    "answer" in m && Truthy(m["answer"]) && !m["answer"].JStr?
  }

  /**
   * The answer of an item whose answer does not raise: a falsy answer reads as
   * empty, a string is stripped and upper-cased, and an empty result is no
   * answer at all (app/routes.py:185).
   */
  function AnswerOf(m: map<string, Json>): (r: Option<string>)
    requires !AnswerCrashes(m)
    ensures r.None? <==> !Truthy(Get(m, "answer")) || Trim(Get(m, "answer").s) == ""
    ensures r.Some? ==> r.value != "" && |r.value| == |Trim(Get(m, "answer").s)|
    ensures r.Some? ==> r.value == Upper(Trim(Get(m, "answer").s)) && Upper(r.value) == r.value
  {
    var raw := Get(m, "answer");
    var answer := if Truthy(raw) then Upper(Trim(raw.s)) else "";
    if answer == "" then None else Some(answer)
  }

  /**
   * The topic of an item: the `topic` field rendered as text if it is truthy,
   * else the `set` field if that is truthy, else empty, then stripped
   * (app/routes.py:186).
   */
  function TopicOf(m: map<string, Json>): (r: string)
    ensures Trim(r) == r
  {
    var topic := GetOr(m, "topic", JStr(""));
    var setField := GetOr(m, "set", JStr(""));
    TrimIdempotent(if Truthy(topic) then Str(topic) else if Truthy(setField) then Str(setField) else "");
    Trim(if Truthy(topic) then Str(topic) else if Truthy(setField) then Str(setField) else "")
  }

  /** The text of an item: its `text` field (empty when missing) rendered as text and stripped (app/routes.py:183). */
  function TextOf(m: map<string, Json>): (r: string)
    ensures Trim(r) == r
  {
    TrimIdempotent(Str(GetOr(m, "text", JStr(""))));
    Trim(Str(GetOr(m, "text", JStr(""))))
  }

  /** The options labelled A to D whose value is present and not `None`, each rendered with `str`. */
  function CleanOptions(options: map<string, Json>): (r: map<string, string>)
    ensures r.Keys <= Choices
    ensures forall k :: k in r <==> k in Choices && k in options && options[k] != JNull
  {
    map k | k in Choices && k in options && options[k] != JNull :: Str(options[k])
  }

  /** The labels in the order the normaliser visits them. */
  const ChoiceOrder: seq<string> := ["A", "B", "C", "D"]

  /** The inner loop of the normaliser: build `fixed_options` from an item's `options` dict. */
  method FixOptions(options: map<string, Json>) returns (fixed: map<string, string>)
    ensures fixed == CleanOptions(options)
  {
    fixed := map[];
    for j := 0 to |ChoiceOrder|
      invariant forall k :: k in fixed <==> k in ChoiceOrder[..j] && k in options && options[k] != JNull
      invariant forall k :: k in fixed ==> fixed[k] == Str(options[k])
    {
      var key := ChoiceOrder[j];
      assert ChoiceOrder[..j + 1] == ChoiceOrder[..j] + [key];
      var val := Get(options, key);
      if val != JNull {
        fixed := fixed[key := Str(val)];
      }
    }
    assert ChoiceOrder[..|ChoiceOrder|] == ChoiceOrder;
    assert forall k :: k in ChoiceOrder <==> k in Choices;
  }

  /** What becomes of one incoming item. */
  datatype ItemOutcome = Skipped | Kept(question: Question) | Crashed

  /** The normalisation of one item, as the body of the outer import loop does it. */
  function NormalizeItem(item: Json): ItemOutcome
  {
    if !item.JObj? then Skipped
    else
      var m := item.fields;
      if AnswerCrashes(m) then Crashed
      else
        var text := TextOf(m);
        var options := Get(m, "options");
        if text == "" || !options.JObj? then Skipped
        else
          var fixed := CleanOptions(options.fields);
          if |fixed| < 2 then Skipped
          else
            var answer := AnswerOf(m);
            Kept(Question(text, fixed, if answer.Some? && answer.value !in fixed then None else answer, Some(TopicOf(m))))
  }

  /**
   * Which items are dropped, which raise, and what a kept item becomes: a
   * well-formed question with the stripped text, the A to D options, the
   * answer only when it labels one of them, and the topic with its fallback.
   */
  lemma NormalizeItemSpec(item: Json)
    ensures NormalizeItem(item).Crashed? <==> item.JObj? && AnswerCrashes(item.fields)
    ensures NormalizeItem(item).Skipped? <==>
              || !item.JObj?
              || (&& !AnswerCrashes(item.fields)
                  && (|| TextOf(item.fields) == ""
                      || !Get(item.fields, "options").JObj?
                      || |CleanOptions(Get(item.fields, "options").fields)| < 2))
    ensures NormalizeItem(item).Kept? ==>
              var q := NormalizeItem(item).question;
              && WellFormed(q)
              && q.text == TextOf(item.fields)
              && q.options == CleanOptions(Get(item.fields, "options").fields)
              && q.topic == Some(TopicOf(item.fields))
              && (q.answer.Some? <==> AnswerOf(item.fields).Some? && AnswerOf(item.fields).value in q.options)
              && (q.answer.Some? ==> q.answer == AnswerOf(item.fields))
  {
  }

  /** The question an item normalises to, if it is kept. */
  function KeptQuestion(item: Json): Option<Question>
  {
    match NormalizeItem(item)
    case Kept(q) => Some(q)
    case _ => None
  }

  /** The clean questions of `items`, in their order in `items`. */
  function Normalized(items: seq<Json>): seq<Question>
  {
    FilterMap(items, KeptQuestion)
  }

  /** Some item makes the normaliser raise. */
  ghost predicate AnyCrash(items: seq<Json>)
  {
    exists i :: 0 <= i < |items| && NormalizeItem(items[i]).Crashed?
  }

  /** The body of the outer import loop for one item. */
  method NormalizeOne(item: Json) returns (outcome: ItemOutcome)
    ensures outcome == NormalizeItem(item)
  {
    if !item.JObj? {
      return Skipped;
    }
    var m := item.fields;
    var text := TextOf(m);
    var options := Get(m, "options");
    if AnswerCrashes(m) {
      return Crashed;
    }
    var answer := AnswerOf(m);
    var topic := TopicOf(m);
    if text == "" || !options.JObj? {
      return Skipped;
    }
    var fixed := FixOptions(options.fields);
    if |fixed| < 2 {
      return Skipped;
    }
    if answer.Some? && answer.value !in fixed {
      answer := None;
    }
    outcome := Kept(Question(text, fixed, answer, Some(topic)));
  }

  /**
   * The outer import loop. It stops with `crashed` at the first item whose
   * answer cannot be stripped; otherwise it returns the clean questions.
   */
  method NormalizeItems(incoming: seq<Json>) returns (normalized: seq<Question>, crashed: bool)
    ensures crashed <==> AnyCrash(incoming)
    ensures !crashed ==> normalized == Normalized(incoming)
  {
    normalized := [];
    for i := 0 to |incoming|
      invariant normalized == Normalized(incoming[..i])
      invariant forall j :: 0 <= j < i ==> !NormalizeItem(incoming[j]).Crashed?
    {
      assert incoming[..i + 1][..i] == incoming[..i];
      var outcome := NormalizeOne(incoming[i]);
      match outcome
      case Crashed =>
        return [], true;
      case Skipped =>
      case Kept(q) =>
        normalized := normalized + [q];
    }
    assert incoming[..|incoming|] == incoming;
    crashed := false;
  }

  /** Every normalised question is well formed. */
  lemma NormalizedWellFormed(items: seq<Json>)
    ensures forall q :: q in Normalized(items) ==> WellFormed(q)
  {
    forall q | q in Normalized(items)
      ensures WellFormed(q)
    {
      FilterMapOrigin(items, KeptQuestion, q);
      var i :| 0 <= i < |items| && KeptQuestion(items[i]) == Some(q);
      NormalizeItemSpec(items[i]);
    }
  }

  /** Normalising never adds questions. */
  lemma NormalizedLength(items: seq<Json>)
    ensures |Normalized(items)| <= |items|
  {
    FilterMapLength(items, KeptQuestion);
  }

  /** Normalising a concatenation normalises each part: survivors keep their relative order. */
  lemma NormalizedConcat(a: seq<Json>, b: seq<Json>)
    ensures Normalized(a + b) == Normalized(a) + Normalized(b)
  {
    FilterMapConcat(a, b, KeptQuestion);
  }

  /**
   * Handle a submitted import against the loaded collection `existing`.
   * `raw` is the payload field and `parsed` what `json.loads` made of it
   * (`None` when it is not valid JSON).
   */
  method ImportQuestions(existing: seq<Question>, raw: string, parsed: Option<Json>)
    returns (stored: seq<Question>, status: ImportStatus)
    ensures Trim(raw) == "" ==> status == EmptyPayload
    ensures Trim(raw) != "" && parsed.None? ==> status == InvalidJson
    ensures Trim(raw) != "" && parsed.Some? && ImportShape(parsed.value).None? ==> status == BadShape
    ensures Trim(raw) != "" && parsed.Some? && ImportShape(parsed.value).Some? ==>
              var items := ImportShape(parsed.value).value;
              && (AnyCrash(items) ==> status == AnswerNotText)
              && (!AnyCrash(items) && Normalized(items) == [] ==> status == NoValidQuestions)
              && (!AnyCrash(items) && Normalized(items) != [] ==>
                    status == Imported(|Normalized(items)|) && stored == existing + Normalized(items))
    ensures !status.Imported? ==> stored == existing
    ensures (forall q :: q in existing ==> WellFormed(q)) ==> (forall q :: q in stored ==> WellFormed(q))
  {
    stored := existing;
    var payload := Trim(raw);
    if payload == "" {
      return existing, EmptyPayload;
    }
    if parsed.None? {
      return existing, InvalidJson;
    }
    var incoming := ImportShape(parsed.value);
    if incoming.None? {
      return existing, BadShape;
    }
    var normalized, crashed := NormalizeItems(incoming.value);
    if crashed {
      return existing, AnswerNotText;
    }
    if normalized == [] {
      return existing, NoValidQuestions;
    }
    NormalizedWellFormed(incoming.value);
    stored := existing + normalized;
    status := Imported(|normalized|);
  }

  lemma TopicRoundTrip(m: map<string, Json>, t: string)
    requires GetOr(m, "topic", JStr("")) == JStr(t) && Trim(t) == t && "set" !in m
    ensures TopicOf(m) == t
  {
    if t == "" {
      TrimFixed("");
    }
  }

  lemma AnswerRoundTrip(m: map<string, Json>, answer: Option<string>)
    requires Get(m, "answer") == EncodeAnswer(answer)
    requires answer.Some? ==> answer.value in Choices
    ensures !AnswerCrashes(m) && AnswerOf(m) == answer
  {
    if answer.Some? {
      ChoiceIsStripped(answer.value);
    }
  }

  /** An answer of any case and with surrounding blanks reads as its upper-case label, when that is one of A to D. */
  lemma AnswerAnyCase(m: map<string, Json>, s: string)
    requires Get(m, "answer") == JStr(s) && Upper(Trim(s)) in Choices
    ensures !AnswerCrashes(m) && AnswerOf(m) == Some(Upper(Trim(s)))
  {
    ChoiceIsStripped(Upper(Trim(s)));
  }

  /**
   * An item with non-empty text and at least two usable options, whose answer
   * upper-cases to one of those options' labels, is kept with that label as its answer.
   */
  lemma AnyCaseAnswerKept(m: map<string, Json>, options: map<string, Json>, s: string)
    requires Get(m, "answer") == JStr(s) && Get(m, "options") == JObj(options)
    requires TextOf(m) != "" && |CleanOptions(options)| >= 2 && Upper(Trim(s)) in CleanOptions(options)
    ensures NormalizeItem(JObj(m)).Kept? && NormalizeItem(JObj(m)).question.answer == Some(Upper(Trim(s)))
  {
    AnswerAnyCase(m, s);
  }

  lemma OptionsRoundTrip(options: map<string, string>)
    requires options.Keys <= Choices
    ensures CleanOptions(EncodeOptions(options)) == options
  {
  }

  /** An item is kept as `q` when its fields normalise, one by one, to those of `q`. */
  lemma KeptWhenFieldsMatch(m: map<string, Json>, options: map<string, Json>, q: Question)
    requires !AnswerCrashes(m) && AnswerOf(m) == q.answer
    requires TextOf(m) == q.text && q.text != ""
    requires Get(m, "options") == JObj(options) && CleanOptions(options) == q.options && |q.options| >= 2
    requires q.answer.Some? ==> q.answer.value in q.options
    requires q.topic == Some(TopicOf(m))
    ensures NormalizeItem(JObj(m)) == Kept(q)
  {
  }

  /** A question exported as the routes write it comes back unchanged from the normaliser. */
  lemma ReimportItem(q: Question)
    requires WellFormed(q)
    requires q.topic.Some? && Trim(q.topic.value) == q.topic.value
    ensures NormalizeItem(Encode(q)) == Kept(q)
  {
    EncodeFields(q);
    var m := Encode(q).fields;
    assert TextOf(m) == q.text;
    OptionsRoundTrip(q.options);
    AnswerRoundTrip(m, q.answer);
    TopicRoundTrip(m, q.topic.value);
    assert |q.options| == |q.options.Keys|;
    KeptWhenFieldsMatch(m, EncodeOptions(q.options), q);
  }

  /** Normalising the encoded questions of a clean collection gives the collection back. */
  lemma NormalizeEncoded(qs: seq<Question>)
    requires forall q :: q in qs ==> WellFormed(q) && q.topic.Some? && Trim(q.topic.value) == q.topic.value
    ensures Normalized(EncodeAll(qs)) == qs
  {
    forall q | q in qs
      ensures KeptQuestion(Encode(q)) == Some(q)
    {
      ReimportItem(q);
    }
    FilterMapUndoesMap(qs, Encode, KeptQuestion);
  }

  /**
   * Importing the document `save_questions` writes for a clean collection
   * accepts its shape and reproduces the collection.
   */
  lemma ReimportCollection(qs: seq<Question>)
    requires forall q :: q in qs ==> WellFormed(q) && q.topic.Some? && Trim(q.topic.value) == q.topic.value
    ensures ImportShape(StoredDocument(qs)) == Some(EncodeAll(qs))
    ensures Normalized(ImportShape(StoredDocument(qs)).value) == qs
  {
    NormalizeEncoded(qs);
  }

  /** The example item below, and its options. */
  predicate IsExampleItem(m: map<string, Json>, opts: map<string, Json>)
  {
    && opts == map["A" := JStr("x"), "B" := JStr("y")]
    && m == map["text" := JStr("Q1"), "options" := JObj(opts), "answer" := JStr("a")]
  }

  lemma ExampleText(m: map<string, Json>, opts: map<string, Json>)
    requires IsExampleItem(m, opts)
    ensures TextOf(m) == "Q1"
  {
    assert "text"[0] != "options"[0] && "text"[0] != "answer"[0];
    assert GetOr(m, "text", JStr("")) == JStr("Q1");
    assert !IsSpace('Q') && !IsSpace('1');
    TrimFixed("Q1");
  }

  lemma ExampleAnswer(m: map<string, Json>, opts: map<string, Json>)
    requires IsExampleItem(m, opts)
    ensures Get(m, "options") == JObj(opts)
    ensures !AnswerCrashes(m) && AnswerOf(m) == Some("A")
  {
    assert "options"[0] != "answer"[0];
    assert Get(m, "answer") == JStr("a");
    TrimFixed("a");
    assert Upper("a") == "A";
  }

  lemma ExampleTopic(m: map<string, Json>, opts: map<string, Json>)
    requires IsExampleItem(m, opts)
    ensures TopicOf(m) == ""
  {
    assert "topic" !in m && "set" !in m by {
      assert "topic"[1] != "text"[1] && "topic"[0] != "options"[0] && "topic"[0] != "answer"[0];
      assert "set"[0] != "text"[0] && "set"[0] != "options"[0] && "set"[0] != "answer"[0];
    }
    TrimFixed("");
  }

  /** The options of the example item below. */
  lemma ExampleOptions(opts: map<string, Json>)
    requires opts == map["A" := JStr("x"), "B" := JStr("y")]
    ensures CleanOptions(opts) == map["A" := "x", "B" := "y"]
    ensures |map["A" := "x", "B" := "y"]| == 2
  {
    assert "A" != "B" by {
      assert "A"[0] != "B"[0];
    }
    assert "C" !in opts && "D" !in opts by {
      assert "C"[0] != "A"[0] && "C"[0] != "B"[0] && "D"[0] != "A"[0] && "D"[0] != "B"[0];
    }
    assert CleanOptions(opts).Keys == {"A", "B"};
  }

  /**
   * An item with lower-case answer "a", two options and no topic becomes a
   * question with answer "A" and an empty topic.
   */
  lemma ImportExample()
    ensures NormalizeItem(JObj(map[
              "text" := JStr("Q1"),
              "options" := JObj(map["A" := JStr("x"), "B" := JStr("y")]),
              "answer" := JStr("a")]))
            == Kept(Question("Q1", map["A" := "x", "B" := "y"], Some("A"), Some("")))
  {
    var opts := map["A" := JStr("x"), "B" := JStr("y")];
    var m := map["text" := JStr("Q1"), "options" := JObj(opts), "answer" := JStr("a")];
    ExampleText(m, opts);
    ExampleAnswer(m, opts);
    ExampleTopic(m, opts);
    ExampleOptions(opts);
    assert "A" in map["A" := "x", "B" := "y"];
    KeptWhenFieldsMatch(m, opts, Question("Q1", map["A" := "x", "B" := "y"], Some("A"), Some("")));
  }
}
