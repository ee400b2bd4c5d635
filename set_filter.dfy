/** `filter_by_set`: the questions whose stripped topic starts with the literal `"Set {set_id}"`. */
module SetFilter {
  import opened Wrappers
  import opened Text
  import opened Questions
  import opened Seqs

  /** The label built for a set number: the word `Set`, a space and the number in decimal (app/routes.py:37). */
  function Label(setId: nat): (r: string)
    ensures |r| > 4 && r[..4] == "Set "
    ensures forall k :: 4 <= k < |r| ==> '0' <= r[k] <= '9'
    ensures DigitsValue(r[4..]) == setId
    ensures r[4] == '0' ==> |r| == 5
  {
    DecimalValue(setId);
    DecimalLead(setId);
    assert ("Set " + Decimal(setId))[4..] == Decimal(setId);
    "Set " + Decimal(setId)
  }

  /** The topic as text: a missing topic reads as the empty string (app/routes.py:40). */
  function TopicText(q: Question): string
  {
    match q.topic
    case None => ""
    case Some(t) => t
  }

  /** A question belongs to a set when its stripped topic starts with the set's label (app/routes.py:40-41). */
  predicate InSet(q: Question, setId: nat)
  {
    StartsWith(Trim(TopicText(q)), Label(setId))
  }

  /** The questions of `qs` that belong to set `setId`, in their order in `qs`. */
  function SetMembers(qs: seq<Question>, setId: nat): seq<Question>
  {
    Filter(qs, q => InSet(q, setId))
  }

  method FilterBySet(questions: seq<Question>, setId: nat) returns (filtered: seq<Question>)
    ensures filtered == SetMembers(questions, setId)
  {
    var prefix := Label(setId);
    filtered := [];
    for i := 0 to |questions|
      invariant filtered == SetMembers(questions[..i], setId)
    {
      var q := questions[i];
      var topic := Trim(TopicText(q));
      if StartsWith(topic, prefix) {
        filtered := filtered + [q];
      }
      assert questions[..i + 1][..i] == questions[..i];
    }
    assert questions[..|questions|] == questions;
  }

  /** The filtered questions are a subsequence of the input: none is added, none is reordered. */
  lemma SetMembersIsSubsequence(qs: seq<Question>, setId: nat)
    ensures IsSubsequence(SetMembers(qs, setId), qs)
    ensures |SetMembers(qs, setId)| <= |qs|
  {
    FilterIsSubsequence(qs, q => InSet(q, setId));
  }

  /** A question is kept exactly when it is in the input and its topic has the set's prefix. */
  lemma SetMembersExactly(qs: seq<Question>, setId: nat, q: Question)
    ensures q in SetMembers(qs, setId) <==> q in qs && InSet(q, setId)
  {
    FilterExactly(qs, q => InSet(q, setId), q);
  }

  /** Filtering a concatenation filters each part: kept questions stay in input order. */
  lemma SetMembersConcat(a: seq<Question>, b: seq<Question>, setId: nat)
    ensures SetMembers(a + b, setId) == SetMembers(a, setId) + SetMembers(b, setId)
  {
    FilterConcat(a, b, q => InSet(q, setId));
  }

  /** A question without a topic, or with an empty one, is in no set. */
  lemma MissingTopicNeverKept(q: Question, setId: nat)
    requires TopicText(q) == ""
    ensures !InSet(q, setId)
  {
    assert Trim("") == "";
  }

  /** The test is a plain prefix test on the text: a topic " Set 10" belongs to set 1. */
  lemma PrefixIsLiteral(q: Question)
    requires q.topic == Some(" Set 10")
    ensures InSet(q, 1) && InSet(q, 10) && !InSet(q, 0)
  {
    var t := "Set 10";
    assert TrimStart(t) == t by { assert !IsSpace(t[0]); }
    assert TrimStart(" Set 10") == t by { assert IsSpace(' ') && " Set 10"[1..] == t; }
    assert TrimEnd(t) == t by { assert !IsSpace(t[|t| - 1]); }
    assert Trim(TopicText(q)) == t;
    assert Decimal(10) == "10" by { assert Decimal(1) == "1"; }
    assert Label(1) == t[..5];
    assert Label(10) == t;
    assert Label(0) == "Set 0" && t[..5] != "Set 0" by { assert t[4] != '0'; }
  }
}
