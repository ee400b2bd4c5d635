/**
 * The question store: the shape `load_questions` accepts for the stored
 * document and the document `save_questions` writes. Reading and writing the
 * file are not modelled; `file` is what `json.load` produced, `None` when the
 * file is missing or is not valid JSON.
 */
module Store {
  import opened Wrappers
  import opened Json
  import opened Questions

  /** A dict with a `questions` key: its value is what `load_questions` returns. */
  predicate IsWrapped(v: Json)
  {
    v.JObj? && "questions" in v.fields
  }

  /**
   * `load_questions`: the `questions` value of a wrapped document (which is
   * not checked to be a list), a bare list as it is, and the empty list for
   * a missing or malformed file and for any other shape.
   */
  function LoadShape(file: Option<Json>): (r: Json)
    ensures file.Some? && IsWrapped(file.value) ==> r == file.value.fields["questions"]
    ensures file.Some? && !IsWrapped(file.value) && file.value.JArr? ==> r == file.value
    ensures file.None? || (!IsWrapped(file.value) && !file.value.JArr?) ==> r == JArr([])
  {
    match file
    case None => JArr([])
    case Some(data) =>
      if IsWrapped(data) then data.fields["questions"]
      else if data.JArr? then data
      else JArr([])
  }

  /** The document `save_questions` writes: always the wrapped shape. */
  function SaveDocument(items: seq<Json>): (d: Json)
    ensures IsWrapped(d)
  {
    JObj(map["questions" := JArr(items)])
  }

  /** The stored document for a collection of question records. */
  function StoredDocument(qs: seq<Question>): Json
  {
    SaveDocument(EncodeAll(qs))
  }

  /** Loading what was saved gives back the saved list, so saving again rewrites the same document. */
  lemma LoadAfterSave(items: seq<Json>)
    ensures LoadShape(Some(SaveDocument(items))) == JArr(items)
    ensures SaveDocument(LoadShape(Some(SaveDocument(items))).items) == SaveDocument(items)
  {
  }

  /** Saving what was loaded from a bare list rewrites it in the wrapped shape, with the same items. */
  lemma SaveAfterLoadWraps(items: seq<Json>)
    ensures LoadShape(Some(JArr(items))) == JArr(items)
    ensures SaveDocument(LoadShape(Some(JArr(items))).items) == SaveDocument(items)
  {
  }
}
