# Quiz practice routes, modelled in Dafny

This project models the request-independent logic of the quiz web
application's `app/routes.py`. The question bank is a list of question
records. Each record has a text, a map of option labels to option texts, an
optional answer label and an optional topic. Topics of the form `"Set N …"`
group questions into practice sets. The routes:

- list the questions of one set (`filter_by_set`);
- score a practice submission question by question (`practice_all`,
  `practice_set`);
- check one answer (`question`);
- add one question from a form (`add_question`);
- import a pasted JSON payload of loosely typed items, after normalising
  them (`import_questions`).

`load_questions` and `save_questions` fix the shape of the stored document.

The handlers work on values. Each takes the collection as loaded and, where
it reads one, the submitted form (a map from field names to strings). Adding
and importing are methods that return the collection to be saved and a
status. The practice handlers are methods that return a result map and a
score. The single-question check is a function that returns a verdict.

The modules are:

- `Text`: Python's `strip` (the full `str.isspace` set), ASCII `upper`, `startswith`, and decimal rendering of set numbers.
- `Json`: parsed JSON values, Python truthiness, and `str()` of a value.
- `Questions`: the question record, the well-formedness invariant and the dict the routes write for a record.
- `Store`: the load and save shapes.
- `Seqs`: order-preserving filtering, plus mapping with filtering.
- `SetFilter`, `Practice`, `AddForm`, `Import`: the routes.

Two facts about the code shape the model:

- `load_questions` returns the `questions` value of a wrapped document without checking that it is a list (app/routes.py:24-25), while `import_questions` does check (app/routes.py:170).
- No route in app/routes.py sets a subject field on imported or added questions (app/routes.py:92-102, 200).

## Model

| member | source | states |
|---|---|---|
| SetFilter.Label | app/routes.py:37 | the label is `Set ` followed by one or more decimal digits, with no leading zero, whose value is the set number |
| SetFilter.TopicText | app/routes.py:40 | a question's topic as text, a missing topic read as the empty string |
| SetFilter.InSet | app/routes.py:40-41 | a question is in a set when its stripped topic, a missing one read as empty, starts with the set's label (characterised by the lemmas below) |
| SetFilter.FilterBySet | app/routes.py:36-43 | the loop returns exactly the questions whose stripped topic (a missing one read as `""`) starts with `"Set {set_id}"`, in input order |
| SetFilter.SetMembersIsSubsequence | app/routes.py:38-42 | the filtered list is a subsequence of the input and no longer than it |
| SetFilter.SetMembersExactly | app/routes.py:39-42 | a question is kept if and only if it is in the input and its stripped topic has the set's prefix |
| SetFilter.SetMembersConcat | app/routes.py:39-42 | filtering distributes over concatenation, so kept questions keep their relative order |
| SetFilter.MissingTopicNeverKept | app/routes.py:40 | a missing or empty topic is in no set |
| SetFilter.PrefixIsLiteral | app/routes.py:37-41 | the test is a literal prefix test: topic `" Set 10"` belongs to sets 1 and 10 but not to set 0 |
| Store.IsWrapped | app/routes.py:24 | the document is a dict with a `questions` key |
| Store.LoadShape | app/routes.py:16-28 | load returns the `questions` value of a dict that has one (unchecked), a bare list as it is, and `[]` for a missing or malformed file or any other shape |
| Store.SaveDocument | app/routes.py:31-33 | the saved document always has the wrapped `{"questions": [...]}` shape |
| Store.LoadAfterSave | app/routes.py:16-33 | loading a saved document gives back the saved list, and saving that again writes the same document |
| Store.SaveAfterLoadWraps | app/routes.py:26-33 | a bare-list file loads as is and is rewritten in the wrapped shape with the same items |
| Practice.FormValue | app/routes.py:118 | a submitted form field, or nothing when it was not submitted (also read at app/routes.py:68) |
| Practice.AnswerKey | app/routes.py:118 | the form field for position `idx`: `ans_` followed by `idx` in decimal |
| Practice.BatchVerdict | app/routes.py:120 | the batch verdict is absent exactly when the selection or the stored answer is missing or empty, and true exactly when a non-empty selection equals the stored answer |
| Practice.SingleVerdict | app/routes.py:70 | the single-question verdict is absent exactly when the stored answer is missing or empty, and true exactly when the selection equals it |
| Practice.VerdictsAgreeWhenAnswered | app/routes.py:70 | with a non-empty selection, the single-question rule and the batch rule agree |
| Practice.VerdictsDifferWhenUnanswered | app/routes.py:70 | with no selection and a stored answer, the batch rule gives no verdict but the single-question rule gives false |
| Practice.ScoreSubmission | app/routes.py:114-127 | the result map has an entry for exactly the positions 1..n; each entry holds the submitted `ans_{i}` field, the stored answer and the batch verdict; the score counts the true verdicts and is at most n |
| Practice.CountStep | app/routes.py:121-123 | recording one new position raises the count of true verdicts by one exactly when its verdict is true |
| Practice.PracticeSet | app/routes.py:135-150 | the practised questions are the set's members, scored by the same rule |
| Practice.ScoreCountsMatches | app/routes.py:117-122 | the score is the number of positions whose non-empty submitted answer equals the stored answer |
| Practice.ScoringExample | app/routes.py:117-127 | stored answers A, B, C with a form answering A, X and nothing give true, false, no verdict, and score 1 |
| Practice.CheckAnswer | app/routes.py:59-71 | a position outside 1..n is not found; otherwise the result is the question at that position, with no verdict exactly when its stored answer is empty, and else a comparison of the form's `answer` with it |
| AddForm.Field | app/routes.py:79-85 | a submitted form field, read as the empty string when it was not submitted |
| AddForm.Acceptable | app/routes.py:79-87 | the validation: stripped text and four stripped options non-empty, and the stripped upper-cased answer one of A to D (used by `AddForm.AddQuestion`) |
| AddForm.AddQuestion | app/routes.py:79-104 | the form is accepted if and only if the stripped text and four options are non-empty and the stripped upper-cased answer is A to D; a rejected form leaves the collection unchanged; an accepted one appends exactly one well-formed question built from the stripped fields |
| AddForm.FourOptionsWellFormed | app/routes.py:92-102 | a question built from a non-empty stripped text, options A to D and an answer in A to D is well formed |
| AddForm.AnswerOutsideChoicesRejected | app/routes.py:84-87 | a form whose answer is `E` is rejected |
| AddForm.AnswerIsNormalised | app/routes.py:84 | the submitted answer `" b "` is normalised to `B` |
| Import.ImportShape | app/routes.py:169-176 | the incoming items are a dict's `questions` list or a bare list; every other shape is refused |
| Import.ImportShapeAgreesWithLoad | app/routes.py:24-27 | on every shape that import accepts, load yields the same list |
| Import.LoadAcceptsNonListQuestions | app/routes.py:24-25 | a dict whose `questions` value is not a list is refused by import but returned as is by load |
| Import.AnswerCrashes | app/routes.py:185 | stripping the answer raises exactly when it is present, truthy and not a string (used by `Import.NormalizeItemSpec`) |
| Import.AnswerOf | app/routes.py:185 | the answer is absent exactly when the field is falsy or strips to empty; otherwise it is the non-empty upper-cased stripped text, which upper-casing leaves unchanged |
| Import.TextOf | app/routes.py:183 | the text, the `text` field (empty when missing) rendered and stripped, is itself unchanged by stripping |
| Import.TopicOf | app/routes.py:186 | the topic, the truthy `topic` field, else the truthy `set` field, else empty, rendered and stripped, is itself unchanged by stripping |
| Import.CleanOptions | app/routes.py:190-194 | the cleaned options have only A to D as keys, and exactly those labels whose value is present and not null |
| Import.FixOptions | app/routes.py:190-194 | the loop over A, B, C, D builds exactly the cleaned options |
| Import.NormalizeItem | app/routes.py:181-200 | the outcome of one item: skipped, kept as a clean question, or raising (characterised by `Import.NormalizeItemSpec`) |
| Import.NormalizeItemSpec | app/routes.py:180-200 | an item raises exactly when it is a dict whose answer is truthy and not a string; it is dropped exactly when it is not a dict, or has empty text, non-dict options or fewer than two A-to-D options; a kept item becomes a well-formed question with the stripped text, the cleaned options, its answer only when it labels one of them, and the topic with its `set` fallback |
| Import.NormalizeOne | app/routes.py:181-200 | one pass of the outer loop gives the outcome the item normalises to |
| Import.Normalized | app/routes.py:179-200 | the kept questions of a list of items, in input order (characterised by the `Normalized…` lemmas) |
| Import.NormalizeItems | app/routes.py:179-200 | the loop raises exactly when some item raises; otherwise it returns the kept questions in input order |
| Import.NormalizedWellFormed | app/routes.py:187-200 | every normalised question is well formed |
| Import.NormalizedLength | app/routes.py:180-200 | normalising never yields more questions than items |
| Import.NormalizedConcat | app/routes.py:180-200 | normalisation distributes over concatenation, so survivors keep their relative order |
| Import.ImportQuestions | app/routes.py:158-209 | a blank payload, a parse failure, a refused shape, a raising item or an empty normalised list each leave the collection unchanged with their own status; otherwise the collection becomes the existing one followed by the normalised questions, and well-formedness of the collection is preserved |
| Import.TopicRoundTrip | app/routes.py:186 | a stripped string topic, with no `set` field, comes back unchanged |
| Import.AnswerAnyCase | app/routes.py:185 | a string answer of any case and with surrounding blanks reads as its upper-case label when that is one of A to D |
| Import.AnyCaseAnswerKept | app/routes.py:185-200 | an item with non-empty text and at least two usable options, whose answer upper-cases to one of their labels, is kept with that label as its answer |
| Import.AnswerRoundTrip | app/routes.py:185 | an answer written as a label A to D, or as null, reads back as the same answer |
| Import.OptionsRoundTrip | app/routes.py:190-194 | cleaning the options of a record whose labels are A to D gives them back |
| Import.KeptWhenFieldsMatch | app/routes.py:183-200 | an item whose fields normalise one by one to those of a question is kept as that question |
| Import.ReimportItem | app/routes.py:183-200 | a well-formed question whose topic is stripped survives being written as the routes write it and normalised again |
| Import.NormalizeEncoded | app/routes.py:179-200 | normalising the written records of such a collection gives the collection back |
| Import.ReimportCollection | app/routes.py:169-200 | importing the document that save writes for such a collection accepts its shape and reproduces the collection |
| Import.ExampleOptions | app/routes.py:190-195 | the options `{A: "x", B: "y"}` are kept as they are, and there are two of them |
| Import.ImportExample | app/routes.py:180-200 | the item with text `Q1`, options A and B and answer `a` becomes a question with answer `A` and an empty topic |
| Json.Truthy | app/routes.py:185-187 | Python truthiness of a JSON value: null, false, 0, the empty string, the empty list and the empty dict are falsy (also used at app/routes.py:40, 197) |
| Json.Str | app/routes.py:183-194 | `str()` of a value: `None`, `True`/`False`, the decimal numeral of an integer, a string as is; lists and dicts are abstracted (see below); its property is `Json.StrOfNonString` |
| Json.StrOfNonString | app/routes.py:183 | `str()` of a non-string value is non-empty and already stripped |
| Questions.ChoiceIsStripped | app/routes.py:84-87 | each of A to D is non-empty, stripped and upper case |
| Questions.Encode | app/routes.py:92-102 | the dict the routes build and save for a record: text, options, answer (null when absent) and topic; its properties are `Questions.EncodeFields` and `Import.ReimportItem` |
| Questions.WellFormed | app/routes.py:187-200 | the invariant of a clean question: non-empty stripped text, option labels among A to D with at least two of them, and an answer, if any, that labels one of them (kept by `AddForm.AddQuestion`, `Import.ImportQuestions` and `Import.NormalizedWellFormed`) |
| Questions.EncodeFields | app/routes.py:92-102 | the dict written for a record reads back its text, options, answer and topic, and has no `set` field |
| Text.Trim | app/routes.py:40 | Python's `strip()` over the full `str.isspace` set; its properties are `Text.TrimEmpty` and `Text.TrimIdempotent` |
| Text.Upper | app/routes.py:84 | `str.upper()` on ASCII letters; the result is as long as the input (also used at app/routes.py:185) |
| Text.StartsWith | app/routes.py:41 | `str.startswith`: the prefix is no longer than the string and equals its first characters |
| Text.Decimal | app/routes.py:37 | the rendering of a number in an f-string: one or more decimal digits (also used at app/routes.py:118) |
| Text.DecimalLead | app/routes.py:37 | the numeral of a positive number does not start with zero |
| Text.DecimalValue | app/routes.py:37 | the decimal numeral of a number denotes that number |
| Text.TrimEmpty | app/routes.py:79-87 | a string strips to empty exactly when it is all whitespace |
| Text.TrimIdempotent | app/routes.py:79-85 | stripping twice is stripping once |
| Seqs.FilterMapUndoesMap | app/routes.py:179-200 | mapping a list and then keeping each element's pre-image gives the list back |

## Left out

- Flask routing, template rendering, flash messages and redirects are not modelled. They are framework plumbing. The GET branches only render templates.
- Reading the form is not modelled. The form arrives as a map from field names to strings.
- File I/O is not modelled. This covers the existence check, opening the file, writing it and overwriting it wholesale. The loaded file is a parameter to `Store.LoadShape`; `None` stands for a missing file or one that is not valid JSON. The handlers take the loaded collection and return the collection that would be saved.
- A stored file that is not valid UTF-8 makes `json.load` raise an error that `load_questions` does not catch (app/routes.py:19-23 catches only JSON decoding errors), so the route fails; the model does not capture this failure and treats every unreadable file as `None`.
- Parsing JSON text is not modelled. `Import.ImportQuestions` takes the parsed value, or `None` for a parse failure; the parser's error message is not modelled.
- The stored collection is modelled as a list of `Question` records rather than as raw dicts. A stored file can hold arbitrary values, and the model does not cover reading those back into records.
- Json.Str: `str()` of a list or dict is abstracted to `"[...]"` and `"{...}"`. When an imported item's text, topic or option value is a list or dict, the saved text therefore differs from Python's rendering (`['a']`, `[1]`, `{}`). Only the decision to keep or drop such an item is modelled faithfully, because it depends only on the rendering being non-empty. Floats are not modelled; numbers are integers.
- Text.Upper: only ASCII letters are upper-cased. Python's full Unicode case mapping, including its length-changing cases, is not modelled.
- Set numbers are natural numbers. The route converter `<int:set_id>` accepts only non-negative digits.
- Concurrent writers to the stored file are not modelled.
- app/routes.py has no subject filter and sets no default subject, has no fixed 23-question slices, no step-by-step navigation, no timed solve-set mode and no answered counts or percentages; the model has none of them either.
