# Learning hub: AI content generation and syllabus analysis

This project models the two server routes of a study-planning web app that
call a generative-AI backend and fall back to built-in material whenever the
backend cannot be used.

- **generate-content** turns a topic, a subject, a syllabus and an optional
  test configuration into one of six kinds of study material: a roadmap,
  detailed notes, short notes, flashcards, a cheat sheet or a quiz. It builds
  a prompt for the kind and sends it to the backend through a five-key
  failover engine. For flashcards and quizzes it extracts the JSON array from
  the reply. When no key is configured, when every key fails or when the
  reply is unusable, it answers with canned material.
- **analyze-syllabus** turns a syllabus into a learning-path mind map: topics
  with numbered subtopics, plus the number of nodes. It asks the backend
  through a two-key copy of the same engine. Its fallback first extracts
  topics from the syllabus by line heuristics. If that yields nothing, it
  picks a fixed mathematics, programming or generic outline by keywords.

The model is written in Dafny in the source's own form:

- Expression-like code (prompt and fallback builders, the topic extractor's
  per-line decision, the handlers' branch structure) is written as datatypes
  and functions.
- The code that loops is written as methods with loop invariants:
  - `callGeminiWithFailover`, a loop over keys that restarts itself
    recursively;
  - `extractTopicsFromSyllabus`, a loop over lines that updates the open
    topic and two counters;
  - `countTopics`, a counting loop.
- Each `POST` handler is a method that runs those steps in the source's
  order.

Each method is proved equal to a specification function, and the promised
properties are proved about the functions.

The environment is turned into parameters:

- which `GEMINI_API_KEY_i` variables are set is `configured: seq<bool>`;
- the backend is an oracle `backend: nat -> Reply`, where the i-th call gets
  reply i;
- `JSON.parse` is an oracle on the matched text;
- a body that cannot be read is `None`, and the second `request.json()` in
  the outer `catch` is a separate input `reread`.

Every backend call and every 1-second back-off is recorded in a trace. This
lets call counts and retry behaviour be stated exactly.

Two behaviours of the code are worth knowing. The model keeps both as
written:

- The exhausted error is thrown only when the quota-class error comes from
  the key at the last list position. If every configured key reports a
  quota error but the last position is not configured, the loop runs off
  the list. It then throws "No valid API keys available", and the user gets
  the generic "temporarily unavailable" message
  (`KeyFailover.ScanAllQuotaErrors`).
- A retry after a non-quota error restarts the scan from the first key. It
  does not stay on the failing key, and the retry budget is shared by the
  whole call (`KeyFailover.ScanSteps`, `KeyFailover.ScanBudget`).

## Model

| member | source | states |
|---|---|---|
| Text.ToLower | app/api/gemini/analyze-syllabus/route.ts:226 | lower-casing keeps the length and leaves no upper-case letter |
| Text.ToLowerAppend | app/api/gemini/analyze-syllabus/route.ts:226 | lower-casing distributes over concatenation, so a keyword inside the syllabus is inside its lower-cased form |
| Text.ToUpper | app/api/gemini/generate-content/route.ts:452 | upper-casing keeps the length and leaves no lower-case letter |
| Text.OrElse | app/api/gemini/generate-content/route.ts:285 | `x \|\| d` is `d` unless `x` is a present non-empty string, in which case it is `x` |
| Text.Trim | app/api/gemini/analyze-syllabus/route.ts:405 | the trimmed line is the contiguous middle of the line with whitespace only before and after it, and starts and ends with non-whitespace |
| Text.Split | app/api/gemini/analyze-syllabus/route.ts:401 | splitting gives at least one piece and no piece contains the separator |
| Text.SplitJoin | app/api/gemini/analyze-syllabus/route.ts:401 | joining the pieces with the separator gives back the text, so no character is lost |
| Text.SplitCons | app/api/gemini/analyze-syllabus/route.ts:401 | a separator-free prefix followed by the separator is the first piece |
| Text.NatToString | app/api/gemini/analyze-syllabus/route.ts:427 | a counter prints as a non-empty string of decimal digits |
| Text.NatToStringInjective | app/api/gemini/analyze-syllabus/route.ts:427 | two counters that print the same are equal |
| Text.IntToString | app/api/gemini/generate-content/route.ts:446 | a question count prints as a non-empty string |
| Text.ContainsIsOccurrence | app/api/gemini/generate-content/route.ts:52-60 | `includes(w)` holds exactly when `w` occurs at some index of the message |
| Text.GreedyMatchFound | app/api/gemini/generate-content/route.ts:129 | the bracket regex matches exactly when an opening bracket is followed later by a closing one |
| Text.GreedyMatchShape | app/api/gemini/generate-content/route.ts:129 | the match runs from the first opening bracket to the last closing bracket |
| Template.RenderContains | app/api/gemini/generate-content/route.ts:223-508 | every value interpolated into a template literal appears verbatim in the result |
| Template.RenderIgnores | app/api/gemini/generate-content/route.ts:223-508 | a template literal depends only on the values it interpolates |
| KeyFailover.NextConfigured | app/api/gemini/generate-content/route.ts:20-27 | the loop skips exactly the unconfigured keys up to the next configured one |
| KeyFailover.HasMarkerSome | app/api/gemini/analyze-syllabus/route.ts:46-51 | the chain of `includes` tests holds exactly when the message contains one of the markers |
| KeyFailover.CallWithFailover | app/api/gemini/generate-content/route.ts:11-91 | the loop with its recursive restart yields exactly the outcome and trace of the scan function |
| KeyFailover.ScanCallsConfigured | app/api/gemini/generate-content/route.ts:23-27 | only keys whose variable is set are ever called |
| KeyFailover.ScanRepliesInOrder | app/api/gemini/generate-content/route.ts:43-45 | the calls of the trace get the backend's replies in order |
| KeyFailover.ScanStartsAtNextConfigured | app/api/gemini/generate-content/route.ts:20-27 | the first event of a scan is a call to the first configured key from its position |
| KeyFailover.ScanSteps | app/api/gemini/generate-content/route.ts:48-87 | a success ends the run; a quota error is followed by the next configured key; another error by a 1000 ms sleep or the next configured key; a sleep by the first configured key of the list |
| KeyFailover.ScanBudget | app/api/gemini/analyze-syllabus/route.ts:63-68 | a non-quota error is followed by a sleep exactly when fewer than `maxRetries` sleeps came before, whichever key failed |
| KeyFailover.ScanEnding | app/api/gemini/generate-content/route.ts:62-90 | the outcome is read off the last event: its text on success; after an error with no configured key left, the exhausted message or a rethrow at the last position and "No valid API keys available" elsewhere |
| KeyFailover.ScanBounds | app/api/gemini/generate-content/route.ts:73-76 | a scan makes at most `keyCount - k` calls plus one pass over the list per retry (`Passes`), and at most `retries` sleeps |
| KeyFailover.FailoverBounds | app/api/gemini/generate-content/route.ts:11 | one call makes at most `keyCount * (maxRetries + 1)` backend calls and `maxRetries` sleeps |
| KeyFailover.PassesIsProduct | app/api/gemini/generate-content/route.ts:73-76 | one pass over the list per retry amounts to `retries * keyCount` calls |
| KeyFailover.ExhaustedMessageIsQuotaClass | app/api/gemini/generate-content/route.ts:64-65 | each exhausted message is itself quota class and differs from the no-keys message |
| KeyFailover.ExhaustedOnlyAtLastPosition | app/api/gemini/analyze-syllabus/route.ts:54-57 | the exhausted error is thrown exactly when the run ends on a quota error from the last list position |
| KeyFailover.ScanAllQuotaErrors | app/api/gemini/analyze-syllabus/route.ts:46-61 | when every reply is a quota error, each configured key is called once in order with no sleep, and the run ends exhausted only if the last position is configured |
| KeyFailover.ScanSkipsUnconfigured | app/api/gemini/generate-content/route.ts:23-27 | scanning over unconfigured positions changes nothing |
| KeyFailover.PersistentTransientError | app/api/gemini/generate-content/route.ts:72-86 | a single key that always fails outside the quota class is tried `maxRetries + 1` times with sleeps between, then the error is rethrown at the last position and "No valid API keys available" is thrown elsewhere |
| KeyFailover.NoKeyConfigured | app/api/gemini/generate-content/route.ts:90 | with no key configured nothing is called and "No valid API keys available" is thrown |
| KeyFailover.OverloadClassDiffers | app/api/gemini/analyze-syllabus/route.ts:46-51 | an overload error moves generate-content to the next key but makes analyze-syllabus retry |
| ContentPrompts.Show | app/api/gemini/generate-content/route.ts:224 | an interpolated missing value prints as `undefined` |
| ContentPrompts.RequestedCount | app/api/gemini/generate-content/route.ts:446 | the requested count is 15 exactly when no count, 0 or 15 is given, and any other count is the one given |
| ContentPrompts.QuestionTypeLabel | app/api/gemini/generate-content/route.ts:452 | a type other than "mixed" is shown upper-cased |
| ContentPrompts.ConfigBlock | app/api/gemini/generate-content/route.ts:448-456 | the configuration block is empty exactly without a test configuration, and otherwise names the type label and the count |
| ContentPrompts.TypeBlock | app/api/gemini/generate-content/route.ts:477-499 | the type instruction is non-empty exactly for the four known types, and "mcq" gives the multiple-choice instruction |
| ContentPrompts.TemplateFor | app/api/gemini/generate-content/route.ts:223-510 | there is a template exactly for the six kinds; each names the topic and subject, and all but the roadmap embed the syllabus |
| ContentPrompts.PromptOutcomes | app/api/gemini/generate-content/route.ts:446-510 | the builder throws for every kind when a test configuration has no type, and otherwise gives no prompt exactly for kinds outside the table |
| ContentPrompts.PromptNamesTopicAndSubject | app/api/gemini/generate-content/route.ts:223-507 | every prompt contains the topic and the subject verbatim |
| ContentPrompts.PromptEmbedsSyllabus | app/api/gemini/generate-content/route.ts:285 | every prompt except the roadmap contains the syllabus, or "Standard curriculum" in its place |
| ContentPrompts.RoadmapIgnoresSyllabus | app/api/gemini/generate-content/route.ts:224-281 | the roadmap prompt is the same whatever syllabus is given |
| ContentPrompts.PromptIsRendered | app/api/gemini/generate-content/route.ts:510 | a known kind's prompt is its template rendered with the request's values |
| ContentPrompts.RoadmapSlots | app/api/gemini/generate-content/route.ts:224-281 | the roadmap template depends only on the topic and subject |
| ContentPrompts.QuizPromptContents | app/api/gemini/generate-content/route.ts:446-507 | the quiz prompt states the requested count, the configured count and the type instruction |
| ContentPrompts.QuizSlots | app/api/gemini/generate-content/route.ts:446-507 | the quiz template shows the count, the configuration block and the type instruction |
| ContentPrompts.QuizPromptWithoutConfig | app/api/gemini/generate-content/route.ts:446-507 | without a test configuration the quiz asks for 15 questions and has no configuration or type block |
| ContentFallback.FallbackValues | app/api/gemini/generate-content/route.ts:513-519 | the canned material uses the topic and the subject as given, missing ones as `undefined` |
| ContentFallback.Deck | app/api/gemini/generate-content/route.ts:816 | the canned deck has 25 cards |
| ContentFallback.QuizLength | app/api/gemini/generate-content/route.ts:918 | the canned quiz has the given count if positive, 15 if missing or zero, and is empty for a negative count |
| ContentFallback.QuizTypes | app/api/gemini/generate-content/route.ts:919 | the rotation of question types is never empty |
| ContentFallback.McqItem | app/api/gemini/generate-content/route.ts:922-961 | a multiple-choice item has four options, one of which is the correct answer |
| ContentFallback.ShortItem | app/api/gemini/generate-content/route.ts:962-987 | a short or long item has no options and keeps its type |
| ContentFallback.Quiz | app/api/gemini/generate-content/route.ts:918-989 | the canned quiz has `QuizLength` items |
| ContentFallback.FallbackShape | app/api/gemini/generate-content/route.ts:991-994 | the material is a deck exactly for flashcards, a quiz exactly for quiz, and a document otherwise |
| ContentFallback.DocumentNamesTopicAndSubject | app/api/gemini/generate-content/route.ts:520-993 | every canned document contains the topic and the subject |
| ContentFallback.DocumentTemplate | app/api/gemini/generate-content/route.ts:520-993 | every document template has a slot for the topic and one for the subject |
| ContentFallback.UnknownKindGetsGenericText | app/api/gemini/generate-content/route.ts:991-994 | any other kind gets the one-sentence generic text |
| ContentFallback.DeckRotates | app/api/gemini/generate-content/route.ts:816-847 | the deck has 25 cards, card i equals card i + 10, and every question names the topic |
| ContentFallback.QuestionsNameTopic | app/api/gemini/generate-content/route.ts:817-830 | every card question template mentions the topic |
| ContentFallback.QuizRotates | app/api/gemini/generate-content/route.ts:918-989 | item i has type `["mcq","short","long"][i % 3]` for "mixed" and the given type (default "mcq") otherwise; multiple-choice items have four options with the answer among them; other items are the short template |
| ContentRoute.ExtractArray | app/api/gemini/generate-content/route.ts:128-140 | the array is used exactly when the bracket regex matches and the match parses |
| ContentRoute.Recover | app/api/gemini/generate-content/route.ts:179-213 | the outer `catch` always answers with fallback material |
| ContentRoute.Post | app/api/gemini/generate-content/route.ts:93-214 | the handler yields exactly the response and backend trace of the handler function |
| ContentRoute.OnlyUnknownKindIsRejected | app/api/gemini/generate-content/route.ts:118-121 | the 400 answer comes exactly for a readable body, a configured key, no throwing test configuration and a kind outside the table |
| ContentRoute.NoKeysFallbackBeforeValidation | app/api/gemini/generate-content/route.ts:105-116 | with no key configured nothing is called and the fallback is returned before the kind is checked, so an unknown kind gets the generic text |
| ContentRoute.LiveContent | app/api/gemini/generate-content/route.ts:124-147 | a live answer for flashcards or quiz is the parsed bracket match or the fallback; for other kinds it is the text unchanged |
| ContentRoute.Respond | app/api/gemini/generate-content/route.ts:123-177 | the `try` block after the engine call builds exactly the answer of the handler function: the parsed array, the fallback or the text, or the fallback with the error message |
| ContentRoute.ParsedArrayIsGreedy | app/api/gemini/generate-content/route.ts:129-132 | the parsed array runs from the first `[` to the last `]` |
| ContentRoute.ApiErrorMessages | app/api/gemini/generate-content/route.ts:148-177 | exhausted keys give the overloaded message; running out of keys gives the unavailable message |
| ContentRoute.CallBudget | app/api/gemini/generate-content/route.ts:124 | a request makes at most 15 backend calls and sleeps at most twice |
| SyllabusOutline.LeadingDigits | app/api/gemini/analyze-syllabus/route.ts:415 | the leading run of digits is maximal |
| SyllabusOutline.LeadingLower | app/api/gemini/analyze-syllabus/route.ts:417 | the leading run of lower-case letters is maximal |
| SyllabusOutline.DropColon | app/api/gemini/analyze-syllabus/route.ts:427 | at most one trailing colon is removed |
| SyllabusOutline.StripNumber | app/api/gemini/analyze-syllabus/route.ts:427 | a numbered line loses exactly its leading digits, dot and whitespace; any other line is unchanged |
| SyllabusOutline.HeadingName | app/api/gemini/analyze-syllabus/route.ts:427 | a topic name is the de-numbered line without a trailing colon |
| SyllabusOutline.BulletName | app/api/gemini/analyze-syllabus/route.ts:436 | a subtopic loses exactly its leading dash or bullet and the whitespace after it; any other line is unchanged |
| SyllabusOutline.NonBlank | app/api/gemini/analyze-syllabus/route.ts:401 | the kept lines are not blank after trimming |
| SyllabusOutline.FirstSix | app/api/gemini/analyze-syllabus/route.ts:455 | the result is the first `min(6, n)` topics |
| SyllabusOutline.ExtractTopicsFromSyllabus | app/api/gemini/analyze-syllabus/route.ts:395-456 | the loop over lines yields exactly the fold of the per-line step, cut to six topics |
| SyllabusOutline.ReadLine | app/api/gemini/analyze-syllabus/route.ts:408-443 | one pass of the loop body updates the open topic and both counters exactly as the per-line step does |
| SyllabusOutline.CountTopics | app/api/gemini/analyze-syllabus/route.ts:213-222 | the loop counts each topic and its direct children |
| SyllabusOutline.CountIsNodeCount | app/api/gemini/analyze-syllabus/route.ts:213-222 | the count is the number of ids in the outline |
| SyllabusOutline.TopicCountAppend | app/api/gemini/analyze-syllabus/route.ts:213-222 | the count of two outlines put together is the sum of their counts |
| SyllabusOutline.StepConsistent | app/api/gemini/analyze-syllabus/route.ts:411-442 | one line keeps the counters in step with the topics and keeps every id numbered by position |
| SyllabusOutline.FoldConsistent | app/api/gemini/analyze-syllabus/route.ts:410-447 | the whole loop keeps that invariant |
| SyllabusOutline.FoldNames | app/api/gemini/analyze-syllabus/route.ts:414-432 | the topic names are the heading lines in order |
| SyllabusOutline.StepNames | app/api/gemini/analyze-syllabus/route.ts:414-432 | one line adds its heading name, if it is a heading |
| SyllabusOutline.FoldChildren | app/api/gemini/analyze-syllabus/route.ts:433-441 | the subtopic names are the long non-heading lines after the first heading, in order |
| SyllabusOutline.StepChildren | app/api/gemini/analyze-syllabus/route.ts:433-441 | one line adds its subtopic name if a topic is open, and leaves a topic open after the first heading |
| SyllabusOutline.ExtractedTopics | app/api/gemini/analyze-syllabus/route.ts:395-456 | a long enough syllabus yields the first six folded topics; their names are its heading lines, all their subtopics together are its long lines after a heading, and topic by topic the subtopics are the lines up to the next heading |
| SyllabusOutline.FoldGroups | app/api/gemini/analyze-syllabus/route.ts:407-447 | the loop hangs each subtopic line under the topic opened by the last heading line before it: the open topic gets the lines up to the next heading, and each later heading the lines up to the one after it |
| SyllabusOutline.ExtractedGrouping | app/api/gemini/analyze-syllabus/route.ts:395-456 | the k-th topic returned is named by the k-th heading line, and its subtopics are the bullet-stripped lines longer than ten characters between that heading line and the next heading line (or the end) |
| SyllabusOutline.NoTopicsWithoutHeadings | app/api/gemini/analyze-syllabus/route.ts:396-398 | a missing, short or heading-free syllabus yields no topics |
| SyllabusOutline.ExtractedNumbering | app/api/gemini/analyze-syllabus/route.ts:425-441 | at most six topics; topic k is `topic<k>` and its j-th subtopic is `topic<k>-<j>`, none completed |
| SyllabusOutline.TopicIdInjective | app/api/gemini/analyze-syllabus/route.ts:426 | different topic numbers give different ids |
| SyllabusOutline.SubtopicIdInjective | app/api/gemini/analyze-syllabus/route.ts:435 | different subtopic numbers give different ids |
| SyllabusOutline.TopicIdIsNotSubtopicId | app/api/gemini/analyze-syllabus/route.ts:426-435 | no topic id is a subtopic id |
| SyllabusOutline.NumberedIdsDistinct | app/api/gemini/analyze-syllabus/route.ts:425-441 | in a numbered outline every id names one node |
| SyllabusExample.SampleExtraction | app/api/gemini/analyze-syllabus/route.ts:395-456 | worked example: an ALGEBRA / GEOMETRY syllabus with two sentences under each yields topic1 and topic2 with subtopics `topic1-1` to `topic2-2` (an illustration of `SyllabusOutline.ExtractedGrouping` on one input) |
| SyllabusExample.TwoSections | app/api/gemini/analyze-syllabus/route.ts:395-456 | any two headings, each followed by two subtopic lines, yield two numbered topics with two numbered subtopics each |
| MindMapFallback.Section | app/api/gemini/analyze-syllabus/route.ts:237-283 | a fixed section has open children numbered `<id>-1`, `<id>-2`, … |
| MindMapFallback.Build | app/api/gemini/analyze-syllabus/route.ts:237-392 | a fixed outline has one section per entry, in order |
| MindMapFallback.FallbackMindMap | app/api/gemini/analyze-syllabus/route.ts:224-393 | there is a fallback outline exactly when the syllabus is present |
| MindMapFallback.SectionedIdsAreUnique | app/api/gemini/analyze-syllabus/route.ts:237-392 | dash-free distinct section ids with numbered children give ids that each name one node |
| MindMapFallback.TemplatesWellFormed | app/api/gemini/analyze-syllabus/route.ts:237-392 | the three fixed outlines have no completed node and no repeated id |
| MindMapFallback.FallbackWellFormed | app/api/gemini/analyze-syllabus/route.ts:224-393 | every fallback outline has one to six topics, none completed, and no repeated id |
| MindMapFallback.TemplateSizes | app/api/gemini/analyze-syllabus/route.ts:237-392 | the mathematics, programming and generic outlines have 19, 19 and 24 nodes |
| MindMapFallback.ExtractedTopicsWin | app/api/gemini/analyze-syllabus/route.ts:229-233 | a syllabus with a heading gets its extracted topics, the first named by its first heading |
| MindMapFallback.KeywordChoosesOutline | app/api/gemini/analyze-syllabus/route.ts:236-289 | with nothing extracted, a mathematics keyword in any case chooses the mathematics outline, and a programming keyword without one chooses the programming outline |
| MindMapFallback.NoKeywordGetsGeneric | app/api/gemini/analyze-syllabus/route.ts:336-337 | with nothing extracted and no keyword, the generic outline is used |
| MindMapFallback.EmptySyllabusGetsGeneric | app/api/gemini/analyze-syllabus/route.ts:336-337 | the empty syllabus gets the generic outline |
| SyllabusRoute.FallbackAnswer | app/api/gemini/analyze-syllabus/route.ts:166-172 | a fallback answer is flagged and carries its message |
| SyllabusRoute.Recover | app/api/gemini/analyze-syllabus/route.ts:185-209 | the outer `catch` always answers with a fallback outline |
| SyllabusRoute.Fallback | app/api/gemini/analyze-syllabus/route.ts:91-97 | building the fallback answer with the counting loop gives the fallback answer, or the outer `catch` when the outline throws |
| SyllabusRoute.Post | app/api/gemini/analyze-syllabus/route.ts:84-211 | the handler yields exactly the response and backend trace of the handler function |
| SyllabusRoute.AnswerIsCounted | app/api/gemini/analyze-syllabus/route.ts:158 | `totalTopics` is the node count of the outline sent, and every fallback outline has one to six topics, none completed, with no repeated id |
| SyllabusRoute.AnswerWellCounted | app/api/gemini/analyze-syllabus/route.ts:146-173 | once the engine has answered, the response counts the nodes of the outline it sends, and a fallback outline is well formed |
| SyllabusRoute.LiveExactlyWhenParsed | app/api/gemini/analyze-syllabus/route.ts:146-159 | the answer is live exactly when a key is configured, the engine returns and an object with a `mindMap` array parses; the live answer is that array without a message |
| SyllabusRoute.LiveOutlineFromObject | app/api/gemini/analyze-syllabus/route.ts:148-153 | the live outline is the parse of the first-`{`-to-last-`}` substring |
| SyllabusRoute.NoKeysNoCalls | app/api/gemini/analyze-syllabus/route.ts:89-98 | with no key configured nothing is called and the fallback outline comes with the no-key message |
| SyllabusRoute.MissingSyllabusRecovers | app/api/gemini/analyze-syllabus/route.ts:224-226 | a missing syllabus makes every fallback come from the outer `catch` |
| SyllabusRoute.LastResort | app/api/gemini/analyze-syllabus/route.ts:199-208 | when both body reads fail, the answer is the generic outline with 24 nodes and the basic message |
| SyllabusRoute.ErrorMessages | app/api/gemini/analyze-syllabus/route.ts:160-183 | only the exhausted error gets the quota message; no keys, no JSON and a missing `mindMap` get the unavailable message |
| SyllabusRoute.ExhaustedGetsQuotaMessage | app/api/gemini/analyze-syllabus/route.ts:164-173 | when both keys are exhausted, the fallback outline comes with the quota message |
| SyllabusRoute.CallBudget | app/api/gemini/analyze-syllabus/route.ts:146 | a request makes at most six backend calls and sleeps at most twice |

## Left out

- The generative-AI SDK, model options and the `process.env` lookups are
  replaced by the `configured` flags and the `backend` oracle. Retries are
  counted as `Sleep` events rather than waited for. Console logging is
  omitted.
- HTTP is omitted: `NextRequest`, `NextResponse.json`, status codes other
  than the 400 for an unknown kind, and the `success: true` member present
  on every answer.
- `JSON.parse` is an oracle (`parses`, `parse`). The parsed value of a
  flashcards or quiz reply is kept as its source text (`ParsedJson`), not as
  a JSON tree.
- The two bodies read by `request.json()` are independent inputs. The model
  does not capture that a consumed body makes the second read throw.
- A thrown error is modelled by its message (the `Err` case of `KeyFailover.Reply`), and one
  without a `message` as `Err("")`. A thrown non-object (`undefined` or `null`) is not modelled: reading
  its `message` for the log line would itself throw inside the `catch` and skip the quota,
  retry and next-key logic.
- Whitespace, letter case and the three heading regexes are modelled for
  ASCII only. String lengths count characters, not UTF-16 code units.
- `countTopics` is modelled on well-formed outlines only. The deeper JSON
  shapes a live reply may hold are not modelled: non-array `children`, or
  extra members.
- A request member given as a non-string JSON value is not modelled. For
  example, a number for `contentType` or `syllabus` (the model's fields are
  strings or missing). Keys inherited from `Object.prototype`, such as
  `"toString"`, are not modelled as content kinds.
- ContentFallback.QuizLength: a count so large that `Array.from` throws is
  not modelled, because integers here are unbounded.
- The canned documents and prompt templates keep every interpolation slot
  and their structure. Their long prose is abbreviated in the string
  constants.
- The analyze-syllabus prompt text (lines 101-141) is not modelled. The
  backend oracle does not depend on the prompt, so the text changes nothing
  the model observes.
- The `syllabus` parameter of `getFallbackContent` and the `subjectName`
  parameters of `generateFallbackMindMap` and `extractTopicsFromSyllabus`
  are never read by the source, so the model omits them.
- A negative `questionCount` gives an empty canned quiz (`QuizLength` is 0).
  The client keeps the count positive, but the route does not.
- The feedback route, the other API routes and the user interface are not
  part of this model.
