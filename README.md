# Complaint intake: a Dafny model

This project models the core of a voice-driven civil-complaint kiosk for
senior citizens. The screen component (`frontend/src/App.js`) leads the
caller through six stages:

1. the caller states a problem, and a keyword classifier picks its category and the responsible agency;
2. the caller confirms the category;
3. the caller gives details, which are summarised;
4. the caller confirms the summary;
5. the caller answers whether an on-site visit is needed, which selects a guidance text;
6. the caller confirms the hand-off, and the complaint record is sent to the store.

The backend (`backend/server.js`) stores complaints and lists them. The
listing builds a parameterised SQL statement from optional filters.

The modules are:

- `Text`: the JavaScript string built-ins the code relies on: `trim`, `split(' ')`, `join(' ')`, `includes`, and the decimal rendering of an integer in a template literal.
- `Classifier`: the pure helpers `analyzeComplaint`, `getAgency`, the `guidanceLibrary` lookup and `generateSummary`.
- `Dialogue`: the dialogue as a pure transition system over a `Session` value. It holds:
  - one function per handler;
  - the record invariant `Consistent`;
  - lemmas about single handlers, about runs of events and about a complete pass.
- `Intake`: the class `Controller`. Its fields are the component's state (`flowStage`, `conversationData`, `chatHistory`, `manualInput`) plus a ghost log of submitted records. Each handler method assigns the fields step by step and is proved to produce the state its `Dialogue` function gives, keeping `Consistent`.
- `ListQuery`: the list-query builder of `GET /api/complaints` as a method over local `query`, `params` and `paramIndex`, proved against a specification of the statement and its parameters. Also the status default of `POST /api/complaints`.

Every speech, timer or recording continuation that a handler schedules is
taken to run at once. The exception is the start of a new recording: the
next transcription simply arrives as the next text input. React state
setters are modelled as sequential field assignments.

## Model

| member | source | states |
|---|---|---|
| Text.Trim | frontend/src/App.js:215 | the result is a slice of the input, everything cut off on either side is JavaScript whitespace, and the result neither starts nor ends with whitespace |
| Text.TrimEmptyIff | frontend/src/App.js:216 | trimming yields the empty string exactly when the input is all whitespace |
| Text.TrimIdempotent | frontend/src/App.js:386 | trimming an already-trimmed text changes nothing |
| Text.SplitLength | frontend/src/App.js:435 | `split(' ')` yields one piece more than the text has spaces |
| Text.JoinSplit | frontend/src/App.js:435-436 | joining the pieces of a split with single spaces gives back the text |
| Text.SplitJoin | frontend/src/App.js:435-436 | splitting a join of space-free pieces gives back the pieces |
| Text.SplitAroundSpace | frontend/src/App.js:434-435 | the pieces of `x + " " + y` are the pieces of `x` followed by those of `y` |
| Text.JoinPrefix | frontend/src/App.js:436 | the join of a list is the join of its first `n` pieces, a space, then the join of the rest |
| Text.NatToString | backend/server.js:88 | the rendering of a placeholder number is a non-empty digit string with no leading zero |
| Text.ParseNatToString | backend/server.js:88 | reading the rendered digits back gives the number, so the rendering is injective |
| Classifier.Classify | frontend/src/App.js:400-416 | the result is one of the seven categories; it is `기타` exactly when no row's keyword occurs in the text; otherwise it is the name of a matching row with no earlier matching row |
| Classifier.AnalyzeComplaint | frontend/src/App.js:400-416 | the first-match scan with early return computes `Classify` |
| Classifier.FirstMatchingRowWins | frontend/src/App.js:410-414 | a text matching row `i` and no earlier row is classified as row `i`, whatever later rows it matches |
| Classifier.SimulatedTranscriptIsFacility | frontend/src/App.js:200 | the hard-coded transcription is classified as `시설` |
| Classifier.FacilityBeatsHealth | frontend/src/App.js:402-405 | a text naming both a facility and a health keyword is classified as the earlier-declared `시설` |
| Classifier.GetAgency | frontend/src/App.js:419-430 | a known category gets its agency from the table, any other string gets `민원봉사과`; the result is never empty |
| Classifier.GuidanceFor | frontend/src/App.js:294-295 | the guidance is the category's library entry, or the `기타` entry when the category has none; it is that entry's visit text when a visit is required and its documents text otherwise, and never empty |
| Classifier.GuidanceDeterminesVisit | frontend/src/App.js:13-56 | the visit and documents texts differ for every category, so the guidance determines the visit answer; an unknown category gets the `기타` texts |
| Classifier.ClassifiedCategoryIsKnown | frontend/src/App.js:294-430 | every classifier output has its own row in the agency table and in the guidance library, so neither fallback is taken for it |
| Classifier.Combine | frontend/src/App.js:434 | the pieces of the combined text are those of `mainText`, followed by those of `additionalText` when that is non-empty |
| Classifier.GenerateSummary | frontend/src/App.js:433-438 | the summary starts with `category + " 관련하여 "`; a `...` marker is appended exactly when the text has more than 20 pieces; what lies between the prefix and the marker splits into the first (at most 20) pieces |
| Classifier.ShortSummaryKeepsText | frontend/src/App.js:434-437 | a text of at most 20 pieces is kept verbatim after the prefix, with no ellipsis; with empty `additionalText` that text is `mainText` |
| Classifier.LongSummaryTruncates | frontend/src/App.js:435-437 | a longer text is cut just before its 20th space: the body is a prefix of the text followed by a space there, and holds exactly 20 pieces and 19 spaces |
| Dialogue.StartIsConsistent | frontend/src/App.js:60-75 | the freshly mounted state (first stage, empty record, empty history) satisfies the record invariant |
| Dialogue.AfterReset | frontend/src/App.js:375-382 | reset gives the first stage, the empty record, an empty history and an empty input box, keeps the submission log, and preserves the invariant |
| Dialogue.ResetIdempotent | frontend/src/App.js:375-382 | resetting twice is resetting once |
| Dialogue.AfterText | frontend/src/App.js:214-218 | whitespace-only text changes nothing; any other text is handled trimmed; the invariant is preserved |
| Dialogue.Respond | frontend/src/App.js:219-256 | the text is logged as a user line. In the category stage it sets the category, its agency and the full text together, keeps the rest of the record, and moves to category confirmation. In the detail stage it appends to the full text (or starts it), regenerates the summary from all of it, keeps category and agency, and moves to summary confirmation. In any other stage only the history grows. The invariant is preserved. |
| Dialogue.RespondAtCategory | frontend/src/App.js:223-236 | the category stage appends the user line and the confirmation prompt, sets category, agency and full text, and keeps the rest of the record, the input box and the log |
| Dialogue.RespondAtDetail | frontend/src/App.js:239-253 | the detail stage appends the user line and the summary prompt, sets the new full text and its summary, and leaves the rest of the state as it was |
| Dialogue.AfterChoice | frontend/src/App.js:260-326 | category confirmation logs the answer and the matching prompt, then goes to details on yes, and back to the first stage with the empty record on no. Summary confirmation goes to the visit question on yes, and back to details with the record kept on no. The visit answer records the answer and its guidance together. At hand-off: a record is appended to the log on yes only, and either answer resets. In the category and detail stages only the history grows. The invariant is preserved. |
| Dialogue.ChoiceAtCategory | frontend/src/App.js:265-277 | category confirmation logs the answer and its prompt; yes moves to details and keeps the record, no returns to the first stage with the empty record; nothing else changes |
| Dialogue.HandoffKeepsLogWellFormed | frontend/src/App.js:307-342 | the record handed over from a consistent hand-off stage is well formed, so the whole log stays well formed |
| Dialogue.ChoiceAtSummary | frontend/src/App.js:279-289 | summary confirmation changes only the stage and the history, by the user line and the matching prompt |
| Dialogue.ChoiceAtField | frontend/src/App.js:292-304 | the visit answer sets the answer and its guidance text, moves to hand-off, and logs the answer and the hand-off prompt |
| Dialogue.AfterEdit | frontend/src/App.js:626 | editing the input box changes only the box and preserves the invariant |
| Dialogue.AfterManualSubmit | frontend/src/App.js:384-392 | typed submission never changes the submission log and preserves the invariant |
| Dialogue.ManualSubmitIgnoresBlank | frontend/src/App.js:386-390 | typed input is ignored exactly when it is blank; otherwise the box ends up cleared |
| Dialogue.ManualSubmitIsText | frontend/src/App.js:384-392 | submitting typed text equals clearing the box and then handling the text as spoken, since the second trim changes nothing |
| Dialogue.RejectedSummaryKeepsText | frontend/src/App.js:240-287 | after a rejected summary, the next detail is appended to the kept full text and the summary is regenerated from all of it |
| Dialogue.Step | frontend/src/App.js:214-392 | no event shrinks or rewrites the submission log, and every event preserves the invariant |
| Dialogue.RunKeepsConsistent | frontend/src/App.js:329-342 | in every state reachable from a consistent one, the invariant holds, so every record ever handed over is well formed (status `접수완료`, known category and its agency, summary of the full text, guidance of the visit answer, the two-line chat log) |
| Dialogue.StepProgress | frontend/src/App.js:260-326 | one event advances a pass by at most one stage, and a hand-off returns to the first stage |
| Dialogue.TextProgress | frontend/src/App.js:214-257 | text never hands anything over and advances by at most one stage |
| Dialogue.RespondProgress | frontend/src/App.js:223-256 | handled text advances by at most one stage |
| Dialogue.ChoiceProgress | frontend/src/App.js:260-326 | a press advances by at most one stage; the press that hands a record over comes from the last stage and returns to the first |
| Dialogue.SubmissionsNeedFullPasses | frontend/src/App.js:307-325 | every hand-off needs its own complete pass of six inputs, so a run of `n` events hands over at most `n / 6` records |
| Dialogue.RunOnlyAppendsSubmissions | frontend/src/App.js:309 | the submission log only grows, by appending |
| Dialogue.RunSteps | frontend/src/App.js:214-326 | a run of six events is the six steps, in order |
| Dialogue.CompletePass | frontend/src/App.js:214-342 | a complete pass ends at the first stage with an empty history. Confirmed, it hands over exactly one record: the classified category and its agency, the two texts joined by a space, their summary, the visit answer with its guidance, the fixed status and the two-line chat log. Declined, it hands over nothing. |
| Dialogue.PassToFieldQuestion | frontend/src/App.js:223-283 | the first four inputs of a pass reach the visit question with the record filled in from both texts |
| Dialogue.PassToDetail | frontend/src/App.js:223-269 | the category text and its confirmation reach the detail stage with the category, its agency and the text recorded |
| Dialogue.DetailToFieldQuestion | frontend/src/App.js:239-283 | the detail text and the confirmation of its summary reach the visit question with the joined text and its summary recorded |
| Dialogue.PassFromFieldQuestion | frontend/src/App.js:292-325 | the visit answer and the final press reset the conversation and, on yes, hand over the record with the visit answer and its guidance |
| Dialogue.SpokenCategory | frontend/src/App.js:223-236 | the category text is classified and the record filled in |
| Dialogue.SpokenDetail | frontend/src/App.js:239-253 | the detail text is appended to the category text and summarised |
| Intake.Controller.constructor | frontend/src/App.js:60-75 | the new screen is in the start state and satisfies the invariant |
| Intake.Controller.SpeakAndDisplay | frontend/src/App.js:102-106 | the prompt is appended to the history as an assistant line, and nothing else changes |
| Intake.Controller.SaveComplaint | frontend/src/App.js:329-342 | the record built from the conversation (fixed status, two-line chat log) is appended to the log, and nothing else changes |
| Intake.Controller.Reset | frontend/src/App.js:375-382 | the new state is `AfterReset` of the old, and the invariant holds |
| Intake.Controller.OnText | frontend/src/App.js:214-218 | the new state is `AfterText` of the old, and the invariant holds |
| Intake.Controller.RespondTo | frontend/src/App.js:219-256 | the new state is `Respond` of the old, and the invariant holds |
| Intake.Controller.ClassifyInput | frontend/src/App.js:223-236 | the category stage, with the classifier scan, yields `Respond` of the old state |
| Intake.Controller.AddDetail | frontend/src/App.js:239-253 | the detail stage yields `Respond` of the old state |
| Intake.Controller.OnChoice | frontend/src/App.js:260-326 | the new state is `AfterChoice` of the old, and the invariant holds |
| Intake.Controller.ConfirmCategory | frontend/src/App.js:265-277 | category confirmation yields `AfterChoice` of the old state |
| Intake.Controller.ConfirmSummary | frontend/src/App.js:279-290 | summary confirmation yields `AfterChoice` of the old state |
| Intake.Controller.AnswerVisit | frontend/src/App.js:292-305 | the visit answer yields `AfterChoice` of the old state |
| Intake.Controller.ConfirmHandoff | frontend/src/App.js:307-325 | the hand-off, with its save on yes and its reset, yields `AfterChoice` of the old state |
| Intake.Controller.EditManualInput | frontend/src/App.js:626 | the new state is `AfterEdit` of the old |
| Intake.Controller.ManualSubmit | frontend/src/App.js:384-392 | the new state is `AfterManualSubmit` of the old, and the invariant holds |
| ListQuery.FilterOf | backend/server.js:87-109 | a field gives one filter, carrying its value, exactly when its value is truthy, and none otherwise |
| ListQuery.FieldAt | backend/server.js:87-109 | the `i`-th block of the builder handles the field of rank `i` |
| ListQuery.ActiveFiltersSound | backend/server.js:87-109 | every filter applied has a truthy value in the request and carries that value |
| ListQuery.ActiveFiltersOrdered | backend/server.js:87-109 | filters come in the fixed order category, status, start date, end date, each at most once |
| ListQuery.ActiveFiltersComplete | backend/server.js:87-109 | a field is filtered on exactly when its value is truthy |
| ListQuery.ClauseSpells | backend/server.js:88-106 | the clause of a field is ` AND `, its column, its operator (`=` for category and status, `>=` for the start date, `<=` for the end date) and its placeholder |
| ListQuery.BuildListQuery | backend/server.js:80-112 | the statement is the base query, the clause of each truthy filter numbered from `$1` in clause order, then ordering and paging on the next two numbers; the parameters are the filter values in clause order, then limit (default 100) and offset (default 0) |
| ListQuery.ClausesAppend | backend/server.js:85-109 | numbering the clauses of two filter lists continues the second list where the first ends |
| ListQuery.ClauseAt | backend/server.js:85-109 | the clause at index `k` of a list numbered from `first` uses placeholder `first + k` |
| ListQuery.KthClauseMatchesParam | backend/server.js:85-109 | the `k`-th clause uses placeholder `$k`, and `params[k-1]` is that field's truthy value from the request |
| ListQuery.PagingUsesLastParams | backend/server.js:83-112 | there are two parameters more than filters; the statement starts with the base query and ends with the paging clause on the last two parameter numbers, so the highest placeholder is the parameter count; those parameters are limit and offset |
| ListQuery.PlaceholdersDistinct | backend/server.js:88-111 | distinct parameter numbers give distinct placeholders |
| ListQuery.StoredStatus | backend/server.js:46 | a truthy requested status is stored as given; a missing or empty one is stored as `접수완료` |
| ListQuery.StoredStatusStable | backend/server.js:46 | a stored status is never empty, and storing it again keeps it |

## Left out

- Microphone capture (`startRecording`, `stopRecording`, the 30-second auto-stop): browser I/O and timers. The next transcription arrives as the next `OnText` call.
- Transcription (`processAudio`): the simulated recogniser is an opaque source of text. Its fixed output is covered only by `Classifier.SimulatedTranscriptIsFacility`.
- Speech synthesis, the screen names and the display delays in `speakAndDisplay` and `speak`: foreign browser calls and pacing. Only the history line is modelled.
- The network request and the local-storage backup in `saveComplaint`: only the record it builds is modelled, as an append to the ghost `submitted` log.
- Rendering, the debug panel, the debug log with its wall-clock timestamps and `currentQuestion`: presentation only.
- `handleClearLogs`: this debug-panel button also empties the chat history. It is not among the modelled events, so no run in the model clears `history` except a reset. No proved property depends on the history being kept.
- The `screen` state (home, listening, processing, response, choice, thank-you) and which controls each screen shows: not modelled. The model therefore accepts every event in every stage, which is more than the screen offers; for example, the yes/no buttons appear only on the choice screen. The proved invariants hold for this larger set of runs, so they also hold for the runs the screen allows.
- React state batching and stale closures: setters are modelled as sequential assignments, and every continuation except a new recording runs at once.
- The thanks and cancellation prompts at hand-off: they are appended to the history and then wiped by the reset that follows at once, so the model goes straight to the reset state.
- The stage set follows the code: the six `FLOW_STAGES`, with yes and no given as a boolean.
- JavaScript object keys inherited through the prototype chain (such as `constructor`) in the agency and guidance lookups: the tables are modelled as plain maps.
- Express routing, the PostgreSQL pool and the execution of the SQL, the statistics endpoints, the chat-log insert loop and the shutdown handler: database and network plumbing.
- `frontend/src/PrintModal.js`: presentational only.
- ListQuery.BuildListQuery: query values are modelled as strings or absent. Arrays and other values a query string parser can give are not modelled. The numeric defaults 100 and 0 are modelled as the strings `"100"` and `"0"` that the database driver sends.
- ListQuery.StoredStatus: only the status default of the create handler is modelled. Its other columns are passed through unchanged.
