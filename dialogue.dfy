/** The complaint-intake dialogue as a pure transition system: the six flow
    stages, the conversation record, the chat history and the log of
    complaints handed to the store. `AfterText`, `AfterChoice`, `AfterReset`
    and `AfterManualSubmit` give the state after each handler of the screen
    component; the `Controller` class in module Intake is proved against
    them. Every continuation a handler schedules through speech or a timer
    (other than the start of a new recording) is taken to run at once. */
module Dialogue {
  import opened Text
  import opened Classifier

  /** `FLOW_STAGES`. */
  datatype Stage =
    | CategorySelection
    | CategoryConfirm
    | DetailCollection
    | SummaryConfirm
    | FieldRequirement
    | HandoffConfirm

  /** The conversation record (`createInitialConversationState`). */
  datatype Conversation = Conversation(
    category: string,
    agency: string,
    summary: string,
    fullText: string,
    requiresVisit: bool,
    guidance: string)

  const InitialConversation: Conversation := Conversation("", "", "", "", false, "")

  datatype Speaker = User | Assistant

  /** One line of the chat history. */
  type Entry = (Speaker, string)

  /** The status every complaint is handed over with. */
  const SubmittedStatus: string := "접수완료"

  /** The record `saveComplaint` sends to the complaint store. */
  datatype Complaint = Complaint(
    category: string,
    agency: string,
    summary: string,
    fullText: string,
    requiresVisit: bool,
    guidance: string,
    status: string,
    chatLogs: seq<Entry>)

  /** The record built from the conversation at hand-off time. */
  function ComplaintOf(d: Conversation): Complaint {
    Complaint(d.category, d.agency, d.summary, d.fullText, d.requiresVisit, d.guidance,
              SubmittedStatus, [(User, d.fullText), (Assistant, d.summary)])
  }

  /** The whole state the handlers read and write. `submitted` is the log of
      records handed to the store. */
  datatype Session = Session(
    stage: Stage,
    data: Conversation,
    history: seq<Entry>,
    manualInput: string,
    submitted: seq<Complaint>)

  /** The state of a freshly mounted screen, with nothing submitted yet. */
  function Start(): Session {
    Session(CategorySelection, InitialConversation, [], "", [])
  }

  // ---------------------------------------------------------------------
  // Prompts the assistant speaks and appends to the history

  function CategoryConfirmPrompt(category: string, agency: string): string {
    "말씀 감사합니다. " + category + " 관련 민원으로 분류되며 " + agency
      + "에서 담당합니다. 맞습니까? 예 또는 아니오로 답해주세요."
  }

  function SummaryConfirmPrompt(summary: string): string {
    "민원 내용을 다음과 같이 정리했습니다: " + summary + "\n이 내용이 맞습니까? 예 또는 아니오로 답해주세요."
  }

  const DetailPrompt: string :=
    "이제 민원 내용을 자세히 말씀해 주세요. 위치, 시간, 어떤 불편을 겪으셨는지 알려주시면 됩니다."

  const CategoryRetryPrompt: string := "어떤 유형의 민원인지 다시 말씀해 주시면 분류해 드릴게요."

  const FieldQuestion: string := "현장 조사나 담당자 방문이 필요한 민원인가요? 예 또는 아니오로 답해주세요."

  const MoreDetailPrompt: string :=
    "추가로 필요한 내용을 더 알려주세요. 시간, 위치, 불편 정도를 말씀해 주시면 다시 요약해 드릴게요."

  function HandoffPrompt(guidance: string): string {
    guidance + "\n\n지금 안내드린 내용으로 민원을 접수하고 담당 부서에 전달할까요? 예 또는 아니오로 답해주세요."
  }

  /** The history text of a button press. */
  function ChoiceLabel(isYes: bool): string {
    if isYes then "예" else "아니오"
  }

  // ---------------------------------------------------------------------
  // The record invariant

  /** What every handed-over record satisfies. */
  predicate WellFormedComplaint(c: Complaint) {
    && c.status == SubmittedStatus
    && c.category in Categories
    && c.agency == GetAgency(c.category)
    && c.fullText != ""
    && c.summary == GenerateSummary(c.fullText, "", c.category)
    && c.guidance == GuidanceFor(c.category, c.requiresVisit)
    && c.chatLogs == [(User, c.fullText), (Assistant, c.summary)]
  }

  /** The invariant tying the record to the stage: the record is empty while
      a category is being asked for; from then on category and agency are a
      classifier output and its agency, set together; the summary is the one
      generated from the full text once the detail stage has completed (and
      empty before it first does); visit answer and guidance are set
      together, only at the hand-off stage; and every record handed over is
      well formed. */
  predicate Consistent(s: Session) {
    RecordFitsStage(s.stage, s.data) && AllWellFormed(s.submitted)
  }

  predicate RecordFitsStage(stage: Stage, d: Conversation) {
    && (stage == CategorySelection ==> d == InitialConversation)
    && (stage != CategorySelection ==>
          d.category in Categories && d.agency == GetAgency(d.category) && d.fullText != "")
    && (stage == CategoryConfirm ==> d.summary == "")
    && (stage == DetailCollection ==>
          d.summary == "" || d.summary == GenerateSummary(d.fullText, "", d.category))
    && (stage in {SummaryConfirm, FieldRequirement, HandoffConfirm} ==>
          d.summary == GenerateSummary(d.fullText, "", d.category))
    && (stage == HandoffConfirm ==> d.guidance == GuidanceFor(d.category, d.requiresVisit))
    && (stage != HandoffConfirm ==> d.guidance == "" && !d.requiresVisit)
  }

  predicate AllWellFormed(log: seq<Complaint>) {
    forall i :: 0 <= i < |log| ==> WellFormedComplaint(log[i])
  }

  lemma StartIsConsistent()
    ensures Consistent(Start())
  {
  }

  // ---------------------------------------------------------------------
  // The handlers

  /** `resetConversation`: back to the first stage with an empty record, an
      empty history and an empty typed input; the submission log is kept. */
  function AfterReset(s: Session): (r: Session)
    ensures r.stage == CategorySelection && r.data == InitialConversation
    ensures r.history == [] && r.manualInput == "" && r.submitted == s.submitted
    ensures Consistent(s) ==> Consistent(r)
  {
    s.(stage := CategorySelection, data := InitialConversation, history := [], manualInput := "")
  }

  /** `analyzeAndRespond` on a transcribed or typed text: blank input
      changes nothing, anything else is handled trimmed. */
  function AfterText(s: Session, text: string): (r: Session)
    ensures AllWhitespace(text) ==> r == s
    ensures !AllWhitespace(text) ==> r == Respond(s, Trim(text))
    ensures Consistent(s) ==> Consistent(r)
  {
    TrimEmptyIff(text);
    var t := Trim(text);
    if t == [] then s else Respond(s, t)
  }

  /** `analyzeAndRespond` past its blank check, on the trimmed text `t`. The
      text is logged as a user line; in the category stage it is classified,
      in the detail stage appended to the full text and summarised; in any
      other stage nothing else happens. */
  function Respond(s: Session, t: string): (r: Session)
    requires t != []
    ensures |r.history| > |s.history| && r.history[..|s.history| + 1] == s.history + [(User, t)]
    ensures r.submitted == s.submitted && r.manualInput == s.manualInput
    ensures s.stage !in {CategorySelection, DetailCollection} ==>
              r == s.(history := s.history + [(User, t)])
    ensures s.stage == CategorySelection ==>
              && r.stage == CategoryConfirm
              && r.data.category == Classify(t)
              && r.data.agency == GetAgency(r.data.category)
              && r.data.fullText == t
    ensures s.stage == DetailCollection ==>
              && r.stage == SummaryConfirm
              && r.data.category == s.data.category && r.data.agency == s.data.agency
              && r.data.fullText == (if s.data.fullText == "" then t else s.data.fullText + " " + t)
              && r.data.summary == GenerateSummary(r.data.fullText, "", r.data.category)
              && r.data.requiresVisit == s.data.requiresVisit && r.data.guidance == s.data.guidance
    ensures Consistent(s) ==> Consistent(r)
  {
    var h := s.history + [(User, t)];
    match s.stage
    case CategorySelection =>
      var category := Classify(t);
      var agency := GetAgency(category);
      s.(stage := CategoryConfirm,
         data := s.data.(category := category, agency := agency, fullText := t),
         history := h + [(Assistant, CategoryConfirmPrompt(category, agency))])
    case DetailCollection =>
      var full := if s.data.fullText != "" then s.data.fullText + " " + t else t;
      var summary := GenerateSummary(full, "", s.data.category);
      s.(stage := SummaryConfirm,
         data := s.data.(fullText := full, summary := summary),
         history := h + [(Assistant, SummaryConfirmPrompt(summary))])
    case _ =>
      s.(history := h)
  }

  /** `handleChoice`: a yes/no press. It is logged as a user line; then the
      category is accepted or discarded, the summary accepted or sent back for
      more detail, the visit answer and its guidance recorded, or, at the
      hand-off stage, the complaint handed over (on yes only) and the
      conversation reset (on either answer). */
  function AfterChoice(s: Session, isYes: bool): (r: Session)
    ensures r.submitted == if s.stage == HandoffConfirm && isYes
                           then s.submitted + [ComplaintOf(s.data)] else s.submitted
    ensures s.stage in {CategorySelection, DetailCollection} ==>
              r == s.(history := s.history + [(User, ChoiceLabel(isYes))])
    ensures s.stage == CategoryConfirm ==>
              if isYes then r.stage == DetailCollection && r.data == s.data
              else r.stage == CategorySelection && r.data == InitialConversation
    ensures s.stage == SummaryConfirm ==>
              r.data == s.data && r.stage == (if isYes then FieldRequirement else DetailCollection)
    ensures s.stage == FieldRequirement ==>
              && r.stage == HandoffConfirm
              && r.data == s.data.(requiresVisit := isYes, guidance := GuidanceFor(s.data.category, isYes))
    ensures s.stage == HandoffConfirm ==> r == AfterReset(s).(submitted := r.submitted)
    ensures Consistent(s) ==> Consistent(r)
  {
    var h := s.history + [(User, ChoiceLabel(isYes))];
    match s.stage
    case CategoryConfirm =>
      if isYes then
        s.(stage := DetailCollection, history := h + [(Assistant, DetailPrompt)])
      else
        s.(stage := CategorySelection, data := InitialConversation,
           history := h + [(Assistant, CategoryRetryPrompt)])
    case SummaryConfirm =>
      if isYes then
        s.(stage := FieldRequirement, history := h + [(Assistant, FieldQuestion)])
      else
        s.(stage := DetailCollection, history := h + [(Assistant, MoreDetailPrompt)])
    case FieldRequirement =>
      var guide := GuidanceFor(s.data.category, isYes);
      s.(stage := HandoffConfirm,
         data := s.data.(requiresVisit := isYes, guidance := guide),
         history := h + [(Assistant, HandoffPrompt(guide))])
    case HandoffConfirm =>
      var submitted := if isYes then s.submitted + [ComplaintOf(s.data)] else s.submitted;
      HandoffKeepsLogWellFormed(s, submitted);
      AfterReset(s).(submitted := submitted)
    case _ =>
      s.(history := h)
  }

  /** A record handed over from a consistent hand-off stage is well formed. */
  lemma HandoffKeepsLogWellFormed(s: Session, submitted: seq<Complaint>)
    requires s.stage == HandoffConfirm
    requires submitted == s.submitted || submitted == s.submitted + [ComplaintOf(s.data)]
    ensures Consistent(s) ==> AllWellFormed(submitted)
  {
    if Consistent(s) && submitted != s.submitted {
      var c := ComplaintOf(s.data);
      assert WellFormedComplaint(c);
      forall i | 0 <= i < |submitted| ensures WellFormedComplaint(submitted[i]) {
        if i < |s.submitted| { assert submitted[i] == s.submitted[i]; } else { assert submitted[i] == c; }
      }
    }
  }

  /** The typed-input box's `onChange`. */
  function AfterEdit(s: Session, text: string): (r: Session)
    ensures r.manualInput == text && r == s.(manualInput := text)
    ensures Consistent(s) ==> Consistent(r)
  {
    s.(manualInput := text)
  }

  /** `handleManualSubmit`: blank typed input is ignored; otherwise the box
      is cleared and the trimmed text is handled as spoken text. */
  function AfterManualSubmit(s: Session): (r: Session)
    ensures r.submitted == s.submitted
    ensures Consistent(s) ==> Consistent(r)
  {
    var t := Trim(s.manualInput);
    if t == [] then s
    else
      TrimEmptyIff(t);
      AfterText(s.(manualInput := ""), t)
  }

  /** Typed input is ignored exactly when it is blank; otherwise the box ends
      up cleared. */
  lemma ManualSubmitIgnoresBlank(s: Session)
    ensures AfterManualSubmit(s) == s <==> AllWhitespace(s.manualInput)
    ensures !AllWhitespace(s.manualInput) ==> AfterManualSubmit(s).manualInput == ""
  {
    TrimEmptyIff(s.manualInput);
    var t := Trim(s.manualInput);
    if t != [] {
      TrimEmptyIff(t);
      var r := AfterText(s.(manualInput := ""), t);
      assert r == Respond(s.(manualInput := ""), Trim(t));
      assert r.manualInput == "";
      assert s.manualInput != "";
    }
  }

  /** The category-confirmation stage of `handleChoice`, unfolded: only the
      stage, the history and (on no) the record change. */
  lemma ChoiceAtCategory(s: Session, isYes: bool)
    requires s.stage == CategoryConfirm
    ensures AfterChoice(s, isYes) ==
            if isYes then s.(stage := DetailCollection,
                             history := s.history + [(User, ChoiceLabel(isYes)), (Assistant, DetailPrompt)])
            else s.(stage := CategorySelection, data := InitialConversation,
                    history := s.history + [(User, ChoiceLabel(isYes)), (Assistant, CategoryRetryPrompt)])
  {
  }

  /** The summary-confirmation stage of `handleChoice`, unfolded. */
  lemma ChoiceAtSummary(s: Session, isYes: bool)
    requires s.stage == SummaryConfirm
    ensures AfterChoice(s, isYes) ==
            if isYes then s.(stage := FieldRequirement,
                             history := s.history + [(User, ChoiceLabel(isYes)), (Assistant, FieldQuestion)])
            else s.(stage := DetailCollection,
                    history := s.history + [(User, ChoiceLabel(isYes)), (Assistant, MoreDetailPrompt)])
  {
  }

  /** The field-requirement stage of `handleChoice`, unfolded. */
  lemma ChoiceAtField(s: Session, isYes: bool)
    requires s.stage == FieldRequirement
    ensures var guide := GuidanceFor(s.data.category, isYes);
            AfterChoice(s, isYes) ==
            s.(stage := HandoffConfirm, data := s.data.(requiresVisit := isYes, guidance := guide),
               history := s.history + [(User, ChoiceLabel(isYes)), (Assistant, HandoffPrompt(guide))])
  {
  }

  /** The category stage of `analyzeAndRespond`, unfolded: the rest of the
      record is kept. */
  lemma RespondAtCategory(s: Session, t: string)
    requires t != [] && s.stage == CategorySelection
    ensures var category := Classify(t);
            var agency := GetAgency(category);
            Respond(s, t) == s.(stage := CategoryConfirm,
                                data := s.data.(category := category, agency := agency, fullText := t),
                                history := s.history + [(User, t), (Assistant, CategoryConfirmPrompt(category, agency))])
  {
  }

  /** The detail stage of `analyzeAndRespond`, unfolded. */
  lemma RespondAtDetail(s: Session, t: string)
    requires t != [] && s.stage == DetailCollection
    ensures var full := if s.data.fullText != "" then s.data.fullText + " " + t else t;
            var summary := GenerateSummary(full, "", s.data.category);
            Respond(s, t) == s.(stage := SummaryConfirm, data := s.data.(fullText := full, summary := summary),
                                history := s.history + [(User, t), (Assistant, SummaryConfirmPrompt(summary))])
  {
    var full := if s.data.fullText != "" then s.data.fullText + " " + t else t;
    var summary := GenerateSummary(full, "", s.data.category);
    AppendTwo(s.history, (User, t), (Assistant, SummaryConfirmPrompt(summary)));
  }

  /** Appending two entries one after the other is appending the pair. */
  lemma AppendTwo(h: seq<Entry>, x: Entry, y: Entry)
    ensures h + [x] + [y] == h + [x, y]
  {
  }

  /** Submitting typed text is the same as speaking it, after the box is
      cleared: the second trim inside `analyzeAndRespond` changes nothing. */
  lemma ManualSubmitIsText(s: Session)
    requires !AllWhitespace(s.manualInput)
    ensures AfterManualSubmit(s) == AfterText(s.(manualInput := ""), s.manualInput)
  {
    TrimIdempotent(s.manualInput);
    TrimEmptyIff(Trim(s.manualInput));
  }

  /** After a rejected summary the next detail text is appended to the full
      text kept in the record, and the summary is regenerated from all of it. */
  lemma RejectedSummaryKeepsText(s: Session, more: string)
    requires s.stage == SummaryConfirm && !AllWhitespace(more)
    ensures
      var r := AfterText(AfterChoice(s, false), more);
      && r.stage == SummaryConfirm
      && r.data.fullText == (if s.data.fullText == "" then Trim(more)
                             else s.data.fullText + " " + Trim(more))
      && r.data.summary == GenerateSummary(r.data.fullText, "", s.data.category)
  {
    TrimEmptyIff(more);
  }

  /** Resetting twice is resetting once. */
  lemma ResetIdempotent(s: Session)
    ensures AfterReset(AfterReset(s)) == AfterReset(s)
  {
  }

  // ---------------------------------------------------------------------
  // Runs of events

  /** An input the screen can receive: transcribed speech, a yes/no button,
      an edit of the typed-input box, its submit button, the home button. */
  datatype Event =
    | Spoken(text: string)
    | Pressed(isYes: bool)
    | Edited(text: string)
    | TypedSubmit
    | HomePressed

  function Step(s: Session, e: Event): (r: Session)
    ensures s.submitted <= r.submitted
    ensures Consistent(s) ==> Consistent(r)
  {
    match e
    case Spoken(t) => AfterText(s, t)
    case Pressed(b) => AfterChoice(s, b)
    case Edited(t) => AfterEdit(s, t)
    case TypedSubmit => AfterManualSubmit(s)
    case HomePressed => AfterReset(s)
  }

  /** The state after handling the events in order. */
  function Run(s: Session, es: seq<Event>): Session
    decreases |es|
  {
    if es == [] then s else Run(Step(s, es[0]), es[1..])
  }

  /** The invariant holds in every state reachable from the start, so every
      record ever handed over is well formed. */
  lemma {:induction false} RunKeepsConsistent(s: Session, es: seq<Event>)
    requires Consistent(s)
    ensures Consistent(Run(s, es))
    ensures forall c :: c in Run(s, es).submitted ==> WellFormedComplaint(c)
    decreases |es|
  {
    if es != [] {
      RunKeepsConsistent(Step(s, es[0]), es[1..]);
    }
  }

  /** How many inputs along a pass the stage stands for. */
  function Progress(stage: Stage): nat {
    match stage
    case CategorySelection => 0
    case CategoryConfirm => 1
    case DetailCollection => 2
    case SummaryConfirm => 3
    case FieldRequirement => 4
    case HandoffConfirm => 5
  }

  /** One event advances a pass by at most one stage, and a hand-off (which
      needs the full pass) sends the stage back to the start. */
  lemma StepProgress(s: Session, e: Event)
    ensures var r := Step(s, e);
            6 * |r.submitted| + Progress(r.stage) <= 6 * |s.submitted| + Progress(s.stage) + 1
  {
    match e
    case Spoken(t) =>
      TextProgress(s, t);
    case TypedSubmit =>
      var t := Trim(s.manualInput);
      if t != [] {
        TrimEmptyIff(t);
        TextProgress(s.(manualInput := ""), t);
      }
    case Pressed(b) =>
      ChoiceProgress(s, b);
    case _ =>
  }

  /** Text never hands anything over and advances by at most one stage. */
  lemma TextProgress(s: Session, text: string)
    ensures AfterText(s, text).submitted == s.submitted
    ensures Progress(AfterText(s, text).stage) <= Progress(s.stage) + 1
  {
    if !AllWhitespace(text) {
      TrimEmptyIff(text);
      RespondProgress(s, Trim(text));
    }
  }

  lemma RespondProgress(s: Session, t: string)
    requires t != []
    ensures Progress(Respond(s, t).stage) <= Progress(s.stage) + 1
  {
    match s.stage
    case CategorySelection => RespondAtCategory(s, t);
    case DetailCollection => RespondAtDetail(s, t);
    case _ =>
  }

  /** A press advances by at most one stage; the press that hands a record
      over comes from the last stage and returns to the first. */
  lemma ChoiceProgress(s: Session, isYes: bool)
    ensures var r := AfterChoice(s, isYes);
            6 * |r.submitted| + Progress(r.stage) <= 6 * |s.submitted| + Progress(s.stage) + 1
  {
  }

  /** Each hand-off needs its own complete pass of six inputs: category text,
      yes, detail text, yes, the visit answer and a final yes. So a run of
      `n` events hands over at most `n / 6` records, never one twice for the
      same pass. */
  lemma {:induction false} SubmissionsNeedFullPasses(s: Session, es: seq<Event>)
    ensures var r := Run(s, es);
            6 * |r.submitted| + Progress(r.stage) <= 6 * |s.submitted| + Progress(s.stage) + |es|
    decreases |es|
  {
    if es != [] {
      StepProgress(s, es[0]);
      SubmissionsNeedFullPasses(Step(s, es[0]), es[1..]);
    }
  }

  /** The log only grows, by appending. */
  lemma {:induction false} RunOnlyAppendsSubmissions(s: Session, es: seq<Event>)
    ensures s.submitted <= Run(s, es).submitted
    decreases |es|
  {
    if es != [] {
      RunOnlyAppendsSubmissions(Step(s, es[0]), es[1..]);
    }
  }

  /** Unfolds a run of six events into its six steps. */
  lemma RunSteps(s: Session, es: seq<Event>)
    requires |es| == 6
    ensures Run(s, es) == Step(Step(Step(Step(Step(Step(s, es[0]), es[1]), es[2]), es[3]), es[4]), es[5])
  {
    var s1 := Step(s, es[0]);
    var s2 := Step(s1, es[1]);
    var s3 := Step(s2, es[2]);
    var s4 := Step(s3, es[3]);
    var s5 := Step(s4, es[4]);
    RunFirst(s, es);
    RunFirst(s1, es[1..]);
    assert es[1..][1..] == es[2..];
    RunFirst(s2, es[2..]);
    assert es[2..][1..] == es[3..];
    RunFirst(s3, es[3..]);
    assert es[3..][1..] == es[4..];
    RunFirst(s4, es[4..]);
    assert es[4..][1..] == es[5..];
    RunFirst(s5, es[5..]);
    assert es[5..][1..] == [];
  }

  /** A run starts with the step of its first event. */
  lemma RunFirst(s: Session, es: seq<Event>)
    requires es != []
    ensures Run(s, es) == Run(Step(s, es[0]), es[1..])
  {
  }

  /** The six events of a complete pass from the category stage. */
  function Pass(category: string, detail: string, visit: bool, confirm: bool): seq<Event> {
    [Spoken(category), Pressed(true), Spoken(detail), Pressed(true), Pressed(visit), Pressed(confirm)]
  }

  /** A complete pass ends back at the start with an empty history. Confirmed,
      it hands over exactly one record: the classified category and its
      agency, the two texts joined by a space, their summary, the visit
      answer with its guidance, the fixed status and the two-line chat log.
      Declined, it hands over nothing. */
  lemma CompletePass(s: Session, category: string, detail: string, visit: bool, confirm: bool)
    requires s.stage == CategorySelection && s.data == InitialConversation
    requires !AllWhitespace(category) && !AllWhitespace(detail)
    ensures
      var r := Run(s, Pass(category, detail, visit, confirm));
      var c := Classify(Trim(category));
      var full := Trim(category) + " " + Trim(detail);
      var summary := GenerateSummary(full, "", c);
      && r.stage == CategorySelection && r.data == InitialConversation && r.history == []
      && r.submitted == s.submitted +
           (if confirm then [Complaint(c, GetAgency(c), summary, full, visit, GuidanceFor(c, visit),
                                       SubmittedStatus, [(User, full), (Assistant, summary)])]
            else [])
  {
    var es := Pass(category, detail, visit, confirm);
    RunSteps(s, es);
    var s4 := Step(Step(Step(Step(s, es[0]), es[1]), es[2]), es[3]);
    PassToFieldQuestion(s, category, detail);
    PassFromFieldQuestion(s4, visit, confirm);
  }

  /** The first four inputs of a pass reach the visit question with the
      record filled in from both texts. */
  lemma PassToFieldQuestion(s: Session, category: string, detail: string)
    requires s.stage == CategorySelection && s.data == InitialConversation
    requires !AllWhitespace(category) && !AllWhitespace(detail)
    ensures
      var r := Step(Step(Step(Step(s, Spoken(category)), Pressed(true)), Spoken(detail)), Pressed(true));
      var c := Classify(Trim(category));
      var full := Trim(category) + " " + Trim(detail);
      && r.stage == FieldRequirement && r.submitted == s.submitted
      && r.data == Conversation(c, GetAgency(c), GenerateSummary(full, "", c), full, false, "")
  {
    PassToDetail(s, category);
    DetailToFieldQuestion(Step(Step(s, Spoken(category)), Pressed(true)), detail);
  }

  /** The category text and its confirmation. */
  lemma PassToDetail(s: Session, category: string)
    requires s.stage == CategorySelection && s.data == InitialConversation
    requires !AllWhitespace(category)
    ensures
      var r := Step(Step(s, Spoken(category)), Pressed(true));
      var c := Classify(Trim(category));
      && r.stage == DetailCollection && r.submitted == s.submitted
      && r.data == InitialConversation.(category := c, agency := GetAgency(c), fullText := Trim(category))
  {
    SpokenCategory(s, category);
  }

  /** The detail text and the confirmation of its summary. */
  lemma DetailToFieldQuestion(s: Session, detail: string)
    requires s.stage == DetailCollection && s.data.fullText != "" && !AllWhitespace(detail)
    ensures
      var r := Step(Step(s, Spoken(detail)), Pressed(true));
      var full := s.data.fullText + " " + Trim(detail);
      && r.stage == FieldRequirement && r.submitted == s.submitted
      && r.data == s.data.(fullText := full, summary := GenerateSummary(full, "", s.data.category))
  {
    SpokenDetail(s, detail);
  }

  /** The visit answer and the final press of a pass: the conversation is
      reset, and on yes the record with the visit answer and its guidance is
      handed over. */
  lemma PassFromFieldQuestion(s: Session, visit: bool, confirm: bool)
    requires s.stage == FieldRequirement
    ensures
      var r := Step(Step(s, Pressed(visit)), Pressed(confirm));
      var d := s.data.(requiresVisit := visit, guidance := GuidanceFor(s.data.category, visit));
      && r.stage == CategorySelection && r.data == InitialConversation && r.history == []
      && r.submitted == s.submitted + (if confirm then [ComplaintOf(d)] else [])
  {
  }

  /** The category text of a pass: classified, with the record filled in. */
  lemma SpokenCategory(s: Session, category: string)
    requires s.stage == CategorySelection && s.data == InitialConversation
    requires !AllWhitespace(category)
    ensures var r := Step(s, Spoken(category));
            var c := Classify(Trim(category));
            && r.stage == CategoryConfirm && r.submitted == s.submitted
            && r.data == InitialConversation.(category := c, agency := GetAgency(c), fullText := Trim(category))
  {
    TrimEmptyIff(category);
  }

  /** The detail text of a pass: appended to the category text and
      summarised. */
  lemma SpokenDetail(s: Session, detail: string)
    requires s.stage == DetailCollection && s.data.fullText != "" && !AllWhitespace(detail)
    ensures var r := Step(s, Spoken(detail));
            var full := s.data.fullText + " " + Trim(detail);
            && r.stage == SummaryConfirm && r.submitted == s.submitted
            && r.data == s.data.(fullText := full, summary := GenerateSummary(full, "", s.data.category))
  {
    TrimEmptyIff(detail);
  }
}
