/** The screen component's state as an object whose handlers assign its
    fields in turn, proved against the transition functions of module
    Dialogue: after each handler the state is the one the matching function
    gives, and the record invariant `Consistent` still holds. */
module Intake {
  import opened Text
  import opened Classifier
  import opened Dialogue

  class Controller {
    /** `flowStage`. */
    var stage: Stage
    /** `conversationData`. */
    var data: Conversation
    /** `chatHistory`. */
    var history: seq<Entry>
    /** `manualInput`, the typed-input box. */
    var manualInput: string
    /** The records handed to the complaint store, in order. */
    ghost var submitted: seq<Complaint>

    /** The fields as one value of the transition system. */
    ghost function State(): Session
      reads this
    {
      Session(stage, data, history, manualInput, submitted)
    }

    ghost predicate Valid()
      reads this
    {
      Consistent(State())
    }

    /** A freshly mounted screen. */
    constructor ()
      ensures State() == Start() && Valid()
    {
      stage := CategorySelection;
      data := InitialConversation;
      history := [];
      manualInput := "";
      submitted := [];
      StartIsConsistent();
    }

    /** `speakAndDisplay`, as far as the state goes: the prompt is appended
        to the history as an assistant line. */
    method SpeakAndDisplay(text: string)
      modifies this
      ensures history == old(history) + [(Assistant, text)]
      ensures stage == old(stage) && data == old(data)
      ensures manualInput == old(manualInput) && submitted == old(submitted)
    {
      history := history + [(Assistant, text)];
    }

    /** `saveComplaint`: the record built from the conversation is handed to
        the store. */
    method SaveComplaint()
      modifies this
      ensures submitted == old(submitted) + [ComplaintOf(data)]
      ensures stage == old(stage) && data == old(data)
      ensures history == old(history) && manualInput == old(manualInput)
    {
      submitted := submitted + [ComplaintOf(data)];
    }

    /** `resetConversation`. */
    method Reset()
      requires Valid()
      modifies this
      ensures State() == AfterReset(old(State())) && Valid()
    {
      stage := CategorySelection;
      data := InitialConversation;
      history := [];
      manualInput := "";
    }

    /** `analyzeAndRespond` on a transcribed or typed text. */
    method OnText(userText: string)
      requires Valid()
      modifies this
      ensures State() == AfterText(old(State()), userText) && Valid()
    {
      TrimEmptyIff(userText);
      var trimmedText := Trim(userText);
      if trimmedText == [] {
        return;
      }
      RespondTo(trimmedText);
    }

    /** `analyzeAndRespond` past its blank check. */
    method RespondTo(trimmedText: string)
      requires Valid() && trimmedText != []
      modifies this
      ensures State() == Respond(old(State()), trimmedText) && Valid()
    {
      if stage == CategorySelection {
        ClassifyInput(trimmedText);
      } else if stage == DetailCollection {
        AddDetail(trimmedText);
      } else {
        history := history + [(User, trimmedText)];
      }
    }

    /** The category stage of `analyzeAndRespond`. */
    method ClassifyInput(trimmedText: string)
      requires Valid() && trimmedText != [] && stage == CategorySelection
      modifies this
      ensures State() == Respond(old(State()), trimmedText) && Valid()
    {
      history := history + [(User, trimmedText)];
      var category := AnalyzeComplaint(trimmedText);
      var agency := GetAgency(category);
      data := data.(category := category, agency := agency, fullText := trimmedText);
      stage := CategoryConfirm;
      SpeakAndDisplay(CategoryConfirmPrompt(category, agency));
    }

    /** The detail stage of `analyzeAndRespond`. */
    method AddDetail(trimmedText: string)
      requires Valid() && trimmedText != [] && stage == DetailCollection
      modifies this
      ensures State() == Respond(old(State()), trimmedText) && Valid()
    {
      ghost var s := State();
      var updatedFullText := if data.fullText != "" then data.fullText + " " + trimmedText else trimmedText;
      var summary := GenerateSummary(updatedFullText, "", data.category);
      RespondAtDetail(s, trimmedText);
      history := history + [(User, trimmedText)];
      data := data.(fullText := updatedFullText, summary := summary);
      stage := SummaryConfirm;
      SpeakAndDisplay(SummaryConfirmPrompt(summary));
    }

    /** `handleChoice` on a yes/no press. */
    method OnChoice(isYes: bool)
      requires Valid()
      modifies this
      ensures State() == AfterChoice(old(State()), isYes) && Valid()
    {
      if stage == CategoryConfirm {
        ConfirmCategory(isYes);
      } else if stage == SummaryConfirm {
        ConfirmSummary(isYes);
      } else if stage == FieldRequirement {
        AnswerVisit(isYes);
      } else if stage == HandoffConfirm {
        ConfirmHandoff(isYes);
      } else {
        history := history + [(User, ChoiceLabel(isYes))];
      }
    }

    /** The category-confirmation stage of `handleChoice`. */
    method ConfirmCategory(isYes: bool)
      requires Valid() && stage == CategoryConfirm
      modifies this
      ensures State() == AfterChoice(old(State()), isYes) && Valid()
    {
      history := history + [(User, ChoiceLabel(isYes))];
      if isYes {
        stage := DetailCollection;
        SpeakAndDisplay(DetailPrompt);
      } else {
        data := InitialConversation;
        stage := CategorySelection;
        SpeakAndDisplay(CategoryRetryPrompt);
      }
    }

    /** The summary-confirmation stage of `handleChoice`. */
    method ConfirmSummary(isYes: bool)
      requires Valid() && stage == SummaryConfirm
      modifies this
      ensures State() == AfterChoice(old(State()), isYes) && Valid()
    {
      ChoiceAtSummary(State(), isYes);
      history := history + [(User, ChoiceLabel(isYes))];
      if isYes {
        stage := FieldRequirement;
        SpeakAndDisplay(FieldQuestion);
      } else {
        stage := DetailCollection;
        SpeakAndDisplay(MoreDetailPrompt);
      }
    }

    /** The field-requirement stage of `handleChoice`: the answer and the
        guidance text it selects are recorded together. */
    method AnswerVisit(isYes: bool)
      requires Valid() && stage == FieldRequirement
      modifies this
      ensures State() == AfterChoice(old(State()), isYes) && Valid()
    {
      ChoiceAtField(State(), isYes);
      history := history + [(User, ChoiceLabel(isYes))];
      var requiresVisit := isYes;
      var guideText := GuidanceFor(data.category, requiresVisit);
      data := data.(requiresVisit := requiresVisit, guidance := guideText);
      stage := HandoffConfirm;
      SpeakAndDisplay(HandoffPrompt(guideText));
    }

    /** The hand-off stage of `handleChoice`: on yes the record is handed
        over; on either answer the conversation is reset once the closing
        prompt has been spoken. */
    method ConfirmHandoff(isYes: bool)
      requires Valid() && stage == HandoffConfirm
      modifies this
      ensures State() == AfterChoice(old(State()), isYes) && Valid()
    {
      history := history + [(User, ChoiceLabel(isYes))];
      if isYes {
        SaveComplaint();
      }
      Reset();
    }

    /** The typed-input box's `onChange`. */
    method EditManualInput(text: string)
      requires Valid()
      modifies this
      ensures State() == AfterEdit(old(State()), text) && Valid()
    {
      manualInput := text;
    }

    /** `handleManualSubmit`. */
    method ManualSubmit()
      requires Valid()
      modifies this
      ensures State() == AfterManualSubmit(old(State())) && Valid()
    {
      var text := Trim(manualInput);
      if text == [] {
        return;
      }
      manualInput := "";
      OnText(text);
    }
  }
}
