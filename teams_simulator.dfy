/**
 * The presentation screen's state and its event handlers. The screen's
 * presentation state, plus the stores it writes (settings, conversation,
 * current screen), are fields; each handler is a method
 * that changes those fields in the order the handler sets them, so that the
 * last value set is the value kept.
 *
 * The speech engine and the network are not modelled: what the engine
 * reports and what the conversation request returns are method parameters.
 */
module Simulator {
  import opened Wrappers
  import opened ConversationApi
  import opened Presentation

  datatype Screen = TeamsSimulatorScreen | ConversationScreen | IntroScreen

  /**
   * The error banners the screen can show. The screen stores the banner's
   * text; the model stores which banner it is, and `BannerText` gives the text.
   */
  datatype Banner =
    | UnsupportedOnMount             // the support probe on mount failed
    | TokenMissing                   // start without a token
    | UnsupportedOnStart             // start without speech recognition
    | UnsupportedOnInit              // recogniser creation without speech recognition
    | InitFailed                     // the recogniser's constructor threw
    | StartFailed                    // the recogniser's start threw
    | Recognition(code: string)      // the recogniser reported an error
    | Rejected(reason: ValidationError)  // the transcript failed validation at the end
    | ConversationFailed             // creating the conversation failed

  /**
   * The text each banner shows. A recognition error shows its code's message
   * and a rejected transcript its validation message; the rest are fixed.
   */
  function BannerText(b: Banner): (t: string)
    ensures b.Recognition? ==> t == RecognitionErrorMessage(b.code)
    ensures b.Rejected? ==> t == ValidationMessage(b.reason)
    ensures !b.Recognition? && !b.Rejected? ==> t == FixedBannerText(b)
  {
    if b.Recognition? then RecognitionErrorMessage(b.code)
    else if b.Rejected? then ValidationMessage(b.reason)
    else FixedBannerText(b)
  }

  /** The banners whose text does not depend on an event. */
  function FixedBannerText(b: Banner): string
    requires !b.Recognition? && !b.Rejected?
  {
    match b
    case UnsupportedOnMount =>
      "Speech recognition is not supported in your browser. Please use Chrome, Edge, or Safari for the best experience."
    case TokenMissing =>
      "API token is missing. Please check your settings and ensure you have a valid token."
    case UnsupportedOnStart =>
      "Speech recognition is not supported in your browser. Please use Chrome, Edge, or Safari."
    case UnsupportedOnInit => "Speech recognition is not supported in your browser."
    case InitFailed => "Failed to initialize speech recognition. Please refresh the page and try again."
    case StartFailed => "Failed to start speech recognition. Please check your microphone permissions."
    case ConversationFailed =>
      "Failed to create conversation with the AI. Please try again or check your internet connection."
  }

  /** What a successful hand-off leaves in the settings: a transcript of five words or more as context, and the fixed persona and replica. */
  predicate HandedOff(s: Settings) {
    s.context.Some? && WordCount(s.context.value) >= MinimumWords
    && s.persona == Some(DefaultPersona) && s.replica == Some(DefaultReplica)
  }

  class TeamsSimulator {
    /** The API token from the token store. */
    const token: Option<string>
    /** Whether the browser offers speech recognition, probed once on mount. */
    const speechSupported: bool

    var isPresenting: bool
    var isRecording: bool
    var transcript: string
    var showTavusMode: bool
    var isLoadingQuestions: bool
    /** The questions shown beside the avatar: `None` before any hand-off, else the tier whose questions are shown. */
    var generatedQuestions: Option<QuestionTier>
    /** The banner shown, if any. */
    var errorMessage: Option<Banner>
    /** The settings store. */
    var settings: Settings
    /** The conversation store. */
    var conversation: Option<ConversationData>
    /** The screen store. */
    var screen: Screen
    /** Whether a recogniser has been created and stored in the recognition ref. */
    var hasRecognizer: bool
    /** Whether the stored recogniser has been started and not stopped since. */
    var listening: bool

    /**
     * The screen's consistency: the two flags move together, presenting needs
     * a token, support and a recogniser, and the hand-off view is only shown
     * after settings were handed off with a valid transcript.
     */
    ghost predicate Valid()
      reads this
    {
      isPresenting == isRecording
      && (isPresenting ==> Truthy(token) && speechSupported && hasRecognizer)
      && (listening ==> hasRecognizer)
      && (showTavusMode ==> Truthy(token) && HandedOff(settings) && generatedQuestions.Some?)
    }

    /** Mounting the screen: initial state, then the support probe, which reports a missing engine. */
    constructor (token: Option<string>, settings: Settings, conversation: Option<ConversationData>, speechSupported: bool)
      ensures Valid()
      ensures this.token == token && this.settings == settings && this.conversation == conversation
      ensures this.speechSupported == speechSupported && screen == TeamsSimulatorScreen
      ensures !isPresenting && !isRecording && transcript == "" && !showTavusMode && !isLoadingQuestions
      ensures generatedQuestions == None && !hasRecognizer && !listening
      ensures errorMessage == if speechSupported then None else Some(UnsupportedOnMount)
    {
      this.token := token;
      this.speechSupported := speechSupported;
      this.settings := settings;
      this.conversation := conversation;
      screen := TeamsSimulatorScreen;
      isPresenting, isRecording, transcript := false, false, "";
      showTavusMode, isLoadingQuestions, generatedQuestions := false, false, None;
      hasRecognizer, listening := false, false;
      errorMessage := None;
      if !speechSupported {
        errorMessage := Some(UnsupportedOnMount);
      }
    }

    /**
     * `initializeSpeechRecognition`: creates a recogniser and stores it, or
     * reports why it could not. `constructorThrows` is whether the engine's
     * constructor threw.
     */
    method InitializeSpeechRecognition(constructorThrows: bool) returns (initialized: bool)
      modifies this`errorMessage, this`hasRecognizer, this`listening
      ensures initialized == (speechSupported && !constructorThrows)
      ensures initialized ==> hasRecognizer && !listening && errorMessage == old(errorMessage)
      ensures !initialized ==> hasRecognizer == old(hasRecognizer) && listening == old(listening)
      ensures !speechSupported ==> errorMessage == Some(UnsupportedOnInit)
      ensures speechSupported && constructorThrows ==> errorMessage == Some(InitFailed)
    {
      if !speechSupported {
        errorMessage := Some(UnsupportedOnInit);
        return false;
      }
      if constructorThrows {
        errorMessage := Some(InitFailed);
        return false;
      }
      hasRecognizer := true;
      listening := false;
      return true;
    }

    /**
     * `startPresentation`: clears the error, checks the token and then
     * support, resets the transcript and starts recognition, rolling both
     * flags back if the recogniser cannot be created or started.
     */
    method StartPresentation(constructorThrows: bool, startThrows: bool)
      requires Valid()
      modifies this`errorMessage, this`isPresenting, this`isRecording, this`transcript,
               this`hasRecognizer, this`listening
      ensures Valid()
      // token first, then support: both leave the session as it was
      ensures !Truthy(token) ==> errorMessage == Some(TokenMissing)
      ensures Truthy(token) && !speechSupported ==> errorMessage == Some(UnsupportedOnStart)
      ensures !Truthy(token) || !speechSupported ==>
                isPresenting == old(isPresenting) && isRecording == old(isRecording)
                && transcript == old(transcript) && hasRecognizer == old(hasRecognizer) && listening == old(listening)
      // past the checks the transcript is reset, and the flags say whether recognition runs
      ensures Truthy(token) && speechSupported ==>
                transcript == "" && isPresenting == isRecording == (!constructorThrows && !startThrows)
      ensures Truthy(token) && speechSupported && constructorThrows ==>
                errorMessage == Some(InitFailed) && listening == old(listening) && hasRecognizer == old(hasRecognizer)
      ensures Truthy(token) && speechSupported && !constructorThrows && startThrows ==>
                errorMessage == Some(StartFailed) && hasRecognizer && !listening
      ensures Truthy(token) && speechSupported && !constructorThrows && !startThrows ==>
                errorMessage == None && listening
    {
      errorMessage := None;
      if !Truthy(token) {
        errorMessage := Some(TokenMissing);
        return;
      }
      if !speechSupported {
        errorMessage := Some(UnsupportedOnStart);
        return;
      }
      isPresenting := true;
      isRecording := true;
      transcript := "";
      var initialized := InitializeSpeechRecognition(constructorThrows);
      if initialized && hasRecognizer {
        if startThrows {
          errorMessage := Some(StartFailed);
          isPresenting := false;
          isRecording := false;
        } else {
          listening := true;
        }
      } else {
        isPresenting := false;
        isRecording := false;
      }
    }

    /**
     * The recogniser's `onresult` handler: appends the final results of the
     * event, from `resultIndex` on, to the transcript.
     */
    method OnResult(results: seq<SpeechResult>, resultIndex: nat)
      requires Valid()
      modifies this`transcript
      ensures Valid()
      ensures transcript == old(transcript) + FinalSegments(FromIndex(results, resultIndex))
    {
      var finalTranscript := CollectFinal(results, resultIndex);
      if finalTranscript != "" {
        transcript := transcript + finalTranscript;
      }
    }

    /** The recogniser's `onerror` handler: shows the message for the error code. */
    method OnError(code: string)
      requires Valid()
      modifies this`errorMessage
      ensures Valid()
      ensures errorMessage == Some(Recognition(code))
    {
      errorMessage := Some(Recognition(code));
    }

    /** The banner's dismiss button. */
    method DismissError()
      requires Valid()
      modifies this`errorMessage
      ensures Valid() && errorMessage == None
    {
      errorMessage := None;
    }

    /**
     * `endPresentation`: stops recording, validates the trimmed transcript
     * (token, then non-empty, then five words) and, if it passes, hands off.
     * `response` is what the network returns for the request; `sent` is the
     * request made, if any.
     */
    method EndPresentation(response: Transport) returns (sent: Option<Request>)
      requires Valid()
      modifies this`isPresenting, this`isRecording, this`listening,
               this`showTavusMode, this`isLoadingQuestions, this`generatedQuestions, this`settings,
               this`conversation, this`screen, this`errorMessage
      ensures Valid()
      ensures !isPresenting && !isRecording && !listening
      ensures Validate(token, old(transcript)).Err? ==>
                sent == None
                && errorMessage == Some(Rejected(Validate(token, old(transcript)).error))
                && showTavusMode == old(showTavusMode) && settings == old(settings)
                && isLoadingQuestions == old(isLoadingQuestions) && generatedQuestions == old(generatedQuestions)
                && conversation == old(conversation) && screen == old(screen)
      ensures Validate(token, old(transcript)).Ok? ==>
                sent.Some? && HandedOffTo(Validate(token, old(transcript)).value, response, sent.value,
                                          old(settings), old(conversation), old(screen), old(errorMessage))
    {
      isPresenting := false;
      isRecording := false;
      if hasRecognizer {
        listening := false;
      }
      var validation := Validate(token, transcript);
      if validation.Err? {
        errorMessage := Some(Rejected(validation.error));
        return None;
      }
      var request := HandOff(validation.value, response);
      sent := Some(request);
    }

    /**
     * The state after handing off `cleanTranscript`: settings and questions
     * updated, the request built from the new settings, and the outcome of
     * `response` applied.
     */
    ghost predicate HandedOffTo(cleanTranscript: string, response: Transport, sent: Request,
                                oldSettings: Settings, oldConversation: Option<ConversationData>,
                                oldScreen: Screen, oldError: Option<Banner>)
      reads this
    {
      settings == HandoffSettings(oldSettings, cleanTranscript)
      && generatedQuestions == Some(TierForWordCount(WordCount(cleanTranscript)))
      && sent == BuildRequest(token, settings)
      && !isLoadingQuestions
      && (Delivers(response) ==>
            conversation == Some(response.response.json.value) && screen == ConversationScreen
            && showTavusMode && errorMessage == oldError)
      && (!Delivers(response) ==>
            errorMessage == Some(ConversationFailed) && !showTavusMode
            && conversation == oldConversation && screen == oldScreen)
    }

    /**
     * The part of `endPresentation` after validation: shows the hand-off
     * view, derives the questions, overwrites the settings, creates the
     * conversation and applies its outcome.
     */
    method HandOff(cleanTranscript: string, response: Transport) returns (sent: Request)
      requires Valid() && Truthy(token) && WordCount(cleanTranscript) >= MinimumWords
      modifies this`showTavusMode, this`isLoadingQuestions, this`generatedQuestions, this`settings,
               this`conversation, this`screen, this`errorMessage
      ensures Valid()
      ensures HandedOffTo(cleanTranscript, response, sent, old(settings), old(conversation), old(screen), old(errorMessage))
    {
      ShowHandOff(cleanTranscript);
      var call := CreateConversation(token, settings, response);
      sent := call.request;
      ApplyOutcome(call.outcome);
    }

    /** Switches to the hand-off view with the questions for the transcript, and writes the hand-off settings. */
    method ShowHandOff(cleanTranscript: string)
      requires Valid() && Truthy(token) && WordCount(cleanTranscript) >= MinimumWords
      modifies this`showTavusMode, this`isLoadingQuestions, this`generatedQuestions, this`settings
      ensures Valid() && showTavusMode && isLoadingQuestions
      ensures generatedQuestions == Some(TierForWordCount(WordCount(cleanTranscript)))
      ensures settings == HandoffSettings(old(settings), cleanTranscript)
    {
      showTavusMode := true;
      isLoadingQuestions := true;
      generatedQuestions := Some(TierForWordCount(WordCount(cleanTranscript)));
      settings := HandoffSettings(settings, cleanTranscript);
    }

    /** Applies the client's outcome: the conversation and its screen, or the failure banner and the view closed. */
    method ApplyOutcome(outcome: Result<ConversationData, ClientError>)
      requires Valid()
      modifies this`showTavusMode, this`isLoadingQuestions, this`conversation, this`screen, this`errorMessage
      ensures Valid() && !isLoadingQuestions
      ensures outcome.Ok? ==>
                conversation == Some(outcome.value) && screen == ConversationScreen
                && showTavusMode == old(showTavusMode) && errorMessage == old(errorMessage)
      ensures outcome.Err? ==>
                errorMessage == Some(ConversationFailed) && !showTavusMode
                && conversation == old(conversation) && screen == old(screen)
    {
      match outcome
      case Ok(created) =>
        conversation := Some(created);
        isLoadingQuestions := false;
        screen := ConversationScreen;
      case Err(_) =>
        errorMessage := Some(ConversationFailed);
        isLoadingQuestions := false;
        showTavusMode := false;
    }

    /** The leave button: back to the intro screen. */
    method Leave()
      requires Valid()
      modifies this`screen
      ensures Valid() && screen == IntroScreen
    {
      screen := IntroScreen;
    }
  }
}
