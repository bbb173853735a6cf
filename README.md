# Presentation practice screen and conversation client

A Dafny model of the presentation-session flow of the quickstart's
meeting-room screen (`TeamsSimulator`) and of the client that creates a
conversational-video conversation (`createConversation`).

The user presents to a mock meeting. Speech recognition appends finalised
speech to a transcript. When the presentation ends, the trimmed transcript
is validated in a fixed order: a token, then a non-empty transcript, then at
least five words. A valid transcript is written into the settings store as
the conversation's context, together with a fixed greeting, persona and
replica. The screen shows one of three sets of questions chosen by word
count, and a conversation is created. On success the app moves to the
conversation screen. On failure an error banner is shown.

The model is split into five modules:

- `Wrappers`: `Option` (JavaScript `undefined`/`null`) and `Result` (a value
  or what was thrown).
- `JsText`: the JavaScript string built-ins the flow relies on.
  - `trim`, over the ECMAScript whitespace set.
  - `split(' ')`, with its empty pieces.
  - `Number.prototype.toString()` on non-negative integers.
  - `padStart`.
- `ConversationApi` (`src/api/createConversation.ts`): the request body built
  from the settings store, the request, and how a response becomes the
  parsed conversation or a thrown error. What `fetch` delivers is a
  parameter (`Transport`).
- `Presentation`: the pure parts of the screen.
  - The `onresult` loop, as a method with its loop invariant.
  - The word count and the end-of-presentation validation.
  - The settings written at hand-off and the question tiers.
  - The recognition-error messages and `formatDuration`.
- `Simulator`: class `TeamsSimulator`.
  - Its fields are the screen's React state plus the stores it writes (settings, conversation, current screen).
  - Its methods are the handlers. Each assigns fields in the order the handler calls its setters, so the last value set is the one kept.
  - The ghost predicate `Valid()` is the screen's invariant. Every handler keeps it:
    - `isPresenting` and `isRecording` move together;
    - presenting needs a token, speech support and a recogniser;
    - the hand-off view is only shown once the settings hold a context of five words or more and the fixed persona and replica.

The speech engine and the network are not modelled; what they deliver is
passed in as method parameters:

- the result list and `resultIndex` of a recognition event;
- the error code of a recognition error;
- whether the recogniser's constructor or its `start()` throws;
- the HTTP response, or a rejected `fetch`.

Two state fields hold a tag rather than the text the screen shows:

- `errorMessage` holds a `Banner`, and `BannerText` gives that banner's exact text.
- `generatedQuestions` holds a `QuestionTier`, and `TierQuestions` gives that tier's three questions.

Two behaviours of the code are worth knowing; the model follows the code:

- The question tiers are ≤ 50, 51–150 and > 150 words
  (`src/screens/TeamsSimulator.tsx:445,453`): a transcript of exactly 50
  words gets the first set.
- At hand-off the greeting, persona and replica are overwritten
  unconditionally (`src/screens/TeamsSimulator.tsx:381-390`), even where the
  settings already hold values of their own.

## Model

| member | source | states |
|---|---|---|
| JsText.Trim | src/screens/TeamsSimulator.tsx:345 | `trim()` gives a slice of the input. It neither starts nor ends with whitespace, and only whitespace is cut off on either side. |
| JsText.TrimEmptyIff | src/screens/TeamsSimulator.tsx:345 | A transcript trims to the empty string exactly when it is all whitespace. |
| JsText.TrimIdempotent | src/screens/TeamsSimulator.tsx:345 | Trimming twice is the same as trimming once. |
| JsText.SplitOnSpace | src/screens/TeamsSimulator.tsx:366 | `split(' ')` gives at least one piece, and no piece contains a space. |
| JsText.JoinSplit | src/screens/TeamsSimulator.tsx:366 | The pieces of `split(' ')` joined back with single spaces give the original text: splitting loses nothing. |
| JsText.SplitJoin | src/screens/TeamsSimulator.tsx:366 | Space-free pieces joined with single spaces split back into the same pieces. |
| JsText.SplitAfterPiece | src/screens/TeamsSimulator.tsx:366 | A space-free piece followed by a space is split off as exactly one piece. |
| JsText.SplitNoSpace | src/screens/TeamsSimulator.tsx:366 | A text without a space is a single piece. |
| JsText.NatToString | src/screens/TeamsSimulator.tsx:477 | `toString()` of a non-negative integer is a non-empty digit string with no leading zero, one digit exactly below 10. |
| JsText.ParseNatToString | src/screens/TeamsSimulator.tsx:477 | The decimal form of a number reads back to the number. |
| JsText.TwoDigitsBelowHundred | src/screens/TeamsSimulator.tsx:477 | Numbers below 100 print with at most two digits. |
| JsText.ParseNatLeadingZeros | src/screens/TeamsSimulator.tsx:477 | Zeros added by `padStart` in front of a digit string do not change its value. |
| JsText.PadStart | src/screens/TeamsSimulator.tsx:477 | `padStart(width, fill)` gives the input with just enough fill characters in front to reach the width, and leaves longer inputs unchanged. |
| JsText.DigitPrefixLength | src/api/createConversation.ts:47 | The longest all-digit prefix. |
| JsText.DigitPrefixOfDigits | src/api/createConversation.ts:47 | Digits followed by a non-digit have exactly those digits as their digit prefix. |
| ConversationApi.BuildPayload | src/api/createConversation.ts:19-31 | The body's fields. `persona_id` is the persona if truthy, else `pcce34deac2a`. `replica_id` is the replica if truthy, else `rb17cf590e15`. `custom_greeting` is the greeting whenever it is not undefined or null, the empty string included, else the fixed default. `conversational_context` is the context, or `""` when it is absent. Both ids are never empty. |
| ConversationApi.PayloadRoundTrip | src/api/createConversation.ts:19-31 | Every body with non-empty ids is what the settings holding its values produce: no field is altered on the way. |
| ConversationApi.PayloadIgnoresOtherFields | src/api/createConversation.ts:19-31 | The body depends only on the four settings fields it reads. |
| ConversationApi.BuildRequest | src/api/createConversation.ts:35-42 | One POST to the conversations endpoint with a JSON content type. The `x-api-key` header is the token, or `""` when the token is nullish. The body is `BuildPayload` of the settings. |
| ConversationApi.HttpErrorMessage | src/api/createConversation.ts:47 | The thrown message starts with `HTTP error! status: `, followed by the status in decimal, and ends with the response text verbatim. |
| ConversationApi.HttpErrorMessageRoundTrip | src/api/createConversation.ts:47 | The thrown message carries both the HTTP status and the full body text: both read back out of it. |
| ConversationApi.ReadResponse | src/api/createConversation.ts:44-52 | A rejected `fetch` rejects with its reason. A non-ok response throws one `HttpError` whose message reads back to the response's status and body text. An ok response resolves to the parsed body unchanged, or rejects if the body is not JSON. |
| ConversationApi.CreateConversation | src/api/createConversation.ts:5-53 | The request carries `token ?? ""` and `BuildPayload` of the settings. The call resolves exactly when `fetch` delivers an ok response with a JSON body, and then to that body. |
| Presentation.FinalSegments | src/screens/TeamsSimulator.tsx:256-261 | What a result list contributes to the transcript is empty or ends in the space appended after each final result. |
| Presentation.FromIndex | src/screens/TeamsSimulator.tsx:256 | The results handled are the event's list from `resultIndex` on: the list is the skipped prefix followed by them, and none are handled when `resultIndex` is past the end. |
| Presentation.FinalSegmentsAppend | src/screens/TeamsSimulator.tsx:253-266 | Handling two result lists one after the other appends what each contributes, in order. |
| Presentation.FinalSegmentsEmptyIff | src/screens/TeamsSimulator.tsx:256-265 | An event contributes nothing (so the transcript is left as it was) exactly when none of its results is final. |
| Presentation.CollectFinal | src/screens/TeamsSimulator.tsx:253-261 | The `onresult` loop collects, from `resultIndex` on, each final result's text followed by one space, in order. Non-final results are skipped. An index past the end collects nothing. |
| Presentation.WordCount | src/screens/TeamsSimulator.tsx:366 | The word count (computed the same way again at line 437) is at most the text's length, and zero exactly when the text holds nothing but spaces. |
| Presentation.WordStartsPieces | src/screens/TeamsSimulator.tsx:366 | Counting the non-empty pieces of `split(' ')` equals counting the positions where a word starts. |
| Presentation.WordCountIsWordStarts | src/screens/TeamsSimulator.tsx:366 | The word count is the number of maximal runs of characters other than `' '`. |
| Presentation.OnlySpaceSeparates | src/screens/TeamsSimulator.tsx:366 | Only the single space separates words: a non-empty text with tabs or newlines but no space is one word. |
| Presentation.WordsImplyNonEmpty | src/screens/TeamsSimulator.tsx:360-367 | A text with a word in it is not empty, so the empty check comes first and cannot hide a word-count rejection. |
| Presentation.Validate | src/screens/TeamsSimulator.tsx:345-370 | The checks run in order. The missing-token rejection happens exactly when the token is falsy, whatever the transcript. With a token, an empty trimmed transcript is rejected as empty, and a non-empty one under five words as too few words, carrying its word count. A success carries the trimmed transcript and at least five words. |
| Presentation.ValidateOkIff | src/screens/TeamsSimulator.tsx:354-370 | Validation passes exactly when the token is truthy and the trimmed transcript has five words or more. |
| Presentation.ValidateEmptyIff | src/screens/TeamsSimulator.tsx:360-363 | Given a token, the empty-transcript rejection happens exactly for transcripts made only of whitespace. |
| Presentation.ValidationMessage | src/screens/TeamsSimulator.tsx:355-368 | Every rejection banner starts with `Cannot create conversation: `. The too-few-words banner is `Cannot create conversation: Only `, the count in decimal, then the fixed tail. |
| Presentation.RejectionInitial | src/screens/TeamsSimulator.tsx:355-368 | The letter after the common prefix is `A`, `N` or `O` for a missing token, an empty transcript and too few words. |
| Presentation.FewWordsCountInjective | src/screens/TeamsSimulator.tsx:368 | Two word counts give the same too-few-words banner only if they are equal: the banner states the exact count. |
| Presentation.ValidationMessageInjective | src/screens/TeamsSimulator.tsx:355-368 | Different rejections always give different banners. |
| Presentation.HandoffSettings | src/screens/TeamsSimulator.tsx:381-390 | The settings after hand-off have the trimmed transcript as context, the fixed greeting, persona `pcce34deac2a` and replica `rb17cf590e15`. Every other field is unchanged. |
| Presentation.HandoffPayload | src/screens/TeamsSimulator.tsx:381-401 | The body sent after hand-off is the fixed persona, replica and greeting plus the transcript verbatim as context, whatever the settings were before. |
| Presentation.TierQuestions | src/screens/TeamsSimulator.tsx:439-458 | Each tier has exactly three questions. |
| Presentation.TierForWordCount | src/screens/TeamsSimulator.tsx:439-461 | The tier is the first up to 50 words, the second from 51 to 150, the third above 150. Each is chosen exactly in its range. |
| Presentation.QuestionsForWordCount | src/screens/TeamsSimulator.tsx:435-462 | Three questions: the first set exactly when the count is ≤ 50, the second exactly for 51–150, the third exactly above 150. |
| Presentation.GenerateQuestionsFromTranscript | src/screens/TeamsSimulator.tsx:435-462 | The same tiering, stated in terms of the transcript's word count. |
| Presentation.QuestionTiers | src/screens/TeamsSimulator.tsx:445-459 | Two word counts get the same questions exactly when they fall in the same tier. A longer transcript never gets an earlier tier. |
| Presentation.RecognitionErrorMessage | src/screens/TeamsSimulator.tsx:268-277 | `not-allowed` and `no-speech` get their fixed messages. Any other code is embedded verbatim between `Speech recognition error: ` and `. Please try again.`. |
| Presentation.RecognitionErrorMessageInjective | src/screens/TeamsSimulator.tsx:268-277 | Different error codes give different messages: the banner always identifies the code. |
| Presentation.TwoDigitField | src/screens/TeamsSimulator.tsx:477 | `n.toString().padStart(2, '0')` has at least two digits, exactly two below 100, and reads back to `n`. A field longer than two digits has no leading zero. |
| Presentation.FormatDuration | src/screens/TeamsSimulator.tsx:474-478 | `MM:SS` has at least two minute digits, a `:` and exactly two second digits. The minutes read back to `floor(s/60)` and the seconds to `s % 60 < 60`. The whole display reads back to `s`. Below 100 minutes it is exactly five characters, and a longer one has no leading zero. |
| Simulator.BannerText | src/screens/TeamsSimulator.tsx:190-429 | A recognition error shows its code's message and a rejected transcript its validation message. Every other banner shows its fixed text (`FixedBannerText`), kept verbatim from the handler that sets it. |
| Simulator.TeamsSimulator.constructor | src/screens/TeamsSimulator.tsx:184-195 | Mounting starts idle with an empty transcript and no questions. The support probe shows the unsupported banner exactly when speech recognition is missing. |
| Simulator.TeamsSimulator.InitializeSpeechRecognition | src/screens/TeamsSimulator.tsx:239-297 | It succeeds exactly when recognition is supported and the constructor does not throw; then a recogniser is stored, not yet listening. Otherwise the unsupported banner or the initialisation-failure banner is shown. |
| Simulator.TeamsSimulator.StartPresentation | src/screens/TeamsSimulator.tsx:299-334 | The banner is cleared first. The token is checked, then support; either failure shows its banner and leaves flags, transcript and recogniser as they were. Past both checks the transcript is `""`. Both flags are true exactly when neither creating nor starting the recogniser threw. A constructor failure shows its banner and leaves the recogniser and listening as they were. A start failure shows its banner. Only these fields change. |
| Simulator.TeamsSimulator.OnResult | src/screens/TeamsSimulator.tsx:253-266 | The old transcript stays an exact prefix, followed by the event's final results from `resultIndex` on. |
| Simulator.TeamsSimulator.OnError | src/screens/TeamsSimulator.tsx:268-277 | Shows the banner for the event's error code and changes nothing else. |
| Simulator.TeamsSimulator.DismissError | src/screens/TeamsSimulator.tsx:480-482 | Clears the banner. |
| Simulator.TeamsSimulator.EndPresentation | src/screens/TeamsSimulator.tsx:336-433 | Both flags end false and the recogniser is stopped before validation. A rejection shows its banner, sends nothing, and leaves the hand-off view, settings, questions, conversation and screen as they were. A valid transcript is handed off, and the request sent is the one built from the new settings. |
| Simulator.TeamsSimulator.HandOff | src/screens/TeamsSimulator.tsx:372-432 | The settings become the hand-off settings and the questions the transcript's tier. The request is `BuildRequest` of the token and the new settings. On success the conversation is stored, loading ends and the screen becomes the conversation screen. On failure the failure banner is shown and both the view and loading close. |
| Simulator.TeamsSimulator.ShowHandOff | src/screens/TeamsSimulator.tsx:373-401 | The hand-off view and loading are switched on, the questions are set to the transcript's tier, and the settings are overwritten as at hand-off. |
| Simulator.TeamsSimulator.ApplyOutcome | src/screens/TeamsSimulator.tsx:411-432 | Loading always ends. Success stores the conversation and switches screens. Failure shows the failure banner and closes the hand-off view, keeping the old conversation and screen. |
| Simulator.TeamsSimulator.Leave | src/screens/TeamsSimulator.tsx:639 | The leave button goes back to the intro screen. |

## Left out

- Rendering (JSX, buttons, overlays, the banner markup): presentational only. `BannerText` keeps the exact banner texts, but no handler's contract mentions them.
- Camera and microphone acquisition (`getUserMedia`), the unmount cleanup, and `toggleMute`: browser device I/O. The cleanup stops the recogniser. It reads `stream` from the mount render (`src/screens/TeamsSimulator.tsx:213-221`), where it is still `null`, so the media tracks are never stopped.
- The presentation timer (`setInterval`, `Date`, `presentationStartTime`, `presentationDuration`): wall-clock time. `formatDuration` is modelled on its own.
- The two-second `setTimeout` before switching to the conversation screen: the switch is modelled as immediate on success.
- The recogniser's `onend` auto-restart and its "stopped unexpectedly" banner. It reads `isRecording` from the closure of the render in which `startPresentation` ran, before `setIsRecording(true)` applied, so its behaviour depends on React's closure semantics. No restart guarantee is claimed.
- The recogniser's settings (`continuous`, `interimResults`, `lang`): engine configuration with no effect on the state modelled.
- `localStorage` persistence of the settings and its read-back, and all `console` output.
- `fetch` and the network: the response, or a rejected `fetch`, is a parameter. The request the client would send is returned so that its contents can be stated.
- ConversationApi.HttpResponse: a parsed body is either a conversation record or absent (not JSON). An ok response whose body is the JSON literal `null` is not modelled. In the source the call then resolves to `null` (`src/api/createConversation.ts:50-52`), the screen stores it, and reading `conversation_id` at `src/screens/TeamsSimulator.tsx:421` throws into the `catch`. So the failure banner is shown and the hand-off view closes, while the store keeps `null` and the screen does not switch.
- Simulator.TeamsSimulator.ApplyOutcome: its success branch (conversation stored, screen switched) covers only the bodies modelled. The `null`-body path of the line above is not represented.
- `response.text()` rejecting, and the `undefined` response allowed by `response?.ok`: these are outside the abstract response, and a failed `response.json()` is modelled as a body that is not JSON.
- `src/App.tsx`, `src/screens/Intro.tsx` and `src/components/Footer.tsx`: screen routing, token entry and static markup, all UI glue.
- Simulator.TeamsSimulator.EndPresentation: the `await` is modelled atomically. The state while the request is pending (hand-off view shown, questions loading) is not observable, and handlers that could run meanwhile are not interleaved.
- Simulator.TeamsSimulator.constructor: the token and speech support are fixed for the screen's lifetime. The first render, before the mount effect has set speech support, is not modelled.
- Simulator.TeamsSimulator.StartPresentation: the rollback after a failed initialisation leaves the recogniser as it was. The model does not track whether the engine object of an earlier session is still referenced.
- Simulator.TeamsSimulator.Valid: the hand-off invariant states the context's word count and the fixed persona and replica, but not the greeting. The greeting is stated where the hand-off happens (`HandoffSettings`, in the contracts of `HandOff` and `EndPresentation`).
- JsText.Trim: JavaScript strings are UTF-16 code units, while the model works on characters. Surrogate pairs are not distinguished.
- JsText.NatToString: `Number.prototype.toString()` switches to exponent notation from 10^21 on. The model always prints plain decimal digits.
- Presentation.FormatDuration: the argument is a non-negative integer number of seconds, as the timer produces. Fractional or negative numbers are not modelled.
