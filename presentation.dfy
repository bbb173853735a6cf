/**
 * The pure logic of the presentation screen: how finalised speech results
 * accumulate into the transcript, the word count and the validation run when
 * a presentation ends, the settings written at hand-off, the question tiers,
 * the recognition-error messages and the `MM:SS` duration format.
 */
module Presentation {
  import opened Wrappers
  import opened JsText
  import opened ConversationApi

  // ---------------------------------------------------------------------------
  // Transcript accumulation (the recognition `onresult` handler)

  /** One entry of a recognition event's result list: whether it is final, and the text of its first alternative. */
  datatype SpeechResult = SpeechResult(isFinal: bool, transcript: string)

  /** The text a list of results contributes: each final result's text followed by one space, in order. */
  function FinalSegments(results: seq<SpeechResult>): (s: string)
    ensures s != [] ==> s[|s| - 1] == ' '
  {
    if results == [] then ""
    else (if results[0].isFinal then results[0].transcript + " " else "") + FinalSegments(results[1..])
  }

  /** The results an event delivers from `resultIndex` on. */
  function FromIndex(results: seq<SpeechResult>, resultIndex: nat): (r: seq<SpeechResult>)
    ensures |r| == if resultIndex <= |results| then |results| - resultIndex else 0
    ensures resultIndex <= |results| ==> results == results[..resultIndex] + r
  {
    if resultIndex <= |results| then results[resultIndex..] else []
  }

  /** Handling two lists one after the other contributes what handling them as one list does. */
  lemma {:induction false} FinalSegmentsAppend(a: seq<SpeechResult>, b: seq<SpeechResult>)
    ensures FinalSegments(a + b) == FinalSegments(a) + FinalSegments(b)
  {
    if a != [] {
      assert (a + b)[1..] == a[1..] + b;
      FinalSegmentsAppend(a[1..], b);
    } else {
      assert a + b == b;
    }
  }

  /** Results contribute nothing exactly when none of them is final. */
  lemma {:induction false} FinalSegmentsEmptyIff(results: seq<SpeechResult>)
    ensures FinalSegments(results) == "" <==> forall k :: 0 <= k < |results| ==> !results[k].isFinal
  {
    if results != [] {
      FinalSegmentsEmptyIff(results[1..]);
      if !results[0].isFinal {
        forall k | 0 <= k < |results[1..]| ensures results[1..][k] == results[k + 1] { }
      }
    }
  }

  /** A slice grows by one element at its upper end. */
  lemma SliceExtend(s: seq<SpeechResult>, lo: nat, hi: nat)
    requires lo <= hi < |s|
    ensures s[lo..hi + 1] == s[lo..hi] + [s[hi]]
  {
  }

  /**
   * The loop of the `onresult` handler: collects the final results from
   * `resultIndex` on into `finalTranscript`.
   */
  method CollectFinal(results: seq<SpeechResult>, resultIndex: nat) returns (finalTranscript: string)
    ensures finalTranscript == FinalSegments(FromIndex(results, resultIndex))
  {
    finalTranscript := "";
    var i := resultIndex;
    while i < |results|
      invariant resultIndex > |results| ==> i == resultIndex && finalTranscript == ""
      invariant resultIndex <= |results| ==>
                  resultIndex <= i <= |results| && finalTranscript == FinalSegments(results[resultIndex..i])
      decreases |results| - i
    {
      var result := results[i];
      if result.isFinal {
        finalTranscript := finalTranscript + result.transcript + " ";
      }
      FinalSegmentsAppend(results[resultIndex..i], [result]);
      SliceExtend(results, resultIndex, i);
      i := i + 1;
    }
    assert resultIndex <= |results| ==> results[resultIndex..i] == results[resultIndex..];
  }

  // ---------------------------------------------------------------------------
  // Word count: `t.split(' ').filter(word => word.length > 0).length`

  function NonEmptyPieces(parts: seq<string>): (r: seq<string>)
    ensures |r| <= |parts|
  {
    if parts == [] then []
    else (if parts[0] != "" then [parts[0]] else []) + NonEmptyPieces(parts[1..])
  }

  /** The number of words: at most one per character, and none exactly when the text is all spaces. */
  function WordCount(t: string): (c: nat)
    ensures c <= |t|
    ensures c == 0 <==> forall i :: 0 <= i < |t| ==> t[i] == ' '
  {
    WordStartsPieces(t);
    |NonEmptyPieces(SplitOnSpace(t))|
  }

  /** The number of positions where a word starts: a non-space after a space or, if `atStart`, at the beginning. */
  function WordStarts(t: string, atStart: bool): (w: nat)
    ensures w <= |t|
    ensures atStart ==> (w == 0 <==> forall i :: 0 <= i < |t| ==> t[i] == ' ')
  {
    if t == [] then 0
    else
      var w := (if t[0] != ' ' && atStart then 1 else 0) + WordStarts(t[1..], t[0] == ' ');
      assert forall i :: 1 <= i < |t| ==> t[i] == t[1..][i - 1];
      w
  }

  lemma {:induction false} WordStartsPieces(t: string)
    ensures WordStarts(t, true) == |NonEmptyPieces(SplitOnSpace(t))|
    ensures WordStarts(t, false) == |NonEmptyPieces(SplitOnSpace(t)[1..])|
  {
    if t != [] {
      WordStartsPieces(t[1..]);
      var rest := SplitOnSpace(t[1..]);
      var parts := SplitOnSpace(t);
      if t[0] == ' ' {
        assert parts == [""] + rest;
        assert parts[1..] == rest;
      } else {
        assert parts == [[t[0]] + rest[0]] + rest[1..];
        assert parts[1..] == rest[1..];
      }
    }
  }

  /** The word count is the number of maximal runs of characters other than the single space `' '`. */
  lemma WordCountIsWordStarts(t: string)
    ensures WordCount(t) == WordStarts(t, true)
  {
    WordStartsPieces(t);
  }

  /** Only the space character separates words: a non-empty text without one is one word, whatever other whitespace it holds. */
  lemma OnlySpaceSeparates(t: string)
    requires t != [] && ' ' !in t
    ensures WordCount(t) == 1
  {
    SplitNoSpace(t);
    assert NonEmptyPieces([t]) == [t] + NonEmptyPieces([]);
  }

  /** A text with a word in it is not empty. */
  lemma WordsImplyNonEmpty(t: string)
    requires WordCount(t) > 0
    ensures t != []
  {
  }

  // ---------------------------------------------------------------------------
  // Validation when a presentation ends

  datatype ValidationError = MissingToken | EmptyTranscript | TooFewWords(count: nat)

  const MinimumWords: nat := 5

  /**
   * The checks `endPresentation` runs, in order: a token, a non-empty
   * trimmed transcript, at least five words. On success gives the trimmed
   * transcript.
   */
  function Validate(token: Option<string>, transcript: string): (r: Result<string, ValidationError>)
    ensures r == Err(MissingToken) <==> !Truthy(token)
    ensures Truthy(token) && Trim(transcript) == [] ==> r == Err(EmptyTranscript)
    ensures Truthy(token) && Trim(transcript) != [] && WordCount(Trim(transcript)) < MinimumWords ==>
              r == Err(TooFewWords(WordCount(Trim(transcript))))
    ensures r.Ok? ==> r.value == Trim(transcript) && WordCount(r.value) >= MinimumWords
    ensures r.Err? && r.error.TooFewWords? ==>
              Trim(transcript) != [] && r.error.count == WordCount(Trim(transcript)) < MinimumWords
  {
    var clean := Trim(transcript);
    if !Truthy(token) then Err(MissingToken)
    else if |clean| == 0 then Err(EmptyTranscript)
    else
      var wordCount := WordCount(clean);
      if wordCount < MinimumWords then Err(TooFewWords(wordCount))
      else Ok(clean)
  }

  /** Validation passes exactly when there is a token and the trimmed transcript has at least five words. */
  lemma ValidateOkIff(token: Option<string>, transcript: string)
    ensures Validate(token, transcript).Ok? <==> Truthy(token) && WordCount(Trim(transcript)) >= MinimumWords
  {
    if Truthy(token) && WordCount(Trim(transcript)) >= MinimumWords {
      WordsImplyNonEmpty(Trim(transcript));
    }
  }

  /** The empty-transcript rejection happens exactly for a transcript of whitespace only, given a token. */
  lemma ValidateEmptyIff(token: Option<string>, transcript: string)
    requires Truthy(token)
    ensures Validate(token, transcript) == Err(EmptyTranscript) <==> AllWhitespace(transcript)
  {
    TrimEmptyIff(transcript);
  }

  // The rejection banners of `endPresentation`, src/screens/TeamsSimulator.tsx:355, 361 and 368.
  // Each constant reads as the source's single literal; the pieces are joined with `+`.
  const RejectionPrefix: string := "Cannot create conversation: "
  /** The text after the prefix at line 355. */
  const MissingTokenDetail: string :=
    "API token is missing." + " Please check your settings and ensure you have a valid token."
  /** The text after the prefix at line 361. */
  const EmptyTranscriptDetail: string :=
    "No speech" + " was detected during your presentation."
    + " Please ensure your microphone is working and try presenting again."
  /** The text of line 368 before the count. */
  const FewWordsLead: string := RejectionPrefix + "Only "
  /** The text of line 368 after the count. */
  const FewWordsTail: string :=
    " words were detected." + " Please speak more during your presentation to provide enough content for the AI to discuss."

  /**
   * The banner for a rejected transcript. Every one starts with the same
   * prefix; the too-few-words banner spells out the count in decimal.
   */
  function ValidationMessage(e: ValidationError): (m: string)
    ensures |m| > |RejectionPrefix| && m[..|RejectionPrefix|] == RejectionPrefix
    ensures e.TooFewWords? ==>
              |m| == |FewWordsLead| + |NatToString(e.count)| + |FewWordsTail|
              && m[..|FewWordsLead|] == FewWordsLead
              && m[|FewWordsLead|..|FewWordsLead| + |NatToString(e.count)|] == NatToString(e.count)
              && m[|FewWordsLead| + |NatToString(e.count)|..] == FewWordsTail
  {
    if e.TooFewWords? then FewWordsLead + NatToString(e.count) + FewWordsTail
    else if e.MissingToken? then RejectionPrefix + MissingTokenDetail
    else RejectionPrefix + EmptyTranscriptDetail
  }

  /** The letter right after the common prefix tells the three kinds of rejection apart. */
  lemma RejectionInitial(e: ValidationError)
    ensures |ValidationMessage(e)| > |RejectionPrefix|
    ensures ValidationMessage(e)[|RejectionPrefix|] == if e.MissingToken? then 'A' else if e.EmptyTranscript? then 'N' else 'O'
  {
    var m, n := ValidationMessage(e), |RejectionPrefix|;
    if e.TooFewWords? {
      assert m[n] == m[..|FewWordsLead|][n] == FewWordsLead[n] == 'O';
    } else if e.MissingToken? {
      assert MissingTokenDetail[0] == 'A';
    } else {
      assert EmptyTranscriptDetail[0] == 'N';
    }
  }

  /** The too-few-words banner gives the exact count: two counts with the same banner are equal. */
  lemma FewWordsCountInjective(x: nat, y: nat)
    requires ValidationMessage(TooFewWords(x)) == ValidationMessage(TooFewWords(y))
    ensures x == y
  {
    var m := ValidationMessage(TooFewWords(x));
    var dx, dy := NatToString(x), NatToString(y);
    var rest := m[|FewWordsLead|..];
    assert rest == dx + FewWordsTail == dy + FewWordsTail;
    assert FewWordsTail[0] == ' ';
    DigitPrefixOfDigits(dx, FewWordsTail);
    DigitPrefixOfDigits(dy, FewWordsTail);
    assert dx == rest[..|dx|] == dy;
    ParseNatToString(x);
    ParseNatToString(y);
  }

  /** Different rejections give different banners. */
  lemma ValidationMessageInjective(a: ValidationError, b: ValidationError)
    requires ValidationMessage(a) == ValidationMessage(b)
    ensures a == b
  {
    RejectionInitial(a);
    RejectionInitial(b);
    if a.TooFewWords? && b.TooFewWords? {
      FewWordsCountInjective(a.count, b.count);
    }
  }

  // ---------------------------------------------------------------------------
  // Settings written at hand-off

  const HandoffGreeting: string :=
    "Hi! I just listened to your presentation and I'm curious to learn more about it. I have some questions I'd love to ask you about what you shared."

  /** The settings after hand-off: context is the transcript, greeting, persona and replica are overwritten, the rest is kept. */
  function HandoffSettings(s: Settings, cleanTranscript: string): (u: Settings)
    ensures u.context == Some(cleanTranscript) && u.greeting == Some(HandoffGreeting)
    ensures u.persona == Some(DefaultPersona) && u.replica == Some(DefaultReplica)
    ensures u.others == s.others
  {
    s.(context := Some(cleanTranscript), greeting := Some(HandoffGreeting),
       persona := Some(DefaultPersona), replica := Some(DefaultReplica))
  }

  /** The request body sent after hand-off carries the transcript verbatim as context, whatever the settings were before. */
  lemma HandoffPayload(s: Settings, cleanTranscript: string)
    ensures BuildPayload(HandoffSettings(s, cleanTranscript))
            == Payload(DefaultPersona, DefaultReplica, HandoffGreeting, cleanTranscript)
  {
  }

  // ---------------------------------------------------------------------------
  // Question tiers

  const DefaultQuestions: seq<string> := [
    "What inspired you to choose this topic?",
    "Can you tell me more about your main points?",
    "What do you hope people will remember most?"]

  const DetailedQuestions: seq<string> := [
    "I found your presentation really interesting! What's the key takeaway you want people to have?",
    "Can you elaborate on some of the points you made?",
    "What questions do you think your audience might have?"]

  const ComprehensiveQuestions: seq<string> := [
    "That was a comprehensive presentation! Which part are you most passionate about?",
    "I'd love to hear more about the details you shared - what's most important?",
    "What aspects would you like to explore further in our discussion?"]

  /** Which of the three fixed question sets is shown. */
  datatype QuestionTier = Opening | Detailed | Comprehensive

  /** The questions of a tier. */
  function TierQuestions(tier: QuestionTier): (qs: seq<string>)
    ensures |qs| == 3
  {
    match tier
    case Opening => DefaultQuestions
    case Detailed => DetailedQuestions
    case Comprehensive => ComprehensiveQuestions
  }

  /** The tier for a word count, chosen as the source does: start from the first set and replace it above 50 and again above 150. */
  function TierForWordCount(wordCount: nat): (tier: QuestionTier)
    ensures tier == Opening <==> wordCount <= 50
    ensures tier == Detailed <==> 50 < wordCount <= 150
    ensures tier == Comprehensive <==> wordCount > 150
  {
    var tier := Opening;
    var tier := if wordCount > 50 then Detailed else tier;
    var tier := if wordCount > 150 then Comprehensive else tier;
    tier
  }

  /** The question set for a word count: the first set up to 50 words, the second up to 150, the third above. */
  function QuestionsForWordCount(wordCount: nat): (qs: seq<string>)
    ensures |qs| == 3
    ensures qs == DefaultQuestions <==> wordCount <= 50
    ensures qs == DetailedQuestions <==> 50 < wordCount <= 150
    ensures qs == ComprehensiveQuestions <==> wordCount > 150
  {
    assert |DefaultQuestions[0]| < |ComprehensiveQuestions[0]| < |DetailedQuestions[0]|;
    TierQuestions(TierForWordCount(wordCount))
  }

  /** `generateQuestionsFromTranscript`: three questions, chosen by the transcript's word count. */
  function GenerateQuestionsFromTranscript(transcript: string): (qs: seq<string>)
    ensures |qs| == 3
    ensures qs == DefaultQuestions <==> WordCount(transcript) <= 50
    ensures qs == DetailedQuestions <==> 50 < WordCount(transcript) <= 150
    ensures qs == ComprehensiveQuestions <==> WordCount(transcript) > 150
  {
    QuestionsForWordCount(WordCount(transcript))
  }

  /** Two word counts get the same questions exactly when they fall in the same tier; a longer text never gets an earlier tier. */
  lemma QuestionTiers(a: nat, b: nat)
    ensures QuestionsForWordCount(a) == QuestionsForWordCount(b)
            <==> (a <= 50 && b <= 50) || (50 < a <= 150 && 50 < b <= 150) || (a > 150 && b > 150)
    ensures a <= b && QuestionsForWordCount(b) == DefaultQuestions ==> QuestionsForWordCount(a) == DefaultQuestions
    ensures a <= b && QuestionsForWordCount(a) == ComprehensiveQuestions ==> QuestionsForWordCount(b) == ComprehensiveQuestions
  {
  }

  // ---------------------------------------------------------------------------
  // Recognition error messages (the `onerror` handler)

  /** The banner at src/screens/TeamsSimulator.tsx:271. */
  const NotAllowedMessage: string :=
    "Microphone access denied." + " Please allow microphone permissions and try again."
  /** The banner at line 273. */
  const NoSpeechMessage: string :=
    "No speech detected." + " Please speak clearly into your microphone."
  /** The banner at line 275 before and after the error code. */
  const OtherErrorPrefix: string := "Speech recognition error: "
  const OtherErrorSuffix: string := ". Please try again."

  function RecognitionErrorMessage(code: string): (m: string)
    ensures code == "not-allowed" ==> m == NotAllowedMessage
    ensures code == "no-speech" ==> m == NoSpeechMessage
    ensures code != "not-allowed" && code != "no-speech" ==>
              |m| == |OtherErrorPrefix| + |code| + |OtherErrorSuffix|
              && m[..|OtherErrorPrefix|] == OtherErrorPrefix
              && m[|OtherErrorPrefix|..|OtherErrorPrefix| + |code|] == code
              && m[|OtherErrorPrefix| + |code|..] == OtherErrorSuffix
  {
    if code == "not-allowed" then NotAllowedMessage
    else if code == "no-speech" then NoSpeechMessage
    else OtherErrorPrefix + code + OtherErrorSuffix
  }

  /** Different error codes give different messages: the kind of error is always recoverable from the banner. */
  lemma RecognitionErrorMessageInjective(a: string, b: string)
    requires RecognitionErrorMessage(a) == RecognitionErrorMessage(b)
    ensures a == b
  {
    var ma, mb := RecognitionErrorMessage(a), RecognitionErrorMessage(b);
    assert NotAllowedMessage[0] == 'M' && NoSpeechMessage[0] == 'N' && OtherErrorPrefix[0] == 'S';
    if a != "not-allowed" && a != "no-speech" && b != "not-allowed" && b != "no-speech" {
      assert |a| == |b|;
      assert a == ma[|OtherErrorPrefix|..|OtherErrorPrefix| + |a|];
    }
  }

  // ---------------------------------------------------------------------------
  // Duration display

  /** Reads a formatted duration back: minutes times sixty plus the two-digit seconds after the ':'. */
  function ParseDuration(r: string): nat
    requires |r| >= 3 && AllDigits(r[..|r| - 3]) && AllDigits(r[|r| - 2..])
  {
    60 * ParseNat(r[..|r| - 3]) + ParseNat(r[|r| - 2..])
  }

  /** `n.toString().padStart(2, '0')`: at least two digits, exactly two below 100, reading back to `n`. */
  function TwoDigitField(n: nat): (f: string)
    ensures |f| >= 2 && AllDigits(f) && ParseNat(f) == n
    ensures n < 100 ==> |f| == 2
    ensures |f| > 2 ==> f[0] != '0'
  {
    var digits := NatToString(n);
    var f := PadStart(digits, 2, '0');
    ParseNatToString(n);
    ParseNatLeadingZeros(|f| - |digits|, digits);
    TwoDigitsBelowHundred(n);
    f
  }

  /** Two digit fields joined by ':' split back into the minutes before it and the two seconds digits after it. */
  lemma JoinFields(m: string, s: string)
    requires |m| >= 2 && |s| == 2
    ensures var r := m + ":" + s;
      |r| == |m| + 3 && r[|r| - 3] == ':' && r[..|r| - 3] == m && r[|r| - 2..] == s && r[0] == m[0]
  {
    var r := m + ":" + s;
    assert r[..|r| - 3] == m;
    assert r[|r| - 2..] == s;
  }

  /**
   * `formatDuration`: whole minutes and the remaining seconds, each padded
   * with zeros to two digits, joined by ':'. The display loses nothing: the
   * minutes and the seconds below 60 read back to the number of seconds.
   */
  function FormatDuration(seconds: nat): (r: string)
    ensures |r| >= 5 && r[|r| - 3] == ':'
    ensures AllDigits(r[..|r| - 3]) && AllDigits(r[|r| - 2..])
    ensures ParseNat(r[..|r| - 3]) == seconds / 60 && ParseNat(r[|r| - 2..]) == seconds % 60 < 60
    ensures ParseDuration(r) == seconds
    ensures seconds < 6000 ==> |r| == 5
    ensures |r| > 5 ==> r[0] != '0'
  {
    var m := TwoDigitField(seconds / 60);
    var s := TwoDigitField(seconds % 60);
    JoinFields(m, s);
    m + ":" + s
  }
}
