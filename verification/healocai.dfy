/** The assistant screen (components/HealocAI.tsx): the symptom checker that
    accumulates a streamed reply and records it in the active profile's
    history, voice input, and the medicine scanner. */
module HealocAI {
  import opened Types
  import opened JsStrings
  import opened ProfileTree

  /** A streamed reply: the chunks it delivers in order, and whether it then
      raises (when the request is made, or part-way) instead of ending. */
  datatype ReplyStream = ReplyStream(chunks: seq<string>, fails: bool)

  const AnalysisErrorText := "An error occurred. Please try again."
  const IdentifyErrorText := "An error occurred during identification. Please try again."

  /** The chunks' texts one after the other. */
  function Concat(chunks: seq<string>): string
  {
    if chunks == [] then "" else Concat(chunks[..|chunks| - 1]) + chunks[|chunks| - 1]
  }

  /** Concatenation is in order and splits at any point: the text of two
      runs of chunks is the text of the first followed by that of the second. */
  lemma {:induction false} ConcatAppend(a: seq<string>, b: seq<string>)
    ensures Concat(a + b) == Concat(a) + Concat(b)
  {
    if b == [] {
      assert a + b == a;
    } else {
      assert (a + b)[..|a + b| - 1] == a + b[..|b| - 1];
      ConcatAppend(a, b[..|b| - 1]);
    }
  }

  /** The text of one chunk is that chunk. */
  lemma ConcatSingle(c: string)
    ensures Concat([c]) == c
  {
    assert [c][..0] == [];
  }

  /** What a run leaves in `finalResult`: every chunk's text in order, or on
      any error the fixed error text, the chunks received so far dropped. */
  function FinalResult(s: ReplyStream): string
  {
    if s.fails then AnalysisErrorText else Concat(s.chunks)
  }

  /** How the result grows with the stream: a failed run shows the error text
      whatever arrived before the failure; a successful run of one chunk
      shows that chunk, and one more chunk adds its text at the end. */
  lemma FinalResultCases(chunks: seq<string>, received: seq<string>, c: string)
    ensures FinalResult(ReplyStream(received, true)) == FinalResult(ReplyStream(chunks, true)) == AnalysisErrorText
    ensures FinalResult(ReplyStream([c], false)) == c
    ensures FinalResult(ReplyStream(chunks + [c], false)) == FinalResult(ReplyStream(chunks, false)) + c
  {
    ConcatSingle(c);
    ConcatAppend(chunks, [c]);
  }

  /** Recording an analysis for the active profile: afterwards the active id
      resolves to the same profile with the analysis first in its history and
      every other part, including the older analyses in their order, kept. */
  lemma AnalysisRecordedFirst(u: UserProfile, activeId: string, p: HealthProfile, a: SymptomAnalysis)
    requires Resolve(u, Some(activeId)) == Some(p)
    ensures
      var q := Apply(p, AddAnalysis(a));
      && Resolve(UpdateActive(u, activeId, AddAnalysis(a)), Some(activeId)) == Some(q)
      && SameExcept(p, q, HistoryPart)
      && PrependedFirst(p.symptomHistory, q.symptomHistory, a)
  {
    ResolveAfterUpdate(u, activeId, AddAnalysis(a), p);
    AddedEntryPlacement(p, AddAnalysis(a));
  }

  /** The speech recogniser's `onerror` classes. */
  datatype SpeechFailure = NetworkFailure | MicrophoneDenied | NoSpeech | AudioCaptureFailed | UnknownFailure

  /** `event.error` to its class: "network"; "not-allowed" and
      "service-not-allowed" together; "no-speech"; "audio-capture"; anything
      else is unknown. */
  function ClassifySpeechError(code: string): (e: SpeechFailure)
    ensures e == NetworkFailure <==> code == "network"
    ensures e == MicrophoneDenied <==> code == "not-allowed" || code == "service-not-allowed"
    ensures e == NoSpeech <==> code == "no-speech"
    ensures e == AudioCaptureFailed <==> code == "audio-capture"
  {
    match code
    case "network" => NetworkFailure
    case "not-allowed" => MicrophoneDenied
    case "service-not-allowed" => MicrophoneDenied
    case "no-speech" => NoSpeech
    case "audio-capture" => AudioCaptureFailed
    case _ => UnknownFailure
  }

  /** The message for each class; the five messages differ from one another,
      already in their lengths. */
  function SpeechErrorMessage(e: SpeechFailure): (m: string)
    ensures |m| == SpeechMessageLength(e)
  {
    match e
    case NetworkFailure => "Network error. Please check your internet connection and try again."
    case MicrophoneDenied => "Microphone access denied. Please enable it in your browser settings."
    case NoSpeech => "No speech detected. Please try again."
    case AudioCaptureFailed => "Could not capture audio. Please check your microphone."
    case UnknownFailure => "An unknown error occurred with speech recognition."
  }

  /** The length of each class's message. */
  function SpeechMessageLength(e: SpeechFailure): nat
  {
    match e
    case NetworkFailure => 67
    case MicrophoneDenied => 68
    case NoSpeech => 37
    case AudioCaptureFailed => 54
    case UnknownFailure => 50
  }

  /** Two different classes never show the same message. */
  lemma SpeechErrorMessagesDistinct(e1: SpeechFailure, e2: SpeechFailure)
    requires e1 != e2
    ensures SpeechErrorMessage(e1) != SpeechErrorMessage(e2)
  {
    assert |SpeechErrorMessage(e1)| != |SpeechErrorMessage(e2)|;
  }

  /** `onresult`'s join: the transcript replaces an empty input, or follows a
      non-empty one after exactly one space. */
  function WithTranscript(input: string, transcript: string): (r: string)
    ensures input <= r
    ensures |r| == |input| + |transcript| + (if input == "" then 0 else 1)
    ensures r[|r| - |transcript|..] == transcript
    ensures input != "" ==> r[|input|] == ' '
  {
    if input != "" then input + " " + transcript else transcript
  }

  /** The two tabs of the screen. */
  datatype Mode = SymptomMode | MedicineMode

  /** The screen's own state. Files are represented by their names. */
  class Assistant {
    var activeMode: Mode
    var symptomInput: string
    var symptomResult: string
    var isStreaming: bool
    var isListening: bool
    var symptomImage: Option<string>
    var speechError: string
    var medicineImage: Option<string>
    var medicineResult: string
    var isIdentifying: bool
    var viewingHistory: Option<SymptomAnalysis>

    constructor ()
      ensures activeMode == SymptomMode
      ensures symptomInput == "" && symptomResult == "" && !isStreaming && !isListening
      ensures symptomImage == None && speechError == ""
      ensures medicineImage == None && medicineResult == "" && !isIdentifying
      ensures viewingHistory == None
    {
      activeMode := SymptomMode;
      symptomInput := "";
      symptomResult := "";
      isStreaming := false;
      isListening := false;
      symptomImage := None;
      speechError := "";
      medicineImage := None;
      medicineResult := "";
      isIdentifying := false;
      viewingHistory := None;
    }

    /** `handleSymptomCheck`. A blank input or a run in progress makes it a
        no-op. Otherwise the reply's chunks are accumulated, both into the
        result shown and into the final result; an error replaces both with
        the error text. Then streaming stops, the analysis (the raw input,
        whether an image was attached, the final result) is put first in the
        active profile's history, and the attached image is dropped. */
    method SymptomCheck(reply: ReplyStream, user: UserProfile, activeId: string, stamp: string, now: string)
      returns (recorded: bool, user': UserProfile)
      modifies this`isStreaming, this`symptomResult, this`symptomImage
      ensures recorded == (!Blank(old(symptomInput)) && !old(isStreaming))
      ensures !recorded ==>
        user' == user && isStreaming == old(isStreaming)
        && symptomResult == old(symptomResult) && symptomImage == old(symptomImage)
      ensures recorded ==>
        && !isStreaming && symptomImage == None
        && symptomResult == FinalResult(reply)
        && user' == UpdateActive(user, activeId, AddAnalysis(
             SymptomAnalysis("sh_" + stamp, now, symptomInput, old(symptomImage).Some?, FinalResult(reply))))
    {
      var input := symptomInput;
      TrimEmptyIff(input);
      var blank := Trim(input) == "";
      user' := user;
      if blank || isStreaming {
        return false, user';
      }
      recorded := true;
      isStreaming := true;
      var finalResult := ReadStream(reply.chunks);
      if reply.fails {
        finalResult := AnalysisErrorText;
        symptomResult := finalResult;
      }
      assert finalResult == FinalResult(reply);
      isStreaming := false;
      var analysis := SymptomAnalysis("sh_" + stamp, now, input, symptomImage.Some?, finalResult);
      user' := UpdateActive(user, activeId, AddAnalysis(analysis));
      symptomImage := None;
    }

    /** The `for await` loop: starting from an empty result, each chunk is
        appended both to the result shown and to the returned final result. */
    method ReadStream(chunks: seq<string>) returns (finalResult: string)
      modifies this`symptomResult
      ensures finalResult == Concat(chunks) && symptomResult == finalResult
    {
      symptomResult := "";
      finalResult := "";
      var i := 0;
      while i < |chunks|
        invariant 0 <= i <= |chunks|
        invariant finalResult == Concat(chunks[..i])
        invariant symptomResult == finalResult
      {
        var text := chunks[i];
        ConcatAppend(chunks[..i], [text]);
        ConcatSingle(text);
        assert chunks[..i + 1] == chunks[..i] + [text];
        finalResult := finalResult + text;
        symptomResult := symptomResult + text;
        i := i + 1;
      }
      assert chunks[..i] == chunks;
    }

    /** The text area's `onChange`: the new input, and any speech error is
        cleared. */
    method EditInput(text: string)
      modifies this`symptomInput, this`speechError
      ensures symptomInput == text && speechError == ""
    {
      symptomInput := text;
      speechError := "";
    }

    /** `handleViewHistory`: shows a past analysis. */
    method ViewHistory(a: SymptomAnalysis)
      modifies this`viewingHistory, this`symptomInput, this`symptomResult, this`symptomImage
      ensures viewingHistory == Some(a) && symptomInput == a.symptoms && symptomResult == a.result
      ensures symptomImage == None
    {
      viewingHistory := Some(a);
      symptomInput := a.symptoms;
      symptomResult := a.result;
      symptomImage := None;
    }

    /** `handleStartNewAnalysis`: clears the viewed analysis, input, result
        and image. */
    method StartNewAnalysis()
      modifies this`viewingHistory, this`symptomInput, this`symptomResult, this`symptomImage
      ensures viewingHistory == None && symptomInput == "" && symptomResult == "" && symptomImage == None
    {
      viewingHistory := None;
      symptomInput := "";
      symptomResult := "";
      symptomImage := None;
    }

    /** `handleToggleListening`: clears the speech error; without a
        recogniser nothing else happens, otherwise listening flips. */
    method ToggleListening(recogniserAvailable: bool)
      modifies this`speechError, this`isListening
      ensures speechError == ""
      ensures isListening == (if recogniserAvailable then !old(isListening) else old(isListening))
    {
      speechError := "";
      if !recogniserAvailable {
        return;
      }
      isListening := !isListening;
    }

    /** The recogniser's `onresult`: the transcript joins the input. */
    method OnSpeechResult(transcript: string)
      modifies this`symptomInput, this`isListening
      ensures symptomInput == WithTranscript(old(symptomInput), transcript) && !isListening
    {
      symptomInput := WithTranscript(symptomInput, transcript);
      isListening := false;
    }

    /** The recogniser's `onerror`: the message for the error's class. */
    method OnSpeechError(code: string)
      modifies this`speechError, this`isListening
      ensures speechError == SpeechErrorMessage(ClassifySpeechError(code)) && !isListening
    {
      speechError := SpeechErrorMessage(ClassifySpeechError(code));
      isListening := false;
    }

    /** The tab buttons. */
    method SetMode(m: Mode)
      modifies this`activeMode
      ensures activeMode == m
    {
      activeMode := m;
    }

    /** `handleImageChange`: no file selected changes nothing; a file for the
        symptom checker is attached to the next analysis; a file for the
        medicine scanner replaces its image and clears its previous result. */
    method AttachImage(file: Option<string>, forSymptom: bool)
      modifies this`symptomImage, this`medicineImage, this`medicineResult
      ensures file.None? ==>
        symptomImage == old(symptomImage) && medicineImage == old(medicineImage) && medicineResult == old(medicineResult)
      ensures file.Some? && forSymptom ==>
        symptomImage == file && medicineImage == old(medicineImage) && medicineResult == old(medicineResult)
      ensures file.Some? && !forSymptom ==>
        medicineImage == file && medicineResult == "" && symptomImage == old(symptomImage)
    {
      if file.None? {
        return;
      }
      if forSymptom {
        symptomImage := file;
      } else {
        medicineImage := file;
        medicineResult := "";
      }
    }

    /** The "(remove)" link next to an attached symptom image. */
    method DetachSymptomImage()
      modifies this`symptomImage
      ensures symptomImage == None
    {
      symptomImage := None;
    }

    /** `handleIdentifyMedicine`, with the service's reply as a parameter
        (`None` when it raised). No image, or an identification in progress,
        makes it a no-op; otherwise the reply, or the error text, becomes the
        result. */
    method IdentifyMedicine(reply: Option<string>) returns (ran: bool)
      modifies this`medicineResult, this`isIdentifying
      ensures ran == (old(medicineImage).Some? && !old(isIdentifying))
      ensures !ran ==> medicineResult == old(medicineResult) && isIdentifying == old(isIdentifying)
      ensures ran ==>
        !isIdentifying && medicineResult == (if reply.Some? then reply.value else IdentifyErrorText)
    {
      if medicineImage.None? || isIdentifying {
        return false;
      }
      ran := true;
      isIdentifying := true;
      medicineResult := "";
      if reply.Some? {
        medicineResult := reply.value;
      } else {
        medicineResult := IdentifyErrorText;
      }
      isIdentifying := false;
    }

    /** `resetMedicineScanner`. */
    method ResetMedicineScanner()
      modifies this`medicineImage, this`medicineResult
      ensures medicineImage == None && medicineResult == ""
    {
      medicineImage := None;
      medicineResult := "";
    }
  }
}
