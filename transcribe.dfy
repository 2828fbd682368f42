/**
 * The backend's transcription side (backend/transcribe_client.py): how one
 * transcript event from the speech-to-text stream becomes display records,
 * with the translation service as an oracle, and the streaming client's
 * start / send / stop guards.
 */
module Transcribe {
  import opened Options
  import opened Text

  // ---------------------------------------------------------------------------
  // Data
  // ---------------------------------------------------------------------------

  datatype Alternative = Alternative(transcript: string)

  /** How a result carries its `language_code` attribute: not at all, as None, or as a code. */
  datatype LanguageAttribute = NoAttribute | NullCode | Code(code: string)

  datatype TranscriptResult = TranscriptResult(
    alternatives: seq<Alternative>,
    isPartial: bool,
    languageCode: LanguageAttribute)

  /** The arguments of one `translate_text` call. */
  datatype TranslationRequest = TranslationRequest(text: string, sourceLanguageCode: string, targetLanguageCode: string)

  /** What the translation service does with a request: raise, or answer with a response that may lack `TranslatedText`. */
  datatype TranslateAnswer = Raises | Response(translatedText: Option<string>)

  /** The dictionary handed to the callback; `languageCode == None` is Python's None. */
  datatype DisplayRecord = DisplayRecord(transcript: string, translation: string, isPartial: bool, languageCode: Option<string>)

  datatype LanguagePair = LanguagePair(source: string, target: string)

  const English := "en"
  const TraditionalChinese := "zh-TW"

  // ---------------------------------------------------------------------------
  // One result
  // ---------------------------------------------------------------------------

  /** `if result.alternatives:` */
  predicate HasAlternatives(r: TranscriptResult) {
    |r.alternatives| > 0
  }

  /** The language the handler works with: 'en' unless the result has a `language_code` attribute. */
  function DetectedLanguage(r: TranscriptResult): Option<string> {
    match r.languageCode
    case NoAttribute => Some(English)
    case NullCode => None
    case Code(c) => Some(c)
  }

  /**
   * The fixed two-way pivot: a detected language starting with "en" is translated
   * into Traditional Chinese, anything else from Traditional Chinese into English.
   */
  function Route(detected: string): (p: LanguagePair)
    ensures p.source != p.target
    ensures {p.source, p.target} == {English, TraditionalChinese}
    ensures p.source == English <==> StartsWith(detected, English)
  {
    if StartsWith(detected, English) then LanguagePair(English, TraditionalChinese)
    else LanguagePair(TraditionalChinese, English)
  }

  /**
   * The request the try block sends, if it gets as far as `translate_text`: none for a
   * blank transcript, and none when the language is None, since `None.startswith`
   * raises before the call and the handler catches it.
   */
  function RequestFor(transcript: string, detected: Option<string>): Option<TranslationRequest> {
    if IsBlank(transcript, IsPythonSpace) then None
    else match detected
      case None => None
      case Some(lang) =>
        var p := Route(lang);
        Some(TranslationRequest(transcript, p.source, p.target))
  }

  /** The `translation` field: the answer's `TranslatedText` when a request was made and answered, '' otherwise. */
  function TranslationFor(request: Option<TranslationRequest>, answer: TranslateAnswer): string {
    if request.None? then ""
    else match answer
      case Raises => ""
      case Response(t) => t.GetOr("")
  }

  function RequestOf(r: TranscriptResult): Option<TranslationRequest>
    requires HasAlternatives(r)
  {
    RequestFor(r.alternatives[0].transcript, DetectedLanguage(r))
  }

  /** The result makes the handler call `translate_text`. */
  predicate Attempts(r: TranscriptResult) {
    HasAlternatives(r) && RequestOf(r).Some?
  }

  function RecordOf(r: TranscriptResult, answer: TranslateAnswer): DisplayRecord
    requires HasAlternatives(r)
  {
    DisplayRecord(r.alternatives[0].transcript, TranslationFor(RequestOf(r), answer), r.isPartial, DetectedLanguage(r))
  }

  // ---------------------------------------------------------------------------
  // One event: the results in order, answers[i] being what the service answers
  // if results[i] asks it
  // ---------------------------------------------------------------------------

  function Emitted(results: seq<TranscriptResult>, answers: seq<TranslateAnswer>): seq<DisplayRecord>
    requires |answers| == |results|
  {
    if results == [] then []
    else
      var n := |results| - 1;
      Emitted(results[..n], answers[..n]) + (if HasAlternatives(results[n]) then [RecordOf(results[n], answers[n])] else [])
  }

  function Requested(results: seq<TranscriptResult>): seq<TranslationRequest> {
    if results == [] then []
    else
      var n := |results| - 1;
      Requested(results[..n]) + (if Attempts(results[n]) then [RequestOf(results[n]).value] else [])
  }

  /** The positions of the results that satisfy `p`, in increasing order, and all of them. */
  function IndicesWhere(results: seq<TranscriptResult>, p: TranscriptResult -> bool): (ix: seq<nat>)
    ensures forall k :: 0 <= k < |ix| ==> ix[k] < |results| && p(results[ix[k]])
    ensures forall k, l :: 0 <= k < l < |ix| ==> ix[k] < ix[l]
    ensures forall i :: 0 <= i < |results| && p(results[i]) ==> i in ix
  {
    if results == [] then []
    else
      var n := |results| - 1;
      IndicesWhere(results[..n], p) + (if p(results[n]) then [n] else [])
  }

  /**
   * The translation step of `handle_transcript_event` for one transcript: skipped when
   * blank; otherwise the language pair is chosen and the service called, and any
   * exception (including `None.startswith`) or a response without `TranslatedText`
   * leaves the translation ''.
   */
  method TranslateTranscript(transcript: string, detected: Option<string>, answer: TranslateAnswer)
    returns (translation: string, request: Option<TranslationRequest>)
    ensures request == RequestFor(transcript, detected)
    ensures translation == TranslationFor(request, answer)
  {
    translation, request := "", None;
    TrimEmptyIffBlank(transcript, IsPythonSpace);
    if Trim(transcript, IsPythonSpace) != [] {
      if detected.Some? {
        var source, target;
        if StartsWith(detected.value, English) {
          source, target := English, TraditionalChinese;
        } else {
          source, target := TraditionalChinese, English;
        }
        request := Some(TranslationRequest(transcript, source, target));
        match answer
        case Raises =>
        case Response(t) => translation := t.GetOr("");
      }
    }
  }

  /**
   * `handle_transcript_event`: walks the results in order and hands one record per
   * result with an alternative to the callback (collected in `records`), calling the
   * translation service (collected in `requests`) for each non-blank transcript.
   */
  method HandleTranscriptEvent(results: seq<TranscriptResult>, answers: seq<TranslateAnswer>)
    returns (records: seq<DisplayRecord>, requests: seq<TranslationRequest>)
    requires |answers| == |results|
    ensures records == Emitted(results, answers)
    ensures requests == Requested(results)
  {
    records, requests := [], [];
    var i := 0;
    while i < |results|
      invariant 0 <= i <= |results|
      invariant records == Emitted(results[..i], answers[..i])
      invariant requests == Requested(results[..i])
    {
      var result := results[i];
      assert Emitted(results[..i + 1], answers[..i + 1]) == Emitted(results[..i], answers[..i]) +
        (if HasAlternatives(result) then [RecordOf(result, answers[i])] else []) by {
        assert results[..i + 1][..i] == results[..i];
        assert answers[..i + 1][..i] == answers[..i];
      }
      assert Requested(results[..i + 1]) == Requested(results[..i]) +
        (if Attempts(result) then [RequestOf(result).value] else []) by {
        assert results[..i + 1][..i] == results[..i];
      }
      if |result.alternatives| > 0 {
        var transcript := result.alternatives[0].transcript;
        var isPartial := result.isPartial;
        var detected: Option<string> := Some(English);
        if !result.languageCode.NoAttribute? {
          detected := if result.languageCode.Code? then Some(result.languageCode.code) else None;
        }
        var translation, request := TranslateTranscript(transcript, detected, answers[i]);
        if request.Some? {
          requests := requests + [request.value];
        }
        assert detected == DetectedLanguage(result);
        assert translation == TranslationFor(RequestOf(result), answers[i]);
        records := records + [DisplayRecord(transcript, translation, isPartial, detected)];
      }
      i := i + 1;
    }
    assert results[..i] == results;
    assert answers[..i] == answers;
  }

  // ---------------------------------------------------------------------------
  // Properties of the event handling
  // ---------------------------------------------------------------------------

  /**
   * Exactly one record per result that has an alternative, in the order of the
   * results: the k-th record belongs to the k-th such result, copies its first
   * transcript and its `is_partial`, and carries its detected language.
   */
  lemma {:induction false} EmittedOnePerResult(results: seq<TranscriptResult>, answers: seq<TranslateAnswer>)
    requires |answers| == |results|
    ensures var ix := IndicesWhere(results, HasAlternatives);
      && |Emitted(results, answers)| == |ix|
      && forall k :: 0 <= k < |ix| ==>
           && Emitted(results, answers)[k] == RecordOf(results[ix[k]], answers[ix[k]])
           && Emitted(results, answers)[k].transcript == results[ix[k]].alternatives[0].transcript
           && Emitted(results, answers)[k].isPartial == results[ix[k]].isPartial
  {
    if results != [] {
      var n := |results| - 1;
      EmittedOnePerResult(results[..n], answers[..n]);
      var ix := IndicesWhere(results[..n], HasAlternatives);
      var tail := if HasAlternatives(results[n]) then [RecordOf(results[n], answers[n])] else [];
      assert Emitted(results, answers) == Emitted(results[..n], answers[..n]) + tail;
      assert IndicesWhere(results, HasAlternatives) == ix + (if HasAlternatives(results[n]) then [n] else []);
      forall k | 0 <= k < |ix| ensures ix[k] < n && results[ix[k]] == results[..n][ix[k]] && answers[ix[k]] == answers[..n][ix[k]] {
      }
    }
  }

  /** Exactly one translation request per result that attempts one, in the order of the results. */
  lemma {:induction false} RequestedOnePerAttempt(results: seq<TranscriptResult>)
    ensures var ix := IndicesWhere(results, Attempts);
      && |Requested(results)| == |ix|
      && forall k :: 0 <= k < |ix| ==> Requested(results)[k] == RequestOf(results[ix[k]]).value
  {
    if results != [] {
      var n := |results| - 1;
      RequestedOnePerAttempt(results[..n]);
      var ix := IndicesWhere(results[..n], Attempts);
      var tail := if Attempts(results[n]) then [RequestOf(results[n]).value] else [];
      assert Requested(results) == Requested(results[..n]) + tail;
      assert IndicesWhere(results, Attempts) == ix + (if Attempts(results[n]) then [n] else []);
      forall k | 0 <= k < |ix| ensures ix[k] < n && results[ix[k]] == results[..n][ix[k]] {
      }
    }
  }

  /**
   * The handler calls the translation service for a result exactly when it has an
   * alternative whose transcript is not blank (and its language is not None); the
   * request carries that transcript and a pair of two different languages chosen
   * from the "en" prefix.
   */
  lemma AttemptIff(r: TranscriptResult)
    ensures Attempts(r) <==>
      HasAlternatives(r) && !IsBlank(r.alternatives[0].transcript, IsPythonSpace) && !r.languageCode.NullCode?
    ensures Attempts(r) ==>
      var req := RequestOf(r).value;
      var lang := if r.languageCode.Code? then r.languageCode.code else English;
      && req.text == r.alternatives[0].transcript
      && req.sourceLanguageCode != req.targetLanguageCode
      && (req.sourceLanguageCode == English <==> StartsWith(lang, English))
  {
  }

  /**
   * The record's translation is the service's `TranslatedText` when the result made a
   * request and the service answered with one; in every other case (blank transcript,
   * exception, response without the key) it is ''.
   */
  lemma TranslationFallback(r: TranscriptResult, answer: TranslateAnswer)
    requires HasAlternatives(r)
    ensures RecordOf(r, answer).translation ==
      if Attempts(r) && answer.Response? && answer.translatedText.Some? then answer.translatedText.value else ""
    ensures IsBlank(r.alternatives[0].transcript, IsPythonSpace) ==> !Attempts(r) && RecordOf(r, answer).translation == ""
  {
  }

  /** Whether and what the handler asks the translation service never depends on `is_partial`. */
  lemma {:induction false} RequestedIgnoresPartial(results: seq<TranscriptResult>, flipped: seq<TranscriptResult>)
    requires |flipped| == |results|
    requires forall i :: 0 <= i < |results| ==> flipped[i] == results[i].(isPartial := flipped[i].isPartial)
    ensures Requested(flipped) == Requested(results)
  {
    if results != [] {
      var n := |results| - 1;
      RequestedIgnoresPartial(results[..n], flipped[..n]);
      assert flipped[n].alternatives == results[n].alternatives;
      assert flipped[n].languageCode == results[n].languageCode;
      assert Attempts(flipped[n]) == Attempts(results[n]);
    }
  }

  /** Routing the target language again gives the opposite direction: the pivot is symmetric. */
  lemma RouteReverses(detected: string)
    ensures Route(Route(detected).target) == LanguagePair(Route(detected).target, Route(detected).source)
  {
    assert StartsWith(English, English);
    assert !StartsWith(TraditionalChinese, English) by {
      assert TraditionalChinese[..2][0] == 'z';
    }
  }

  // ---------------------------------------------------------------------------
  // The streaming client
  // ---------------------------------------------------------------------------

  /** The keyword arguments `start_stream` passes to `start_stream_transcription`. */
  datatype StreamConfig = StreamConfig(
    languageCode: Option<string>,
    mediaSampleRateHz: nat,
    mediaEncoding: string,
    identifyMultipleLanguages: bool,
    languageOptions: seq<string>,
    enablePartialResultsStabilization: bool,
    partialResultsStability: string)

  const DefaultLanguageOptions: seq<string> := ["en-US", "zh-TW"]

  function StreamParams(languageOptions: seq<string>): StreamConfig {
    StreamConfig(None, 16000, "pcm", true, languageOptions, true, "high")
  }

  /**
   * The stream is opened with the fixed settings, and each of the two default
   * candidate languages is routed, when detected, into the other one.
   */
  lemma DefaultStreamMatchesRouting()
    ensures var c := StreamParams(DefaultLanguageOptions);
      && c.languageCode == None && c.mediaSampleRateHz == 16000 && c.mediaEncoding == "pcm"
      && c.identifyMultipleLanguages && c.enablePartialResultsStabilization && c.partialResultsStability == "high"
      && |c.languageOptions| == 2
      && forall i :: 0 <= i < 2 ==>
           && StartsWith(c.languageOptions[i], Route(c.languageOptions[i]).source)
           && StartsWith(c.languageOptions[1 - i], Route(c.languageOptions[i]).target)
  {
    assert StartsWith("en-US", English);
    assert !StartsWith(TraditionalChinese, English) by {
      assert TraditionalChinese[..2][0] == 'z';
    }
    assert StartsWith("zh-TW", TraditionalChinese);
  }

  /** The region chosen in `__init__`: the argument unless it is None or '', then AWS_REGION, then 'us-east-1'. */
  function ResolveRegion(region: Option<string>, envRegion: Option<string>): (r: string)
    ensures region.Some? && region.value != "" ==> r == region.value
    ensures r == "" ==> envRegion == Some("")
  {
    if region.Some? && region.value != "" then region.value else envRegion.GetOr("us-east-1")
  }

  /** The SDK's streaming client, known here only by its region. */
  datatype StreamingClient = StreamingClient(region: string)

  /** An open transcription stream: its settings, the audio events sent on it and the `end_stream` calls made. */
  datatype AudioStream = AudioStream(config: StreamConfig, audioEvents: seq<seq<bv8>>, endStreamCalls: nat)

  class TranscribeClient {
    var region: string
    var client: Option<StreamingClient>
    var stream: Option<AudioStream>

    constructor (region: Option<string>, envRegion: Option<string>)
      ensures this.region == ResolveRegion(region, envRegion)
      ensures client == None && stream == None
    {
      this.region := ResolveRegion(region, envRegion);
      client := None;
      stream := None;
    }

    /** Opens the stream with the fixed settings; the result handling that follows is HandleTranscriptEvent. */
    method StartStream(languageOptions: seq<string> := DefaultLanguageOptions)
      modifies this
      ensures region == old(region)
      ensures client == Some(StreamingClient(region))
      ensures stream == Some(AudioStream(StreamParams(languageOptions), [], 0))
    {
      client := Some(StreamingClient(region));
      stream := Some(AudioStream(StreamParams(languageOptions), [], 0));
    }

    /** Forwards one chunk when a stream exists; does nothing before `start_stream`. */
    method SendAudio(chunk: seq<bv8>)
      modifies this
      ensures region == old(region) && client == old(client)
      ensures old(stream).None? ==> stream == None
      ensures old(stream).Some? ==>
        stream == Some(old(stream).value.(audioEvents := old(stream).value.audioEvents + [chunk]))
    {
      if stream.Some? {
        stream := Some(stream.value.(audioEvents := stream.value.audioEvents + [chunk]));
      }
    }

    /** Ends the stream when one exists; does nothing before `start_stream`. Each call on a stream ends it again. */
    method Stop()
      modifies this
      ensures region == old(region) && client == old(client)
      ensures old(stream).None? ==> stream == None
      ensures old(stream).Some? ==>
        stream == Some(old(stream).value.(endStreamCalls := old(stream).value.endStreamCalls + 1))
    {
      if stream.Some? {
        stream := Some(stream.value.(endStreamCalls := stream.value.endStreamCalls + 1));
      }
    }
  }
}
