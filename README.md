# Live transcription subtitles: a Dafny model of the transcript handling and the subtitle page

The system captures microphone audio, streams it to a speech-to-text service,
translates each recognised transcript between English and Traditional Chinese,
and pushes `{transcript, translation, is_partial, language_code}` records over a
websocket to a browser page that shows them as two subtitle lines.

This project models the two pieces of sequential logic in it:

- **The backend's transcript handling** (`transcribe.dfy`, module `Transcribe`).
  `HandleTranscriptEvent` walks the results of one transcript event in order. It
  emits one display record per result that has an alternative. For a non-blank
  transcript whose language code is not None it makes one translation request, routed by the fixed
  "en"-prefix pivot (en→zh-TW, otherwise zh-TW→en). The translation service is an
  oracle. For each result, `answers[i]` is what the service would do with that
  result's request: raise, or answer with a response that may lack
  `TranslatedText`. The streaming client `TranscribeClient` keeps its stream in a
  field: `StartStream` opens it with the fixed settings, and `SendAudio` and `Stop`
  do nothing before that.
- **The subtitle page** (`subtitles.dfy`, module `Subtitles`). Each record updates
  the two subtitle elements in place, independently, by the three rules:
  non-blank text is shown; blank text hides the element on a final record; blank
  text leaves it alone on a partial record. The `reconnectInterval` flag
  guarantees that any run of socket closings starts at most one reconnect
  interval, and that an opening clears it.
- `end_to_end.dfy` (module `EndToEnd`) connects the two through the JSON record.
  Python's `strip()` and JavaScript's `trim()` disagree on what is blank, and two
  lemmas show the consequence.
- `text.dfy` gives the two whitespace sets and the trimming both sides use.
  `options.dfy` gives an Option type for Python's None and JavaScript's
  null/undefined.

Each function that specifies an operation is stated on values. The imperative
members are proved against those functions: `HandleTranscriptEvent`,
`TranslateTranscript`, and the `TranscribeClient` and `SubtitlePage` methods. The
lemmas then state what the source promises about the functions.

The code has no partial-result throttling, no pending-translation counter, no
latency tracking and no session state machine. Every non-blank result whose
language code is not None gets exactly one translation attempt, partial or
final. A result without alternatives produces no record at all.

Three edge cases in the code are modelled as written:
- A result whose `language_code` attribute is present but None yields a record
  with a null `language_code`. `None.startswith` raises inside the `try`, so no
  translation request is made and the translation is `''`.
- `stop()` calls `end_stream` again on every call once a stream exists.
- The backend's blank test (`str.isspace`) and the page's (`trim()`) differ.
  U+001C–U+001F and U+0085 count as blank only in Python, and U+FEFF only in
  JavaScript.

## Model

| member | source | states |
|---|---|---|
| Transcribe.HandleTranscriptEvent | backend/transcribe_client.py:25-62 | the records handed to the callback are exactly Emitted(results, answers) and the translation requests are exactly Requested(results), both in result order |
| Transcribe.TranslateTranscript | backend/transcribe_client.py:36-55 | the try block: a request is made exactly as RequestFor says (blank skipped, no language means the call is never reached), and the translation is the response's TranslatedText or '' on exception or missing key |
| Transcribe.EmittedOnePerResult | backend/transcribe_client.py:26-62 | exactly one record per result that has an alternative, in result order; the k-th record is built from the k-th such result, copying its first transcript and its is_partial |
| Transcribe.RequestedOnePerAttempt | backend/transcribe_client.py:27-52 | exactly one translation request per result that attempts translation, in result order, and it is that result's request |
| Transcribe.AttemptIff | backend/transcribe_client.py:28-52 | translation is attempted iff the result has an alternative, its transcript is not blank to Python and its language is not None; the request carries the transcript and two different languages, English as source iff the language starts with "en" ('en' when the attribute is absent) |
| Transcribe.TranslationFallback | backend/transcribe_client.py:37-55 | the record's translation is the TranslatedText of an answered request and '' otherwise (blank transcript, exception, missing key) |
| Transcribe.RequestedIgnoresPartial | backend/transcribe_client.py:30-52 | flipping is_partial on any results changes nothing about the translation requests made |
| Transcribe.Route | backend/transcribe_client.py:41-46 | source and target differ, are {en, zh-TW}, and the source is en iff the detected language starts with "en" |
| Transcribe.RouteReverses | backend/transcribe_client.py:41-46 | routing the chosen target language gives the opposite direction: the pivot is symmetric |
| Transcribe.DefaultStreamMatchesRouting | backend/transcribe_client.py:70-81 | the stream is opened with no fixed language, 16000 Hz, pcm, multi-language identification, high-stability partial stabilisation and candidates en-US and zh-TW, each of which is routed into the other |
| Transcribe.ResolveRegion | backend/transcribe_client.py:66 | a non-empty region argument wins; the region can only end up empty when AWS_REGION is set to '' |
| Transcribe.TranscribeClient.constructor | backend/transcribe_client.py:65-68 | the region is resolved and neither client nor stream exists |
| Transcribe.TranscribeClient.StartStream | backend/transcribe_client.py:70-83 | a client for the region and a stream with the fixed settings, no audio and no end call; the language options default to en-US and zh-TW |
| Transcribe.TranscribeClient.SendAudio | backend/transcribe_client.py:88-90 | without a stream nothing changes; with one, the chunk is appended to its audio events and nothing else changes |
| Transcribe.TranscribeClient.Stop | backend/transcribe_client.py:92-95 | without a stream nothing changes; with one, one more end_stream call is recorded and nothing else changes |
| Text.TrimEmptyIffBlank | backend/transcribe_client.py:38 | strip()/trim() leaves nothing exactly when every character is whitespace of the respective language |
| Text.Trim | frontend/script.js:37 | the trimmed text is the input with a blank prefix and a blank suffix removed, and neither starts nor ends with whitespace |
| Subtitles.SubtitlePage.UpdateSubtitle | frontend/script.js:36-50 | each subtitle element ends as SlotAfter of its own old view, its own field and is_partial; the two are updated independently |
| Subtitles.SlotRules | frontend/script.js:37-42 | non-blank text sets the text and opacity '1'; blank or missing text on a final record sets opacity '0' and keeps the text; on a partial record leaves the element unchanged |
| Subtitles.SlotAfterIdempotent | frontend/script.js:36-50 | applying the same record twice equals applying it once |
| Subtitles.ReplayShowsLatestText | frontend/script.js:37-39 | after any run of records an element shows the text of the last record that had text |
| Subtitles.ReplayKeepsTextWithoutText | frontend/script.js:40-41 | a run of records without text never changes an element's text |
| Subtitles.ReplayVisibleIffLatestDecisiveHasText | frontend/script.js:44-49 | after any run of records an element is visible iff the last record that had text or was final had text |
| Subtitles.ReplayUnchangedWithoutDecisive | frontend/script.js:47-49 | a run of blank partial records leaves an element exactly as it was |
| Subtitles.Element.constructor | frontend/script.js:3-4 | a subtitle element shows the given text and opacity |
| Subtitles.SubtitlePage.constructor | frontend/script.js:1-4 | two distinct subtitle elements, a null reconnect flag and no interval running |
| Subtitles.SubtitlePage.OnOpen | frontend/script.js:9-15 | a pending interval is cleared and the flag reset to null; the flag/interval invariant is kept |
| Subtitles.SubtitlePage.OnClose | frontend/script.js:26-33 | an interval is started, and the flag set, only when none is pending; the invariant is kept |
| Subtitles.EventsKeepOneInterval | frontend/script.js:9-33 | over any sequence of openings and closings at most one reconnect interval runs, and it is the one the flag holds |
| Subtitles.ClosingsScheduleOnce | frontend/script.js:26-33 | a run of consecutive closings has the effect of its first alone, and none at all when an interval is already pending |
| Subtitles.OpenClears | frontend/script.js:11-14 | from a consistent state an opening leaves no interval and a null flag |
| EndToEnd.BlankResultTranslationSlot | frontend/script.js:44-49 | a result blank to Python reaches the page with an empty translation, so the translation element is hidden on a final record and untouched on a partial one |
| EndToEnd.BlankFinalResultHidesBoth | frontend/script.js:36-49 | a final result blank to Python, without the Python-only separators, hides both subtitle elements |
| EndToEnd.NextLineShownUntranslated | backend/transcribe_client.py:38 | a transcript of U+0085 is never sent for translation, yet the page shows it as subtitle text |
| EndToEnd.ByteOrderMarkTranslatedButHidden | frontend/script.js:37-41 | a transcript of U+FEFF is sent for translation, yet the page treats it as blank and hides it on a final record |

## Left out

- backend/main.py is not part of this model. It holds the FastAPI routing, websocket accept/send, the `asyncio.Queue` hand-off from the audio thread, `asyncio.gather` of the two legs and the `is_connected` flag. These are I/O and concurrency. The callback is modelled only as collecting the records in order. It never raises into the handler, because main.py's callback catches its own errors.
- backend/audio_capture.py is not part of this model. The `sounddevice` device lifecycle is a foreign library, and the float32→int16 scaling is floating point.
- The SDK and AWS calls are not modelled: `get_translate_client`, `TranscribeStreamingClient`, `start_stream_transcription`, `handle_events`, `send_audio_event` and `end_stream`. Translation is the per-result answer oracle. The stream is a value recording its settings, the audio events sent and the `end_stream` calls.
- Transcribe.TranscribeClient.StartStream: models the opening of the stream only. The `await asyncio.gather(handler.handle_events())` that follows runs HandleTranscriptEvent once per event, and the event loop itself is not modelled.
- Transcribe.TranscribeClient.SendAudio, Transcribe.TranscribeClient.Stop: what the SDK does with audio sent after `end_stream`, or with a second `end_stream`, is unknown. The model records the calls only.
- The oracle gives one answer per result. Two identical requests may therefore get different answers, as from a real service. Timing and retries are not modelled.
- `result.alternatives` being None is treated like an empty list; both are falsy and take the same branch. A transcript that is not a string (which would raise outside the `try`) is not modelled.
- The page's JSON fields are modelled as present strings/booleans or missing/null. Other JSON types (a numeric transcript, say) are not modelled. `JSON.parse` failures, `console` logging, `ws.onerror` and the WebSocket construction in `connect()` are left out.
- The `setInterval` timing is left out, and so is the interval callback that calls `connect()` every 3000 ms. A closing carries the handle `setInterval` returns, always a positive integer, so the flag's truthiness is its presence.
- Throttling by partial count or elapsed time, pending-translation counting, backlog warnings, latency measurement and session lifecycle states are not modelled. The code has none of them.
