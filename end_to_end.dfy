/**
 * What the page shows for a record the backend emits. The backend sends each record
 * as JSON over the socket and the page parses it back (backend/main.py, frontend/script.js);
 * `language_code` travels along but the page does not read it. The backend tests
 * blankness with Python's `strip()`, the page with JavaScript's `trim()`.
 */
module EndToEnd {
  import opened Options
  import opened Text
  import opened Transcribe
  import opened Subtitles

  /** The record as the page sees it after `send_json` and `JSON.parse`. */
  function ToMessage(rec: DisplayRecord): Message {
    Message(Some(rec.transcript), Some(rec.translation), Some(rec.isPartial))
  }

  /**
   * A result whose transcript is blank to Python gets no translation, so on a final
   * record the page hides the translation slot, and on a partial one leaves it alone.
   */
  lemma BlankResultTranslationSlot(r: TranscriptResult, answer: TranslateAnswer, v: SlotView)
    requires HasAlternatives(r) && IsBlank(r.alternatives[0].transcript, IsPythonSpace)
    ensures !r.isPartial ==> SlotAfter(v, TranslationInput(ToMessage(RecordOf(r, answer)))) == SlotView(v.text, Hidden)
    ensures r.isPartial ==> SlotAfter(v, TranslationInput(ToMessage(RecordOf(r, answer)))) == v
  {
    TranslationFallback(r, answer);
  }

  /** The characters Python's `strip()` removes and JavaScript's `trim()` keeps. */
  predicate IsPythonOnlySpace(c: char) {
    ('\U{1C}' <= c <= '\U{1F}') || c == '\U{85}'
  }

  /**
   * Without the separators U+001C-U+001F and NEL, a transcript blank to Python is blank
   * to the page as well, so a final result of that kind hides both slots.
   */
  lemma BlankFinalResultHidesBoth(r: TranscriptResult, answer: TranslateAnswer, original: SlotView, translation: SlotView)
    requires HasAlternatives(r) && !r.isPartial
    requires IsBlank(r.alternatives[0].transcript, IsPythonSpace)
    requires forall i :: 0 <= i < |r.alternatives[0].transcript| ==> !IsPythonOnlySpace(r.alternatives[0].transcript[i])
    ensures SlotAfter(original, OriginalInput(ToMessage(RecordOf(r, answer)))) == SlotView(original.text, Hidden)
    ensures SlotAfter(translation, TranslationInput(ToMessage(RecordOf(r, answer)))) == SlotView(translation.text, Hidden)
  {
    var t := r.alternatives[0].transcript;
    assert IsBlank(t, IsJsSpace) by {
      forall i | 0 <= i < |t| ensures IsJsSpace(t[i]) {
        assert IsPythonSpace(t[i]) && !IsPythonOnlySpace(t[i]);
      }
    }
    BlankResultTranslationSlot(r, answer, translation);
  }

  /**
   * The two blank tests disagree, one way: a final transcript consisting of NEL
   * (U+0085) is blank to the backend, which sends no translation request, yet the
   * page shows it as the subtitle text.
   */
  lemma NextLineShownUntranslated(v: SlotView, answer: TranslateAnswer)
    ensures var r := TranscriptResult([Alternative("\U{85}")], false, Code("en-US"));
      && !Attempts(r)
      && SlotAfter(v, OriginalInput(ToMessage(RecordOf(r, answer)))) == SlotView("\U{85}", Shown)
  {
    var nel: string := "\U{85}";
    assert IsBlank(nel, IsPythonSpace);
    assert !IsJsSpace(nel[0]);
    var r := TranscriptResult([Alternative(nel)], false, Code("en-US"));
    assert RequestOf(r) == None by {
      assert RequestOf(r) == RequestFor(nel, Some("en-US"));
    }
    assert OriginalInput(ToMessage(RecordOf(r, answer))) == SlotInput(Some(nel), Some(false));
    assert HasText(Some(nel));
  }

  /**
   * And the other way: a transcript consisting of a byte-order mark (U+FEFF) is sent
   * for translation, yet on a final record the page treats it as blank and hides it.
   */
  lemma ByteOrderMarkTranslatedButHidden(v: SlotView, answer: TranslateAnswer)
    ensures var r := TranscriptResult([Alternative("\U{FEFF}")], false, Code("en-US"));
      && Attempts(r)
      && SlotAfter(v, OriginalInput(ToMessage(RecordOf(r, answer)))) == SlotView(v.text, Hidden)
  {
    var bom: string := "\U{FEFF}";
    assert !IsPythonSpace(bom[0]);
    assert IsBlank(bom, IsJsSpace);
    var r := TranscriptResult([Alternative(bom)], false, Code("en-US"));
    assert RequestOf(r).Some? by {
      assert RequestOf(r) == RequestFor(bom, Some("en-US"));
    }
    assert OriginalInput(ToMessage(RecordOf(r, answer))) == SlotInput(Some(bom), Some(false));
    assert !HasText(Some(bom));
  }
}
