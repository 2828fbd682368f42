/**
 * The browser side (frontend/script.js): two subtitle elements that every display
 * record updates in place, and the single reconnect-interval flag kept across
 * socket openings and closings.
 */
module Subtitles {
  import opened Options
  import opened Text

  // ---------------------------------------------------------------------------
  // Subtitle slots
  // ---------------------------------------------------------------------------

  /** A display record after `JSON.parse`; None stands for a property that is missing or null. */
  datatype Message = Message(transcript: Option<string>, translation: Option<string>, isPartial: Option<bool>)

  const Shown := "1"
  const Hidden := "0"

  /** `field && field.trim()`: present, and not blank by ECMAScript's whitespace. */
  predicate HasText(field: Option<string>) {
    field.Some? && !IsBlank(field.value, IsJsSpace)
  }

  /** `!data.is_partial`: a missing flag counts as final. */
  predicate IsFinal(isPartial: Option<bool>) {
    isPartial != Some(true)
  }

  /** What one subtitle element shows: its `textContent` and its `style.opacity`. */
  datatype SlotView = SlotView(text: string, opacity: string)

  /** The input one slot reads from a record: its own text field and `is_partial`. */
  datatype SlotInput = SlotInput(field: Option<string>, isPartial: Option<bool>)

  function SlotAfter(v: SlotView, u: SlotInput): SlotView {
    if HasText(u.field) then SlotView(u.field.value, Shown)
    else if IsFinal(u.isPartial) then v.(opacity := Hidden)
    else v
  }

  function OriginalInput(m: Message): SlotInput {
    SlotInput(m.transcript, m.isPartial)
  }

  function TranslationInput(m: Message): SlotInput {
    SlotInput(m.translation, m.isPartial)
  }

  /**
   * The three rules, stated by characters: a non-blank text is shown; a blank or
   * missing text hides the slot on a final record, keeping its text; on a partial
   * record it leaves the slot as it was.
   */
  lemma SlotRules(v: SlotView, u: SlotInput)
    ensures u.field.Some? && !IsBlank(u.field.value, IsJsSpace) ==>
      SlotAfter(v, u) == SlotView(u.field.value, Shown)
    ensures (u.field.None? || IsBlank(u.field.value, IsJsSpace)) && u.isPartial != Some(true) ==>
      SlotAfter(v, u) == SlotView(v.text, Hidden)
    ensures (u.field.None? || IsBlank(u.field.value, IsJsSpace)) && u.isPartial == Some(true) ==>
      SlotAfter(v, u) == v
  {
  }

  /** Applying the same record twice leaves the slot as applying it once. */
  lemma SlotAfterIdempotent(v: SlotView, u: SlotInput)
    ensures SlotAfter(SlotAfter(v, u), u) == SlotAfter(v, u)
  {
  }

  /** A slot after a run of records. */
  function SlotReplay(v: SlotView, us: seq<SlotInput>): SlotView
    decreases |us|
  {
    if us == [] then v else SlotReplay(SlotAfter(v, us[0]), us[1..])
  }

  /** A record that decides the slot's visibility: it has text, or it is final. */
  predicate Decisive(u: SlotInput) {
    HasText(u.field) || IsFinal(u.isPartial)
  }

  /** A run of records none of which has text leaves the slot's text as it was. */
  lemma {:induction false} ReplayKeepsTextWithoutText(v: SlotView, us: seq<SlotInput>)
    requires forall k :: 0 <= k < |us| ==> !HasText(us[k].field)
    ensures SlotReplay(v, us).text == v.text
    decreases |us|
  {
    if us != [] {
      ReplayKeepsTextWithoutText(SlotAfter(v, us[0]), us[1..]);
    }
  }

  /** After a run of records a slot shows the text of the last record that had text. */
  lemma {:induction false} ReplayShowsLatestText(v: SlotView, us: seq<SlotInput>, k: nat)
    requires k < |us| && HasText(us[k].field)
    requires forall j :: k < j < |us| ==> !HasText(us[j].field)
    ensures SlotReplay(v, us).text == us[k].field.value
    decreases |us|
  {
    var rest := us[1..];
    assert SlotReplay(v, us) == SlotReplay(SlotAfter(v, us[0]), rest);
    if k == 0 {
      forall j | 0 <= j < |rest| ensures !HasText(rest[j].field) {
        assert rest[j] == us[j + 1];
      }
      ReplayKeepsTextWithoutText(SlotAfter(v, us[0]), rest);
    } else {
      assert rest[k - 1] == us[k];
      forall j | k - 1 < j < |rest| ensures !HasText(rest[j].field) {
        assert rest[j] == us[j + 1];
      }
      ReplayShowsLatestText(SlotAfter(v, us[0]), rest, k - 1);
    }
  }

  /** A run of records that are all partial and blank leaves the slot exactly as it was. */
  lemma {:induction false} ReplayUnchangedWithoutDecisive(v: SlotView, us: seq<SlotInput>)
    requires forall k :: 0 <= k < |us| ==> !Decisive(us[k])
    ensures SlotReplay(v, us) == v
    decreases |us|
  {
    if us != [] {
      ReplayUnchangedWithoutDecisive(SlotAfter(v, us[0]), us[1..]);
    }
  }

  /**
   * After a run of records a slot is visible exactly when the last record that had
   * text or was final had text.
   */
  lemma {:induction false} ReplayVisibleIffLatestDecisiveHasText(v: SlotView, us: seq<SlotInput>, k: nat)
    requires k < |us| && Decisive(us[k])
    requires forall j :: k < j < |us| ==> !Decisive(us[j])
    ensures SlotReplay(v, us).opacity == (if HasText(us[k].field) then Shown else Hidden)
    decreases |us|
  {
    var rest := us[1..];
    assert SlotReplay(v, us) == SlotReplay(SlotAfter(v, us[0]), rest);
    if k == 0 {
      forall j | 0 <= j < |rest| ensures !Decisive(rest[j]) {
        assert rest[j] == us[j + 1];
      }
      ReplayUnchangedWithoutDecisive(SlotAfter(v, us[0]), rest);
    } else {
      assert rest[k - 1] == us[k];
      forall j | k - 1 < j < |rest| ensures !Decisive(rest[j]) {
        assert rest[j] == us[j + 1];
      }
      ReplayVisibleIffLatestDecisiveHasText(SlotAfter(v, us[0]), rest, k - 1);
    }
  }

  /** A subtitle DOM element: the two properties the page writes. */
  class Element {
    var textContent: string
    var opacity: string

    constructor (textContent: string, opacity: string)
      ensures View() == SlotView(textContent, opacity)
    {
      this.textContent := textContent;
      this.opacity := opacity;
    }

    function View(): SlotView
      reads this
    {
      SlotView(textContent, opacity)
    }
  }

  // ---------------------------------------------------------------------------
  // Reconnect flag
  // ---------------------------------------------------------------------------

  /** A handle returned by `setInterval`: always a positive integer, hence truthy. */
  type TimerHandle = h: int | h > 0 witness 1

  function HandleSet(interval: Option<TimerHandle>): set<TimerHandle> {
    if interval.Some? then {interval.value} else {}
  }

  /** `reconnectInterval`, and the intervals the page has started and not cleared. */
  datatype ReconnectState = ReconnectState(interval: Option<TimerHandle>, live: set<TimerHandle>)

  /** The only running interval is the one the flag holds. */
  predicate Consistent(s: ReconnectState) {
    s.live == HandleSet(s.interval)
  }

  /** `onopen`: clears the pending interval, if any, and resets the flag. */
  function AfterOpen(s: ReconnectState): ReconnectState {
    if s.interval.Some? then ReconnectState(None, s.live - {s.interval.value}) else s
  }

  /** `onclose`: starts an interval, whose handle is `handle`, only when none is pending. */
  function AfterClose(s: ReconnectState, handle: TimerHandle): ReconnectState {
    if s.interval.None? then ReconnectState(Some(handle), s.live + {handle}) else s
  }

  /** A socket event; a closing carries the handle `setInterval` would return. */
  datatype SocketEvent = Opened | Closed(handle: TimerHandle)

  function AfterEvents(s: ReconnectState, events: seq<SocketEvent>): ReconnectState
    decreases |events|
  {
    if events == [] then s
    else
      var next := match events[0]
        case Opened => AfterOpen(s)
        case Closed(h) => AfterClose(s, h);
      AfterEvents(next, events[1..])
  }

  /** Whatever sequence of openings and closings arrives, at most one reconnect interval runs, and it is the flagged one. */
  lemma {:induction false} EventsKeepOneInterval(s: ReconnectState, events: seq<SocketEvent>)
    requires Consistent(s)
    ensures Consistent(AfterEvents(s, events))
    ensures |AfterEvents(s, events).live| <= 1
    decreases |events|
  {
    if events != [] {
      var next := match events[0]
        case Opened => AfterOpen(s)
        case Closed(h) => AfterClose(s, h);
      EventsKeepOneInterval(next, events[1..]);
    }
  }

  /** Consecutive closings start at most one interval: only the first can, and only if none is pending. */
  lemma {:induction false} ClosingsScheduleOnce(s: ReconnectState, events: seq<SocketEvent>)
    requires |events| > 0
    requires forall i :: 0 <= i < |events| ==> events[i].Closed?
    ensures AfterEvents(s, events) == AfterClose(s, events[0].handle)
    ensures s.interval.Some? ==> AfterEvents(s, events) == s
    decreases |events|
  {
    if |events| > 1 {
      var next := AfterClose(s, events[0].handle);
      ClosingsScheduleOnce(next, events[1..]);
      assert AfterClose(next, events[1].handle) == next;
    }
  }

  /** An opening leaves no interval running and the flag null. */
  lemma OpenClears(s: ReconnectState)
    requires Consistent(s)
    ensures AfterOpen(s) == ReconnectState(None, {})
  {
  }

  // ---------------------------------------------------------------------------
  // The page
  // ---------------------------------------------------------------------------

  /** The script's module-level state: the two subtitle elements and the reconnect flag. */
  class SubtitlePage {
    const subtitleOriginal: Element
    const subtitleTranslation: Element
    var reconnectInterval: Option<TimerHandle>
    var liveIntervals: set<TimerHandle>

    ghost predicate Valid()
      reads this
    {
      subtitleOriginal != subtitleTranslation && Consistent(Reconnect())
    }

    function Reconnect(): ReconnectState
      reads this
    {
      ReconnectState(reconnectInterval, liveIntervals)
    }

    constructor (original: Element, translation: Element)
      requires original != translation
      ensures Valid()
      ensures subtitleOriginal == original && subtitleTranslation == translation
      ensures Reconnect() == ReconnectState(None, {})
    {
      subtitleOriginal := original;
      subtitleTranslation := translation;
      reconnectInterval := None;
      liveIntervals := {};
    }

    /** `updateSubtitle`: each element follows its own field and `is_partial`, independently. */
    method UpdateSubtitle(data: Message)
      requires Valid()
      modifies subtitleOriginal, subtitleTranslation
      ensures subtitleOriginal.View() == SlotAfter(old(subtitleOriginal.View()), OriginalInput(data))
      ensures subtitleTranslation.View() == SlotAfter(old(subtitleTranslation.View()), TranslationInput(data))
    {
      if data.transcript.Some? {
        TrimEmptyIffBlank(data.transcript.value, IsJsSpace);
      }
      if data.translation.Some? {
        TrimEmptyIffBlank(data.translation.value, IsJsSpace);
      }
      if data.transcript.Some? && Trim(data.transcript.value, IsJsSpace) != [] {
        subtitleOriginal.textContent := data.transcript.value;
        subtitleOriginal.opacity := Shown;
      } else if data.isPartial != Some(true) {
        subtitleOriginal.opacity := Hidden;
      }

      if data.translation.Some? && Trim(data.translation.value, IsJsSpace) != [] {
        subtitleTranslation.textContent := data.translation.value;
        subtitleTranslation.opacity := Shown;
      } else if data.isPartial != Some(true) {
        subtitleTranslation.opacity := Hidden;
      }
    }

    /** `ws.onopen`: clears a pending reconnect interval and resets the flag. */
    method OnOpen()
      requires Valid()
      modifies this
      ensures Valid()
      ensures Reconnect() == AfterOpen(old(Reconnect()))
    {
      if reconnectInterval.Some? {
        liveIntervals := liveIntervals - {reconnectInterval.value};
        reconnectInterval := None;
      }
    }

    /** `ws.onclose`: starts the reconnect interval (`setInterval` answering `handle`) unless one is pending. */
    method OnClose(handle: TimerHandle)
      requires Valid()
      modifies this
      ensures Valid()
      ensures Reconnect() == AfterClose(old(Reconnect()), handle)
    {
      if reconnectInterval.None? {
        liveIntervals := liveIntervals + {handle};
        reconnectInterval := Some(handle);
      }
    }
  }
}
