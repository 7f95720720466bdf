/** The standalone generator component that the app entry point renders: its
    colour label, its wall-clock sleep timer and its single-source player. */
module LegacyGenerator {
  import opened Wrappers
  import opened AudioNodes
  import Text
  import ColorLabel
  import TimerControls

  /** The colour label chain, on the colour in thousandths (the slider steps by
      0.001, so 0.010 is 10). Each threshold is inclusive. */
  function LegacyColorLabel(thousandths: int): (name: string)
    ensures name in ColorLabel.Labels
    ensures name == ColorLabel.Labels[LegacyIndex(thousandths)]
  {
    if thousandths <= 10 then "Dark Brown"
    else if thousandths <= 20 then "Brown"
    else if thousandths <= 30 then "Pink-Brown"
    else if thousandths <= 40 then "Pink"
    else "Pink-White"
  }

  /** The position of the legacy label: buckets closed on the right. */
  function LegacyIndex(thousandths: int): (i: int)
    ensures 0 <= i <= 4
    ensures i == 0 <==> thousandths <= 10
    ensures 0 < i < 4 ==> 10 * i < thousandths <= 10 * i + 10
    ensures i == 4 <==> thousandths > 40
  {
    if thousandths <= 10 then 0
    else if thousandths <= 40 then (thousandths - 1) / 10
    else 4
  }

  /** The two colour-label functions agree except on the bucket edges: at 10,
      20, 30 and 40 this one still gives the lower label. */
  lemma LabelsDisagreeOnlyAtEdges(c: int)
    requires c >= 0
    ensures ColorLabel.GetColorLabel(c) == Some(LegacyColorLabel(c)) <==> c !in {10, 20, 30, 40}
  {
    var i, j := ColorLabel.LabelIndex(c), LegacyIndex(c);
    assert ColorLabel.GetColorLabel(c) == Some(ColorLabel.Labels[i]);
    assert LegacyColorLabel(c) == ColorLabel.Labels[j];
    assert ColorLabel.Labels[i] == ColorLabel.Labels[j] <==> i == j;
  }

  /** The remaining-time text for a positive number of milliseconds: whole
      minutes, then the whole seconds left over, padded to two digits. */
  function RemainingText(diff: int): string
    requires diff > 0
  {
    var minutes := diff / 60000;
    var seconds := (diff % 60000) / 1000;
    Text.NatToString(minutes) + ":" + Text.PadStart2(Text.NatToString(seconds)) + " remaining"
  }

  /** The remaining time reads exactly as the sleep-timer panel's `formatTime`
      of the whole seconds left, followed by " remaining". */
  lemma RemainingTextIsFormatTime(diff: int)
    requires diff > 0
    ensures RemainingText(diff) == TimerControls.FormatTime(diff / 1000) + " remaining"
  {
    DivMod1000(diff);
  }

  lemma DivMod1000(d: nat)
    ensures d / 60000 == (d / 1000) / 60 && (d % 60000) / 1000 == (d / 1000) % 60
  {
    var s := d / 1000;
    assert d == 1000 * s + d % 1000;
    assert s == 60 * (s / 60) + s % 60;
    assert d == 60000 * (s / 60) + (1000 * (s % 60) + d % 1000);
    assert 0 <= 1000 * (s % 60) + d % 1000 < 60000;
  }

  /** The timer's refs and display: the end time (ms) and the shown text. */
  datatype TimerState = TimerState(endTime: Option<int>, display: string)

  /** What a timer action asks for besides its new state. */
  datatype TimerCall = ClearTimerInterval | StartTimerInterval | TogglePlayback

  /** `updateTimerDisplay()` at time `now`. */
  function UpdateTimerDisplay(t: TimerState, now: int, isPlaying: bool): (TimerState, seq<TimerCall>) {
    match t.endTime
    case None => (t.(display := ""), [])
    case Some(end) =>
      var diff := end - now;
      if diff <= 0 then
        (TimerState(None, "Time's up!"), [ClearTimerInterval] + (if isPlaying then [TogglePlayback] else []))
      else (t.(display := RemainingText(diff)), [])
  }

  /** With no end time the display is emptied and nothing else happens. */
  lemma TickWithoutTimer(t: TimerState, now: int, isPlaying: bool)
    requires t.endTime.None?
    ensures UpdateTimerDisplay(t, now, isPlaying) == (t.(display := ""), [])
  {
  }

  /** Before the end the tick only rewrites the display, as the countdown
      component would format the remaining whole seconds. */
  lemma TickBeforeEnd(t: TimerState, now: int, isPlaying: bool)
    requires t.endTime.Some? && t.endTime.value - now > 0
    ensures var r := UpdateTimerDisplay(t, now, isPlaying);
      && r.0 == t.(display := TimerControls.FormatTime((t.endTime.value - now) / 1000) + " remaining")
      && r.1 == []
  {
    RemainingTextIsFormatTime(t.endTime.value - now);
  }

  /** At or past the end the interval is cleared, "Time's up!" shows, the end
      time is dropped, and playback is toggled exactly when it is on. */
  lemma TickAtEnd(t: TimerState, now: int, isPlaying: bool)
    requires t.endTime.Some? && t.endTime.value - now <= 0
    ensures var r := UpdateTimerDisplay(t, now, isPlaying);
      && r.0 == TimerState(None, "Time's up!")
      && r.1 == [ClearTimerInterval] + (if isPlaying then [TogglePlayback] else [])
  {
  }

  /** `startTimer()`: clears any interval; a non-positive minute count only
      shows an error; otherwise the end time is `minutes` after the clock
      reading `setAt`, the display is refreshed at once from a second clock
      reading `shownAt`, and a one-second interval starts. (The input field
      stores `parseInt(...) || 0`, so the count is always an integer and the
      NaN test never fires.) */
  function StartTimer(t: TimerState, minutes: int, setAt: int, shownAt: int, isPlaying: bool)
    : (TimerState, seq<TimerCall>)
  {
    if minutes <= 0 then (t.(display := "Please enter a valid time"), [ClearTimerInterval])
    else
      var started := t.(endTime := Some(setAt + minutes * 60000));
      var shown := UpdateTimerDisplay(started, shownAt, isPlaying);
      (shown.0, [ClearTimerInterval] + shown.1 + [StartTimerInterval])
  }

  /** A count that is not positive only clears the interval and shows the
      error; the end time is left as it was. */
  lemma StartTimerRejects(t: TimerState, minutes: int, setAt: int, shownAt: int, isPlaying: bool)
    requires minutes <= 0
    ensures StartTimer(t, minutes, setAt, shownAt, isPlaying)
      == (t.(display := "Please enter a valid time"), [ClearTimerInterval])
  {
  }

  /** A positive count sets the end time `minutes` after `setAt`; the refresh
      shows what is left of that span at `shownAt`, and the one-second interval
      starts. (With both readings equal the span is whole: `WholeMinutesText`;
      a refresh up to a second later already shows one second less:
      `DelayedRefreshText`.) */
  lemma StartTimerStarts(t: TimerState, minutes: int, setAt: int, shownAt: int, isPlaying: bool)
    requires minutes > 0 && shownAt - setAt < minutes * 60000
    ensures StartTimer(t, minutes, setAt, shownAt, isPlaying)
      == (t.(endTime := Some(setAt + minutes * 60000),
             display := RemainingText(minutes * 60000 - (shownAt - setAt))),
          [ClearTimerInterval, StartTimerInterval])
  {
    var end := setAt + minutes * 60000;
    var started := t.(endTime := Some(end));
    var shown := UpdateTimerDisplay(started, shownAt, isPlaying);
    StartedShowsRemaining(t, end, shownAt, isPlaying);
    assert end - shownAt == minutes * 60000 - (shownAt - setAt);
    assert StartTimer(t, minutes, setAt, shownAt, isPlaying)
      == (shown.0, [ClearTimerInterval] + shown.1 + [StartTimerInterval]);
    assert [ClearTimerInterval] + shown.1 + [StartTimerInterval] == [ClearTimerInterval, StartTimerInterval];
  }

  /** If the second reading is already past the end (the clock jumped ahead by
      the whole span), the refresh ends the timer at once, yet the interval is
      still started after it. */
  lemma StartTimerOverdue(t: TimerState, minutes: int, setAt: int, shownAt: int, isPlaying: bool)
    requires minutes > 0 && shownAt - setAt >= minutes * 60000
    ensures var r := StartTimer(t, minutes, setAt, shownAt, isPlaying);
      && r.0 == TimerState(None, "Time's up!")
      && r.1 == [ClearTimerInterval, ClearTimerInterval]
           + (if isPlaying then [TogglePlayback] else []) + [StartTimerInterval]
  {
    var started := t.(endTime := Some(setAt + minutes * 60000));
    var shown := UpdateTimerDisplay(started, shownAt, isPlaying);
    assert shown == (TimerState(None, "Time's up!"), [ClearTimerInterval] + (if isPlaying then [TogglePlayback] else []));
  }

  /** With an end time `end` after `now`, the refresh shows what is left. */
  lemma StartedShowsRemaining(t: TimerState, end: int, now: int, isPlaying: bool)
    requires end - now > 0
    ensures UpdateTimerDisplay(t.(endTime := Some(end)), now, isPlaying)
      == (t.(endTime := Some(end), display := RemainingText(end - now)), [])
  {
  }

  /** A refresh 1 to 1000 ms after the end time was set shows one second less
      than the whole minutes: `(m-1):59`. */
  lemma DelayedRefreshText(m: nat, d: int)
    requires m > 0 && 0 < d <= 1000
    ensures RemainingText(m * 60000 - d) == TimerControls.FormatTime(m * 60 - 1) + " remaining"
    ensures (m * 60 - 1) / 60 == m - 1 && (m * 60 - 1) % 60 == 59
  {
    RemainingTextIsFormatTime(m * 60000 - d);
    QuotientBy1000(m * 60000 - d, m * 60 - 1, 1000 - d);
    QuotientBy60(m * 60 - 1, m - 1, 59);
  }

  lemma QuotientBy1000(x: int, q: int, r: int)
    requires x == 1000 * q + r && 0 <= r < 1000
    ensures x / 1000 == q
  {
  }

  lemma QuotientBy60(x: int, q: int, r: int)
    requires x == 60 * q + r && 0 <= r < 60
    ensures x / 60 == q && x % 60 == r
  {
  }

  /** A whole number of minutes shows with ":00" seconds. */
  lemma WholeMinutesText(m: nat)
    requires m > 0
    ensures RemainingText(m * 60000) == Text.NatToString(m) + ":00" + " remaining"
  {
    var d := m * 60000;
    assert d / 60000 == m && d % 60000 == 0;
    assert Text.PadStart2(Text.NatToString(0)) == "00";
    var x := Text.NatToString(m);
    assert x + ":" + "00" == x + ":00";
  }

  /** `toggleTimer()`: cancels a running timer, otherwise starts one. */
  function ToggleTimer(t: TimerState, minutes: int, setAt: int, shownAt: int, isPlaying: bool)
    : (r: (TimerState, seq<TimerCall>))
    ensures t.endTime.Some? ==> r == (TimerState(None, ""), [ClearTimerInterval])
    ensures t.endTime.None? ==> r == StartTimer(t, minutes, setAt, shownAt, isPlaying)
  {
    if t.endTime.Some? then (TimerState(None, ""), [ClearTimerInterval])
    else StartTimer(t, minutes, setAt, shownAt, isPlaying)
  }

  /** The Escape key: cancels a running timer and touches nothing otherwise. */
  function EscapePressed(t: TimerState): (r: (TimerState, seq<TimerCall>))
    ensures t.endTime.Some? ==> r == (TimerState(None, ""), [ClearTimerInterval])
    ensures t.endTime.None? ==> r == (t, [])
  {
    if t.endTime.Some? then (TimerState(None, ""), [ClearTimerInterval]) else (t, [])
  }

  /** A running timer ends in a cancelled state after either toggle or Escape. */
  lemma ToggleAndEscapeAgreeWhenRunning(t: TimerState, minutes: int, setAt: int, shownAt: int, isPlaying: bool)
    requires t.endTime.Some?
    ensures ToggleTimer(t, minutes, setAt, shownAt, isPlaying) == EscapePressed(t)
  {
  }

  /** The component's audio refs and play state. */
  class LegacyPlayer {
    var context: Option<nat>       // the AudioContext, by its sample rate
    var gain: Option<real>
    var filter: Option<Biquad>
    var source: Option<Source>
    var playing: set<nat>          // ids of sources started and not yet stopped
    var nextId: nat
    var isPlaying: bool
    var volume: real

    /** Every started source is the current one: at most one plays. */
    ghost predicate Valid()
      reads this
    {
      && (context.None? ==> gain.None? && filter.None? && source.None?)
      && (context.Some? ==> gain.Some? && filter.Some?)
      && (forall id :: id in playing ==> source.Some? && source.value.id == id)
      && (source.Some? ==> source.value.id < nextId)
    }

    constructor ()
      ensures Valid() && context.None? && source.None? && playing == {} && !isPlaying && volume == 0.5
    {
      context, gain, filter, source := None, None, None, None;
      playing, nextId, isPlaying, volume := {}, 0, false, 0.5;
    }

    /** `initAudio()`: only the first call creates the context, the gain at the
        current volume and the 1000 Hz, Q 0.7 low-pass. */
    method InitAudio(sampleRate: nat)
      requires Valid()
      modifies this`context, this`gain, this`filter
      ensures Valid() && context.Some?
      ensures old(context).Some? ==> context == old(context) && gain == old(gain) && filter == old(filter)
      ensures old(context).None? ==>
        context == Some(sampleRate) && gain == Some(volume)
        && filter == Some(Biquad(LowPass, 1000.0, 0.7, 0.0))
    {
      if context.None? {
        context := Some(sampleRate);
        gain := Some(volume);
        filter := Some(Biquad(LowPass, 1000.0, 0.7, 0.0));
      }
    }

    /** `createAmbientAudio()`: initialises the audio graph if there is none,
        stops any existing source, then makes a new looping source over a mono
        buffer of five seconds at the context's rate (not yet started). */
    method CreateAmbientAudio(sampleRate: nat)
      requires Valid()
      modifies this`context, this`gain, this`filter, this`source, this`playing, this`nextId
      ensures Valid() && context.Some?
      ensures old(context).Some? ==> context == old(context) && gain == old(gain) && filter == old(filter)
      ensures old(context).None? ==>
        context == Some(sampleRate) && gain == Some(volume)
        && filter == Some(Biquad(LowPass, 1000.0, 0.7, 0.0))
      ensures source == Some(Source(old(nextId), BufferShape(1, context.value * 5, context.value), true))
      ensures playing == {} && nextId == old(nextId) + 1
    {
      if context.None? {
        InitAudio(sampleRate);
      }
      if source.Some? {
        playing := playing - {source.value.id};
      }
      var rate := context.value;
      source := Some(Source(nextId, BufferShape(1, rate * 5, rate), true));
      nextId := nextId + 1;
    }

    /** `togglePlay()`: starting initialises the graph if needed, then creates
        and starts one new source; stopping stops and drops the source and
        leaves the graph as it was. Either way at most one source is playing. */
    method TogglePlay(sampleRate: nat)
      requires Valid()
      modifies this`context, this`gain, this`filter, this`source, this`playing, this`nextId, this`isPlaying
      ensures Valid()
      ensures isPlaying == !old(isPlaying)
      ensures old(context).Some? || old(isPlaying) ==>
        context == old(context) && gain == old(gain) && filter == old(filter)
      ensures old(context).None? && !old(isPlaying) ==>
        context == Some(sampleRate) && gain == Some(volume)
        && filter == Some(Biquad(LowPass, 1000.0, 0.7, 0.0))
      ensures !old(isPlaying) ==>
        && context.Some?
        && source == Some(Source(old(nextId), BufferShape(1, context.value * 5, context.value), true))
        && playing == {old(nextId)} && nextId == old(nextId) + 1
      ensures old(isPlaying) ==> source.None? && playing == {} && nextId == old(nextId)
    {
      if !isPlaying {
        InitAudio(sampleRate);
        CreateAmbientAudio(sampleRate);
        playing := playing + {source.value.id};
        isPlaying := true;
      } else {
        if source.Some? {
          playing := playing - {source.value.id};
          source := None;
        }
        isPlaying := false;
      }
    }

    /** The colour/bass effect: while playing, the current source is stopped
        and a fresh one, made with the new settings, is started; while paused
        nothing changes. */
    method RecreateIfPlaying(sampleRate: nat)
      requires Valid()
      modifies this`context, this`gain, this`filter, this`source, this`playing, this`nextId
      ensures Valid()
      ensures !isPlaying ==>
        && context == old(context) && gain == old(gain) && filter == old(filter)
        && source == old(source) && playing == old(playing) && nextId == old(nextId)
      ensures isPlaying && old(context).Some? ==>
        context == old(context) && gain == old(gain) && filter == old(filter)
      ensures isPlaying && old(context).None? ==>
        context == Some(sampleRate) && gain == Some(volume)
        && filter == Some(Biquad(LowPass, 1000.0, 0.7, 0.0))
      ensures isPlaying ==>
        && context.Some?
        && source == Some(Source(old(nextId), BufferShape(1, context.value * 5, context.value), true))
        && playing == {old(nextId)} && nextId == old(nextId) + 1
    {
      if isPlaying {
        if source.Some? {
          playing := playing - {source.value.id};
          source := None;
        }
        CreateAmbientAudio(sampleRate);
        playing := playing + {source.value.id};
      }
    }

    /** `updateVolume(v)`: the state and, once it exists, the gain follow v. */
    method UpdateVolume(v: real)
      requires Valid()
      modifies this`volume, this`gain
      ensures Valid()
      ensures volume == v
      ensures gain == if old(gain).Some? then Some(v) else None
    {
      volume := v;
      if gain.Some? {
        gain := Some(v);
      }
    }
  }
}
