/** The spectrum canvas: which bins and bars are drawn, how the picture fades
    after a pause, and the last-frame store that keeps it alive while the
    audio restarts. */
module Visualization {
  import opened Wrappers

  newtype byte = x: int | 0 <= x < 256

  /** The analyser draws this many bars across the canvas. */
  const BarCount: int := 128
  /** The fade-out after a pause lasts this many milliseconds. */
  const FadeOutDuration: int := 2000

  /** The highest analyser bin to show for `maxFreq`: the last bin whose start
      frequency `bin * nyquist / binCount` is at most `maxFreq`, capped at the
      last bin. (The nyquist frequency is half the sample rate.) */
  function MaxBinIndex(maxFreq: int, sampleRate: int, binCount: int): (bin: int)
    requires sampleRate > 0 && binCount >= 1
    ensures bin <= binCount - 1
    ensures bin * sampleRate <= 2 * maxFreq * binCount
    ensures bin < binCount - 1 ==> 2 * maxFreq * binCount < (bin + 1) * sampleRate
  {
    var wanted := (2 * maxFreq * binCount) / sampleRate;
    FloorBounds(2 * maxFreq * binCount, sampleRate);
    if wanted < binCount - 1 then wanted else binCount - 1
  }

  /** The last bar to draw: the last bar whose data index does not pass
      `maxBin`, capped at bar 127. */
  function MaxBarIndex(maxBin: int, binCount: int): (bar: int)
    requires binCount >= 1
    ensures bar <= BarCount - 1
    ensures bar * binCount <= maxBin * BarCount
    ensures bar < BarCount - 1 ==> maxBin * BarCount < (bar + 1) * binCount
  {
    var wanted := (maxBin * BarCount) / binCount;
    FloorBounds(maxBin * BarCount, binCount);
    if wanted < BarCount - 1 then wanted else BarCount - 1
  }

  /** The bin that bar `i` reads: `i / 128` of the way through the bins. */
  function DataIndex(i: int, binCount: int): (k: int)
    requires 0 <= i < BarCount && binCount >= 1
    ensures 0 <= k < binCount
    ensures k * BarCount <= i * binCount < (k + 1) * BarCount
  {
    FloorBounds(i * binCount, BarCount);
    MulMonotone(i, BarCount - 1, binCount);
    i * binCount / BarCount
  }

  /** Floor division by a positive divisor brackets the dividend. */
  lemma FloorBounds(x: int, d: int)
    requires d > 0
    ensures (x / d) * d <= x < (x / d + 1) * d
  {
  }

  lemma MulMonotone(a: int, b: int, c: int)
    requires a <= b && c >= 0
    ensures a * c <= b * c
  {
    assert b * c - a * c == (b - a) * c;
  }

  /** Every drawn bar reads a bin no later than the last bin to show, and so a
      bin inside the analyser's data. */
  lemma BarsReadShownBins(maxFreq: int, sampleRate: int, binCount: int, i: int)
    requires sampleRate > 0 && binCount >= 1
    requires 0 <= i <= MaxBarIndex(MaxBinIndex(maxFreq, sampleRate, binCount), binCount)
    ensures DataIndex(i, binCount) <= MaxBinIndex(maxFreq, sampleRate, binCount) <= binCount - 1
  {
    var maxBin := MaxBinIndex(maxFreq, sampleRate, binCount);
    var maxBar := MaxBarIndex(maxBin, binCount);
    var k := DataIndex(i, binCount);
    MulMonotone(i, maxBar, binCount);
    assert k * BarCount <= i * binCount <= maxBar * binCount <= maxBin * BarCount;
  }

  /** The fade opacity `elapsed` milliseconds into a fade that has not yet
      run its course. */
  function FadeOpacity(elapsed: int): (opacity: real)
    requires elapsed < FadeOutDuration
    ensures opacity > 0.0
    ensures elapsed >= 0 ==> opacity <= 1.0
    ensures elapsed == 0 ==> opacity == 1.0
  {
    1.0 - elapsed as real / FadeOutDuration as real
  }

  /** Later in a fade the picture is fainter. */
  lemma FadeOpacityDecreases(e1: int, e2: int)
    requires e1 < e2 < FadeOutDuration
    ensures FadeOpacity(e2) < FadeOpacity(e1)
  {
  }

  /** The alpha of the background wash painted over the last frame: a quarter
      when fully visible, rising to fully opaque as the picture fades. */
  function ClearOpacity(opacity: real): (alpha: real)
    ensures 0.0 <= opacity <= 1.0 ==> 0.25 <= alpha <= 1.0
    ensures opacity == 1.0 ==> alpha == 0.25
    ensures opacity < 1.0 ==> alpha > 0.25
  {
    0.25 + (1.0 - opacity) * 0.75
  }

  /** The height of a bar for bin value `v`. */
  function BarHeight(v: byte, height: real, opacity: real): (h: real)
    ensures 0.0 <= height && 0.0 <= opacity <= 1.0 ==> 0.0 <= h <= 0.8 * height
    ensures v == 0 ==> h == 0.0
  {
    var level := v as real / 255.0;
    ScaleBelow(level, height, opacity);
    level * height * 0.8 * opacity
  }

  lemma ScaleBelow(level: real, height: real, opacity: real)
    requires 0.0 <= level <= 1.0
    ensures 0.0 <= height && 0.0 <= opacity <= 1.0 ==>
      0.0 <= level * height * 0.8 * opacity <= 0.8 * height
  {
    if 0.0 <= height && 0.0 <= opacity <= 1.0 {
      var top := height * 0.8;
      assert 0.0 <= level * top <= top;
      assert 0.0 <= (level * top) * opacity <= level * top;
      assert level * height * 0.8 * opacity == level * top * opacity;
    }
  }

  /** The bars drawn for bars 0 to `maxBar` of a frame. */
  function Bars(frame: seq<byte>, maxBar: int, height: real, opacity: real): (bars: seq<real>)
    requires |frame| >= 1 && maxBar < BarCount
    ensures |bars| == if maxBar < 0 then 0 else maxBar + 1
  {
    var n := if maxBar < 0 then 0 else maxBar + 1;
    seq(n, i requires 0 <= i < n => BarHeight(frame[DataIndex(i, |frame|)], height, opacity))
  }

  /** No bar is negative or taller than 80% of the canvas. */
  lemma BarsFitCanvas(frame: seq<byte>, maxBar: int, height: real, opacity: real, i: int)
    requires |frame| >= 1 && maxBar < BarCount
    requires 0.0 <= height && 0.0 <= opacity <= 1.0
    requires 0 <= i < |Bars(frame, maxBar, height, opacity)|
    ensures 0.0 <= Bars(frame, maxBar, height, opacity)[i] <= 0.8 * height
  {
  }

  /** A fresh store: `new Uint8Array(n)` holds n zeros. */
  function Silence(n: nat): seq<byte>
  {
    seq(n, _ => 0)
  }

  /** A frame of zeros draws every bar flat. */
  lemma SilenceDrawsFlat(n: nat, maxBar: int, height: real, opacity: real, i: int)
    requires n >= 1 && maxBar < BarCount
    requires 0 <= i < |Bars(Silence(n), maxBar, height, opacity)|
    ensures Bars(Silence(n), maxBar, height, opacity)[i] == 0.0
  {
  }

  /** The bar loop: one height per bar from 0 to `maxBar`. */
  method BarHeights(frame: seq<byte>, maxBar: int, height: real, opacity: real) returns (bars: seq<real>)
    requires |frame| >= 1 && maxBar < BarCount
    ensures bars == Bars(frame, maxBar, height, opacity)
  {
    bars := [];
    var i := 0;
    while i <= maxBar
      invariant 0 <= i <= BarCount && (maxBar >= 0 ==> i <= maxBar + 1) && (maxBar < 0 ==> i == 0)
      invariant |bars| == i
      invariant forall j :: 0 <= j < i ==> bars[j] == BarHeight(frame[DataIndex(j, |frame|)], height, opacity)
    {
      bars := bars + [BarHeight(frame[DataIndex(i, |frame|)], height, opacity)];
      i := i + 1;
    }
  }

  /** `sourceNodeRef?.current`: no ref object at all, a ref holding null, or a
      ref holding a source node. */
  datatype SourceRef = NoRefObject | NullSource | SomeSource

  /** Audio counts as active unless the ref holds null: a missing ref object
      yields undefined, which is not null. */
  predicate HasActiveAudio(r: SourceRef)
  {
    r != NullSource
  }

  /** What one call of `visualize` decides to do. */
  datatype Step =
    | Stop             // cancel the next frame and return
    | EndFade          // paint the background, cancel, and forget the fade
    | Draw(opacity: real)

  /** The decision: no canvas or analyser stops; a fade past its duration
      ends; otherwise the picture is drawn if audio is active, a fade is
      under way, or playback is on and a frame is stored. */
  function Decide(hasCanvas: bool, hasAnalyser: bool, fadeStart: Option<int>, now: int,
                  source: SourceRef, isPlaying: bool, hasStore: bool): (s: Step)
    ensures !hasCanvas || !hasAnalyser ==> s == Stop
    ensures hasCanvas && hasAnalyser && fadeStart.Some? ==>
      (s == EndFade <==> now - fadeStart.value >= FadeOutDuration)
    ensures s.Draw? ==> s.opacity > 0.0
    ensures s.Draw? && fadeStart.None? ==> s.opacity == 1.0
    ensures s.Draw? && fadeStart.Some? ==>
      s.opacity == FadeOpacity(now - fadeStart.value) && (now >= fadeStart.value ==> s.opacity <= 1.0)
  {
    if !hasCanvas || !hasAnalyser then Stop
    else if fadeStart.Some? && now - fadeStart.value >= FadeOutDuration then EndFade
    else
      var opacity := if fadeStart.Some? then FadeOpacity(now - fadeStart.value) else 1.0;
      var visible := HasActiveAudio(source) || (fadeStart.Some? && opacity > 0.0) || (isPlaying && hasStore);
      if visible then Draw(opacity) else Stop
  }

  /** While a fade is under way the picture is always drawn: the opacity test
      in the visibility condition never fails. */
  lemma FadeAlwaysDraws(fadeStart: int, now: int, source: SourceRef, isPlaying: bool, hasStore: bool)
    requires now - fadeStart < FadeOutDuration
    ensures Decide(true, true, Some(fadeStart), now, source, isPlaying, hasStore).Draw?
  {
  }

  /** With no fade, a null source and no stored frame to replay (or playback
      off), nothing is drawn; any other source state draws at full opacity. */
  lemma IdleStops(source: SourceRef, isPlaying: bool, hasStore: bool, now: int)
    ensures Decide(true, true, None, now, source, isPlaying, hasStore)
      == if HasActiveAudio(source) || (isPlaying && hasStore) then Draw(1.0) else Stop
  {
  }

  /** What `visualize` drew, if anything. */
  datatype Outcome =
    | Halted
    | FadeCompleted
    | Drawn(opacity: real, clearOpacity: real, bars: seq<real>)

  /** The canvas component's refs: the fade start, whether a next animation
      frame is requested, and the two stored frames (null until the first
      drawn frame). */
  class Visualizer {
    const binCount: int
    var fadeStart: Option<int>
    var animating: bool
    var lastFreq: array?<byte>
    var lastTime: array?<byte>

    ghost predicate Valid()
      reads this
    {
      && binCount >= 1
      && (lastFreq != null ==> lastFreq.Length == binCount)
      && (lastTime != null ==> lastTime.Length == binCount)
      && (lastFreq != null ==> lastFreq != lastTime)
    }

    /** The stored frequency frame, if any. */
    function FreqStore(): Option<seq<byte>>
      reads this, lastFreq
    {
      if lastFreq == null then None else Some(lastFreq[..])
    }

    /** The stored time-domain frame, if any. */
    function TimeStore(): Option<seq<byte>>
      reads this, lastTime
    {
      if lastTime == null then None else Some(lastTime[..])
    }

    constructor (bins: int)
      requires bins >= 1
      ensures Valid() && binCount == bins
      ensures fadeStart.None? && !animating && lastFreq == null && lastTime == null
    {
      binCount := bins;
      fadeStart, animating := None, false;
      lastFreq, lastTime := null, null;
    }

    /** Copy a fresh frame into a store in place (`TypedArray.set`). */
    static method CopyFrame(dst: array<byte>, frame: seq<byte>)
      requires dst.Length == |frame|
      modifies dst
      ensures dst[..] == frame
    {
      var i := 0;
      while i < dst.Length
        invariant 0 <= i <= dst.Length
        invariant dst[..i] == frame[..i]
      {
        dst[i] := frame[i];
        i := i + 1;
      }
    }

    /** Make both stores (zero-filled) if they are missing, then copy the
        fresh frames into them when audio is active. */
    method RefreshStores(active: bool, freqData: seq<byte>, timeData: seq<byte>)
      requires Valid() && |freqData| == binCount && |timeData| == binCount
      modifies this`lastFreq, this`lastTime, lastFreq, lastTime
      ensures Valid() && lastFreq != null && lastTime != null
      ensures active ==> FreqStore() == Some(freqData) && TimeStore() == Some(timeData)
      ensures !active && old(lastFreq) != null ==> FreqStore() == old(FreqStore())
      ensures !active && old(lastTime) != null ==> TimeStore() == old(TimeStore())
      ensures !active && old(lastFreq) == null ==> FreqStore() == Some(Silence(binCount))
      ensures !active && old(lastTime) == null ==> TimeStore() == Some(Silence(binCount))
    {
      if lastFreq == null {
        lastFreq := new byte[binCount](_ => 0);
        assert lastFreq[..] == Silence(binCount);
      }
      if lastTime == null {
        lastTime := new byte[binCount](_ => 0);
        assert lastTime[..] == Silence(binCount);
      }
      if active {
        CopyFrame(lastFreq, freqData);
        CopyFrame(lastTime, timeData);
      }
    }

    /** One animation frame. Halts (cancelling the next frame) without canvas
        or analyser or when nothing should show; ends a fade that has run its
        course; otherwise stores a fresh frame when audio is active, replays
        the stored one when it is not, draws, and requests the next frame. */
    method Visualize(hasCanvas: bool, hasAnalyser: bool, source: SourceRef, now: int, isPlaying: bool,
                     maxFreq: int, sampleRate: int, freqData: seq<byte>, timeData: seq<byte>, height: real)
      returns (outcome: Outcome)
      requires Valid() && sampleRate > 0
      requires |freqData| == binCount && |timeData| == binCount
      modifies this, lastFreq, lastTime
      ensures Valid()
      ensures var step := Decide(hasCanvas, hasAnalyser, old(fadeStart), now, source, isPlaying, old(lastFreq) != null);
        && (step == Stop ==> outcome == Halted)
        && (step == EndFade ==> outcome == FadeCompleted)
        && (step.Draw? ==> outcome.Drawn? && outcome.opacity == step.opacity)
      ensures !outcome.Drawn? ==>
        !animating && FreqStore() == old(FreqStore()) && TimeStore() == old(TimeStore())
      ensures outcome == FadeCompleted ==> fadeStart.None?
      ensures outcome != FadeCompleted ==> fadeStart == old(fadeStart)
      ensures outcome.Drawn? ==>
        && animating
        && outcome.clearOpacity == ClearOpacity(outcome.opacity)
        && (HasActiveAudio(source) ==> FreqStore() == Some(freqData) && TimeStore() == Some(timeData))
        && (!HasActiveAudio(source) && old(lastFreq) != null ==> FreqStore() == old(FreqStore()))
        && (!HasActiveAudio(source) && old(lastTime) != null ==> TimeStore() == old(TimeStore()))
        && (!HasActiveAudio(source) && old(lastFreq) == null ==> FreqStore() == Some(Silence(binCount)))
        && (!HasActiveAudio(source) && old(lastTime) == null ==> TimeStore() == Some(Silence(binCount)))
        && FreqStore().Some? && TimeStore().Some?
        && outcome.bars == Bars(FreqStore().value, MaxBarIndex(MaxBinIndex(maxFreq, sampleRate, binCount), binCount), height, outcome.opacity)
    {
      var step := Decide(hasCanvas, hasAnalyser, fadeStart, now, source, isPlaying, lastFreq != null);
      match step {
        case Stop =>
          animating := false;
          outcome := Halted;
        case EndFade =>
          animating := false;
          fadeStart := None;
          outcome := FadeCompleted;
        case Draw(opacity) =>
          var maxBar := MaxBarIndex(MaxBinIndex(maxFreq, sampleRate, binCount), binCount);
          RefreshStores(HasActiveAudio(source), freqData, timeData);
          var bars := BarHeights(lastFreq[..], maxBar, height, opacity);
          animating := true;
          outcome := Drawn(opacity, ClearOpacity(opacity), bars);
      }
    }

    /** The play/pause effect. Starting playback forgets the fade and both
        stored frames; pausing with an analyser and no fade under way starts
        a fade now. The result says whether the drawing loop is (re)started. */
    method PlayPauseEffect(isPlaying: bool, hasAnalyser: bool, now: int) returns (startLoop: bool)
      requires Valid()
      modifies this
      ensures Valid() && animating == old(animating)
      ensures isPlaying ==> fadeStart.None? && lastFreq == null && lastTime == null
      ensures !isPlaying ==> lastFreq == old(lastFreq) && lastTime == old(lastTime)
      ensures !isPlaying && old(fadeStart).None? && hasAnalyser ==> fadeStart == Some(now)
      ensures !isPlaying && !(old(fadeStart).None? && hasAnalyser) ==> fadeStart == old(fadeStart)
      ensures startLoop <==> (isPlaying || fadeStart.Some?) && hasAnalyser && !animating
    {
      if isPlaying {
        fadeStart := None;
        lastFreq, lastTime := null, null;
      } else if fadeStart.None? && hasAnalyser {
        fadeStart := Some(now);
      }
      startLoop := (isPlaying || fadeStart.Some?) && hasAnalyser && !animating;
    }
  }
}
