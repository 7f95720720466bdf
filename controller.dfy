/** The handlers of the context-based generator: they update the app state
    through the reducers and decide which engine calls to make. Engine calls
    and timers are returned as a list of Calls rather than performed; the
    handler's closure inputs (isPlaying, isFading) are explicit arguments. */
module Controller {
  import opened Wrappers
  import opened Params
  import opened AppState

  datatype Call =
    | InitAudio
    | StartAudio
    | StopAudio(immediate: bool)
    | FadeVolume(target: real, duration: real)
    | RestartAfter(delayMs: nat)   // setTimeout(() => { initAudio(); startAudio(); }, delayMs)
    | ClearInterval
    | SetInterval(periodMs: nat)

  /** The keys whose change needs a new buffer: teardown and restart. */
  predicate IsRestartKey(k: ParamKey) {
    k in {Color, ModDepth, ModSpeed, Stereo, AmpMod, FletcherMunson, Resonance}
  }

  /** The keys the engine retunes in place (its live-update effects). */
  predicate IsLiveKey(k: ParamKey) {
    k in {BassBoost, HighCut, SpeechMask, Presence}
  }

  /** Immediate stop, then init and start again 100 ms later. */
  const Restart: seq<Call> := [StopAudio(true), RestartAfter(100)]

  predicate Restarts(calls: seq<Call>) { StopAudio(true) in calls }

  /** Every key is exactly one of: the volume, a restart key, a live key. */
  lemma KeyClassification(k: ParamKey)
    ensures (k == Volume) || IsRestartKey(k) || IsLiveKey(k)
    ensures !(IsRestartKey(k) && IsLiveKey(k)) && !(k == Volume && (IsRestartKey(k) || IsLiveKey(k)))
  {
  }

  /** `handleUpdateParam(k, v)`: the reducer always runs; a volume change fades
      to v/100 over 0.5 s unless a fade is under way and never restarts; a
      restart key restarts exactly when playing; any other key makes no engine
      call here. */
  function HandleUpdateParam(s: State, k: ParamKey, v: ParamValue): (r: (State, seq<Call>))
    requires Fits(k, v)
    ensures r.0 == UpdateParam(s, k, v)
    ensures Restarts(r.1) <==> IsRestartKey(k) && s.isPlaying
    ensures k == Volume ==> r.1 == if s.isFading then [] else [FadeVolume(v.n as real / 100.0, 0.5)]
    ensures IsRestartKey(k) ==> r.1 == [] || r.1 == Restart
    ensures IsLiveKey(k) ==> r.1 == []
  {
    var calls :=
      if k == Volume then (if !s.isFading then [FadeVolume(v.n as real / 100.0, 0.5)] else [])
      else if IsRestartKey(k) then (if s.isPlaying then Restart else [])
      else [];
    (UpdateParam(s, k, v), calls)
  }

  /** `togglePlay()`: start (init, start, playing) or stop with a fade. */
  function TogglePlay(s: State): (r: (State, seq<Call>))
    ensures r.0 == s.(isPlaying := !s.isPlaying)
    ensures !s.isPlaying ==> r.1 == [InitAudio, StartAudio]
    ensures s.isPlaying ==> r.1 == [StopAudio(false)]
  {
    if !s.isPlaying then (s.(isPlaying := true), [InitAudio, StartAudio])
    else (s.(isPlaying := false), [StopAudio(false)])
  }

  /** `handleLoadPreset(key)`: the reducer runs (and throws on a key missing from
      the table, before any engine call); audio restarts only for a real preset
      while playing. */
  function HandleLoadPreset(s: State, presets: Presets, key: string): (r: Result<(State, seq<Call>)>)
    ensures r.Ok? <==> LoadPreset(s, presets, key).Ok?
    ensures r.Ok? ==> r.value.0 == LoadPreset(s, presets, key).value
    ensures r.Ok? ==> (Restarts(r.value.1) <==> key != CustomKey && s.isPlaying)
    ensures r.Ok? ==> r.value.1 == [] || r.value.1 == Restart
  {
    match LoadPreset(s, presets, key)
    case Err(e) => Err(e)
    case Ok(s') => Ok((s', if key != CustomKey && s.isPlaying then Restart else []))
  }

  /** `handleLoadFavorite(p)`: the reducer runs; audio restarts whenever playing. */
  function HandleLoadFavorite(s: State, p: ParamSet): (r: (State, seq<Call>))
    ensures r.0 == LoadFavorite(s, p)
    ensures Restarts(r.1) <==> s.isPlaying
    ensures r.1 == [] || r.1 == Restart
  {
    (LoadFavorite(s, p), if s.isPlaying then Restart else [])
  }

  /** The app state plus whether `timerIntervalRef.current` holds an interval id
      (it is set on the first start and never reset). */
  datatype Session = Session(app: State, intervalSet: bool)

  /** `handleStartTimer(minutes)`: clears a previous interval, sets the timer
      and starts a one-second interval. */
  function HandleStartTimer(ss: Session, minutes: int): (r: (Session, seq<Call>))
    ensures r.0.app == ss.app.(timer := Timer(true, minutes * 60, minutes))
    ensures r.0.intervalSet
    ensures r.1 == (if ss.intervalSet then [ClearInterval] else []) + [SetInterval(1000)]
  {
    (Session(ss.app.(timer := Timer(true, minutes * 60, minutes)), true),
     (if ss.intervalSet then [ClearInterval] else []) + [SetInterval(1000)])
  }

  /** `handleCancelTimer()`: clears the interval and cancels the timer. */
  function HandleCancelTimer(ss: Session): (r: (Session, seq<Call>))
    ensures r.0 == ss.(app := CancelTimer(ss.app))
    ensures r.1 == if ss.intervalSet then [ClearInterval] else []
  {
    (ss.(app := CancelTimer(ss.app)), if ss.intervalSet then [ClearInterval] else [])
  }

  /** One interval tick. `playing` is the isPlaying the interval callback
      captured when the timer started. At zero or below the interval clears
      itself and playback stops if `playing`; within the last 10 s every tick
      while `playing` asks for a 10 s fade to 0; otherwise only the count moves. */
  function Tick(s: State, playing: bool): (r: (State, seq<Call>))
    ensures s.timer.remaining - 1 <= 0 ==>
      && r.0.timer == Timer(false, 0, s.timer.duration)
      && r.0.isPlaying == (s.isPlaying && !playing)
      && r.1 == [ClearInterval] + (if playing then [StopAudio(false)] else [])
    ensures s.timer.remaining - 1 > 0 ==>
      && r.0.timer == s.timer.(remaining := s.timer.remaining - 1)
      && r.0.isPlaying == s.isPlaying
      && r.1 == if s.timer.remaining - 1 <= 10 && playing then [FadeVolume(0.0, 10.0)] else []
    ensures r.0 == s.(timer := r.0.timer, isPlaying := r.0.isPlaying)
  {
    var newRemaining := s.timer.remaining - 1;
    if newRemaining <= 0 then
      (s.(timer := Timer(false, 0, s.timer.duration), isPlaying := if playing then false else s.isPlaying),
       [ClearInterval] + (if playing then [StopAudio(false)] else []))
    else
      (s.(timer := s.timer.(remaining := newRemaining)),
       if newRemaining <= 10 && playing then [FadeVolume(0.0, 10.0)] else [])
  }

  /** Ticks until the interval clears itself, with the calls they make in order. */
  function Countdown(s: State, playing: bool): (State, seq<Call>)
    decreases if s.timer.remaining > 0 then s.timer.remaining else 0
  {
    var (s1, calls) := Tick(s, playing);
    if s.timer.remaining - 1 <= 0 then (s1, calls)
    else
      var (s2, rest) := Countdown(s1, playing);
      (s2, calls + rest)
  }

  function Fades(n: nat): (r: seq<Call>)
    ensures |r| == n && forall i :: 0 <= i < n ==> r[i] == FadeVolume(0.0, 10.0)
  {
    seq(n, _ => FadeVolume(0.0, 10.0))
  }

  function Min(a: int, b: int): int { if a < b then a else b }

  /** A countdown from r seconds ends inactive at 0 with its duration kept; if
      the callback saw playback on, it asked for a fade on each of the last
      min(r - 1, 10) ticks (not once), then stopped the audio. */
  lemma {:induction false} CountdownCalls(s: State, playing: bool)
    requires s.timer.remaining >= 1
    ensures Countdown(s, playing).0.timer == Timer(false, 0, s.timer.duration)
    ensures Countdown(s, playing).1 ==
      Fades(if playing then Min(s.timer.remaining - 1, 10) else 0)
      + [ClearInterval] + (if playing then [StopAudio(false)] else [])
    decreases s.timer.remaining
  {
    var (s1, calls) := Tick(s, playing);
    if s.timer.remaining - 1 > 0 {
      CountdownCalls(s1, playing);
      var n := if playing then Min(s1.timer.remaining - 1, 10) else 0;
      var tail := [ClearInterval] + (if playing then [StopAudio(false)] else []);
      if s.timer.remaining - 1 <= 10 && playing {
        assert calls + (Fades(n) + tail) == Fades(n + 1) + tail;
      } else {
        assert calls == [];
        assert Fades(if playing then Min(s.timer.remaining - 1, 10) else 0) == Fades(n);
      }
    } else {
      assert Fades(0) == [];
    }
  }

  /** A timer started for m >= 1 minutes while playing runs out with exactly
      ten fade requests, then stops the audio. */
  lemma StartedTimerRunsOut(ss: Session, minutes: int)
    requires minutes >= 1
    ensures
      var started := HandleStartTimer(ss, minutes).0.app;
      Countdown(started, true).1 == Fades(10) + [ClearInterval, StopAudio(false)]
  {
    var started := HandleStartTimer(ss, minutes).0.app;
    CountdownCalls(started, true);
  }
}
