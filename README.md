# Ambient audio generator — control logic in Dafny

The ambient audio generator plays looping brown/pink noise through a Web Audio
filter chain. It has a sleep timer, presets, saved favourites and a spectrum
canvas. This project models the control logic of that app. That logic decides
what the audio graph, the timers and the UI state become. The signal
processing itself is not modelled.

- `engine.dfy` (`Engine`): the audio-engine hook. It is a class whose fields
  are the hook's refs. `initAudio` builds the node set once, including three
  resonance peaks at 200 + 400·i Hz. `startAudio` starts a looping 2-channel
  60-second source, then walks `currentNode` through the fixed chain. The
  resonance stages sit in the chain only when resonance is on. It then pins
  the gain and fades in over 3 s. `stopAudio` either stops at once or fades
  out and schedules a 2000 ms teardown. `fadeVolume` cancels and ramps from
  the current gain. The four live-update effects each retune one filter
  field. Pending `setTimeout` callbacks are an explicit queue.
- `audio_nodes.dfy` (`AudioNodes`): Web Audio nodes as records of the fields
  the code sets. An AudioParam timeline is an event list, and
  `cancelScheduledValues` is a function on it.
- `params.dfy` (`Params`): the parameter object. Its twelve keys are an enum,
  and the dynamic-key spread `{ ...prev, [key]: value }` is `Set`.
- `app_state.dfy` (`AppState`): the context provider's initial state and its
  reducers (presets, parameters, the timer, favourites).
- `controller.dfy` (`Controller`): the handlers of the context-based
  generator. Each returns the new state and the list of engine and timer
  calls it makes. This covers parameter routing (volume fades, seven keys
  restart the audio, the rest do nothing here), play/pause, preset and
  favourite loading, and the one-second sleep-timer countdown.
- `timer_controls.dfy` (`TimerControls`): `formatTime` and the timer panel's
  choice between a countdown and the 15/30/60-minute buttons.
- `color_label.dfy` (`ColorLabel`): `getColorLabel`, a clamped bucket index.
- `legacy_generator.dfy` (`LegacyGenerator`): the standalone generator
  component that the entry point renders. This covers its colour-label chain,
  its wall-clock timer (`startTimer`, `updateTimerDisplay`, `toggleTimer`,
  Escape), and its single-source player (`initAudio`, `createAmbientAudio`,
  `togglePlay`, the colour effect, `updateVolume`).
- `visualization.dfy` (`Visualization`): the spectrum canvas. It has the
  bin/bar index arithmetic, the fade opacity, the visibility decision and the
  last-frame store (arrays copied in place). It also has the play/pause
  effect.
- `text.dfy` (`Text`): decimal rendering of naturals and `padStart(2, "0")`,
  with a reading function for stating round trips. `wrappers.dfy`
  (`Wrappers`): Option and Result.

## Model

| member | source | states |
|---|---|---|
| Text.NatToString | src/components/TimerControls.jsx:4 | `${n}` for n ≥ 0 is at least one digit, all digits, a single digit exactly when n < 10, and has no leading zero |
| Text.ParseNatToString | src/components/TimerControls.jsx:4 | reading the rendered digits back gives the number: the rendering loses nothing |
| Text.PadStart2 | src/components/TimerControls.jsx:4 | `padStart(2, "0")`: the length becomes max(2, length), the original is the suffix, and everything before it is '0' |
| Text.TwoDigits | src/components/TimerControls.jsx:3-4 | a number below 100, rendered and padded, is exactly two digits that read back as the number |
| TimerControls.FormatTime | src/components/TimerControls.jsx:1-5 | `formatTime(s)` = `${s div 60}:` then `s mod 60` padded to two digits; its properties are stated by FormatTimeShape, FormatTimeLossless and HourShowsAsSixtyMinutes below |
| TimerControls.FormatTimeShape | src/components/TimerControls.jsx:1-5 | `formatTime(s)` is the minutes `s div 60`, a ':', then exactly two digits that read as `s mod 60` |
| TimerControls.FormatTimeLossless | src/components/TimerControls.jsx:1-5 | both halves are digit strings, and minutes·60 + seconds read back from them equals s |
| TimerControls.HourShowsAsSixtyMinutes | src/components/TimerControls.jsx:2-4 | no hour rollover: 3600 s shows as "60:00" |
| TimerControls.View | src/components/TimerControls.jsx:14-46 | an active timer shows formatTime(remaining) (the Cancel view); an inactive one shows start buttons for exactly 15, 30 and 60 minutes |
| ColorLabel.LabelIndex | src/utils/helpers.js:9 | `min(floor(c/10), 4)`: it is in [0, 4] for c ≥ 0, below 4 exactly when c < 40, and when below 4 c lies in [10i, 10i+10) |
| ColorLabel.GetColorLabel | src/utils/helpers.js:1-11 | a label exists exactly when c ≥ 0 (a negative index gives undefined), and it is one of the five labels |
| ColorLabel.Buckets | src/utils/helpers.js:2-10 | 0–9 Dark Brown, 10–19 Brown, 20–29 Pink-Brown, 30–39 Pink, and every value from 40 up is Pink-White |
| ColorLabel.IndexMonotone | src/utils/helpers.js:9 | c1 ≤ c2 implies index(c1) ≤ index(c2) |
| Params.Get | src/context/AmbientAudioContext.jsx:59 | `params[k]` holds a value of the key's kind (a boolean exactly for the three switch keys) |
| Params.Set | src/context/AmbientAudioContext.jsx:52 | after `{ ...p, [k]: v }`, key k reads v and every other key reads as in p |
| Params.GetDetermines | src/context/AmbientAudioContext.jsx:52 | two parameter sets that agree on every key are equal, so per-key frame facts determine the whole set |
| AppState.Initial | src/context/AmbientAudioContext.jsx:18-28 | not playing, preset "deepFocus" with its parameters, no advanced panel, not fading, timer {false, 0, 30}, no favourites; an error exactly when the table lacks "deepFocus" |
| AppState.LoadPreset | src/context/AmbientAudioContext.jsx:39-48 | "custom" changes only the preset name; a known key sets the parameters to the preset's and the name to the key and nothing else; an unknown key is an error |
| AppState.UpdateParam | src/context/AmbientAudioContext.jsx:51-54 | key k becomes v, every other key is unchanged, the preset becomes "custom", and no other field changes |
| AppState.ToggleParam | src/context/AmbientAudioContext.jsx:57-63 | switch k is negated, every other key is unchanged, the preset becomes "custom", and no other field changes |
| AppState.CancelTimer | src/context/AmbientAudioContext.jsx:66-68 | the timer becomes inactive with 0 remaining, its duration is kept, and nothing else changes |
| AppState.FavoriteName | src/context/AmbientAudioContext.jsx:74 | the name is "Custom " followed by digits that read back as n |
| AppState.SaveFavorite | src/context/AmbientAudioContext.jsx:71-85 | exactly one entry is appended, named for the old length + 1 and holding the current parameters and time; earlier entries and all other fields are unchanged |
| AppState.Without | src/context/AmbientAudioContext.jsx:89 | `filter((_, i) => i !== index)` removes exactly the entry at an in-range index; an out-of-range index removes nothing |
| AppState.DeleteFavorite | src/context/AmbientAudioContext.jsx:87-96 | one entry fewer, entries before the index unchanged, later entries shifted down by one; out of range leaves the state unchanged |
| AppState.LoadFavorite | src/context/AmbientAudioContext.jsx:98-101 | every key reads as in the loaded set, the preset becomes "custom", and nothing else changes |
| AppState.ToggleTwice | src/context/AmbientAudioContext.jsx:57-63 | toggling a switch twice restores the parameters |
| AppState.UpdateSameValue | src/context/AmbientAudioContext.jsx:51-54 | writing back a key's current value changes no parameter |
| AppState.DeleteUndoesSave | src/context/AmbientAudioContext.jsx:71-96 | deleting the entry just saved gives back the state before the save |
| AppState.SaveAfterDeleteRepeatsName | src/context/AmbientAudioContext.jsx:74 | names follow the list length, so save, save, delete the first, save leaves two favourites both named "Custom 2" |
| AudioNodes.CancelFrom | src/hooks/useAmbientAudio.js:170 | `cancelScheduledValues(t)`: every kept event is earlier than t and was scheduled, every earlier event is kept, the result is no longer, and when every event is earlier than t nothing changes; order and multiplicity are fixed by CancelOne and CancelAppend |
| AudioNodes.CancelOne | src/hooks/useAmbientAudio.js:170 | a single event survives exactly when it is earlier than t |
| AudioNodes.CancelSnoc | src/hooks/useAmbientAudio.js:170 | a later-scheduled event is appended to the result exactly when it is earlier than t |
| AudioNodes.CancelAppend | src/hooks/useAmbientAudio.js:170 | cancelling splits over concatenation, so the kept events stay in their order and with their multiplicity |
| AudioNodes.CancelIdempotent | src/hooks/useAmbientAudio.js:170 | cancelling twice from the same time equals cancelling once |
| AudioNodes.CancelDropsEventAt | src/hooks/useAmbientAudio.js:257-261 | an event scheduled at t itself is removed by a cancellation from t |
| Engine.ResonanceOnPathIff | src/hooks/useAmbientAudio.js:236-241 | a resonance stage lies on the wired path exactly when resonance is on |
| Engine.ResonanceBank | src/hooks/useAmbientAudio.js:72-81 | the loop pushes exactly three peaking filters at 200, 600 and 1000 Hz, Q 0.7, +1.5 dB |
| Engine.ConnectChain | src/hooks/useAmbientAudio.js:216-252 | the connections link source → bass → high-cut → speech mask → presence → [resonance filters, only when on] → compressor → gain → analyser → destination, pairwise and in order |
| Engine.ConnectFront | src/hooks/useAmbientAudio.js:217-233 | the first four connections link source → bass → high-cut → speech mask → presence, ending at presence |
| Engine.ConnectResonance | src/hooks/useAmbientAudio.js:236-241 | each resonance filter is connected after the current node, in bank order |
| Engine.ConnectBack | src/hooks/useAmbientAudio.js:243-252 | the last node is connected to compressor → gain → analyser → destination |
| Engine.AudioEngine.constructor | src/hooks/useAmbientAudio.js:5-16 | every ref is empty, except that the target volume is volume / 100 |
| Engine.AudioEngine.InitAudio | src/hooks/useAmbientAudio.js:19-83 | the first call creates the context, the analyser (4096, 0.8), the gain at volume/100, lowshelf 150 Hz at bassBoost, lowpass at highCut Q 0.7, peaking 375 Hz Q 1.5 at speechMask, peaking 3000 Hz Q 1.2 at presence, compressor −24/30/3/0.003/0.25 and the resonance bank; a later call changes nothing |
| Engine.AudioEngine.FadeVolume | src/hooks/useAmbientAudio.js:164-183 | with no gain node nothing changes; otherwise events from now on are cancelled, the gain is pinned at its current value and ramps linearly to the target, isFading is set, and a callback to clear it is queued after duration·1000 ms |
| Engine.AudioEngine.StartSource | src/hooks/useAmbientAudio.js:207-214 | a suspended context is resumed; a new looping source over 2 channels of sampleRate × 60 frames becomes current and starts playing |
| Engine.AudioEngine.StartAudio | src/hooks/useAmbientAudio.js:207-271 | a new looping source plays, the chain is wired as in ChainOrder, and the gain timeline keeps the events before the fade's clock reading, then the zero pin if the clock moved on since the pin's reading, then the pin at the reported value and a 3 s ramp to the target; a fade-end is queued, and the nodes and the target are unchanged |
| Engine.AudioEngine.FadeIn | src/hooks/useAmbientAudio.js:256-261 | pinning at 0 at one clock reading and fading from a later one leaves the fade's timeline with the zero pin kept exactly when the two readings differ |
| Engine.PinSurvivesIffClockMoved | src/hooks/useAmbientAudio.js:169-170 | the zero pin made at reading pinAt survives the fade's cancellation from reading now ≥ pinAt exactly when pinAt < now |
| Engine.AudioEngine.PinGain | src/hooks/useAmbientAudio.js:257-260 | `setValueAtTime(v, now)` appends one event to the gain timeline |
| Engine.AudioEngine.StopAudio | src/hooks/useAmbientAudio.js:274-297 | with no source nothing changes; an immediate stop stops and drops the source; otherwise the gain fades to 0 over 2 s and a teardown is queued after 2000 ms |
| Engine.AudioEngine.RunCallback | src/hooks/useAmbientAudio.js:283-289 | running a queued callback removes it; a fade-end clears isFading; a teardown stops and drops whichever source is current when it runs, if any |
| Engine.AudioEngine.UpdateSpeechMask | src/hooks/useAmbientAudio.js:300-304 | only the speech-mask filter's gain changes, and only once the nodes exist |
| Engine.AudioEngine.UpdatePresence | src/hooks/useAmbientAudio.js:306-310 | only the presence filter's gain changes, and only once the nodes exist |
| Engine.AudioEngine.UpdateBassBoost | src/hooks/useAmbientAudio.js:312-316 | only the bass filter's gain changes, and only once the nodes exist |
| Engine.AudioEngine.UpdateHighCut | src/hooks/useAmbientAudio.js:318-322 | only the low-pass frequency changes, and only once the nodes exist |
| Engine.AudioEngine.SyncTargetVolume | src/hooks/useAmbientAudio.js:324-328 | the target becomes volume/100 only while it is non-zero, so once it is 0 it stays 0 |
| Engine.PlayThenPause | src/hooks/useAmbientAudio.js:207-297 | after one start and one fading stop, source 0 still plays and its teardown is queued |
| Engine.RestartBeforeTeardown | src/hooks/useAmbientAudio.js:283-289 | play, pause and play again before the 2000 ms teardown: the teardown stops the new source, and the old source keeps playing with no ref left to stop it |
| Controller.KeyClassification | src/components/AmbientAudioGenerator2.jsx:84-107 | every key is exactly one of: volume, a restart key, a live (in-place) key |
| Controller.HandleUpdateParam | src/components/AmbientAudioGenerator2.jsx:80-118 | the reducer always runs; volume fades to v/100 over 0.5 s unless fading and never restarts; a restart happens exactly for a restart key while playing; live keys make no call here |
| Controller.TogglePlay | src/components/AmbientAudioGenerator2.jsx:53-62 | stopped → init, start, playing; playing → fading stop, not playing |
| Controller.HandleLoadPreset | src/components/AmbientAudioGenerator2.jsx:65-77 | it fails exactly when the reducer fails; otherwise audio restarts exactly when the key is not "custom" and audio is playing |
| Controller.HandleLoadFavorite | src/components/AmbientAudioGenerator2.jsx:170-182 | the parameters are loaded, and audio restarts exactly when playing |
| Controller.HandleStartTimer | src/components/AmbientAudioGenerator2.jsx:121-160 | an existing interval is cleared, the timer becomes {true, minutes·60, minutes}, and a one-second interval is set |
| Controller.HandleCancelTimer | src/components/AmbientAudioGenerator2.jsx:162-167 | an existing interval is cleared and the timer is cancelled |
| Controller.Tick | src/components/AmbientAudioGenerator2.jsx:134-156 | the count drops by one; at ≤ 0 the timer resets with its duration kept, the interval clears, and playback stops if the callback saw it on; in the last 10 s each such tick asks for a 10 s fade to 0 |
| Controller.CountdownCalls | src/components/AmbientAudioGenerator2.jsx:133-157 | a countdown from r seconds ends inactive at 0; while playing it fades on each of the last min(r−1, 10) ticks and then clears and stops |
| Controller.StartedTimerRunsOut | src/components/AmbientAudioGenerator2.jsx:121-157 | a timer of at least a minute started while playing makes exactly ten fade requests, then clears the interval and stops the audio |
| LegacyGenerator.LegacyColorLabel | src/components/AmbientAudioGenerator.jsx:133-143 | ≤ 0.010 Dark Brown, ≤ 0.020 Brown, ≤ 0.030 Pink-Brown, ≤ 0.040 Pink, above that Pink-White; always one of the five labels |
| LegacyGenerator.LegacyIndex | src/components/AmbientAudioGenerator.jsx:133-143 | the chain's label position: buckets closed on the right (10i, 10i+10] |
| LegacyGenerator.LabelsDisagreeOnlyAtEdges | src/components/AmbientAudioGenerator.jsx:133-143 | this chain and `getColorLabel` agree on every colour ≥ 0 except exactly 10, 20, 30 and 40 |
| LegacyGenerator.RemainingText | src/components/AmbientAudioGenerator.jsx:210-216 | the countdown text for diff > 0 ms; what it shows is stated by RemainingTextIsFormatTime, WholeMinutesText and DelayedRefreshText below |
| LegacyGenerator.RemainingTextIsFormatTime | src/components/AmbientAudioGenerator.jsx:211-216 | the remaining text for diff ms is formatTime(diff div 1000) followed by " remaining" |
| LegacyGenerator.UpdateTimerDisplay | src/components/AmbientAudioGenerator.jsx:187-217 | one refresh at clock reading `now`; its three cases are stated by TickWithoutTimer, TickBeforeEnd and TickAtEnd below |
| LegacyGenerator.TickWithoutTimer | src/components/AmbientAudioGenerator.jsx:188-191 | with no end time the display becomes "" and nothing else happens |
| LegacyGenerator.TickBeforeEnd | src/components/AmbientAudioGenerator.jsx:193-216 | before the end only the display changes, to the formatted remaining whole seconds and " remaining" |
| LegacyGenerator.TickAtEnd | src/components/AmbientAudioGenerator.jsx:196-207 | at or past the end "Time's up!" shows and the end time is dropped; the calls are exactly: clear the interval, then toggle playback if and only if it is on |
| LegacyGenerator.StartTimer | src/components/AmbientAudioGenerator.jsx:166-185 | `startTimer()` with the two clock readings it makes (the end time's `new Date()` and the refresh's); its cases are stated by StartTimerRejects, StartTimerStarts and StartTimerOverdue below |
| LegacyGenerator.StartTimerRejects | src/components/AmbientAudioGenerator.jsx:166-173 | a count ≤ 0 clears the interval and shows "Please enter a valid time"; the end time is untouched |
| LegacyGenerator.StartTimerStarts | src/components/AmbientAudioGenerator.jsx:166-185 | a positive count sets the end time that many minutes after the first clock reading; if the refresh's reading is still before it, the display shows what is left of the span at that reading (the whole span when both readings agree); the old interval is cleared and a new one started |
| LegacyGenerator.StartTimerOverdue | src/components/AmbientAudioGenerator.jsx:176-184 | if the refresh's reading is already at or past the end time, the refresh ends the timer ("Time's up!", no end time, playback toggled when on), and the interval is still started after it |
| LegacyGenerator.StartedShowsRemaining | src/components/AmbientAudioGenerator.jsx:181-216 | once an end time is set after `now`, the refresh at `now` shows the remaining text for end − now and changes nothing else |
| LegacyGenerator.WholeMinutesText | src/components/AmbientAudioGenerator.jsx:210-216 | a whole number m of minutes shows as "m:00 remaining" (the display when both clock readings agree) |
| LegacyGenerator.DelayedRefreshText | src/components/AmbientAudioGenerator.jsx:210-216 | a refresh 1 to 1000 ms after the end time was set shows formatTime(60m − 1), i.e. (m−1):59 |
| LegacyGenerator.ToggleTimer | src/components/AmbientAudioGenerator.jsx:219-229 | a running timer is cancelled (no end time, empty display, interval cleared); otherwise a timer is started with the given clock readings |
| LegacyGenerator.EscapePressed | src/components/AmbientAudioGenerator.jsx:237-243 | Escape cancels a running timer and changes nothing otherwise |
| LegacyGenerator.ToggleAndEscapeAgreeWhenRunning | src/components/AmbientAudioGenerator.jsx:219-243 | on a running timer, the toggle and Escape have the same effect |
| LegacyGenerator.LegacyPlayer.constructor | src/components/AmbientAudioGenerator.jsx:7-8 | nothing is created, playback is off, and the volume is 0.5 |
| LegacyGenerator.LegacyPlayer.InitAudio | src/components/AmbientAudioGenerator.jsx:27-44 | the first call creates the context, the gain at the current volume and a 1000 Hz Q 0.7 low-pass; later calls change nothing |
| LegacyGenerator.LegacyPlayer.CreateAmbientAudio | src/components/AmbientAudioGenerator.jsx:47-83 | the graph is created as InitAudio does if missing and kept otherwise; any existing source is stopped; a new looping source with the next id, over a mono buffer of sampleRate × 5 frames at the context's rate, becomes current, not yet started; nothing plays |
| LegacyGenerator.LegacyPlayer.TogglePlay | src/components/AmbientAudioGenerator.jsx:86-120 | isPlaying flips; starting creates the graph if missing (kept otherwise) and leaves exactly one new looping mono five-second source, with the next id, playing; stopping drops the source, leaves nothing playing and keeps the graph; the volume is untouched |
| LegacyGenerator.LegacyPlayer.RecreateIfPlaying | src/components/AmbientAudioGenerator.jsx:145-162 | while playing, the current source is stopped and exactly one new looping mono five-second source, with the next id, plays, and the graph is kept (or created if missing); while paused the graph, the source, the playing set and the id counter are unchanged; isPlaying and the volume are never changed |
| LegacyGenerator.LegacyPlayer.UpdateVolume | src/components/AmbientAudioGenerator.jsx:123-128 | the volume state and, once it exists, the gain follow the new value; the player invariant is kept |
| Visualization.MaxBinIndex | src/components/VisualizationCanvas.jsx:77-80 | the last bin to show is at most bufferLength − 1; it is the largest bin whose start frequency is at most maxFreq, unless capped |
| Visualization.MaxBarIndex | src/components/VisualizationCanvas.jsx:86-90 | the last bar is at most 127; it is the largest bar whose data index stays within maxBin, unless capped |
| Visualization.DataIndex | src/components/VisualizationCanvas.jsx:133 | `floor(i·bufferLength/128)` for a bar i < 128 is a valid index into the data |
| Visualization.BarsReadShownBins | src/components/VisualizationCanvas.jsx:83-90 | every drawn bar reads a bin no later than maxBinIndex, and so inside the data |
| Visualization.FadeOpacity | src/components/VisualizationCanvas.jsx:50 | during a fade the opacity is positive, at most 1, and exactly 1 at its start |
| Visualization.FadeOpacityDecreases | src/components/VisualizationCanvas.jsx:31-51 | later in a fade the picture is strictly fainter |
| Visualization.ClearOpacity | src/components/VisualizationCanvas.jsx:123 | the background wash is in [0.25, 1]; it is 0.25 at full opacity and higher while fading |
| Visualization.BarHeight | src/components/VisualizationCanvas.jsx:134-135 | a bar is between 0 and 80% of the canvas height, and 0 for a silent bin |
| Visualization.Bars | src/components/VisualizationCanvas.jsx:129-135 | one bar for each of bars 0 to maxBarIndex |
| Visualization.BarsFitCanvas | src/components/VisualizationCanvas.jsx:134-135 | no drawn bar is negative or taller than 80% of the canvas |
| Visualization.BarHeights | src/components/VisualizationCanvas.jsx:132-135 | the bar loop computes exactly Bars |
| Visualization.Decide | src/components/VisualizationCanvas.jsx:17-66 | no canvas or analyser stops; a fade ends exactly when elapsed ≥ 2000 ms; a drawn frame has the fade opacity in (0, 1] or 1 without a fade |
| Visualization.FadeAlwaysDraws | src/components/VisualizationCanvas.jsx:55-58 | while a fade runs the picture is always drawn, since its opacity test never fails |
| Visualization.IdleStops | src/components/VisualizationCanvas.jsx:19 | without a fade the picture is drawn at full opacity exactly when the source ref is not null (an absent ref counts as active) or playback is on with a stored frame |
| Visualization.Visualizer.constructor | src/components/VisualizationCanvas.jsx:9-13 | no fade, no animation frame, no stored frames |
| Visualization.SilenceDrawsFlat | src/components/VisualizationCanvas.jsx:95-100 | a fresh zero-filled store draws every bar at height 0 |
| Visualization.Visualizer.RefreshStores | src/components/VisualizationCanvas.jsx:95-117 | a missing store is made zero-filled, an existing one is kept; with active audio both stores then hold the fresh frames |
| Visualization.Visualizer.CopyFrame | src/components/VisualizationCanvas.jsx:111-112 | `TypedArray.set` copies the frame into the store in place |
| Visualization.Visualizer.Visualize | src/components/VisualizationCanvas.jsx:17-188 | the frame follows Decide: halting and ending a fade cancel the loop and leave the stores alone; drawing stores the fresh frame when audio is active, otherwise keeps the stored one, or an all-zero frame if none was stored, and draws Bars of the stored frame with ClearOpacity |
| Visualization.Visualizer.PlayPauseEffect | src/components/VisualizationCanvas.jsx:191-218 | starting play forgets the fade and both stored frames; pausing with an analyser and no fade starts a fade now; the loop is started exactly when playing or fading, with an analyser, and no frame pending |

## Left out

- Noise synthesis (the per-sample random and filtered fill loops of both generators) and the resonance-frequency drift animation are not modelled. They are floating-point recurrences over `Math.random` and `Math.sin`/`Math.cos`. Only the buffer shapes and the base frequencies 200 + 400·i remain.
- Web Audio semantics are not modelled: filter responses, the compressor, the analyser FFT, ramp interpolation, and the accumulation of repeated `connect` calls. Nodes are records of the fields the code sets, and a `startAudio` chain is the list of connections that one call makes.
- Engine.PlayThenPause, Engine.RestartBeforeTeardown: each start in these scenarios takes its two audio-clock readings as equal, because the scenarios are about sources and teardowns, not the gain timeline.
- Engine.AudioEngine.FadeVolume: the gain value the fade pins at (`gain.value`, which the device computes) is a parameter `current`, because the model has no audio clock.
- Clocks are parameters (`now`), not modelled time. `setTimeout`, `setInterval` and `requestAnimationFrame` are not scheduled in time: the engine queues callbacks and runs them in any order the caller picks, and the handlers return the calls they would schedule. This includes the 100 ms restart that `handleUpdateParam`, `handleLoadPreset` and `handleLoadFavorite` queue, which is returned as a call and not run.
- `localStorage` persistence of favourites is I/O and is not modelled.
- React closures: state a callback captured (`isPlaying` in the interval callback, `isFading`) is an explicit argument, and state setters are record updates. `AppState.State.isFading` is the React state; `Engine.AudioEngine.isFading` is the engine's view of the same flag, standing for the writes the hook makes through `setIsFading`. The two are not linked in the model.
- The preset table's contents are not part of this model. Presets are an abstract map.
- In the last ten seconds of the context-based timer every tick asks for a fade, not just the first. The model follows the code here.
- The switches of the advanced panel call `toggleParam` directly. So the restart routing of `handleUpdateParam` for ampMod, fletcherMunson and resonance is never reached from that panel. The panels themselves are not modelled.
- Canvas drawing, gradients, the waveform, the particle and wave animations, resize handling, and the Space shortcut are not modelled. Neither is the `console.log` or the presentational components.
- `stopAudio` cancelling the animation frame is not modelled, because the frame loop is in the canvas component.
- LegacyGenerator.LegacyPlayer.TogglePlay: resuming a suspended context is not modelled, because the context is only its sample rate.
- LegacyGenerator.StartTimer, LegacyGenerator.StartTimerStarts: minute counts are integers. The input stores `parseInt(...) || 0`, so the NaN test can never fire. The end time is `setAt + minutes·60000` ms rather than a `Date` moved by `setMinutes`, so local-time effects of `setMinutes` (a daylight-saving change inside the span) are not modelled.
- LegacyGenerator.StartTimer: times are unbounded integers. A JavaScript `Date` only holds ±8.64·10^15 ms; an end time beyond that is an Invalid Date, whose difference is NaN, and the display would then read "NaN:NaN remaining" on every tick and never end. The model does not have this case.
- TimerControls.View: requires a non-negative count, because the timer never holds a negative one. `formatTime` of a negative number is not modelled.
- Visualization.MaxBinIndex: the floating-point expression `floor((maxFreq / nyquist) · bufferLength)` is modelled as the exact integer quotient `floor(2·maxFreq·bufferLength / sampleRate)`. Floating-point rounding is not modelled.
- Bar heights and opacities are exact reals, with no floating-point rounding.
