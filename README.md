# OP-Field front-panel controller, modelled in Dafny

This project models the controller behind the OP-Field front panel. The panel is the `App` component of a browser "field synthesizer". It keeps:

- four tape tracks (recording, muted, volume, looping, optional recorded buffer);
- the active track;
- the global playing and recording flags;
- the four knob values (blue, green, white, red);
- the tape speed, the selected synthesis engine, the page mode, and whether the engine has started.

The model covers the event handlers that change this state, and the calls the handlers make into the audio engine.

Files:

- `controller_state.dfy` (module `ControllerState`): the state as values. It has one function per handler, `Step` for one user event (including the start-screen gate) and `Run` for a sequence of events.
- `controller_properties.dfy` (module `ControllerProperties`): lemmas about the handlers. They cover loop involution, clear idempotence, the record round trip and the track-switch quirk. There is also an invariant, `Settled`, that every run from power-on keeps.
- `app_controller.dfy` (module `AppController`): class `App`. Its fields are the component's state, and the four tracks sit in a fixed array whose entries the handlers overwrite in place. Each method is proved to take `old(State())` to the result of the matching `ControllerState` function.

The audio engine is not modelled. Each call into it is appended to a `calls` log and has no other effect. The controller awaits three engine calls: `init`, `startRecording` and `stopRecording`. What the model takes from them:

- whether `init` resolved is a parameter of `Start`;
- the buffer `stopRecording` returned is a parameter of `ToggleRecording` and `StopEverything`. A null result becomes `None`. Any returned buffer object is truthy, so the code's null-to-undefined fallback keeps it;
- `startRecording` and `stopRecording` are taken to resolve (see "## Left out").

Tape speeds are the enumeration `TapeSpeed` (`Half`, `Unity`, `Double`). Those are the only values the speed buttons pass.

The recording quirk is kept as written:

- Starting a recording flags the track that is active at that moment.
- Stopping writes the buffer to, and clears the flag of, the track that is active at that moment.

So if the user switches tracks mid-recording, the first track keeps `isRecording = true` until a recording is next stopped with that track active (`SwitchTrackWhileRecording`, and `SwitchTrackWhileRecordingReachable` for any run from power-on).

Consequences of the code as written, each modelled as it is:

- Two tracks can be flagged as recording at the same time (`TwoTracksRecording` gives the event sequence).
- Play can be pressed while recording, and both global flags are then set (`PlayingWhileRecording`).
- No handler reports an error. The buttons only ever pass track indices 0–3 and the three offered speeds, and the record button toggles between starting and stopping.
- Starting a recording does not drop the track's previous buffer. That buffer stays loopable and clearable until recording stops. It is then overwritten, and lost if the engine returned null.
- The stop button always calls `stopTape`, even when the tape is not playing. The log records every call.

## Model

| member | source | states |
|---|---|---|
| `ControllerState.SynthParams.Set` | App.tsx:28-29 | the knob set to the new value reads back that value; every other knob reads back unchanged |
| `ControllerState.TapeSpeed.Factor` | App.tsx:234-240 | every setting's multiplier is one of the offered 0.5, 1.0 and 2.0, positive and at most 4; below 1 exactly for 0.5x, 1 exactly for 1x, above 1 exactly for 2x, so distinct settings have distinct values |
| `ControllerState.Initial` | App.tsx:10-26 | four valid tracks with ids 0..3, none recording, muted, looping or holding a buffer, volume 1; knobs all 50; 1x speed; active track 0; synth mode, poly engine; not playing, recording or started; no engine calls |
| `ControllerState.UpdateParam` | App.tsx:28-32 | only knob `k` changes, to `v`; the engine is sent the whole new knob record; nothing else changes |
| `ControllerState.ChangeTapeSpeed` | App.tsx:34-37 | the panel's speed becomes the chosen one and the engine is sent that speed; nothing else changes |
| `ControllerState.Start` | App.tsx:39-42 | the engine's init is called; the panel counts as started only if init succeeded; nothing else changes |
| `ControllerState.ChangeEngine` | App.tsx:44-48 | the engine kind becomes the chosen one; the engine is told to switch and then sent the current knobs; nothing else changes |
| `ControllerState.SelectMode` | App.tsx:130-131 | only the panel mode changes |
| `ControllerState.ToggleRecording` | App.tsx:50-65 | recording flag flips; starting flags the active track and calls startRecording; stopping stores the returned buffer in the active track, clears its flag and calls stopRecording for it; other tracks, active index and playing flag unchanged |
| `ControllerState.TogglePlayback` | App.tsx:67-75 | playing flag flips with a playTape or stopTape call; tracks and recording flag unchanged |
| `ControllerState.ToggleTrackLoop` | App.tsx:77-83 | only track `i`'s loop flag flips; the engine is told the new flag; other tracks, buffers and global flags unchanged |
| `ControllerState.ClearTrack` | App.tsx:85-91 | track `i` ends with no buffer and loop off; the engine is told to clear it; nothing else changes |
| `ControllerState.StopEverything` | App.tsx:93-99 | afterwards neither playing nor recording; the tracks are as the record button's stop would leave them when recording, else untouched; stopTape then, when recording, stopRecording are called |
| `ControllerState.LoopButton` | App.tsx:192-193 | a no-op when the active track has no buffer, otherwise the active track's loop toggle |
| `ControllerState.ClearButton` | App.tsx:198-199 | a no-op when the active track has no buffer, otherwise clearing the active track |
| `ControllerState.TrackButton` | App.tsx:208-216 | buttons 0-3 select that track and change nothing else; buttons 4-7 toggle the loop of track idx-4 only when it holds a buffer; any other press is a no-op; the active track stays in 0..3 |
| `ControllerState.Key` | App.tsx:249-252 | a key press or release sends triggerAttack or triggerRelease for the note and leaves the panel unchanged |
| `ControllerState.Step` | App.tsx:101-118 | before start only the start button acts, every other event leaves the state unchanged; once started the panel stays started; validity is kept |
| `ControllerState.Run` | App.tsx:101-258 | every state reached by any sequence of events has exactly four tracks numbered 0..3 and an active track in 0..3 |
| `ControllerProperties.ToggleTrackLoopTwice` | App.tsx:77-83 | toggling a track's loop twice restores the panel exactly; the engine was told the flipped flag, then the original |
| `ControllerProperties.ClearTrackIdempotent` | App.tsx:85-91 | clearing a track a second time changes nothing on the panel; it only repeats the engine call |
| `ControllerProperties.RecordThenStop` | App.tsx:50-65 | start then stop on the same track leaves it holding exactly the returned buffer and not recording; every other track, the active track, playing flag and knobs as before; the engine saw startRecording then stopRecording for that track |
| `ControllerProperties.SwitchTrackWhileRecording` | App.tsx:52-61 | switching tracks mid-recording leaves the starting track flagged recording with its old buffer, while the returned buffer lands on the newly active track, whose flag is cleared |
| `ControllerProperties.TwoTracksRecording` | App.tsx:50-65 | a concrete five-event run from power-on ends with tracks 0 and 1 both flagged recording |
| `ControllerProperties.PlayingWhileRecording` | App.tsx:67-75 | a concrete run from power-on ends both playing and recording |
| `ControllerProperties.RunSteps` | App.tsx:101-258 | handling two event sequences one after the other equals handling their concatenation; used to carry the quirk to every reachable state |
| `ControllerProperties.SwitchTrackWhileRecordingReachable` | App.tsx:50-65 | after any run from power-on that leaves the panel started and not recording, record, select another track, record again: the first track is still flagged recording, and the new track holds the returned buffer and is active |
| `ControllerProperties.InitialSettled` | App.tsx:12-25 | the initial state is settled: loop flags and transport flags agree with the (empty) engine log |
| `ControllerProperties.ToggleRecordingSettled` | App.tsx:50-65 | the record button keeps the invariant: some track is flagged while recording, and the engine's recording state matches the panel |
| `ControllerProperties.ToggleTrackLoopSettled` | App.tsx:77-83 | a loop toggle keeps the invariant: every track's loop flag equals the last flag the engine was given for it |
| `ControllerProperties.ClearTrackSettled` | App.tsx:85-91 | a clear keeps the invariant: the cleared track's loop is off on the panel, and the logged clear is read as loop-off for the engine (an assumption, see "## Left out") |
| `ControllerProperties.StopEverythingSettled` | App.tsx:93-99 | the stop button keeps the invariant |
| `ControllerProperties.UpdateParamSettled` | App.tsx:28-32 | a knob turn keeps the invariant: the knobs last sent to the engine are the panel's |
| `ControllerProperties.ChangeTapeSpeedSettled` | App.tsx:34-37 | a speed change keeps the invariant: the speed last sent to the engine is the panel's |
| `ControllerProperties.StartSettled` | App.tsx:39-42 | starting the engine keeps the invariant |
| `ControllerProperties.KeySettled` | App.tsx:249-252 | keyboard notes keep the invariant |
| `ControllerProperties.ChangeEngineSettled` | App.tsx:44-48 | an engine switch keeps the invariant: engine kind and knobs last sent are the panel's |
| `ControllerProperties.TogglePlaybackSettled` | App.tsx:67-75 | the play button keeps the invariant: the engine's playing state matches the panel |
| `ControllerProperties.TrackButtonSettled` | App.tsx:208-216 | every track button keeps the invariant |
| `ControllerProperties.StepSettled` | App.tsx:101-258 | every single event keeps the invariant |
| `ControllerProperties.RunSettled` | App.tsx:101-258 | every sequence of events keeps the invariant |
| `ControllerProperties.ReachableSettled` | App.tsx:10-258 | whatever the user does from power-on: four tracks 0..3, active track in 0..3, no track muted or below volume 1, some track flagged while recording, and the engine last told exactly the panel's loop flags (reading a clear as loop-off), transport flags, knobs, engine kind and speed |
| `AppController.App.constructor` | App.tsx:10-26 | the new controller's state is the initial state, and its track array is freshly allocated, so every handler can be called on it |
| `AppController.App.UpdateParam` | App.tsx:28-32 | in place, the state becomes `UpdateParam` of the old state |
| `AppController.App.HandleTapeSpeedChange` | App.tsx:34-37 | in place, the state becomes `ChangeTapeSpeed` of the old state |
| `AppController.App.HandleStart` | App.tsx:39-42 | in place, the state becomes `Start` of the old state |
| `AppController.App.HandleEngineChange` | App.tsx:44-48 | in place, the state becomes `ChangeEngine` of the old state |
| `AppController.App.SetMode` | App.tsx:130-131 | in place, the state becomes `SelectMode` of the old state |
| `AppController.App.ToggleRecording` | App.tsx:50-65 | in place, overwriting one track entry, the state becomes `ToggleRecording` of the old state |
| `AppController.App.TogglePlayback` | App.tsx:67-75 | in place, the state becomes `TogglePlayback` of the old state |
| `AppController.App.ToggleTrackLoop` | App.tsx:77-83 | in place, overwriting track `i` only, the state becomes `ToggleTrackLoop` of the old state |
| `AppController.App.ClearTrack` | App.tsx:85-91 | in place, overwriting track `i` only, the state becomes `ClearTrack` of the old state |
| `AppController.App.StopEverything` | App.tsx:93-99 | stops the tape, then calls the record toggle when recording; the state becomes `StopEverything` of the old state |
| `AppController.App.LoopButton` | App.tsx:192-193 | the state becomes `LoopButton` of the old state |
| `AppController.App.ClearButton` | App.tsx:198-199 | the state becomes `ClearButton` of the old state |
| `AppController.App.TrackButton` | App.tsx:208-216 | the state becomes `TrackButton` of the old state |
| `AppController.App.KeyEvent` | App.tsx:249-252 | the state becomes `Key` of the old state |

## Left out

- The audio engine (`services/audioEngine`) is not part of this model. This covers synthesis, parameter mapping, voice allocation, tape resampling, looping playback and recording capture. Its calls appear only as entries in the `calls` log.
- `components/Display.tsx`, `Knob`, `Keyboard` and the `types` module are not part of this model. Display is rendering only: reel animation and floating-point trigonometry. The others are not available.
- `ControllerState.UpdateParam`: the knob value is an unbounded integer. The range the `Knob` widget produces is not visible, so no bound on it is modelled.
- `Buffer`: a recorded take is an opaque sample sequence. The controller only stores it and tests whether one is present.
- JSX layout and CSS class selection are not modelled. The exceptions are the wiring of buttons to handlers and the start-screen gate, which `Step` models.
- async/await interleaving and React re-rendering are not modelled. Each handler is one atomic transition. The awaited results (init success, the stopped buffer) are inputs to that transition.
- The aliasing from the shallow `[...tracks]` copy is not modelled. Each handler overwrites one entry of the fixed track array, with no sharing between an old and a new array.
- A rejected `init` is modelled only as "the panel stays on the start screen". The engine's own state after such a failure is unknown.
- `ControllerState.ToggleRecording` and `ControllerState.StopEverything` assume that `startRecording` and `stopRecording` resolve. If either rejects, the code stops before updating the panel: the panel keeps its recording flags although the call was made. The model always toggles.
- `ControllerProperties.Settled`: the clause that the engine's loop flags equal the panel's reads the engine's `clearTrack` as switching that track's loop off. The code never calls `setTrackLoop` when clearing a track, and the engine's `clearTrack` is not part of this model.
