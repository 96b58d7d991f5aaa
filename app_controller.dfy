/**
  The `App` component's controller as an object whose handlers update its
  fields in place. The four tracks live in a fixed array whose entries the
  handlers overwrite one field at a time. Every handler is proved to move
  the object from `old(State())` to the state the corresponding function of
  ControllerState computes, so every property proved there holds of it.
 */
module AppController {
  import opened ControllerState

  class App {
    var mode: Mode
    var engine: EngineKind
    var params: SynthParams
    var tapeSpeed: TapeSpeed
    const tracks: array<Track>
    var activeTrackIndex: nat
    var isGlobalPlaying: bool
    var isGlobalRecording: bool
    var hasStarted: bool
    /** The calls made into the audio engine so far, oldest first. */
    var calls: seq<EngineCall>

    /** The controller's fields as one value. */
    function State(): AppState
      reads this, tracks
    {
      AppState(mode, engine, params, tapeSpeed, tracks[..], activeTrackIndex,
               isGlobalPlaying, isGlobalRecording, hasStarted, calls)
    }

    ghost predicate Valid()
      reads this, tracks
    {
      ControllerState.Valid(State())
    }

    /** The component's initial state: four idle, empty tracks, knobs at 50, 1x speed. */
    constructor ()
      ensures Valid() && State() == Initial() && fresh(tracks)
    {
      mode := Synth;
      engine := Poly;
      params := SynthParams(50, 50, 50, 50);
      tapeSpeed := Unity;
      tracks := new Track[][NewTrack(0), NewTrack(1), NewTrack(2), NewTrack(3)];
      activeTrackIndex := 0;
      isGlobalPlaying := false;
      isGlobalRecording := false;
      hasStarted := false;
      calls := [];
    }

    method UpdateParam(k: Knob, v: int)
      requires Valid()
      modifies this
      ensures Valid() && State() == ControllerState.UpdateParam(old(State()), k, v)
    {
      var newParams := params.Set(k, v);
      params := newParams;
      calls := calls + [UpdateParams(newParams)];
    }

    method HandleTapeSpeedChange(speed: TapeSpeed)
      requires Valid()
      modifies this
      ensures Valid() && State() == ChangeTapeSpeed(old(State()), speed)
    {
      tapeSpeed := speed;
      calls := calls + [SetTapeSpeed(speed)];
    }

    /** `initOk` is whether the engine's init resolved. */
    method HandleStart(initOk: bool)
      requires Valid()
      modifies this
      ensures Valid() && State() == Start(old(State()), initOk)
    {
      calls := calls + [Init];
      if initOk {
        hasStarted := true;
      }
    }

    method HandleEngineChange(kind: EngineKind)
      requires Valid()
      modifies this
      ensures Valid() && State() == ChangeEngine(old(State()), kind)
    {
      engine := kind;
      calls := calls + [SetEngine(kind)];
      calls := calls + [UpdateParams(params)];
    }

    method SetMode(m: Mode)
      requires Valid()
      modifies this
      ensures Valid() && State() == SelectMode(old(State()), m)
    {
      mode := m;
    }

    /** `finished` is what the engine's stopRecording returned (None for null);
        it is used only when a recording is stopped. */
    method ToggleRecording(finished: Option<Buffer>)
      requires Valid()
      modifies this, tracks
      ensures Valid() && State() == ControllerState.ToggleRecording(old(State()), finished)
    {
      var a := activeTrackIndex;
      if isGlobalRecording {
        calls := calls + [StopRecording(a)];
        tracks[a] := tracks[a].(buffer := finished);
        tracks[a] := tracks[a].(isRecording := false);
        isGlobalRecording := false;
      } else {
        calls := calls + [StartRecording];
        tracks[a] := tracks[a].(isRecording := true);
        isGlobalRecording := true;
      }
    }

    method TogglePlayback()
      requires Valid()
      modifies this
      ensures Valid() && State() == ControllerState.TogglePlayback(old(State()))
    {
      if isGlobalPlaying {
        calls := calls + [StopTape];
        isGlobalPlaying := false;
      } else {
        calls := calls + [PlayTape];
        isGlobalPlaying := true;
      }
    }

    method ToggleTrackLoop(i: nat)
      requires Valid() && i < TrackCount
      modifies this, tracks
      ensures Valid() && State() == ControllerState.ToggleTrackLoop(old(State()), i)
    {
      var on := !tracks[i].isLooping;
      tracks[i] := tracks[i].(isLooping := on);
      calls := calls + [SetTrackLoop(i, on)];
    }

    method ClearTrack(i: nat)
      requires Valid() && i < TrackCount
      modifies this, tracks
      ensures Valid() && State() == ControllerState.ClearTrack(old(State()), i)
    {
      calls := calls + [EngineClearTrack(i)];
      tracks[i] := tracks[i].(buffer := None);
      tracks[i] := tracks[i].(isLooping := false);
    }

    method StopEverything(finished: Option<Buffer>)
      requires Valid()
      modifies this, tracks
      ensures Valid() && State() == ControllerState.StopEverything(old(State()), finished)
    {
      calls := calls + [StopTape];
      isGlobalPlaying := false;
      if isGlobalRecording {
        ToggleRecording(finished);
      }
    }

    /** The loop button, guarded on the active track holding a buffer. */
    method LoopButton()
      requires Valid()
      modifies this, tracks
      ensures Valid() && State() == ControllerState.LoopButton(old(State()))
    {
      if tracks[activeTrackIndex].buffer.Some? {
        ToggleTrackLoop(activeTrackIndex);
      }
    }

    /** The clear button, guarded on the active track holding a buffer. */
    method ClearButton()
      requires Valid()
      modifies this, tracks
      ensures Valid() && State() == ControllerState.ClearButton(old(State()))
    {
      if tracks[activeTrackIndex].buffer.Some? {
        ClearTrack(activeTrackIndex);
      }
    }

    /** Track button `idx`, counted from 0. */
    method TrackButton(idx: nat)
      requires Valid()
      modifies this, tracks
      ensures Valid() && State() == ControllerState.TrackButton(old(State()), idx)
    {
      if idx < TrackCount {
        activeTrackIndex := idx;
      } else if idx < TrackCount + TrackCount && tracks[idx - TrackCount].buffer.Some? {
        ToggleTrackLoop(idx - TrackCount);
      }
    }

    /** A keyboard note: attack on key down, release on key up. */
    method KeyEvent(note: int, down: bool)
      requires Valid()
      modifies this
      ensures Valid() && State() == Key(old(State()), note, down)
    {
      if down {
        calls := calls + [TriggerAttack(note)];
      } else {
        calls := calls + [TriggerRelease(note)];
      }
    }
  }
}
