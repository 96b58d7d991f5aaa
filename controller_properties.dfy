/**
  Properties of the panel's transitions: how pairs of handlers compose, the
  recording quirk of the record button, and an invariant kept by every
  sequence of events that relates what the panel shows to what the audio
  engine has been told.
 */
module ControllerProperties {
  import opened ControllerState

  /** Pressing loop twice on a track restores the panel; the engine is told twice. */
  lemma ToggleTrackLoopTwice(s: AppState, i: nat)
    requires Valid(s) && i < TrackCount
    ensures var once := ToggleTrackLoop(s, i);
            ToggleTrackLoop(once, i) ==
              s.(calls := s.calls + [SetTrackLoop(i, !s.tracks[i].isLooping),
                                     SetTrackLoop(i, s.tracks[i].isLooping)])
  {
  }

  /** Clearing a track twice leaves the panel as clearing it once does. */
  lemma ClearTrackIdempotent(s: AppState, i: nat)
    requires Valid(s) && i < TrackCount
    ensures var once := ClearTrack(s, i);
            ClearTrack(once, i) == once.(calls := once.calls + [EngineClearTrack(i)])
  {
  }

  /** Record then record again on the same track: that track ends holding
      the returned buffer and not recording; the other tracks, the active
      track, the playback flag and the knobs are as before. */
  lemma RecordThenStop(s: AppState, finished: Option<Buffer>)
    requires Valid(s) && !s.isGlobalRecording
    ensures var r := ToggleRecording(ToggleRecording(s, None), finished);
            var a := s.activeTrackIndex;
            !r.isGlobalRecording &&
            r.tracks[a] == s.tracks[a].(buffer := finished, isRecording := false) &&
            (forall j :: 0 <= j < TrackCount && j != a ==> r.tracks[j] == s.tracks[j]) &&
            r.calls == s.calls + [StartRecording, StopRecording(a)] &&
            r.(tracks := s.tracks, calls := s.calls) == s
  {
  }

  /** Switching the active track while recording: the track that was active
      when recording started keeps its recording flag (until a recording is
      next stopped with that track active), while the buffer and the cleared
      flag go to the track active when recording stops. */
  lemma SwitchTrackWhileRecording(s: AppState, j: nat, finished: Option<Buffer>)
    requires Valid(s) && !s.isGlobalRecording
    requires j < TrackCount && j != s.activeTrackIndex
    ensures var r := ToggleRecording(TrackButton(ToggleRecording(s, None), j), finished);
            var a := s.activeTrackIndex;
            !r.isGlobalRecording && r.activeTrackIndex == j &&
            r.tracks[a].isRecording && r.tracks[a].buffer == s.tracks[a].buffer &&
            r.tracks[j].buffer == finished && !r.tracks[j].isRecording
  {
  }

  /** From power-on, two tracks can be flagged as recording at the same time. */
  lemma TwoTracksRecording()
    ensures var r := Run(Initial(), [StartPressed(true), RecordPressed(None), TrackPressed(1),
                                     RecordPressed(Some([])), RecordPressed(None)]);
            r.tracks[0].isRecording && r.tracks[1].isRecording
  {
  }

  /** From power-on, the tape can be playing while a recording runs. */
  lemma PlayingWhileRecording()
    ensures var r := Run(Initial(), [StartPressed(true), RecordPressed(None), PlayPressed]);
            r.isGlobalPlaying && r.isGlobalRecording
  {
  }

  /** Running a concatenation runs the parts in order; this lets a property
      of a few events be carried over to any run that ends with them. */
  lemma {:induction false} RunSteps(s: AppState, xs: seq<Event>, ys: seq<Event>)
    requires Valid(s)
    ensures Run(s, xs + ys) == Run(Run(s, xs), ys)
    decreases |xs|
  {
    if xs == [] {
      assert xs + ys == ys;
    } else {
      assert (xs + ys)[0] == xs[0];
      assert (xs + ys)[1..] == xs[1..] + ys;
      RunSteps(Step(s, xs[0]), xs[1..], ys);
    }
  }

  /** The track-switch quirk happens after any run from power-on that leaves
      the panel started and not recording: record, select another track,
      record again, and the first track is still flagged recording. */
  lemma {:induction false} SwitchTrackWhileRecordingReachable(
    events: seq<Event>, j: nat, finished: Option<Buffer>)
    requires var s := Run(Initial(), events);
             s.hasStarted && !s.isGlobalRecording && j < TrackCount && j != s.activeTrackIndex
    ensures var s := Run(Initial(), events);
            var r := Run(Initial(), events + [RecordPressed(None), TrackPressed(j), RecordPressed(finished)]);
            r.tracks[s.activeTrackIndex].isRecording && r.tracks[j].buffer == finished &&
            !r.isGlobalRecording && r.activeTrackIndex == j
  {
    var s := Run(Initial(), events);
    var tail := [RecordPressed(None), TrackPressed(j), RecordPressed(finished)];
    RunSteps(Initial(), events, tail);
    var s1 := Step(s, tail[0]);
    var s2 := Step(s1, tail[1]);
    assert tail[1..] == [TrackPressed(j), RecordPressed(finished)];
    assert tail[1..][1..] == [RecordPressed(finished)];
    var s3 := Step(s2, RecordPressed(finished));
    assert Run(s2, [RecordPressed(finished)]) == Run(s3, []);
    assert Run(s1, tail[1..]) == Run(s2, [RecordPressed(finished)]);
    assert Run(s, tail) == Run(s1, tail[1..]);
    SwitchTrackWhileRecording(s, j, finished);
  }

  // ---------------------------------------------------------------------
  // What the engine has been told, read back from the call log.

  /** The loop flag the engine was last given for track `i`. A clear of the
      track is read as switching its loop off, as the panel does; the engine's
      own clearTrack is not part of this model. */
  function ToldLooping(calls: seq<EngineCall>, i: nat): bool
    decreases |calls|
  {
    if calls == [] then false
    else
      var c := calls[|calls| - 1];
      if c.SetTrackLoop? && c.track == i then c.on
      else if c.EngineClearTrack? && c.track == i then false
      else ToldLooping(calls[..|calls| - 1], i)
  }

  /** Whether the last start/stop recording call was a start. */
  function ToldRecording(calls: seq<EngineCall>): bool
    decreases |calls|
  {
    if calls == [] then false
    else
      var c := calls[|calls| - 1];
      if c.StartRecording? then true
      else if c.StopRecording? then false
      else ToldRecording(calls[..|calls| - 1])
  }

  /** Whether the last play/stop tape call was a play. */
  function ToldPlaying(calls: seq<EngineCall>): bool
    decreases |calls|
  {
    if calls == [] then false
    else
      var c := calls[|calls| - 1];
      if c.PlayTape? then true
      else if c.StopTape? then false
      else ToldPlaying(calls[..|calls| - 1])
  }

  /** The knob values the engine was last sent, if any. */
  function ToldParams(calls: seq<EngineCall>): Option<SynthParams>
    decreases |calls|
  {
    if calls == [] then None
    else
      var c := calls[|calls| - 1];
      if c.UpdateParams? then Some(c.params) else ToldParams(calls[..|calls| - 1])
  }

  /** The algorithm the engine was last switched to, if any. */
  function ToldEngine(calls: seq<EngineCall>): Option<EngineKind>
    decreases |calls|
  {
    if calls == [] then None
    else
      var c := calls[|calls| - 1];
      if c.SetEngine? then Some(c.kind) else ToldEngine(calls[..|calls| - 1])
  }

  /** The tape speed the engine was last given, if any. */
  function ToldSpeed(calls: seq<EngineCall>): Option<TapeSpeed>
    decreases |calls|
  {
    if calls == [] then None
    else
      var c := calls[|calls| - 1];
      if c.SetTapeSpeed? then Some(c.speed) else ToldSpeed(calls[..|calls| - 1])
  }

  /** The state every run from power-on keeps: tracks are never muted nor
      turned down; while a recording runs some track is flagged recording;
      and the engine was last told exactly what the panel shows (loop flags,
      transport flags, and the knobs, algorithm and speed once it was told
      any). */
  predicate Settled(s: AppState) {
    Valid(s) &&
    (forall i :: 0 <= i < TrackCount ==>
       !s.tracks[i].isMuted && s.tracks[i].volume == 1.0 &&
       s.tracks[i].isLooping == ToldLooping(s.calls, i)) &&
    (s.isGlobalRecording ==> exists i :: 0 <= i < TrackCount && s.tracks[i].isRecording) &&
    s.isGlobalRecording == ToldRecording(s.calls) &&
    s.isGlobalPlaying == ToldPlaying(s.calls) &&
    ToldParams(s.calls) in {None, Some(s.params)} &&
    ToldEngine(s.calls) in {None, Some(s.engine)} &&
    ToldSpeed(s.calls) in {None, Some(s.tapeSpeed)}
  }

  lemma InitialSettled()
    ensures Settled(Initial())
  {
  }

  lemma ToggleRecordingSettled(s: AppState, finished: Option<Buffer>)
    requires Settled(s)
    ensures Settled(ToggleRecording(s, finished))
  {
  }

  lemma ToggleTrackLoopSettled(s: AppState, i: nat)
    requires Settled(s) && i < TrackCount
    ensures Settled(ToggleTrackLoop(s, i))
  {
  }

  lemma ClearTrackSettled(s: AppState, i: nat)
    requires Settled(s) && i < TrackCount
    ensures Settled(ClearTrack(s, i))
  {
  }

  lemma StopEverythingSettled(s: AppState, finished: Option<Buffer>)
    requires Settled(s)
    ensures Settled(StopEverything(s, finished))
  {
  }

  /** Knob, speed, start and key events change no track and no
      transport flag; they keep the state settled. */
  lemma UpdateParamSettled(s: AppState, k: Knob, v: int)
    requires Settled(s)
    ensures Settled(UpdateParam(s, k, v))
  {
  }

  lemma ChangeTapeSpeedSettled(s: AppState, speed: TapeSpeed)
    requires Settled(s)
    ensures Settled(ChangeTapeSpeed(s, speed))
  {
  }

  lemma StartSettled(s: AppState, initOk: bool)
    requires Settled(s)
    ensures Settled(Start(s, initOk))
  {
  }

  lemma KeySettled(s: AppState, note: int, down: bool)
    requires Settled(s)
    ensures Settled(Key(s, note, down))
  {
  }

  lemma ChangeEngineSettled(s: AppState, kind: EngineKind)
    requires Settled(s)
    ensures Settled(ChangeEngine(s, kind))
  {
    // The two appended calls are read back one at a time.
    var cs := ChangeEngine(s, kind).calls;
    var mid := s.calls + [SetEngine(kind)];
    assert cs[..|cs| - 1] == mid;
    assert mid[..|mid| - 1] == s.calls;
  }

  lemma TogglePlaybackSettled(s: AppState)
    requires Settled(s)
    ensures Settled(TogglePlayback(s))
  {
  }

  lemma TrackButtonSettled(s: AppState, idx: nat)
    requires Settled(s)
    ensures Settled(TrackButton(s, idx))
  {
  }

  /** Every single event keeps the state settled. */
  lemma {:induction false} StepSettled(s: AppState, e: Event)
    requires Settled(s)
    ensures Settled(Step(s, e))
  {
    if !s.hasStarted {
      if e.StartPressed? { StartSettled(s, e.initOk); }
    } else {
      match e
      case StartPressed(_) =>
      case ModePressed(m) =>
      case EnginePressed(kind) => ChangeEngineSettled(s, kind);
      case KnobTurned(k, v) => UpdateParamSettled(s, k, v);
      case RecordPressed(finished) => ToggleRecordingSettled(s, finished);
      case StopPressed(finished) => StopEverythingSettled(s, finished);
      case PlayPressed => TogglePlaybackSettled(s);
      case LoopPressed =>
        if s.tracks[s.activeTrackIndex].buffer.Some? { ToggleTrackLoopSettled(s, s.activeTrackIndex); }
      case ClearPressed =>
        if s.tracks[s.activeTrackIndex].buffer.Some? { ClearTrackSettled(s, s.activeTrackIndex); }
      case TrackPressed(idx) => TrackButtonSettled(s, idx);
      case SpeedPressed(speed) => ChangeTapeSpeedSettled(s, speed);
      case KeyDown(note) => KeySettled(s, note, true);
      case KeyUp(note) => KeySettled(s, note, false);
    }
  }

  /** Every sequence of events keeps the state settled. */
  lemma {:induction false} RunSettled(s: AppState, events: seq<Event>)
    requires Settled(s)
    ensures Settled(Run(s, events))
    decreases |events|
  {
    if events != [] {
      StepSettled(s, events[0]);
      RunSettled(Step(s, events[0]), events[1..]);
    }
  }

  /** Whatever the user does from power-on: exactly four tracks numbered 0..3,
      an active track in 0..3, no track muted or turned down, a recording
      flagged on some track while one runs, and the engine's loop and
      transport state equal to the panel's. */
  lemma {:induction false} ReachableSettled(events: seq<Event>)
    ensures Settled(Run(Initial(), events))
  {
    InitialSettled();
    RunSettled(Initial(), events);
  }
}
