/**
  The controller state of the field synthesizer's front panel (the `App`
  component) as plain values, and each of its event handlers as a function
  from the state before the event to the state after it.

  The audio engine itself is not modelled. Every call the controller makes
  into it is appended to the `calls` log, so that properties can relate what
  the panel shows to what the engine has been told. The controller awaits
  three engine calls: init, startRecording and stopRecording. Whether init
  resolved is a parameter of `Start`, and the buffer stopRecording returned
  is a parameter of the transitions that stop a recording; startRecording
  and stopRecording are taken to resolve.
 */
module ControllerState {

  datatype Option<+T> = None | Some(value: T)

  /** A recorded take. Its samples belong to the audio engine; the controller
      only stores it and tests whether one is present. */
  type Buffer = seq<real>

  /** The two panel pages selected by the mode buttons. */
  datatype Mode = Synth | Tape

  /** The four synthesis algorithms offered by the engine selector. */
  datatype EngineKind = Poly | Fm | Mono | String

  /** The four coloured knobs. */
  datatype Knob = Blue | Green | White | Red

  /** The four knob values, one field per knob. */
  datatype SynthParams = SynthParams(blue: int, green: int, white: int, red: int)
  {
    function Get(k: Knob): int {
      match k
      case Blue => blue
      case Green => green
      case White => white
      case Red => red
    }

    /** The record with knob `k` set to `v`. */
    function Set(k: Knob, v: int): (r: SynthParams)
      ensures r.Get(k) == v
      ensures forall k' :: k' != k ==> r.Get(k') == Get(k')
    {
      match k
      case Blue => this.(blue := v)
      case Green => this.(green := v)
      case White => this.(white := v)
      case Red => this.(red := v)
    }
  }

  /** The tape speeds the speed selector offers: 0.5x, 1x and 2x. */
  datatype TapeSpeed = Half | Unity | Double
  {
    /** The playback-rate multiplier: one of the three offered values, each
        positive and at most 4, and distinct settings have distinct values. */
    function Factor(): (f: real)
      ensures f in {0.5, 1.0, 2.0}
      ensures 0.0 < f <= 4.0
      ensures (f < 1.0 <==> this == Half) && (f == 1.0 <==> this == Unity) && (f > 1.0 <==> this == Double)
    {
      match this
      case Half => 0.5
      case Unity => 1.0
      case Double => 2.0
    }
  }

  /** One of the four tape tracks. */
  datatype Track = Track(id: nat, isRecording: bool, isMuted: bool, volume: real,
                         isLooping: bool, buffer: Option<Buffer>)

  /** A call from the controller into the audio engine. */
  datatype EngineCall =
    | Init
    | SetEngine(kind: EngineKind)
    | UpdateParams(params: SynthParams)
    | SetTapeSpeed(speed: TapeSpeed)
    | StartRecording
    | StopRecording(track: nat)
    | PlayTape
    | StopTape
    | SetTrackLoop(track: nat, on: bool)
    | EngineClearTrack(track: nat)
    | TriggerAttack(note: int)
    | TriggerRelease(note: int)

  /** Everything the panel keeps, plus the log of engine calls made so far. */
  datatype AppState = AppState(
    mode: Mode,
    engine: EngineKind,
    params: SynthParams,
    tapeSpeed: TapeSpeed,
    tracks: seq<Track>,
    activeTrackIndex: nat,
    isGlobalPlaying: bool,
    isGlobalRecording: bool,
    hasStarted: bool,
    calls: seq<EngineCall>)

  const TrackCount: nat := 4

  /** Exactly four tracks, numbered 0 to 3 in order, and an active track among them. */
  predicate Valid(s: AppState) {
    |s.tracks| == TrackCount &&
    s.activeTrackIndex < TrackCount &&
    forall i :: 0 <= i < TrackCount ==> s.tracks[i].id == i
  }

  /** A freshly created track. */
  function NewTrack(id: nat): Track {
    Track(id, false, false, 1.0, false, None)
  }

  /** The state the component starts in. */
  function Initial(): (s: AppState)
    ensures Valid(s)
    ensures forall i :: 0 <= i < |s.tracks| ==>
      var t := s.tracks[i];
      !t.isRecording && !t.isMuted && t.volume == 1.0 && !t.isLooping && t.buffer == None
    ensures forall k :: s.params.Get(k) == 50
    ensures s.tapeSpeed.Factor() == 1.0
    ensures s.activeTrackIndex == 0 && s.mode == Synth && s.engine == Poly
    ensures !s.isGlobalPlaying && !s.isGlobalRecording && !s.hasStarted && s.calls == []
  {
    AppState(Synth, Poly, SynthParams(50, 50, 50, 50), Unity,
             [NewTrack(0), NewTrack(1), NewTrack(2), NewTrack(3)], 0,
             false, false, false, [])
  }

  /** A knob turned to `v`: only that knob's value changes, and the engine is sent the new record. */
  function UpdateParam(s: AppState, k: Knob, v: int): (r: AppState)
    ensures r.params.Get(k) == v
    ensures forall k' :: k' != k ==> r.params.Get(k') == s.params.Get(k')
    ensures r.calls == s.calls + [UpdateParams(r.params)]
    ensures r.(params := s.params, calls := s.calls) == s
  {
    var p := s.params.Set(k, v);
    s.(params := p, calls := s.calls + [UpdateParams(p)])
  }

  /** A speed button pressed: the panel and the engine take the new speed. */
  function ChangeTapeSpeed(s: AppState, speed: TapeSpeed): (r: AppState)
    ensures r.tapeSpeed == speed
    ensures r.calls == s.calls + [SetTapeSpeed(speed)]
    ensures r.(tapeSpeed := s.tapeSpeed, calls := s.calls) == s
  {
    s.(tapeSpeed := speed, calls := s.calls + [SetTapeSpeed(speed)])
  }

  /** The start button: the engine is initialised; the panel is shown only if that succeeded. */
  function Start(s: AppState, initOk: bool): (r: AppState)
    ensures r.hasStarted <==> s.hasStarted || initOk
    ensures r.calls == s.calls + [Init]
    ensures r.(hasStarted := s.hasStarted, calls := s.calls) == s
  {
    if initOk then s.(hasStarted := true, calls := s.calls + [Init])
    else s.(calls := s.calls + [Init])
  }

  /** An engine button: the engine switches algorithm, then is sent the current knob values. */
  function ChangeEngine(s: AppState, kind: EngineKind): (r: AppState)
    ensures r.engine == kind
    ensures r.calls == s.calls + [SetEngine(kind), UpdateParams(s.params)]
    ensures r.(engine := s.engine, calls := s.calls) == s
  {
    s.(engine := kind, calls := s.calls + [SetEngine(kind), UpdateParams(s.params)])
  }

  /** A mode button: only the page shown changes. */
  function SelectMode(s: AppState, m: Mode): (r: AppState)
    ensures r.mode == m && r.(mode := s.mode) == s
  {
    s.(mode := m)
  }

  /** The record button. Starting marks the track active now as recording;
      stopping stores `finished` (what the engine's stopRecording returned,
      None for null) in the track active at stop time and clears its flag.
      The playback flag is never touched. */
  function ToggleRecording(s: AppState, finished: Option<Buffer>): (r: AppState)
    requires Valid(s)
    ensures Valid(r)
    ensures r.isGlobalRecording == !s.isGlobalRecording
    ensures r.isGlobalPlaying == s.isGlobalPlaying
    ensures r.activeTrackIndex == s.activeTrackIndex
    ensures s.isGlobalRecording ==>
      var a := s.activeTrackIndex;
      r.tracks[a] == s.tracks[a].(buffer := finished, isRecording := false) &&
      r.calls == s.calls + [StopRecording(a)]
    ensures !s.isGlobalRecording ==>
      var a := s.activeTrackIndex;
      r.tracks[a] == s.tracks[a].(isRecording := true) &&
      r.calls == s.calls + [StartRecording]
    ensures forall j :: 0 <= j < TrackCount && j != s.activeTrackIndex ==> r.tracks[j] == s.tracks[j]
    ensures r.(tracks := s.tracks, isGlobalRecording := s.isGlobalRecording, calls := s.calls) == s
  {
    var a := s.activeTrackIndex;
    if s.isGlobalRecording then
      s.(tracks := s.tracks[a := s.tracks[a].(buffer := finished, isRecording := false)],
         isGlobalRecording := false,
         calls := s.calls + [StopRecording(a)])
    else
      s.(tracks := s.tracks[a := s.tracks[a].(isRecording := true)],
         isGlobalRecording := true,
         calls := s.calls + [StartRecording])
  }

  /** The play button: playback flips; tracks and the recording flag stay as they are. */
  function TogglePlayback(s: AppState): (r: AppState)
    ensures r.isGlobalPlaying == !s.isGlobalPlaying
    ensures r.calls == s.calls + [if s.isGlobalPlaying then StopTape else PlayTape]
    ensures r.(isGlobalPlaying := s.isGlobalPlaying, calls := s.calls) == s
  {
    if s.isGlobalPlaying then
      s.(isGlobalPlaying := false, calls := s.calls + [StopTape])
    else
      s.(isGlobalPlaying := true, calls := s.calls + [PlayTape])
  }

  /** Flips the loop flag of track `i` only, and tells the engine the new flag. */
  function ToggleTrackLoop(s: AppState, i: nat): (r: AppState)
    requires Valid(s) && i < TrackCount
    ensures Valid(r)
    ensures r.tracks[i] == s.tracks[i].(isLooping := !s.tracks[i].isLooping)
    ensures forall j :: 0 <= j < TrackCount && j != i ==> r.tracks[j] == s.tracks[j]
    ensures r.calls == s.calls + [SetTrackLoop(i, r.tracks[i].isLooping)]
    ensures r.(tracks := s.tracks, calls := s.calls) == s
  {
    var on := !s.tracks[i].isLooping;
    s.(tracks := s.tracks[i := s.tracks[i].(isLooping := on)],
       calls := s.calls + [SetTrackLoop(i, on)])
  }

  /** Drops the buffer of track `i` and switches its loop off; nothing else on the panel changes. */
  function ClearTrack(s: AppState, i: nat): (r: AppState)
    requires Valid(s) && i < TrackCount
    ensures Valid(r)
    ensures r.tracks[i] == s.tracks[i].(buffer := None, isLooping := false)
    ensures forall j :: 0 <= j < TrackCount && j != i ==> r.tracks[j] == s.tracks[j]
    ensures r.calls == s.calls + [EngineClearTrack(i)]
    ensures r.(tracks := s.tracks, calls := s.calls) == s
  {
    s.(tracks := s.tracks[i := s.tracks[i].(buffer := None, isLooping := false)],
       calls := s.calls + [EngineClearTrack(i)])
  }

  /** The stop button: the tape stops and, if a recording runs, it is
      finalised exactly as by the record button. */
  function StopEverything(s: AppState, finished: Option<Buffer>): (r: AppState)
    requires Valid(s)
    ensures Valid(r)
    ensures !r.isGlobalPlaying && !r.isGlobalRecording
    ensures r.tracks == if s.isGlobalRecording then ToggleRecording(s, finished).tracks else s.tracks
    ensures r.calls == s.calls + [StopTape] + (if s.isGlobalRecording then [StopRecording(s.activeTrackIndex)] else [])
    ensures r.(tracks := s.tracks, isGlobalPlaying := s.isGlobalPlaying,
               isGlobalRecording := s.isGlobalRecording, calls := s.calls) == s
  {
    var stopped := s.(isGlobalPlaying := false, calls := s.calls + [StopTape]);
    if s.isGlobalRecording then ToggleRecording(stopped, finished) else stopped
  }

  /** The loop button: toggles the active track's loop, only when that track holds a buffer. */
  function LoopButton(s: AppState): (r: AppState)
    requires Valid(s)
    ensures Valid(r)
    ensures s.tracks[s.activeTrackIndex].buffer == None ==> r == s
    ensures s.tracks[s.activeTrackIndex].buffer != None ==>
      r == ToggleTrackLoop(s, s.activeTrackIndex)
  {
    if s.tracks[s.activeTrackIndex].buffer.Some? then ToggleTrackLoop(s, s.activeTrackIndex) else s
  }

  /** The clear button: clears the active track, only when that track holds a buffer. */
  function ClearButton(s: AppState): (r: AppState)
    requires Valid(s)
    ensures Valid(r)
    ensures s.tracks[s.activeTrackIndex].buffer == None ==> r == s
    ensures s.tracks[s.activeTrackIndex].buffer != None ==>
      r == ClearTrack(s, s.activeTrackIndex)
  {
    if s.tracks[s.activeTrackIndex].buffer.Some? then ClearTrack(s, s.activeTrackIndex) else s
  }

  /** Track button `idx` (0-based; the panel has eight). Buttons 0 to 3 select
      the active track; buttons 4 to 7 toggle the loop of track idx - 4 when
      that track holds a buffer. */
  function TrackButton(s: AppState, idx: nat): (r: AppState)
    requires Valid(s)
    ensures Valid(r)
    ensures r.activeTrackIndex == if idx < TrackCount then idx else s.activeTrackIndex
    ensures idx < TrackCount ==> r == s.(activeTrackIndex := idx)
    ensures TrackCount <= idx < 2 * TrackCount && s.tracks[idx - TrackCount].buffer != None ==>
      r == ToggleTrackLoop(s, idx - TrackCount)
    ensures TrackCount <= idx && (idx >= 2 * TrackCount || s.tracks[idx - TrackCount].buffer == None) ==>
      r == s
  {
    if idx < TrackCount then s.(activeTrackIndex := idx)
    else if idx < TrackCount + TrackCount && s.tracks[idx - TrackCount].buffer.Some? then
      ToggleTrackLoop(s, idx - TrackCount)
    else s
  }

  /** A key pressed or released on the keyboard: the note goes to the engine, the panel is unchanged. */
  function Key(s: AppState, note: int, down: bool): (r: AppState)
    ensures r.calls == s.calls + [if down then TriggerAttack(note) else TriggerRelease(note)]
    ensures r.(calls := s.calls) == s
  {
    s.(calls := s.calls + [if down then TriggerAttack(note) else TriggerRelease(note)])
  }

  /** What the user can do to the panel. The results of the engine's
      asynchronous calls that the controller waits for are carried by the
      event: whether init succeeded, and the buffer stopRecording returned. */
  datatype Event =
    | StartPressed(initOk: bool)
    | ModePressed(mode: Mode)
    | EnginePressed(kind: EngineKind)
    | KnobTurned(knob: Knob, value: int)
    | RecordPressed(finished: Option<Buffer>)
    | StopPressed(finished: Option<Buffer>)
    | PlayPressed
    | LoopPressed
    | ClearPressed
    | TrackPressed(idx: nat)
    | SpeedPressed(speed: TapeSpeed)
    | KeyDown(note: int)
    | KeyUp(note: int)

  /** One event, handled atomically. Until the engine has started only the
      start button is on screen; afterwards every control but that one is. */
  function Step(s: AppState, e: Event): (r: AppState)
    requires Valid(s)
    ensures Valid(r)
    ensures !s.hasStarted && !e.StartPressed? ==> r == s
    ensures s.hasStarted ==> r.hasStarted
  {
    if !s.hasStarted then
      if e.StartPressed? then Start(s, e.initOk) else s
    else
      match e
      case StartPressed(_) => s
      case ModePressed(m) => SelectMode(s, m)
      case EnginePressed(kind) => ChangeEngine(s, kind)
      case KnobTurned(k, v) => UpdateParam(s, k, v)
      case RecordPressed(finished) => ToggleRecording(s, finished)
      case StopPressed(finished) => StopEverything(s, finished)
      case PlayPressed => TogglePlayback(s)
      case LoopPressed => LoopButton(s)
      case ClearPressed => ClearButton(s)
      case TrackPressed(idx) => TrackButton(s, idx)
      case SpeedPressed(speed) => ChangeTapeSpeed(s, speed)
      case KeyDown(note) => Key(s, note, true)
      case KeyUp(note) => Key(s, note, false)
  }

  /** A sequence of events handled one after another. Every state reached
      this way has exactly four tracks and an active track in 0..3. */
  function Run(s: AppState, events: seq<Event>): (r: AppState)
    requires Valid(s)
    ensures Valid(r)
    ensures s.hasStarted ==> r.hasStarted
    decreases |events|
  {
    if events == [] then s else Run(Step(s, events[0]), events[1..])
  }
}
