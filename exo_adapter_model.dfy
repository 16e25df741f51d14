/**
 * MediaPlayerExo, the IMediaPlayer implementation over ExoPlayer, as pure transitions over
 * a snapshot of the adapter. The ExoPlayer instance is an abstract engine record holding
 * what the adapter sets on it or reads from it; how the engine itself buffers, plays
 * and reports is an environment step (EngineAdvance) that the adapter does not control.
 * The class ExoAdapter.MediaPlayerExo is proved to follow these transitions.
 */
module ExoAdapterModel {
  import opened Optional

  /** Player.STATE_IDLE, STATE_BUFFERING, STATE_READY and STATE_ENDED. */
  datatype PlaybackState = StateIdle | StateBuffering | StateReady | StateEnded

  /** Player.REPEAT_MODE_OFF, REPEAT_MODE_ONE and REPEAT_MODE_ALL. */
  datatype RepeatMode = RepeatOff | RepeatOne | RepeatAll

  /** The part of the engine's video Format the adapter reads. */
  datatype Format = Format(width: int, height: int, rotationDegrees: int)

  /** A Surface: an identity, and whether it is still valid. */
  datatype Surface = Surface(id: nat, valid: bool)

  /**
   * The ExoPlayer instance as the adapter sees it: the play-when-ready flag, the playback
   * state, the repeat mode, whether seeks are exact, the current video format, the
   * position and duration in milliseconds, the video surface and the media source's URL.
   */
  datatype Engine = Engine(
    playWhenReady: bool,
    playbackState: PlaybackState,
    repeatMode: RepeatMode,
    exactSeek: bool,
    videoFormat: Option<Format>,
    position: int,
    duration: int,
    videoSurface: Option<Surface>,
    source: Option<string>)

  /** A callback the adapter makes: onPrepared, OnStart, or onError with its code. */
  datatype AdapterEvent = Prepared | Started | Error(what: int)

  /** The code reported when the engine is READY without a video format. */
  const NoVideoFormatError := 999

  /** The engine as SimpleExoPlayer.Builder returns it, before the adapter configures it. */
  const BuiltEngine := Engine(false, StateIdle, RepeatOff, false, None, 0, 0, None, None)

  /**
   * The adapter's fields (the engine, whether the Context is still held, isPrepared,
   * mWidth, mHeight, mRotationDegrees,
   * mSurface, and whether each of the three listeners is set), the log of callbacks made,
   * and how many onPrepared calls that log held when the current prepare cycle began: the
   * last point at which isPrepared was cleared.
   */
  datatype Adapter = Adapter(
    engine: Option<Engine>,
    hasContext: bool,
    isPrepared: bool,
    width: int,
    height: int,
    rotationDegrees: int,
    surface: Option<Surface>,
    preparedListener: bool,
    startListener: bool,
    errorListener: bool,
    events: seq<AdapterEvent>,
    cycleBase: nat)

  /** A freshly constructed adapter, given a Context: no engine yet. */
  const Initial := Adapter(None, true, false, 0, 0, 0, None, false, false, false, [], 0)

  /** The onPrepared callbacks in a log. */
  function PreparedCount(events: seq<AdapterEvent>): (n: nat)
    ensures n <= |events|
  {
    if events == [] then 0
    else PreparedCount(events[..|events| - 1]) + (if events[|events| - 1] == Prepared then 1 else 0)
  }

  /**
   * The invariant: without an engine the adapter is not prepared, an engine exists only
   * while the Context is held, and since the current cycle began onPrepared was called
   * once if isPrepared is set and never otherwise.
   */
  predicate Inv(a: Adapter) {
    && (a.engine.None? ==> !a.isPrepared)
    && (a.engine.Some? ==> a.hasContext)
    && PreparedCount(a.events) == a.cycleBase + (if a.isPrepared then 1 else 0)
  }

  // ---------------------------------------------------------------------------------
  // Getters

  /** isPlaying: BUFFERING and READY follow play-when-ready; IDLE, ENDED and no engine do not play. */
  function EngineIsPlaying(engine: Option<Engine>): bool {
    match engine
    case None => false
    case Some(e) =>
      match e.playbackState
      case StateBuffering => e.playWhenReady
      case StateReady => e.playWhenReady
      case _ => false
  }

  /** getCurrentPosition. */
  function EnginePosition(engine: Option<Engine>): int {
    if engine.None? then 0 else engine.value.position
  }

  /** getDuration. */
  function EngineDuration(engine: Option<Engine>): int {
    if engine.None? then 0 else engine.value.duration
  }

  /** getWidth, getHeight and getRotationDegrees: the stored value, or 0 without an engine. */
  function WhileEngine(engine: Option<Engine>, stored: int): int {
    if engine.None? then 0 else stored
  }

  // ---------------------------------------------------------------------------------
  // Calls on the adapter

  /**
   * init: build and configure an engine, unless there is one already. Once reset has
   * dropped the Context, the track selector and the engine builder are handed null and
   * throw before init assigns anything, so init has no effect.
   */
  function Init(a: Adapter): Adapter {
    if a.engine.Some? || !a.hasContext then a
    else a.(engine := Some(BuiltEngine.(repeatMode := RepeatOne, exactSeek := true)),
            isPrepared := false, cycleBase := PreparedCount(a.events))
  }

  /** prepare(url): hand the engine a source for the URL and seek it to 0. */
  function Prepare(a: Adapter, url: string): Adapter {
    match a.engine
    case None => a
    case Some(e) =>
      a.(isPrepared := false, engine := Some(e.(source := Some(url), position := 0)),
         cycleBase := PreparedCount(a.events))
  }

  /** start: play when ready. */
  function Start(a: Adapter): Adapter {
    match a.engine
    case None => a
    case Some(e) => a.(engine := Some(e.(playWhenReady := true)))
  }

  /** stop: do not play when ready. */
  function Stop(a: Adapter): Adapter {
    match a.engine
    case None => a
    case Some(e) => a.(engine := Some(e.(playWhenReady := false)))
  }

  /** seek(position). */
  function Seek(a: Adapter, position: int): Adapter {
    match a.engine
    case None => a
    case Some(e) => a.(engine := Some(e.(position := position)))
  }

  /** setLoop(looping): repeat the one item, or do not repeat. */
  function SetLoop(a: Adapter, looping: bool): Adapter {
    match a.engine
    case None => a
    case Some(e) => a.(engine := Some(e.(repeatMode := if looping then RepeatOne else RepeatOff)))
  }

  /**
   * reset, which release also is: the engine is released and dropped, the Context is
   * dropped, and isPrepared, the surface, the width and the height are cleared. The
   * rotation is left as it was.
   */
  function Reset(a: Adapter): Adapter {
    a.(engine := None, hasContext := false, isPrepared := false, surface := None, width := 0, height := 0,
       cycleBase := PreparedCount(a.events))
  }

  /**
   * setSurface(surface), with None for null: the engine, when there is one, is given the
   * surface as it is, but an invalid surface is not kept.
   */
  function SetSurface(a: Adapter, surface: Option<Surface>): Adapter {
    match a.engine
    case None => a.(surface := surface)
    case Some(e) =>
      a.(surface := if surface.Some? && !surface.value.valid then None else surface,
         engine := Some(e.(videoSurface := surface)))
  }

  function SetPreparedListener(a: Adapter, present: bool): Adapter {
    a.(preparedListener := present)
  }

  function SetErrorListener(a: Adapter, present: bool): Adapter {
    a.(errorListener := present)
  }

  function SetStartListener(a: Adapter, present: bool): Adapter {
    a.(startListener := present)
  }

  // ---------------------------------------------------------------------------------
  // The engine's analytics callbacks

  /** onPlayerError: forwarded with the error's type when an error listener is set. */
  function PlayerError(a: Adapter, errorType: int): Adapter {
    if a.errorListener then a.(events := a.events + [Error(errorType)]) else a
  }

  /** onSeekStarted: forwarded as OnStart when a start listener is set. */
  function SeekStarted(a: Adapter): Adapter {
    if a.startListener then a.(events := a.events + [Started]) else a
  }

  /**
   * onPlayerStateChanged(playbackState). Only READY with an engine present matters: without
   * a video format it reports error 999; with one it captures the geometry and, the first
   * time in the cycle and only if a prepared listener is set, calls onPrepared.
   */
  function PlayerStateChanged(a: Adapter, playbackState: PlaybackState): Adapter {
    if playbackState != StateReady || a.engine.None? then a
    else
      match a.engine.value.videoFormat
      case None =>
        if a.errorListener then a.(events := a.events + [Error(NoVideoFormatError)]) else a
      case Some(f) =>
        var a1 := a.(width := f.width, height := f.height, rotationDegrees := f.rotationDegrees);
        if a1.preparedListener && !a1.isPrepared then
          a1.(events := a1.events + [Prepared], isPrepared := true)
        else a1
  }

  /**
   * The engine moves on by itself: a new playback state, video format, position and
   * duration. Nothing happens without an engine.
   */
  function EngineAdvance(a: Adapter, playbackState: PlaybackState, format: Option<Format>,
                         position: int, duration: int): Adapter
  {
    match a.engine
    case None => a
    case Some(e) =>
      a.(engine := Some(e.(playbackState := playbackState, videoFormat := format,
                           position := position, duration := duration)))
  }

  // ---------------------------------------------------------------------------------
  // Runs

  datatype Step =
    | InitCalled
    | PrepareCalled(url: string)
    | StartCalled
    | StopCalled
    | SeekCalled(position: int)
    | LoopSet(looping: bool)
    | ResetCalled
    | ReleaseCalled
    | SurfaceSet(surface: Option<Surface>)
    | PreparedListenerSet(present: bool)
    | ErrorListenerSet(present: bool)
    | StartListenerSet(present: bool)
    | ErrorReported(errorType: int)
    | SeekStartedReported
    | StateChanged(playbackState: PlaybackState)
    | EngineMoved(state: PlaybackState, format: Option<Format>, position: int, duration: int)

  function Apply(a: Adapter, s: Step): Adapter {
    match s
    case InitCalled => Init(a)
    case PrepareCalled(url) => Prepare(a, url)
    case StartCalled => Start(a)
    case StopCalled => Stop(a)
    case SeekCalled(position) => Seek(a, position)
    case LoopSet(looping) => SetLoop(a, looping)
    case ResetCalled => Reset(a)
    case ReleaseCalled => Reset(a)
    case SurfaceSet(surface) => SetSurface(a, surface)
    case PreparedListenerSet(present) => SetPreparedListener(a, present)
    case ErrorListenerSet(present) => SetErrorListener(a, present)
    case StartListenerSet(present) => SetStartListener(a, present)
    case ErrorReported(errorType) => PlayerError(a, errorType)
    case SeekStartedReported => SeekStarted(a)
    case StateChanged(playbackState) => PlayerStateChanged(a, playbackState)
    case EngineMoved(state, format, position, duration) => EngineAdvance(a, state, format, position, duration)
  }

  function Run(a: Adapter, steps: seq<Step>): Adapter
    decreases |steps|
  {
    if steps == [] then a else Run(Apply(a, steps[0]), steps[1..])
  }

  /** The steps that clear isPrepared and so begin a new prepare cycle. */
  predicate BeginsCycle(s: Step) {
    s.InitCalled? || s.PrepareCalled? || s.ResetCalled? || s.ReleaseCalled?
  }
}
