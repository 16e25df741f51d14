/**
 * The lifecycle of BaseVideoView as pure transitions over a snapshot of the view.
 * Each function takes the view before an entry point runs and gives the view after it,
 * including the calls made on the player and the events fired on the status listener.
 * The class VideoView.BaseVideoView is proved to follow these transitions step by step.
 */
module PlaybackMachine {
  import opened Optional
  import opened TextureLayout

  /** The view's states, BaseVideoView.STATE_ERROR (-1) to STATE_PAUSED (5). */
  datatype State = Error | Idle | Preparing | Prepared | TextureAvailable | Playing | Paused

  /** A call the view makes on its IMediaPlayer. */
  datatype PlayerCall =
    | PlayerInit
    | PlayerPrepare(url: string)
    | PlayerStart
    | PlayerStop
    | PlayerSeek(position: int)
    | PlayerRelease
    | PlayerSetSurface

  /** An event the view fires on its OnPlayStatusListener. */
  datatype ListenerEvent =
    | OnPrepared
    | OnPlayStart
    | OnPlayPause
    | OnProgressUpdate(progress: int)
    | OnPlayError(what: int)

  /**
   * Everything the entry points read or write: the two states, the stored URL (None for
   * Java's null), whether a player, status listener, surface and texture view exist (the
   * texture view with the size its layout parameters were given), the pending re-seek,
   * the keep-screen-on flag, the two handler messages (armed or not), the video geometry
   * captured from onPrepared, and the logs of player calls and listener events.
   */
  datatype View = View(
    current: State,
    target: State,
    url: Option<string>,
    hasPlayer: bool,
    hasListener: bool,
    hasSurface: bool,
    textureView: Option<Size>,
    seekForReUrl: int,
    keepScreenOn: bool,
    progressTickArmed: bool,
    autoStartPending: bool,
    videoWidth: int,
    videoHeight: int,
    videoRotation: int,
    calls: seq<PlayerCall>,
    events: seq<ListenerEvent>)

  /** A freshly constructed view. */
  const Initial := View(Idle, Idle, None, false, false, false, None, -1, false, false, false, 0, 0, 0, [], [])

  /** TextUtils.isEmpty: null or the empty string. */
  predicate IsEmpty(url: Option<string>) {
    url.None? || url.value == ""
  }

  /** The invariant every reachable view keeps. */
  predicate Inv(v: View) {
    && (v.hasPlayer <==> v.current != Idle)
    && v.current != Error
    && v.target != Error
    && v.keepScreenOn == (v.current == Playing)
    && v.seekForReUrl == -1
    && !v.autoStartPending
    && (v.progressTickArmed ==> v.hasPlayer)
    && (v.hasPlayer ==> v.url.Some?)
    && (v.url.Some? ==> v.url.value != "")
  }

  /** The prepare calls in a log. */
  function Prepares(calls: seq<PlayerCall>): (n: nat)
    ensures n <= |calls|
  {
    if calls == [] then 0
    else Prepares(calls[..|calls| - 1]) + (if calls[|calls| - 1].PlayerPrepare? then 1 else 0)
  }

  // ---------------------------------------------------------------------------------
  // Private helpers of BaseVideoView

  /** setCurrentState: the state, and keep-screen-on exactly while playing. */
  function SetCurrentState(v: View, s: State): View {
    v.(current := s, keepScreenOn := s == Playing)
  }

  /** startProcessUpdate: drop the pending progress message and post a new one. */
  function StartProcessUpdate(v: View): View {
    v.(progressTickArmed := true)
  }

  /** stopProcessUpdate: drop the pending progress message. */
  function StopProcessUpdate(v: View): View {
    v.(progressTickArmed := false)
  }

  /** Fire a listener event if a listener is set. */
  function Notify(v: View, e: ListenerEvent): View {
    if v.hasListener then v.(events := v.events + [e]) else v
  }

  function Call(v: View, c: PlayerCall): View {
    v.(calls := v.calls + [c])
  }

  /** layoutVideoView: give the texture view the computed size, if there is one. */
  function LayoutVideoView(v: View, parentWidth: int, parentHeight: int): View {
    match CalcTextureLayout(v.videoWidth, v.videoHeight, v.videoRotation, parentWidth, parentHeight)
    case None => v
    case Some(size) => v.(textureView := Some(size))
  }

  // ---------------------------------------------------------------------------------
  // Entry points. setPath and start call each other: the ranks below decrease on every
  // such call, since start re-enters setPath only from IDLE or ERROR and setPath re-enters
  // start only from PAUSED or TEXTURE_AVAILABLE.

  function StartRank(s: State): nat {
    if s == Idle || s == Error then 2 else 0
  }

  const SetPathRank: nat := 1

  /** setPath(url, autoStart). */
  function SetPath(v: View, url: Option<string>, autoStart: bool): View
    decreases SetPathRank
  {
    if IsEmpty(url) then v
    else
      var v1 := EnsurePlayer(v);
      if v1.current == Playing then v1
      else if v1.current == Paused then Start(v1.(target := Playing))
      else if v1.current == Preparing || v1.current == Prepared then
        (if autoStart then v1.(target := Playing) else v1)
      else if v1.current == TextureAvailable then
        (if autoStart then Start(v1.(target := Playing)) else v1)
      else
        // IDLE or ERROR: register the callbacks and prepare. setPath's check
        // `mUrl == null` after storing the URL cannot succeed, as url is not empty.
        BeginPrepare(v1, url.value, autoStart)
  }

  /** The head of setPath: a player that does not exist yet is created, in IDLE. */
  function EnsurePlayer(v: View): View {
    if v.hasPlayer then v
    else SetCurrentState(Call(v.(hasPlayer := true), PlayerInit), Idle).(target := Idle)
  }

  /** The IDLE/ERROR branch of setPath: the URL is stored and handed to the player. */
  function BeginPrepare(v: View, url: string, autoStart: bool): View {
    var v2 := v.(url := Some(url));
    var v3 := SetCurrentState(v2.(target := if autoStart then Playing else TextureAvailable), Preparing);
    Call(v3, PlayerPrepare(url))
  }

  /** start(). */
  function Start(v: View): View
    decreases StartRank(v.current)
  {
    if v.url.None? then v
    else if v.current == Idle || v.current == Error then
      var v1 := Release(v.(target := Playing));
      SetPath(v1, v.url, true)
    else if !v.hasPlayer then v
    else if v.current == Preparing || v.current == Prepared || v.current == Playing then
      v.(target := Playing)
    else
      // PAUSED or TEXTURE_AVAILABLE
      var v1 := Call(SetCurrentState(v, Playing).(target := Playing), PlayerStart);
      StartProcessUpdate(Notify(v1, OnPlayStart))
  }

  /** pause(). */
  function Pause(v: View): View {
    if !v.hasPlayer then v
    else if v.current == Paused || v.current == Idle then v
    else
      var v1 := SetCurrentState(Call(v, PlayerStop), Paused).(target := Paused);
      Notify(StopProcessUpdate(v1), OnPlayPause)
  }

  /** seek(position). */
  function Seek(v: View, position: int): View {
    var v1 := v.(seekForReUrl := -1);
    if v1.hasPlayer && (v1.current == Paused || v1.current == TextureAvailable ||
                        v1.current == Playing || v1.current == Prepared)
    then Call(v1, PlayerSeek(position))
    else v1
  }

  /** releasePlayer(). The stored URL survives; the status listener does not. */
  function Release(v: View): View {
    var v1 := SetCurrentState(v, Idle).(target := Idle);
    var v2 := if v1.hasPlayer then Call(v1, PlayerRelease).(hasPlayer := false) else v1;
    v2.(autoStartPending := false, progressTickArmed := false, textureView := None,
        hasSurface := false, seekForReUrl := -1, hasListener := false)
  }

  /** setOnPlayStatusListener(listener), with `present` false for null. */
  function SetListener(v: View, present: bool): View {
    v.(hasListener := present)
  }

  /** onSurfaceTextureAvailable. */
  function SurfaceAvailable(v: View): View {
    var v1 := v.(hasSurface := true);
    if !v1.hasPlayer then v1
    else
      var v2 := SetCurrentState(Call(v1, PlayerSetSurface), TextureAvailable);
      if v2.target == Playing then Start(v2) else v2
  }

  /** onSurfaceTextureDestroyed. */
  function SurfaceDestroyed(v: View): View {
    v.(hasSurface := false)
  }

  /**
   * onPrepared: the player reports the video's width, height and rotation; the parent's
   * measured width and height are what layoutVideoView reads from the view.
   */
  function OnPreparedEvent(v: View, width: int, height: int, rotation: int,
                           parentWidth: int, parentHeight: int): View
  {
    var v1 := v.(videoWidth := width, videoHeight := height, videoRotation := rotation);
    if !v1.hasPlayer then v1
    else
      var v2 := LayoutVideoView(Notify(v1, OnPrepared), parentWidth, parentHeight);
      var v3 := SetCurrentState(v2, Prepared);
      if v3.seekForReUrl > 0 then Seek(v3, v3.seekForReUrl).(seekForReUrl := -1) else v3
  }

  /** onError(mp, what, error): report it; the state is left alone. */
  function OnErrorEvent(v: View, what: int): View {
    Notify(v, OnPlayError(what))
  }

  /**
   * handleMessage(MSG_PROCESS_UPDATE) with the player's current position: the delivered
   * message is consumed, and a new one is posted only while there is someone to report to.
   */
  function ProgressTick(v: View, position: int): View {
    var v1 := v.(progressTickArmed := false);
    if v1.hasPlayer && v1.current == Playing && v1.hasListener then
      v1.(events := v1.events + [OnProgressUpdate(position)], autoStartPending := false, progressTickArmed := true)
    else v1
  }

  // ---------------------------------------------------------------------------------
  // Runs

  datatype Event =
    | SetPathCalled(url: Option<string>, autoStart: bool)
    | StartCalled
    | PauseCalled
    | SeekCalled(position: int)
    | ReleaseCalled
    | ListenerSet(present: bool)
    | SurfaceCreated
    | SurfaceDestroyedEvent
    | PlayerPrepared(width: int, height: int, rotation: int, parentWidth: int, parentHeight: int)
    | PlayerError(what: int)
    | ProgressMessage(position: int)

  function Apply(v: View, e: Event): View {
    match e
    case SetPathCalled(url, autoStart) => SetPath(v, url, autoStart)
    case StartCalled => Start(v)
    case PauseCalled => Pause(v)
    case SeekCalled(position) => Seek(v, position)
    case ReleaseCalled => Release(v)
    case ListenerSet(present) => SetListener(v, present)
    case SurfaceCreated => SurfaceAvailable(v)
    case SurfaceDestroyedEvent => SurfaceDestroyed(v)
    case PlayerPrepared(w, h, r, pw, ph) => OnPreparedEvent(v, w, h, r, pw, ph)
    case PlayerError(what) => OnErrorEvent(v, what)
    case ProgressMessage(position) => ProgressTick(v, position)
  }

  function Run(v: View, es: seq<Event>): View
    decreases |es|
  {
    if es == [] then v else Run(Apply(v, es[0]), es[1..])
  }
}
