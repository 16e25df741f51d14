# exoplayerdemo: the video view and its ExoPlayer adapter, in Dafny

The repository is an Android demo. A `BaseVideoView` widget plays a URL through an
`IMediaPlayer`, and `MediaPlayerExo` implements that interface over ExoPlayer. This project
models and proves three parts of it.

- **The view's play-back state machine** (`BaseVideoView`). Its states run from
  `STATE_ERROR` to `STATE_PAUSED`. The model covers:
  - the entry points `setPath`, `start`, `pause`, `seek`, `setOnPlayStatusListener` and
    `releasePlayer`;
  - the callbacks `onSurfaceTextureAvailable`, `onSurfaceTextureDestroyed`, `onPrepared`
    and `onError`;
  - the handler's progress message;
  - the private helpers `setCurrentState`, `startProcessUpdate`, `stopProcessUpdate` and
    `layoutVideoView`.

  `PlaybackMachine` gives each of these as a pure transition over a `View` snapshot. The
  snapshot includes a log of the calls made on the player and a log of the events fired on
  the status listener. `VideoView.BaseVideoView` is a class with the widget's own fields,
  and each of its methods is proved to move the view exactly as its transition does.
  `PlaybackProperties` proves what the transitions promise:
  - `setPath` prepares only from IDLE;
  - `start` restarts from IDLE and resumes from PAUSED;
  - `pause` and `start` pair up without a new prepare;
  - `releasePlayer` is idempotent;
  - every entry point keeps an invariant;
  - whole runs behave as stated, including the hosting activity's start-up.
- **The texture-view sizing rule** (`calcTextureLayout`), as a pure function in
  `TextureLayout`. It is proved to:
  - give no layout until both sizes are measured;
  - fill the parent along one axis and stay inside it along the other;
  - keep the video's aspect ratio to within half a pixel, with axes swapped for quarter
    turns as Java's `%` decides them.
- **The adapter** (`MediaPlayerExo`) over an abstract ExoPlayer engine. `ExoAdapterModel`
  holds the pure transitions and `ExoAdapter.MediaPlayerExo` the class that follows them.
  `ExoAdapterProperties` proves:
  - `init` is idempotent;
  - `prepare` begins a new cycle;
  - a READY event without a video format reports error 999;
  - onPrepared fires at most once per cycle;
  - `reset`/`release` clears state, and every getter reads 0 without an engine;
  - a reset or released adapter never gets an engine back;
  - `isPlaying` follows play-when-ready in BUFFERING and READY;
  - `setSurface` drops an invalid surface.

Java's `null` is `None`. Java's `float` arithmetic is exact `real` arithmetic. Java's `%` on
`int` is written out (`JavaRem`), because Dafny's `%` is Euclidean.

Three facts about the code that the proofs make explicit:

- **Equal ratios fit the width.** A 1920x1080 video at 90 degrees in a 1080x1920 parent
  has equal video and screen ratios. The `vr >= sr` test then takes the fit-width branch
  and gives 1080x1920 (`RotatedInPortraitExample`).
- **onPrepared at most once.** onPrepared fires at most once per prepare cycle, and only
  while a prepared listener is set; `isPrepared` is set only when it fires
  (`ReadyWithFormat`, `OnePreparedBetweenPrepares`).
- **Geometry follows every READY.** Width, height and rotation are captured again on
  every READY event that has a video format (`ReadyWithFormat`).

A reset or released `MediaPlayerExo` cannot be used again. Reset drops the Context, and a
later init hands null to the library's constructors, which throw (`ResetIsFinal`).
`BaseVideoView` never calls a released adapter again: releasePlayer forgets it, and
setPath creates a new one. `onDetachedFromWindow` is releasePlayer
(`VideoView.BaseVideoView.OnDetachedFromWindow`).

## Model

| member | source | states |
|---|---|---|
| TextureLayout.JavaRem | app/src/main/java/com/example/exoplayer/BaseVideoView.java:340-343 | Java's remainder keeps the dividend's sign and stays below the divisor in magnitude |
| TextureLayout.JavaDivRem | app/src/main/java/com/example/exoplayer/BaseVideoView.java:340 | with Java's truncating division, `b * (a / b) + a % b == a`, so JavaRem is Java's `%` |
| TextureLayout.TruncateToInt | app/src/main/java/com/example/exoplayer/BaseVideoView.java:354-356 | the `(int)` cast of a float truncates toward zero: within one of x, on x's side of zero |
| TextureLayout.VideoRatio | app/src/main/java/com/example/exoplayer/BaseVideoView.java:340-350 | the video ratio is positive and, times the video's height (its width for a quarter turn), gives its width (its height) |
| TextureLayout.ScreenRatio | app/src/main/java/com/example/exoplayer/BaseVideoView.java:351 | the screen ratio times the parent's height is the parent's width |
| TextureLayout.CalcTextureLayout | app/src/main/java/com/example/exoplayer/BaseVideoView.java:330-338 | no layout exactly when the video or the parent has a non-positive side |
| TextureLayout.SwapsAxesIff | app/src/main/java/com/example/exoplayer/BaseVideoView.java:340-346 | the axes swap exactly for a non-negative rotation that is 90 modulo 180; a negative rotation never swaps them |
| TextureLayout.SwapsAxesExamples | app/src/main/java/com/example/exoplayer/BaseVideoView.java:340-346 | 90, 270 and 450 swap; 0, 180, -90 and -270 do not |
| TextureLayout.RoundedHalfUp | app/src/main/java/com/example/exoplayer/BaseVideoView.java:354-356 | `(int) (x + 0.5f)` of a non-negative x is within half a unit of x |
| TextureLayout.LayoutFitsParent | app/src/main/java/com/example/exoplayer/BaseVideoView.java:350-359 | with both sizes measured there is a layout; it fills the parent's width when the video ratio is at least the screen ratio, otherwise the parent's height; the other side stays within the parent and within half a pixel of the ratio |
| TextureLayout.FitWidthBound | app/src/main/java/com/example/exoplayer/BaseVideoView.java:352-354 | in the fit-width branch the exact height lies in (0, parent height] |
| TextureLayout.FitHeightBound | app/src/main/java/com/example/exoplayer/BaseVideoView.java:355-357 | in the fit-height branch the exact width lies in (0, parent width) |
| TextureLayout.LandscapeInPortraitExample | app/src/main/java/com/example/exoplayer/BaseVideoView.java:330-360 | 1920x1080 unrotated in a 1080x1920 parent is laid out 1080x608 |
| TextureLayout.RotatedInPortraitExample | app/src/main/java/com/example/exoplayer/BaseVideoView.java:330-360 | the same video at 90 degrees is laid out 1080x1920 |
| PlaybackMachine.Prepares | app/src/main/java/com/example/exoplayer/BaseVideoView.java:118 | the number of prepare calls in a log is at most its length |
| PlaybackProperties.SetPathEmptyUrl | app/src/main/java/com/example/exoplayer/BaseVideoView.java:73-75 | a null or empty URL changes nothing |
| PlaybackProperties.SetPathPrepares | app/src/main/java/com/example/exoplayer/BaseVideoView.java:71-119 | from IDLE or ERROR setPath creates the player if needed, stores the URL, aims at PLAYING or TEXTURE_AVAILABLE by autoStart, enters PREPARING and adds exactly one prepare; events and listener untouched |
| PlaybackProperties.PrepareFromIdle | app/src/main/java/com/example/exoplayer/BaseVideoView.java:107-118 | that prepare step stores the URL, sets the target and PREPARING, and logs init (if new) and one prepare |
| PlaybackProperties.SetPathKeepsSource | app/src/main/java/com/example/exoplayer/BaseVideoView.java:82-105 | in PREPARING, PREPARED, TEXTURE_AVAILABLE, PAUSED or PLAYING setPath keeps the URL, only extends the call log and adds no prepare |
| PlaybackProperties.SetPathWhileLoading | app/src/main/java/com/example/exoplayer/BaseVideoView.java:92-97 | in PREPARING or PREPARED setPath only raises the target to PLAYING, and only with autoStart |
| PlaybackProperties.SetPathWhilePlaying | app/src/main/java/com/example/exoplayer/BaseVideoView.java:82-84 | in PLAYING setPath changes nothing |
| PlaybackProperties.StartWithoutUrl | app/src/main/java/com/example/exoplayer/BaseVideoView.java:122-124 | without a stored URL start changes nothing |
| PlaybackProperties.StartRestarts | app/src/main/java/com/example/exoplayer/BaseVideoView.java:125-130 | from IDLE or ERROR start releases the player, re-creates it and prepares the stored URL again: PREPARING, target PLAYING, no listener, exactly the calls release (if any), init, prepare |
| PlaybackProperties.PreparesOfRestart | app/src/main/java/com/example/exoplayer/BaseVideoView.java:125-130 | the restart's calls hold exactly one prepare |
| PlaybackProperties.StartWhileActive | app/src/main/java/com/example/exoplayer/BaseVideoView.java:136-139 | in PREPARING, PREPARED or PLAYING start only sets the target to PLAYING |
| PlaybackProperties.StartResumes | app/src/main/java/com/example/exoplayer/BaseVideoView.java:141-149 | from PAUSED or TEXTURE_AVAILABLE start plays: PLAYING, screen kept on, one engine start, onPlayStart when a listener is set, progress message posted |
| PlaybackProperties.PauseIgnored | app/src/main/java/com/example/exoplayer/BaseVideoView.java:152-156 | without a player, or in PAUSED or IDLE, pause changes nothing |
| PlaybackProperties.PauseStops | app/src/main/java/com/example/exoplayer/BaseVideoView.java:157-163 | otherwise pause stops the player, settles on PAUSED, lets the screen sleep, cancels the progress message and reports onPlayPause |
| PlaybackProperties.SeekForwards | app/src/main/java/com/example/exoplayer/BaseVideoView.java:182-189 | seek clears the pending re-seek and forwards the position exactly with a player in PAUSED, TEXTURE_AVAILABLE, PLAYING or PREPARED |
| PlaybackProperties.ProgressTickReports | app/src/main/java/com/example/exoplayer/BaseVideoView.java:47-56 | a progress message reports and re-posts exactly when there is a player, the view is PLAYING and a listener is set |
| PlaybackProperties.ReleaseClears | app/src/main/java/com/example/exoplayer/BaseVideoView.java:196-217 | releasePlayer ends in IDLE with no player, listener, surface, texture view, messages or re-seek, keeps the URL and logs one release if there was a player |
| PlaybackProperties.ReleaseIdempotent | app/src/main/java/com/example/exoplayer/BaseVideoView.java:196-217 | releasing twice is releasing once |
| PlaybackProperties.SurfaceAvailableAdvances | app/src/main/java/com/example/exoplayer/BaseVideoView.java:225-234 | with a player a new surface gives TEXTURE_AVAILABLE, or PLAYING with one engine start if that is the target; without one only the surface is recorded |
| PlaybackProperties.OnPreparedSettles | app/src/main/java/com/example/exoplayer/BaseVideoView.java:253-268 | onPrepared stores the geometry; with a player it ends in PREPARED whatever the state, reports once and lays the texture view out by calcTextureLayout |
| PlaybackProperties.OnErrorKeepsState | app/src/main/java/com/example/exoplayer/BaseVideoView.java:276-282 | onError reports to the listener if there is one and leaves both states alone |
| PlaybackProperties.InitialInv | app/src/main/java/com/example/exoplayer/BaseVideoView.java:29-39 | a new view satisfies the invariant |
| PlaybackProperties.SetPathInv | app/src/main/java/com/example/exoplayer/BaseVideoView.java:71-119 | setPath keeps the invariant |
| PlaybackProperties.StartInv | app/src/main/java/com/example/exoplayer/BaseVideoView.java:121-150 | start keeps the invariant |
| PlaybackProperties.SurfaceAvailableInv | app/src/main/java/com/example/exoplayer/BaseVideoView.java:225-234 | onSurfaceTextureAvailable keeps the invariant |
| PlaybackProperties.ApplyInv | app/src/main/java/com/example/exoplayer/BaseVideoView.java:71-282 | every entry point and callback keeps the invariant |
| PlaybackProperties.RunInv | app/src/main/java/com/example/exoplayer/BaseVideoView.java:71-282 | every run keeps the invariant |
| PlaybackProperties.ReachableInv | app/src/main/java/com/example/exoplayer/BaseVideoView.java:284-287 | in every reachable view: no player means IDLE, ERROR is never entered, the screen is on exactly while PLAYING, and no re-seek is pending |
| PlaybackProperties.PauseThenStartResumes | app/src/main/java/com/example/exoplayer/BaseVideoView.java:141-163 | pause then start resumes the source: PLAYING after one stop and one start, no new prepare |
| PlaybackProperties.ColdStart | app/src/main/java/com/example/exoplayer/BaseVideoView.java:121-268 | start from IDLE, the prepared event and the surface end in PLAYING after init, one prepare, the surface and one start |
| PlaybackProperties.ColdStartSteps | app/src/main/java/com/example/exoplayer/BaseVideoView.java:121-268 | the same, stated over the transitions directly |
| PlaybackProperties.PreparedThenSurfacePlays | app/src/main/java/com/example/exoplayer/BaseVideoView.java:225-268 | a view preparing towards PLAYING plays after the prepared event and the surface, reporting onPrepared then onPlayStart |
| PlaybackProperties.ActivityStartup | app/src/main/java/com/example/exoplayer/MainActivity.java:27-41 | the activity's setPath(url, false), listener, start, then prepared and surface: PLAYING after exactly init, prepare, surface, start; the listener hears onPrepared, onPlayStart |
| PlaybackProperties.StartupSteps | app/src/main/java/com/example/exoplayer/MainActivity.java:27-41 | the same, stated over the transitions directly |
| PlaybackProperties.StartupFromPreparing | app/src/main/java/com/example/exoplayer/MainActivity.java:28-40 | the start-up after setPath, from PREPARING |
| PlaybackProperties.RunAppend | app/src/main/java/com/example/exoplayer/BaseVideoView.java:71-282 | running two event sequences in turn is running their concatenation |
| PlaybackProperties.PreparesAppend | app/src/main/java/com/example/exoplayer/BaseVideoView.java:118 | prepares of a concatenation add up |
| VideoView.BaseVideoView.constructor | app/src/main/java/com/example/exoplayer/BaseVideoView.java:29-39 | a new view is IDLE/IDLE with no URL, player or listener, re-seek -1, and satisfies the invariant |
| VideoView.BaseVideoView.SetCurrentState | app/src/main/java/com/example/exoplayer/BaseVideoView.java:284-287 | the state is set and the screen kept on exactly for PLAYING |
| VideoView.BaseVideoView.StartProcessUpdate | app/src/main/java/com/example/exoplayer/BaseVideoView.java:289-293 | the progress message is posted |
| VideoView.BaseVideoView.StopProcessUpdate | app/src/main/java/com/example/exoplayer/BaseVideoView.java:295-298 | the progress message is removed |
| VideoView.BaseVideoView.LayoutVideoView | app/src/main/java/com/example/exoplayer/BaseVideoView.java:300-307 | the texture view gets calcTextureLayout's size when there is one |
| VideoView.BaseVideoView.SetPath | app/src/main/java/com/example/exoplayer/BaseVideoView.java:71-119 | the view moves as PlaybackMachine.SetPath and keeps its invariant |
| VideoView.BaseVideoView.Start | app/src/main/java/com/example/exoplayer/BaseVideoView.java:121-150 | the view moves as PlaybackMachine.Start and keeps its invariant |
| VideoView.BaseVideoView.Pause | app/src/main/java/com/example/exoplayer/BaseVideoView.java:152-166 | the view moves as PlaybackMachine.Pause and keeps its invariant |
| VideoView.BaseVideoView.Seek | app/src/main/java/com/example/exoplayer/BaseVideoView.java:182-189 | the view moves as PlaybackMachine.Seek and keeps its invariant |
| VideoView.BaseVideoView.SetOnPlayStatusListener | app/src/main/java/com/example/exoplayer/BaseVideoView.java:192-194 | only the listener changes |
| VideoView.BaseVideoView.ReleasePlayer | app/src/main/java/com/example/exoplayer/BaseVideoView.java:196-217 | the view moves as PlaybackMachine.Release and keeps its invariant |
| VideoView.BaseVideoView.OnDetachedFromWindow | app/src/main/java/com/example/exoplayer/BaseVideoView.java:219-222 | detaching from the window moves the view as PlaybackMachine.Release and keeps its invariant |
| VideoView.BaseVideoView.OnSurfaceTextureAvailable | app/src/main/java/com/example/exoplayer/BaseVideoView.java:224-234 | the view moves as PlaybackMachine.SurfaceAvailable and keeps its invariant |
| VideoView.BaseVideoView.OnSurfaceTextureDestroyed | app/src/main/java/com/example/exoplayer/BaseVideoView.java:241-245 | the surface is dropped and the method answers true |
| VideoView.BaseVideoView.OnPrepared | app/src/main/java/com/example/exoplayer/BaseVideoView.java:252-268 | the view moves as PlaybackMachine.OnPreparedEvent and keeps its invariant |
| VideoView.BaseVideoView.OnError | app/src/main/java/com/example/exoplayer/BaseVideoView.java:275-282 | the error is reported, the states are kept, and the method answers false |
| VideoView.BaseVideoView.HandleProgressMessage | app/src/main/java/com/example/exoplayer/BaseVideoView.java:47-56 | a delivered progress message moves the view as PlaybackMachine.ProgressTick |
| ExoAdapterModel.PreparedCount | app/src/main/java/com/example/exoplayer/MediaPlayerExo.java:95-98 | the onPrepared calls in a log are at most its length |
| ExoAdapterProperties.InitIdempotent | app/src/main/java/com/example/exoplayer/MediaPlayerExo.java:108-111 | with an engine init changes nothing, so init twice is init once |
| ExoAdapterProperties.InitConfigures | app/src/main/java/com/example/exoplayer/MediaPlayerExo.java:108-127 | the first init, with the Context held, leaves an engine in REPEAT_MODE_ONE with exact seeks and no source, not prepared, not playing; without the Context it changes nothing |
| ExoAdapterProperties.NoEngineNoOps | app/src/main/java/com/example/exoplayer/MediaPlayerExo.java:132-174 | without an engine prepare, start, stop, seek and setLoop change nothing |
| ExoAdapterProperties.PrepareRestartsCycle | app/src/main/java/com/example/exoplayer/MediaPlayerExo.java:132-139 | with an engine prepare clears isPrepared, begins a cycle, hands the URL to the engine and seeks it to 0, keeping the rest |
| ExoAdapterProperties.StartStopPlaying | app/src/main/java/com/example/exoplayer/MediaPlayerExo.java:142-155 | start sets play-when-ready, so isPlaying holds exactly in BUFFERING or READY; stop clears it, so isPlaying is false |
| ExoAdapterProperties.SeekMoves | app/src/main/java/com/example/exoplayer/MediaPlayerExo.java:158-162 | seek moves the reported position and keeps play-when-ready |
| ExoAdapterProperties.SetLoopModes | app/src/main/java/com/example/exoplayer/MediaPlayerExo.java:170-174 | setLoop(true) gives REPEAT_MODE_ONE, setLoop(false) REPEAT_MODE_OFF |
| ExoAdapterProperties.ResetClears | app/src/main/java/com/example/exoplayer/MediaPlayerExo.java:177-192 | reset/release leaves no engine, no Context, isPrepared false, no surface, width and height 0; the rotation is kept but reads 0; listeners and log kept |
| ExoAdapterProperties.ResetIdempotent | app/src/main/java/com/example/exoplayer/MediaPlayerExo.java:182-192 | resetting twice is resetting once |
| ExoAdapterProperties.ResetIsFinal | app/src/main/java/com/example/exoplayer/MediaPlayerExo.java:182-192 | after reset or release, whatever is called, init fails on the dropped Context: never an engine again, never prepared or playing, every getter 0 |
| ExoAdapterProperties.StaysWithoutEngine | app/src/main/java/com/example/exoplayer/MediaPlayerExo.java:108-119 | without an engine, the Context and isPrepared, no run of calls or callbacks brings any of them back |
| ExoAdapterProperties.GettersWithoutEngine | app/src/main/java/com/example/exoplayer/MediaPlayerExo.java:195-249 | without an engine isPlaying is false and position, duration, width, height and rotation read 0 |
| ExoAdapterProperties.IsPlayingIff | app/src/main/java/com/example/exoplayer/MediaPlayerExo.java:195-209 | with an engine isPlaying is play-when-ready in BUFFERING or READY, false in IDLE or ENDED |
| ExoAdapterProperties.SetSurfaceKeepsValid | app/src/main/java/com/example/exoplayer/MediaPlayerExo.java:252-260 | the engine receives the surface as given; the adapter keeps it exactly when it is null or valid; without an engine it just keeps it |
| ExoAdapterProperties.CallbacksForwarded | app/src/main/java/com/example/exoplayer/MediaPlayerExo.java:63-76 | errors and seek starts reach the matching listener exactly when it is set |
| ExoAdapterProperties.NotReadyIgnored | app/src/main/java/com/example/exoplayer/MediaPlayerExo.java:81-103 | a state change other than READY, or one without an engine, changes nothing |
| ExoAdapterProperties.ReadyWithoutFormat | app/src/main/java/com/example/exoplayer/MediaPlayerExo.java:84-90 | READY without a video format reports error 999 to an error listener and changes nothing else: no geometry, no onPrepared |
| ExoAdapterProperties.ReadyWithFormat | app/src/main/java/com/example/exoplayer/MediaPlayerExo.java:91-98 | READY with a format captures width, height and rotation; onPrepared fires exactly when a prepared listener is set and isPrepared is false, and isPrepared is set exactly then |
| ExoAdapterProperties.InitialInv | app/src/main/java/com/example/exoplayer/MediaPlayerExo.java:55-59 | a new adapter satisfies the invariant |
| ExoAdapterProperties.ApplyInv | app/src/main/java/com/example/exoplayer/MediaPlayerExo.java:61-275 | every call and callback keeps the invariant |
| ExoAdapterProperties.PlayerStateChangedInv | app/src/main/java/com/example/exoplayer/MediaPlayerExo.java:79-104 | onPlayerStateChanged keeps the invariant |
| ExoAdapterProperties.RunInv | app/src/main/java/com/example/exoplayer/MediaPlayerExo.java:61-275 | every run keeps the invariant |
| ExoAdapterProperties.ReachablePreparedOnce | app/src/main/java/com/example/exoplayer/MediaPlayerExo.java:95-98 | in every reachable adapter onPrepared has fired at most once since isPrepared was last cleared, isPrepared says whether it has, no engine means not prepared, and an engine exists only while the Context is held |
| ExoAdapterProperties.ApplyKeepsCycle | app/src/main/java/com/example/exoplayer/MediaPlayerExo.java:61-275 | only init, prepare, reset and release begin a cycle; every step only extends the log |
| ExoAdapterProperties.OnePreparedBetweenPrepares | app/src/main/java/com/example/exoplayer/MediaPlayerExo.java:95-98 | between two calls that begin a cycle, whatever the engine does, onPrepared fires at most once |
| ExoAdapterProperties.AtMostOneMorePrepared | app/src/main/java/com/example/exoplayer/MediaPlayerExo.java:95-98 | read off the log alone: between two calls that begin a cycle the log gains at most one onPrepared, and none if the adapter was already prepared |
| ExoAdapterProperties.PrepareThenReadyTwice | app/src/main/java/com/example/exoplayer/MediaPlayerExo.java:132-139 | prepare, the engine reaching READY with a format, and READY reported twice give exactly one onPrepared, a prepared adapter, and the format's width and height and the engine's duration from the getters |
| ExoAdapter.MediaPlayerExo.constructor | app/src/main/java/com/example/exoplayer/MediaPlayerExo.java:45-59 | a new adapter holds the Context it is given and has no engine, no listeners, isPrepared false |
| ExoAdapter.MediaPlayerExo.Init | app/src/main/java/com/example/exoplayer/MediaPlayerExo.java:108-129 | the adapter moves as ExoAdapterModel.Init and keeps its invariant; init throws exactly when there is no engine and the Context has been dropped |
| ExoAdapter.MediaPlayerExo.Prepare | app/src/main/java/com/example/exoplayer/MediaPlayerExo.java:132-139 | the adapter moves as ExoAdapterModel.Prepare and keeps its invariant |
| ExoAdapter.MediaPlayerExo.Start | app/src/main/java/com/example/exoplayer/MediaPlayerExo.java:142-147 | the adapter moves as ExoAdapterModel.Start |
| ExoAdapter.MediaPlayerExo.Stop | app/src/main/java/com/example/exoplayer/MediaPlayerExo.java:150-155 | the adapter moves as ExoAdapterModel.Stop |
| ExoAdapter.MediaPlayerExo.Seek | app/src/main/java/com/example/exoplayer/MediaPlayerExo.java:158-162 | the adapter moves as ExoAdapterModel.Seek |
| ExoAdapter.MediaPlayerExo.SetLoop | app/src/main/java/com/example/exoplayer/MediaPlayerExo.java:170-174 | the adapter moves as ExoAdapterModel.SetLoop |
| ExoAdapter.MediaPlayerExo.Release | app/src/main/java/com/example/exoplayer/MediaPlayerExo.java:177-179 | release is reset |
| ExoAdapter.MediaPlayerExo.Reset | app/src/main/java/com/example/exoplayer/MediaPlayerExo.java:182-192 | the adapter moves as ExoAdapterModel.Reset and keeps its invariant |
| ExoAdapter.MediaPlayerExo.IsPlaying | app/src/main/java/com/example/exoplayer/MediaPlayerExo.java:195-209 | true exactly when there is an engine, it plays when ready, and it is BUFFERING or READY (by ExoAdapterModel.EngineIsPlaying; see GettersWithoutEngine, IsPlayingIff) |
| ExoAdapter.MediaPlayerExo.GetCurrentPosition | app/src/main/java/com/example/exoplayer/MediaPlayerExo.java:212-217 | the engine's position while there is an engine, 0 otherwise (by ExoAdapterModel.EnginePosition) |
| ExoAdapter.MediaPlayerExo.GetDuration | app/src/main/java/com/example/exoplayer/MediaPlayerExo.java:220-225 | the engine's duration while there is an engine, 0 otherwise (by ExoAdapterModel.EngineDuration) |
| ExoAdapter.MediaPlayerExo.GetWidth | app/src/main/java/com/example/exoplayer/MediaPlayerExo.java:228-233 | the captured width while there is an engine, 0 otherwise (by ExoAdapterModel.WhileEngine) |
| ExoAdapter.MediaPlayerExo.GetHeight | app/src/main/java/com/example/exoplayer/MediaPlayerExo.java:236-241 | the captured height while there is an engine, 0 otherwise (by ExoAdapterModel.WhileEngine) |
| ExoAdapter.MediaPlayerExo.GetRotationDegrees | app/src/main/java/com/example/exoplayer/MediaPlayerExo.java:244-249 | the captured rotation while there is an engine, 0 otherwise (by ExoAdapterModel.WhileEngine) |
| ExoAdapter.MediaPlayerExo.SetSurface | app/src/main/java/com/example/exoplayer/MediaPlayerExo.java:252-260 | the adapter moves as ExoAdapterModel.SetSurface |
| ExoAdapter.MediaPlayerExo.SetOnPreparedListener | app/src/main/java/com/example/exoplayer/MediaPlayerExo.java:263-265 | only the prepared listener changes |
| ExoAdapter.MediaPlayerExo.SetOnErrorListener | app/src/main/java/com/example/exoplayer/MediaPlayerExo.java:268-270 | only the error listener changes |
| ExoAdapter.MediaPlayerExo.SetOnStartListener | app/src/main/java/com/example/exoplayer/MediaPlayerExo.java:273-275 | only the start listener changes |
| ExoAdapter.MediaPlayerExo.OnPlayerError | app/src/main/java/com/example/exoplayer/MediaPlayerExo.java:63-69 | the adapter moves as ExoAdapterModel.PlayerError and keeps its invariant |
| ExoAdapter.MediaPlayerExo.OnSeekStarted | app/src/main/java/com/example/exoplayer/MediaPlayerExo.java:72-76 | the adapter moves as ExoAdapterModel.SeekStarted and keeps its invariant |
| ExoAdapter.MediaPlayerExo.OnPlayerStateChanged | app/src/main/java/com/example/exoplayer/MediaPlayerExo.java:79-104 | the adapter moves as ExoAdapterModel.PlayerStateChanged and keeps its invariant |

## Left out

- The handler's timing: the 50 ms delay and message dispatch. They are modelled as two
  flags, the progress message posted or not and the auto-start message posted or not.
  Callbacks are taken to arrive one at a time, as they do on Android's main thread.
- Java's `float` rounding in calcTextureLayout. The ratios are computed over exact reals,
  so a result can differ from the device's by the float error.
- TextureLayout.TruncateToInt does not model the `(int)` cast's saturation at the `int`
  range. Layout sizes are far below that range.
- The `long` to `int` casts of position and duration in getCurrentPosition and
  getDuration. Positions and durations are unbounded integers.
- The view-hierarchy part of layoutVideoView and findTextureView:
  - finding, creating or adding the TextureView;
  - registering it as the surface listener;
  - gravity and the comparison with the old layout parameters.

  The model keeps only whether the view has a texture view and the size it was given.
- The Surface objects in BaseVideoView. Only whether a surface exists is kept, and
  handing it to the player is the logged call PlayerSetSurface.
- setPath's registration of the view as the player's error, prepared and start listener.
  These are not entries in the call log.
- BaseVideoView's getCurrentPosition, getDuration and constructors, and the empty
  onSurfaceTextureSizeChanged, onSurfaceTextureUpdated and OnStart. They only read or
  do nothing.
- onError's Exception. The listener event carries the integer `what` code in its place.
- VideoView.BaseVideoView.OnPrepared leaves out the re-seek at the end of onPrepared:
  - Valid() keeps the pending re-seek at -1, so that branch cannot run in the class;
  - PlaybackMachine.OnPreparedEvent keeps it;
  - PlaybackProperties.ReachableInv proves it dead.

- PlaybackMachine.SetPath and VideoView.BaseVideoView.SetPath both omit setPath's
  `mUrl == null` check (BaseVideoView.java:112-114). The check can never succeed:
  - setPath already returned on a null or empty URL (73-75);
  - it then stored that non-empty URL (107).
- The view's player is abstract, as a log of IMediaPlayer calls. The two classes are not
  composed: BaseVideoView is not proved against MediaPlayerExo's implementation.
- The ExoPlayer engine's own behaviour. Its buffering, its state changes and its reports
  of position, duration and format are the environment step EngineAdvance, which is
  unconstrained.
- MediaPlayerExo:
  - setSpeed, which does nothing;
  - buildMediaSource, the CacheDataSourceFactory with its SimpleCache singleton, and the
    track selector, load control and buffer constants that init hands to the engine
    builder;
  - the Context object itself. The model keeps only whether it is held, so that reset
    can drop it and a later init can throw on it;
  - the TAG counter and every Log call;
  - the playWhenReady argument of onPlayerStateChanged, which is only logged.
- MainActivity's progress-text formatting and progress bar. They are UI. Its start-up
  order is modelled only as the run in PlaybackProperties.ActivityStartup.
- ExoAdapter.MediaPlayerExo.Init reports the library's exception as the out-parameter
  `thrown` and leaves the adapter unchanged. The exception's propagation to the caller is
  not modelled.
- IMediaPlayer and OnPlayStatusListener have no behaviour of their own. They appear only
  as the PlayerCall, ListenerEvent and AdapterEvent datatypes.
