/** What the transitions of ExoAdapterModel promise. */
module ExoAdapterProperties {
  import opened Optional
  import opened ExoAdapterModel

  // ---------------------------------------------------------------------------------
  // init and prepare

  /** init is idempotent: with an engine present it changes nothing. */
  lemma InitIdempotent(a: Adapter)
    ensures a.engine.Some? ==> Init(a) == a
    ensures Init(Init(a)) == Init(a)
  {
  }

  /**
   * The first init, with the Context held, leaves an engine that repeats the one item and
   * seeks exactly, not prepared and not playing. Without the Context it changes nothing.
   */
  lemma InitConfigures(a: Adapter)
    requires a.engine.None?
    ensures var r := Init(a);
            && (a.hasContext ==>
                  && r.engine.Some?
                  && r.engine.value.repeatMode == RepeatOne
                  && r.engine.value.exactSeek
                  && r.engine.value.source.None?
                  && !r.isPrepared
                  && !EngineIsPlaying(r.engine)
                  && r.events == a.events)
            && (!a.hasContext ==> r == a)
  {
  }

  /**
   * Every call that needs the engine is a no-op without one: prepare, start, stop, seek
   * and setLoop.
   */
  lemma NoEngineNoOps(a: Adapter, url: string, position: int, looping: bool)
    requires a.engine.None?
    ensures Prepare(a, url) == a && Start(a) == a && Stop(a) == a
    ensures Seek(a, position) == a && SetLoop(a, looping) == a
  {
  }

  /**
   * With an engine, prepare clears isPrepared, begins a new cycle, hands the engine the
   * URL and seeks it to 0; nothing else changes.
   */
  lemma PrepareRestartsCycle(a: Adapter, url: string)
    requires a.engine.Some?
    ensures var r := Prepare(a, url);
            && !r.isPrepared
            && r.cycleBase == PreparedCount(r.events)
            && r.engine.Some? && r.engine.value.source == Some(url)
            && EnginePosition(r.engine) == 0
            && r.engine.value.playWhenReady == a.engine.value.playWhenReady
            && r.engine.value.repeatMode == a.engine.value.repeatMode
            && r.events == a.events
            && r.width == a.width && r.height == a.height && r.surface == a.surface
  {
  }

  // ---------------------------------------------------------------------------------
  // start, stop, seek, setLoop

  /** With an engine, start makes isPlaying exactly "buffering or ready"; stop makes it false. */
  lemma StartStopPlaying(a: Adapter)
    requires a.engine.Some?
    ensures var s := a.engine.value.playbackState;
            EngineIsPlaying(Start(a).engine) <==> (s == StateBuffering || s == StateReady)
    ensures !EngineIsPlaying(Stop(a).engine)
    ensures Start(a).engine.value.playWhenReady && !Stop(a).engine.value.playWhenReady
  {
  }

  /** With an engine, seek moves the position the getter reports. */
  lemma SeekMoves(a: Adapter, position: int)
    requires a.engine.Some?
    ensures EnginePosition(Seek(a, position).engine) == position
    ensures Seek(a, position).engine.value.playWhenReady == a.engine.value.playWhenReady
  {
  }

  /** setLoop(true) repeats the one item, setLoop(false) turns repeating off. */
  lemma SetLoopModes(a: Adapter)
    requires a.engine.Some?
    ensures SetLoop(a, true).engine.value.repeatMode == RepeatOne
    ensures SetLoop(a, false).engine.value.repeatMode == RepeatOff
  {
  }

  // ---------------------------------------------------------------------------------
  // reset and release, and the getters

  /**
   * reset leaves no engine, no Context, isPrepared false, no surface and width and height
   * 0, and keeps the listeners and the log. The rotation field is left, yet its getter
   * reads 0.
   */
  lemma ResetClears(a: Adapter)
    ensures var r := Reset(a);
            && r.engine.None? && !r.hasContext && !r.isPrepared && r.surface.None?
            && r.width == 0 && r.height == 0
            && r.rotationDegrees == a.rotationDegrees
            && WhileEngine(r.engine, r.rotationDegrees) == 0
            && r.preparedListener == a.preparedListener
            && r.errorListener == a.errorListener
            && r.startListener == a.startListener
            && r.events == a.events
  {
  }

  /** Resetting twice is resetting once. */
  lemma ResetIdempotent(a: Adapter)
    ensures Reset(Reset(a)) == Reset(a)
  {
  }

  /**
   * An adapter that has been reset or released cannot be used again: whatever is called
   * afterwards, init fails on the missing Context, so there is never an engine, nothing
   * plays, nothing is prepared and every getter reads 0.
   */
  lemma ResetIsFinal(a: Adapter, steps: seq<Step>)
    ensures var r := Run(Reset(a), steps);
            && r.engine.None? && !r.hasContext && !r.isPrepared
            && !EngineIsPlaying(r.engine)
            && EnginePosition(r.engine) == 0 && EngineDuration(r.engine) == 0
            && WhileEngine(r.engine, r.width) == 0 && WhileEngine(r.engine, r.height) == 0
            && WhileEngine(r.engine, r.rotationDegrees) == 0
  {
    StaysWithoutEngine(Reset(a), steps);
  }

  lemma {:induction false} StaysWithoutEngine(a: Adapter, steps: seq<Step>)
    requires a.engine.None? && !a.hasContext && !a.isPrepared
    ensures var r := Run(a, steps);
            r.engine.None? && !r.hasContext && !r.isPrepared
    decreases |steps|
  {
    if steps != [] {
      var a1 := Apply(a, steps[0]);
      assert a1.engine.None? && !a1.hasContext && !a1.isPrepared;
      StaysWithoutEngine(a1, steps[1..]);
    }
  }

  /** Without an engine every getter reads 0 and isPlaying is false. */
  lemma GettersWithoutEngine(a: Adapter)
    requires a.engine.None?
    ensures !EngineIsPlaying(a.engine)
    ensures EnginePosition(a.engine) == 0 && EngineDuration(a.engine) == 0
    ensures WhileEngine(a.engine, a.width) == 0
    ensures WhileEngine(a.engine, a.height) == 0
    ensures WhileEngine(a.engine, a.rotationDegrees) == 0
  {
  }

  /** With an engine, isPlaying is play-when-ready in BUFFERING or READY and false in IDLE or ENDED. */
  lemma IsPlayingIff(e: Engine)
    ensures EngineIsPlaying(Some(e)) <==>
            e.playWhenReady && (e.playbackState == StateBuffering || e.playbackState == StateReady)
  {
  }

  // ---------------------------------------------------------------------------------
  // setSurface

  /**
   * With an engine, the engine receives the surface whatever it is, and the adapter keeps
   * it only if it is absent or valid. Without an engine the adapter just keeps it.
   */
  lemma SetSurfaceKeepsValid(a: Adapter, surface: Option<Surface>)
    ensures var r := SetSurface(a, surface);
            && (a.engine.Some? ==> r.engine.Some? && r.engine.value.videoSurface == surface)
            && (a.engine.Some? ==> (r.surface == surface <==> surface.None? || surface.value.valid))
            && (a.engine.Some? && surface.Some? && !surface.value.valid ==> r.surface.None?)
            && (a.engine.None? ==> r == a.(surface := surface))
  {
  }

  // ---------------------------------------------------------------------------------
  // The analytics callbacks

  /** Errors and seek starts reach the matching listener only when it is set. */
  lemma CallbacksForwarded(a: Adapter, errorType: int)
    ensures PlayerError(a, errorType).events == a.events + (if a.errorListener then [Error(errorType)] else [])
    ensures SeekStarted(a).events == a.events + (if a.startListener then [Started] else [])
    ensures PlayerError(a, errorType).isPrepared == a.isPrepared
    ensures SeekStarted(a).isPrepared == a.isPrepared
  {
  }

  /** A state change to anything but READY, or one without an engine, changes nothing. */
  lemma NotReadyIgnored(a: Adapter, playbackState: PlaybackState)
    requires playbackState != StateReady || a.engine.None?
    ensures PlayerStateChanged(a, playbackState) == a
  {
  }

  /**
   * READY with no video format: error 999 to the error listener if there is one, no
   * onPrepared, and no change to the geometry or to isPrepared.
   */
  lemma ReadyWithoutFormat(a: Adapter)
    requires a.engine.Some? && a.engine.value.videoFormat.None?
    ensures var r := PlayerStateChanged(a, StateReady);
            && r == a.(events := a.events + (if a.errorListener then [Error(NoVideoFormatError)] else []))
            && PreparedCount(r.events) == PreparedCount(a.events)
  {
    var r := PlayerStateChanged(a, StateReady);
    if a.errorListener {
      PreparedCountSnoc(a.events, Error(NoVideoFormatError));
    } else {
      assert r.events == a.events;
    }
  }

  /**
   * READY with a video format: the width, height and rotation are captured; onPrepared is
   * called exactly when a prepared listener is set and the cycle has not had one yet, and
   * isPrepared is set exactly then.
   */
  lemma ReadyWithFormat(a: Adapter, f: Format)
    requires a.engine.Some? && a.engine.value.videoFormat == Some(f)
    ensures var r := PlayerStateChanged(a, StateReady);
            var fires := a.preparedListener && !a.isPrepared;
            && r.width == f.width && r.height == f.height && r.rotationDegrees == f.rotationDegrees
            && r.events == a.events + (if fires then [Prepared] else [])
            && r.isPrepared == (a.isPrepared || a.preparedListener)
            && r.engine == a.engine && r.cycleBase == a.cycleBase
  {
  }

  // ---------------------------------------------------------------------------------
  // onPrepared at most once per cycle

  lemma InitialInv()
    ensures Inv(Initial)
  {
  }

  /** Every step keeps the invariant. */
  lemma ApplyInv(a: Adapter, s: Step)
    requires Inv(a)
    ensures Inv(Apply(a, s))
  {
    if BeginsCycle(s) {
      CycleStepInv(a, s);
    } else if s.ErrorReported? || s.SeekStartedReported? || s.StateChanged? {
      CallbackStepInv(a, s);
    } else {
      PlainStepInv(a, s);
    }
  }

  /** init, prepare, reset and release keep the invariant. */
  lemma CycleStepInv(a: Adapter, s: Step)
    requires Inv(a) && BeginsCycle(s)
    ensures Inv(Apply(a, s))
  {
    match s
    case InitCalled =>
      if a.engine.None? && a.hasContext { NewCycleInv(Init(a)); }
    case PrepareCalled(url) =>
      if a.engine.Some? { NewCycleInv(Prepare(a, url)); }
    case ResetCalled => NewCycleInv(Reset(a));
    case ReleaseCalled => NewCycleInv(Reset(a));
  }

  /** The engine's callbacks keep the invariant. */
  lemma CallbackStepInv(a: Adapter, s: Step)
    requires Inv(a) && (s.ErrorReported? || s.SeekStartedReported? || s.StateChanged?)
    ensures Inv(Apply(a, s))
  {
    match s
    case ErrorReported(errorType) => PreparedCountSnoc(a.events, Error(errorType));
    case SeekStartedReported => PreparedCountSnoc(a.events, Started);
    case StateChanged(playbackState) => PlayerStateChangedInv(a, playbackState);
  }

  /** The remaining calls and the engine's own moves keep the invariant. */
  lemma PlainStepInv(a: Adapter, s: Step)
    requires Inv(a) && !BeginsCycle(s)
    requires !(s.ErrorReported? || s.SeekStartedReported? || s.StateChanged?)
    ensures Inv(Apply(a, s))
  {
    SameCycleInv(a, Apply(a, s));
  }

  /** A step that starts a new cycle at the current log keeps the invariant. */
  lemma NewCycleInv(r: Adapter)
    requires !r.isPrepared && r.cycleBase == PreparedCount(r.events)
    requires r.engine.Some? ==> r.hasContext
    ensures Inv(r)
  {
  }

  /** A step that leaves the log, the cycle and isPrepared alone keeps the invariant. */
  lemma SameCycleInv(a: Adapter, r: Adapter)
    requires Inv(a)
    requires r.events == a.events && r.cycleBase == a.cycleBase && r.isPrepared == a.isPrepared
    requires r.engine.None? ==> !r.isPrepared
    requires r.engine.Some? ==> r.hasContext
    ensures Inv(r)
  {
  }

  lemma PlayerStateChangedInv(a: Adapter, playbackState: PlaybackState)
    requires Inv(a)
    ensures Inv(PlayerStateChanged(a, playbackState))
  {
    if playbackState == StateReady && a.engine.Some? {
      match a.engine.value.videoFormat
      case None => PreparedCountSnoc(a.events, Error(NoVideoFormatError));
      case Some(f) => PreparedCountSnoc(a.events, Prepared);
    }
  }

  lemma {:induction false} RunInv(a: Adapter, steps: seq<Step>)
    requires Inv(a)
    ensures Inv(Run(a, steps))
    decreases |steps|
  {
    if steps != [] {
      ApplyInv(a, steps[0]);
      RunInv(Apply(a, steps[0]), steps[1..]);
    }
  }

  /**
   * In every adapter reached from construction, onPrepared has been called at most once
   * since isPrepared was last cleared, and isPrepared says whether it has; without an
   * engine the adapter is never prepared.
   */
  lemma ReachablePreparedOnce(steps: seq<Step>)
    ensures var r := Run(Initial, steps);
            && PreparedCount(r.events) <= r.cycleBase + 1
            && (r.isPrepared <==> PreparedCount(r.events) == r.cycleBase + 1)
            && (r.engine.None? ==> !r.isPrepared)
            && (r.engine.Some? ==> r.hasContext)
  {
    InitialInv();
    RunInv(Initial, steps);
  }

  /** Only init, prepare, reset and release begin a cycle. */
  lemma ApplyKeepsCycle(a: Adapter, s: Step)
    requires !BeginsCycle(s)
    ensures Apply(a, s).cycleBase == a.cycleBase
    ensures |a.events| <= |Apply(a, s).events|
    ensures Apply(a, s).events[..|a.events|] == a.events
  {
    if s.ErrorReported? || s.SeekStartedReported? || s.StateChanged? {
      CallbackKeepsCycle(a, s);
    } else {
      assert Apply(a, s).events == a.events && Apply(a, s).cycleBase == a.cycleBase;
    }
  }

  /** An engine callback adds at most one event to the log and leaves the cycle alone. */
  lemma CallbackKeepsCycle(a: Adapter, s: Step)
    requires s.ErrorReported? || s.SeekStartedReported? || s.StateChanged?
    ensures Apply(a, s).cycleBase == a.cycleBase
    ensures |a.events| <= |Apply(a, s).events|
    ensures Apply(a, s).events[..|a.events|] == a.events
  {
    var e := match s
      case ErrorReported(t) => Error(t)
      case SeekStartedReported => Started
      case StateChanged(_) => (if a.engine.Some? && a.engine.value.videoFormat.None? then Error(NoVideoFormatError) else Prepared);
    assert (a.events + [e])[..|a.events|] == a.events;
  }

  /**
   * Between two calls that begin a cycle, however the engine moves and whatever it
   * reports, onPrepared is called at most once: the log only grows, the cycle does not
   * move, and the cycle's count stays at most one.
   */
  lemma {:induction false} OnePreparedBetweenPrepares(a: Adapter, steps: seq<Step>)
    requires Inv(a)
    requires forall i :: 0 <= i < |steps| ==> !BeginsCycle(steps[i])
    ensures Run(a, steps).cycleBase == a.cycleBase
    ensures PreparedCount(Run(a, steps).events) <= a.cycleBase + 1
    decreases |steps|
  {
    if steps != [] {
      ApplyKeepsCycle(a, steps[0]);
      ApplyInv(a, steps[0]);
      OnePreparedBetweenPrepares(Apply(a, steps[0]), steps[1..]);
    }
  }

  /**
   * The same bound read off the log alone: between two calls that begin a cycle the log
   * gains at most one onPrepared, and none once the adapter is already prepared.
   */
  lemma AtMostOneMorePrepared(a: Adapter, steps: seq<Step>)
    requires Inv(a)
    requires forall i :: 0 <= i < |steps| ==> !BeginsCycle(steps[i])
    ensures PreparedCount(Run(a, steps).events) <= PreparedCount(a.events) + 1
    ensures a.isPrepared ==> PreparedCount(Run(a, steps).events) <= PreparedCount(a.events)
  {
    OnePreparedBetweenPrepares(a, steps);
  }

  /**
   * prepare, then the engine reaching READY with a format, reported twice: with a prepared
   * listener set, onPrepared is called exactly once and the adapter is prepared.
   */
  lemma PrepareThenReadyTwice(a: Adapter, url: string, f: Format, duration: int)
    requires a.engine.Some? && a.preparedListener
    ensures var r := Run(a, [PrepareCalled(url), EngineMoved(StateReady, Some(f), 0, duration),
                             StateChanged(StateReady), StateChanged(StateReady)]);
            && r.isPrepared
            && r.events == a.events + [Prepared]
            && WhileEngine(r.engine, r.width) == f.width
            && WhileEngine(r.engine, r.height) == f.height
            && EngineDuration(r.engine) == duration
  {
    var moved := EngineMoved(StateReady, Some(f), 0, duration);
    var a1 := Apply(a, PrepareCalled(url));
    assert a1 == Prepare(a, url);
    var a2 := Apply(a1, moved);
    assert a2 == EngineAdvance(a1, StateReady, Some(f), 0, duration);
    var a3 := Apply(a2, StateChanged(StateReady));
    assert a3 == PlayerStateChanged(a2, StateReady);
    var r := Apply(a3, StateChanged(StateReady));
    assert r == PlayerStateChanged(a3, StateReady);
    ReadyWithFormat(a2, f);
    ReadyWithFormat(a3, f);
    RunFour(a, PrepareCalled(url), moved, StateChanged(StateReady), StateChanged(StateReady));
  }

  lemma RunFour(a: Adapter, s1: Step, s2: Step, s3: Step, s4: Step)
    ensures Run(a, [s1, s2, s3, s4]) == Apply(Apply(Apply(Apply(a, s1), s2), s3), s4)
  {
    var a1 := Apply(a, s1);
    var a2 := Apply(a1, s2);
    var a3 := Apply(a2, s3);
    assert [s1, s2, s3, s4][1..] == [s2, s3, s4];
    assert Run(a, [s1, s2, s3, s4]) == Run(a1, [s2, s3, s4]);
    assert [s2, s3, s4][1..] == [s3, s4];
    assert Run(a1, [s2, s3, s4]) == Run(a2, [s3, s4]);
    assert [s3, s4][1..] == [s4];
    assert Run(a2, [s3, s4]) == Run(a3, [s4]);
    assert [s4][1..] == [];
    assert Run(a3, [s4]) == Run(Apply(a3, s4), []);
  }

  // ---------------------------------------------------------------------------------
  // The prepared count

  lemma PreparedCountSnoc(events: seq<AdapterEvent>, e: AdapterEvent)
    ensures PreparedCount(events + [e]) == PreparedCount(events) + (if e == Prepared then 1 else 0)
  {
    assert (events + [e])[..|events|] == events;
  }
}
