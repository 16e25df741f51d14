/** What the transitions of PlaybackMachine promise, one entry point at a time and over runs. */
module PlaybackProperties {
  import opened Optional
  import opened TextureLayout
  import opened PlaybackMachine

  // ---------------------------------------------------------------------------------
  // setPath

  /** An empty or null URL changes nothing. */
  lemma SetPathEmptyUrl(v: View, url: Option<string>, autoStart: bool)
    requires IsEmpty(url)
    ensures SetPath(v, url, autoStart) == v
  {
  }

  /**
   * From IDLE (and from ERROR, which no run reaches) setPath stores the URL, aims at
   * PLAYING or TEXTURE_AVAILABLE, enters PREPARING and prepares exactly once, creating
   * and initialising the player first when there is none.
   */
  lemma SetPathPrepares(v: View, url: string, autoStart: bool)
    requires v.current == Idle || v.current == Error
    requires url != ""
    ensures var r := SetPath(v, Some(url), autoStart);
            && r.url == Some(url)
            && r.target == (if autoStart then Playing else TextureAvailable)
            && r.current == Preparing
            && r.hasPlayer
            && r.calls == v.calls + (if v.hasPlayer then [] else [PlayerInit]) + [PlayerPrepare(url)]
            && Prepares(r.calls) == Prepares(v.calls) + 1
            && r.events == v.events
            && r.hasListener == v.hasListener && r.progressTickArmed == v.progressTickArmed
  {
    SetPathFromIdle(v, url, autoStart);
    PrepareFromIdle(v, url, autoStart);
  }

  /** The IDLE/ERROR branch of setPath, on its own. */
  lemma PrepareFromIdle(v: View, url: string, autoStart: bool)
    ensures var r := BeginPrepare(EnsurePlayer(v), url, autoStart);
            && r.url == Some(url)
            && r.target == (if autoStart then Playing else TextureAvailable)
            && r.current == Preparing
            && r.hasPlayer
            && r.calls == v.calls + (if v.hasPlayer then [] else [PlayerInit]) + [PlayerPrepare(url)]
            && Prepares(r.calls) == Prepares(v.calls) + 1
            && r.events == v.events
            && r.hasListener == v.hasListener && r.progressTickArmed == v.progressTickArmed
  {
    var v1 := EnsurePlayer(v);
    PreparesSnoc(v1.calls, PlayerPrepare(url));
    if v.hasPlayer {
      assert v.calls + [] == v.calls;
    } else {
      PreparesSnoc(v.calls, PlayerInit);
    }
  }

  lemma SetPathFromIdle(v: View, url: string, autoStart: bool)
    requires v.current == Idle || v.current == Error
    requires url != ""
    ensures SetPath(v, Some(url), autoStart) == BeginPrepare(EnsurePlayer(v), url, autoStart)
  {
  }

  /**
   * Once a source is loading or loaded, setPath never prepares again and never replaces
   * the stored URL, whatever URL it is given.
   */
  lemma SetPathKeepsSource(v: View, url: Option<string>, autoStart: bool)
    requires Inv(v)
    requires v.current in {Preparing, Prepared, TextureAvailable, Paused, Playing}
    ensures var r := SetPath(v, url, autoStart);
            && r.url == v.url
            && |v.calls| <= |r.calls| && r.calls[..|v.calls|] == v.calls
            && Prepares(r.calls) == Prepares(v.calls)
  {
    var r := SetPath(v, url, autoStart);
    if !IsEmpty(url) && (v.current == Paused || (v.current == TextureAvailable && autoStart)) {
      assert r.calls == v.calls + [PlayerStart];
      PreparesAppend(v.calls, [PlayerStart]);
    }
  }

  /** In PREPARING and PREPARED setPath only raises the target to PLAYING, and only for autoStart. */
  lemma SetPathWhileLoading(v: View, url: Option<string>, autoStart: bool)
    requires v.hasPlayer && (v.current == Preparing || v.current == Prepared)
    requires !IsEmpty(url)
    ensures SetPath(v, url, autoStart) == if autoStart then v.(target := Playing) else v
  {
  }

  /** In PLAYING setPath is a no-op. */
  lemma SetPathWhilePlaying(v: View, url: Option<string>, autoStart: bool)
    requires v.hasPlayer && v.current == Playing
    ensures SetPath(v, url, autoStart) == v
  {
  }

  // ---------------------------------------------------------------------------------
  // start

  /** Without a stored URL start does nothing. */
  lemma StartWithoutUrl(v: View)
    requires v.url.None?
    ensures Start(v) == v
  {
  }

  /**
   * From IDLE or ERROR start releases the player and prepares the stored URL again:
   * it ends in PREPARING aiming at PLAYING, with one new prepare and no status listener.
   */
  lemma StartRestarts(v: View)
    requires v.current == Idle || v.current == Error
    requires v.url.Some? && v.url.value != ""
    ensures var r := Start(v);
            && r.current == Preparing
            && r.target == Playing
            && r.url == v.url
            && r.hasPlayer
            && !r.hasListener
            && !r.progressTickArmed
            && r.calls == v.calls + (if v.hasPlayer then [PlayerRelease] else []) + [PlayerInit, PlayerPrepare(v.url.value)]
            && Prepares(r.calls) == Prepares(v.calls) + 1
            && r.events == v.events
  {
    var u := v.url.value;
    var v1 := Release(v.(target := Playing));
    var r := SetPath(v1, v.url, true);
    StartFromIdle(v);
    ReleaseClears(v.(target := Playing));
    SetPathPrepares(v1, u, true);
    var released: seq<PlayerCall> := if v.hasPlayer then [PlayerRelease] else [];
    assert r.calls == v.calls + released + [PlayerInit] + [PlayerPrepare(u)];
    assert r.calls == v.calls + released + [PlayerInit, PlayerPrepare(u)];
    PreparesOfRestart(v.calls, v.hasPlayer, u);
  }

  lemma PreparesOfRestart(calls: seq<PlayerCall>, released: bool, url: string)
    ensures Prepares(calls + (if released then [PlayerRelease] else []) + [PlayerInit, PlayerPrepare(url)]) == Prepares(calls) + 1
  {
    var rel: seq<PlayerCall> := if released then [PlayerRelease] else [];
    PreparesAppend(calls, rel);
    PreparesAppend(calls + rel, [PlayerInit, PlayerPrepare(url)]);
    PreparesAppend([PlayerInit], [PlayerPrepare(url)]);
    assert [PlayerInit] + [PlayerPrepare(url)] == [PlayerInit, PlayerPrepare(url)];
    assert Prepares([PlayerInit]) == 0 by {
      assert [PlayerInit][..0] == [];
    }
    PreparesAppend([], rel);
    assert [] + rel == rel;
  }

  lemma StartFromIdle(v: View)
    requires v.current == Idle || v.current == Error
    requires v.url.Some?
    ensures Start(v) == SetPath(Release(v.(target := Playing)), v.url, true)
  {
  }

  /** In PREPARING, PREPARED or PLAYING start only sets the target to PLAYING. */
  lemma StartWhileActive(v: View)
    requires v.url.Some? && v.hasPlayer
    requires v.current == Preparing || v.current == Prepared || v.current == Playing
    ensures Start(v) == v.(target := Playing)
  {
  }

  /**
   * From PAUSED or TEXTURE_AVAILABLE start plays: one engine start, one onPlayStart when a
   * listener is set, and the progress message posted.
   */
  lemma StartResumes(v: View)
    requires v.url.Some? && v.hasPlayer
    requires v.current == Paused || v.current == TextureAvailable
    ensures var r := Start(v);
            && r.current == Playing
            && r.target == Playing
            && r.keepScreenOn
            && r.progressTickArmed
            && r.calls == v.calls + [PlayerStart]
            && r.events == v.events + (if v.hasListener then [OnPlayStart] else [])
            && r.url == v.url && r.hasPlayer == v.hasPlayer && r.hasListener == v.hasListener
  {
  }

  // ---------------------------------------------------------------------------------
  // pause, seek, the progress message

  /** Without a player, or when PAUSED or IDLE, pause does nothing. */
  lemma PauseIgnored(v: View)
    requires !v.hasPlayer || v.current == Paused || v.current == Idle
    ensures Pause(v) == v
  {
  }

  /** Otherwise pause stops the player, settles on PAUSED, cancels the progress message and reports. */
  lemma PauseStops(v: View)
    requires v.hasPlayer && v.current != Paused && v.current != Idle
    ensures var r := Pause(v);
            && r.current == Paused && r.target == Paused
            && !r.keepScreenOn
            && !r.progressTickArmed
            && r.calls == v.calls + [PlayerStop]
            && r.events == v.events + (if v.hasListener then [OnPlayPause] else [])
            && r.url == v.url && r.hasPlayer
  {
  }

  /** seek forwards the position only in the four states with a loaded source. */
  lemma SeekForwards(v: View, position: int)
    ensures var r := Seek(v, position);
            var loaded := v.current in {Paused, TextureAvailable, Playing, Prepared};
            && r.seekForReUrl == -1
            && r.calls == v.calls + (if v.hasPlayer && loaded then [PlayerSeek(position)] else [])
            && r.current == v.current && r.target == v.target && r.events == v.events
  {
  }

  /**
   * A progress message reports the position and posts the next one exactly when there is
   * a player, the view is PLAYING and a listener is set; otherwise the polling stops.
   */
  lemma ProgressTickReports(v: View, position: int)
    ensures var r := ProgressTick(v, position);
            var live := v.hasPlayer && v.current == Playing && v.hasListener;
            && (r.progressTickArmed <==> live)
            && r.events == v.events + (if live then [OnProgressUpdate(position)] else [])
            && r.calls == v.calls
            && r.current == v.current && r.target == v.target
  {
  }

  // ---------------------------------------------------------------------------------
  // releasePlayer

  /** releasePlayer clears everything transient but keeps the URL. */
  lemma ReleaseClears(v: View)
    ensures var r := Release(v);
            && r.current == Idle && r.target == Idle
            && !r.hasPlayer && !r.hasListener && !r.hasSurface
            && r.textureView.None?
            && !r.progressTickArmed && !r.autoStartPending
            && r.seekForReUrl == -1
            && !r.keepScreenOn
            && r.url == v.url
            && r.calls == v.calls + (if v.hasPlayer then [PlayerRelease] else [])
            && r.events == v.events
  {
  }

  /** Releasing twice is the same as releasing once. */
  lemma ReleaseIdempotent(v: View)
    ensures Release(Release(v)) == Release(v)
  {
  }

  // ---------------------------------------------------------------------------------
  // Callbacks

  /**
   * A surface with a player present puts the view in TEXTURE_AVAILABLE, and then playing
   * if that is the target; without a player only the surface is recorded.
   */
  lemma SurfaceAvailableAdvances(v: View)
    requires Inv(v)
    ensures var r := SurfaceAvailable(v);
            && r.hasSurface
            && (!v.hasPlayer ==> r == v.(hasSurface := true))
            && (v.hasPlayer ==> r.current == (if v.target == Playing then Playing else TextureAvailable))
            && (v.hasPlayer ==> r.calls == v.calls + [PlayerSetSurface] + (if v.target == Playing then [PlayerStart] else []))
            && (v.hasPlayer && v.target == Playing ==>
                  r.progressTickArmed && r.events == v.events + (if v.hasListener then [OnPlayStart] else []))
  {
    if v.hasPlayer {
      var v2 := SetCurrentState(Call(v.(hasSurface := true), PlayerSetSurface), TextureAvailable);
      if v2.target == Playing {
        StartResumes(v2);
      }
    }
  }

  /**
   * onPrepared with a player present ends in PREPARED whatever the state was, reports once
   * and lays the texture view out; the re-seek branch never runs in a reachable view.
   */
  lemma OnPreparedSettles(v: View, width: int, height: int, rotation: int, parentWidth: int, parentHeight: int)
    requires Inv(v)
    ensures var r := OnPreparedEvent(v, width, height, rotation, parentWidth, parentHeight);
            && r.videoWidth == width && r.videoHeight == height && r.videoRotation == rotation
            && (v.hasPlayer ==> r.current == Prepared && !r.keepScreenOn)
            && (!v.hasPlayer ==> r.current == v.current)
            && r.target == v.target
            && r.calls == v.calls
            && r.events == v.events + (if v.hasPlayer && v.hasListener then [OnPrepared] else [])
            && (v.hasPlayer ==>
                  r.textureView == (match CalcTextureLayout(width, height, rotation, parentWidth, parentHeight)
                                    case None => v.textureView
                                    case Some(size) => Some(size)))
  {
  }

  /** onError reports the error and leaves both states as they were. */
  lemma OnErrorKeepsState(v: View, what: int)
    ensures var r := OnErrorEvent(v, what);
            && r.current == v.current && r.target == v.target
            && r.events == v.events + (if v.hasListener then [OnPlayError(what)] else [])
            && r.calls == v.calls
  {
  }

  // ---------------------------------------------------------------------------------
  // The invariant

  lemma InitialInv()
    ensures Inv(Initial)
  {
  }

  lemma {:induction false} SetPathInv(v: View, url: Option<string>, autoStart: bool)
    requires Inv(v)
    ensures Inv(SetPath(v, url, autoStart))
    decreases SetPathRank
  {
    if !IsEmpty(url) && v.hasPlayer {
      if v.current == Paused || (v.current == TextureAvailable && autoStart) {
        StartInv(v.(target := Playing));
      }
    }
  }

  lemma {:induction false} StartInv(v: View)
    requires Inv(v)
    ensures Inv(Start(v))
    decreases StartRank(v.current)
  {
    if v.url.Some? && (v.current == Idle || v.current == Error) {
      var v1 := Release(v.(target := Playing));
      SetPathInv(v1, v.url, true);
    }
  }

  lemma SurfaceAvailableInv(v: View)
    requires Inv(v)
    ensures Inv(SurfaceAvailable(v))
  {
    if v.hasPlayer {
      StartInv(SetCurrentState(Call(v.(hasSurface := true), PlayerSetSurface), TextureAvailable));
    }
  }

  /** Every entry point keeps the invariant. */
  lemma ApplyInv(v: View, e: Event)
    requires Inv(v)
    ensures Inv(Apply(v, e))
  {
    match e
    case SetPathCalled(url, autoStart) => SetPathInv(v, url, autoStart);
    case StartCalled => StartInv(v);
    case SurfaceCreated => SurfaceAvailableInv(v);
    case _ =>
  }

  lemma {:induction false} RunInv(v: View, es: seq<Event>)
    requires Inv(v)
    ensures Inv(Run(v, es))
    decreases |es|
  {
    if es != [] {
      ApplyInv(v, es[0]);
      RunInv(Apply(v, es[0]), es[1..]);
    }
  }

  /**
   * In every view reached from construction: no player means IDLE, ERROR is never entered,
   * the screen is kept on exactly while playing, and no re-seek is ever pending.
   */
  lemma ReachableInv(es: seq<Event>)
    ensures var r := Run(Initial, es);
            && (!r.hasPlayer ==> r.current == Idle)
            && r.current != Error
            && r.keepScreenOn == (r.current == Playing)
            && r.seekForReUrl == -1
  {
    RunInv(Initial, es);
  }

  // ---------------------------------------------------------------------------------
  // Runs

  /** Pausing and starting again resumes the same source: no new prepare. */
  lemma PauseThenStartResumes(v: View)
    requires Inv(v)
    requires v.current != Idle && v.current != Paused
    ensures var r := Start(Pause(v));
            && r.current == Playing
            && r.calls == v.calls + [PlayerStop, PlayerStart]
            && Prepares(r.calls) == Prepares(v.calls)
  {
    var p := Pause(v);
    StartResumes(p);
    PreparesAppend(v.calls, [PlayerStop, PlayerStart]);
  }

  /**
   * start from IDLE with a stored URL, then the player's prepared event, then the surface:
   * exactly one prepare and one engine start, ending in PLAYING.
   */
  lemma ColdStart(v: View, width: int, height: int, rotation: int, parentWidth: int, parentHeight: int)
    requires Inv(v) && v.current == Idle && v.url.Some?
    ensures var r := Run(v, [StartCalled, PlayerPrepared(width, height, rotation, parentWidth, parentHeight), SurfaceCreated]);
            && r.current == Playing
            && r.calls == v.calls + [PlayerInit, PlayerPrepare(v.url.value), PlayerSetSurface, PlayerStart]
  {
    var prepared := PlayerPrepared(width, height, rotation, parentWidth, parentHeight);
    var v1 := Apply(v, StartCalled);
    assert v1 == Start(v);
    var v2 := Apply(v1, prepared);
    assert v2 == OnPreparedEvent(v1, width, height, rotation, parentWidth, parentHeight);
    var r := Apply(v2, SurfaceCreated);
    assert r == SurfaceAvailable(v2);
    ColdStartSteps(v, width, height, rotation, parentWidth, parentHeight);
    RunThree(v, StartCalled, prepared, SurfaceCreated);
  }

  lemma ColdStartSteps(v: View, width: int, height: int, rotation: int, parentWidth: int, parentHeight: int)
    requires Inv(v) && v.current == Idle && v.url.Some?
    ensures var r := SurfaceAvailable(OnPreparedEvent(Start(v), width, height, rotation, parentWidth, parentHeight));
            && r.current == Playing
            && r.calls == v.calls + [PlayerInit, PlayerPrepare(v.url.value), PlayerSetSurface, PlayerStart]
  {
    var u := v.url.value;
    var v1 := Start(v);
    StartRestarts(v);
    StartInv(v);
    PreparedThenSurfacePlays(v1, width, height, rotation, parentWidth, parentHeight);
    assert v1.calls + [PlayerSetSurface, PlayerStart] == v.calls + [PlayerInit, PlayerPrepare(u), PlayerSetSurface, PlayerStart];
  }

  /**
   * A view preparing with PLAYING as its target plays once the player is prepared and the
   * surface is there: one surface call and one engine start, onPrepared then onPlayStart.
   */
  lemma PreparedThenSurfacePlays(v: View, width: int, height: int, rotation: int, parentWidth: int, parentHeight: int)
    requires Inv(v) && v.current == Preparing && v.target == Playing
    ensures var r := SurfaceAvailable(OnPreparedEvent(v, width, height, rotation, parentWidth, parentHeight));
            && r.current == Playing
            && r.calls == v.calls + [PlayerSetSurface, PlayerStart]
            && r.events == v.events + (if v.hasListener then [OnPrepared, OnPlayStart] else [])
            && r.progressTickArmed
  {
    var v4 := OnPreparedEvent(v, width, height, rotation, parentWidth, parentHeight);
    OnPreparedSettles(v, width, height, rotation, parentWidth, parentHeight);
    ApplyInv(v, PlayerPrepared(width, height, rotation, parentWidth, parentHeight));
    SurfaceAvailableAdvances(v4);
  }

  /**
   * The hosting activity's start-up: setPath without auto-start, then the listener, then
   * start on resume, then the prepared event and the surface. The view plays after one
   * prepare, and the listener hears onPrepared and then onPlayStart.
   */
  lemma ActivityStartup(url: string, width: int, height: int, rotation: int, parentWidth: int, parentHeight: int)
    requires url != ""
    ensures var r := Run(Initial, [SetPathCalled(Some(url), false), ListenerSet(true), StartCalled,
                                   PlayerPrepared(width, height, rotation, parentWidth, parentHeight), SurfaceCreated]);
            && r.current == Playing
            && r.calls == [PlayerInit, PlayerPrepare(url), PlayerSetSurface, PlayerStart]
            && r.events == [OnPrepared, OnPlayStart]
            && r.progressTickArmed
  {
    var es := [SetPathCalled(Some(url), false), ListenerSet(true), StartCalled,
               PlayerPrepared(width, height, rotation, parentWidth, parentHeight), SurfaceCreated];
    var v1 := Apply(Initial, es[0]);
    assert v1 == SetPath(Initial, Some(url), false);
    var v2 := Apply(v1, es[1]);
    assert v2 == SetListener(v1, true);
    var v3 := Apply(v2, es[2]);
    assert v3 == Start(v2);
    var v4 := Apply(v3, es[3]);
    assert v4 == OnPreparedEvent(v3, width, height, rotation, parentWidth, parentHeight);
    var r := Apply(v4, es[4]);
    assert r == SurfaceAvailable(v4);
    StartupSteps(url, width, height, rotation, parentWidth, parentHeight);
    RunFive(Initial, es[0], es[1], es[2], es[3], es[4]);
    assert es == [es[0], es[1], es[2], es[3], es[4]];
  }

  lemma StartupSteps(url: string, width: int, height: int, rotation: int, parentWidth: int, parentHeight: int)
    requires url != ""
    ensures var r := SurfaceAvailable(OnPreparedEvent(Start(SetListener(SetPath(Initial, Some(url), false), true)),
                                                      width, height, rotation, parentWidth, parentHeight));
            && r.current == Playing
            && r.calls == [PlayerInit, PlayerPrepare(url), PlayerSetSurface, PlayerStart]
            && r.events == [OnPrepared, OnPlayStart]
            && r.progressTickArmed
  {
    InitialInv();
    var v1 := SetPath(Initial, Some(url), false);
    SetPathPrepares(Initial, url, false);
    SetPathInv(Initial, Some(url), false);
    assert v1.calls == [PlayerInit, PlayerPrepare(url)];
    var v2 := SetListener(v1, true);
    StartWhileActive(v2);
    StartupFromPreparing(v1, url, width, height, rotation, parentWidth, parentHeight);
  }

  /** The start-up after setPath: the listener, start, the prepared event and the surface. */
  lemma StartupFromPreparing(v1: View, url: string, width: int, height: int, rotation: int,
                             parentWidth: int, parentHeight: int)
    requires Inv(v1) && v1.current == Preparing
    requires v1.calls == [PlayerInit, PlayerPrepare(url)] && v1.events == []
    ensures var r := SurfaceAvailable(OnPreparedEvent(SetListener(v1, true).(target := Playing),
                                                      width, height, rotation, parentWidth, parentHeight));
            && r.current == Playing
            && r.calls == [PlayerInit, PlayerPrepare(url), PlayerSetSurface, PlayerStart]
            && r.events == [OnPrepared, OnPlayStart]
            && r.progressTickArmed
  {
    PreparedThenSurfacePlays(SetListener(v1, true).(target := Playing), width, height, rotation, parentWidth, parentHeight);
  }

  lemma RunTwo(v: View, a: Event, b: Event)
    ensures Run(v, [a, b]) == Apply(Apply(v, a), b)
  {
    assert [a, b][0] == a && [a, b][1..] == [b];
    assert Run(v, [a, b]) == Run(Apply(v, a), [b]);
    assert [b][0] == b && [b][1..] == [];
    assert Run(Apply(v, a), [b]) == Run(Apply(Apply(v, a), b), []);
  }

  lemma RunThree(v: View, a: Event, b: Event, c: Event)
    ensures Run(v, [a, b, c]) == Apply(Apply(Apply(v, a), b), c)
  {
    assert [a, b, c][1..] == [b, c];
    RunTwo(Apply(v, a), b, c);
  }

  lemma RunFive(v: View, a: Event, b: Event, c: Event, d: Event, e: Event)
    ensures Run(v, [a, b, c, d, e]) == Apply(Apply(Apply(Apply(Apply(v, a), b), c), d), e)
  {
    RunTwo(v, a, b);
    RunThree(Apply(Apply(v, a), b), c, d, e);
    RunAppend(v, [a, b], [c, d, e]);
    assert [a, b] + [c, d, e] == [a, b, c, d, e];
  }

  /** Running two sequences of events in turn is running their concatenation. */
  lemma {:induction false} RunAppend(v: View, es: seq<Event>, fs: seq<Event>)
    ensures Run(v, es + fs) == Run(Run(v, es), fs)
    decreases |es|
  {
    if es == [] {
      assert es + fs == fs;
    } else {
      assert (es + fs)[0] == es[0] && (es + fs)[1..] == es[1..] + fs;
      RunAppend(Apply(v, es[0]), es[1..], fs);
    }
  }

  // ---------------------------------------------------------------------------------
  // The prepare count

  lemma PreparesSnoc(calls: seq<PlayerCall>, c: PlayerCall)
    ensures Prepares(calls + [c]) == Prepares(calls) + (if c.PlayerPrepare? then 1 else 0)
  {
    assert (calls + [c])[..|calls|] == calls;
  }

  lemma {:induction false} PreparesAppend(a: seq<PlayerCall>, b: seq<PlayerCall>)
    ensures Prepares(a + b) == Prepares(a) + Prepares(b)
    decreases |b|
  {
    if b != [] {
      var b' := b[..|b| - 1];
      assert (a + b)[..|a + b| - 1] == a + b';
      PreparesAppend(a, b');
    } else {
      assert a + b == a;
    }
  }
}
