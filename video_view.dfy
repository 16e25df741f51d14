/**
 * BaseVideoView as a class over an abstract player. The fields are the view's own; the
 * player is present or absent, and what the view asks of it and tells its status
 * listener is kept in two ghost logs. The handler's message queue is two flags: the
 * progress message posted or not, and the auto-start message posted or not.
 *
 * Every entry point is proved to move the view exactly as the matching transition of
 * PlaybackMachine does, and to keep its invariant.
 */
module VideoView {
  import opened Optional
  import opened TextureLayout
  import opened PlaybackMachine
  import opened PlaybackProperties

  class BaseVideoView {
    var url: Option<string>
    var currentState: State
    var targetState: State
    var seekPositionForReUrl: int
    var videoWidth: int
    var videoHeight: int
    var videoRotationDegree: int
    var textureView: Option<Size>
    var hasSurface: bool
    var hasListener: bool
    var hasPlayer: bool
    var keepScreenOn: bool
    var progressUpdatePosted: bool
    var autoStartPosted: bool
    ghost var calls: seq<PlayerCall>
    ghost var events: seq<ListenerEvent>

    /** The view as a value. */
    ghost function Snapshot(): View
      reads this
    {
      View(currentState, targetState, url, hasPlayer, hasListener, hasSurface, textureView,
           seekPositionForReUrl, keepScreenOn, progressUpdatePosted, autoStartPosted,
           videoWidth, videoHeight, videoRotationDegree, calls, events)
    }

    ghost predicate Valid()
      reads this
    {
      Inv(Snapshot())
    }

    constructor ()
      ensures Snapshot() == Initial
      ensures Valid()
    {
      url := None;
      currentState, targetState := Idle, Idle;
      seekPositionForReUrl := -1;
      videoWidth, videoHeight, videoRotationDegree := 0, 0, 0;
      textureView := None;
      hasSurface, hasListener, hasPlayer := false, false, false;
      keepScreenOn := false;
      progressUpdatePosted, autoStartPosted := false, false;
      calls, events := [], [];
    }

    // -------------------------------------------------------------------------------
    // Private helpers

    /** setCurrentState: the screen is kept on exactly while playing. */
    method SetCurrentState(state: State)
      modifies this`currentState, this`keepScreenOn
      ensures Snapshot() == PlaybackMachine.SetCurrentState(old(Snapshot()), state)
    {
      currentState := state;
      keepScreenOn := state == Playing;
    }

    /** The state the view is heading for (mTargetState). */
    method SetTargetState(state: State)
      modifies this`targetState
      ensures Snapshot() == old(Snapshot()).(target := state)
    {
      targetState := state;
    }

    /** A call on the player, recorded in the call log. */
    method CallPlayer(c: PlayerCall)
      modifies this`calls
      ensures Snapshot() == Call(old(Snapshot()), c)
    {
      calls := calls + [c];
    }

    /** An event for the status listener, delivered only when one is set. */
    method NotifyListener(e: ListenerEvent)
      modifies this`events
      ensures Snapshot() == Notify(old(Snapshot()), e)
    {
      if hasListener {
        events := events + [e];
      }
    }

    method StartProcessUpdate()
      modifies this`progressUpdatePosted
      ensures Snapshot() == PlaybackMachine.StartProcessUpdate(old(Snapshot()))
    {
      progressUpdatePosted := true;
    }

    method StopProcessUpdate()
      modifies this`progressUpdatePosted
      ensures Snapshot() == PlaybackMachine.StopProcessUpdate(old(Snapshot()))
    {
      progressUpdatePosted := false;
    }

    /** layoutVideoView: the texture view gets the computed size, when there is one. */
    method LayoutVideoView(parentWidth: int, parentHeight: int)
      modifies this`textureView
      ensures Snapshot() == PlaybackMachine.LayoutVideoView(old(Snapshot()), parentWidth, parentHeight)
    {
      var layout := CalcTextureLayout(videoWidth, videoHeight, videoRotationDegree, parentWidth, parentHeight);
      if layout.Some? {
        textureView := layout;
      }
    }

    /** The head of setPath: create and initialise the player when there is none. */
    method EnsurePlayer()
      modifies this`hasPlayer, this`calls, this`currentState, this`keepScreenOn, this`targetState
      ensures Snapshot() == PlaybackMachine.EnsurePlayer(old(Snapshot()))
    {
      if !hasPlayer {
        hasPlayer := true;
        CallPlayer(PlayerInit);
        SetCurrentState(Idle);
        SetTargetState(Idle);
      }
    }

    /** The player, if there is one, is released and let go. */
    method ReleaseEngine()
      modifies this`hasPlayer, this`calls
      ensures Snapshot() == if old(hasPlayer) then Call(old(Snapshot()), PlayerRelease).(hasPlayer := false) else old(Snapshot())
    {
      if hasPlayer {
        CallPlayer(PlayerRelease);
        hasPlayer := false;
      }
    }

    /** The video's width, height and rotation, as the player reports them. */
    method SetVideoGeometry(width: int, height: int, rotation: int)
      modifies this`videoWidth, this`videoHeight, this`videoRotationDegree
      ensures Snapshot() == old(Snapshot()).(videoWidth := width, videoHeight := height, videoRotation := rotation)
    {
      videoWidth := width;
      videoHeight := height;
      videoRotationDegree := rotation;
    }

    /** The pending re-seek and the status listener are cleared. */
    method ForgetSeekAndListener()
      modifies this`seekPositionForReUrl, this`hasListener
      ensures Snapshot() == old(Snapshot()).(seekForReUrl := -1, hasListener := false)
    {
      seekPositionForReUrl := -1;
      hasListener := false;
    }

    /**
     * The IDLE/ERROR branch of setPath: store the URL, register the callbacks and ask the
     * player to prepare it.
     */
    method BeginPrepare(url: string, autoStart: bool)
      modifies this`url, this`targetState, this`currentState, this`keepScreenOn, this`calls
      ensures Snapshot() == PlaybackMachine.BeginPrepare(old(Snapshot()), url, autoStart)
    {
      this.url := Some(url);
      SetTargetState(if autoStart then Playing else TextureAvailable);
      SetCurrentState(Preparing);
      CallPlayer(PlayerPrepare(url));
    }

    /** Both handler messages are removed. */
    method RemoveMessages()
      modifies this`autoStartPosted, this`progressUpdatePosted
      ensures Snapshot() == old(Snapshot()).(autoStartPending := false, progressTickArmed := false)
    {
      autoStartPosted := false;
      progressUpdatePosted := false;
    }

    /** The texture view and its surface are dropped. */
    method DetachTextureView()
      modifies this`textureView, this`hasSurface
      ensures Snapshot() == old(Snapshot()).(textureView := None, hasSurface := false)
    {
      textureView := None;
      hasSurface := false;
    }

    // -------------------------------------------------------------------------------
    // Entry points. Those that re-enter start end with the lemma that their transition keeps
    // the invariant.

    method SetPath(url: Option<string>, autoStart: bool)
      requires Valid()
      modifies this
      ensures Snapshot() == PlaybackMachine.SetPath(old(Snapshot()), url, autoStart)
      ensures Valid()
      decreases SetPathRank
    {
      ghost var before := Snapshot();
      if !(url.None? || url.value == "") {
        EnsurePlayer();
        if currentState == Paused {
          SetTargetState(Playing);
          Start();
        } else if currentState == Preparing || currentState == Prepared {
          if autoStart {
            SetTargetState(Playing);
          }
        } else if currentState == TextureAvailable {
          if autoStart {
            SetTargetState(Playing);
            Start();
          }
        } else if currentState != Playing {
          BeginPrepare(url.value, autoStart);
        }
      }
      SetPathInv(before, url, autoStart);
    }

    method Start()
      requires Valid()
      modifies this
      ensures Snapshot() == PlaybackMachine.Start(old(Snapshot()))
      ensures Valid()
      decreases StartRank(currentState)
    {
      ghost var before := Snapshot();
      if url.Some? {
        if currentState == Idle || currentState == Error {
          SetTargetState(Playing);
          ReleasePlayer();
          SetPath(url, true);
        } else if hasPlayer {
          if currentState == Preparing || currentState == Prepared || currentState == Playing {
            SetTargetState(Playing);
          } else if currentState == Paused || currentState == TextureAvailable {
            SetCurrentState(Playing);
            SetTargetState(Playing);
            CallPlayer(PlayerStart);
            NotifyListener(OnPlayStart);
            StartProcessUpdate();
          }
        }
      }
      StartInv(before);
    }

    method Pause()
      requires Valid()
      modifies this
      ensures Snapshot() == PlaybackMachine.Pause(old(Snapshot()))
      ensures Valid()
    {
      if hasPlayer && currentState != Paused && currentState != Idle {
        CallPlayer(PlayerStop);
        SetCurrentState(Paused);
        SetTargetState(Paused);
        StopProcessUpdate();
        NotifyListener(OnPlayPause);
      }
    }

    method Seek(position: int)
      requires Valid()
      modifies this
      ensures Snapshot() == PlaybackMachine.Seek(old(Snapshot()), position)
      ensures Valid()
    {
      seekPositionForReUrl := -1;
      if hasPlayer {
        if currentState == Paused || currentState == TextureAvailable || currentState == Playing || currentState == Prepared {
          CallPlayer(PlayerSeek(position));
        }
      }
    }

    method SetOnPlayStatusListener(present: bool)
      requires Valid()
      modifies this
      ensures Snapshot() == SetListener(old(Snapshot()), present)
      ensures Valid()
    {
      hasListener := present;
    }

    method ReleasePlayer()
      requires Valid()
      modifies this
      ensures Snapshot() == Release(old(Snapshot()))
      ensures Valid()
    {
      SetCurrentState(Idle);
      SetTargetState(Idle);
      ReleaseEngine();
      RemoveMessages();
      DetachTextureView();
      ForgetSeekAndListener();
    }

    /** onDetachedFromWindow: leaving the window releases the player. */
    method OnDetachedFromWindow()
      requires Valid()
      modifies this
      ensures Snapshot() == Release(old(Snapshot()))
      ensures Valid()
    {
      ReleasePlayer();
    }

    method OnSurfaceTextureAvailable()
      requires Valid()
      modifies this
      ensures Snapshot() == SurfaceAvailable(old(Snapshot()))
      ensures Valid()
    {
      ghost var before := Snapshot();
      hasSurface := true;
      if hasPlayer {
        CallPlayer(PlayerSetSurface);
        SetCurrentState(TextureAvailable);
        if targetState == Playing {
          Start();
        }
      }
      SurfaceAvailableInv(before);
    }

    method OnSurfaceTextureDestroyed() returns (released: bool)
      requires Valid()
      modifies this
      ensures Snapshot() == SurfaceDestroyed(old(Snapshot()))
      ensures Valid()
      ensures released
    {
      hasSurface := false;
      released := true;
    }

    /**
     * onPrepared, with the player's reported geometry and the parent's measured size.
     * The re-seek at the end of onPrepared is absent here: Valid() pins the
     * pending seek to -1, so its guard never holds.
     */
    method OnPrepared(width: int, height: int, rotation: int, parentWidth: int, parentHeight: int)
      requires Valid()
      modifies this
      ensures Snapshot() == OnPreparedEvent(old(Snapshot()), width, height, rotation, parentWidth, parentHeight)
      ensures Valid()
    {
      SetVideoGeometry(width, height, rotation);
      if hasPlayer {
        NotifyListener(ListenerEvent.OnPrepared);
        LayoutVideoView(parentWidth, parentHeight);
        SetCurrentState(Prepared);
      }
    }

    method OnError(what: int) returns (handled: bool)
      requires Valid()
      modifies this
      ensures Snapshot() == OnErrorEvent(old(Snapshot()), what)
      ensures Valid()
      ensures !handled
    {
      NotifyListener(OnPlayError(what));
      handled := false;
    }

    /** handleMessage for the posted progress message, given the player's position. */
    method HandleProgressMessage(position: int)
      requires Valid() && progressUpdatePosted
      modifies this
      ensures Snapshot() == ProgressTick(old(Snapshot()), position)
      ensures Valid()
    {
      progressUpdatePosted := false;
      if hasPlayer && currentState == Playing && hasListener {
        events := events + [OnProgressUpdate(position)];
        autoStartPosted := false;
        progressUpdatePosted := true;
      }
    }
  }
}
