/**
 * MediaPlayerExo as a class over the abstract engine of ExoAdapterModel. The adapter's own
 * fields are fields here; the engine is present or absent and is replaced by an updated
 * record whenever the adapter sets something on it. The callbacks made to the listeners
 * are kept in a ghost log, with the number of onPrepared calls it held when the current
 * prepare cycle began.
 *
 * Every method is proved to move the adapter exactly as the matching transition of
 * ExoAdapterModel does, and to keep its invariant.
 */
module ExoAdapter {
  import opened Optional
  import opened ExoAdapterModel
  import ExoAdapterProperties

  class MediaPlayerExo {
    var exoPlayer: Option<Engine>
    var hasContext: bool
    var isPrepared: bool
    var width: int
    var height: int
    var rotationDegrees: int
    var surface: Option<Surface>
    var hasPreparedListener: bool
    var hasStartListener: bool
    var hasErrorListener: bool
    ghost var events: seq<AdapterEvent>
    ghost var cycleBase: nat

    /** The adapter as a value. */
    ghost function Snapshot(): Adapter
      reads this
    {
      Adapter(exoPlayer, hasContext, isPrepared, width, height, rotationDegrees, surface,
              hasPreparedListener, hasStartListener, hasErrorListener, events, cycleBase)
    }

    ghost predicate Valid()
      reads this
    {
      Inv(Snapshot())
    }

    /** MediaPlayerExo(context), with hasContext saying whether the Context was non-null. */
    constructor (hasContext: bool)
      ensures Snapshot() == Initial.(hasContext := hasContext)
      ensures Valid()
    {
      exoPlayer := None;
      this.hasContext := hasContext;
      isPrepared := false;
      width, height, rotationDegrees := 0, 0, 0;
      surface := None;
      hasPreparedListener, hasStartListener, hasErrorListener := false, false, false;
      events, cycleBase := [], 0;
    }

    // -------------------------------------------------------------------------------
    // IMediaPlayer

    /**
     * init; thrown says that the library rejected a null Context, which happens exactly
     * when there is no engine and reset has dropped the Context.
     */
    method Init() returns (thrown: bool)
      requires Valid()
      modifies this
      ensures thrown <==> old(exoPlayer).None? && !old(hasContext)
      ensures Snapshot() == ExoAdapterModel.Init(old(Snapshot()))
      ensures Valid()
    {
      thrown := exoPlayer.None? && !hasContext;
      if exoPlayer.None? && hasContext {
        exoPlayer := Some(BuiltEngine.(repeatMode := RepeatOne, exactSeek := true));
        isPrepared := false;
        cycleBase := PreparedCount(events);
      }
    }

    method Prepare(url: string)
      requires Valid()
      modifies this
      ensures Snapshot() == ExoAdapterModel.Prepare(old(Snapshot()), url)
      ensures Valid()
    {
      if exoPlayer.Some? {
        isPrepared := false;
        exoPlayer := Some(exoPlayer.value.(source := Some(url), position := 0));
        cycleBase := PreparedCount(events);
      }
    }

    method Start()
      requires Valid()
      modifies this
      ensures Snapshot() == ExoAdapterModel.Start(old(Snapshot()))
      ensures Valid()
    {
      if exoPlayer.Some? {
        exoPlayer := Some(exoPlayer.value.(playWhenReady := true));
      }
    }

    method Stop()
      requires Valid()
      modifies this
      ensures Snapshot() == ExoAdapterModel.Stop(old(Snapshot()))
      ensures Valid()
    {
      if exoPlayer.Some? {
        exoPlayer := Some(exoPlayer.value.(playWhenReady := false));
      }
    }

    method Seek(position: int)
      requires Valid()
      modifies this
      ensures Snapshot() == ExoAdapterModel.Seek(old(Snapshot()), position)
      ensures Valid()
    {
      if exoPlayer.Some? {
        exoPlayer := Some(exoPlayer.value.(position := position));
      }
    }

    method SetLoop(looping: bool)
      requires Valid()
      modifies this
      ensures Snapshot() == ExoAdapterModel.SetLoop(old(Snapshot()), looping)
      ensures Valid()
    {
      if exoPlayer.Some? {
        exoPlayer := Some(exoPlayer.value.(repeatMode := if looping then RepeatOne else RepeatOff));
      }
    }

    /** release is reset. */
    method Release()
      requires Valid()
      modifies this
      ensures Snapshot() == ExoAdapterModel.Reset(old(Snapshot()))
      ensures Valid()
    {
      Reset();
    }

    method Reset()
      requires Valid()
      modifies this
      ensures Snapshot() == ExoAdapterModel.Reset(old(Snapshot()))
      ensures Valid()
    {
      exoPlayer := None;
      hasContext := false;
      isPrepared := false;
      surface := None;
      width, height := 0, 0;
      cycleBase := PreparedCount(events);
    }

    /** isPlaying: while the engine buffers or is ready, whether it plays when ready. */
    function IsPlaying(): (r: bool)
      reads this
      ensures r <==> exoPlayer.Some? && exoPlayer.value.playWhenReady &&
                     (exoPlayer.value.playbackState == StateBuffering || exoPlayer.value.playbackState == StateReady)
    {
      EngineIsPlaying(exoPlayer)
    }

    /** getCurrentPosition: the engine's position, 0 without an engine. */
    function GetCurrentPosition(): (r: int)
      reads this
      ensures exoPlayer.None? ==> r == 0
      ensures exoPlayer.Some? ==> r == exoPlayer.value.position
    {
      EnginePosition(exoPlayer)
    }

    /** getDuration: the engine's duration, 0 without an engine. */
    function GetDuration(): (r: int)
      reads this
      ensures exoPlayer.None? ==> r == 0
      ensures exoPlayer.Some? ==> r == exoPlayer.value.duration
    {
      EngineDuration(exoPlayer)
    }

    /** getWidth: the captured width while there is an engine, 0 without one. */
    function GetWidth(): (r: int)
      reads this
      ensures r == (if exoPlayer.Some? then width else 0)
    {
      WhileEngine(exoPlayer, width)
    }

    /** getHeight: the captured height while there is an engine, 0 without one. */
    function GetHeight(): (r: int)
      reads this
      ensures r == (if exoPlayer.Some? then height else 0)
    {
      WhileEngine(exoPlayer, height)
    }

    /** getRotationDegrees: the captured rotation while there is an engine, 0 without one. */
    function GetRotationDegrees(): (r: int)
      reads this
      ensures r == (if exoPlayer.Some? then rotationDegrees else 0)
    {
      WhileEngine(exoPlayer, rotationDegrees)
    }

    /** setSurface, with None for null. */
    method SetSurface(s: Option<Surface>)
      requires Valid()
      modifies this
      ensures Snapshot() == ExoAdapterModel.SetSurface(old(Snapshot()), s)
      ensures Valid()
    {
      surface := s;
      if exoPlayer.Some? {
        if s.Some? && !s.value.valid {
          surface := None;
        }
        exoPlayer := Some(exoPlayer.value.(videoSurface := s));
      }
    }

    method SetOnPreparedListener(present: bool)
      requires Valid()
      modifies this
      ensures Snapshot() == SetPreparedListener(old(Snapshot()), present)
      ensures Valid()
    {
      hasPreparedListener := present;
    }

    method SetOnErrorListener(present: bool)
      requires Valid()
      modifies this
      ensures Snapshot() == SetErrorListener(old(Snapshot()), present)
      ensures Valid()
    {
      hasErrorListener := present;
    }

    method SetOnStartListener(present: bool)
      requires Valid()
      modifies this
      ensures Snapshot() == SetStartListener(old(Snapshot()), present)
      ensures Valid()
    {
      hasStartListener := present;
    }

    // -------------------------------------------------------------------------------
    // The analytics listener

    method OnPlayerError(errorType: int)
      requires Valid()
      modifies this
      ensures Snapshot() == PlayerError(old(Snapshot()), errorType)
      ensures Valid()
    {
      ExoAdapterProperties.PreparedCountSnoc(events, Error(errorType));
      if hasErrorListener {
        events := events + [Error(errorType)];
      }
    }

    method OnSeekStarted()
      requires Valid()
      modifies this
      ensures Snapshot() == SeekStarted(old(Snapshot()))
      ensures Valid()
    {
      ExoAdapterProperties.PreparedCountSnoc(events, Started);
      if hasStartListener {
        events := events + [Started];
      }
    }

    /** onPlayerStateChanged; playWhenReady is only logged by the source. */
    method OnPlayerStateChanged(playWhenReady: bool, playbackState: PlaybackState)
      requires Valid()
      modifies this
      ensures Snapshot() == PlayerStateChanged(old(Snapshot()), playbackState)
      ensures Valid()
    {
      ghost var before := Snapshot();
      if playbackState == StateReady && exoPlayer.Some? {
        var format := exoPlayer.value.videoFormat;
        if format.None? {
          if hasErrorListener {
            Report(Error(NoVideoFormatError));
          }
        } else {
          CaptureGeometry(format.value);
          if hasPreparedListener && !isPrepared {
            Report(Prepared);
            MarkPrepared();
          }
        }
      }
      ExoAdapterProperties.PlayerStateChangedInv(before, playbackState);
    }

    /** The width, height and rotation of the engine's video format are kept. */
    method CaptureGeometry(f: Format)
      modifies this`width, this`height, this`rotationDegrees
      ensures Snapshot() == old(Snapshot()).(width := f.width, height := f.height, rotationDegrees := f.rotationDegrees)
    {
      width := f.width;
      height := f.height;
      rotationDegrees := f.rotationDegrees;
    }

    /** A callback made to a listener, recorded in the log. */
    method Report(e: AdapterEvent)
      modifies this`events
      ensures Snapshot() == old(Snapshot()).(events := old(events) + [e])
    {
      events := events + [e];
    }

    method MarkPrepared()
      modifies this`isPrepared
      ensures Snapshot() == old(Snapshot()).(isPrepared := true)
    {
      isPrepared := true;
    }

    /** The engine moves on by itself; see ExoAdapterModel.EngineAdvance. */
    method EngineAdvance(playbackState: PlaybackState, format: Option<Format>, position: int, duration: int)
      requires Valid()
      modifies this
      ensures Snapshot() == ExoAdapterModel.EngineAdvance(old(Snapshot()), playbackState, format, position, duration)
      ensures Valid()
    {
      if exoPlayer.Some? {
        exoPlayer := Some(exoPlayer.value.(playbackState := playbackState, videoFormat := format,
                                           position := position, duration := duration));
      }
    }
  }
}
