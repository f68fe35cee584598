/**
  The player widget of the foodhubvideoplayer tree: how the engine is built,
  how its events are copied into the controls state, what is sent to the
  engine when the screen comes back, and the overlay callbacks of
  `VideoPlayerWithControls` with its auto-hide timer and current-time poller.
 */
module FoodHubPlayer {
  import opened Engine
  import opened ControlsState
  import Media

  /** Both seek directions move by ten seconds. */
  const PLAYER_SEEK_INCREMENT: int := 10 * 1000
  /** The overlay hides five seconds after it was last shown or last touched. */
  const PLAYER_CONTROLS_VISIBILITY_TIME: int := 5 * 1000

  datatype RepeatMode = RepeatOff | RepeatAll

  /** What `buildExoPlayer` configures on the engine it returns. */
  datatype EngineSetup = EngineSetup(
    seekBackIncrementMs: int,
    seekForwardIncrementMs: int,
    mediaItems: seq<Media.MediaItem>,
    playWhenReady: bool,
    repeatMode: RepeatMode,
    prepared: bool
  )

  /**
    The engine is built with the ten-second increment in both directions,
    the videos as its playlist (nothing lost or reordered), auto-start and
    repeat-all as asked, and prepared.
   */
  function BuildExoPlayer(videos: seq<Media.Video>, initiallyStartPlaying: bool, autoRepeat: bool): (p: EngineSetup)
    ensures p.seekBackIncrementMs == PLAYER_SEEK_INCREMENT && p.seekForwardIncrementMs == PLAYER_SEEK_INCREMENT
    ensures Media.FromMediaItems(p.mediaItems) == videos
    ensures p.playWhenReady == initiallyStartPlaying
    ensures p.repeatMode == RepeatAll <==> autoRepeat
    ensures p.prepared
  {
    Media.MediaItemsRoundTrip(videos);
    EngineSetup(PLAYER_SEEK_INCREMENT, PLAYER_SEEK_INCREMENT, Media.ToMediaItems(videos),
      initiallyStartPlaying, if autoRepeat then RepeatAll else RepeatOff, true)
  }

  /** What the listener guarantees about the state it writes. */
  predicate Synced(f: ControlsFields) {
    !(f.isLoading && f.isPlaying)
    && (f.isEnded <==> f.playbackState == STATE_ENDED)
    && f.currentTimeMs >= 0 && f.totalDurationMs >= 0
  }

  /**
    `onEvents`: the controls state after an engine event. Loading is only
    reported while not playing; ended means the ended playback state; times
    are clamped at zero; speed and item index follow the engine. The overlay's
    own `visible` and the click-owned `isPaused` are left as they were.
   */
  function Listened(f: ControlsFields, e: Snapshot): (r: ControlsFields)
    ensures Synced(r)
    ensures r.isPlaying == e.isPlaying
    ensures r.isLoading <==> e.isLoading && !e.isPlaying
    ensures r.playbackState == e.playbackState
    ensures e.contentPosition >= 0 ==> r.currentTimeMs == e.contentPosition
    ensures e.contentDuration >= 0 ==> r.totalDurationMs == e.contentDuration
    ensures r.speed == e.speed && r.currentMediaItemIndex == e.currentMediaItemIndex
    ensures r.hasPreviousMediaItem == e.hasPreviousMediaItem && r.hasNextMediaItem == e.hasNextMediaItem
    ensures r.bufferedPercentage == e.bufferedPercentage && r.title == TitleText(e.displayTitle)
    ensures r.visible == f.visible && r.isPaused == f.isPaused
  {
    f.(isPlaying := e.isPlaying,
       isLoading := e.isLoading && !e.isPlaying,
       playbackState := e.playbackState,
       isEnded := e.playbackState == STATE_ENDED,
       hasPreviousMediaItem := e.hasPreviousMediaItem,
       hasNextMediaItem := e.hasNextMediaItem,
       totalDurationMs := CoerceAtLeastZero(e.contentDuration),
       currentTimeMs := CoerceAtLeastZero(e.contentPosition),
       bufferedPercentage := e.bufferedPercentage,
       title := TitleText(e.displayTitle),
       currentMediaItemIndex := e.currentMediaItemIndex,
       speed := e.speed)
  }

  /**
    Two states that agree on `visible` and `isPaused` look the same after an
    event: everything else is overwritten from the engine.
   */
  lemma ListenedForgetsEngineFields(f: ControlsFields, g: ControlsFields, e: Snapshot)
    requires f.visible == g.visible && f.isPaused == g.isPaused
    ensures Listened(f, e) == Listened(g, e)
  {
  }

  /** The listener object registered on the engine. */
  method OnEvents(s: VideoControlsState, e: Snapshot)
    modifies s
    ensures s.Fields() == Listened(old(s.Fields()), e)
  {
    var r := Listened(s.Fields(), e);
    s.isPlaying, s.isLoading, s.playbackState, s.isEnded := r.isPlaying, r.isLoading, r.playbackState, r.isEnded;
    s.hasPreviousMediaItem, s.hasNextMediaItem := r.hasPreviousMediaItem, r.hasNextMediaItem;
    s.totalDurationMs, s.currentTimeMs, s.bufferedPercentage := r.totalDurationMs, r.currentTimeMs, r.bufferedPercentage;
    s.title, s.currentMediaItemIndex, s.speed := r.title, r.currentMediaItemIndex, r.speed;
  }

  /**
    The lifecycle observer's `onStart`: seek to the saved item and time,
    restore the saved speed, prepare, and play unless the user had paused.
   */
  function OnStartCommands(f: ControlsFields): (cmds: seq<Command>)
    ensures |cmds| == (if f.isPaused then 3 else 4)
    ensures cmds[0] == SeekToItem(f.currentMediaItemIndex, f.currentTimeMs)
    ensures cmds[1] == SetPlaybackSpeed(f.speed)
    ensures cmds[2] == Prepare
    ensures Play in cmds <==> !f.isPaused
    ensures !f.isPaused ==> cmds[|cmds| - 1] == Play
    ensures Pause !in cmds
  {
    [SeekToItem(f.currentMediaItemIndex, f.currentTimeMs), SetPlaybackSpeed(f.speed), Prepare]
      + (if !f.isPaused then [Play] else [])
  }

  /**
    Coming back to the screen after an engine event resumes that event's item
    at its position and speed: what the listener copied is what `onStart` restores.
   */
  lemma {:induction false} StartResumesListenedPosition(f: ControlsFields, e: Snapshot)
    ensures OnStartCommands(Listened(f, e))[0] == SeekToItem(e.currentMediaItemIndex, CoerceAtLeastZero(e.contentPosition))
    ensures OnStartCommands(Listened(f, e))[1] == SetPlaybackSpeed(e.speed)
    ensures Play in OnStartCommands(Listened(f, e)) <==> !f.isPaused
  {
    var g := Listened(f, e);
    assert g.currentMediaItemIndex == e.currentMediaItemIndex && g.currentTimeMs == CoerceAtLeastZero(e.contentPosition);
    assert g.isPaused == f.isPaused;
  }

  /** The lifecycle observer's `onStop`. */
  function OnStopCommands(): (cmds: seq<Command>)
    ensures cmds == [Stop]
  {
    [Stop]
  }

  /**
    Leaving the screen and coming back after an engine event: the engine is
    stopped once, first, and then resumes that event's item at its position
    and speed, playing on exactly when the user had not paused.
   */
  lemma {:induction false} StopThenStartResumes(f: ControlsFields, e: Snapshot)
    ensures var cmds := OnStopCommands() + OnStartCommands(Listened(f, e));
      && cmds[0] == Stop
      && (forall i :: 1 <= i < |cmds| ==> cmds[i] != Stop)
      && cmds[1] == SeekToItem(e.currentMediaItemIndex, CoerceAtLeastZero(e.contentPosition))
      && cmds[2] == SetPlaybackSpeed(e.speed)
      && cmds[3] == Prepare
      && (Play in cmds <==> !f.isPaused)
  {
    StartResumesListenedPosition(f, e);
    var start := OnStartCommands(Listened(f, e));
    assert forall i :: 0 <= i < |start| ==> start[i] != Stop;
  }

  /**
    `VideoPlayerWithControls`: the shared controls state, the saved
    `isUserInteractingWithPlayer` flag, and the engine commands the overlay's
    callbacks have sent so far.
   */
  class PlayerWithControls {
    const controls: VideoControlsState
    var isUserInteractingWithPlayer: bool
    var sent: seq<Command>

    constructor (controls: VideoControlsState)
      ensures this.controls == controls && !isUserInteractingWithPlayer && sent == []
    {
      this.controls := controls;
      isUserInteractingWithPlayer := false;
      sent := [];
    }

    /**
      The auto-hide effect is armed (its `LaunchedEffect` body starts the
      five-second delay) exactly when the overlay is shown and nobody is
      interacting with it. A change of either key cancels the delay.
     */
    predicate TimerArmed()
      reads this, controls
    {
      controls.visible && !isUserInteractingWithPlayer
    }

    /** A tap on the video shows or hides the overlay. */
    method OnClick()
      modifies controls
      ensures controls.Fields() == old(controls.Fields()).(visible := !old(controls.visible))
    {
      controls.visible := !controls.visible;
    }

    /**
      The end of a five-second delay. It takes effect only if the delay was
      not cancelled, that is while the timer is still armed; then the overlay
      hides. The overlay is never hidden while the user is interacting.
     */
    method OnVisibilityTimerExpired()
      modifies controls
      ensures controls.visible == (old(controls.visible) && old(isUserInteractingWithPlayer))
      ensures controls.Fields() == old(controls.Fields()).(visible := controls.visible)
      ensures !TimerArmed()
    {
      if controls.visible && !isUserInteractingWithPlayer {
        controls.visible := false;
      }
    }

    method OnSeekForward()
      modifies this
      ensures sent == old(sent) + [SeekForward]
      ensures isUserInteractingWithPlayer == old(isUserInteractingWithPlayer)
    {
      sent := sent + [SeekForward];
    }

    method OnSeekBack()
      modifies this
      ensures sent == old(sent) + [SeekBack]
      ensures isUserInteractingWithPlayer == old(isUserInteractingWithPlayer)
    {
      sent := sent + [SeekBack];
    }

    /** Play: the engine plays and the state remembers that the user did not pause. */
    method OnPlayClick()
      modifies this, controls
      ensures sent == old(sent) + [Play]
      ensures controls.Fields() == old(controls.Fields()).(isPaused := false)
      ensures isUserInteractingWithPlayer == old(isUserInteractingWithPlayer)
    {
      sent := sent + [Play];
      controls.isPaused := false;
    }

    /** Pause: the engine pauses and the state remembers the user paused. */
    method OnPauseClick()
      modifies this, controls
      ensures sent == old(sent) + [Pause]
      ensures controls.Fields() == old(controls.Fields()).(isPaused := true)
      ensures isUserInteractingWithPlayer == old(isUserInteractingWithPlayer)
    {
      sent := sent + [Pause];
      controls.isPaused := true;
    }

    method OnPreviousClick()
      modifies this
      ensures sent == old(sent) + [SeekToPrevious]
      ensures isUserInteractingWithPlayer == old(isUserInteractingWithPlayer)
    {
      sent := sent + [SeekToPrevious];
    }

    method OnNextClick()
      modifies this
      ensures sent == old(sent) + [SeekToNext]
      ensures isUserInteractingWithPlayer == old(isUserInteractingWithPlayer)
    {
      sent := sent + [SeekToNext];
    }

    /** Replay seeks to the very start of the current item. */
    method OnReplayClick()
      modifies this
      ensures sent == old(sent) + [SeekToPosition(0)]
      ensures isUserInteractingWithPlayer == old(isUserInteractingWithPlayer)
    {
      sent := sent + [SeekToPosition(0)];
    }

    /** The user grabs the time slider: the overlay now counts as in use and cannot auto-hide. */
    method OnStartedTimeChanging()
      modifies this
      ensures isUserInteractingWithPlayer && !TimerArmed()
      ensures sent == old(sent)
    {
      isUserInteractingWithPlayer := true;
    }

    /** The user lets go of the slider at `positionMs`: the engine seeks there and the overlay may hide again. */
    method OnFinishTimeChanging(positionMs: int)
      modifies this
      ensures sent == old(sent) + [SeekToPosition(positionMs)]
      ensures !isUserInteractingWithPlayer
      ensures TimerArmed() <==> controls.visible
    {
      sent := sent + [SeekToPosition(positionMs)];
      isUserInteractingWithPlayer := false;
    }

    method OnVideoPlaybackSpeedSelected(speed: Speed)
      modifies this
      ensures sent == old(sent) + [SetPlaybackSpeed(speed)]
      ensures isUserInteractingWithPlayer == old(isUserInteractingWithPlayer)
    {
      sent := sent + [SetPlaybackSpeed(speed)];
    }

    /** One round of `VideoPlayerCurrentTimeObserver`'s loop: copy the engine's position, clamped at zero. */
    method OnPollTick(contentPosition: int)
      requires controls.isPlaying
      modifies controls
      ensures controls.Fields() == old(controls.Fields()).(currentTimeMs := CoerceAtLeastZero(contentPosition))
    {
      controls.currentTimeMs := CoerceAtLeastZero(contentPosition);
    }

    /**
      The poller while the engine plays: one round per position read, each
      shown time the position read clamped at zero. When not playing the effect does not loop at all.
     */
    method PollCurrentTime(positions: seq<int>) returns (shown: seq<int>)
      modifies controls
      ensures controls.isPlaying == old(controls.isPlaying)
      ensures !controls.isPlaying ==> shown == [] && controls.Fields() == old(controls.Fields())
      ensures controls.isPlaying ==> |shown| == |positions|
      ensures forall i :: 0 <= i < |shown| ==> shown[i] == CoerceAtLeastZero(positions[i])
      ensures controls.isPlaying && |positions| > 0 ==>
        controls.Fields() == old(controls.Fields()).(currentTimeMs := shown[|shown| - 1])
      ensures |positions| == 0 ==> controls.Fields() == old(controls.Fields())
    {
      shown := [];
      if !controls.isPlaying {
        return;
      }
      var i := 0;
      while i < |positions|
        invariant 0 <= i <= |positions|
        invariant |shown| == i
        invariant controls.isPlaying
        invariant forall k :: 0 <= k < i ==> shown[k] == CoerceAtLeastZero(positions[k])
        invariant i == 0 ==> controls.Fields() == old(controls.Fields())
        invariant i > 0 ==> controls.Fields() == old(controls.Fields()).(currentTimeMs := shown[i - 1])
      {
        OnPollTick(positions[i]);
        shown := shown + [controls.currentTimeMs];
        i := i + 1;
      }
    }
  }
}
