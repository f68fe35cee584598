/**
  The player widget of the videoplayerexample tree (ui/player). Its listener
  derives `isPaused` from the other flags instead of leaving it to the play
  and pause clicks, copies the engine's loading flag as it is, and does not
  touch the speed; its `onStart` seeks and plays but does not restore a
  speed; its overlay callbacks forward play and pause to the engine only.
 */
module ExamplePlayer {
  import opened Engine
  import opened ControlsState
  import Gestures

  const PLAYER_SEEK_BACK_INCREMENT: int := 10 * 1000
  const PLAYER_SEEK_FORWARD_INCREMENT: int := 10 * 1000
  const PLAYER_CONTROLS_VISIBILITY_TIME: int := 5 * 1000

  /**
    `onEvents`: paused means neither playing, loading nor ended, so a paused
    state excludes the other three; ended means the ended playback state;
    times are clamped at zero. The overlay's `visible` and the speed are
    left as they were.
   */
  function Listened(f: ControlsFields, e: Snapshot): (r: ControlsFields)
    ensures r.isPaused <==> !r.isPlaying && !r.isLoading && !r.isEnded
    ensures r.isEnded <==> e.playbackState == STATE_ENDED
    ensures r.isPlaying == e.isPlaying && r.isLoading == e.isLoading && r.playbackState == e.playbackState
    ensures r.currentTimeMs >= 0 && r.totalDurationMs >= 0
    ensures e.contentPosition >= 0 ==> r.currentTimeMs == e.contentPosition
    ensures e.contentDuration >= 0 ==> r.totalDurationMs == e.contentDuration
    ensures r.hasPreviousMediaItem == e.hasPreviousMediaItem && r.hasNextMediaItem == e.hasNextMediaItem
    ensures r.bufferedPercentage == e.bufferedPercentage && r.title == TitleText(e.displayTitle)
    ensures r.currentMediaItemIndex == e.currentMediaItemIndex
    ensures r.visible == f.visible && r.speed == f.speed
  {
    var isEnded := e.playbackState == STATE_ENDED;
    f.(isPlaying := e.isPlaying,
       isLoading := e.isLoading,
       playbackState := e.playbackState,
       isEnded := isEnded,
       hasPreviousMediaItem := e.hasPreviousMediaItem,
       hasNextMediaItem := e.hasNextMediaItem,
       isPaused := !e.isPlaying && !e.isLoading && !isEnded,
       totalDurationMs := CoerceAtLeastZero(e.contentDuration),
       currentTimeMs := CoerceAtLeastZero(e.contentPosition),
       bufferedPercentage := e.bufferedPercentage,
       title := TitleText(e.displayTitle),
       currentMediaItemIndex := e.currentMediaItemIndex)
  }

  /** The listener object registered on the engine. */
  method OnEvents(s: VideoControlsState, e: Snapshot)
    modifies s
    ensures s.Fields() == Listened(old(s.Fields()), e)
  {
    var r := Listened(s.Fields(), e);
    s.isPlaying, s.isLoading, s.playbackState, s.isEnded := r.isPlaying, r.isLoading, r.playbackState, r.isEnded;
    s.hasPreviousMediaItem, s.hasNextMediaItem, s.isPaused := r.hasPreviousMediaItem, r.hasNextMediaItem, r.isPaused;
    s.totalDurationMs, s.currentTimeMs, s.bufferedPercentage := r.totalDurationMs, r.currentTimeMs, r.bufferedPercentage;
    s.title, s.currentMediaItemIndex := r.title, r.currentMediaItemIndex;
  }

  /** `onStart`: seek to the saved item and time, prepare, and play unless paused. */
  function OnStartCommands(f: ControlsFields): (cmds: seq<Command>)
    ensures |cmds| == (if f.isPaused then 2 else 3)
    ensures cmds[0] == SeekToItem(f.currentMediaItemIndex, f.currentTimeMs)
    ensures cmds[1] == Prepare
    ensures !f.isPaused ==> cmds[2] == Play
    ensures Play in cmds <==> !f.isPaused
    ensures forall c :: c in cmds ==> !c.SetPlaybackSpeed? && c != Pause
  {
    [SeekToItem(f.currentMediaItemIndex, f.currentTimeMs), Prepare] + (if !f.isPaused then [Play] else [])
  }

  /**
    Because `isPaused` is derived, coming back after an engine event plays on
    exactly when the engine was playing, loading or had ended: only an engine
    that had stopped there of its own (idle or ready and not playing) stays paused.
   */
  lemma {:induction false} StartAfterEventPlays(f: ControlsFields, e: Snapshot)
    ensures Play in OnStartCommands(Listened(f, e)) <==> e.isPlaying || e.isLoading || e.playbackState == STATE_ENDED
    ensures e.contentPosition >= 0 ==>
      OnStartCommands(Listened(f, e))[0] == SeekToItem(e.currentMediaItemIndex, e.contentPosition)
  {
    var g := Listened(f, e);
    assert g.isPaused <==> !e.isPlaying && !e.isLoading && e.playbackState != STATE_ENDED;
  }

  /**
    `VideoPlayerWithControls`: the shared controls state, the saved
    `isUserInteractingWithPlayer` flag, and the engine commands sent so far.
   */
  class PlayerWithControls {
    const controls: VideoControlsState
    var isUserInteractingWithPlayer: bool
    var sent: seq<Command>

    constructor (controls: VideoControlsState)
      ensures this.controls == controls && !isUserInteractingWithPlayer && sent == []
    {
      this.controls := controls;
      isUserInteractingWithPlayer := false;
      sent := [];
    }

    /** The auto-hide delay is running exactly while the overlay is shown and nobody interacts with it. */
    predicate TimerArmed()
      reads this, controls
    {
      controls.visible && !isUserInteractingWithPlayer
    }

    /** This widget's own blackout follows the overlay's visibility alone. */
    function BlackoutShown(): (shown: bool)
      reads controls
      ensures shown == controls.visible
    {
      controls.visible
    }

    /** A tap on the video shows or hides the overlay. */
    method OnClick()
      modifies controls
      ensures controls.Fields() == old(controls.Fields()).(visible := !old(controls.visible))
      ensures BlackoutShown() == !old(BlackoutShown())
    {
      controls.visible := !controls.visible;
    }

    /** The end of an uncancelled five-second delay hides the overlay; nothing happens otherwise. */
    method OnVisibilityTimerExpired()
      modifies controls
      ensures controls.visible == (old(controls.visible) && old(isUserInteractingWithPlayer))
      ensures controls.Fields() == old(controls.Fields()).(visible := controls.visible)
      ensures !TimerArmed()
      ensures BlackoutShown() ==> old(isUserInteractingWithPlayer)
    {
      if controls.visible && !isUserInteractingWithPlayer {
        controls.visible := false;
      }
    }

    /** A double tap right of the middle seeks forward; anywhere else it seeks back. */
    method OnDoubleTap(x: real, width: nat)
      modifies this
      ensures sent == old(sent) + [Gestures.SeekFor(Gestures.DoubleTapSide(x, width))]
      ensures isUserInteractingWithPlayer == old(isUserInteractingWithPlayer)
    {
      sent := sent + [Gestures.SeekFor(Gestures.DoubleTapSide(x, width))];
    }

    /** Play goes straight to the engine; the controls state learns of it from the next event. */
    method OnPlayClick()
      modifies this
      ensures sent == old(sent) + [Play]
      ensures isUserInteractingWithPlayer == old(isUserInteractingWithPlayer)
    {
      sent := sent + [Play];
    }

    method OnPauseClick()
      modifies this
      ensures sent == old(sent) + [Pause]
      ensures isUserInteractingWithPlayer == old(isUserInteractingWithPlayer)
    {
      sent := sent + [Pause];
    }

    method OnPreviousClick()
      modifies this
      ensures sent == old(sent) + [SeekToPrevious]
      ensures isUserInteractingWithPlayer == old(isUserInteractingWithPlayer)
    {
      sent := sent + [SeekToPrevious];
    }

    method OnNextClick()
      modifies this
      ensures sent == old(sent) + [SeekToNext]
      ensures isUserInteractingWithPlayer == old(isUserInteractingWithPlayer)
    {
      sent := sent + [SeekToNext];
    }

    /** Replay seeks to the start of the current item. */
    method OnReplayClick()
      modifies this
      ensures sent == old(sent) + [SeekToPosition(0)]
      ensures isUserInteractingWithPlayer == old(isUserInteractingWithPlayer)
    {
      sent := sent + [SeekToPosition(0)];
    }

    /** The user grabs the slider: the overlay cannot auto-hide until it is released. */
    method OnStartedTimeChanging()
      modifies this
      ensures isUserInteractingWithPlayer && !TimerArmed()
      ensures sent == old(sent)
    {
      isUserInteractingWithPlayer := true;
    }

    /** The slider is released at `positionMs`: the engine seeks there and auto-hide may run again. */
    method OnFinishTimeChanging(positionMs: int)
      modifies this
      ensures sent == old(sent) + [SeekToPosition(positionMs)]
      ensures !isUserInteractingWithPlayer
      ensures TimerArmed() <==> controls.visible
    {
      sent := sent + [SeekToPosition(positionMs)];
      isUserInteractingWithPlayer := false;
    }

    /**
      The 400 ms poller while the engine plays: one round per position read,
      each shown time the position clamped at zero; no round at all when the
      engine does not play.
     */
    method PollCurrentTime(positions: seq<int>) returns (shown: seq<int>)
      modifies controls
      ensures controls.isPlaying == old(controls.isPlaying)
      ensures !controls.isPlaying ==> shown == [] && controls.Fields() == old(controls.Fields())
      ensures controls.isPlaying ==> |shown| == |positions|
      ensures forall i :: 0 <= i < |shown| ==> shown[i] == CoerceAtLeastZero(positions[i])
      ensures controls.isPlaying && |positions| > 0 ==>
        controls.Fields() == old(controls.Fields()).(currentTimeMs := shown[|shown| - 1])
      ensures |positions| == 0 ==> controls.Fields() == old(controls.Fields())
    {
      shown := [];
      if !controls.isPlaying {
        return;
      }
      var i := 0;
      while i < |positions|
        invariant 0 <= i <= |positions|
        invariant |shown| == i
        invariant controls.isPlaying
        invariant forall k :: 0 <= k < i ==> shown[k] == CoerceAtLeastZero(positions[k])
        invariant i == 0 ==> controls.Fields() == old(controls.Fields())
        invariant i > 0 ==> controls.Fields() == old(controls.Fields()).(currentTimeMs := shown[i - 1])
      {
        controls.currentTimeMs := CoerceAtLeastZero(positions[i]);
        shown := shown + [controls.currentTimeMs];
        i := i + 1;
      }
    }
  }
}
