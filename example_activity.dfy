/**
  MainActivity.kt of the videoplayerexample tree, a single-file copy of the
  player: its own thirteen-field `VideoControlsState` (no speed), saver,
  initial state, listener and `onStart`, an overlay whose middle row checks
  loading last and hides everything with the overlay, and the same tap,
  auto-hide, scrub and poll callbacks. The saver writes the same names as
  the fourteen-field one, minus the speed.
 */
module ExampleActivity {
  import opened Engine
  import ControlsState
  import PlayerControls
  import Gestures
  import TimeFormat

  datatype ActivityFields = ActivityFields(
    visible: bool,
    isPlaying: bool,
    isPaused: bool,
    isLoading: bool,
    isEnded: bool,
    playbackState: int,
    title: string,
    currentTimeMs: int,
    totalDurationMs: int,
    bufferedPercentage: int,
    hasPreviousMediaItem: bool,
    hasNextMediaItem: bool,
    currentMediaItemIndex: int
  )

  class VideoControlsState {
    var visible: bool
    var isPlaying: bool
    var isPaused: bool
    var isLoading: bool
    var isEnded: bool
    var playbackState: int
    var title: string
    var currentTimeMs: int
    var totalDurationMs: int
    var bufferedPercentage: int
    var hasPreviousMediaItem: bool
    var hasNextMediaItem: bool
    var currentMediaItemIndex: int

    function Fields(): ActivityFields
      reads this
    {
      ActivityFields(visible, isPlaying, isPaused, isLoading, isEnded, playbackState, title,
        currentTimeMs, totalDurationMs, bufferedPercentage, hasPreviousMediaItem,
        hasNextMediaItem, currentMediaItemIndex)
    }

    constructor (f: ActivityFields)
      ensures Fields() == f
    {
      visible := f.visible;
      isPlaying := f.isPlaying;
      isPaused := f.isPaused;
      isLoading := f.isLoading;
      isEnded := f.isEnded;
      playbackState := f.playbackState;
      title := f.title;
      currentTimeMs := f.currentTimeMs;
      totalDurationMs := f.totalDurationMs;
      bufferedPercentage := f.bufferedPercentage;
      hasPreviousMediaItem := f.hasPreviousMediaItem;
      hasNextMediaItem := f.hasNextMediaItem;
      currentMediaItemIndex := f.currentMediaItemIndex;
    }
  }

  /** The thirteen names this saver writes: all of the other saver's but the speed. */
  function ActivityKeys(): set<ControlsState.SaverKey> {
    ControlsState.AllKeys() - {ControlsState.SpeedKey}
  }

  type SavedMap = map<ControlsState.SaverKey, ControlsState.Saveable>

  /** The saver's `save`: every field under its own name as a value of its own Kotlin type. */
  function Save(f: ActivityFields): (m: SavedMap)
    ensures m.Keys == ActivityKeys()
    ensures ControlsState.SpeedKey !in m
    ensures Restore(m) == Some(f)
  {
    map[
      ControlsState.VisibleKey := ControlsState.BoolValue(f.visible),
      ControlsState.IsPlayingKey := ControlsState.BoolValue(f.isPlaying),
      ControlsState.IsPausedKey := ControlsState.BoolValue(f.isPaused),
      ControlsState.IsLoadingKey := ControlsState.BoolValue(f.isLoading),
      ControlsState.IsEndedKey := ControlsState.BoolValue(f.isEnded),
      ControlsState.PlaybackStateKey := ControlsState.IntValue(f.playbackState),
      ControlsState.TitleKey := ControlsState.StringValue(f.title),
      ControlsState.CurrentTimeMsKey := ControlsState.LongValue(f.currentTimeMs),
      ControlsState.TotalDurationMsKey := ControlsState.LongValue(f.totalDurationMs),
      ControlsState.BufferedPercentageKey := ControlsState.IntValue(f.bufferedPercentage),
      ControlsState.HasPreviousMediaItemKey := ControlsState.BoolValue(f.hasPreviousMediaItem),
      ControlsState.HasNextMediaItemKey := ControlsState.BoolValue(f.hasNextMediaItem),
      ControlsState.CurrentMediaItemIndexKey := ControlsState.IntValue(f.currentMediaItemIndex)
    ]
  }

  /** Every cast of this saver's `restore` succeeds on m. */
  predicate Restorable(m: SavedMap) {
    ControlsState.HasBool(m, ControlsState.VisibleKey) && ControlsState.HasBool(m, ControlsState.IsPlayingKey)
    && ControlsState.HasBool(m, ControlsState.IsPausedKey) && ControlsState.HasBool(m, ControlsState.IsLoadingKey)
    && ControlsState.HasBool(m, ControlsState.IsEndedKey) && ControlsState.HasInt(m, ControlsState.PlaybackStateKey)
    && ControlsState.HasString(m, ControlsState.TitleKey) && ControlsState.HasLong(m, ControlsState.CurrentTimeMsKey)
    && ControlsState.HasLong(m, ControlsState.TotalDurationMsKey)
    && ControlsState.HasInt(m, ControlsState.BufferedPercentageKey)
    && ControlsState.HasBool(m, ControlsState.HasPreviousMediaItemKey)
    && ControlsState.HasBool(m, ControlsState.HasNextMediaItemKey)
    && ControlsState.HasInt(m, ControlsState.CurrentMediaItemIndexKey)
  }

  /** The saver's `restore`; a failing cast is None. A saved speed, if any, is ignored. */
  function Restore(m: SavedMap): (r: Option<ActivityFields>)
    ensures r.Some? <==> Restorable(m)
  {
    if Restorable(m) then
      Some(ActivityFields(
        m[ControlsState.VisibleKey].b, m[ControlsState.IsPlayingKey].b, m[ControlsState.IsPausedKey].b,
        m[ControlsState.IsLoadingKey].b, m[ControlsState.IsEndedKey].b, m[ControlsState.PlaybackStateKey].i,
        m[ControlsState.TitleKey].s, m[ControlsState.CurrentTimeMsKey].l, m[ControlsState.TotalDurationMsKey].l,
        m[ControlsState.BufferedPercentageKey].i, m[ControlsState.HasPreviousMediaItemKey].b,
        m[ControlsState.HasNextMediaItemKey].b, m[ControlsState.CurrentMediaItemIndexKey].i))
    else None
  }

  /** A map with exactly this saver's names that restores is what saving the restored state writes. */
  lemma SaveOfRestore(m: SavedMap)
    requires m.Keys == ActivityKeys() && Restorable(m)
    ensures Save(Restore(m).value) == m
  {
  }

  /**
    A state of the fourteen-field kind, saved, restores here to the same
    thirteen values: the two savers agree on every name they share.
   */
  lemma {:induction false} RestoresWiderSave(f: ControlsState.ControlsFields)
    ensures Restore(ControlsState.Save(f)) == Some(ActivityFields(f.visible, f.isPlaying, f.isPaused,
      f.isLoading, f.isEnded, f.playbackState, f.title, f.currentTimeMs, f.totalDurationMs,
      f.bufferedPercentage, f.hasPreviousMediaItem, f.hasNextMediaItem, f.currentMediaItemIndex))
  {
    var m := ControlsState.Save(f);
    assert m[ControlsState.VisibleKey] == ControlsState.BoolValue(f.visible);
    assert Restorable(m);
  }

  /**
    The state of a fresh widget: paused means neither playing nor loading
    (an ended engine counts as paused here, unlike in the listener); times
    clamped at zero; hidden, not ended, item 0.
   */
  function InitialFields(e: Snapshot): (f: ActivityFields)
    ensures f.isPaused <==> !e.isPlaying && !e.isLoading
    ensures f.isPlaying == e.isPlaying && f.isLoading == e.isLoading && f.playbackState == e.playbackState
    ensures f.currentTimeMs >= 0 && f.totalDurationMs >= 0
    ensures e.contentPosition >= 0 ==> f.currentTimeMs == e.contentPosition
    ensures e.contentDuration >= 0 ==> f.totalDurationMs == e.contentDuration
    ensures f.title == TitleText(e.displayTitle)
    ensures f.hasPreviousMediaItem == e.hasPreviousMediaItem && f.hasNextMediaItem == e.hasNextMediaItem
    ensures f.bufferedPercentage == e.bufferedPercentage
    ensures !f.visible && !f.isEnded && f.currentMediaItemIndex == 0
  {
    ActivityFields(
      visible := false,
      isPlaying := e.isPlaying,
      isPaused := !e.isPlaying && !e.isLoading,
      isLoading := e.isLoading,
      isEnded := false,
      playbackState := e.playbackState,
      title := TitleText(e.displayTitle),
      currentTimeMs := CoerceAtLeastZero(e.contentPosition),
      totalDurationMs := CoerceAtLeastZero(e.contentDuration),
      bufferedPercentage := e.bufferedPercentage,
      hasPreviousMediaItem := e.hasPreviousMediaItem,
      hasNextMediaItem := e.hasNextMediaItem,
      currentMediaItemIndex := 0)
  }

  /** `rememberSaveable(player, saver)`: a saved map wins; None when it does not restore. */
  function RememberedFields(e: Snapshot, saved: Option<SavedMap>): (r: Option<ActivityFields>)
    ensures saved.None? ==> r == Some(InitialFields(e))
    ensures saved.Some? ==> r == Restore(saved.value)
  {
    if saved.Some? then Restore(saved.value) else Some(InitialFields(e))
  }

  method RememberVideoControlsState(e: Snapshot, saved: Option<SavedMap>) returns (s: Option<VideoControlsState>)
    ensures s.Some? <==> RememberedFields(e, saved).Some?
    ensures s.Some? ==> fresh(s.value) && s.value.Fields() == RememberedFields(e, saved).value
  {
    var f := RememberedFields(e, saved);
    if f.Some? {
      var state := new VideoControlsState(f.value);
      s := Some(state);
    } else {
      s := None;
    }
  }

  /**
    `onEvents`: paused means neither playing, loading nor ended; ended means
    the ended playback state; times clamped at zero; `visible` kept.
   */
  function Listened(f: ActivityFields, e: Snapshot): (r: ActivityFields)
    ensures r.isPaused <==> !r.isPlaying && !r.isLoading && !r.isEnded
    ensures r.isEnded <==> e.playbackState == STATE_ENDED
    ensures r.isPlaying == e.isPlaying && r.isLoading == e.isLoading && r.playbackState == e.playbackState
    ensures r.currentTimeMs >= 0 && r.totalDurationMs >= 0
    ensures e.contentPosition >= 0 ==> r.currentTimeMs == e.contentPosition
    ensures e.contentDuration >= 0 ==> r.totalDurationMs == e.contentDuration
    ensures r.hasPreviousMediaItem == e.hasPreviousMediaItem && r.hasNextMediaItem == e.hasNextMediaItem
    ensures r.bufferedPercentage == e.bufferedPercentage && r.title == TitleText(e.displayTitle)
    ensures r.currentMediaItemIndex == e.currentMediaItemIndex
    ensures r.visible == f.visible
  {
    var isEnded := e.playbackState == STATE_ENDED;
    ActivityFields(
      visible := f.visible,
      isPlaying := e.isPlaying,
      isPaused := !e.isPlaying && !e.isLoading && !isEnded,
      isLoading := e.isLoading,
      isEnded := isEnded,
      playbackState := e.playbackState,
      title := TitleText(e.displayTitle),
      currentTimeMs := CoerceAtLeastZero(e.contentPosition),
      totalDurationMs := CoerceAtLeastZero(e.contentDuration),
      bufferedPercentage := e.bufferedPercentage,
      hasPreviousMediaItem := e.hasPreviousMediaItem,
      hasNextMediaItem := e.hasNextMediaItem,
      currentMediaItemIndex := e.currentMediaItemIndex)
  }

  /**
    The first event after a fresh start changes the paused flag only for an
    ended engine: the initial state calls it paused, the listener does not.
   */
  lemma {:induction false} InitialPausedUntilEnded(e: Snapshot)
    ensures Listened(InitialFields(e), e).isPaused != InitialFields(e).isPaused
      <==> !e.isPlaying && !e.isLoading && e.playbackState == STATE_ENDED
  {
    var f := InitialFields(e);
    var g := Listened(f, e);
    assert g.isPaused <==> !e.isPlaying && !e.isLoading && e.playbackState != STATE_ENDED;
  }

  method OnEvents(s: VideoControlsState, e: Snapshot)
    modifies s
    ensures s.Fields() == Listened(old(s.Fields()), e)
  {
    var r := Listened(s.Fields(), e);
    s.isPlaying, s.isLoading, s.playbackState, s.isEnded := r.isPlaying, r.isLoading, r.playbackState, r.isEnded;
    s.hasPreviousMediaItem, s.hasNextMediaItem, s.isPaused := r.hasPreviousMediaItem, r.hasNextMediaItem, r.isPaused;
    s.totalDurationMs, s.currentTimeMs, s.bufferedPercentage := r.totalDurationMs, r.currentTimeMs, r.bufferedPercentage;
    s.title, s.currentMediaItemIndex := r.title, r.currentMediaItemIndex;
  }

  /** `onStart`: seek to the saved item and time, prepare, and play unless paused. */
  function OnStartCommands(f: ActivityFields): (cmds: seq<Command>)
    ensures |cmds| == (if f.isPaused then 2 else 3)
    ensures cmds[0] == SeekToItem(f.currentMediaItemIndex, f.currentTimeMs)
    ensures cmds[1] == Prepare
    ensures !f.isPaused ==> cmds[2] == Play
    ensures Play in cmds <==> !f.isPaused
    ensures forall c :: c in cmds ==> !c.SetPlaybackSpeed? && c != Pause
  {
    [SeekToItem(f.currentMediaItemIndex, f.currentTimeMs), Prepare] + (if !f.isPaused then [Play] else [])
  }

  /**
    The centre of this file's `VideoPlayerControlsMiddle`: nothing while the
    overlay is hidden; otherwise pause when playing, else play when paused,
    else replay when ended, else the loading indicator when loading.
   */
  function MiddleCentre(visible: bool, isPlaying: bool, isPaused: bool, isLoading: bool, isEnded: bool)
    : (c: PlayerControls.Centre)
    ensures c == PlayerControls.PauseButton <==> visible && isPlaying
    ensures c == PlayerControls.PlayButton <==> visible && !isPlaying && isPaused
    ensures c == PlayerControls.ReplayButton <==> visible && !isPlaying && !isPaused && isEnded
    ensures c == PlayerControls.LoadingIndicator <==> visible && !isPlaying && !isPaused && !isEnded && isLoading
    ensures c == PlayerControls.NoCentre <==> !visible || (!isPlaying && !isPaused && !isEnded && !isLoading)
  {
    if !visible then PlayerControls.NoCentre
    else if isPlaying then PlayerControls.PauseButton
    else if isPaused then PlayerControls.PlayButton
    else if isEnded then PlayerControls.ReplayButton
    else if isLoading then PlayerControls.LoadingIndicator
    else PlayerControls.NoCentre
  }

  /**
    This file's middle row and the ui/player one show the same centre
    exactly when the engine is not loading, or is loading with the overlay
    visible and none of the other three flags set: loading is checked first
    and shown even when hidden there, last and only when visible here.
   */
  lemma {:induction false} MiddleOrdersAgree(visible: bool, isPlaying: bool, isPaused: bool, isLoading: bool, isEnded: bool)
    ensures MiddleCentre(visible, isPlaying, isPaused, isLoading, isEnded)
      == PlayerControls.MiddleCentre(visible, isPlaying, isPaused, isLoading, isEnded)
      <==> !isLoading || (visible && !isPlaying && !isPaused && !isEnded)
  {
    var c := MiddleCentre(visible, isPlaying, isPaused, isLoading, isEnded);
    var d := PlayerControls.MiddleCentre(visible, isPlaying, isPaused, isLoading, isEnded);
    if isLoading && !(visible && !isPlaying && !isPaused && !isEnded) {
      assert d == PlayerControls.LoadingIndicator;
      assert c != PlayerControls.LoadingIndicator;
    }
  }

  /**
    After an event, a visible overlay always shows something in the centre:
    the listener's paused flag covers the case that is neither playing,
    loading nor ended, so the loading indicator shows exactly when loading
    and neither playing nor ended.
   */
  lemma {:induction false} CentreAfterEvent(f: ActivityFields, e: Snapshot)
    ensures var g := Listened(f, e);
      var c := MiddleCentre(g.visible, g.isPlaying, g.isPaused, g.isLoading, g.isEnded);
      (c == PlayerControls.NoCentre <==> !f.visible)
      && (c == PlayerControls.LoadingIndicator <==>
            f.visible && e.isLoading && !e.isPlaying && e.playbackState != STATE_ENDED)
  {
    var g := Listened(f, e);
    assert g.isPaused <==> !e.isPlaying && !e.isLoading && e.playbackState != STATE_ENDED;
  }

  /**
    `VideoPlayerWithControls` together with this file's `VideoPlayerControls`:
    the saved interacting flag, the controls' own editing flag and slider
    position, and the engine commands sent so far.
   */
  class PlayerWithControls {
    const controls: VideoControlsState
    var isUserInteractingWithPlayer: bool
    var isUserEditingCurrentTime: bool
    var currentTimeSliderPosition: int
    var sent: seq<Command>

    constructor (controls: VideoControlsState)
      ensures this.controls == controls && sent == []
      ensures !isUserInteractingWithPlayer && !isUserEditingCurrentTime && currentTimeSliderPosition == 0
    {
      this.controls := controls;
      isUserInteractingWithPlayer := false;
      isUserEditingCurrentTime := false;
      currentTimeSliderPosition := 0;
      sent := [];
    }

    predicate TimerArmed()
      reads this, controls
    {
      controls.visible && !isUserInteractingWithPlayer
    }

    /** The centre of the middle row: none while the user edits the current time. */
    function ShownCentre(): (c: Option<PlayerControls.Centre>)
      reads this, controls
      ensures c.None? <==> isUserEditingCurrentTime
      ensures c.Some? ==> c.value == MiddleCentre(controls.visible, controls.isPlaying, controls.isPaused,
        controls.isLoading, controls.isEnded)
    {
      if isUserEditingCurrentTime then None
      else Some(MiddleCentre(controls.visible, controls.isPlaying, controls.isPaused, controls.isLoading, controls.isEnded))
    }

    /** The previous/next buttons, with the same rule as the ui/player middle row. */
    function ShownNav(): (nav: PlayerControls.Nav)
      reads this, controls
      ensures isUserEditingCurrentTime ==> nav == PlayerControls.NoNav
      ensures !isUserEditingCurrentTime ==> nav == PlayerControls.NavButtons(controls.visible,
        controls.hasPreviousMediaItem, controls.hasNextMediaItem)
    {
      if isUserEditingCurrentTime then PlayerControls.NoNav
      else PlayerControls.NavButtons(controls.visible, controls.hasPreviousMediaItem, controls.hasNextMediaItem)
    }

    /**
      The value the slider holds while the footer is shown: the engine's time,
      except while the user drags it.
     */
    function SliderValue(): (v: int)
      reads this, controls
      ensures isUserEditingCurrentTime ==> v == currentTimeSliderPosition
      ensures !isUserEditingCurrentTime ==> v == controls.currentTimeMs
    {
      if isUserEditingCurrentTime then currentTimeSliderPosition else controls.currentTimeMs
    }

    /**
      While dragging, the footer shows the slider's time as minutes and
      seconds; the footer itself is shown only while the overlay is visible.
     */
    function EditingTimeLabel(): (text: Option<string>)
      reads this, controls
      ensures text.Some? <==> controls.visible && isUserEditingCurrentTime
      ensures text.Some? && currentTimeSliderPosition >= 0 ==>
        TimeFormat.ParseClock(text.value) == Some(((currentTimeSliderPosition / 1000) / 60, (currentTimeSliderPosition / 1000) % 60))
    {
      if !controls.visible || !isUserEditingCurrentTime then None
      else if currentTimeSliderPosition < 0 then Some(TimeFormat.FormatMillis(currentTimeSliderPosition))
      else
        TimeFormat.FormatMillisReadsBack(currentTimeSliderPosition);
        Some(TimeFormat.FormatMillis(currentTimeSliderPosition))
    }

    method OnClick()
      modifies controls
      ensures controls.Fields() == old(controls.Fields()).(visible := !old(controls.visible))
    {
      controls.visible := !controls.visible;
    }

    /** The end of an uncancelled five-second delay hides the overlay; nothing happens otherwise. */
    method OnVisibilityTimerExpired()
      modifies controls
      ensures controls.visible == (old(controls.visible) && old(isUserInteractingWithPlayer))
      ensures controls.Fields() == old(controls.Fields()).(visible := controls.visible)
      ensures !TimerArmed()
    {
      if controls.visible && !isUserInteractingWithPlayer {
        controls.visible := false;
      }
    }

    method OnDoubleTap(x: real, width: nat)
      modifies this
      ensures sent == old(sent) + [Gestures.SeekFor(Gestures.DoubleTapSide(x, width))]
      ensures isUserInteractingWithPlayer == old(isUserInteractingWithPlayer)
      ensures isUserEditingCurrentTime == old(isUserEditingCurrentTime)
      ensures currentTimeSliderPosition == old(currentTimeSliderPosition)
    {
      sent := sent + [Gestures.SeekFor(Gestures.DoubleTapSide(x, width))];
    }

    /**
      A click on the centre widget: pause and play go to the engine, replay
      seeks to the start; the loading indicator takes no clicks.
     */
    method OnCentreClick()
      requires ShownCentre().Some? && PlayerControls.CentreClick(ShownCentre().value).Some?
      modifies this
      ensures old(ShownCentre()).value == PlayerControls.PauseButton ==> sent == old(sent) + [Pause]
      ensures old(ShownCentre()).value == PlayerControls.PlayButton ==> sent == old(sent) + [Play]
      ensures old(ShownCentre()).value == PlayerControls.ReplayButton ==> sent == old(sent) + [SeekToPosition(0)]
      ensures isUserInteractingWithPlayer == old(isUserInteractingWithPlayer)
      ensures isUserEditingCurrentTime == old(isUserEditingCurrentTime)
      ensures currentTimeSliderPosition == old(currentTimeSliderPosition)
    {
      match ShownCentre().value
      case PauseButton => sent := sent + [Pause];
      case PlayButton => sent := sent + [Play];
      case ReplayButton => sent := sent + [SeekToPosition(0)];
    }

    method OnPreviousClick()
      requires ShownNav().NavPair? && ShownNav().previousEnabled
      modifies this
      ensures sent == old(sent) + [SeekToPrevious]
      ensures isUserInteractingWithPlayer == old(isUserInteractingWithPlayer)
      ensures isUserEditingCurrentTime == old(isUserEditingCurrentTime)
      ensures currentTimeSliderPosition == old(currentTimeSliderPosition)
    {
      sent := sent + [SeekToPrevious];
    }

    method OnNextClick()
      requires ShownNav().NavPair? && ShownNav().nextEnabled
      modifies this
      ensures sent == old(sent) + [SeekToNext]
      ensures isUserInteractingWithPlayer == old(isUserInteractingWithPlayer)
      ensures isUserEditingCurrentTime == old(isUserEditingCurrentTime)
      ensures currentTimeSliderPosition == old(currentTimeSliderPosition)
    {
      sent := sent + [SeekToNext];
    }

    /** The footer's content enters: its slider starts at the current time. */
    method OnFooterShown()
      requires controls.visible
      modifies this
      ensures currentTimeSliderPosition == controls.currentTimeMs
      ensures SliderValue() == controls.currentTimeMs
      ensures sent == old(sent) && isUserEditingCurrentTime == old(isUserEditingCurrentTime)
      ensures isUserInteractingWithPlayer == old(isUserInteractingWithPlayer)
    {
      currentTimeSliderPosition := controls.currentTimeMs;
    }

    /**
      The slider moves: the first move of a drag makes the controls editing
      and the player interacting, so the overlay cannot auto-hide; every move
      drags the slider's own position.
     */
    method OnSliderValueChange(valueMs: int)
      modifies this
      ensures isUserEditingCurrentTime && currentTimeSliderPosition == valueMs
      ensures SliderValue() == valueMs
      ensures isUserInteractingWithPlayer == (old(isUserInteractingWithPlayer) || !old(isUserEditingCurrentTime))
      ensures !old(isUserEditingCurrentTime) ==> !TimerArmed()
      ensures sent == old(sent)
      ensures ShownCentre().None?
    {
      if !isUserEditingCurrentTime {
        isUserEditingCurrentTime := true;
        isUserInteractingWithPlayer := true;
      }
      currentTimeSliderPosition := valueMs;
    }

    /** The drag ends: editing and interacting stop and the engine seeks to the released position. */
    method OnSliderValueChangeFinished()
      modifies this
      ensures !isUserEditingCurrentTime && !isUserInteractingWithPlayer
      ensures sent == old(sent) + [SeekToPosition(old(currentTimeSliderPosition))]
      ensures currentTimeSliderPosition == old(currentTimeSliderPosition)
      ensures TimerArmed() <==> controls.visible
    {
      isUserEditingCurrentTime := false;
      sent := sent + [SeekToPosition(currentTimeSliderPosition)];
      isUserInteractingWithPlayer := false;
    }

    /** The 400 ms poller while the engine plays: each round shows the position clamped at zero. */
    method PollCurrentTime(positions: seq<int>) returns (shown: seq<int>)
      modifies controls
      ensures controls.isPlaying == old(controls.isPlaying)
      ensures !controls.isPlaying ==> shown == [] && controls.Fields() == old(controls.Fields())
      ensures controls.isPlaying ==> |shown| == |positions|
      ensures forall i :: 0 <= i < |shown| ==> shown[i] == CoerceAtLeastZero(positions[i])
      ensures controls.isPlaying && |positions| > 0 ==>
        controls.Fields() == old(controls.Fields()).(currentTimeMs := shown[|shown| - 1])
      ensures |positions| == 0 ==> controls.Fields() == old(controls.Fields())
    {
      shown := [];
      if !controls.isPlaying {
        return;
      }
      var i := 0;
      while i < |positions|
        invariant 0 <= i <= |positions|
        invariant |shown| == i
        invariant controls.isPlaying
        invariant forall k :: 0 <= k < i ==> shown[k] == CoerceAtLeastZero(positions[k])
        invariant i == 0 ==> controls.Fields() == old(controls.Fields())
        invariant i > 0 ==> controls.Fields() == old(controls.Fields()).(currentTimeMs := shown[i - 1])
      {
        controls.currentTimeMs := CoerceAtLeastZero(positions[i]);
        shown := shown + [controls.currentTimeMs];
        i := i + 1;
      }
    }
  }
}
