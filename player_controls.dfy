/**
  `VideoPlayerControls` of the videoplayerexample tree: the overlay drawn
  over the video. It owns the seek-animation state, the long-press
  acceleration state, whether the user is editing the current time, whether
  the settings sheet is open and the time slider's own position; it writes
  `visible` of the shared controls state and reports everything else to
  its caller through callbacks.
 */
module PlayerControls {
  import opened Engine
  import opened ControlsState
  import Settings
  import Gestures
  import TimeFormat
  import TriangleFlags
  import ExampleSeekAnimation
  import ExamplePlayer

  /** What the centre of the middle row shows. */
  datatype Centre = LoadingIndicator | PauseButton | PlayButton | ReplayButton | NoCentre

  /**
    The centre of `VideoPlayerControlsMiddle`: the loading indicator whenever
    the engine loads, even with the overlay hidden; otherwise, only while the
    overlay is visible, pause when playing, else play when paused, else replay
    when ended. Being one value, it never shows two widgets at once.
   */
  function MiddleCentre(visible: bool, isPlaying: bool, isPaused: bool, isLoading: bool, isEnded: bool): (c: Centre)
    ensures c == LoadingIndicator <==> isLoading
    ensures c == PauseButton <==> !isLoading && visible && isPlaying
    ensures c == PlayButton <==> !isLoading && visible && !isPlaying && isPaused
    ensures c == ReplayButton <==> !isLoading && visible && !isPlaying && !isPaused && isEnded
    ensures c == NoCentre <==> !isLoading && (!visible || (!isPlaying && !isPaused && !isEnded))
  {
    if isLoading then LoadingIndicator
    else if !visible then NoCentre
    else if isPlaying then PauseButton
    else if isPaused then PlayButton
    else if isEnded then ReplayButton
    else NoCentre
  }

  /**
    Behind this tree's listener, which derives the paused flag, the centre is
    empty only while the overlay is hidden and the engine is not loading:
    a visible overlay always offers pause, play or replay, or shows loading.
   */
  lemma {:induction false} CentreAfterEvent(f: ControlsFields, e: Snapshot)
    ensures var g := ExamplePlayer.Listened(f, e);
      var c := MiddleCentre(g.visible, g.isPlaying, g.isPaused, g.isLoading, g.isEnded);
      (c == NoCentre <==> !f.visible && !e.isLoading)
      && (c == PlayButton <==> f.visible && !e.isLoading && !e.isPlaying && e.playbackState != STATE_ENDED)
  {
    var g := ExamplePlayer.Listened(f, e);
    assert g.isPaused <==> !e.isPlaying && !e.isLoading && e.playbackState != STATE_ENDED;
  }

  /** The previous and next buttons: absent, or both present, each with its own enabled state. */
  datatype Nav = NoNav | NavPair(previousEnabled: bool, nextEnabled: bool)

  /**
    The previous/next buttons exist exactly when there is somewhere to go and
    the overlay is visible; then previous is enabled exactly when there is a
    previous item and next exactly when there is a next one.
   */
  function NavButtons(visible: bool, hasPreviousMediaItem: bool, hasNextMediaItem: bool): (nav: Nav)
    ensures nav.NavPair? <==> visible && (hasPreviousMediaItem || hasNextMediaItem)
    ensures nav.NavPair? ==> nav.previousEnabled == hasPreviousMediaItem && nav.nextEnabled == hasNextMediaItem
    ensures nav.NavPair? ==> nav.previousEnabled || nav.nextEnabled
  {
    if visible && (hasPreviousMediaItem || hasNextMediaItem) then NavPair(hasPreviousMediaItem, hasNextMediaItem)
    else NoNav
  }

  /** The overlay's copy of the seek animation state. */
  datatype SeekAnimationUi = SeekAnimationUi(isPlaying: bool, isForward: bool)

  /** The long-press acceleration state. */
  datatype Acceleration = Acceleration(
    isActive: bool,
    videoSpeedBeforeAccelerating: Speed,
    shouldOpenControlsAfterFinishing: bool
  )

  /** Long-press start: active, remembering whether the overlay was visible. */
  function StartAccelerating(a: Acceleration, visible: bool): (r: Acceleration)
    ensures r.isActive && r.shouldOpenControlsAfterFinishing == visible
    ensures r.videoSpeedBeforeAccelerating == a.videoSpeedBeforeAccelerating
  {
    a.(isActive := true, shouldOpenControlsAfterFinishing := visible)
  }

  /** Long-press finish or cancel: no longer active, everything remembered kept. */
  function FinishAccelerating(a: Acceleration): (r: Acceleration)
    ensures !r.isActive
    ensures r.shouldOpenControlsAfterFinishing == a.shouldOpenControlsAfterFinishing
    ensures r.videoSpeedBeforeAccelerating == a.videoSpeedBeforeAccelerating
  {
    a.(isActive := false)
  }

  /**
    A press and its release bring back the visibility from before the press
    and the speed captured when the state was first remembered, whatever the
    speed was at the moment of the press.
   */
  lemma {:induction false} AccelerationRoundTrip(a: Acceleration, visible: bool)
    ensures FinishAccelerating(StartAccelerating(a, visible)).shouldOpenControlsAfterFinishing == visible
    ensures FinishAccelerating(StartAccelerating(a, visible)).videoSpeedBeforeAccelerating == a.videoSpeedBeforeAccelerating
    ensures !FinishAccelerating(StartAccelerating(a, visible)).isActive
  {
    var started := StartAccelerating(a, visible);
    assert started.shouldOpenControlsAfterFinishing == visible;
    assert started.videoSpeedBeforeAccelerating == a.videoSpeedBeforeAccelerating;
  }

  /** The callbacks the overlay hands its caller, in the order it calls them. */
  datatype Callback =
    | Clicked
    | SeekedForward
    | SeekedBack
    | PlayClicked
    | PauseClicked
    | PreviousClicked
    | NextClicked
    | ReplayClicked
    | StartedTimeChanging
    | FinishedTimeChanging(positionMs: int)
    | SpeedSelected(speed: Speed)

  /** What a click on the centre widget reports; the loading indicator and an empty centre take no clicks. */
  function CentreClick(c: Centre): (cb: Option<Callback>)
    ensures cb == Some(PauseClicked) <==> c == PauseButton
    ensures cb == Some(PlayClicked) <==> c == PlayButton
    ensures cb == Some(ReplayClicked) <==> c == ReplayButton
    ensures cb.None? <==> c == LoadingIndicator || c == NoCentre
  {
    match c
    case PauseButton => Some(PauseClicked)
    case PlayButton => Some(PlayClicked)
    case ReplayButton => Some(ReplayClicked)
    case LoadingIndicator => None
    case NoCentre => None
  }

  /** The values the overlay itself remembers, besides the shared controls state. */
  datatype OverlayFields = OverlayFields(
    seekAnimation: SeekAnimationUi,
    accelerating: Acceleration,
    isUserEditingCurrentTime: bool,
    isVideoPlayerSettingsVisible: bool,
    currentTimeSliderPosition: int,
    shouldShowControlsAfterAnimation: Option<bool>,
    callbacks: seq<Callback>
  )

  class ControlsOverlay {
    const controls: VideoControlsState
    const settings: Settings.SettingsSheet
    var seekAnimation: SeekAnimationUi
    var accelerating: Acceleration
    var isUserEditingCurrentTime: bool
    var isVideoPlayerSettingsVisible: bool
    var currentTimeSliderPosition: int
    /** The visibility captured when the running seek animation was first composed. */
    var shouldShowControlsAfterAnimation: Option<bool>
    var callbacks: seq<Callback>

    function Local(): OverlayFields
      reads this
    {
      OverlayFields(seekAnimation, accelerating, isUserEditingCurrentTime, isVideoPlayerSettingsVisible,
        currentTimeSliderPosition, shouldShowControlsAfterAnimation, callbacks)
    }

    /** A visibility is held for restoring only while the seek animation runs. */
    predicate Valid()
      reads this
    {
      shouldShowControlsAfterAnimation.Some? ==> seekAnimation.isPlaying
    }

    /**
      The first composition: no animation, and the acceleration state
      captures the speed and visibility of that moment, once.
     */
    constructor (controls: VideoControlsState)
      ensures this.controls == controls && fresh(settings) && settings.currentSettingSelected == None
      ensures Local() == OverlayFields(SeekAnimationUi(false, false),
        Acceleration(false, controls.speed, controls.visible), false, false, 0, None, [])
      ensures Valid()
    {
      this.controls := controls;
      settings := new Settings.SettingsSheet();
      seekAnimation := SeekAnimationUi(false, false);
      accelerating := Acceleration(false, controls.speed, controls.visible);
      isUserEditingCurrentTime := false;
      isVideoPlayerSettingsVisible := false;
      currentTimeSliderPosition := 0;
      shouldShowControlsAfterAnimation := None;
      callbacks := [];
    }

    /** The blackout behind the overlay is shown while the overlay or the seek animation is. */
    function BlackoutShown(): (shown: bool)
      reads this, controls
      ensures shown <==> controls.visible || seekAnimation.isPlaying
    {
      controls.visible || seekAnimation.isPlaying
    }

    /** The centre of the middle row: none at all while the user edits the current time. */
    function ShownCentre(): (c: Option<Centre>)
      reads this, controls
      ensures c.None? <==> isUserEditingCurrentTime
      ensures c.Some? ==> c.value == MiddleCentre(controls.visible, controls.isPlaying, controls.isPaused,
        controls.isLoading, controls.isEnded)
    {
      if isUserEditingCurrentTime then None
      else Some(MiddleCentre(controls.visible, controls.isPlaying, controls.isPaused, controls.isLoading, controls.isEnded))
    }

    /** The previous/next buttons: none while the user edits the current time. */
    function ShownNav(): (nav: Nav)
      reads this, controls
      ensures isUserEditingCurrentTime ==> nav == NoNav
      ensures !isUserEditingCurrentTime ==> nav == NavButtons(controls.visible, controls.hasPreviousMediaItem,
        controls.hasNextMediaItem)
    {
      if isUserEditingCurrentTime then NoNav
      else NavButtons(controls.visible, controls.hasPreviousMediaItem, controls.hasNextMediaItem)
    }

    /**
      The value the slider holds while the footer is shown: the engine's time,
      except while the user drags it.
     */
    function SliderValue(): (v: int)
      reads this, controls
      ensures isUserEditingCurrentTime ==> v == currentTimeSliderPosition
      ensures !isUserEditingCurrentTime ==> v == controls.currentTimeMs
    {
      if isUserEditingCurrentTime then currentTimeSliderPosition else controls.currentTimeMs
    }

    /**
      While dragging, the footer shows the time under the slider instead of
      current and total time; the footer itself is shown only while the
      overlay is visible.
     */
    function EditingTimeLabel(): (text: Option<string>)
      reads this, controls
      ensures text.Some? <==> controls.visible && isUserEditingCurrentTime
      ensures text.Some? && currentTimeSliderPosition >= 0 ==>
        TimeFormat.ParseClock(text.value) == Some(((currentTimeSliderPosition / 1000) / 60, (currentTimeSliderPosition / 1000) % 60))
    {
      if !controls.visible || !isUserEditingCurrentTime then None
      else if currentTimeSliderPosition < 0 then Some(TimeFormat.FormatMillis(currentTimeSliderPosition))
      else
        TimeFormat.FormatMillisReadsBack(currentTimeSliderPosition);
        Some(TimeFormat.FormatMillis(currentTimeSliderPosition))
    }

    /** A single tap is only reported; the caller decides what it does. */
    method OnTap()
      modifies this
      ensures Local() == old(Local()).(callbacks := old(callbacks) + [Clicked])
    {
      callbacks := callbacks + [Clicked];
    }

    /**
      A double tap at x on a view `width` pixels wide: right of the middle it
      seeks forward and shows a forward animation, otherwise it seeks back
      and shows a backward one.
     */
    method OnDoubleTap(x: real, width: nat)
      modifies this
      ensures Gestures.DoubleTapSide(x, width) == Gestures.Right ==>
        callbacks == old(callbacks) + [SeekedForward] && seekAnimation == SeekAnimationUi(true, true)
      ensures Gestures.DoubleTapSide(x, width) == Gestures.Left ==>
        callbacks == old(callbacks) + [SeekedBack] && seekAnimation == SeekAnimationUi(true, false)
      ensures Local() == old(Local()).(callbacks := callbacks, seekAnimation := seekAnimation)
      ensures old(Valid()) ==> Valid()
    {
      if Gestures.DoubleTapSide(x, width) == Gestures.Right {
        callbacks := callbacks + [SeekedForward];
        seekAnimation := seekAnimation.(isPlaying := true, isForward := true);
      } else {
        callbacks := callbacks + [SeekedBack];
        seekAnimation := seekAnimation.(isPlaying := true, isForward := false);
      }
    }

    /** Long-press start (drag start): remember the visibility, hide, ask for the top speed. */
    method OnLongPressStart()
      modifies this, controls
      ensures accelerating == StartAccelerating(old(accelerating), old(controls.visible))
      ensures controls.Fields() == old(controls.Fields()).(visible := false)
      ensures callbacks == old(callbacks) + [SpeedSelected(Settings.MaxSpeed)]
      ensures Local() == old(Local()).(accelerating := accelerating, callbacks := callbacks)
    {
      accelerating := StartAccelerating(accelerating, controls.visible);
      controls.visible := false;
      callbacks := callbacks + [SpeedSelected(Settings.MaxSpeed)];
    }

    /** Long-press finish (drag end or cancel): restore the remembered visibility and speed. */
    method OnLongPressFinish()
      modifies this, controls
      ensures accelerating == FinishAccelerating(old(accelerating))
      ensures controls.Fields() == old(controls.Fields()).(visible := old(accelerating.shouldOpenControlsAfterFinishing))
      ensures callbacks == old(callbacks) + [SpeedSelected(old(accelerating.videoSpeedBeforeAccelerating))]
      ensures Local() == old(Local()).(accelerating := accelerating, callbacks := callbacks)
    {
      accelerating := FinishAccelerating(accelerating);
      controls.visible := accelerating.shouldOpenControlsAfterFinishing;
      callbacks := callbacks + [SpeedSelected(accelerating.videoSpeedBeforeAccelerating)];
    }

    /**
      A press and its release: the controls are visible again exactly when
      they were before, and the speed asked for last is the one captured at
      the first composition.
     */
    method LongPress()
      modifies this, controls
      ensures controls.Fields() == old(controls.Fields())
      ensures callbacks == old(callbacks)
        + [SpeedSelected(Settings.MaxSpeed), SpeedSelected(old(accelerating.videoSpeedBeforeAccelerating))]
      ensures accelerating == old(accelerating).(isActive := false,
        shouldOpenControlsAfterFinishing := old(controls.visible))
      ensures Local() == old(Local()).(accelerating := accelerating, callbacks := callbacks)
    {
      OnLongPressStart();
      OnLongPressFinish();
    }

    /**
      A composition of the running seek animation's content: the first one
      captures the visibility to restore afterwards; every one hides the
      controls.
     */
    method OnSeekAnimationComposed()
      requires seekAnimation.isPlaying
      modifies this, controls
      ensures shouldShowControlsAfterAnimation ==
        (if old(shouldShowControlsAfterAnimation).None? then Some(old(controls.visible))
         else old(shouldShowControlsAfterAnimation))
      ensures controls.Fields() == old(controls.Fields()).(visible := false)
      ensures Local() == old(Local()).(shouldShowControlsAfterAnimation := shouldShowControlsAfterAnimation)
      ensures Valid()
    {
      if shouldShowControlsAfterAnimation.None? {
        shouldShowControlsAfterAnimation := Some(controls.visible);
      }
      controls.visible := false;
    }

    /** The animation's `onFinish`: it stops and the captured visibility comes back. */
    method OnSeekAnimationFinished()
      requires shouldShowControlsAfterAnimation.Some?
      modifies this, controls
      ensures seekAnimation == old(seekAnimation).(isPlaying := false)
      ensures controls.Fields() == old(controls.Fields()).(visible := old(shouldShowControlsAfterAnimation.value))
      ensures shouldShowControlsAfterAnimation.None? && Valid()
      ensures Local() == old(Local()).(seekAnimation := seekAnimation, shouldShowControlsAfterAnimation := None)
    {
      seekAnimation := seekAnimation.(isPlaying := false);
      controls.visible := shouldShowControlsAfterAnimation.value;
      shouldShowControlsAfterAnimation := None;
    }

    /**
      A whole seek animation started by a double tap: the controls are hidden
      from its first composition to its end, its triangles make one pass,
      and then the controls are visible again exactly when they were before
      and the blackout goes away with them.
     */
    method PlaySeekAnimation() returns (trace: seq<TriangleFlags.Triangles>, visibleWhileRunning: bool)
      requires seekAnimation.isPlaying && shouldShowControlsAfterAnimation.None?
      modifies this, controls
      ensures !visibleWhileRunning
      ensures trace == TriangleFlags.Pass(TriangleFlags.AllClear, old(seekAnimation.isForward))
      ensures controls.Fields() == old(controls.Fields())
      ensures !seekAnimation.isPlaying && Valid()
      ensures BlackoutShown() <==> old(controls.visible)
      ensures Local() == old(Local()).(seekAnimation := old(seekAnimation).(isPlaying := false))
    {
      OnSeekAnimationComposed();
      visibleWhileRunning := controls.visible;
      var finishCalls;
      trace, finishCalls := ExampleSeekAnimation.RunSeekAnimation(seekAnimation.isForward);
      OnSeekAnimationFinished();
    }

    /** A click on the centre widget reports what that widget stands for. */
    method OnCentreClick()
      requires ShownCentre().Some? && CentreClick(ShownCentre().value).Some?
      modifies this
      ensures callbacks == old(callbacks) + [CentreClick(old(ShownCentre()).value).value]
      ensures Local() == old(Local()).(callbacks := callbacks)
    {
      callbacks := callbacks + [CentreClick(ShownCentre().value).value];
    }

    /** Only an enabled previous button takes clicks. */
    method OnPreviousClick()
      requires ShownNav().NavPair? && ShownNav().previousEnabled
      modifies this
      ensures Local() == old(Local()).(callbacks := old(callbacks) + [PreviousClicked])
    {
      callbacks := callbacks + [PreviousClicked];
    }

    method OnNextClick()
      requires ShownNav().NavPair? && ShownNav().nextEnabled
      modifies this
      ensures Local() == old(Local()).(callbacks := old(callbacks) + [NextClicked])
    {
      callbacks := callbacks + [NextClicked];
    }

    /** The footer's content enters: its slider position starts at the engine's current time. */
    method OnFooterShown()
      requires controls.visible
      modifies this
      ensures Local() == old(Local()).(currentTimeSliderPosition := controls.currentTimeMs)
      ensures !isUserEditingCurrentTime ==> SliderValue() == controls.currentTimeMs
    {
      currentTimeSliderPosition := controls.currentTimeMs;
    }

    /**
      The slider moved to `valueMs`: the first move of a drag switches to
      editing and reports the start; every move drags the slider's own
      position, which the slider then shows.
     */
    method OnSliderValueChange(valueMs: int)
      modifies this
      ensures isUserEditingCurrentTime && currentTimeSliderPosition == valueMs
      ensures callbacks == old(callbacks) + (if old(isUserEditingCurrentTime) then [] else [StartedTimeChanging])
      ensures Local() == old(Local()).(isUserEditingCurrentTime := true, currentTimeSliderPosition := valueMs,
        callbacks := callbacks)
      ensures SliderValue() == valueMs && ShownCentre().None?
    {
      if !isUserEditingCurrentTime {
        isUserEditingCurrentTime := true;
        callbacks := callbacks + [StartedTimeChanging];
      }
      currentTimeSliderPosition := valueMs;
    }

    /** The drag ends: editing stops and the released position is reported. */
    method OnSliderValueChangeFinished()
      modifies this
      ensures !isUserEditingCurrentTime
      ensures callbacks == old(callbacks) + [FinishedTimeChanging(old(currentTimeSliderPosition))]
      ensures Local() == old(Local()).(isUserEditingCurrentTime := false, callbacks := callbacks)
    {
      isUserEditingCurrentTime := false;
      callbacks := callbacks + [FinishedTimeChanging(currentTimeSliderPosition)];
    }

    /** The header's settings button opens the settings. */
    method OnSettingsClick()
      modifies this
      ensures Local() == old(Local()).(isVideoPlayerSettingsVisible := true)
      ensures settings.MainSheetShown(isVideoPlayerSettingsVisible) <==> settings.currentSettingSelected.None?
    {
      isVideoPlayerSettingsVisible := true;
    }

    /** Dismissing the main sheet closes the settings. */
    method OnMainSheetDismiss()
      requires settings.MainSheetShown(isVideoPlayerSettingsVisible)
      modifies this
      ensures Local() == old(Local()).(isVideoPlayerSettingsVisible := false)
      ensures !settings.MainSheetShown(isVideoPlayerSettingsVisible) && !settings.SpeedSheetShown()
    {
      isVideoPlayerSettingsVisible := false;
    }

    /** The speed selector on the main sheet opens the speed sheet. */
    method OnSpeedSelectorClick()
      requires settings.MainSheetShown(isVideoPlayerSettingsVisible)
      modifies settings
      ensures settings.SpeedSheetShown() && !settings.MainSheetShown(isVideoPlayerSettingsVisible)
    {
      settings.OnSpeedSelectorClick();
    }

    /** Dismissing the speed sheet resets it and closes the settings. */
    method OnSpeedSheetDismiss()
      requires settings.SpeedSheetShown()
      modifies this, settings
      ensures Local() == old(Local()).(isVideoPlayerSettingsVisible := false)
      ensures settings.currentSettingSelected.None?
      ensures !settings.MainSheetShown(isVideoPlayerSettingsVisible) && !settings.SpeedSheetShown()
    {
      var dismissed := settings.OnSpeedSheetDismiss();
      isVideoPlayerSettingsVisible := false;
    }

    /** Choosing a speed closes the settings, reports that speed, and resets the sheet. */
    method OnSpeedChosen(speed: Speed)
      requires settings.SpeedSheetShown()
      modifies this, settings
      ensures Local() == old(Local()).(isVideoPlayerSettingsVisible := false, callbacks := old(callbacks) + [SpeedSelected(speed)])
      ensures settings.currentSettingSelected.None?
      ensures !settings.MainSheetShown(isVideoPlayerSettingsVisible) && !settings.SpeedSheetShown()
    {
      var reported := settings.OnSpeedChosen(speed);
      isVideoPlayerSettingsVisible := false;
      callbacks := callbacks + [SpeedSelected(reported)];
    }
  }
}
