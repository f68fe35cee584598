# FoodHubVideoPlayer in Dafny

FoodHubVideoPlayer is a Jetpack Compose video-player widget built over a
Media3/ExoPlayer engine. This project models the widget's logic once the
engine is reduced to two things:

- a snapshot of what the widget reads from the engine (`Engine.Snapshot`);
- a log of the commands the widget sends back (`Engine.Command`).

What is left is a set of small state machines and pure functions. The project
models them and proves their properties.

The repository holds two source trees:

- `foodhubvideoplayer`, the current code;
- `videoplayerexample`, an older copy. In it, `ui/player` and the single-file
  `MainActivity.kt` duplicate one another with small differences.

The Dafny modules follow the source files:

| module | file | models |
|---|---|---|
| `Engine` | engine.dfy | engine snapshot, commands, `coerceAtLeast(0)`, nullable title text |
| `Media` | media.dfy | `toMediaItems` (all trees) |
| `TimeFormat` | time_format.dfy | `formatMillis` with Kotlin's truncating `/` and `%` and `%02d` |
| `TriangleFlags` | triangles.dfy | one pass of the three seek-animation triangles (both trees) |
| `Settings` | settings.dfy | speed list, labels, check marks, the `currentSettingSelected` sheet state (both trees, identical logic) |
| `ControlsState` | controls_state.dfy | the 14-field `VideoControlsState`, its `Saver`, `rememberVideoControlsState` (ui/player) |
| `FoodHubPlayer` | foodhub_player.dfy | current `FoodHubVideoPlayer.kt`: engine setup, listener, lifecycle, `VideoPlayerWithControls` callbacks, auto-hide timer, poller |
| `Gestures` | gestures.dfy | double-tap side and the seek it asks for (older tree, three identical copies) |
| `SeekAnimationState` | seek_animation.dfy | current `SeekAnimation.kt`: `SeekAnimationUiState` and the animation loop |
| `ExampleSeekAnimation` | example_seek_animation.dfy | older `SeekAnimation.kt`: one straight-line pass and the seconds label |
| `PlayerControls` | player_controls.dfy | older `VideoPlayerControls.kt`: middle row, nav buttons, long press, double tap, seek-animation hide/restore, footer scrub, settings wiring |
| `ExamplePlayer` | example_player.dfy | older `ui/player/FoodHubVideoPlayer.kt`: listener with derived `isPaused`, lifecycle, callbacks, 400 ms poller |
| `ExampleActivity` | example_activity.dfy | older `MainActivity.kt`: 13-field state, saver, listener, lifecycle, its own middle-row order, overlay callbacks |

Conventions:

- **Speeds** are Kotlin `Float`s that are only compared for equality against
  list constants. They are modelled as quarter steps (0.25x is 1, 1x is 4,
  2x is 8).
- **Mutable state.** A Compose state holder whose fields are assigned in
  place is a Dafny `class`. Its `Fields()` or `Local()` function returns all of
  its values as one datatype. Every method states the whole new state as an
  update of the old one.
- **Timers and polls.** The auto-hide timer's expiry, each poll of the current
  time and each gesture are explicit method calls.

## Model

| member | source | states |
|---|---|---|
| Engine.CoerceAtLeastZero | app/src/main/java/ru/ilyasekunov/foodhubvideoplayer/ui/player/FoodHubVideoPlayer.kt:58-59 | The result is never negative, never below the input, and equals the input unless that is negative. |
| Engine.TitleText | app/src/main/java/ru/ilyasekunov/foodhubvideoplayer/ui/player/FoodHubVideoPlayer.kt:61 | A present title is shown as is; a missing title reads "null". |
| Media.ToMediaItems | app/src/main/java/ru/ilyasekunov/foodhubvideoplayer/ui/player/FoodHubVideoPlayer.kt:99-111 | One item per video, in order. Item i has video i's url as uri and its title as display title. |
| Media.MediaItemsRoundTrip | app/src/main/java/ru/ilyasekunov/foodhubvideoplayer/ui/player/FoodHubVideoPlayer.kt:99-111 | Reading the videos back from the items gives exactly the original list: nothing lost or reordered. |
| Media.MediaItemsAppend | app/src/main/java/ru/ilyasekunov/foodhubvideoplayer/ui/player/FoodHubVideoPlayer.kt:99-100 | Converting a list with one more video appends that video's item at the end. |
| TimeFormat.KotlinDiv | app/src/main/java/ru/ilyasekunov/videoplayerexample/ui/player/VideoPlayerControls.kt:995-996 | Kotlin's Long `/`: the quotient truncated toward zero. |
| TimeFormat.KotlinRem | app/src/main/java/ru/ilyasekunov/videoplayerexample/ui/player/VideoPlayerControls.kt:997 | Kotlin's `%`: its sign follows the dividend, and it recombines with `KotlinDiv` to the dividend. |
| TimeFormat.DecimalRoundTrip | app/src/main/java/ru/ilyasekunov/videoplayerexample/ui/player/VideoPlayerControls.kt:1000 | The decimal digits of n are all digits and read back as n. |
| TimeFormat.Pad2 | app/src/main/java/ru/ilyasekunov/videoplayerexample/ui/player/VideoPlayerControls.kt:1000 | `%02d`: a non-negative value becomes at least two digits that read back as the value, exactly two when below 100. A negative one starts with '-'. |
| TimeFormat.FormatMillis | app/src/main/java/ru/ilyasekunov/videoplayerexample/ui/player/VideoPlayerControls.kt:994-1003 | For ms >= 0 the label has a colon three characters from the end. It is exactly "MM:SS" below 100 minutes, and starts with '-' from minus one minute down. |
| TimeFormat.FormatMillisReadsBack | app/src/main/java/ru/ilyasekunov/videoplayerexample/MainActivity.kt:988-998 | For ms >= 0 the label reads back as minutes (ms/1000)/60 and seconds (ms/1000)%60. The seconds field is below 60, and minutes*60 + seconds is the whole seconds elapsed. |
| TimeFormat.FormatMillisIgnoresSubSecond | app/src/main/java/ru/ilyasekunov/videoplayerexample/ui/player/VideoPlayerControls.kt:995 | Times within the same second get the same label. |
| TriangleFlags.Pass | app/src/main/java/ru/ilyasekunov/foodhubvideoplayer/ui/player/SeekAnimation.kt:123-153 | Five steps. Step 1 lights the first triangle when forward and the third when backward. The middle triangle is lit after steps 2-3. Step 3 moves the light to the other end. Step 4 dims the middle. The pass ends with all three flags cleared, from any start. |
| TriangleFlags.PassMirror | app/src/main/java/ru/ilyasekunov/foodhubvideoplayer/ui/player/SeekAnimation.kt:123-153 | The backward pass is the forward pass with first and third swapped, step by step. |
| TriangleFlags.End | app/src/main/java/ru/ilyasekunov/foodhubvideoplayer/ui/player/SeekAnimation.kt:120-154 | After one or more passes every flag is cleared; after none the flags are untouched. |
| TriangleFlags.Passes | app/src/main/java/ru/ilyasekunov/foodhubvideoplayer/ui/player/SeekAnimation.kt:120-154 | n passes show 5n flag states, and the last is the end state of the n passes. |
| TriangleFlags.PassesRepeat | app/src/main/java/ru/ilyasekunov/foodhubvideoplayer/ui/player/SeekAnimation.kt:105-154 | Every pass after the first is identical to a pass from all-cleared flags. |
| Settings.AvailablePlaybackSpeedValues | app/src/main/java/ru/ilyasekunov/foodhubvideoplayer/ui/player/VideoPlayerSettings.kt:46-58 | Eight values, strictly ascending, all in (0, 2x]. The fourth is the default speed 1x and the last is the top speed 2x. |
| Settings.AscendingDistinct | app/src/main/java/ru/ilyasekunov/videoplayerexample/ui/player/VideoPlayerSettings.kt:38-50 | A strictly ascending list has no repeated value. |
| Settings.Label | app/src/main/java/ru/ilyasekunov/foodhubvideoplayer/ui/player/VideoPlayerSettings.kt:148-152 | The default-speed name is shown exactly when the speed is the default. Otherwise the label is the number itself. |
| Settings.SpeedListLabels | app/src/main/java/ru/ilyasekunov/foodhubvideoplayer/ui/player/VideoPlayerSettings.kt:164-177 | One label per list entry, in order. The default-speed name appears on the fourth entry and nowhere else. |
| Settings.CheckMarks | app/src/main/java/ru/ilyasekunov/foodhubvideoplayer/ui/player/VideoPlayerSettings.kt:180 | One mark per entry. An entry is checked exactly when it equals the current speed. |
| Settings.AtMostOneCheckMark | app/src/main/java/ru/ilyasekunov/videoplayerexample/ui/player/VideoPlayerSettings.kt:154 | No two entries are checked. Some entry is checked exactly when the current speed is in the list. |
| Settings.SettingsSheet.constructor | app/src/main/java/ru/ilyasekunov/foodhubvideoplayer/ui/player/VideoPlayerSettings.kt:74 | No setting is selected at first. |
| Settings.SettingsSheet.MainSheetShown | app/src/main/java/ru/ilyasekunov/foodhubvideoplayer/ui/player/VideoPlayerSettings.kt:83 | The main sheet is open exactly when asked to be visible and no setting is selected. |
| Settings.SettingsSheet.SpeedSheetShown | app/src/main/java/ru/ilyasekunov/foodhubvideoplayer/ui/player/VideoPlayerSettings.kt:106 | The speed sheet is open exactly when the speed setting is selected, whatever `visible` is. |
| Settings.SettingsSheet.OnSpeedSelectorClick | app/src/main/java/ru/ilyasekunov/foodhubvideoplayer/ui/player/VideoPlayerSettings.kt:97-99 | The state becomes PlaybackSpeed. The main sheet is then closed for every `visible`, and the speed sheet is open. |
| Settings.SettingsSheet.OnSpeedChosen | app/src/main/java/ru/ilyasekunov/foodhubvideoplayer/ui/player/VideoPlayerSettings.kt:124-127 | Exactly the chosen speed is reported, and the state goes back to no selection. |
| Settings.SettingsSheet.OnSpeedSheetDismiss | app/src/main/java/ru/ilyasekunov/foodhubvideoplayer/ui/player/VideoPlayerSettings.kt:108-111 | The state goes back to no selection, and the dismissal is reported. |
| ControlsState.VideoControlsState.constructor | app/src/main/java/ru/ilyasekunov/videoplayerexample/ui/player/VideoPlayerControls.kt:128-157 | All fourteen fields take the given values. |
| ControlsState.KeyNamesDistinct | app/src/main/java/ru/ilyasekunov/videoplayerexample/ui/player/VideoPlayerControls.kt:162-177 | The saver's fourteen names are pairwise distinct, so no field overwrites another. |
| ControlsState.Save | app/src/main/java/ru/ilyasekunov/videoplayerexample/ui/player/VideoPlayerControls.kt:160-178 | The saved map has exactly the fourteen names, and restoring it gives back every field of the saved state. |
| ControlsState.Restore | app/src/main/java/ru/ilyasekunov/videoplayerexample/ui/player/VideoPlayerControls.kt:179-196 | Restore succeeds exactly when every name is present with the type `save` writes. Otherwise a cast would throw. |
| ControlsState.SaveOfRestore | app/src/main/java/ru/ilyasekunov/videoplayerexample/ui/player/VideoPlayerControls.kt:160-197 | The other direction: a restorable map with exactly the saver's names is what saving its restored state writes. |
| ControlsState.InitialFields | app/src/main/java/ru/ilyasekunov/videoplayerexample/ui/player/VideoPlayerControls.kt:201-216 | Paused exactly when neither playing nor loading, which ignores ended. Both times are non-negative, and equal the engine's when those are. The title is the engine's, or "null". The rest are defaults: hidden, not ended, item 0, speed 1x. |
| ControlsState.RememberedFields | app/src/main/java/ru/ilyasekunov/videoplayerexample/ui/player/VideoPlayerControls.kt:202-203 | A saved map, when present, decides the state through Restore. Otherwise the state comes from the engine. |
| ControlsState.RememberVideoControlsState | app/src/main/java/ru/ilyasekunov/videoplayerexample/ui/player/VideoPlayerControls.kt:201-216 | A fresh state object holding the remembered fields, or none when the saved map does not restore. |
| FoodHubPlayer.BuildExoPlayer | app/src/main/java/ru/ilyasekunov/foodhubvideoplayer/ui/player/FoodHubVideoPlayer.kt:113-128 | Both seek increments are 10 s. The playlist reads back as exactly the videos. Auto-start is as asked, repeat-all exactly when asked, and the engine is prepared. |
| FoodHubPlayer.Listened | app/src/main/java/ru/ilyasekunov/foodhubvideoplayer/ui/player/FoodHubVideoPlayer.kt:47-66 | Never loading while playing. Ended iff the ended state. Times are non-negative. Speed, item index, neighbours, buffer and title are copied from the engine. `visible` and the click-owned `isPaused` are untouched. |
| FoodHubPlayer.ListenedForgetsEngineFields | app/src/main/java/ru/ilyasekunov/foodhubvideoplayer/ui/player/FoodHubVideoPlayer.kt:51-64 | Two states that agree on `visible` and `isPaused` are equal after the same event. |
| FoodHubPlayer.OnEvents | app/src/main/java/ru/ilyasekunov/foodhubvideoplayer/ui/player/FoodHubVideoPlayer.kt:49-65 | The state object's new fields are exactly `Listened` of its old fields. |
| FoodHubPlayer.OnStartCommands | app/src/main/java/ru/ilyasekunov/foodhubvideoplayer/ui/player/FoodHubVideoPlayer.kt:72-85 | Exactly the seek to the saved item and time, the saved speed and prepare, in that order, followed by Play exactly when not paused. Nothing else is sent. |
| FoodHubPlayer.StartResumesListenedPosition | app/src/main/java/ru/ilyasekunov/foodhubvideoplayer/ui/player/FoodHubVideoPlayer.kt:47-85 | After any event, `onStart` resumes that event's item at its position clamped at zero and at its speed. It plays exactly when the user had not paused. |
| FoodHubPlayer.StopThenStartResumes | app/src/main/java/ru/ilyasekunov/foodhubvideoplayer/ui/player/FoodHubVideoPlayer.kt:72-90 | Leaving and returning after an engine event: `onStop` sends one stop, first, and no later command is a stop. `onStart` then seeks to the event's item at its position clamped at zero, restores its speed and prepares. Play is sent exactly when the user had not paused. |
| FoodHubPlayer.PlayerWithControls.constructor | app/src/main/java/ru/ilyasekunov/foodhubvideoplayer/ui/player/FoodHubVideoPlayer.kt:213 | Not interacting, and nothing sent. |
| FoodHubPlayer.PlayerWithControls.OnClick | app/src/main/java/ru/ilyasekunov/foodhubvideoplayer/ui/player/FoodHubVideoPlayer.kt:236 | `visible` flips; no other field changes. |
| FoodHubPlayer.PlayerWithControls.OnVisibilityTimerExpired | app/src/main/java/ru/ilyasekunov/foodhubvideoplayer/ui/player/FoodHubVideoPlayer.kt:215-220 | The overlay hides only if it was visible and nobody was interacting; otherwise nothing changes. Afterwards the timer is not armed. |
| FoodHubPlayer.PlayerWithControls.OnSeekForward | app/src/main/java/ru/ilyasekunov/foodhubvideoplayer/ui/player/FoodHubVideoPlayer.kt:237 | Exactly one seek-forward is sent. |
| FoodHubPlayer.PlayerWithControls.OnSeekBack | app/src/main/java/ru/ilyasekunov/foodhubvideoplayer/ui/player/FoodHubVideoPlayer.kt:238 | Exactly one seek-back is sent. |
| FoodHubPlayer.PlayerWithControls.OnPlayClick | app/src/main/java/ru/ilyasekunov/foodhubvideoplayer/ui/player/FoodHubVideoPlayer.kt:239-242 | Play is sent and `isPaused` becomes false; nothing else changes. |
| FoodHubPlayer.PlayerWithControls.OnPauseClick | app/src/main/java/ru/ilyasekunov/foodhubvideoplayer/ui/player/FoodHubVideoPlayer.kt:243-246 | Pause is sent and `isPaused` becomes true; nothing else changes. |
| FoodHubPlayer.PlayerWithControls.OnPreviousClick | app/src/main/java/ru/ilyasekunov/foodhubvideoplayer/ui/player/FoodHubVideoPlayer.kt:247 | Exactly one seek-to-previous is sent. |
| FoodHubPlayer.PlayerWithControls.OnNextClick | app/src/main/java/ru/ilyasekunov/foodhubvideoplayer/ui/player/FoodHubVideoPlayer.kt:248 | Exactly one seek-to-next is sent. |
| FoodHubPlayer.PlayerWithControls.OnReplayClick | app/src/main/java/ru/ilyasekunov/foodhubvideoplayer/ui/player/FoodHubVideoPlayer.kt:249 | A seek to position 0 is sent. |
| FoodHubPlayer.PlayerWithControls.OnStartedTimeChanging | app/src/main/java/ru/ilyasekunov/foodhubvideoplayer/ui/player/FoodHubVideoPlayer.kt:250-252 | Interacting becomes true, so the timer is not armed; nothing is sent. |
| FoodHubPlayer.PlayerWithControls.OnFinishTimeChanging | app/src/main/java/ru/ilyasekunov/foodhubvideoplayer/ui/player/FoodHubVideoPlayer.kt:253-256 | A seek to the released position is sent and interacting becomes false. The timer is armed again exactly when the overlay is visible. |
| FoodHubPlayer.PlayerWithControls.OnVideoPlaybackSpeedSelected | app/src/main/java/ru/ilyasekunov/foodhubvideoplayer/ui/player/FoodHubVideoPlayer.kt:257 | The chosen speed is sent to the engine. |
| FoodHubPlayer.PlayerWithControls.OnPollTick | app/src/main/java/ru/ilyasekunov/foodhubvideoplayer/ui/player/FoodHubVideoPlayer.kt:281-282 | While playing, only the current time changes, to the position clamped at zero. |
| FoodHubPlayer.PlayerWithControls.PollCurrentTime | app/src/main/java/ru/ilyasekunov/foodhubvideoplayer/ui/player/FoodHubVideoPlayer.kt:278-286 | While playing there is one round per position read, each showing the read clamped at zero; the state ends on the last read. When not playing there are no rounds and no change. |
| Gestures.DoubleTapSide | app/src/main/java/ru/ilyasekunov/videoplayerexample/ui/player/VideoPlayerControls.kt:984-989 | The right side is exactly x > width/2 with the width halved as an Int. For an even width that is 2x > width. x <= 0 is always left; x at or past a positive width is always right. |
| Gestures.DoubleTapSideMonotone | app/src/main/java/ru/ilyasekunov/videoplayerexample/ui/player/FoodHubVideoPlayer.kt:278 | Moving a right-side tap further right keeps it on the right side. |
| Gestures.SeekFor | app/src/main/java/ru/ilyasekunov/videoplayerexample/ui/player/FoodHubVideoPlayer.kt:277-283 | The right side asks for seek-forward and the left side for seek-back, each exactly then. |
| SeekAnimationState.SeekAnimationUiState.constructor | app/src/main/java/ru/ilyasekunov/foodhubvideoplayer/ui/player/SeekAnimation.kt:34-49 | The given values, with no pass pending. |
| SeekAnimationState.SeekAnimationUiState.IncrementIterations | app/src/main/java/ru/ilyasekunov/foodhubvideoplayer/ui/player/SeekAnimation.kt:68-71 | Raises the counter from 0 to 1 and never beyond, so the 0-or-1 invariant is kept. |
| SeekAnimationState.SeekAnimationUiState.IncreaseSeekTimeBy | app/src/main/java/ru/ilyasekunov/foodhubvideoplayer/ui/player/SeekAnimation.kt:51-54 | Adds exactly `time` to the seek time and requests a pass. Playing and direction are unchanged, and the invariant is kept. |
| SeekAnimationState.SeekAnimationUiState.StartAnimation | app/src/main/java/ru/ilyasekunov/foodhubvideoplayer/ui/player/SeekAnimation.kt:56-61 | Playing, in the given direction, with a seek time of 10000 and at least one pass pending; the invariant is kept. |
| SeekAnimationState.SeekAnimationUiState.StopAnimation | app/src/main/java/ru/ilyasekunov/foodhubvideoplayer/ui/player/SeekAnimation.kt:63-66 | Not playing and nothing pending; direction and seek time are unchanged. |
| SeekAnimationState.SeekAnimationUiState.DecrementIterations | app/src/main/java/ru/ilyasekunov/foodhubvideoplayer/ui/player/SeekAnimation.kt:73-76 | Lowers the counter by one when positive, and does nothing at 0. It is never negative. |
| SeekAnimationState.RememberSeekAnimationUiState | app/src/main/java/ru/ilyasekunov/foodhubvideoplayer/ui/player/SeekAnimation.kt:79-90 | A fresh state: not playing, backward, seek time 10000, nothing pending. |
| SeekAnimationState.PassCount | app/src/main/java/ru/ilyasekunov/foodhubvideoplayer/ui/player/SeekAnimation.kt:120-154 | No passes when nothing is pending. Otherwise one pass, plus one more after each pass with a tap, ending after the first pass without one. It is at most one more than the passes given, and one when the first pass had no tap. |
| SeekAnimationState.PassCountUnique | app/src/main/java/ru/ilyasekunov/foodhubvideoplayer/ui/player/SeekAnimation.kt:120 | The number of passes is determined by the counter and the taps. |
| SeekAnimationState.PassCountWithoutTaps | app/src/main/java/ru/ilyasekunov/foodhubvideoplayer/ui/player/SeekAnimation.kt:120-121 | With no taps during the run, the loop makes as many passes as were pending: at most one. |
| SeekAnimationState.RunAnimation | app/src/main/java/ru/ilyasekunov/foodhubvideoplayer/ui/player/SeekAnimation.kt:117-157 | `onStart`, then exactly PassCount passes whose flags are the passes from all-cleared, then `onFinish` exactly once. Nothing is pending afterwards. The seek time has gained every tap made during the passes. Playing and direction are unchanged. |
| SeekAnimationState.SeekLabelSeconds | app/src/main/java/ru/ilyasekunov/foodhubvideoplayer/ui/player/SeekAnimation.kt:214 | The label's number is the seek time divided by 1000, truncated toward zero: floor for non-negative times, ceiling for negative ones, symmetric in sign. |
| ExampleSeekAnimation.RunSeekAnimation | app/src/main/java/ru/ilyasekunov/videoplayerexample/ui/player/SeekAnimation.kt:98-132 | From three cleared flags, the five steps show exactly one pass. All flags are cleared before `onFinish`, which is called exactly once. |
| ExampleSeekAnimation.SeekSeconds | app/src/main/java/ru/ilyasekunov/videoplayerexample/ui/player/SeekAnimation.kt:86-90 | The label's seconds times 1000 is that direction's seek increment; it is 10 both ways. |
| PlayerControls.MiddleCentre | app/src/main/java/ru/ilyasekunov/videoplayerexample/ui/player/VideoPlayerControls.kt:554-593 | Loading shows exactly when loading, even with the overlay hidden. Otherwise, only while visible: pause iff playing, else play iff paused, else replay iff ended. Every other case shows nothing, and never two widgets at once. |
| PlayerControls.CentreAfterEvent | app/src/main/java/ru/ilyasekunov/videoplayerexample/ui/player/FoodHubVideoPlayer.kt:53-59 | After this tree's listener, the centre is empty exactly when hidden and not loading. It offers play exactly when visible and the engine is neither loading, playing nor ended. |
| PlayerControls.NavButtons | app/src/main/java/ru/ilyasekunov/videoplayerexample/ui/player/VideoPlayerControls.kt:539-552 | Previous/next exist exactly when visible and there is a previous or a next item. Previous is enabled iff there is a previous item, next iff there is a next one, so at least one is enabled. |
| PlayerControls.StartAccelerating | app/src/main/java/ru/ilyasekunov/videoplayerexample/ui/player/VideoPlayerControls.kt:272-275 | Active, remembering the visibility at press start, and keeping the captured speed. |
| PlayerControls.FinishAccelerating | app/src/main/java/ru/ilyasekunov/videoplayerexample/ui/player/VideoPlayerControls.kt:282-284 | Inactive, with both remembered values kept. |
| PlayerControls.AccelerationRoundTrip | app/src/main/java/ru/ilyasekunov/videoplayerexample/ui/player/VideoPlayerControls.kt:239-290 | A press and its release bring back the visibility from before the press. The speed they restore is the one captured at first composition. |
| PlayerControls.CentreClick | app/src/main/java/ru/ilyasekunov/videoplayerexample/ui/player/VideoPlayerControls.kt:563-592 | Pause, play and replay each report their own callback, exactly then. Loading and an empty centre take no click. |
| PlayerControls.ControlsOverlay.constructor | app/src/main/java/ru/ilyasekunov/videoplayerexample/ui/player/VideoPlayerControls.kt:238-242 | No animation, not editing, settings closed, nothing reported. The acceleration state captures the current speed and visibility once. |
| PlayerControls.ControlsOverlay.BlackoutShown | app/src/main/java/ru/ilyasekunov/videoplayerexample/ui/player/VideoPlayerControls.kt:245 | The blackout shows exactly while the overlay is visible or the seek animation plays. |
| PlayerControls.ControlsOverlay.ShownCentre | app/src/main/java/ru/ilyasekunov/videoplayerexample/ui/player/VideoPlayerControls.kt:318-333 | No middle row at all while the user edits the time; otherwise it is `MiddleCentre` of the state. |
| PlayerControls.ControlsOverlay.ShownNav | app/src/main/java/ru/ilyasekunov/videoplayerexample/ui/player/VideoPlayerControls.kt:318-333 | No nav buttons while editing; otherwise they are `NavButtons` of the state. |
| PlayerControls.ControlsOverlay.SliderValue | app/src/main/java/ru/ilyasekunov/videoplayerexample/ui/player/VideoPlayerControls.kt:655-661 | The value the slider holds while the footer is shown: its own position while editing, the engine's time otherwise. |
| PlayerControls.ControlsOverlay.EditingTimeLabel | app/src/main/java/ru/ilyasekunov/videoplayerexample/ui/player/VideoPlayerControls.kt:625-641 | A label is shown exactly while the overlay, and so the footer, is visible and the user is editing. For a non-negative slider position it reads back as that position's minutes and seconds. |
| PlayerControls.ControlsOverlay.OnTap | app/src/main/java/ru/ilyasekunov/videoplayerexample/ui/player/VideoPlayerControls.kt:253 | Only the click callback is reported. |
| PlayerControls.ControlsOverlay.OnDoubleTap | app/src/main/java/ru/ilyasekunov/videoplayerexample/ui/player/VideoPlayerControls.kt:255-268 | Right side: seek-forward is reported and a forward animation plays. Left side: seek-back and a backward animation. Nothing else changes. |
| PlayerControls.ControlsOverlay.OnLongPressStart | app/src/main/java/ru/ilyasekunov/videoplayerexample/ui/player/VideoPlayerControls.kt:271-280 | The old visibility is remembered, the controls hide, and the top speed is requested. |
| PlayerControls.ControlsOverlay.OnLongPressFinish | app/src/main/java/ru/ilyasekunov/videoplayerexample/ui/player/VideoPlayerControls.kt:281-289 | The remembered visibility comes back, and the captured speed is requested. |
| PlayerControls.ControlsOverlay.LongPress | app/src/main/java/ru/ilyasekunov/videoplayerexample/ui/player/VideoPlayerControls.kt:967-973 | Press then release leaves the controls state as it was. It requests 2x and then the captured speed. It ends inactive and remembers the visibility of the press. The rest of the overlay is unchanged. |
| PlayerControls.ControlsOverlay.OnSeekAnimationComposed | app/src/main/java/ru/ilyasekunov/videoplayerexample/ui/player/VideoPlayerControls.kt:445-446 | The first composition captures the visibility, and every composition hides the controls. |
| PlayerControls.ControlsOverlay.OnSeekAnimationFinished | app/src/main/java/ru/ilyasekunov/videoplayerexample/ui/player/VideoPlayerControls.kt:448-453 | The animation stops and the captured visibility comes back. |
| PlayerControls.ControlsOverlay.PlaySeekAnimation | app/src/main/java/ru/ilyasekunov/videoplayerexample/ui/player/VideoPlayerControls.kt:423-456 | The controls are hidden while it runs, and its flags make one pass. Afterwards the controls state is as before and the blackout shows exactly when the overlay was visible. The overlay differs only in its animation having stopped. |
| PlayerControls.ControlsOverlay.OnCentreClick | app/src/main/java/ru/ilyasekunov/videoplayerexample/ui/player/VideoPlayerControls.kt:563-592 | The shown centre button's own callback is reported. |
| PlayerControls.ControlsOverlay.OnPreviousClick | app/src/main/java/ru/ilyasekunov/videoplayerexample/ui/player/VideoPlayerControls.kt:546-551 | An enabled previous button reports previous. |
| PlayerControls.ControlsOverlay.OnNextClick | app/src/main/java/ru/ilyasekunov/videoplayerexample/ui/player/VideoPlayerControls.kt:603-608 | An enabled next button reports next. |
| PlayerControls.ControlsOverlay.OnFooterShown | app/src/main/java/ru/ilyasekunov/videoplayerexample/ui/player/VideoPlayerControls.kt:633-635 | The slider's own position starts at the current time. |
| PlayerControls.ControlsOverlay.OnSliderValueChange | app/src/main/java/ru/ilyasekunov/videoplayerexample/ui/player/VideoPlayerControls.kt:665-670 | The first move of a drag starts editing and reports the start, exactly once. Every move sets the slider's position, which the slider then shows, and hides the middle row. |
| PlayerControls.ControlsOverlay.OnSliderValueChangeFinished | app/src/main/java/ru/ilyasekunov/videoplayerexample/ui/player/VideoPlayerControls.kt:347-350 | Editing stops and the released slider position is reported. |
| PlayerControls.ControlsOverlay.OnSettingsClick | app/src/main/java/ru/ilyasekunov/videoplayerexample/ui/player/VideoPlayerControls.kt:308-310 | The settings open; the main sheet then shows unless a setting is selected. |
| PlayerControls.ControlsOverlay.OnMainSheetDismiss | app/src/main/java/ru/ilyasekunov/videoplayerexample/ui/player/VideoPlayerControls.kt:369 | The settings close and no sheet shows. |
| PlayerControls.ControlsOverlay.OnSpeedSelectorClick | app/src/main/java/ru/ilyasekunov/videoplayerexample/ui/player/VideoPlayerSettings.kt:81-83 | The speed sheet replaces the main sheet. |
| PlayerControls.ControlsOverlay.OnSpeedSheetDismiss | app/src/main/java/ru/ilyasekunov/videoplayerexample/ui/player/VideoPlayerSettings.kt:91-94 | The sheet resets and the settings close; no sheet shows. |
| PlayerControls.ControlsOverlay.OnSpeedChosen | app/src/main/java/ru/ilyasekunov/videoplayerexample/ui/player/VideoPlayerControls.kt:370-373 | The chosen speed is reported, the settings close and the sheet resets; no sheet shows. |
| ExamplePlayer.Listened | app/src/main/java/ru/ilyasekunov/videoplayerexample/ui/player/FoodHubVideoPlayer.kt:48-67 | Paused exactly when neither playing, loading nor ended, so paused excludes the other three. Ended iff the ended state. Times are non-negative. Loading is copied as is. `visible` and the speed are untouched. |
| ExamplePlayer.OnEvents | app/src/main/java/ru/ilyasekunov/videoplayerexample/ui/player/FoodHubVideoPlayer.kt:50-65 | The state object's new fields are exactly `Listened` of its old fields. |
| ExamplePlayer.OnStartCommands | app/src/main/java/ru/ilyasekunov/videoplayerexample/ui/player/FoodHubVideoPlayer.kt:73-86 | Exactly the seek to the saved item and time and prepare, followed by Play exactly when not paused: no speed, no pause, nothing else. |
| ExamplePlayer.StartAfterEventPlays | app/src/main/java/ru/ilyasekunov/videoplayerexample/ui/player/FoodHubVideoPlayer.kt:59 | After an event, `onStart` plays exactly when the engine was playing, loading or ended, and resumes that event's item and position. |
| ExamplePlayer.PlayerWithControls.constructor | app/src/main/java/ru/ilyasekunov/videoplayerexample/ui/player/FoodHubVideoPlayer.kt:174 | Not interacting, and nothing sent. |
| ExamplePlayer.PlayerWithControls.BlackoutShown | app/src/main/java/ru/ilyasekunov/videoplayerexample/ui/player/FoodHubVideoPlayer.kt:201-204 | This widget's blackout follows `visible` alone, not the seek animation. A tap toggles it, and the timer leaves it shown only while the user is interacting. |
| ExamplePlayer.PlayerWithControls.OnClick | app/src/main/java/ru/ilyasekunov/videoplayerexample/ui/player/FoodHubVideoPlayer.kt:195 | `visible` flips, and with it the blackout. No other field changes. |
| ExamplePlayer.PlayerWithControls.OnVisibilityTimerExpired | app/src/main/java/ru/ilyasekunov/videoplayerexample/ui/player/FoodHubVideoPlayer.kt:176-181 | The overlay hides only if it was visible and nobody was interacting. Afterwards the blackout shows only if the user was interacting. |
| ExamplePlayer.PlayerWithControls.OnDoubleTap | app/src/main/java/ru/ilyasekunov/videoplayerexample/ui/player/FoodHubVideoPlayer.kt:196-197 | Exactly the seek of the tapped side is sent. |
| ExamplePlayer.PlayerWithControls.OnPlayClick | app/src/main/java/ru/ilyasekunov/videoplayerexample/ui/player/FoodHubVideoPlayer.kt:208 | Play is sent and nothing else changes; the paused flag waits for the next event. |
| ExamplePlayer.PlayerWithControls.OnPauseClick | app/src/main/java/ru/ilyasekunov/videoplayerexample/ui/player/FoodHubVideoPlayer.kt:209 | Pause is sent and nothing else changes. |
| ExamplePlayer.PlayerWithControls.OnPreviousClick | app/src/main/java/ru/ilyasekunov/videoplayerexample/ui/player/FoodHubVideoPlayer.kt:210 | Exactly one seek-to-previous is sent. |
| ExamplePlayer.PlayerWithControls.OnNextClick | app/src/main/java/ru/ilyasekunov/videoplayerexample/ui/player/FoodHubVideoPlayer.kt:211 | Exactly one seek-to-next is sent. |
| ExamplePlayer.PlayerWithControls.OnReplayClick | app/src/main/java/ru/ilyasekunov/videoplayerexample/ui/player/FoodHubVideoPlayer.kt:212 | A seek to position 0 is sent. |
| ExamplePlayer.PlayerWithControls.OnStartedTimeChanging | app/src/main/java/ru/ilyasekunov/videoplayerexample/ui/player/FoodHubVideoPlayer.kt:213-215 | Interacting becomes true, so the timer is not armed. |
| ExamplePlayer.PlayerWithControls.OnFinishTimeChanging | app/src/main/java/ru/ilyasekunov/videoplayerexample/ui/player/FoodHubVideoPlayer.kt:216-219 | A seek to the released position is sent and interacting clears. |
| ExamplePlayer.PlayerWithControls.PollCurrentTime | app/src/main/java/ru/ilyasekunov/videoplayerexample/ui/player/FoodHubVideoPlayer.kt:183-191 | While playing there is one round per read, each showing the read clamped at zero; the state ends on the last read. When not playing there are no rounds. |
| ExampleActivity.VideoControlsState.constructor | app/src/main/java/ru/ilyasekunov/videoplayerexample/MainActivity.kt:105-133 | All thirteen fields take the given values. |
| ExampleActivity.Save | app/src/main/java/ru/ilyasekunov/videoplayerexample/MainActivity.kt:137-153 | Exactly the thirteen names, with no speed, and restoring gives back every field. |
| ExampleActivity.Restore | app/src/main/java/ru/ilyasekunov/videoplayerexample/MainActivity.kt:154-170 | Restore succeeds exactly when every name has the type `save` writes. |
| ExampleActivity.SaveOfRestore | app/src/main/java/ru/ilyasekunov/videoplayerexample/MainActivity.kt:136-171 | A restorable map with exactly the thirteen names is what saving its restored state writes. |
| ExampleActivity.RestoresWiderSave | app/src/main/java/ru/ilyasekunov/videoplayerexample/MainActivity.kt:136-171 | A bundle saved by the fourteen-field saver restores here to the same thirteen values. |
| ExampleActivity.InitialFields | app/src/main/java/ru/ilyasekunov/videoplayerexample/MainActivity.kt:175-190 | Paused exactly when neither playing nor loading, which ignores ended. Times are non-negative and copied when the engine's are. Hidden, not ended, item 0. |
| ExampleActivity.RememberedFields | app/src/main/java/ru/ilyasekunov/videoplayerexample/MainActivity.kt:176-177 | A saved map, when present, decides the state through Restore; otherwise the state comes from the engine. |
| ExampleActivity.RememberVideoControlsState | app/src/main/java/ru/ilyasekunov/videoplayerexample/MainActivity.kt:175-190 | A fresh state object with the remembered fields, or none when the map does not restore. |
| ExampleActivity.Listened | app/src/main/java/ru/ilyasekunov/videoplayerexample/MainActivity.kt:205-224 | Paused exactly when neither playing, loading nor ended. Ended iff the ended state. Times are non-negative, and `visible` is kept. |
| ExampleActivity.InitialPausedUntilEnded | app/src/main/java/ru/ilyasekunov/videoplayerexample/MainActivity.kt:216 | The first event changes the initial paused flag exactly for an ended engine that neither plays nor loads. |
| ExampleActivity.OnEvents | app/src/main/java/ru/ilyasekunov/videoplayerexample/MainActivity.kt:207-223 | The state object's new fields are exactly `Listened` of its old fields. |
| ExampleActivity.OnStartCommands | app/src/main/java/ru/ilyasekunov/videoplayerexample/MainActivity.kt:230-243 | Exactly the seek to the saved item and time and prepare, followed by Play exactly when not paused: no speed, no pause, nothing else. |
| ExampleActivity.MiddleCentre | app/src/main/java/ru/ilyasekunov/videoplayerexample/MainActivity.kt:603-631 | Nothing while hidden. Otherwise pause iff playing, else play iff paused, else replay iff ended, else loading iff loading; at most one of them. |
| ExampleActivity.MiddleOrdersAgree | app/src/main/java/ru/ilyasekunov/videoplayerexample/MainActivity.kt:603-631 | This order and the ui/player one agree exactly when not loading, or when loading while visible with no other flag set. |
| ExampleActivity.CentreAfterEvent | app/src/main/java/ru/ilyasekunov/videoplayerexample/MainActivity.kt:216 | After an event the centre is empty exactly when the overlay is hidden. It shows loading exactly when visible, loading, not playing and not ended. |
| ExampleActivity.PlayerWithControls.constructor | app/src/main/java/ru/ilyasekunov/videoplayerexample/MainActivity.kt:359 | Not interacting, not editing, and nothing sent. |
| ExampleActivity.PlayerWithControls.ShownCentre | app/src/main/java/ru/ilyasekunov/videoplayerexample/MainActivity.kt:502-518 | No middle row while editing; otherwise this file's `MiddleCentre`. |
| ExampleActivity.PlayerWithControls.ShownNav | app/src/main/java/ru/ilyasekunov/videoplayerexample/MainActivity.kt:595-601 | No nav buttons while editing; otherwise present iff visible with a neighbour, each enabled by its own flag. |
| ExampleActivity.PlayerWithControls.SliderValue | app/src/main/java/ru/ilyasekunov/videoplayerexample/MainActivity.kt:700-706 | The value the slider holds while the footer is shown: its own position while editing, the engine's time otherwise. |
| ExampleActivity.PlayerWithControls.EditingTimeLabel | app/src/main/java/ru/ilyasekunov/videoplayerexample/MainActivity.kt:656-681 | A label is shown exactly while the overlay, and so the footer, is visible and the user is editing. For a non-negative slider position it reads back as the slider's minutes and seconds. |
| ExampleActivity.PlayerWithControls.OnClick | app/src/main/java/ru/ilyasekunov/videoplayerexample/MainActivity.kt:380 | `visible` flips; no other field changes. |
| ExampleActivity.PlayerWithControls.OnVisibilityTimerExpired | app/src/main/java/ru/ilyasekunov/videoplayerexample/MainActivity.kt:361-366 | The overlay hides only if it was visible and nobody was interacting. |
| ExampleActivity.PlayerWithControls.OnDoubleTap | app/src/main/java/ru/ilyasekunov/videoplayerexample/MainActivity.kt:462-468 | Exactly the seek of the tapped side is sent. |
| ExampleActivity.PlayerWithControls.OnCentreClick | app/src/main/java/ru/ilyasekunov/videoplayerexample/MainActivity.kt:393-397 | Pause sends pause, play sends play, and replay seeks to 0. |
| ExampleActivity.PlayerWithControls.OnPreviousClick | app/src/main/java/ru/ilyasekunov/videoplayerexample/MainActivity.kt:395 | An enabled previous button sends seek-to-previous. |
| ExampleActivity.PlayerWithControls.OnNextClick | app/src/main/java/ru/ilyasekunov/videoplayerexample/MainActivity.kt:396 | An enabled next button sends seek-to-next. |
| ExampleActivity.PlayerWithControls.OnFooterShown | app/src/main/java/ru/ilyasekunov/videoplayerexample/MainActivity.kt:667-669 | The slider's position starts at the current time, so the slider shows the current time whether or not the user is editing. |
| ExampleActivity.PlayerWithControls.OnSliderValueChange | app/src/main/java/ru/ilyasekunov/videoplayerexample/MainActivity.kt:710-715 | The first move starts editing and interacting, so the overlay cannot auto-hide. Every move sets the slider's own position, which the slider then shows, and hides the middle row. Nothing is sent. |
| ExampleActivity.PlayerWithControls.OnSliderValueChangeFinished | app/src/main/java/ru/ilyasekunov/videoplayerexample/MainActivity.kt:401-404 | Editing and interacting stop, and a seek to the released position is sent. The timer is armed again iff the overlay is visible. |
| ExampleActivity.PlayerWithControls.PollCurrentTime | app/src/main/java/ru/ilyasekunov/videoplayerexample/MainActivity.kt:368-376 | While playing there is one round per read, each showing the read clamped at zero. When not playing there are no rounds. |

## Left out

- Compose rendering is not modelled: AnimatedVisibility transitions, sliders, bottom sheets, colours, layout, the header and the full-screen button. What the modelled composables show (middle row, nav buttons, editing-time label, blackout, settings sheets) is modelled as a function of the state instead, including the `visible` flag of the `AnimatedVisibility` around them.
- Media3/ExoPlayer is reduced to a snapshot record read at each event and a list of commands sent. Decoding, buffering, `PlayerView` and `release` are not modelled.
- Coroutine timing is not modelled: the 5 s auto-hide delay, the 200 ms animation steps and the 100 ms / 400 ms poll loops. A timer expiry and each poll round are explicit calls. The infinite poll loop runs over a finite list of position reads.
- `LaunchedEffect` restarts are not modelled. In the current seek animation, a change of direction restarts the loop with the flags where they are. `RunAnimation` assumes the direction stays fixed for the whole run.
- Android utilities are foreign calls and are left out: orientation requests, system bars, vibration on long press, `BackHandler` and `findActivity`. The `MainActivity.onCreate` entry point is left out too.
- Floating point is left out. Speeds are quarter-step integers, and `Float.toString()` in the speed labels becomes `SpeedLabel.Numeric`. The slider's positions are integers. The source passes the released position through `Float` before seeking: `toFloat()` at MainActivity.kt:717 and VideoPlayerControls.kt:672, then `toLong()` at MainActivity.kt:402 and both FoodHubVideoPlayer.kt files. That rounds positions above 2^24 ms (about 4.7 hours) to a multiple of a power of two. The model seeks to the exact position.
- Kotlin's `Long`/`Int` widths are not modelled. Times and counters are unbounded integers, with no wrap-around of `seekTime` or positions.
- `String.format` is modelled with ASCII digits only; its locale is ignored.
- The saver's string keys are an enumeration, `ControlsState.SaverKey`. `KeyName` gives the string each is written under, and `KeyNamesDistinct` shows that no two collide.
- The 14-field `VideoControlsState` modelled is the one in ui/player/VideoPlayerControls.kt. The current tree's own state class file is not part of this model. Its listener and callbacks assign the same fourteen names, so `FoodHubPlayer` uses the same class.
- The older ui/player/FoodHubVideoPlayer.kt calls `VideoPlayerControls` without the `onClick`, `onSeekForward`, `onSeekBack` and `onVideoPlaybackSpeedSelected` arguments that VideoPlayerControls.kt requires, so the two do not compose as written. Each file is modelled alone. `ExamplePlayer` models the tap and double tap on its own `VideoPlayer`, `PlayerControls` models the overlay that reports callbacks, and the two are not connected.
- The older ui/player/SeekAnimation.kt reads `PLAYER_SEEK_FORWARD_INCREMENT` and `PLAYER_SEEK_BACK_INCREMENT`. Those are private to the older ui/player/FoodHubVideoPlayer.kt, so that file does not compile as written. `ExampleSeekAnimation.SeekSeconds` uses their value, 10000, taken from `ExamplePlayer`.
- The older player's `onStop` and engine builder are line-for-line the current tree's, apart from the two equal seek constants. They are modelled once, by `FoodHubPlayer.OnStopCommands` (with `FoodHubPlayer.StopThenStartResumes`) and `FoodHubPlayer.BuildExoPlayer`. MainActivity.kt's `toMediaItems` is `Media.ToMediaItems`.
- The settings sheets of both trees share the `Settings` module. They differ only in layout: insets, scrim, and the order of label and check icon.
- PlayerControls.ControlsOverlay.OnSeekAnimationComposed: a later composition during the same animation does not re-capture the visibility. This follows the older `SeekAnimation`, whose `LaunchedEffect(Unit)` keeps the first `onFinish` it was given.
- ExampleActivity.PlayerWithControls.OnCentreClick: a click on the loading indicator is excluded by its precondition, because that widget has no click handler.
- The snapshot and lambda plumbing of `rememberSaveable` is left out. Only what the saver writes and reads is modelled.
- PlayerControls.ControlsOverlay.PlaySeekAnimation: assumes the animation's content is not recomposed while it fades out. VideoPlayerControls.kt:445-446 writes `visible = false` in the body of the `AnimatedVisibility` content, which stays composed during its exit. If `onFinish`'s `visible = true` (VideoPlayerControls.kt:451-452) recomposed that content, the controls would be hidden again. `OnSeekAnimationComposed` requires the animation to be playing, so the model never runs that write after `isPlaying` is false.
