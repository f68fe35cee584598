/**
  The settings sheet: a bottom sheet with one selector (playback speed) that
  opens a second sheet listing the available speeds. Which sheet is open is
  the nullable `currentSettingSelected`, here an Option. The two trees'
  VideoPlayerSettings.kt files share this logic line for line; they differ
  only in layout (insets, scrim, where the check icon sits).
 */
module Settings {
  import opened Engine

  /** 1x and 2x, in quarter steps. */
  const DefaultSpeed: Speed := 4
  const MaxSpeed: Speed := 8

  predicate StrictlyAscending(s: seq<Speed>) {
    forall i, j :: 0 <= i < j < |s| ==> s[i] < s[j]
  }

  /** 0.25x, 0.5x, 0.75x, 1x, 1.25x, 1.5x, 1.75x, 2x. */
  function AvailablePlaybackSpeedValues(): (speeds: seq<Speed>)
    ensures |speeds| == 8
    ensures StrictlyAscending(speeds)
    ensures speeds[3] == DefaultSpeed
    ensures speeds[|speeds| - 1] == MaxSpeed
    ensures forall i :: 0 <= i < |speeds| ==> 0 < speeds[i] <= MaxSpeed
  {
    [1, 2, 3, DefaultSpeed, 5, 6, 7, MaxSpeed]
  }

  /** Strictly ascending values are pairwise distinct. */
  lemma AscendingDistinct(s: seq<Speed>)
    requires StrictlyAscending(s)
    ensures forall i, j :: 0 <= i < |s| && 0 <= j < |s| && s[i] == s[j] ==> i == j
  {
  }

  /** What a speed entry or the selector shows: the default speed's name, or the number. */
  datatype SpeedLabel = DefaultSpeedName | Numeric(speed: Speed)

  function Label(speed: Speed): (l: SpeedLabel)
    ensures l == DefaultSpeedName <==> speed == DefaultSpeed
    ensures l.Numeric? ==> l.speed == speed
  {
    if speed == DefaultSpeed then DefaultSpeedName else Numeric(speed)
  }

  /** The labels of the speed list, one per entry in the same order. */
  function SpeedListLabels(): (labels: seq<SpeedLabel>)
    ensures |labels| == |AvailablePlaybackSpeedValues()|
    ensures forall i :: 0 <= i < |labels| ==> labels[i] == Label(AvailablePlaybackSpeedValues()[i])
    ensures forall i :: 0 <= i < |labels| ==> (labels[i] == DefaultSpeedName <==> i == 3)
  {
    var speeds := AvailablePlaybackSpeedValues();
    AscendingDistinct(speeds);
    seq(|speeds|, i requires 0 <= i < |speeds| => Label(speeds[i]))
  }

  /** Which entries of the speed list carry the check mark for the current speed. */
  function CheckMarks(current: Speed): (marks: seq<bool>)
    ensures |marks| == |AvailablePlaybackSpeedValues()|
    ensures forall i :: 0 <= i < |marks| ==> (marks[i] <==> AvailablePlaybackSpeedValues()[i] == current)
  {
    var speeds := AvailablePlaybackSpeedValues();
    seq(|speeds|, i requires 0 <= i < |speeds| => speeds[i] == current)
  }

  /**
    At most one entry is checked, and exactly one when the current speed is
    in the list; none when it is not (a speed set from elsewhere).
   */
  lemma {:induction false} AtMostOneCheckMark(current: Speed)
    ensures forall i, j ::
      (0 <= i < |CheckMarks(current)| && 0 <= j < |CheckMarks(current)|
       && CheckMarks(current)[i] && CheckMarks(current)[j]) ==> i == j
    ensures (exists i :: 0 <= i < |CheckMarks(current)| && CheckMarks(current)[i])
      <==> current in AvailablePlaybackSpeedValues()
  {
    var speeds := AvailablePlaybackSpeedValues();
    AscendingDistinct(speeds);
    if current in speeds {
      var k :| 0 <= k < |speeds| && speeds[k] == current;
      assert CheckMarks(current)[k];
    }
  }

  datatype AvailableSettings = PlaybackSpeed

  /** The state of the settings sheet inside one `VideoPlayerSettings` composition. */
  class SettingsSheet {
    var currentSettingSelected: Option<AvailableSettings>

    constructor ()
      ensures currentSettingSelected == None
    {
      currentSettingSelected := None;
    }

    /** The main sheet (the selector list) is open exactly when asked to be and no setting is selected. */
    function MainSheetShown(visible: bool): (shown: bool)
      reads this
      ensures shown <==> visible && currentSettingSelected == None
    {
      visible && currentSettingSelected.None?
    }

    /** The speed sheet is open exactly when the speed setting is selected, whatever `visible` says. */
    function SpeedSheetShown(): (shown: bool)
      reads this
      ensures shown <==> currentSettingSelected == Some(PlaybackSpeed)
    {
      currentSettingSelected.Some? && currentSettingSelected.value.PlaybackSpeed?
    }

    /** A click on the speed selector: the main sheet closes and the speed sheet opens. */
    method OnSpeedSelectorClick()
      modifies this
      ensures currentSettingSelected == Some(PlaybackSpeed)
      ensures forall visible :: !MainSheetShown(visible)
      ensures SpeedSheetShown()
    {
      currentSettingSelected := Some(PlaybackSpeed);
    }

    /**
      A click on a speed entry: that very speed is reported to the caller and
      the sheet goes back to no setting selected.
     */
    method OnSpeedChosen(speed: Speed) returns (reported: Speed)
      requires SpeedSheetShown()
      modifies this
      ensures reported == speed
      ensures currentSettingSelected == None && !SpeedSheetShown()
    {
      reported := speed;
      currentSettingSelected := None;
    }

    /** Dismissing the speed sheet resets the selection and reports the dismissal (`onDismiss`). */
    method OnSpeedSheetDismiss() returns (dismissReported: bool)
      requires SpeedSheetShown()
      modifies this
      ensures dismissReported
      ensures currentSettingSelected == None
    {
      currentSettingSelected := None;
      dismissReported := true;
    }
  }
}
