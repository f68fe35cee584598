/**
  `VideoControlsState`: the fourteen observable values the player overlay
  draws from, each a mutable field; its `Saver`, which flattens them into a
  map from names to saveable values and back; and the state a fresh player
  widget starts from. The class of the ui/player files is the one modelled;
  the foodhubvideoplayer tree's listener assigns the same fourteen fields.
 */
module ControlsState {
  import opened Engine
  import Settings

  /** The fourteen values, as one value (the abstraction of the class below). */
  datatype ControlsFields = ControlsFields(
    visible: bool,
    isPlaying: bool,
    isPaused: bool,
    isLoading: bool,
    isEnded: bool,
    playbackState: int,
    title: string,
    currentTimeMs: int,
    totalDurationMs: int,
    bufferedPercentage: int,
    hasPreviousMediaItem: bool,
    hasNextMediaItem: bool,
    currentMediaItemIndex: int,
    speed: Speed
  )

  class VideoControlsState {
    var visible: bool
    var isPlaying: bool
    var isPaused: bool
    var isLoading: bool
    var isEnded: bool
    var playbackState: int
    var title: string
    var currentTimeMs: int
    var totalDurationMs: int
    var bufferedPercentage: int
    var hasPreviousMediaItem: bool
    var hasNextMediaItem: bool
    var currentMediaItemIndex: int
    var speed: Speed

    /** The current values of all fourteen fields. */
    function Fields(): ControlsFields
      reads this
    {
      ControlsFields(visible, isPlaying, isPaused, isLoading, isEnded, playbackState, title,
        currentTimeMs, totalDurationMs, bufferedPercentage, hasPreviousMediaItem,
        hasNextMediaItem, currentMediaItemIndex, speed)
    }

    /** The primary constructor, every argument given. */
    constructor (f: ControlsFields)
      ensures Fields() == f
    {
      visible := f.visible;
      isPlaying := f.isPlaying;
      isPaused := f.isPaused;
      isLoading := f.isLoading;
      isEnded := f.isEnded;
      playbackState := f.playbackState;
      title := f.title;
      currentTimeMs := f.currentTimeMs;
      totalDurationMs := f.totalDurationMs;
      bufferedPercentage := f.bufferedPercentage;
      hasPreviousMediaItem := f.hasPreviousMediaItem;
      hasNextMediaItem := f.hasNextMediaItem;
      currentMediaItemIndex := f.currentMediaItemIndex;
      speed := f.speed;
    }
  }

  /**
    A value the state saver can store. Kotlin's casts on restore tell Int
    from Long, so the two are kept apart even though both are integers here.
   */
  datatype Saveable =
    | BoolValue(b: bool)
    | IntValue(i: int)
    | LongValue(l: int)
    | StringValue(s: string)
    | FloatValue(f: Speed)

  /** The names the saver writes, one per field. */
  datatype SaverKey =
    | VisibleKey | IsPlayingKey | IsPausedKey | IsLoadingKey | IsEndedKey | PlaybackStateKey
    | TitleKey | CurrentTimeMsKey | TotalDurationMsKey | BufferedPercentageKey
    | HasPreviousMediaItemKey | HasNextMediaItemKey | CurrentMediaItemIndexKey | SpeedKey

  /** The string each name is written as in the saved bundle. */
  function KeyName(k: SaverKey): string {
    match k
    case VisibleKey => "visible"
    case IsPlayingKey => "isPlaying"
    case IsPausedKey => "isPaused"
    case IsLoadingKey => "isLoading"
    case IsEndedKey => "isEnded"
    case PlaybackStateKey => "playbackState"
    case TitleKey => "title"
    case CurrentTimeMsKey => "currentTimeMs"
    case TotalDurationMsKey => "totalDurationMs"
    case BufferedPercentageKey => "bufferedPercentage"
    case HasPreviousMediaItemKey => "hasPreviousMediaItem"
    case HasNextMediaItemKey => "hasNextMediaItem"
    case CurrentMediaItemIndexKey => "currentMediaItemIndex"
    case SpeedKey => "speed"
  }

  /** No two fields are saved under the same string, so no field overwrites another. */
  lemma KeyNamesDistinct(k1: SaverKey, k2: SaverKey)
    ensures KeyName(k1) == KeyName(k2) ==> k1 == k2
  {
  }

  function AllKeys(): set<SaverKey> {
    {VisibleKey, IsPlayingKey, IsPausedKey, IsLoadingKey, IsEndedKey, PlaybackStateKey,
     TitleKey, CurrentTimeMsKey, TotalDurationMsKey, BufferedPercentageKey,
     HasPreviousMediaItemKey, HasNextMediaItemKey, CurrentMediaItemIndexKey, SpeedKey}
  }

  type SavedMap = map<SaverKey, Saveable>

  /**
    The saver's `save`: every field under its own name, as a value of its own
    Kotlin type, so that `restore` gives back exactly the state saved.
   */
  function Save(f: ControlsFields): (m: SavedMap)
    ensures m.Keys == AllKeys()
    ensures Restore(m) == Some(f)
  {
    map[
      VisibleKey := BoolValue(f.visible),
      IsPlayingKey := BoolValue(f.isPlaying),
      IsPausedKey := BoolValue(f.isPaused),
      IsLoadingKey := BoolValue(f.isLoading),
      IsEndedKey := BoolValue(f.isEnded),
      PlaybackStateKey := IntValue(f.playbackState),
      TitleKey := StringValue(f.title),
      CurrentTimeMsKey := LongValue(f.currentTimeMs),
      TotalDurationMsKey := LongValue(f.totalDurationMs),
      BufferedPercentageKey := IntValue(f.bufferedPercentage),
      HasPreviousMediaItemKey := BoolValue(f.hasPreviousMediaItem),
      HasNextMediaItemKey := BoolValue(f.hasNextMediaItem),
      CurrentMediaItemIndexKey := IntValue(f.currentMediaItemIndex),
      SpeedKey := FloatValue(f.speed)
    ]
  }

  predicate HasBool(m: SavedMap, k: SaverKey) { k in m && m[k].BoolValue? }
  predicate HasInt(m: SavedMap, k: SaverKey) { k in m && m[k].IntValue? }
  predicate HasLong(m: SavedMap, k: SaverKey) { k in m && m[k].LongValue? }
  predicate HasString(m: SavedMap, k: SaverKey) { k in m && m[k].StringValue? }
  predicate HasFloat(m: SavedMap, k: SaverKey) { k in m && m[k].FloatValue? }

  /** Every cast of the saver's `restore` succeeds on m: each name is there with the type `save` wrote. */
  predicate Restorable(m: SavedMap) {
    HasBool(m, VisibleKey) && HasBool(m, IsPlayingKey) && HasBool(m, IsPausedKey)
    && HasBool(m, IsLoadingKey) && HasBool(m, IsEndedKey) && HasInt(m, PlaybackStateKey)
    && HasString(m, TitleKey) && HasLong(m, CurrentTimeMsKey) && HasLong(m, TotalDurationMsKey)
    && HasInt(m, BufferedPercentageKey) && HasBool(m, HasPreviousMediaItemKey)
    && HasBool(m, HasNextMediaItemKey) && HasInt(m, CurrentMediaItemIndexKey) && HasFloat(m, SpeedKey)
  }

  /**
    The saver's `restore`. A missing name or a value of another type makes a
    Kotlin cast throw; that is None here.
   */
  function Restore(m: SavedMap): (r: Option<ControlsFields>)
    ensures r.Some? <==> Restorable(m)
  {
    if Restorable(m) then
      Some(ControlsFields(
        m[VisibleKey].b, m[IsPlayingKey].b, m[IsPausedKey].b, m[IsLoadingKey].b, m[IsEndedKey].b,
        m[PlaybackStateKey].i, m[TitleKey].s, m[CurrentTimeMsKey].l, m[TotalDurationMsKey].l,
        m[BufferedPercentageKey].i, m[HasPreviousMediaItemKey].b, m[HasNextMediaItemKey].b,
        m[CurrentMediaItemIndexKey].i, m[SpeedKey].f))
    else None
  }

  /**
    The other direction of the round trip: a saved map with exactly the
    saver's names that restores at all is what saving the restored state writes.
   */
  lemma SaveOfRestore(m: SavedMap)
    requires m.Keys == AllKeys() && Restorable(m)
    ensures Save(Restore(m).value) == m
  {
  }

  /**
    The state of a fresh widget (`rememberVideoControlsState` with nothing
    saved). Paused means neither playing nor loading; times are clamped at
    zero; the title of an item without one is "null". Everything else keeps
    its default: hidden, not ended, item 0, speed 1x, whatever the engine says.
   */
  function InitialFields(e: Snapshot): (f: ControlsFields)
    ensures f.isPaused <==> !e.isPlaying && !e.isLoading
    ensures f.isPlaying == e.isPlaying && f.isLoading == e.isLoading && f.playbackState == e.playbackState
    ensures f.currentTimeMs >= 0 && f.totalDurationMs >= 0
    ensures e.contentPosition >= 0 ==> f.currentTimeMs == e.contentPosition
    ensures e.contentDuration >= 0 ==> f.totalDurationMs == e.contentDuration
    ensures f.title == TitleText(e.displayTitle)
    ensures f.hasPreviousMediaItem == e.hasPreviousMediaItem && f.hasNextMediaItem == e.hasNextMediaItem
    ensures f.bufferedPercentage == e.bufferedPercentage
    ensures !f.visible && !f.isEnded && f.currentMediaItemIndex == 0 && f.speed == Settings.DefaultSpeed
  {
    ControlsFields(
      visible := false,
      isPlaying := e.isPlaying,
      isPaused := !e.isPlaying && !e.isLoading,
      isLoading := e.isLoading,
      isEnded := false,
      playbackState := e.playbackState,
      title := TitleText(e.displayTitle),
      currentTimeMs := CoerceAtLeastZero(e.contentPosition),
      totalDurationMs := CoerceAtLeastZero(e.contentDuration),
      bufferedPercentage := e.bufferedPercentage,
      hasPreviousMediaItem := e.hasPreviousMediaItem,
      hasNextMediaItem := e.hasNextMediaItem,
      currentMediaItemIndex := 0,
      speed := Settings.DefaultSpeed)
  }

  /**
    `rememberSaveable(player, saver)`: a saved map, when there is one, wins
    over the engine's snapshot; None when that map does not restore.
   */
  function RememberedFields(e: Snapshot, saved: Option<SavedMap>): (r: Option<ControlsFields>)
    ensures saved.None? ==> r == Some(InitialFields(e))
    ensures saved.Some? ==> r == Restore(saved.value)
  {
    if saved.Some? then Restore(saved.value) else Some(InitialFields(e))
  }

  /** Creates the widget's state object from what `RememberedFields` yields. */
  method RememberVideoControlsState(e: Snapshot, saved: Option<SavedMap>) returns (s: Option<VideoControlsState>)
    ensures s.Some? <==> RememberedFields(e, saved).Some?
    ensures s.Some? ==> fresh(s.value) && s.value.Fields() == RememberedFields(e, saved).value
  {
    var f := RememberedFields(e, saved);
    if f.Some? {
      var state := new VideoControlsState(f.value);
      s := Some(state);
    } else {
      s := None;
    }
  }
}
