/**
  The media engine as the player widget sees it: a snapshot of the values the
  widget reads from the engine when it is notified of an event, and the
  commands the widget sends back. Decoding, buffering and timing stay inside
  the engine and are not modelled.
 */
module Engine {

  datatype Option<+T> = None | Some(value: T)

  /** A playback speed in quarter steps: 1 is 0.25x, 4 is 1x, 8 is 2x. */
  type Speed = int

  /** The engine's playback states. */
  const STATE_IDLE: int := 1
  const STATE_BUFFERING: int := 2
  const STATE_READY: int := 3
  const STATE_ENDED: int := 4

  /** What a listener or a poller reads from the engine at one moment. */
  datatype Snapshot = Snapshot(
    isPlaying: bool,
    isLoading: bool,
    playbackState: int,
    hasPreviousMediaItem: bool,
    hasNextMediaItem: bool,
    contentDuration: int,
    contentPosition: int,
    bufferedPercentage: int,
    displayTitle: Option<string>,
    currentMediaItemIndex: int,
    speed: Speed
  )

  /** The calls the widget makes on the engine. */
  datatype Command =
    | SeekToItem(index: int, positionMs: int)
    | SeekToPosition(positionMs: int)
    | SeekForward
    | SeekBack
    | SeekToPrevious
    | SeekToNext
    | SetPlaybackSpeed(speed: Speed)
    | Prepare
    | Stop
    | Play
    | Pause

  /** Kotlin's `coerceAtLeast(0)`: the value itself unless it is negative. */
  function CoerceAtLeastZero(x: int): (r: int)
    ensures r >= 0 && r >= x
    ensures r == x || (x < 0 && r == 0)
  {
    if x < 0 then 0 else x
  }

  /**
    `displayTitle.toString()` on a nullable value: a missing title turns into
    the four letters "null".
   */
  function TitleText(t: Option<string>): (r: string)
    ensures t.Some? ==> r == t.value
    ensures t.None? ==> r == "null"
  {
    match t
    case Some(s) => s
    case None => "null"
  }
}
