/**
  The seek animation of the videoplayerexample tree: a single pass over the
  three triangle flags, written out step by step, and then `onFinish`.
 */
module ExampleSeekAnimation {
  import opened TriangleFlags
  import ExamplePlayer

  /**
    The `LaunchedEffect(Unit)` body of `SeekAnimation`: the flags shown after
    each of its five steps, starting from three cleared flags, are exactly
    one pass, and `onFinish` is called once, after the last step.
   */
  method RunSeekAnimation(isForward: bool) returns (trace: seq<Triangles>, finishCalls: nat)
    ensures trace == Pass(AllClear, isForward)
    ensures Cleared(trace[|trace| - 1])
    ensures finishCalls == 1
  {
    var isFirstTriangleVisible, isSecondTriangleVisible, isThirdTriangleVisible := false, false, false;
    trace := [];
    finishCalls := 0;

    if isForward {
      isFirstTriangleVisible := true;
    } else {
      isThirdTriangleVisible := true;
    }
    trace := trace + [Triangles(isFirstTriangleVisible, isSecondTriangleVisible, isThirdTriangleVisible)];

    isSecondTriangleVisible := true;
    trace := trace + [Triangles(isFirstTriangleVisible, isSecondTriangleVisible, isThirdTriangleVisible)];

    if isForward {
      isThirdTriangleVisible := true;
      isFirstTriangleVisible := false;
    } else {
      isFirstTriangleVisible := true;
      isThirdTriangleVisible := false;
    }
    trace := trace + [Triangles(isFirstTriangleVisible, isSecondTriangleVisible, isThirdTriangleVisible)];

    isSecondTriangleVisible := false;
    trace := trace + [Triangles(isFirstTriangleVisible, isSecondTriangleVisible, isThirdTriangleVisible)];

    if isForward {
      isThirdTriangleVisible := false;
    } else {
      isFirstTriangleVisible := false;
    }
    trace := trace + [Triangles(isFirstTriangleVisible, isSecondTriangleVisible, isThirdTriangleVisible)];

    finishCalls := finishCalls + 1;
  }

  /** The label's number of seconds: the engine's increment for that direction, in whole seconds. */
  function SeekSeconds(isForward: bool): (seconds: int)
    ensures isForward ==> seconds * 1000 == ExamplePlayer.PLAYER_SEEK_FORWARD_INCREMENT
    ensures !isForward ==> seconds * 1000 == ExamplePlayer.PLAYER_SEEK_BACK_INCREMENT
    ensures seconds == 10
  {
    if isForward then ExamplePlayer.PLAYER_SEEK_FORWARD_INCREMENT / 1000
    else ExamplePlayer.PLAYER_SEEK_BACK_INCREMENT / 1000
  }
}
