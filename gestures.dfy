/**
  The double-tap rule shared by the videoplayerexample files: a double tap
  whose x offset lies beyond half the width (integer half, the width being
  whole pixels) is on the right side and seeks forward; anything else is on
  the left side and seeks back.
 */
module Gestures {
  import opened Engine

  datatype Side = Left | Right

  /** `offset.x > size.width / 2`, with Kotlin's Int division of the width. */
  function DoubleTapSide(x: real, width: nat): (side: Side)
    ensures side == Right <==> x > (width / 2) as real
    ensures width % 2 == 0 ==> (side == Right <==> 2.0 * x > width as real)
    ensures x <= 0.0 ==> side == Left
    ensures x >= width as real && width > 0 ==> side == Right
  {
    if x > (width / 2) as real then Right else Left
  }

  /** Moving the tap further right never moves it from the right side to the left. */
  lemma {:induction false} DoubleTapSideMonotone(x: real, y: real, width: nat)
    requires x <= y
    ensures DoubleTapSide(x, width) == Right ==> DoubleTapSide(y, width) == Right
  {
    if DoubleTapSide(x, width) == Right {
      assert x > (width / 2) as real;
    }
  }

  /** The engine command a double tap on a side asks for. */
  function SeekFor(side: Side): (c: Command)
    ensures c == SeekForward <==> side == Right
    ensures c == SeekBack <==> side == Left
  {
    match side
    case Right => SeekForward
    case Left => SeekBack
  }
}
