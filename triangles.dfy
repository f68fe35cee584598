/**
  The three triangles of the seek animation. One pass of the animation is
  five assignments to the three visibility flags, separated by 200 ms pauses:
  light the leading triangle, light the middle one, move the light from the
  leading to the trailing end, dim the middle one, dim the trailing one.
  Forward the leading triangle is the first, backward it is the third. Both
  source trees run this same pass: the older tree once, the current tree in a
  loop.
 */
module TriangleFlags {

  datatype Triangles = Triangles(first: bool, second: bool, third: bool)

  /** The state before the first pass: `remember { mutableStateOf(false) }` three times. */
  const AllClear: Triangles := Triangles(false, false, false)

  predicate Cleared(t: Triangles) {
    !t.first && !t.second && !t.third
  }

  /** The same flags seen from the other side: first and third swap. */
  function Mirror(t: Triangles): Triangles {
    Triangles(t.third, t.second, t.first)
  }

  function LightLeading(t: Triangles, forward: bool): Triangles {
    if forward then t.(first := true) else t.(third := true)
  }

  function LightMiddle(t: Triangles): Triangles {
    t.(second := true)
  }

  function SwitchEnds(t: Triangles, forward: bool): Triangles {
    if forward then t.(third := true, first := false) else t.(first := true, third := false)
  }

  function DimMiddle(t: Triangles): Triangles {
    t.(second := false)
  }

  function DimTrailing(t: Triangles, forward: bool): Triangles {
    if forward then t.(third := false) else t.(first := false)
  }

  /**
    The flags after each of the five steps of one pass that starts from t.
    Whatever t was, the leading triangle is lit after the first step, the
    middle one after the second and third, the light has moved to the
    trailing end after the third, and the pass ends with every flag cleared.
   */
  function Pass(t: Triangles, forward: bool): (trace: seq<Triangles>)
    ensures |trace| == 5
    ensures forward ==> trace[0].first
    ensures !forward ==> trace[0].third
    ensures trace[1].second && trace[2].second
    ensures forward ==> trace[2].third && !trace[2].first
    ensures !forward ==> trace[2].first && !trace[2].third
    ensures !trace[3].second
    ensures Cleared(trace[4])
  {
    var t1 := LightLeading(t, forward);
    var t2 := LightMiddle(t1);
    var t3 := SwitchEnds(t2, forward);
    var t4 := DimMiddle(t3);
    var t5 := DimTrailing(t4, forward);
    [t1, t2, t3, t4, t5]
  }

  /** The backward pass is the forward pass seen in a mirror. */
  lemma PassMirror(t: Triangles, forward: bool)
    ensures forall k :: 0 <= k < 5 ==> Pass(Mirror(t), !forward)[k] == Mirror(Pass(t, forward)[k])
  {
  }

  /** The flags after n passes that start from t. */
  function End(t: Triangles, forward: bool, n: nat): (e: Triangles)
    ensures n > 0 ==> Cleared(e)
    ensures n == 0 ==> e == t
  {
    if n == 0 then t else Pass(End(t, forward, n - 1), forward)[4]
  }

  /** Every flag value shown during n passes that start from t, in order. */
  function Passes(t: Triangles, forward: bool, n: nat): (trace: seq<Triangles>)
    ensures |trace| == 5 * n
    ensures n > 0 ==> trace[|trace| - 1] == End(t, forward, n)
  {
    if n == 0 then [] else Passes(t, forward, n - 1) + Pass(End(t, forward, n - 1), forward)
  }

  /**
    Every pass but the first starts from all flags cleared, so from the
    second pass on the animation repeats the pass that starts from AllClear.
   */
  lemma {:induction false} PassesRepeat(t: Triangles, forward: bool, n: nat, k: nat)
    requires 1 <= k < n
    ensures Passes(t, forward, n)[5 * k..5 * k + 5] == Pass(AllClear, forward)
  {
    var prev := Passes(t, forward, n - 1);
    assert Passes(t, forward, n) == prev + Pass(End(t, forward, n - 1), forward);
    if k == n - 1 {
      assert End(t, forward, n - 1) == AllClear;
      assert Passes(t, forward, n)[5 * k..5 * k + 5] == Pass(End(t, forward, n - 1), forward);
    } else {
      PassesRepeat(t, forward, n - 1, k);
      assert Passes(t, forward, n)[5 * k..5 * k + 5] == prev[5 * k..5 * k + 5];
    }
  }
}
