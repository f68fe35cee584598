/**
  The seek animation of the foodhubvideoplayer tree. `SeekAnimationUiState`
  holds whether the animation is shown, its direction, the seek time its
  label shows and a pass counter that never exceeds one: starting the
  animation or adding seek time requests one more pass, and the animation
  loop consumes the request before each pass. Taps that arrive during a pass
  therefore extend the animation by exactly one more pass.
 */
module SeekAnimationState {
  import opened TriangleFlags
  import FoodHubPlayer
  import TimeFormat

  class SeekAnimationUiState {
    var isPlaying: bool
    var isForward: bool
    var seekTime: int
    var iterations: nat

    /** The counter is only ever raised from 0 to 1, so it stays 0 or 1. */
    predicate Valid()
      reads this
    {
      iterations <= 1
    }

    constructor (isPlaying: bool, isForward: bool, seekTime: int)
      ensures this.isPlaying == isPlaying && this.isForward == isForward && this.seekTime == seekTime
      ensures iterations == 0 && Valid()
    {
      this.isPlaying := isPlaying;
      this.isForward := isForward;
      this.seekTime := seekTime;
      iterations := 0;
    }

    /** Requests one more pass; a pending request is not doubled. */
    method IncrementIterations()
      modifies this
      ensures iterations == (if old(iterations) == 0 then 1 else old(iterations))
      ensures iterations >= 1
      ensures old(Valid()) ==> Valid()
      ensures isPlaying == old(isPlaying) && isForward == old(isForward) && seekTime == old(seekTime)
    {
      if iterations == 0 {
        iterations := iterations + 1;
      }
    }

    /** Adds exactly `time` to the label's seek time and requests one more pass. */
    method IncreaseSeekTimeBy(time: int)
      modifies this
      ensures seekTime == old(seekTime) + time
      ensures iterations == (if old(iterations) == 0 then 1 else old(iterations))
      ensures iterations >= 1
      ensures old(Valid()) ==> Valid()
      ensures isPlaying == old(isPlaying) && isForward == old(isForward)
    {
      IncrementIterations();
      seekTime := seekTime + time;
    }

    /** Shows the animation in the given direction with one seek increment on its label. */
    method StartAnimation(isForward: bool)
      modifies this
      ensures isPlaying && this.isForward == isForward
      ensures seekTime == FoodHubPlayer.PLAYER_SEEK_INCREMENT
      ensures iterations == (if old(iterations) == 0 then 1 else old(iterations))
      ensures iterations >= 1
      ensures old(Valid()) ==> Valid()
    {
      IncrementIterations();
      isPlaying := true;
      this.isForward := isForward;
      seekTime := FoodHubPlayer.PLAYER_SEEK_INCREMENT;
    }

    /** Hides the animation and drops any pending pass; direction and seek time stay. */
    method StopAnimation()
      modifies this
      ensures !isPlaying && iterations == 0 && Valid()
      ensures isForward == old(isForward) && seekTime == old(seekTime)
    {
      isPlaying := false;
      iterations := 0;
    }

    /** Consumes a pending pass; at 0 it does nothing. */
    method DecrementIterations()
      modifies this
      ensures iterations == (if old(iterations) > 0 then old(iterations) - 1 else 0)
      ensures old(Valid()) ==> Valid()
      ensures isPlaying == old(isPlaying) && isForward == old(isForward) && seekTime == old(seekTime)
    {
      if iterations > 0 {
        iterations := iterations - 1;
      }
    }
  }

  /** `rememberSeekAnimationUiState()` with its default arguments. */
  method RememberSeekAnimationUiState() returns (s: SeekAnimationUiState)
    ensures fresh(s)
    ensures !s.isPlaying && !s.isForward && s.seekTime == FoodHubPlayer.PLAYER_SEEK_INCREMENT
    ensures s.iterations == 0 && s.Valid()
  {
    s := new SeekAnimationUiState(false, false, FoodHubPlayer.PLAYER_SEEK_INCREMENT);
  }

  /**
    The seek time the user adds with each tap during pass k of one run of the
    animation loop (the calls of `increaseSeekTimeBy` made by the caller while
    that pass plays); a run that goes on beyond the given passes gets no taps.
   */
  function TapsDuring(taps: seq<seq<int>>, k: nat): (ts: seq<int>)
    ensures k >= |taps| ==> ts == []
  {
    if k < |taps| then taps[k] else []
  }

  /**
    n passes is how long the loop runs from a counter of it0: none if nothing
    was requested, otherwise one pass and then one more after every pass
    during which there was a tap, ending after the first pass without one.
   */
  predicate IsPassCount(it0: nat, taps: seq<seq<int>>, n: nat) {
    if it0 == 0 then n == 0
    else (n >= 1
          && (forall k :: 0 <= k < n - 1 ==> TapsDuring(taps, k) != [])
          && TapsDuring(taps, n - 1) == [])
  }

  /** The number of leading passes with at least one tap. */
  function LeadingTapped(taps: seq<seq<int>>): (m: nat)
    ensures m <= |taps|
    ensures forall k :: 0 <= k < m ==> taps[k] != []
    ensures m < |taps| ==> taps[m] == []
  {
    if taps == [] || taps[0] == [] then 0 else 1 + LeadingTapped(taps[1..])
  }

  function PassCount(it0: nat, taps: seq<seq<int>>): (n: nat)
    ensures IsPassCount(it0, taps, n)
    ensures n <= |taps| + 1
    ensures it0 > 0 && TapsDuring(taps, 0) == [] ==> n == 1
  {
    if it0 == 0 then 0 else 1 + LeadingTapped(taps)
  }

  /** The pass count is determined by the counter and the taps. */
  lemma PassCountUnique(it0: nat, taps: seq<seq<int>>, n: nat, m: nat)
    requires IsPassCount(it0, taps, n) && IsPassCount(it0, taps, m)
    ensures n == m
  {
  }

  /** Without taps the loop makes exactly as many passes as were requested: one at most. */
  lemma PassCountWithoutTaps(it0: nat, taps: seq<seq<int>>)
    requires it0 <= 1
    requires forall k :: 0 <= k < |taps| ==> taps[k] == []
    ensures PassCount(it0, taps) == it0
  {
  }

  function Sum(xs: seq<int>): int {
    if xs == [] then 0 else Sum(xs[..|xs| - 1]) + xs[|xs| - 1]
  }

  function TotalOf(taps: seq<seq<int>>): int {
    if taps == [] then 0 else TotalOf(taps[..|taps| - 1]) + Sum(taps[|taps| - 1])
  }

  /** All seek time added during the first n passes. */
  function TapTotal(taps: seq<seq<int>>, n: nat): int {
    TotalOf(taps[..if n < |taps| then n else |taps|])
  }

  lemma SumStep(xs: seq<int>, j: nat)
    requires j < |xs|
    ensures Sum(xs[..j + 1]) == Sum(xs[..j]) + xs[j]
  {
    assert xs[..j + 1][..j] == xs[..j];
  }

  lemma TapTotalStep(taps: seq<seq<int>>, p: nat)
    ensures TapTotal(taps, p + 1) == TapTotal(taps, p) + Sum(TapsDuring(taps, p))
  {
    if p < |taps| {
      assert taps[..p + 1][..p] == taps[..p];
    }
  }

  /** What the animation reports to its caller, in order. */
  datatype AnimationCallback = Started | Finished

  /**
    One run of the `LaunchedEffect` body in `SeekAnimation`, from a counter
    of 0 or 1: `onStart`, then the passes, each consuming the pending request
    first, then `onFinish`. The flags shown are exactly those of PassCount
    passes from all cleared, the label gains every tap made during them, and
    the run leaves nothing pending. Without taps it is one pass at most.
   */
  method RunAnimation(s: SeekAnimationUiState, taps: seq<seq<int>>)
    returns (trace: seq<Triangles>, passes: nat, callbacks: seq<AnimationCallback>)
    requires s.Valid()
    modifies s
    ensures callbacks == [Started, Finished]
    ensures passes == PassCount(old(s.iterations), taps)
    ensures trace == Passes(AllClear, s.isForward, passes)
    ensures passes > 0 ==> Cleared(trace[|trace| - 1])
    ensures s.iterations == 0 && s.Valid()
    ensures s.seekTime == old(s.seekTime) + TapTotal(taps, passes)
    ensures s.isPlaying == old(s.isPlaying) && s.isForward == old(s.isForward)
  {
    callbacks := [Started];
    var flags := AllClear;
    trace := [];
    passes := 0;
    while s.iterations > 0
      invariant s.Valid()
      invariant s.isPlaying == old(s.isPlaying) && s.isForward == old(s.isForward)
      invariant passes <= |taps| + 1
      invariant old(s.iterations) == 0 ==> passes == 0
      invariant passes == 0 ==> s.iterations == old(s.iterations)
      invariant passes > 0 ==> (s.iterations == 1 <==> TapsDuring(taps, passes - 1) != [])
      invariant forall k :: 0 <= k < passes - 1 ==> TapsDuring(taps, k) != []
      invariant trace == Passes(AllClear, s.isForward, passes)
      invariant flags == End(AllClear, s.isForward, passes)
      invariant s.seekTime == old(s.seekTime) + TapTotal(taps, passes)
      decreases |taps| + 1 - passes
    {
      s.DecrementIterations();
      var pass := Pass(flags, s.isForward);
      var ts := TapsDuring(taps, passes);
      var before := s.seekTime;
      var j := 0;
      while j < |ts|
        invariant 0 <= j <= |ts|
        invariant s.Valid()
        invariant s.isPlaying == old(s.isPlaying) && s.isForward == old(s.isForward)
        invariant s.iterations == (if j > 0 then 1 else 0)
        invariant s.seekTime == before + Sum(ts[..j])
      {
        SumStep(ts, j);
        s.IncreaseSeekTimeBy(ts[j]);
        j := j + 1;
      }
      assert ts[..|ts|] == ts;
      TapTotalStep(taps, passes);
      trace := trace + pass;
      flags := pass[4];
      passes := passes + 1;
    }
    PassCountUnique(old(s.iterations), taps, passes, PassCount(old(s.iterations), taps));
    callbacks := callbacks + [Finished];
  }

  /** The label's number: `seekTimeMs / 1000`, truncated toward zero. */
  function SeekLabelSeconds(seekTimeMs: int): (seconds: int)
    ensures seekTimeMs >= 0 ==> seconds * 1000 <= seekTimeMs < (seconds + 1) * 1000
    ensures seekTimeMs < 0 ==> (seconds - 1) * 1000 < seekTimeMs <= seconds * 1000
    ensures TimeFormat.KotlinDiv(-seekTimeMs, 1000) == -seconds
  {
    TimeFormat.KotlinDiv(seekTimeMs, 1000)
  }
}
