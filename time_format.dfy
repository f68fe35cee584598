/**
  The elapsed-time and duration labels: a millisecond count shown as
  minutes and seconds, "MM:SS", with both fields printed by `%02d`.
  Both videoplayerexample files that format times declare the same
  `formatMillis`; the model has it once.
 */
module TimeFormat {
  import opened Engine

  /** Kotlin's `/` on Long: the quotient is truncated toward zero. */
  function KotlinDiv(a: int, b: int): (q: int)
    requires b > 0
    ensures a >= 0 ==> q == a / b
    ensures a < 0 ==> q == -((-a) / b)
  {
    if a >= 0 then a / b else -((-a) / b)
  }

  /** Kotlin's `%` on Long: the remainder takes the sign of the dividend. */
  function KotlinRem(a: int, b: int): (r: int)
    requires b > 0
    ensures a == KotlinDiv(a, b) * b + r
    ensures a >= 0 ==> 0 <= r < b
    ensures a < 0 ==> -b < r <= 0
  {
    a - KotlinDiv(a, b) * b
  }

  predicate IsDigit(c: char) {
    '0' <= c <= '9'
  }

  predicate AllDigits(s: string) {
    forall i :: 0 <= i < |s| ==> IsDigit(s[i])
  }

  function DigitChar(d: int): (c: char)
    requires 0 <= d < 10
    ensures IsDigit(c)
  {
    ('0' as int + d) as char
  }

  function DigitValue(c: char): (d: nat)
    requires IsDigit(c)
    ensures d < 10
  {
    c as int - '0' as int
  }

  /** The decimal digits of n, most significant first, no leading zeros. */
  function Decimal(n: nat): (s: string)
    ensures 1 <= |s| && AllDigits(s)
    decreases n
  {
    if n < 10 then [DigitChar(n)] else Decimal(n / 10) + [DigitChar(n % 10)]
  }

  /** The number a string of decimal digits spells. */
  function ParseDecimal(s: string): (n: nat)
    requires AllDigits(s)
    decreases |s|
  {
    if s == [] then 0 else ParseDecimal(s[..|s| - 1]) * 10 + DigitValue(s[|s| - 1])
  }

  /** Reading back the digits of n gives n. */
  lemma {:induction false} DecimalRoundTrip(n: nat)
    ensures ParseDecimal(Decimal(n)) == n
    decreases n
  {
    if n >= 10 {
      DecimalRoundTrip(n / 10);
      var s := Decimal(n);
      assert s[..|s| - 1] == Decimal(n / 10);
    }
  }

  /** `%02d`: at least two characters, zero-padded on the left. */
  function Pad2(n: int): (s: string)
    ensures n >= 0 ==> 2 <= |s| && AllDigits(s) && ParseDecimal(s) == n
    ensures n >= 0 && n < 100 ==> |s| == 2
    ensures n < 0 ==> |s| >= 2 && s[0] == '-'
  {
    DecimalRoundTrip(if n < 0 then -n else n);
    if n < 0 then "-" + Decimal(-n)
    else if n < 10 then
      var s := "0" + Decimal(n);
      assert s[..1] == "0";
      s
    else Decimal(n)
  }

  /** Two digits spell a number below 100. */
  lemma TwoDigitsBelowHundred(s: string)
    requires |s| == 2 && AllDigits(s)
    ensures ParseDecimal(s) == DigitValue(s[0]) * 10 + DigitValue(s[1])
    ensures ParseDecimal(s) < 100
  {
    assert ParseDecimal(s) == ParseDecimal(s[..1]) * 10 + DigitValue(s[1]);
    assert ParseDecimal(s[..1]) == ParseDecimal(s[..1][..0]) * 10 + DigitValue(s[0]);
    assert s[..1][..0] == [];
  }

  /**
    A clock label read back: the digits before the colon three places from
    the end are the minutes, the two after it the seconds. None when the
    text does not have that shape.
   */
  function ParseClock(s: string): (r: Option<(nat, nat)>)
    ensures r.Some? ==> r.value.1 < 100
  {
    if |s| >= 5 && s[|s| - 3] == ':' && AllDigits(s[..|s| - 3]) && AllDigits(s[|s| - 2..])
    then
      TwoDigitsBelowHundred(s[|s| - 2..]);
      Some((ParseDecimal(s[..|s| - 3]), ParseDecimal(s[|s| - 2..])))
    else None
  }

  /** Minutes of at least two digits, a colon and two digits of seconds read back as themselves. */
  lemma ClockShape(mm: string, ss: string)
    requires 2 <= |mm| && AllDigits(mm) && |ss| == 2 && AllDigits(ss)
    ensures ParseClock(mm + ":" + ss) == Some((ParseDecimal(mm), ParseDecimal(ss)))
  {
    var r := mm + ":" + ss;
    assert |r| == |mm| + 3 && r[|r| - 3] == ':';
    assert r[..|r| - 3] == mm;
    assert r[|r| - 2..] == ss;
  }

  /**
    `formatMillis`: whole seconds are ms / 1000 (truncated), minutes are
    seconds / 60 and the seconds field is seconds % 60, both through `%02d`.
   */
  function FormatMillis(ms: int): (r: string)
    ensures ms >= 0 ==> |r| >= 5 && r[|r| - 3] == ':'
    ensures 0 <= ms < 6000000 ==> |r| == 5
    ensures ms <= -60000 ==> |r| > 0 && r[0] == '-'
  {
    var seconds := KotlinDiv(ms, 1000);
    var minutes := KotlinDiv(seconds, 60);
    assert ms <= -60000 ==> seconds <= -60 && minutes < 0;
    Pad2(minutes) + ":" + Pad2(KotlinRem(seconds, 60))
  }

  /**
    For every time the player can show (ms >= 0) the label reads back as
    minutes and seconds whose total is the whole seconds elapsed, with the
    seconds field below 60.
   */
  lemma {:induction false} FormatMillisReadsBack(ms: int)
    requires ms >= 0
    ensures ParseClock(FormatMillis(ms)) == Some(((ms / 1000) / 60, (ms / 1000) % 60))
    ensures (ms / 1000) % 60 < 60
    ensures ((ms / 1000) / 60) * 60 + (ms / 1000) % 60 == ms / 1000
  {
    var seconds := ms / 1000;
    assert KotlinDiv(ms, 1000) == seconds;
    assert KotlinRem(seconds, 60) == seconds % 60;
    ClockShape(Pad2(seconds / 60), Pad2(seconds % 60));
  }

  /** The label of a time and the label of the same time plus less than a second agree. */
  lemma {:induction false} FormatMillisIgnoresSubSecond(ms: nat, extra: nat)
    requires ms % 1000 == 0 && extra < 1000
    ensures FormatMillis(ms + extra) == FormatMillis(ms)
  {
    assert (ms + extra) / 1000 == ms / 1000;
  }
}
