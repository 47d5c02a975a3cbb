/**
 * `formatTime`: a time in milliseconds rendered as the clock label "m:ss"
 * through `String.format("%d:%02d", minutes, seconds)`, where minutes and
 * seconds come from `TimeUnit.MILLISECONDS.toMinutes` / `toSeconds`.
 * Those conversions divide with Java's truncating division. Minutes are not
 * padded and never wrap at 60; there is no hours field.
 *
 * `ParseTime` reads a label back; the two round-trip lemmas show that on
 * non-negative times the label is exactly the canonical "m:ss" form of the
 * whole seconds elapsed.
 */
module TimeFormat {
  import opened Wrappers
  import opened JavaInt

  const MillisPerSecond: int := 1000
  const MillisPerMinute: int := 60000

  predicate IsDigit(c: char) {
    '0' <= c <= '9'
  }

  function DigitValue(c: char): (d: nat)
    requires IsDigit(c)
    ensures d < 10
  {
    c as int - '0' as int
  }

  function Digit(d: nat): (c: char)
    requires d < 10
    ensures IsDigit(c) && DigitValue(c) == d
  {
    ('0' as int + d) as char
  }

  /** The decimal digits of `n`, most significant first, with no leading zero. */
  function Decimal(n: nat): (r: string)
    ensures |r| >= 1
    ensures forall i :: 0 <= i < |r| ==> IsDigit(r[i])
    ensures r[0] == '0' ==> n == 0
    ensures n < 10 <==> |r| == 1
    decreases n
  {
    if n < 10 then [Digit(n)] else Decimal(n / 10) + [Digit(n % 10)]
  }

  /**
   * Java's `%d`: a minus sign exactly for negative values, followed by the
   * canonical digits that denote the magnitude.
   */
  function FormatD(n: int): (r: string)
    ensures |r| >= 1 && (r[0] == '-' <==> n < 0)
    ensures 0 <= n ==> IsCanonical(r) && ParseDecimal(r) == n
    ensures n < 0 ==> IsCanonical(r[1..]) && ParseDecimal(r[1..]) == -n
  {
    if n < 0 then
      ParseDecimalOfDecimal(-n);
      var r := "-" + Decimal(-n);
      assert r[1..] == Decimal(-n);
      r
    else
      ParseDecimalOfDecimal(n);
      Decimal(n)
  }

  /**
   * Java's `%02d`: a field at least two characters wide, zero-padded after
   * the sign. Only 0..9 are short enough to be padded; "-5" already fills it.
   */
  function Format02D(n: int): (r: string)
    ensures |r| >= 2 && (r[0] == '-' <==> n < 0)
    ensures 0 <= n < 100 ==>
      |r| == 2 && IsDigit(r[0]) && IsDigit(r[1]) && DigitValue(r[0]) * 10 + DigitValue(r[1]) == n
  {
    if 0 <= n < 10 then
      "0" + Decimal(n)
    else
      assert 10 <= n < 100 ==> Decimal(n) == Decimal(n / 10) + [Digit(n % 10)];
      FormatD(n)
  }

  /**
   * The whole minutes in `ms` milliseconds (`TimeUnit.MILLISECONDS.toMinutes`),
   * rounded toward zero: below zero it is minus the minutes of `-ms`.
   */
  function Minutes(ms: int): (r: int)
    ensures 0 <= ms ==> r == ms / MillisPerMinute
    ensures ms < 0 ==> r == -((-ms) / MillisPerMinute)
  {
    Div(ms, MillisPerMinute)
  }

  /**
   * The seconds shown after the colon: whole seconds minus the minutes' worth.
   * For a non-negative time they are the seconds within the minute, and with
   * the minutes they make up the whole seconds; below zero they mirror that.
   */
  function Seconds(ms: int): (r: int)
    ensures 0 <= ms ==> 0 <= r < 60 && 60 * Minutes(ms) + r == ms / MillisPerSecond
    ensures 0 <= ms ==> r == ms / MillisPerSecond % 60
    ensures ms < 0 ==> -60 < r <= 0 && r == -((-ms) / MillisPerSecond % 60)
  {
    Div(ms, MillisPerSecond) - 60 * Minutes(ms)
  }

  /** `formatTime(milliseconds)`. For a non-negative time the label is the decimal
      minutes (unpadded, not wrapped at 60), a colon, then exactly two digits of
      the seconds within the minute. */
  function FormatTime(ms: Int32): (r: string)
    ensures 0 <= ms ==>
      r == Decimal(ms / MillisPerMinute) + ":" + [Digit(ms / MillisPerSecond % 60 / 10), Digit(ms / MillisPerSecond % 60 % 10)]
  {
    SecondsDigits(ms);
    FormatD(Minutes(ms)) + ":" + Format02D(Seconds(ms))
  }

  /** For a non-negative time the seconds field is written as its two digits. */
  lemma SecondsDigits(ms: int)
    ensures 0 <= ms ==> Format02D(Seconds(ms)) == [Digit(ms / MillisPerSecond % 60 / 10), Digit(ms / MillisPerSecond % 60 % 10)]
  {
    if 0 <= ms {
      TwoDigitSeconds(Seconds(ms));
    }
  }

  /** A string of digits with no leading zero, as `Decimal` writes them. */
  predicate IsCanonical(s: string) {
    |s| >= 1 && (forall i :: 0 <= i < |s| ==> IsDigit(s[i])) && (|s| > 1 ==> s[0] != '0')
  }

  /** The number a string of digits denotes. */
  function ParseDecimal(s: string): nat
    requires forall i :: 0 <= i < |s| ==> IsDigit(s[i])
  {
    if s == [] then 0 else ParseDecimal(s[..|s| - 1]) * 10 + DigitValue(s[|s| - 1])
  }

  /**
   * Reads a non-negative clock label back: canonical minutes, a colon, and two
   * digits below 60. The result is the total number of whole seconds.
   */
  function ParseTime(s: string): Option<nat> {
    if |s| < 4 || s[|s| - 3] != ':' then None
    else
      var m := s[..|s| - 3];
      if !IsCanonical(m) || !IsDigit(s[|s| - 2]) || !IsDigit(s[|s| - 1]) then None
      else
        var sec := DigitValue(s[|s| - 2]) * 10 + DigitValue(s[|s| - 1]);
        if sec < 60 then Some(ParseDecimal(m) * 60 + sec) else None
  }

  /** Reading the digits `Decimal` writes gives back the number. */
  lemma {:induction false} ParseDecimalOfDecimal(n: nat)
    ensures ParseDecimal(Decimal(n)) == n
    decreases n
  {
    if n >= 10 {
      var s := Decimal(n);
      assert s[..|s| - 1] == Decimal(n / 10);
      ParseDecimalOfDecimal(n / 10);
    }
  }

  lemma {:induction false} ParseDecimalPositive(s: string)
    requires IsCanonical(s) && s[0] != '0'
    ensures ParseDecimal(s) >= 1
    decreases |s|
  {
    if |s| > 1 {
      ParseDecimalPositive(s[..|s| - 1]);
    }
  }

  /** Writing the number a canonical digit string denotes gives back the string. */
  lemma {:induction false} DecimalOfParseDecimal(s: string)
    requires IsCanonical(s)
    ensures Decimal(ParseDecimal(s)) == s
    decreases |s|
  {
    if |s| > 1 {
      var p := s[..|s| - 1];
      assert IsCanonical(p) && p[0] != '0';
      ParseDecimalPositive(p);
      DecimalOfParseDecimal(p);
      var n := ParseDecimal(s);
      assert n / 10 == ParseDecimal(p) && n % 10 == DigitValue(s[|s| - 1]);
      assert s == p + [s[|s| - 1]];
    } else {
      assert Digit(DigitValue(s[0])) == s[0];
    }
  }

  /** Two digits for seconds 0..59: "%02d" pads 0..9 with a leading zero. */
  lemma TwoDigitSeconds(s: int)
    requires 0 <= s < 60
    ensures Format02D(s) == [Digit(s / 10), Digit(s % 10)]
  {
    if s >= 10 {
      assert Decimal(s) == Decimal(s / 10) + [Digit(s % 10)];
    }
  }

  /** Reading a label back gives the whole seconds of the time it was made from. */
  lemma ParseFormatTime(ms: Int32)
    requires 0 <= ms
    ensures ParseTime(FormatTime(ms)) == Some(ms / MillisPerSecond)
  {
    var m, sec := Minutes(ms), Seconds(ms);
    TwoDigitSeconds(sec);
    var text := FormatTime(ms);
    var d := Decimal(m);
    assert text == d + ":" + [Digit(sec / 10), Digit(sec % 10)];
    assert text[..|text| - 3] == d;
    ParseDecimalOfDecimal(m);
  }

  /**
   * Every label `ParseTime` accepts is the one `formatTime` writes for that
   * many whole seconds: the label format has a single spelling per time.
   */
  lemma FormatTimeOfParse(s: string, t: nat)
    requires ParseTime(s) == Some(t)
    requires t * 1000 < 0x8000_0000
    ensures FormatTime(t * 1000) == s
  {
    var m := s[..|s| - 3];
    var sec := DigitValue(s[|s| - 2]) * 10 + DigitValue(s[|s| - 1]);
    var ms := t * 1000;
    assert t == ParseDecimal(m) * 60 + sec;
    assert ms / 1000 == t;
    assert Minutes(ms) == ParseDecimal(m) && Seconds(ms) == sec;
    TwoDigitSeconds(sec);
    DecimalOfParseDecimal(m);
    assert Digit(sec / 10) == s[|s| - 2] && Digit(sec % 10) == s[|s| - 1];
    assert s == m + ":" + [s[|s| - 2], s[|s| - 1]];
  }

  /** The labels the player shows for a few times, including truncation below zero. */
  lemma FormatTimeExamples()
    ensures FormatTime(65000) == "1:05"
    ensures FormatTime(5000) == "0:05"
    ensures FormatTime(600000) == "10:00"
    ensures FormatTime(3600000) == "60:00"
    ensures FormatTime(-1) == "0:00"
    ensures FormatTime(-65000) == "-1:-5"
  {
  }
}
