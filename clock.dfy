/** The elapsed-time display of the recording screen: Kotlin's `Long`
    division and remainder, the split of elapsed milliseconds into hours,
    minutes and seconds, and the `%02d:%02d:%02d` text that `updateTimer`
    writes into the timer label. */
module Clock {

  datatype Option<T> = None | Some(value: T)

  /** Kotlin's `/` on `Long`: the quotient truncated toward zero (Dafny's own
      `/` is Euclidean and differs for a negative dividend). */
  function Quot(a: int, d: int): int
    requires d > 0
  {
    if a >= 0 then a / d else -((-a) / d)
  }

  /** Kotlin's `%` on `Long`: the remainder takes the sign of the dividend. */
  function Rem(a: int, d: int): int
    requires d > 0
  {
    if a >= 0 then a % d else -((-a) % d)
  }

  /** Truncated division rounds toward zero: quotient and remainder make up
      the dividend, both take its sign, and the remainder is smaller than the
      divisor in magnitude. */
  lemma QuotRem(a: int, d: int)
    requires d == 60 || d == 1000
    ensures a == Quot(a, d) * d + Rem(a, d)
    ensures a >= 0 ==> 0 <= Quot(a, d) && 0 <= Rem(a, d) < d
    ensures a < 0 ==> Quot(a, d) <= 0 && -d < Rem(a, d) <= 0
  {
    var x: nat := if a >= 0 then a else -a;
    if d == 60 {
      assert x == (x / 60) * 60 + x % 60;
    } else {
      assert x == (x / 1000) * 1000 + x % 1000;
    }
  }

  /** Truncating division by 1000 and then by `d` is truncating division by `1000 * d`. */
  lemma {:induction false} QuotThousand(a: int, d: int)
    requires d == 60 || d == 3600
    ensures Quot(Quot(a, 1000), d) == Quot(a, 1000 * d)
  {
    var x := if a >= 0 then a else -a;
    var q := x / 1000;
    var p := q / d;
    assert x == 1000 * q + x % 1000;
    assert q == d * p + q % d;
    assert x == (1000 * d) * p + (1000 * (q % d) + x % 1000);
    assert 0 <= 1000 * (q % d) + x % 1000 < 1000 * d;
    assert x / (1000 * d) == p;
  }

  datatype Hms = Hms(hours: int, minutes: int, seconds: int)

  /** The whole number of seconds that an `Hms` stands for. */
  function TotalSeconds(t: Hms): int {
    t.hours * 3600 + t.minutes * 60 + t.seconds
  }

  /** `seconds = (elapsed / 1000) % 60`, `minutes = (elapsed / (1000 * 60)) % 60`,
      `hours = elapsed / (1000 * 60 * 60)`, all in Kotlin `Long` arithmetic. */
  function Decompose(elapsed: int): Hms {
    Hms(Quot(elapsed, 1000 * 60 * 60), Rem(Quot(elapsed, 1000 * 60), 60), Rem(Quot(elapsed, 1000), 60))
  }

  /** The three fields carry the sign of `elapsed`, minutes and seconds stay
      below 60 in magnitude, and together they make up the elapsed whole
      seconds exactly. */
  lemma DecomposeSpec(elapsed: int)
    ensures TotalSeconds(Decompose(elapsed)) == Quot(elapsed, 1000)
    ensures elapsed >= 0 ==>
              var t := Decompose(elapsed);
              0 <= t.hours && 0 <= t.minutes < 60 && 0 <= t.seconds < 60
    ensures elapsed < 0 ==>
              var t := Decompose(elapsed);
              t.hours <= 0 && -60 < t.minutes <= 0 && -60 < t.seconds <= 0
  {
    QuotThousand(elapsed, 60);
    QuotThousand(elapsed, 3600);
    var s := Quot(elapsed, 1000);
    QuotRem(elapsed, 1000);
    QuotRem(s, 60);
    QuotRem(Quot(s, 60), 60);
    QuotSixty(s);
  }

  /** Truncating division by 60 twice is truncating division by 3600. */
  lemma {:induction false} QuotSixty(s: int)
    ensures Quot(Quot(s, 60), 60) == Quot(s, 3600)
  {
    var x := if s >= 0 then s else -s;
    var q := x / 60;
    assert x == 60 * q + x % 60;
    assert q == 60 * (q / 60) + q % 60;
    assert x == 3600 * (q / 60) + (60 * (q % 60) + x % 60);
    assert x / 3600 == q / 60;
  }

  // Decimal numerals

  predicate IsDigit(c: char) {
    '0' <= c <= '9'
  }

  predicate AllDigits(s: string) {
    forall i | 0 <= i < |s| :: IsDigit(s[i])
  }

  function DigitChar(d: int): (c: char)
    requires 0 <= d < 10
    ensures IsDigit(c)
  {
    ('0' as int + d) as char
  }

  function DigitValue(c: char): (d: int)
    requires IsDigit(c)
    ensures 0 <= d < 10 && DigitChar(d) == c
  {
    c as int - '0' as int
  }

  /** The numeral `%d` writes for a non-negative number: decimal digits, no
      leading zero, one digit below 10 and two below 100. */
  function Decimal(n: nat): (s: string)
    ensures AllDigits(s) && |s| >= 1
    ensures (s[0] == '0') == (n == 0)
    ensures (|s| == 1) == (n < 10)
    ensures (|s| <= 2) == (n < 100)
    decreases n
  {
    if n < 10 then [DigitChar(n)] else Decimal(n / 10) + [DigitChar(n % 10)]
  }

  /** The number a string of decimal digits denotes (leading zeros allowed). */
  function DecimalValue(s: string): nat
    requires AllDigits(s)
    decreases |s|
  {
    if s == [] then 0 else DecimalValue(s[..|s| - 1]) * 10 + DigitValue(s[|s| - 1])
  }

  /** Reading back the numeral of `n` gives `n`. */
  lemma {:induction false} DecimalRoundTrip(n: nat)
    ensures DecimalValue(Decimal(n)) == n
    decreases n
  {
    if n >= 10 {
      var s := Decimal(n);
      assert s[..|s| - 1] == Decimal(n / 10);
      DecimalRoundTrip(n / 10);
    }
  }

  /** Java's `%02d`: a negative number is a minus sign and its digits (already
      two characters, so no padding); a non-negative one is padded with a
      leading zero to two characters. */
  function ZeroPad2(n: int): string {
    if n < 0 then "-" + Decimal(-n)
    else if n < 10 then "0" + Decimal(n)
    else Decimal(n)
  }

  /** The field `%02d` writes is at least two characters long; for a
      non-negative number it is all digits, exactly two of them below 100,
      and it reads back as the number. */
  lemma ZeroPad2Shape(n: int)
    ensures |ZeroPad2(n)| >= 2
    ensures n >= 0 ==> AllDigits(ZeroPad2(n)) && DecimalValue(ZeroPad2(n)) == n
    ensures n >= 0 ==> ((|ZeroPad2(n)| == 2) == (n < 100))
  {
    if n >= 0 {
      DecimalRoundTrip(n);
      if n < 10 {
        var s := ZeroPad2(n);
        assert s[..|s| - 1] == "0";
      }
    }
  }

  /** `String.format("%02d:%02d:%02d", hours, minutes, seconds)`. */
  function Format(t: Hms): string {
    ZeroPad2(t.hours) + ":" + ZeroPad2(t.minutes) + ":" + ZeroPad2(t.seconds)
  }

  /** The timer label's text for `elapsed` milliseconds. */
  function ClockText(elapsed: int): string {
    Format(Decompose(elapsed))
  }

  /** The inverse of `ClockText` for non-negative elapsed times: reads
      `H...H:MM:SS` back into the whole number of seconds it shows. */
  function ParseClock(s: string): Option<nat> {
    if |s| < 8 || s[|s| - 6] != ':' || s[|s| - 3] != ':' then None
    else
      var hh, mm, ss := s[..|s| - 6], s[|s| - 5..|s| - 3], s[|s| - 2..];
      if !AllDigits(hh) || !AllDigits(mm) || !AllDigits(ss) then None
      else if DecimalValue(mm) >= 60 || DecimalValue(ss) >= 60 then None
      else Some(DecimalValue(hh) * 3600 + DecimalValue(mm) * 60 + DecimalValue(ss))
  }

  /** Reading back the formatted fields gives the seconds they stand for,
      whenever minutes and seconds are in range and nothing is negative. */
  lemma FormatRoundTrip(t: Hms)
    requires 0 <= t.hours && 0 <= t.minutes < 60 && 0 <= t.seconds < 60
    ensures ParseClock(Format(t)) == Some(TotalSeconds(t))
  {
    var h, m, sec := ZeroPad2(t.hours), ZeroPad2(t.minutes), ZeroPad2(t.seconds);
    ZeroPad2Shape(t.hours);
    ZeroPad2Shape(t.minutes);
    ZeroPad2Shape(t.seconds);
    var s := Format(t);
    assert s == h + ":" + m + ":" + sec;
    assert s[..|s| - 6] == h;
    assert s[|s| - 5..|s| - 3] == m;
    assert s[|s| - 2..] == sec;
  }

  /** The displayed text shows the elapsed time to the whole second: parsing
      it back gives exactly `elapsed / 1000`. */
  lemma ClockTextRoundTrip(elapsed: int)
    requires elapsed >= 0
    ensures ParseClock(ClockText(elapsed)) == Some(elapsed / 1000)
  {
    DecomposeSpec(elapsed);
    FormatRoundTrip(Decompose(elapsed));
  }

  /** While the hours stay below 100 the label is exactly eight characters,
      `HH:MM:SS`: digits with colons at positions 2 and 5; from 100 hours on
      it is longer. */
  lemma ClockTextShape(elapsed: int)
    requires elapsed >= 0
    ensures (|ClockText(elapsed)| == 8) == (elapsed < 360000000)
    ensures elapsed < 360000000 ==>
              var s := ClockText(elapsed);
              s[2] == ':' && s[5] == ':' &&
              forall i | 0 <= i < 8 && i != 2 && i != 5 :: IsDigit(s[i])
  {
    DecomposeSpec(elapsed);
    var t := Decompose(elapsed);
    ZeroPad2Shape(t.hours);
    ZeroPad2Shape(t.minutes);
    ZeroPad2Shape(t.seconds);
    assert t.hours < 100 <==> elapsed < 360000000;
  }

  /** A clock set back below `startTime` gives a negative elapsed time; the
      fields then carry the sign and `%02d` prints it unpadded. Up to a minute
      before the start the label reads `00:00:-S` (five seconds before, it is
      `00:00:-5`), which does not read back as a time at all. */
  lemma NegativeElapsedText(elapsed: int)
    requires -60000 < elapsed <= -1000
    ensures ClockText(elapsed) == "00:00:-" + Decimal(-Quot(elapsed, 1000))
    ensures ParseClock(ClockText(elapsed)) == None
  {
    var sec := Quot(elapsed, 1000);
    assert -60 < sec < 0 by {
      var x := -elapsed;
      assert 1000 <= x < 60000;
      assert sec == -(x / 1000);
    }
    assert Quot(elapsed, 1000 * 60 * 60) == 0;
    assert Quot(elapsed, 1000 * 60) == 0;
    assert Decompose(elapsed) == Hms(0, 0, sec);
    assert ZeroPad2(0) == "00";
    var s := ClockText(elapsed);
    assert s == "00:00:-" + Decimal(-sec);
    if |s| == 8 {
      assert s[|s| - 2..][0] == s[6] == '-';
    } else {
      assert |s| == 9 && s[|s| - 6] == s[3] == '0';
    }
  }
}
