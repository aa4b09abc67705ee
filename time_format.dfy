/**
 * The `formatTime` helper of the player (script.js:60-65): a duration in
 * seconds, as the media element reports it, rendered as `M:SS`.
 */
module TimeFormat {
  import opened Optional

  /** A JavaScript number as the media element hands it over: `NaN` while the duration is unknown. */
  datatype Seconds = NaN | Value(t: real)

  function DigitChar(d: nat): (c: char)
    requires d < 10
    ensures '0' <= c <= '9'
  {
    ('0' as int + d) as char
  }

  function DigitValue(c: char): (d: nat)
    requires '0' <= c <= '9'
    ensures d < 10
  {
    c as int - '0' as int
  }

  predicate AllDigits(s: string) {
    forall i :: 0 <= i < |s| ==> '0' <= s[i] <= '9'
  }

  /** `Number.prototype.toString()` of a non-negative integer: its decimal digits, no leading zero. */
  function Decimal(n: nat): (s: string)
    ensures 1 <= |s| && AllDigits(s)
    ensures |s| == 1 <==> n < 10
    ensures |s| > 1 ==> s[0] != '0'
    decreases n
  {
    if n < 10 then [DigitChar(n)] else Decimal(n / 10) + [DigitChar(n % 10)]
  }

  /** Reads a string of decimal digits back as a number; the partner of `Decimal`. */
  function ParseDecimal(s: string): nat
    requires AllDigits(s)
    decreases |s|
  {
    if s == [] then 0 else 10 * ParseDecimal(s[..|s| - 1]) + DigitValue(s[|s| - 1])
  }

  lemma {:induction false} DecimalRoundTrip(n: nat)
    ensures ParseDecimal(Decimal(n)) == n
  {
    if n >= 10 {
      var s := Decimal(n);
      assert s[..|s| - 1] == Decimal(n / 10);
      DecimalRoundTrip(n / 10);
    }
  }

  /** `String.prototype.padStart(width, fill)` with a one-character fill. */
  function PadStart(s: string, width: nat, fill: char): (r: string)
    ensures |r| == if |s| >= width then |s| else width
    ensures r[|r| - |s|..] == s
    ensures forall i :: 0 <= i < |r| - |s| ==> r[i] == fill
  {
    if |s| >= width then s else seq(width - |s|, _ => fill) + s
  }

  /**
   * `formatTime(seconds)`: `0:00` while the duration is unknown, otherwise the
   * display of the whole seconds `floor(t)`: both parts truncate, nothing rounds.
   * The source's `seconds % 60` truncates toward zero; for the non-negative
   * times a media element reports, that is `t - 60 * floor(t / 60)`.
   */
  function FormatTime(x: Seconds): (r: string)
    requires x.Value? ==> x.t >= 0.0
    ensures x.NaN? ==> r == "0:00"
    ensures x.Value? ==> r == FormatWhole(x.t.Floor)
  {
    match x
    case NaN => "0:00"
    case Value(t) => Clock(WholeMinutes(t), SecondsOfMinute(t))
  }

  /** `Math.floor(seconds / 60)`: the quotient of the whole seconds by 60. */
  function WholeMinutes(t: real): (m: nat)
    requires t >= 0.0
    ensures m == t.Floor / 60
  {
    FloorQuotient(t);
    (t / 60.0).Floor
  }

  /** `Math.floor(seconds % 60)`: the remainder of the whole seconds by 60. */
  function SecondsOfMinute(t: real): (k: nat)
    requires t >= 0.0
    ensures k == t.Floor % 60
  {
    FloorQuotient(t);
    FloorRemainder(t, (t / 60.0).Floor);
    (t - 60.0 * WholeMinutes(t) as real).Floor
  }

  /** Dividing by 60 and then truncating loses nothing the whole seconds would not. */
  lemma FloorQuotient(t: real)
    requires t >= 0.0
    ensures (t / 60.0).Floor == t.Floor / 60
  {
    var n := t.Floor;
    var q, k := n / 60, n % 60;
    assert n == 60 * q + k;
    assert q as real <= t / 60.0 < q as real + 1.0;
  }

  /** What is left of `t` after `q = floor(t / 60)` minutes truncates to the remainder of `floor(t)`. */
  lemma FloorRemainder(t: real, q: int)
    requires t >= 0.0 && q == t.Floor / 60
    ensures (t - 60.0 * q as real).Floor == t.Floor % 60
  {
    var n := t.Floor;
    var k := n % 60;
    assert n == 60 * q + k;
    assert k as real <= t - 60.0 * q as real < k as real + 1.0;
  }

  /**
   * Reads an `M:SS` display back as whole seconds (`60 * M + SS`); `None` for
   * anything not of that shape or with `SS` of 60 or more.
   */
  function ReadClock(s: string): Option<nat> {
    if |s| >= 4 && s[|s| - 3] == ':' && AllDigits(s[..|s| - 3]) && AllDigits(s[|s| - 2..])
       && ParseDecimal(s[|s| - 2..]) < 60
    then Some(60 * ParseDecimal(s[..|s| - 3]) + ParseDecimal(s[|s| - 2..]))
    else None
  }

  /** A two-digit number's decimal form padded to width two is its two digits. */
  lemma PadTwoDigits(k: nat)
    requires k < 60
    ensures PadStart(Decimal(k), 2, '0') == [DigitChar(k / 10), DigitChar(k % 10)]
  {
    if k >= 10 {
      assert Decimal(k / 10) == [DigitChar(k / 10)];
    }
  }

  /**
   * The template literal of `formatTime`: the minutes in decimal, a colon,
   * and the seconds below 60 as exactly two digits.
   */
  function Clock(mins: nat, secs: nat): (r: string)
    requires secs < 60
    ensures r == Decimal(mins) + ":" + [DigitChar(secs / 10), DigitChar(secs % 10)]
  {
    PadTwoDigits(secs);
    Decimal(mins) + ":" + PadStart(Decimal(secs), 2, '0')
  }

  /**
   * `formatTime` of a whole number of seconds: the minutes in decimal, a
   * colon, then the tens and the units digit of the seconds within the minute.
   */
  function FormatWhole(n: nat): (r: string)
    ensures r == Decimal(n / 60) + ":" + [DigitChar(n % 60 / 10), DigitChar(n % 60 % 10)]
  {
    Clock(n / 60, n % 60)
  }

  /**
   * For a number of seconds `t >= 0`, `formatTime` gives the whole minutes in
   * decimal, a colon, and the remaining whole seconds as exactly two digits.
   */
  lemma FormatTimeShape(t: real)
    requires t >= 0.0
    ensures FormatTime(Value(t)) ==
      Decimal(t.Floor / 60) + ":" + [DigitChar(t.Floor % 60 / 10), DigitChar(t.Floor % 10)]
  {
    ModTen(t.Floor);
  }

  lemma ModTen(n: nat)
    ensures n % 60 % 10 == n % 10
  {
    var q, r := n / 60, n % 60;
    var a, b := r / 10, r % 10;
    assert r == 10 * a + b;
    assert n == 10 * (6 * q + a) + b;
    ModTenOf(n, 6 * q + a, b);
  }

  lemma ModTenOf(n: nat, a: nat, b: nat)
    requires n == 10 * a + b && b < 10
    ensures n % 10 == b
  {
  }

  /** `formatTime` loses only the fraction of a second: its display reads back as `floor(t)`. */
  lemma FormatTimeReadsBack(t: real)
    requires t >= 0.0
    ensures ReadClock(FormatTime(Value(t))) == Some(t.Floor)
  {
    FormatWholeReadsBack(t.Floor);
  }

  /** A whole number of seconds reads back from its display unchanged. */
  lemma FormatWholeReadsBack(n: nat)
    ensures ReadClock(FormatWhole(n)) == Some(n)
  {
    ReadsBackAs(FormatWhole(n), n / 60, n % 60, n);
  }

  /** Minutes `m` in decimal, a colon and the two digits of `k < 60` read back as `60 * m + k`. */
  lemma ClockReadsBack(m: nat, k: nat)
    requires k < 60
    ensures ReadClock(Decimal(m) + ":" + [DigitChar(k / 10), DigitChar(k % 10)]) == Some(60 * m + k)
  {
    var dm, ss := Decimal(m), [DigitChar(k / 10), DigitChar(k % 10)];
    assert AllDigits(ss);
    assert ParseDecimal(ss) == k by { ParseTwoDigits(k); }
    assert ParseDecimal(dm) == m by { DecimalRoundTrip(m); }
    ReadClockOf(dm, ss);
  }

  lemma ReadsBackAs(s: string, m: nat, k: nat, n: nat)
    requires k < 60 && n == 60 * m + k
    requires s == Decimal(m) + ":" + [DigitChar(k / 10), DigitChar(k % 10)]
    ensures ReadClock(s) == Some(n)
  {
    ClockReadsBack(m, k);
  }

  /** `ReadClock` of digits, a colon and two digits below 60. */
  lemma ReadClockOf(m: string, ss: string)
    requires 1 <= |m| && AllDigits(m)
    requires |ss| == 2 && AllDigits(ss) && ParseDecimal(ss) < 60
    ensures ReadClock(m + ":" + ss) == Some(60 * ParseDecimal(m) + ParseDecimal(ss))
  {
    var s := m + ":" + ss;
    assert s[..|s| - 3] == m;
    assert s[|s| - 2..] == ss;
  }

  lemma ParseTwoDigits(k: nat)
    requires k < 100
    ensures ParseDecimal([DigitChar(k / 10), DigitChar(k % 10)]) == k
  {
    var ss := [DigitChar(k / 10), DigitChar(k % 10)];
    var hi := [DigitChar(k / 10)];
    assert ss[..1] == hi && hi[..0] == [];
    assert ParseDecimal(hi) == k / 10;
    assert ParseDecimal(ss) == 10 * ParseDecimal(hi) + k % 10;
  }

  /** The values the player shows: unknown duration, just past a minute, the last second of an hour, an hour. */
  lemma FormatTimeExamples()
    ensures FormatTime(NaN) == "0:00"
    ensures FormatTime(Value(61.0)) == "1:01"
    ensures FormatTime(Value(61.9)) == "1:01"
    ensures FormatTime(Value(3599.0)) == "59:59"
    ensures FormatTime(Value(3600.0)) == "60:00"
  {
    FormatWholeExamples();
  }

  lemma FormatWholeExamples()
    ensures FormatWhole(61) == "1:01"
    ensures FormatWhole(3599) == "59:59"
    ensures FormatWhole(3600) == "60:00"
  {
    DecimalExamples();
    assert FormatWhole(61) == "1" + ":" + [DigitChar(0), DigitChar(1)];
    assert FormatWhole(3599) == "59" + ":" + [DigitChar(5), DigitChar(9)];
    assert FormatWhole(3600) == "60" + ":" + [DigitChar(0), DigitChar(0)];
  }

  lemma DecimalExamples()
    ensures Decimal(1) == "1" && Decimal(59) == "59" && Decimal(60) == "60"
  {
    assert Decimal(5) == "5" && Decimal(6) == "6";
  }
}
