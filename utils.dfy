/** The time engine and the status classifier (utils.ts).

    The source computes on JavaScript numbers. Here a millisecond count is an
    `int` and the fractional intermediate values are exact `real`s; the
    JavaScript operators the source uses are written out:
    `Math.floor` is `Floor`, and `%` is the truncated remainder `JsRem`. */
module Utils {
  import opened Types

  const SecondMs: int := 1000
  const MinuteMs: int := 60 * SecondMs
  const HourMs: int := 60 * MinuteMs
  const DayMs: int := 24 * HourMs

  // ---------------------------------------------------------------------
  // JavaScript number operators
  // ---------------------------------------------------------------------

  /** Rounds toward zero, as the quotient behind JavaScript's `%` does. */
  function Trunc(x: real): (k: int)
    ensures 0.0 <= x ==> k == x.Floor
  {
    if 0.0 <= x then x.Floor else -((-x).Floor)
  }

  /** JavaScript's `%` on numbers: the remainder of a truncated division,
      carrying the sign of the dividend. */
  function JsRem(a: real, b: real): real
    requires b != 0.0
  {
    a - b * (Trunc(a / b) as real)
  }

  /** `Math.floor(n / d)` on a non-negative integer is integer division. */
  lemma FloorOfQuotient(n: int, d: int)
    requires 0 <= n && 0 < d
    ensures (n as real / d as real).Floor == n / d
  {
    var q, r := n / d, n % d;
    assert n == q * d + r;
    assert n as real == q as real * d as real + r as real;
    assert n as real / d as real == q as real + r as real / d as real;
    assert 0.0 <= r as real / d as real < 1.0;
  }

  /** A real in `[k, k + 1)` floors to `k`. */
  lemma FloorBetween(x: real, k: int)
    requires k as real <= x < k as real + 1.0
    ensures x.Floor == k
  {
  }

  /** Division of a real sum whose first part is a whole multiple. */
  lemma DivideSplit(a: int, c: real, d: int)
    requires 0 < d && 0.0 <= c < d as real
    ensures 0.0 <= c / d as real < 1.0
    ensures ((a * d) as real + c) / d as real == a as real + c / d as real
  {
    var dr := d as real;
    var e := c / dr;
    QuotientBounds(c, dr);
    var lhs := ((a * d) as real + c) / dr;
    assert lhs * dr == (a * d) as real + c;
    assert (a as real + e) * dr == (a * d) as real + c;
    CancelFactor(lhs, a as real + e, dr);
  }

  lemma QuotientBounds(c: real, d: real)
    requires 0.0 < d && 0.0 <= c < d
    ensures 0.0 <= c / d < 1.0
  {
    var e := c / d;
    assert e * d == c;
    assert (1.0 - e) * d == d - c;
    PositiveFactor(1.0 - e, d);
  }

  lemma PositiveFactor(x: real, d: real)
    requires 0.0 < d && 0.0 < x * d
    ensures 0.0 < x
  {
  }

  lemma CancelFactor(u: real, v: real, d: real)
    requires d != 0.0 && u * d == v * d
    ensures u == v
  {
    assert (u - v) * d == 0.0;
  }

  /** `Math.floor((n / unit) % radix)` on a non-negative integer `n` is
      `(n / unit) % radix` in integer arithmetic. */
  lemma FloorOfRemainder(n: int, unit: int, radix: int)
    requires 0 <= n && 0 < unit && 0 < radix
    ensures JsRem(n as real / unit as real, radix as real).Floor == (n / unit) % radix
  {
    var x := n as real / unit as real;
    var q := n / unit;
    var a, b := q / radix, q % radix;
    FloorOfQuotient(n, unit);
    var f := x - q as real;
    assert 0.0 <= f < 1.0;
    assert q == a * radix + b;
    var c := b as real + f;
    assert x == (a * radix) as real + c;
    DivideSplit(a, c, radix);
    var y := x / radix as real;
    assert y == a as real + c / radix as real;
    FloorBetween(y, a);
    assert Trunc(y) == a;
    assert radix as real * a as real == (a * radix) as real;
    assert JsRem(x, radix as real) == c;
    FloorBetween(c, b);
  }

  // ---------------------------------------------------------------------
  // calculateTimeRemaining
  // ---------------------------------------------------------------------

  /** The integer fixed-radix decomposition of a positive millisecond count
      rebuilds the count rounded down to a whole second. */
  lemma Reconstruction(t: int)
    requires 0 <= t
    ensures (t / DayMs) * DayMs + ((t / HourMs) % 24) * HourMs
          + ((t / MinuteMs) % 60) * MinuteMs + ((t / SecondMs) % 60) * SecondMs
         == t - t % SecondMs
  {
    var s := t / 1000;
    var m := t / 60000;
    var h := t / 3600000;
    var d := t / 86400000;
    assert m == s / 60;
    assert h == m / 60;
    assert d == h / 24;
    assert t - t % 1000 == 1000 * s;
    assert s == 60 * m + s % 60;
    assert m == 60 * h + m % 60;
    assert h == 24 * d + h % 24;
  }

  /** The four unit formulas of the source, on exact reals, agree with
      integer division and remainder. */
  lemma UnitFormulas(totalMs: int)
    requires 0 < totalMs
    ensures var t := totalMs as real;
      && JsRem(t / 1000.0, 60.0).Floor == (totalMs / SecondMs) % 60
      && JsRem(t / 1000.0 / 60.0, 60.0).Floor == (totalMs / MinuteMs) % 60
      && JsRem(t / 3600000.0, 24.0).Floor == (totalMs / HourMs) % 24
      && (t / 86400000.0).Floor == totalMs / DayMs
  {
    var t := totalMs as real;
    assert SecondMs as real == 1000.0 && MinuteMs as real == 60000.0;
    assert HourMs as real == 3600000.0 && DayMs as real == 86400000.0;
    assert t / 1000.0 / 60.0 == t / 60000.0;
    FloorOfRemainder(totalMs, SecondMs, 60);
    FloorOfRemainder(totalMs, MinuteMs, 60);
    FloorOfRemainder(totalMs, HourMs, 24);
    FloorOfQuotient(totalMs, DayMs);
  }

  /** The remaining time from `nowMs` until `targetMs`, both instants in
      milliseconds. A past or present target gives the all-zero reading;
      otherwise the difference is split into days, hours, minutes and
      seconds, and kept whole in `totalMs`. */
  function CalculateTimeRemaining(targetMs: int, nowMs: int): (r: TimeRemaining)
    ensures targetMs - nowMs <= 0 ==> r == TimeRemaining(0, 0, 0, 0, 0)
    ensures 0 < targetMs - nowMs ==> r.totalMs == targetMs - nowMs
    ensures 0 <= r.days && 0 <= r.hours < 24 && 0 <= r.minutes < 60 && 0 <= r.seconds < 60
    ensures r.days * DayMs + r.hours * HourMs + r.minutes * MinuteMs + r.seconds * SecondMs
         == r.totalMs - r.totalMs % SecondMs
  {
    var totalMs := targetMs - nowMs;
    if totalMs <= 0 then
      TimeRemaining(0, 0, 0, 0, 0)
    else
      var t := totalMs as real;
      var seconds := JsRem(t / 1000.0, 60.0).Floor;
      var minutes := JsRem(t / 1000.0 / 60.0, 60.0).Floor;
      var hours := JsRem(t / 3600000.0, 24.0).Floor;
      var days := (t / 86400000.0).Floor;
      UnitFormulas(totalMs);
      Reconstruction(totalMs);
      TimeRemaining(days, hours, minutes, seconds, totalMs)
  }

  /** A reading under one second has every unit at zero but is still
      positive, so it is not yet the expired reading. */
  lemma SubSecondReading(targetMs: int, nowMs: int)
    requires 0 < targetMs - nowMs < SecondMs
    ensures var r := CalculateTimeRemaining(targetMs, nowMs);
      r.days == r.hours == r.minutes == r.seconds == 0 && 0 < r.totalMs
  {
    var r := CalculateTimeRemaining(targetMs, nowMs);
    assert r.totalMs % SecondMs == r.totalMs;
  }

  // ---------------------------------------------------------------------
  // formatTimeNumber
  // ---------------------------------------------------------------------

  predicate IsDigit(c: char) {
    '0' <= c <= '9'
  }

  predicate AllDigits(s: string) {
    forall i :: 0 <= i < |s| ==> IsDigit(s[i])
  }

  function DigitChar(d: int): (c: char)
    requires 0 <= d < 10
    ensures IsDigit(c)
  {
    ('0' as int + d) as char
  }

  function DigitValue(c: char): int {
    c as int - '0' as int
  }

  /** The decimal numeral of a natural number, without leading zeros. */
  function NatToString(n: nat): (s: string)
    ensures 1 <= |s| && AllDigits(s)
    ensures |s| == 1 <==> n < 10
    ensures 0 < n ==> s[0] != '0'
    decreases n
  {
    if n < 10 then [DigitChar(n)] else NatToString(n / 10) + [DigitChar(n % 10)]
  }

  /** `Number.prototype.toString()` on an integer. */
  function IntToString(n: int): string {
    if n < 0 then "-" + NatToString(-n) else NatToString(n)
  }

  /** `String.prototype.padStart` with a one-character fill. */
  function PadStart(s: string, targetLength: nat, fill: char): (r: string)
    ensures |r| == if targetLength <= |s| then |s| else targetLength
    ensures r[|r| - |s|..] == s
    ensures forall i :: 0 <= i < |r| - |s| ==> r[i] == fill
  {
    if targetLength <= |s| then s else seq(targetLength - |s|, _ => fill) + s
  }

  /** `num.toString().padStart(2, '0')`: a number shown with at least two
      characters, a single digit getting a leading zero. */
  function FormatTimeNumber(n: int): (s: string)
    ensures 2 <= |s|
    ensures 0 <= n < 10 ==> s == ['0', DigitChar(n)]
    ensures (10 <= n || n < 0) ==> s == IntToString(n)
  {
    PadStart(IntToString(n), 2, '0')
  }

  /** The value of a string of decimal digits. */
  function DecimalValue(s: string): nat
    requires AllDigits(s)
  {
    if s == [] then 0
    else
      var d := DigitValue(s[|s| - 1]);
      DecimalValue(s[..|s| - 1]) * 10 + d
  }

  lemma {:induction false} NatToStringRoundTrip(n: nat)
    ensures DecimalValue(NatToString(n)) == n
    decreases n
  {
    if 10 <= n {
      var s := NatToString(n);
      assert s[..|s| - 1] == NatToString(n / 10);
      NatToStringRoundTrip(n / 10);
    }
  }

  lemma {:induction false} LeadingZeroIgnored(s: string)
    requires AllDigits(s)
    ensures AllDigits(['0'] + s) && DecimalValue(['0'] + s) == DecimalValue(s)
    decreases |s|
  {
    if s != [] {
      var t := ['0'] + s;
      assert t[..|t| - 1] == ['0'] + s[..|s| - 1];
      LeadingZeroIgnored(s[..|s| - 1]);
    }
  }

  /** Reading a formatted non-negative number back as decimal digits gives
      the number: the padding never changes the value. */
  lemma FormatTimeNumberRoundTrip(n: nat)
    ensures AllDigits(FormatTimeNumber(n))
    ensures DecimalValue(FormatTimeNumber(n)) == n
  {
    NatToStringRoundTrip(n);
    if n < 10 {
      LeadingZeroIgnored(NatToString(n));
      assert FormatTimeNumber(n) == ['0'] + NatToString(n);
    }
  }

  // ---------------------------------------------------------------------
  // getStatusColor
  // ---------------------------------------------------------------------

  /** The urgency tiers, in order of decreasing urgency. */
  datatype Tier = Red | Orange | Blue | Emerald {

    /** The text colour class the card applies for this tier. */
    function ClassName(): string {
      match this
      case Red => "text-red-500"
      case Orange => "text-orange-500"
      case Blue => "text-blue-500"
      case Emerald => "text-emerald-500"
    }

    function Rank(): nat {
      match this
      case Red => 0
      case Orange => 1
      case Blue => 2
      case Emerald => 3
    }
  }

  /** The urgency tier of a remaining millisecond count: expired, under an
      hour, under a day, or a day and more. */
  function GetStatusColor(ms: int): (t: Tier)
    ensures t == Red <==> ms <= 0
    ensures t == Orange <==> 0 < ms < HourMs
    ensures t == Blue <==> HourMs <= ms < DayMs
    ensures t == Emerald <==> DayMs <= ms
  {
    if ms <= 0 then Red
    else if ms < 1000 * 60 * 60 then Orange
    else if ms < 1000 * 60 * 60 * 24 then Blue
    else Emerald
  }

  /** The class name the card applies: red exactly when no time is left,
      orange under an hour, blue under a day, emerald otherwise. */
  lemma StatusClassName(ms: int)
    ensures GetStatusColor(ms).ClassName() == "text-red-500" <==> ms <= 0
    ensures GetStatusColor(ms).ClassName() == "text-orange-500" <==> 0 < ms < HourMs
    ensures GetStatusColor(ms).ClassName() == "text-blue-500" <==> HourMs <= ms < DayMs
    ensures GetStatusColor(ms).ClassName() == "text-emerald-500" <==> DayMs <= ms
  {
  }

  /** The two boundaries belong to the less urgent tier. */
  lemma StatusBoundaries()
    ensures GetStatusColor(0) == Red && GetStatusColor(1) == Orange
    ensures GetStatusColor(HourMs - 1) == Orange && GetStatusColor(HourMs) == Blue
    ensures GetStatusColor(DayMs - 1) == Blue && GetStatusColor(DayMs) == Emerald
  {
  }

  /** More time left never gives a more urgent tier. */
  lemma StatusMonotone(a: int, b: int)
    requires a <= b
    ensures GetStatusColor(a).Rank() <= GetStatusColor(b).Rank()
  {
  }

  /** The tier of a computed reading is red exactly when the target has
      been reached, and emerald exactly when a whole day or more is left. */
  lemma ReadingTier(targetMs: int, nowMs: int)
    ensures var r := CalculateTimeRemaining(targetMs, nowMs);
      && (GetStatusColor(r.totalMs) == Red <==> targetMs <= nowMs)
      && (GetStatusColor(r.totalMs) == Emerald <==> 1 <= r.days)
  {
    var r := CalculateTimeRemaining(targetMs, nowMs);
    if 0 < r.totalMs {
      FloorOfQuotient(r.totalMs, DayMs);
    }
  }
}
