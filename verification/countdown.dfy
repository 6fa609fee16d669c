/** The arithmetic of `components/countdown-timer.tsx`: splitting the
    milliseconds left into days, hours, minutes and seconds, and the
    two-digit padding of each number shown. The clock read and the timer
    are not modelled: the difference in milliseconds is the input. */
module Countdown {
  import opened Arithmetic

  const MsPerSecond: int := 1000
  const MsPerMinute: int := 60_000      // 1000 * 60
  const MsPerHour: int := 3_600_000     // 1000 * 60 * 60
  const MsPerDay: int := 86_400_000     // 1000 * 60 * 60 * 24

  datatype TimeLeft = TimeLeft(days: int, hours: int, minutes: int, seconds: int, totalSeconds: int)

  // Each field computed from milliseconds equals the same field computed
  // from the whole seconds, and the whole seconds split back into the four.

  lemma DaysFromSeconds(d: int)
    requires d > 0
    ensures d / MsPerDay == (d / MsPerSecond) / 86400
  {
    var s, r := d / 1000, d % 1000;
    var q, m := s / 86400, s % 86400;
    DivMod(d, 86_400_000, q, 1000 * m + r);
  }

  lemma HoursFromSeconds(d: int)
    requires d > 0
    ensures (d % MsPerDay) / MsPerHour == ((d / MsPerSecond) % 86400) / 3600
  {
    var s, r := d / 1000, d % 1000;
    var q, m := s / 86400, s % 86400;
    DivMod(d, 86_400_000, q, 1000 * m + r);
    DivMod(1000 * m + r, 3_600_000, m / 3600, 1000 * (m % 3600) + r);
  }

  lemma MinutesFromSeconds(d: int)
    requires d > 0
    ensures (d % MsPerHour) / MsPerMinute == ((d / MsPerSecond) % 3600) / 60
  {
    var s, r := d / 1000, d % 1000;
    var q, m := s / 3600, s % 3600;
    DivMod(d, 3_600_000, q, 1000 * m + r);
    DivMod(1000 * m + r, 60_000, m / 60, 1000 * (m % 60) + r);
  }

  lemma SecondsFromSeconds(d: int)
    requires d > 0
    ensures (d % MsPerMinute) / MsPerSecond == (d / MsPerSecond) % 60
  {
    var s, r := d / 1000, d % 1000;
    var q, m := s / 60, s % 60;
    DivMod(d, 60_000, q, 1000 * m + r);
    DivMod(1000 * m + r, 1000, m, r);
  }

  lemma SplitSeconds(s: int)
    requires s >= 0
    ensures (s / 86400) * 86400 + ((s % 86400) / 3600) * 3600 + ((s % 3600) / 60) * 60 + s % 60 == s
  {
    var day, inDay := s / 86400, s % 86400;
    var hour, inHour := inDay / 3600, inDay % 3600;
    DivMod(s, 3600, day * 24 + hour, inHour);
    var minute, inMinute := inHour / 60, inHour % 60;
    DivMod(s, 60, (day * 24 + hour) * 60 + minute, inMinute);
  }

  /** `calculateTimeLeft` given `difference = target - now` in milliseconds.
      Every field is 0 once the target has passed; before it, hours,
      minutes and seconds are in their clock ranges and the four parts add up
      to the whole seconds left. */
  function CalculateTimeLeft(difference: int): (t: TimeLeft)
    ensures difference <= 0 ==> t == TimeLeft(0, 0, 0, 0, 0)
    ensures difference > 0 ==>
      && t.days >= 0 && 0 <= t.hours < 24 && 0 <= t.minutes < 60 && 0 <= t.seconds < 60
      && t.totalSeconds * 1000 <= difference < (t.totalSeconds + 1) * 1000
    ensures t.days * 86400 + t.hours * 3600 + t.minutes * 60 + t.seconds == t.totalSeconds
  {
    if difference > 0 then
      var days := difference / MsPerDay;
      var hours := (difference % MsPerDay) / MsPerHour;
      var minutes := (difference % MsPerHour) / MsPerMinute;
      var seconds := (difference % MsPerMinute) / MsPerSecond;
      var totalSeconds := difference / MsPerSecond;
      DaysFromSeconds(difference);
      HoursFromSeconds(difference);
      MinutesFromSeconds(difference);
      SecondsFromSeconds(difference);
      SplitSeconds(totalSeconds);
      TimeLeft(days, hours, minutes, seconds, totalSeconds)
    else
      TimeLeft(0, 0, 0, 0, 0)
  }

  function DigitChar(d: nat): (c: char)
    requires d < 10
    ensures '0' <= c <= '9'
    ensures c == '0' <==> d == 0
  {
    "0123456789"[d]
  }

  function DigitValue(c: char): nat
    requires '0' <= c <= '9'
  {
    (c as int - '0' as int) as nat
  }

  /** `String(n)` for a whole number that is not negative. */
  function Decimal(n: nat): (s: string)
    ensures 1 <= |s|
    ensures forall i :: 0 <= i < |s| ==> '0' <= s[i] <= '9'
    ensures |s| == 1 <==> n < 10
    ensures s[0] == '0' <==> n == 0
  {
    if n < 10 then [DigitChar(n)] else Decimal(n / 10) + [DigitChar(n % 10)]
  }

  /** The number a string of decimal digits stands for. */
  function ParseDecimal(s: string): nat
    requires forall i :: 0 <= i < |s| ==> '0' <= s[i] <= '9'
  {
    if s == [] then 0 else ParseDecimal(s[..|s| - 1]) * 10 + DigitValue(s[|s| - 1])
  }

  lemma {:induction false} ParseDecimalInverts(n: nat)
    ensures ParseDecimal(Decimal(n)) == n
  {
    if n >= 10 {
      var s := Decimal(n);
      ParseDecimalInverts(n / 10);
      assert s[..|s| - 1] == Decimal(n / 10);
    }
  }

  /** `s.padStart(width, fill)`. */
  function PadStart(s: string, width: nat, fill: char): (r: string)
    ensures |r| == if |s| >= width then |s| else width
    ensures r[|r| - |s|..] == s
    ensures forall i :: 0 <= i < |r| - |s| ==> r[i] == fill
  {
    if |s| >= width then s else seq(width - |s|, _ => fill) + s
  }

  /** Padding one digit puts a single '0' in front of it. */
  lemma PadOneDigit(n: nat)
    requires n < 10
    ensures PadStart(Decimal(n), 2, '0') == ['0', DigitChar(n)]
  {
    var r := PadStart(Decimal(n), 2, '0');
    assert |r| == 2 && r[1..] == Decimal(n);
  }

  /** `formatNumber`: at least two characters, a single digit led by '0',
      longer numbers unchanged; reading the digits back gives the number. */
  function FormatNumber(n: nat): (s: string)
    ensures |s| >= 2
    ensures n >= 10 ==> s == Decimal(n)
    ensures n < 10 ==> s == ['0', DigitChar(n)]
    ensures forall i :: 0 <= i < |s| ==> '0' <= s[i] <= '9'
    ensures ParseDecimal(s) == n
  {
    ParseDecimalInverts(n);
    if n < 10 then
      PadOneDigit(n);
      var r := PadStart(Decimal(n), 2, '0');
      assert r[..1] == ['0'];
      r
    else
      PadStart(Decimal(n), 2, '0')
  }
}
