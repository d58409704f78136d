/**
 * Time as integer minutes on a local clock (no time zones, no daylight-saving
 * jumps). A calendar day is 1440 minutes and local midnight is a multiple of it.
 */
module Clock {

  const MinutesPerDay: int := 1440
  const MillisPerMinute: int := 60000

  /** `setHours(9, 0, 0, 0)`: nine o'clock is 540 minutes after local midnight. */
  const DayStartMinute: int := 9 * 60

  function Min(a: int, b: int): int { if a <= b then a else b }
  function Max(a: int, b: int): int { if a <= b then b else a }

  /** Integer division truncating toward zero, as date-fns rounds a day difference. */
  function TruncDiv(a: int, b: int): (q: int)
    requires b > 0
    ensures a >= 0 ==> q >= 0 && q * b <= a < (q + 1) * b
    ensures a < 0 ==> q <= 0 && (q - 1) * b < a <= q * b
  {
    if a >= 0 then
      FloorDivBounds(a, b);
      a / b
    else
      FloorDivBounds(-a, b);
      -((-a) / b)
  }

  lemma FloorDivBounds(n: int, b: int)
    requires n >= 0 && b > 0
    ensures n / b >= 0 && (n / b) * b <= n < (n / b + 1) * b
  {
    assert n == (n / b) * b + n % b;
    assert (n / b + 1) * b == (n / b) * b + b;
  }

  /** `differenceInDays(end, start)`: the number of full days from `start` to `end`, signed. */
  function DaysBetween(start: int, end: int): int {
    TruncDiv(end - start, MinutesPerDay)
  }

  /** `startOfDay(t)`: the local midnight at or before `t`. */
  function Midnight(t: int): (m: int)
    ensures m <= t < m + MinutesPerDay
    ensures m % MinutesPerDay == 0
  {
    t - t % MinutesPerDay
  }

  /** 09:00 on the `d`-th calendar day counted from the day containing `start`. */
  function NineAm(start: int, d: int): int {
    Midnight(start) + d * MinutesPerDay + DayStartMinute
  }

  /** Nine o'clock of consecutive days lies exactly one day apart, whatever happened in between. */
  lemma NineAmNextDay(start: int, d: int)
    ensures NineAm(start, d + 1) == NineAm(start, d) + MinutesPerDay
    ensures Midnight(NineAm(start, d)) == NineAm(start, d) - DayStartMinute
  {
    var m := Midnight(start) + d * MinutesPerDay;
    assert m % MinutesPerDay == 0;
    assert NineAm(start, d) == m + DayStartMinute;
  }
}
