/**
 * Local calendar arithmetic on millisecond timestamps. The server's local time zone is a fixed
 * offset `tz` (local clock = UTC + tz), so `setHours(0, 0, 0, 0)` is `MidnightOf` and
 * `setDate(getDate() - k)` on a midnight is `k * DayMs` earlier.
 */
module Calendar {

  const DayMs: int := 86400000
  const WeekMs: int := 604800000

  /** Number of the local calendar day that contains `t` (day 0 holds the epoch at tz = 0). */
  function DayIndex(t: int, tz: int): int {
    (t + tz) / DayMs
  }

  /** Local midnight of the day that contains `t`. */
  function MidnightOf(t: int, tz: int): (m: int)
    ensures m <= t < m + DayMs
    ensures m == DayIndex(t, tz) * DayMs - tz
  {
    t - (t + tz) % DayMs
  }

  /** `Date.prototype.getDay` of `t`: 0 for Sunday ... 6 for Saturday; 1 January 1970 was a Thursday. */
  function DayOfWeek(t: int, tz: int): (d: int)
    ensures 0 <= d < 7
  {
    (DayIndex(t, tz) + 4) % 7
  }

  /** Midnights are ordered as the days they start. */
  lemma MidnightOrder(a: int, b: int, tz: int)
    ensures MidnightOf(a, tz) < MidnightOf(b, tz) <==> DayIndex(a, tz) < DayIndex(b, tz)
    ensures MidnightOf(a, tz) == MidnightOf(b, tz) - DayMs <==> DayIndex(a, tz) == DayIndex(b, tz) - 1
    ensures MidnightOf(a, tz) < MidnightOf(b, tz) - DayMs <==> DayIndex(a, tz) < DayIndex(b, tz) - 1
  {
  }

  /** A later instant never lies on an earlier day. */
  lemma {:induction false} DayIndexMonotone(a: int, b: int, tz: int)
    requires a <= b
    ensures DayIndex(a, tz) <= DayIndex(b, tz)
    ensures MidnightOf(a, tz) <= MidnightOf(b, tz)
  {
    var da, db := DayIndex(a, tz), DayIndex(b, tz);
    assert da * DayMs <= a + tz && b + tz < db * DayMs + DayMs;
    assert da * DayMs < (db + 1) * DayMs;
  }

  /**
   * Start of the week that contains `t`: its midnight moved back `getDay()` days, so a Sunday
   * midnight no more than six days earlier.
   */
  function WeekStart(t: int, tz: int): (w: int)
    ensures w <= MidnightOf(t, tz) <= w + 6 * DayMs
    ensures DayIndex(w, tz) == DayIndex(t, tz) - DayOfWeek(t, tz)
    ensures DayOfWeek(w, tz) == 0
  {
    var w := MidnightOf(t, tz) - DayOfWeek(t, tz) * DayMs;
    var d := DayIndex(t, tz) - DayOfWeek(t, tz);
    assert w + tz == d * DayMs;
    assert DayIndex(w, tz) == d;
    w
  }
}
