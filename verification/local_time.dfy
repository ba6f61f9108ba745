/** Local wall-clock time as the timetable page reads it through JavaScript `Date`.
    An instant is a whole number of milliseconds counted from 1970-01-01 00:00
    local time, so a calendar-day shift with `setDate` moves it by exactly one
    `DAY` per day and keeps its time of day. */
module LocalTime {

  /** Milliseconds in one calendar day. */
  const DAY: int := 86_400_000

  /** Days since 1970-01-01; instants before the epoch fall on earlier (negative) days. */
  function DayNumber(t: int): int
  {
    t / DAY
  }

  /** Milliseconds since local midnight. */
  function TimeOfDay(t: int): (r: int)
    ensures 0 <= r < DAY
  {
    t % DAY
  }

  /** `Date.prototype.getDay`: 0 is Sunday, 6 is Saturday; 1970-01-01 was a Thursday. */
  function DayOfWeek(t: int): (d: int)
    ensures 0 <= d <= 6
  {
    (DayNumber(t) + 4) % 7
  }

  /** Index of the Sunday-to-Saturday week that holds `t`; week 0 starts on Sunday 1969-12-28. */
  function WeekNumber(t: int): int
  {
    (DayNumber(t) + 4) / 7
  }

  /** `d.setDate(d.getDate() + n)`: the same time of day, `n` calendar days later (earlier if `n < 0`). */
  function AddDays(t: int, n: int): int
  {
    t + n * DAY
  }

  /** The day number and the time of day together determine an instant, and are determined by it. */
  lemma DayParts(t: int, q: int, r: int)
    requires 0 <= r < DAY
    ensures t == q * DAY + r <==> DayNumber(t) == q && TimeOfDay(t) == r
  {
  }

  /** Shifting by whole days changes the day number by that many days and keeps the time of day. */
  lemma AddDaysParts(t: int, n: int)
    ensures DayNumber(AddDays(t, n)) == DayNumber(t) + n
    ensures TimeOfDay(AddDays(t, n)) == TimeOfDay(t)
  {
    var q, r := DayNumber(t), TimeOfDay(t);
    assert AddDays(t, n) == (q + n) * DAY + r;
    DayParts(AddDays(t, n), q + n, r);
  }

  /** Instants are ordered first by day, then by time of day. */
  lemma Order(a: int, b: int)
    ensures a <= b <==>
      DayNumber(a) < DayNumber(b) || (DayNumber(a) == DayNumber(b) && TimeOfDay(a) <= TimeOfDay(b))
  {
    var qa, ra := DayNumber(a), TimeOfDay(a);
    var qb, rb := DayNumber(b), TimeOfDay(b);
    assert a == qa * DAY + ra && b == qb * DAY + rb;
    if qa < qb {
      assert qa * DAY + DAY <= qb * DAY;
    } else if qb < qa {
      assert qb * DAY + DAY <= qa * DAY;
    }
  }

  /** Day of the week and week number split the day number: `DayNumber + 4 == 7 * week + weekday`. */
  lemma WeekParts(t: int, w: int, d: int)
    requires 0 <= d < 7
    ensures DayNumber(t) + 4 == 7 * w + d <==> WeekNumber(t) == w && DayOfWeek(t) == d
  {
  }
}
