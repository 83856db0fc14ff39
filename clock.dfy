/** Wall-clock readings. A moment is a whole number of seconds on the local wall clock,
    counted from some midnight. The application formats moments with `%Y-%m-%d` (the
    calendar day) and `%H:%M` (hour and minute of the day); this module keeps the day
    number and the minute of the day instead of the formatted strings. Two moments print
    the same date exactly when their day numbers agree. */
module Clock {
  const SecondsPerDay: int := 86400
  const MinutesPerDay: int := 1440

  /** The calendar day a moment falls on. */
  function DayOf(t: int): (day: int)
    ensures day * SecondsPerDay <= t < day * SecondsPerDay + SecondsPerDay
  {
    t / SecondsPerDay
  }

  /** `%H:%M` of a moment, as hours * 60 + minutes. */
  function MinuteOfDay(t: int): (m: int)
    ensures 0 <= m < MinutesPerDay
    ensures DayOf(t) * SecondsPerDay + m * 60 <= t < DayOf(t) * SecondsPerDay + m * 60 + 60
  {
    (t % SecondsPerDay) / 60
  }

  /** The minute of the day is the count of whole minutes, taken modulo one day. */
  lemma MinuteOfDayOfMinutes(t: int)
    ensures MinuteOfDay(t) == (t / 60) % MinutesPerDay
  {
    var q, r := t / SecondsPerDay, t % SecondsPerDay;
    assert t == q * SecondsPerDay + r;
    assert t == 60 * (q * MinutesPerDay + r / 60) + r % 60;
    assert t / 60 == q * MinutesPerDay + r / 60;
  }

  /** Taking whole minutes off a moment takes as many off its minute count. */
  lemma MinutesShift(t: int, k: int)
    ensures (t - 60 * k) / 60 == t / 60 - k
  {
    var q, r := t / 60, t % 60;
    assert t - 60 * k == 60 * (q - k) + r;
  }

  /** Adding whole days does not move the minute of the day. */
  lemma DialShift(k: int, m: int)
    ensures (k + MinutesPerDay * m) % MinutesPerDay == k % MinutesPerDay
  {
    var q, r := k / MinutesPerDay, k % MinutesPerDay;
    assert k + MinutesPerDay * m == MinutesPerDay * (q + m) + r;
  }

  /** Going back `k` minutes moves the reading on the 24-hour dial back by `k`, modulo
      one day. */
  lemma DialDifference(a: int, k: int)
    ensures (a % MinutesPerDay - (a - k) % MinutesPerDay) % MinutesPerDay == k % MinutesPerDay
  {
    var x, y := a / MinutesPerDay, (a - k) / MinutesPerDay;
    assert a % MinutesPerDay - (a - k) % MinutesPerDay == k + MinutesPerDay * (y - x);
    DialShift(k, y - x);
  }

  /** A session that ends at `t` and lasted `d` seconds, a whole number of minutes,
      shows an end time that is `d / 60` minutes after its start time on the
      24-hour dial, across midnight too. */
  lemma ClockSpan(t: int, d: int)
    requires d >= 0 && d % 60 == 0
    ensures (MinuteOfDay(t) - MinuteOfDay(t - d)) % MinutesPerDay == (d / 60) % MinutesPerDay
  {
    var k := d / 60;
    assert d == 60 * k;
    MinuteOfDayOfMinutes(t);
    MinuteOfDayOfMinutes(t - d);
    MinutesShift(t, k);
    DialDifference(t / 60, k);
  }
}
