/**
 * The time decomposition of ColourClock.updateTime: from the wall-clock hour,
 * minute and millisecond count to the fractional hour, minute and second the
 * hands are drawn at.  The hour and minute come from the platform calendar and
 * the millisecond count from the system clock; both are inputs here.  The
 * sine-eased sub-second fraction is an input too, known only to lie in [0,1).
 */
module TimeModel {

  /** Java's `/` on longs: the quotient is truncated toward zero, so it has the sign of the dividend. */
  function JavaDiv(a: int, d: int): (q: int)
    requires d > 0
    ensures a >= 0 ==> q >= 0
    ensures a <= 0 ==> q <= 0
  {
    if a >= 0 then a / d else -((-a) / d)
  }

  /** Java's `%` on longs: the remainder has the sign of the dividend. */
  function JavaRem(a: int, d: int): (r: int)
    requires d > 0
    ensures a >= 0 ==> 0 <= r < d
    ensures a < 0 ==> -d < r <= 0
  {
    if a >= 0 then a % d else -((-a) % d)
  }

  /** The two operators agree as Java requires: `(a / d) * d + a % d == a`. */
  lemma DivRem(a: int, d: int)
    requires d > 0
    ensures a == d * JavaDiv(a, d) + JavaRem(a, d)
  {
    if a >= 0 {
      assert a == d * (a / d) + a % d;
    } else {
      var p, m := (-a) / d, (-a) % d;
      assert -a == d * p + m;
      assert JavaDiv(a, d) == -p && JavaRem(a, d) == -m;
      assert d * -p == -(d * p);
    }
  }

  /** Truncation is symmetric about zero: negating the dividend negates the quotient. */
  lemma JavaDivOdd(a: int, d: int)
    requires d > 0
    ensures JavaDiv(-a, d) == -JavaDiv(a, d)
  {
  }

  /** `(int) ((currentMillis % 60000) / 1000)`: the whole second within the minute. */
  function SecondOfMinute(millis: int): (s: int)
    ensures millis >= 0 ==> 0 <= s <= 59
    ensures millis < 0 ==> -59 <= s <= 0
  {
    JavaDiv(JavaRem(millis, 60000), 1000)
  }

  /** The three hand positions, in hours, minutes and seconds. */
  datatype ClockTime = ClockTime(hours: real, minutes: real, seconds: real)

  /**
   * One reading of the clock.  The seconds are the whole second plus the
   * eased fraction; the hours are taken from the minutes before these are
   * floored, so the hour hand moves continuously while the minute hand jumps
   * from one whole minute to the next.
   */
  function Sample(hour: int, min: int, millis: int, eased: real): (t: ClockTime)
    requires 0.0 <= eased < 1.0
    ensures SecondOfMinute(millis) as real <= t.seconds < SecondOfMinute(millis) as real + 1.0
    ensures millis >= 0 ==> 0.0 <= t.seconds < 60.0
    ensures t.minutes == t.minutes.Floor as real
    ensures millis >= 0 ==> t.minutes == min as real
    ensures millis >= 0 ==> t.hours == hour as real + (t.minutes + t.seconds / 60.0) / 60.0
    ensures millis >= 0 && 0 <= min < 60 ==> hour as real <= t.hours < hour as real + 1.0
  {
    var secInt := SecondOfMinute(millis);
    var seconds := secInt as real + eased;
    var minutes := min as real + seconds / 60.0;
    var hours := hour as real + minutes / 60.0;
    assert millis >= 0 ==> 0.0 <= seconds / 60.0 < 1.0;
    assert millis >= 0 ==> minutes.Floor == min;
    ClockTime(hours, minutes.Floor as real, seconds)
  }

  /**
   * The hour hand never runs backwards within a day: a later wall-clock time
   * (ordered by hour, then minute, then seconds) gives an hour value at least
   * as large.
   */
  lemma HoursMonotone(h1: int, m1: int, ms1: int, e1: real, h2: int, m2: int, ms2: int, e2: real)
    requires 0.0 <= e1 < 1.0 && 0.0 <= e2 < 1.0
    requires ms1 >= 0 && ms2 >= 0 && 0 <= m1 < 60 && 0 <= m2 < 60
    requires h1 < h2 || (h1 == h2 && m1 < m2) ||
             (h1 == h2 && m1 == m2 && Sample(h1, m1, ms1, e1).seconds <= Sample(h2, m2, ms2, e2).seconds)
    ensures Sample(h1, m1, ms1, e1).hours <= Sample(h2, m2, ms2, e2).hours
  {
    var t1, t2 := Sample(h1, m1, ms1, e1), Sample(h2, m2, ms2, e2);
    assert t1.minutes + t1.seconds / 60.0 < m1 as real + 1.0;
    assert m2 as real <= t2.minutes + t2.seconds / 60.0;
  }

  /** At 03:15:30.000, with no easing offset, the hands stand at 3 + 15.5/60 h, 15 min, 30 s. */
  lemma QuarterPastThreeAndAHalf()
    ensures Sample(3, 15, 30000, 0.0) == ClockTime(3.0 + 15.5 / 60.0, 15.0, 30.0)
  {
    assert SecondOfMinute(30000) == 30;
    assert (15.5).Floor == 15;
  }
}
