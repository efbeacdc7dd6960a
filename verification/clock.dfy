/** Time of day for a commit (`getRandomTime`) and the commit's timestamp,
    `moment(date).set(time)`, as seconds counted from day ordinal 0. */
module Clock {
  import opened Constants
  import opened Draws

  datatype TimeOfDay = TimeOfDay(hour: int, minute: int, second: int)

  const SecondsInHour: int := MinutesInHour * SecondsInMinute
  const SecondsInDay: int := HoursInDay * SecondsInHour

  predicate ValidTime(t: TimeOfDay) {
    && 0 <= t.hour < HoursInDay
    && 0 <= t.minute < MinutesInHour
    && 0 <= t.second < SecondsInMinute
  }

  /** `getRandomTime`: three draws scaled to an hour, a minute and a second. */
  function RandomTime(h: real, m: real, s: real): (t: TimeOfDay)
    requires UnitDraw(h) && UnitDraw(m) && UnitDraw(s)
    ensures ValidTime(t)
  {
    TimeOfDay(Scaled(h, HoursInDay), Scaled(m, MinutesInHour), Scaled(s, SecondsInMinute))
  }

  /** The timestamp of a commit made on day `date` at time `t`; it lies within that day. */
  function Instant(date: int, t: TimeOfDay): (ts: int)
    requires ValidTime(t)
    ensures date * SecondsInDay <= ts < (date + 1) * SecondsInDay
  {
    date * SecondsInDay + t.hour * SecondsInHour + t.minute * SecondsInMinute + t.second
  }

  /** The day a timestamp falls on. */
  function DateOf(ts: int): int {
    ts / SecondsInDay
  }

  /** The time of day of a timestamp. */
  function TimeOf(ts: int): TimeOfDay {
    var s := ts % SecondsInDay;
    TimeOfDay(s / SecondsInHour, (s % SecondsInHour) / SecondsInMinute, s % SecondsInMinute)
  }

  /** Splitting seconds into whole days and the seconds left over. */
  lemma SplitDay(d: int, x: int)
    requires 0 <= x < SecondsInDay
    ensures (d * SecondsInDay + x) / SecondsInDay == d
    ensures (d * SecondsInDay + x) % SecondsInDay == x
  {
  }

  /** Splitting seconds within a day into whole hours and the seconds left over. */
  lemma SplitHour(h: int, y: int)
    requires 0 <= y < SecondsInHour
    ensures (h * SecondsInHour + y) / SecondsInHour == h
    ensures (h * SecondsInHour + y) % SecondsInHour == y
  {
  }

  /** Splitting seconds within an hour into whole minutes and the seconds left over. */
  lemma SplitMinute(m: int, z: int)
    requires 0 <= z < SecondsInMinute
    ensures (m * SecondsInMinute + z) / SecondsInMinute == m
    ensures (m * SecondsInMinute + z) % SecondsInMinute == z
  {
  }

  /** A commit's timestamp keeps both its date and its time of day. */
  lemma InstantRoundTrip(date: int, t: TimeOfDay)
    requires ValidTime(t)
    ensures DateOf(Instant(date, t)) == date
    ensures TimeOf(Instant(date, t)) == t
  {
    var y := t.minute * SecondsInMinute + t.second;
    var x := t.hour * SecondsInHour + y;
    assert 0 <= y < SecondsInHour;
    assert 0 <= x < SecondsInDay;
    assert Instant(date, t) == date * SecondsInDay + x;
    SplitDay(date, x);
    SplitHour(t.hour, y);
    SplitMinute(t.minute, t.second);
    // the seconds field is read from the whole day's seconds
    assert x == (t.hour * MinutesInHour + t.minute) * SecondsInMinute + t.second;
    SplitMinute(t.hour * MinutesInHour + t.minute, t.second);
  }
}
