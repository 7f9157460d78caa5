/** The wall clock the reminders use, reduced to a day number and a time of
    day. `datetime.now()` becomes a `Moment` passed in by the caller. */
module Clock {

  /** A local time stamp: an abstract day number (the calendar is not
      modelled) and hour, minute and second within that day. */
  datatype Moment = Moment(day: int, hour: int, minute: int, second: int) {
    predicate Valid() {
      0 <= hour < 24 && 0 <= minute < 60 && 0 <= second < 60
    }
  }

  const SecondsPerDay := 86400

  /** Seconds since the start of day 0. */
  function Ticks(m: Moment): int {
    m.day * SecondsPerDay + m.hour * 3600 + m.minute * 60 + m.second
  }

  /** `a <= b` on datetimes. */
  predicate NotAfter(a: Moment, b: Moment) {
    Ticks(a) <= Ticks(b)
  }

  /** The valid moment a tick count stands for. */
  function FromTicks(t: int): (m: Moment)
    ensures m.Valid() && Ticks(m) == t
  {
    var d := t / SecondsPerDay;
    var r := t % SecondsPerDay;
    var m := Moment(d, r / 3600, (r % 3600) / 60, r % 60);
    assert r == (r / 3600) * 3600 + ((r % 3600) / 60) * 60 + r % 60;
    m
  }

  /** `m + timedelta(minutes=n)`. */
  function AddMinutes(m: Moment, n: nat): (r: Moment)
    ensures r.Valid() && Ticks(r) == Ticks(m) + 60 * n
  {
    FromTicks(Ticks(m) + 60 * n)
  }

  /** `m + timedelta(days=1)`. */
  function NextDay(m: Moment): (r: Moment)
    ensures m.Valid() ==> r.Valid()
    ensures Ticks(r) == Ticks(m) + SecondsPerDay
    ensures r.hour == m.hour && r.minute == m.minute && r.second == m.second
  {
    m.(day := m.day + 1)
  }

  /** `m.replace(hour=h, minute=0, second=0)` for an hour the call accepts. */
  function AtHour(m: Moment, h: nat): (r: Moment)
    requires h < 24
    ensures r.Valid() && r.day == m.day && r.hour == h && r.minute == 0 && r.second == 0
  {
    Moment(m.day, h, 0, 0)
  }

  /** Adding a positive number of minutes moves strictly forward, and a
      moment that far ahead is never reported as due at `m`. */
  lemma AddMinutesIsLater(m: Moment, n: nat)
    requires n > 0
    ensures NotAfter(m, AddMinutes(m, n)) && !NotAfter(AddMinutes(m, n), m)
  {
  }
}
