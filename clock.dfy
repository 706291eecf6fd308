/** Time as the model sees it, in two forms.
    An `Instant` is a whole number of minutes of wall-clock time since
    1970-01-01 00:00; it is what the scheduler adds offsets to and what the slot
    generator walks through.
    A `DateTime` is a broken-down Python `datetime` (its fields, and its UTC
    offset when it is zone-aware); it is what gets printed with strftime or
    isoformat. */
module Clock {
  import opened Wrappers
  import opened Text

  type Instant = int

  const MinutesPerDay := 1440

  /** The day number of an instant (day 0 is 1970-01-01). */
  function Day(t: Instant): int { t / MinutesPerDay }

  /** Minutes since midnight, in [0, 1440). */
  function MinuteOfDay(t: Instant): (m: int)
    ensures 0 <= m < MinutesPerDay
    ensures t == Day(t) * MinutesPerDay + m
  {
    t % MinutesPerDay
  }

  /** Midnight of the instant's calendar date. */
  function StartOfDay(t: Instant): (m: Instant)
    ensures m <= t < m + MinutesPerDay
    ensures Day(m) == Day(t) && MinuteOfDay(m) == 0
  {
    Day(t) * MinutesPerDay
  }

  /** `datetime.weekday()`: Monday is 0 and Sunday is 6; 1970-01-01 was a Thursday. */
  function Weekday(t: Instant): (w: int)
    ensures 0 <= w < 7
  {
    (Day(t) + 3) % 7
  }

  /** 1970-01-01 00:00, instant 0, was a Thursday. */
  lemma WeekdayEpoch()
    ensures Weekday(0) == 3
  {
  }

  /** The following day is the following weekday, Sunday wrapping to Monday. */
  lemma WeekdayNext(t: Instant)
    ensures Weekday(t + MinutesPerDay) == (Weekday(t) + 1) % 7
  {
    assert Day(t + MinutesPerDay) == Day(t) + 1;
  }

  /** Within one day the weekday does not change. */
  lemma WeekdaySameDay(t: Instant, u: Instant)
    requires Day(t) == Day(u)
    ensures Weekday(t) == Weekday(u)
  {
  }

  /** A `datetime.datetime`. `utcOffset` is None for a naive value and the offset in
      minutes for an aware one. */
  datatype DateTime = DateTime(year: int, month: int, day: int, hour: int, minute: int, second: int,
                               utcOffset: Option<int>)
  {
    predicate IsAware() { utcOffset.Some? }
  }

  /** A strftime number directive: the field zero-padded to `width`. */
  function Field(n: int, width: nat): string {
    if n < 0 then "-" + ZeroPad(-n, width) else ZeroPad(n, width)
  }

  /** `strftime('%Y%m%d%H%M')`. */
  function StampMinutes(t: DateTime): string {
    Field(t.year, 4) + Field(t.month, 2) + Field(t.day, 2) + Field(t.hour, 2) + Field(t.minute, 2)
  }

  /** For a four-digit year and two-digit month, day, hour and minute (as every
      real datetime has), the stamp is exactly twelve digits. */
  lemma StampMinutesShape(t: DateTime)
    requires 1 <= t.year <= 9999 && 0 <= t.month < 100 && 0 <= t.day < 100
    requires 0 <= t.hour < 100 && 0 <= t.minute < 100
    ensures |StampMinutes(t)| == 12 && IsDigits(StampMinutes(t))
  {
    assert Pow10(2) == 100 && Pow10(4) == 10000;
    ZeroPadWidth(t.year, 4);
    ZeroPadWidth(t.month, 2);
    ZeroPadWidth(t.day, 2);
    ZeroPadWidth(t.hour, 2);
    ZeroPadWidth(t.minute, 2);
    var y, mo, d, h, mi := Field(t.year, 4), Field(t.month, 2), Field(t.day, 2), Field(t.hour, 2), Field(t.minute, 2);
    DigitsConcat(y, mo);
    DigitsConcat(y + mo, d);
    DigitsConcat(y + mo + d, h);
    DigitsConcat(y + mo + d + h, mi);
  }

  /** `strftime('%Y%m%d%H%M%S')`. */
  function StampSeconds(t: DateTime): string {
    StampMinutes(t) + Field(t.second, 2)
  }

  /** `isoformat()`: YYYY-MM-DDTHH:MM:SS, then +HH:MM or -HH:MM for an aware value. */
  function IsoFormat(t: DateTime): string {
    Field(t.year, 4) + "-" + Field(t.month, 2) + "-" + Field(t.day, 2) + "T"
      + Field(t.hour, 2) + ":" + Field(t.minute, 2) + ":" + Field(t.second, 2)
      + match t.utcOffset
        case None => ""
        case Some(offset) =>
          var magnitude := if offset < 0 then -offset else offset;
          (if offset < 0 then "-" else "+") + Field(magnitude / 60, 2) + ":" + Field(magnitude % 60, 2)
  }
}
