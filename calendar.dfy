/** Calendar readings. The pipeline never derives calendar fields itself: it
    asks pandas or `datetime` for them. Here those readings are inputs,
    related to a count of seconds only where the relation is plain arithmetic
    (time of day, weekday), and the `strftime` layouts the pipeline writes
    are spelled out. */
module Calendar {
  import opened Base
  import opened Text

  /** A wall-clock reading as `datetime.now()` returns it. */
  datatype Clock = Clock(year: nat, month: nat, day: nat, hour: nat, minute: nat, second: nat, microsecond: nat)
  {
    predicate Valid() {
      1000 <= year <= 9999 && 1 <= month <= 12 && 1 <= day <= 31
      && hour < 24 && minute < 60 && second < 60 && microsecond < 1000000
    }
  }

  /** `now.strftime('%Y%m%d_%H%M%S')` */
  function CompactStamp(c: Clock): (r: string)
    requires c.Valid()
    ensures |r| == 15 && r[8] == '_'
  {
    var date := Four(c.year) + Two(c.month) + Two(c.day);
    assert |date| == 8;
    var r := date + ("_" + (Two(c.hour) + Two(c.minute) + Two(c.second)));
    assert r[8] == '_';
    r
  }

  /** `now.strftime('%Y/%m/%d/%H%M%S')` */
  function PathStamp(c: Clock): (r: string)
    requires c.Valid()
    ensures |r| == 17 && r[4] == '/' && r[7] == '/' && r[10] == '/'
  {
    var y, m, d := Four(c.year) + "/", Two(c.month) + "/", Two(c.day) + "/";
    var time := Two(c.hour) + Two(c.minute) + Two(c.second);
    var r := y + m + d + time;
    assert r[4] == y[4] && r[7] == (m + d + time)[2] == m[2] && r[10] == (d + time)[2] == d[2];
    r
  }

  /** `now.isoformat()`: the fraction appears only when there are microseconds. */
  function IsoFormat(c: Clock): (r: string)
    requires c.Valid()
    ensures |r| == if c.microsecond == 0 then 19 else 26
  {
    Four(c.year) + "-" + Two(c.month) + "-" + Two(c.day) + "T"
      + Two(c.hour) + ":" + Two(c.minute) + ":" + Two(c.second)
      + (if c.microsecond == 0 then "" else "." + Six(c.microsecond))
  }

  /** Reads a `%Y%m%d_%H%M%S` stamp back. */
  function ParseCompactStamp(s: string): (r: Option<Clock>)
  {
    if |s| == 15 && s[8] == '_' && AllDigits(s[..8]) && AllDigits(s[9..]) then
      Some(Clock(DigitsValue(s[..4]), DigitsValue(s[4..6]), DigitsValue(s[6..8]),
                 DigitsValue(s[9..11]), DigitsValue(s[11..13]), DigitsValue(s[13..]), 0))
    else None
  }

  /** The stamp in a file name determines the second it was taken. */
  lemma CompactStampRoundTrip(c: Clock)
    requires c.Valid()
    ensures ParseCompactStamp(CompactStamp(c)) == Some(c.(microsecond := 0))
  {
    var y, mo, d := Four(c.year), Two(c.month), Two(c.day);
    var h, mi, se := Two(c.hour), Two(c.minute), Two(c.second);
    var s := CompactStamp(c);
    assert s[..4] == y && s[4..6] == mo && s[6..8] == d;
    assert s[9..11] == h && s[11..13] == mi && s[13..] == se;
    assert s[..8] == y + mo + d && s[9..] == h + mi + se;
  }

  /** A point in time as pandas reports it for a parsed timestamp: `seconds`
      counts from 1970-01-01 00:00 (naive time), the other fields are the
      calendar readings pandas gives for it. */
  datatype Instant = Instant(
    seconds: int, date: string, year: int, month: nat, day: nat,
    hour: nat, minute: nat, dayOfWeek: nat, dayOfYear: nat, isoWeek: nat, quarter: nat)
  {
    /** The readings that follow from `seconds` by plain arithmetic agree with it;
        1970-01-01 was a Thursday (weekday 3 with Monday = 0). */
    predicate Valid() {
      && hour == (seconds % 86400) / 3600
      && minute == (seconds % 3600) / 60
      && dayOfWeek == (seconds / 86400 + 3) % 7
      && 1 <= month <= 12 && 1 <= day <= 31 && 1 <= dayOfYear <= 366
      && 1 <= isoWeek <= 53 && quarter == (month - 1) / 3 + 1
    }

    /** `ts.floor('H')`, as a count of hours. */
    function HourIndex(): int {
      seconds / 3600
    }
  }

  /** Two instants in the same clock hour share their hour of day and weekday. */
  lemma SameHourSameReadings(a: Instant, b: Instant)
    requires a.Valid() && b.Valid() && a.HourIndex() == b.HourIndex()
    ensures a.hour == b.hour && a.dayOfWeek == b.dayOfWeek
  {
    var k := a.HourIndex();
    assert a.seconds / 86400 == k / 24 && b.seconds / 86400 == k / 24;
    assert (a.seconds % 86400) / 3600 == k % 24 && (b.seconds % 86400) / 3600 == k % 24;
  }
}
