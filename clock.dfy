/**
 * estToUnix: a wall-clock reading in the transit agency's time zone, turned into
 * Unix seconds. The zone is what `time.LoadLocation("America/New_York")` gives;
 * here it is a fixed offset from UTC, and a failed load is `None`.
 */
module Clock {
  import opened Wrappers

  /** The fields `time.Parse` fills in from `2006-01-02 15:04:05`. */
  datatype DateTime = DateTime(year: int, month: int, day: int, hour: int, minute: int, second: int)

  /** A loaded location: seconds east of UTC. */
  datatype Zone = Zone(utcOffset: int)

  /** What estToUnix returns when the location cannot be loaded. */
  const LoadFailed: int := -1

  /** Days from 1970-01-01 to the given date of the proleptic Gregorian calendar. */
  function DaysFromCivil(year: int, month: int, day: int): int
  {
    var y := if month <= 2 then year - 1 else year;
    var era := y / 400;
    var yearOfEra := y - era * 400;
    var shiftedMonth := if month > 2 then month - 3 else month + 9;
    var dayOfYear := (153 * shiftedMonth + 2) / 5 + day - 1;
    var dayOfEra := yearOfEra * 365 + yearOfEra / 4 - yearOfEra / 100 + dayOfYear;
    era * 146097 + dayOfEra - 719468
  }

  /** `time.Date(year, month, day, hour, minute, second, _, zone).Unix()`. */
  function WallToUnix(year: int, month: int, day: int, hour: int, minute: int, second: int, zone: Zone): int
  {
    DaysFromCivil(year, month, day) * 86400 + hour * 3600 + minute * 60 + second - zone.utcOffset
  }

  /**
   * estToUnix as the source writes it: the day of the month goes in the seconds
   * argument and the seconds go in the nanoseconds argument, which `Unix()` drops.
   */
  function EstToUnixAsWritten(t: DateTime, zone: Option<Zone>): (r: int)
    ensures zone.None? ==> r == LoadFailed
  {
    match zone
    case None => LoadFailed
    case Some(z) => WallToUnix(t.year, t.month, t.day, t.hour, t.minute, t.day, z)
  }

  /** estToUnix as intended: every field of the reading in its own place. */
  function EstToUnix(t: DateTime, zone: Option<Zone>): (r: int)
    ensures zone.None? ==> r == LoadFailed
  {
    match zone
    case None => LoadFailed
    case Some(z) => WallToUnix(t.year, t.month, t.day, t.hour, t.minute, t.second, z)
  }

  /** The as-written result is off from the intended one by (day - second) seconds. */
  lemma AsWrittenOffset(t: DateTime, zone: Option<Zone>)
    requires zone.Some?
    ensures EstToUnixAsWritten(t, zone) == EstToUnix(t, zone) + t.day - t.second
  {
  }

  /**
   * As written, two readings of the same minute get the same timestamp:
   * 2024-01-05 10:00:30 and 2024-01-05 10:00:31 both become 10:00:05.
   */
  lemma AsWrittenLosesSeconds(z: Zone)
    ensures var a := DateTime(2024, 1, 5, 10, 0, 30);
            var b := DateTime(2024, 1, 5, 10, 0, 31);
            EstToUnixAsWritten(a, Some(z)) == EstToUnixAsWritten(b, Some(z))
            && EstToUnixAsWritten(a, Some(z)) == EstToUnix(DateTime(2024, 1, 5, 10, 0, 5), Some(z))
  {
  }

  /** As intended, readings of the same minute are as many seconds apart as their second fields. */
  lemma EstToUnixKeepsSeconds(t: DateTime, u: DateTime, zone: Option<Zone>)
    requires zone.Some?
    requires t.(second := 0) == u.(second := 0)
    ensures EstToUnix(u, zone) - EstToUnix(t, zone) == u.second - t.second
  {
  }

  /** 1970-01-01 00:00:00 at offset zero is instant zero. */
  lemma EpochIsZero()
    ensures EstToUnix(DateTime(1970, 1, 1, 0, 0, 0), Some(Zone(0))) == 0
  {
  }
}
