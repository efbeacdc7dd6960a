/** Application-wide constants of the generator. */
module Constants {
  const HoursInDay: int := 24
  const MinutesInHour: int := 60
  const SecondsInMinute: int := 60
  /** Progress is reported every this many commits. */
  const ProgressInterval: int := 10
  /** When false, dates after today are rejected by validation. */
  const AllowFutureDates: bool := false
}
