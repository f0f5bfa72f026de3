/** `formatTimestamp` (`TimestampUtils.kt`): how a device timestamp is read
    before it reaches the date formatter. Small values are device uptime,
    mid-sized ones epoch seconds, large ones epoch milliseconds. */
module Timestamps {
  import opened Wrappers

  const OneBillion := 1_000_000_000
  const OneTrillion := 1_000_000_000_000
  /** 2000-01-01T00:00:00Z and 2100-01-01T00:00:00Z in epoch milliseconds. */
  const Year2000Millis := 946684800000
  const Year2100Millis := 4102444800000

  /** What the function shows: the literal "Unknown", the literal
      "Just now", or the formatted date of an epoch-millisecond instant. */
  datatype TimestampText = Unknown | JustNow | Format(epochMillis: int)

  /** The instant a timestamp of at least one billion denotes. */
  function EpochMillis(ts: int): (r: int)
    requires ts >= OneBillion
    ensures ts < OneTrillion ==> r == ts * 1000
    ensures ts >= OneTrillion ==> r == ts
    ensures r >= Year2000Millis
  {
    if ts < OneTrillion then ts * 1000 else ts
  }

  function FormatTimestamp(ts: Option<int>): (r: TimestampText)
    ensures ts.None? || ts.value <= 0 <==> r == Unknown
    ensures r.Format? ==> Year2000Millis <= r.epochMillis <= Year2100Millis
  {
    if ts.None? then Unknown
    else if ts.value <= 0 then Unknown
    else if ts.value < OneBillion then JustNow
    else
      var epochMillis := EpochMillis(ts.value);
      if !(Year2000Millis <= epochMillis <= Year2100Millis) then JustNow
      else Format(epochMillis)
  }

  /** Device uptime, a positive value below one billion, is shown as
      "Just now". */
  lemma UptimeIsJustNow(ts: int)
    requires 0 < ts < OneBillion
    ensures FormatTimestamp(Some(ts)) == JustNow
  {
  }

  /** A timestamp is formatted exactly when its reading as seconds or as
      milliseconds falls in the years 2000 to 2100, and then what is
      formatted is that reading. */
  lemma FormattedExactly(ts: int)
    ensures FormatTimestamp(Some(ts)).Format? <==>
              (OneBillion <= ts < OneTrillion && Year2000Millis <= ts * 1000 <= Year2100Millis) ||
              (OneTrillion <= ts && ts <= Year2100Millis)
    ensures FormatTimestamp(Some(ts)).Format? ==>
              FormatTimestamp(Some(ts)).epochMillis == (if ts < OneTrillion then ts * 1000 else ts)
  {
  }

  /** Seconds and milliseconds denoting the same instant are shown alike
      once the seconds reach one billion (September 2001). */
  lemma SecondsAndMillisAgree(seconds: int)
    requires OneBillion <= seconds < OneTrillion
    ensures FormatTimestamp(Some(seconds)) == FormatTimestamp(Some(seconds * 1000))
  {
  }

  /** Every reading of a timestamp of at least one billion is at least one
      trillion milliseconds (September 2001), so the year-2000 lower bound
      never rejects anything, and no instant before September 2001 is ever
      formatted, whether given in seconds or in milliseconds. */
  lemma NothingBeforeOneTrillion(ts: int)
    ensures ts >= OneBillion ==> EpochMillis(ts) >= OneTrillion
    ensures FormatTimestamp(Some(ts)).Format? ==> FormatTimestamp(Some(ts)).epochMillis >= OneTrillion
    ensures Year2000Millis / 1000 <= ts < OneBillion ==>
              FormatTimestamp(Some(ts)) == JustNow && FormatTimestamp(Some(ts * 1000)) == JustNow
  {
  }
}
