/** `Long.toTimeAgo` (`Extensions.kt`): how long ago a millisecond instant
    was, in the largest whole unit that is not zero. The current time is a
    parameter. */
module TimeAgoText {
  import opened Text
  import opened KotlinInt

  const MillisPerMinute := 60000
  const MillisPerHour := 3600000
  const MillisPerDay := 86400000

  /** The four shapes of the text: "N day(s) ago", "N hour(s) ago",
      "N minute(s) ago" or "Just now". */
  datatype TimeAgo = Days(n: nat) | Hours(n: nat) | Minutes(n: nat) | JustNow

  /** The chain of truncating divisions the source performs on
      `diff = now - this`. */
  function SecondsOf(diff: int): int { TDiv(diff, 1000) }
  function MinutesOf(diff: int): int { TDiv(SecondsOf(diff), 60) }
  function HoursOf(diff: int): int { TDiv(MinutesOf(diff), 60) }
  function DaysOf(diff: int): int { TDiv(HoursOf(diff), 24) }

  /** For an instant in the past, the chained divisions are the floors of
      `diff` over the length of each unit. */
  lemma UnitsFloored(diff: int)
    requires diff >= 0
    ensures MinutesOf(diff) == diff / MillisPerMinute
    ensures HoursOf(diff) == diff / MillisPerHour
    ensures DaysOf(diff) == diff / MillisPerDay
  {
    NestedTDiv(diff, 1000, 60);
    NestedTDiv(diff, 60000, 60);
    NestedTDiv(diff, 3600000, 24);
  }

  /** For an instant in the future every count is zero or negative. */
  lemma FutureCountsNonPositive(diff: int)
    requires diff < 0
    ensures MinutesOf(diff) <= 0 && HoursOf(diff) <= 0 && DaysOf(diff) <= 0
  {
  }

  function ToTimeAgo(t: int, now: int): (r: TimeAgo)
    ensures !r.JustNow? ==> r.n > 0
  {
    var diff := now - t;
    if DaysOf(diff) > 0 then Days(DaysOf(diff))
    else if HoursOf(diff) > 0 then Hours(HoursOf(diff))
    else if MinutesOf(diff) > 0 then Minutes(MinutesOf(diff))
    else JustNow
  }

  /** The same classification written directly on the elapsed
      milliseconds: the largest unit that fits at least once. */
  function ReferenceTimeAgo(diff: int): TimeAgo
  {
    if diff >= MillisPerDay then Days(diff / MillisPerDay)
    else if diff >= MillisPerHour then Hours(diff / MillisPerHour)
    else if diff >= MillisPerMinute then Minutes(diff / MillisPerMinute)
    else JustNow
  }

  /** The source's chain of divisions agrees with the direct definition for
      every pair of instants, the future included. */
  lemma ToTimeAgoIsReference(t: int, now: int)
    ensures ToTimeAgo(t, now) == ReferenceTimeAgo(now - t)
  {
    var diff := now - t;
    if diff >= 0 {
      UnitsFloored(diff);
    } else {
      FutureCountsNonPositive(diff);
    }
  }

  /** "Just now" exactly when less than a minute has passed, or the instant
      lies in the future. */
  lemma JustNowExactly(t: int, now: int)
    ensures ToTimeAgo(t, now) == JustNow <==> now - t < MillisPerMinute
  {
    ToTimeAgoIsReference(t, now);
  }

  /** The decimal digits of `n`, as `"$n"` prints them. */
  function Decimal(n: nat): (r: string)
    ensures |r| >= 1 && AllDigits(r)
  {
    var d := ['0' + (n % 10) as char];
    if n < 10 then d else Decimal(n / 10) + d
  }

  /** `"$n $unit"`, plural when `n > 1`, followed by " ago". */
  function Phrase(n: nat, unit: string): string
  {
    Decimal(n) + " " + unit + (if n > 1 then "s" else "") + " ago"
  }

  /** The text shown. */
  function Render(r: TimeAgo): string
  {
    match r
    case Days(n) => Phrase(n, "day")
    case Hours(n) => Phrase(n, "hour")
    case Minutes(n) => Phrase(n, "minute")
    case JustNow => "Just now"
  }

  /** The unit takes its "s" exactly when the count is greater than one. */
  lemma {:induction false} PluralExactly(n: nat, unit: string)
    requires |unit| >= 1 && unit[|unit| - 1] != 's'
    ensures var p := Phrase(n, unit);
            |p| >= 5 && (p[|p| - 5] == 's' <==> n > 1)
  {
    var p := Phrase(n, unit);
    var tail := unit + (if n > 1 then "s" else "") + " ago";
    assert p == (Decimal(n) + " ") + tail;
    assert p[|p| - 5] == tail[|tail| - 5];
  }
}
