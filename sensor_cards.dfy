/** The card shown for each sensor reading and the three-band status
    classifier shared by the monitoring and dashboard screens
    (`getStatus` in `MonitoringViewModel.kt`; the six dashboard classifiers
    are the same rule with fixed bounds). */
module SensorCards {
  import opened Wrappers

  datatype SensorStatus = Low | Normal | High {
    /** The order of the bands, from too low to too high. */
    function Rank(): nat
    {
      match this
      case Low => 0
      case Normal => 1
      case High => 2
    }
  }

  /** One card: a label, the reading, its unit, its band and an optional
      caption. The icon resource is a UI lookup and is not modelled. */
  datatype SensorCard = SensorCard(
    name: string,
    value: real,
    unit: string,
    status: SensorStatus,
    extra: Option<string>)

  /** A pair of inclusive bounds for the normal band. */
  datatype Bounds = Bounds(low: real, high: real)

  /** `getStatus`: LOW strictly below the low bound, otherwise HIGH
      strictly above the high bound, and NORMAL on the closed range
      between them. */
  function GetStatus(value: real, b: Bounds): (r: SensorStatus)
    ensures r == Low <==> value < b.low
    ensures r == High <==> b.low <= value && b.high < value
    ensures r == Normal <==> b.low <= value <= b.high
  {
    if value < b.low then Low
    else if value > b.high then High
    else Normal
  }

  /** With ordered bounds the classifier is monotone: a larger reading
      never falls in a lower band. */
  lemma GetStatusMonotone(v1: real, v2: real, b: Bounds)
    requires b.low <= b.high && v1 <= v2
    ensures GetStatus(v1, b).Rank() <= GetStatus(v2, b).Rank()
  {
  }

  /** Both bounds themselves are normal. */
  lemma BoundsAreNormal(b: Bounds)
    requires b.low <= b.high
    ensures GetStatus(b.low, b) == Normal && GetStatus(b.high, b) == Normal
  {
  }
}
