/** The live monitoring screen (`MonitoringViewModel.kt`): heartbeat
    liveness over a 30 second window, the eleven sensor cards, and the two
    rolling chart buffers of at most 60 samples each. */
module Monitoring {
  import opened Wrappers
  import opened Text
  import opened SensorCards

  /** The record this screen reads from `devices/{id}/sensors/latest`,
      under the field names the screen itself uses. The two gas getters
      always produce a number. */
  datatype MonitoringLatest = MonitoringLatest(
    timestamp: Option<int>,
    airTemperature: Option<real>,
    airHumidity: Option<real>,
    soilMoisturePct: Option<int>,
    soilMoistureRaw: Option<int>,
    soilTemperature: Option<real>,
    airQualityIndex: Option<int>,
    co2Ppm: real,
    nh3Ppm: real,
    lightDetected: Option<int>,
    rainStatus: Option<string>,
    rainLevelRaw: Option<int>,
    relayStatus: Option<string>)

  const HeartbeatWindowMillis := 30000
  const MaxChartSamples := 60
  const DefaultErrorMessage := "Error loading monitoring data"

  /** The degree unit exactly as this screen spells it (a mis-encoded
      degree sign followed by C). */
  const DegreesUnit := "째C"

  /** The card labels, in display order. */
  const CardNames: seq<string> := ["Air Temp", "Humidity", "Soil Moisture", "Soil Moist Raw", "Soil Temp",
                                   "AQI", "CO2", "NH3", "Light", "Rain", "Relay"]

  const AirTempBounds := Bounds(20.0, 32.0)
  const HumidityBounds := Bounds(40.0, 75.0)
  const SoilMoistureBounds := Bounds(30.0, 70.0)
  const SoilTempBounds := Bounds(20.0, 32.0)

  /** The liveness poll: online iff a heartbeat has been received and at
      most 30 seconds have passed since it arrived. */
  predicate IsOnline(lastHeartbeatAt: Option<int>, now: int)
  {
    lastHeartbeatAt.Some? && now - lastHeartbeatAt.value <= HeartbeatWindowMillis
  }

  /** Liveness as a window: a heartbeat received at `t` keeps the device
      online exactly until `t + 30000`, and never before the first one. */
  lemma HeartbeatWindow(lastHeartbeatAt: Option<int>, now: int)
    ensures lastHeartbeatAt.None? ==> !IsOnline(lastHeartbeatAt, now)
    ensures lastHeartbeatAt.Some? ==> (IsOnline(lastHeartbeatAt, now) <==> now <= lastHeartbeatAt.value + 30000)
  {
  }

  /** `createOfflineCards`. */
  function OfflineCards(): (r: seq<SensorCard>)
    ensures |r| == |CardNames|
  {
    [SensorCard("Air Temp", 0.0, DegreesUnit, Normal, Some("Offline")),
     SensorCard("Humidity", 0.0, "%", Normal, Some("Offline")),
     SensorCard("Soil Moisture", 0.0, "%", Normal, Some("Offline")),
     SensorCard("Soil Moist Raw", 0.0, "", Normal, Some("Offline")),
     SensorCard("Soil Temp", 0.0, DegreesUnit, Normal, Some("Offline")),
     SensorCard("AQI", 0.0, "", Normal, Some("Offline")),
     SensorCard("CO2", 0.0, "ppm", Normal, Some("Offline")),
     SensorCard("NH3", 0.0, "ppm", Normal, Some("Offline")),
     SensorCard("Light", 0.0, "", Normal, Some("Offline")),
     SensorCard("Rain", 0.0, "", Normal, Some("Offline")),
     SensorCard("Relay", 0.0, "", Normal, Some("Offline"))]
  }

  /** Every offline card reads zero, is normal and is captioned Offline. */
  lemma OfflineCardsBlank(i: int)
    requires 0 <= i < |OfflineCards()|
    ensures OfflineCards()[i].value == 0.0 && OfflineCards()[i].status == Normal
    ensures OfflineCards()[i].extra == Some("Offline")
  {
  }

  /** NORMAL strictly below a single limit, HIGH from it upwards (the AQI,
      CO2 and NH3 cards). */
  function BelowLimit(value: real, limit: real): (r: SensorStatus)
    ensures r != Low
    ensures r == Normal <==> value < limit
  {
    if value < limit then Normal else High
  }

  /** `convertToSensorCards`: the offline cards unless the snapshot is
      fresh, and otherwise the eleven live cards in the same order. */
  function CardsFor(latest: MonitoringLatest, isOnline: bool): (r: seq<SensorCard>)
    ensures |r| == |CardNames|
    ensures !isOnline ==> r == OfflineCards()
  {
    if !isOnline then OfflineCards()
    else
      var airTemp := latest.airTemperature.GetOr(0.0);
      var humidity := latest.airHumidity.GetOr(0.0);
      var soilMoisturePct := latest.soilMoisturePct.GetOr(0) as real;
      var soilMoistureRaw := latest.soilMoistureRaw.GetOr(0) as real;
      var soilTemp := latest.soilTemperature.GetOr(0.0);
      var aqi := latest.airQualityIndex.GetOr(0) as real;
      var light := latest.lightDetected.GetOr(0);
      var rainStatus := latest.rainStatus.GetOr("Unknown");
      var rainLevel := latest.rainLevelRaw.GetOr(0) as real;
      var relay := latest.relayStatus.GetOr("off");
      var aqiStatus := BelowLimit(aqi, 300.0);
      [SensorCard("Air Temp", airTemp, DegreesUnit, GetStatus(airTemp, AirTempBounds), None),
       SensorCard("Humidity", humidity, "%", GetStatus(humidity, HumidityBounds), None),
       SensorCard("Soil Moisture", soilMoisturePct, "%", GetStatus(soilMoisturePct, SoilMoistureBounds), None),
       SensorCard("Soil Moist Raw", soilMoistureRaw, "", Normal, None),
       SensorCard("Soil Temp", soilTemp, DegreesUnit, GetStatus(soilTemp, SoilTempBounds), None),
       SensorCard("AQI", aqi, "", aqiStatus, Some(if aqiStatus == High then "Poor" else "Normal")),
       SensorCard("CO2", latest.co2Ppm, "ppm", BelowLimit(latest.co2Ppm, 1000.0), None),
       SensorCard("NH3", latest.nh3Ppm, "ppm", BelowLimit(latest.nh3Ppm, 25.0), None),
       SensorCard("Light", if light == 1 then 1.0 else 0.0, "", Normal, Some(if light == 1 then "Detected" else "Dark")),
       SensorCard("Rain", rainLevel, "", if ContainsIgnoreCase(rainStatus, "Rain") then High else Normal, Some(rainStatus)),
       SensorCard("Relay", if relay == "on" then 1.0 else 0.0, "", Normal, Some(Upper(relay)))]
  }

  /** The relay card of a live snapshot reads 1.0 exactly when the status
      is literally `"on"` (no trimming, no case folding; a missing one
      counts as `"off"`), and its caption is the upper-cased status. */
  lemma RelayCard(latest: MonitoringLatest)
    ensures CardsFor(latest, true)[10].value == 1.0 <==> latest.relayStatus == Some("on")
    ensures CardsFor(latest, true)[10].extra == Some(Upper(latest.relayStatus.GetOr("off")))
  {
  }

  /** The rain card is HIGH exactly when its status mentions "rain" in any
      case, and the light card reads 1.0 exactly when light is detected. */
  lemma RainAndLightCards(latest: MonitoringLatest)
    ensures CardsFor(latest, true)[9].status == High <==> ContainsIgnoreCase(latest.rainStatus.GetOr("Unknown"), "Rain")
    ensures CardsFor(latest, true)[8].value == 1.0 <==> latest.lightDetected == Some(1)
  {
  }

  /** The AQI card is captioned Poor from 300 upwards, Normal below. */
  lemma AqiCard(latest: MonitoringLatest)
    ensures CardsFor(latest, true)[5].extra == Some("Poor") <==> 300.0 <= latest.airQualityIndex.GetOr(0) as real
  {
  }

  /** A snapshot counts as fresh only with a positive timestamp. */
  predicate IsFresh(latest: MonitoringLatest)
  {
    latest.timestamp.Some? && latest.timestamp.value > 0
  }

  /** One chart entry: the receipt time and the two plotted readings. */
  datatype Sample = Sample(timestamp: int, first: real, second: real)

  /** One plotted point: its position in the buffer and the two readings. */
  datatype ChartPoint = ChartPoint(index: int, first: real, second: real)

  datatype ChartData = ChartData(tempHumidityData: seq<ChartPoint>, soilAqiData: seq<ChartPoint>)

  function TempHumiditySample(latest: MonitoringLatest, t: int): Sample
  {
    Sample(t, latest.airTemperature.GetOr(0.0), latest.airHumidity.GetOr(0.0))
  }

  function SoilAqiSample(latest: MonitoringLatest, t: int): Sample
  {
    Sample(t, latest.soilMoisturePct.GetOr(0) as real, latest.airQualityIndex.GetOr(0) as real)
  }

  function Min(a: int, b: int): int
  {
    if a <= b then a else b
  }

  /** The newest (at most) 60 entries of a history, oldest first. */
  function Window(history: seq<Sample>): (r: seq<Sample>)
    ensures |r| == Min(|history|, MaxChartSamples)
  {
    if |history| <= MaxChartSamples then history else history[|history| - MaxChartSamples..]
  }

  /** `add` followed by `removeAt(0)` when the buffer has outgrown 60. */
  function PushSample(buffer: seq<Sample>, x: Sample): (r: seq<Sample>)
    requires |buffer| <= MaxChartSamples
    ensures |r| <= MaxChartSamples && |r| > 0 && r[|r| - 1] == x
  {
    var added := buffer + [x];
    if |added| > MaxChartSamples then added[1..] else added
  }

  /** Pushing onto the window of a history gives the window of the longer
      history: the buffer always holds the newest 60 entries in arrival
      order, dropping the oldest first. */
  lemma WindowOfPush(history: seq<Sample>, x: Sample)
    ensures PushSample(Window(history), x) == Window(history + [x])
  {
    var w := Window(history);
    var h := history + [x];
    if |history| < MaxChartSamples {
      assert w == history;
      assert Window(h) == h;
    } else {
      assert w + [x] == history[|history| - MaxChartSamples..] + [x];
      assert (w + [x])[1..] == h[|h| - MaxChartSamples..];
    }
  }

  /** `mapIndexed`: each entry becomes a point at its own buffer position,
      keeping its readings and dropping its timestamp. */
  function ChartPoints(buffer: seq<Sample>): (r: seq<ChartPoint>)
    ensures |r| == |buffer|
    ensures forall i :: 0 <= i < |r| ==> r[i] == ChartPoint(i, buffer[i].first, buffer[i].second)
  {
    seq(|buffer|, i requires 0 <= i < |buffer| => ChartPoint(i, buffer[i].first, buffer[i].second))
  }

  /** The buffer after pushing `samples` one by one onto an empty one. */
  function Buffered(samples: seq<Sample>): (r: seq<Sample>)
    ensures |r| <= MaxChartSamples
    decreases |samples|
  {
    if samples == [] then []
    else PushSample(Buffered(samples[..|samples| - 1]), samples[|samples| - 1])
  }

  /** Whatever the number of samples pushed, the buffer holds exactly the
      newest 60 of them, oldest first. */
  lemma {:induction false} BufferedIsWindow(samples: seq<Sample>)
    ensures Buffered(samples) == Window(samples)
  {
    if samples != [] {
      var front := samples[..|samples| - 1];
      BufferedIsWindow(front);
      WindowOfPush(front, samples[|samples| - 1]);
      assert front + [samples[|samples| - 1]] == samples;
    }
  }

  /** Everything the screen exposes, plus the private buffers and the
      receipt time of the last heartbeat. */
  datatype Screen = Screen(
    loading: bool,
    errorMessage: Option<string>,
    sensorCards: seq<SensorCard>,
    lastSeen: Option<int>,
    online: bool,
    lastReceivedTime: Option<int>,
    deviceUptime: Option<int>,
    tempHumidityBuffer: seq<Sample>,
    soilAqiBuffer: seq<Sample>,
    chartData: ChartData,
    lastHeartbeatAt: Option<int>)

  /** The two buffers are pushed together and never exceed 60 entries, and
      the chart always shows them. */
  predicate ChartsConsistent(s: Screen)
  {
    |s.tempHumidityBuffer| == |s.soilAqiBuffer| <= MaxChartSamples &&
    s.chartData == ChartData(ChartPoints(s.tempHumidityBuffer), ChartPoints(s.soilAqiBuffer))
  }

  /** The screen as it opens: loading, offline cards, empty charts, no
      heartbeat yet. */
  const InitialScreen := Screen(true, None, OfflineCards(), None, false, None, None, [], [], ChartData([], []), None)

  /** `updateChartBuffers` on the screen state. */
  function WithSamples(s: Screen, latest: MonitoringLatest, t: int): (r: Screen)
    requires ChartsConsistent(s)
    ensures ChartsConsistent(r)
  {
    var th := PushSample(s.tempHumidityBuffer, TempHumiditySample(latest, t));
    var sa := PushSample(s.soilAqiBuffer, SoilAqiSample(latest, t));
    s.(tempHumidityBuffer := th, soilAqiBuffer := sa, chartData := ChartData(ChartPoints(th), ChartPoints(sa)))
  }

  /** The collector's handling of one sensor record and one heartbeat
      received at local time `now`. */
  function AfterCollect(s: Screen, latest: MonitoringLatest, seen: Option<int>, now: int): (r: Screen)
    requires ChartsConsistent(s)
    ensures ChartsConsistent(r)
  {
    var beat := if seen.Some? then s.(lastSeen := seen, lastHeartbeatAt := Some(now), deviceUptime := seen) else s;
    var charted := if IsFresh(latest) then WithSamples(beat.(lastReceivedTime := Some(now)), latest, now) else beat;
    charted.(sensorCards := CardsFor(latest, IsFresh(latest)), loading := false)
  }

  /** A heartbeat records when it arrived, not what it says: the liveness
      the next poll computes is the same whatever the heartbeat's value,
      and without a heartbeat the receipt time stays as it was. */
  lemma HeartbeatValueIgnored(s: Screen, latest: MonitoringLatest, v1: int, v2: int, now: int, t: int)
    requires ChartsConsistent(s)
    ensures AfterCollect(s, latest, Some(v1), now).lastHeartbeatAt == Some(now)
    ensures IsOnline(AfterCollect(s, latest, Some(v1), now).lastHeartbeatAt, t) ==
            IsOnline(AfterCollect(s, latest, Some(v2), now).lastHeartbeatAt, t)
    ensures AfterCollect(s, latest, None, now).lastHeartbeatAt == s.lastHeartbeatAt
  {
  }

  /** Only a fresh record reaches the charts: each buffer then gains that
      record's sample at the end; otherwise buffers and chart stay. */
  lemma ChartsOnlyFromFresh(s: Screen, latest: MonitoringLatest, seen: Option<int>, now: int)
    requires ChartsConsistent(s)
    ensures IsFresh(latest) ==>
              AfterCollect(s, latest, seen, now).tempHumidityBuffer == PushSample(s.tempHumidityBuffer, TempHumiditySample(latest, now)) &&
              AfterCollect(s, latest, seen, now).soilAqiBuffer == PushSample(s.soilAqiBuffer, SoilAqiSample(latest, now)) &&
              AfterCollect(s, latest, seen, now).lastReceivedTime == Some(now)
    ensures !IsFresh(latest) ==>
              AfterCollect(s, latest, seen, now).tempHumidityBuffer == s.tempHumidityBuffer &&
              AfterCollect(s, latest, seen, now).soilAqiBuffer == s.soilAqiBuffer &&
              AfterCollect(s, latest, seen, now).chartData == s.chartData &&
              AfterCollect(s, latest, seen, now).lastReceivedTime == s.lastReceivedTime
  {
  }

  /** The cards always follow the latest record (offline unless fresh),
      loading ends, and the error and the liveness flag are untouched. */
  lemma CollectShowsCards(s: Screen, latest: MonitoringLatest, seen: Option<int>, now: int)
    requires ChartsConsistent(s)
    ensures AfterCollect(s, latest, seen, now).sensorCards == CardsFor(latest, IsFresh(latest))
    ensures !IsFresh(latest) ==> AfterCollect(s, latest, seen, now).sensorCards == OfflineCards()
    ensures !AfterCollect(s, latest, seen, now).loading
    ensures AfterCollect(s, latest, seen, now).errorMessage == s.errorMessage
    ensures AfterCollect(s, latest, seen, now).online == s.online
  {
  }

  class MonitoringViewModel {
    var loading: bool
    var errorMessage: Option<string>
    var sensorCards: seq<SensorCard>
    var lastSeen: Option<int>
    var online: bool
    var lastReceivedTime: Option<int>
    var deviceUptime: Option<int>
    var tempHumidityBuffer: seq<Sample>
    var soilAqiBuffer: seq<Sample>
    var chartData: ChartData
    var lastHeartbeatAt: Option<int>

    function State(): Screen
      reads this
    {
      Screen(loading, errorMessage, sensorCards, lastSeen, online, lastReceivedTime, deviceUptime,
             tempHumidityBuffer, soilAqiBuffer, chartData, lastHeartbeatAt)
    }

    predicate Valid()
      reads this
    {
      ChartsConsistent(State())
    }

    constructor ()
      ensures Valid() && State() == InitialScreen
    {
      loading, errorMessage, sensorCards := true, None, OfflineCards();
      lastSeen, online, lastReceivedTime, deviceUptime := None, false, None, None;
      tempHumidityBuffer, soilAqiBuffer := [], [];
      chartData := ChartData([], []);
      lastHeartbeatAt := None;
    }

    /** `updateChartBuffers`: one entry appended to each buffer, each then
        cut back to 60 by dropping its oldest entry, and the chart rebuilt
        from both. */
    method UpdateChartBuffers(latest: MonitoringLatest, t: int)
      requires Valid()
      modifies this
      ensures Valid() && State() == WithSamples(old(State()), latest, t)
    {
      tempHumidityBuffer := tempHumidityBuffer + [TempHumiditySample(latest, t)];
      if |tempHumidityBuffer| > MaxChartSamples {
        tempHumidityBuffer := tempHumidityBuffer[1..];
      }
      soilAqiBuffer := soilAqiBuffer + [SoilAqiSample(latest, t)];
      if |soilAqiBuffer| > MaxChartSamples {
        soilAqiBuffer := soilAqiBuffer[1..];
      }
      chartData := ChartData(ChartPoints(tempHumidityBuffer), ChartPoints(soilAqiBuffer));
    }

    /** The collector receiving a sensor record and a heartbeat at local
        time `now`. */
    method OnCollect(latest: MonitoringLatest, seen: Option<int>, now: int)
      requires Valid()
      modifies this
      ensures Valid() && State() == AfterCollect(old(State()), latest, seen, now)
    {
      if seen.Some? {
        lastSeen := seen;
        lastHeartbeatAt := Some(now);
        deviceUptime := seen;
      }
      if IsFresh(latest) {
        lastReceivedTime := Some(now);
        UpdateChartBuffers(latest, now);
      }
      sensorCards := CardsFor(latest, IsFresh(latest));
      loading := false;
    }

    /** The stream failing: its message, or a fixed one, is shown. */
    method OnStreamError(message: Option<string>)
      requires Valid()
      modifies this
      ensures Valid()
      ensures State() == old(State()).(errorMessage := Some(message.GetOr(DefaultErrorMessage)), loading := false)
    {
      errorMessage := Some(message.GetOr(DefaultErrorMessage));
      loading := false;
    }

    /** One round of the liveness poll at local time `now`. */
    method PollOnline(now: int)
      requires Valid()
      modifies this
      ensures Valid() && State() == old(State()).(online := IsOnline(lastHeartbeatAt, now))
    {
      online := IsOnline(lastHeartbeatAt, now);
    }
  }

  /** The chart re-indexes its buffer: both series have the buffer's
      length and each point sits at its own index. */
  lemma ChartIndexed(s: Screen)
    requires ChartsConsistent(s)
    ensures |s.chartData.tempHumidityData| == |s.tempHumidityBuffer| == |s.soilAqiBuffer|
    ensures forall i :: 0 <= i < |s.chartData.soilAqiData| ==>
              s.chartData.soilAqiData[i] == ChartPoint(i, s.soilAqiBuffer[i].first, s.soilAqiBuffer[i].second)
  {
  }
}
