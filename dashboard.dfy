/** The farm dashboard (`DashboardViewModel.kt`): a snapshot is shown
    only when it carries a positive `updatedAt`, as seven cards classified
    by six fixed bands (soil temperature reuses the air-temperature band). */
module Dashboard {
  import opened Wrappers
  import opened SensorModels
  import opened SensorCards
  import opened FirebaseData

  const SoilMoistureBounds := Bounds(30.0, 70.0)
  const AirTempBounds := Bounds(20.0, 32.0)
  const HumidityBounds := Bounds(40.0, 75.0)
  const RainLevelBounds := Bounds(10.0, 50.0)
  const Co2Bounds := Bounds(350.0, 1000.0)
  const LightBounds := Bounds(30.0, 80.0)

  const ObserveErrorMessage := "Error fetching sensor data"

  /** The card labels, in display order. */
  const CardNames: seq<string> := ["Soil Moisture", "Soil Temperature", "Air Temperature", "Humidity",
                                   "Rain Level", "CO2 Level", "Light"]

  /** `hasValidData`. */
  predicate HasValidData(s: SensorSnapshot)
  {
    s.updatedAt > 0
  }

  /** A device record without `updatedAt` converts to a snapshot the
      dashboard refuses, and so does the default snapshot every failed
      read falls back to. */
  lemma MissingUpdatedAtInvalid(latest: RtdbSensorLatest)
    requires latest.updatedAt.None?
    ensures !HasValidData(ToSnapshotDefaults(latest))
    ensures !HasValidData(DefaultSensorSnapshot)
  {
  }

  /** `convertToSensorCards`: seven cards, each reading copied verbatim
      and classified by its band. */
  function DashboardCards(s: SensorSnapshot): (r: seq<SensorCard>)
    ensures |r| == |CardNames|
  {
    [SensorCard("Soil Moisture", s.soilMoisturePercent, "%", GetStatus(s.soilMoisturePercent, SoilMoistureBounds), None),
     SensorCard("Soil Temperature", s.soilTempC, "°C", GetStatus(s.soilTempC, AirTempBounds), None),
     SensorCard("Air Temperature", s.airTempC, "°C", GetStatus(s.airTempC, AirTempBounds), None),
     SensorCard("Humidity", s.humidityPercent, "%", GetStatus(s.humidityPercent, HumidityBounds), None),
     SensorCard("Rain Level", s.rainLevelPercent, "%", GetStatus(s.rainLevelPercent, RainLevelBounds), None),
     SensorCard("CO2 Level", s.gasPpm, "ppm", GetStatus(s.gasPpm, Co2Bounds), None),
     SensorCard("Light", s.lightPercent, "%", GetStatus(s.lightPercent, LightBounds), None)]
  }

  /** The cards come in the fixed order of `CardNames`. */
  lemma DashboardCardOrder(s: SensorSnapshot)
    ensures forall i :: 0 <= i < |CardNames| ==> DashboardCards(s)[i].name == CardNames[i]
  {
  }

  /** Soil temperature is judged by the air-temperature band: NORMAL on
      [20, 32], so a 25 degree soil is normal and a 33 degree soil high. */
  lemma SoilTempUsesAirBand(s: SensorSnapshot)
    ensures DashboardCards(s)[1].status == Low <==> s.soilTempC < 20.0
    ensures DashboardCards(s)[1].status == Normal <==> 20.0 <= s.soilTempC <= 32.0
    ensures DashboardCards(s)[1].status == High <==> 32.0 < s.soilTempC
  {
  }

  /** Each classifier puts a reading below its low bound in LOW, above its
      high bound in HIGH, and the closed range between in NORMAL; all six
      bands are ordered, so the classifiers are monotone. */
  lemma DashboardBands(s: SensorSnapshot, i: int)
    requires 0 <= i < |CardNames|
    ensures var c := DashboardCards(s)[i];
            var b := [SoilMoistureBounds, AirTempBounds, AirTempBounds, HumidityBounds,
                      RainLevelBounds, Co2Bounds, LightBounds][i];
            b.low <= b.high &&
            (c.status == Low <==> c.value < b.low) &&
            (c.status == Normal <==> b.low <= c.value <= b.high) &&
            (c.status == High <==> b.high < c.value)
  {
  }

  class DashboardViewModel {
    const repository: FirebaseDataSource
    var farmId: string
    var farmName: string
    var sensorSnapshot: Option<SensorSnapshot>
    var loading: bool
    var errorMessage: Option<string>
    var sensorCards: seq<SensorCard>
    /** How many times observation of a farm has been (re)started. */
    var observations: nat

    /** The screen starts observing its farm at once. */
    constructor (repository: FirebaseDataSource, farmId: string)
      ensures this.repository == repository && this.farmId == farmId && farmName == farmId
      ensures sensorSnapshot.None? && loading && errorMessage.None? && sensorCards == [] && observations == 1
    {
      this.repository, this.farmId, farmName := repository, farmId, farmId;
      sensorSnapshot, sensorCards := None, [];
      loading, errorMessage, observations := true, None, 1;
    }

    /** `observeSensors` (re)starting: loading, error cleared. */
    method ObserveSensors()
      modifies this`loading, this`errorMessage, this`observations
      ensures loading && errorMessage.None? && observations == old(observations) + 1
    {
      loading := true;
      errorMessage := None;
      observations := observations + 1;
    }

    /** The observed stream delivering a snapshot: a valid one replaces
        the cards and clears the error, an invalid one empties the cards. */
    method OnSnapshot(s: SensorSnapshot)
      modifies this`sensorSnapshot, this`sensorCards, this`errorMessage, this`loading
      ensures sensorSnapshot == Some(s) && !loading
      ensures HasValidData(s) ==> sensorCards == DashboardCards(s) && errorMessage.None?
      ensures !HasValidData(s) ==> sensorCards == [] && errorMessage == old(errorMessage)
    {
      sensorSnapshot := Some(s);
      if HasValidData(s) {
        sensorCards := DashboardCards(s);
        errorMessage := None;
      } else {
        sensorCards := [];
      }
      loading := false;
    }

    /** The observed stream failing. */
    method OnObserveError(message: Option<string>)
      modifies this`errorMessage, this`loading
      ensures errorMessage == Some(message.GetOr(ObserveErrorMessage)) && !loading
    {
      errorMessage := Some(message.GetOr(ObserveErrorMessage));
      loading := false;
    }

    /** `refreshData`: a one-shot read; a valid snapshot replaces the
        cards, an invalid one leaves them as they were. The read never
        throws (it falls back to the default snapshot), so the error is
        always cleared. */
    method RefreshData(readFails: bool)
      modifies this`sensorSnapshot, this`sensorCards, this`errorMessage, this`loading
      ensures sensorSnapshot == Some(repository.GetSensors(farmId, readFails))
      ensures HasValidData(repository.GetSensors(farmId, readFails)) ==>
                sensorCards == DashboardCards(repository.GetSensors(farmId, readFails))
      ensures !HasValidData(repository.GetSensors(farmId, readFails)) ==> sensorCards == old(sensorCards)
      ensures errorMessage.None? && !loading
    {
      loading := true;
      var snapshot := repository.GetSensors(farmId, readFails);
      sensorSnapshot := Some(snapshot);
      if HasValidData(snapshot) {
        sensorCards := DashboardCards(snapshot);
      }
      errorMessage := None;
      loading := false;
    }

    /** `updateFarmId`: the current id changes nothing; another id
        replaces the farm and its name and restarts observation. */
    method UpdateFarmId(newFarmId: string)
      modifies this`farmId, this`farmName, this`loading, this`errorMessage, this`observations
      ensures newFarmId == old(farmId) ==>
                (farmId == old(farmId) && farmName == old(farmName) && loading == old(loading) &&
                 errorMessage == old(errorMessage) && observations == old(observations))
      ensures newFarmId != old(farmId) ==>
                (farmId == newFarmId && farmName == newFarmId && loading && errorMessage.None? &&
                 observations == old(observations) + 1)
    {
      if newFarmId != farmId {
        farmId := newFarmId;
        farmName := newFarmId;
        ObserveSensors();
      }
    }

    method ClearError()
      modifies this`errorMessage
      ensures errorMessage.None?
    {
      errorMessage := None;
    }
  }

  /** A refresh whose read fails keeps whatever cards were shown: the
      fallback snapshot is never valid. */
  lemma FailedRefreshKeepsCards(ds: FirebaseDataSource, farmId: string)
    ensures !HasValidData(ds.GetSensors(farmId, true))
  {
  }
}
