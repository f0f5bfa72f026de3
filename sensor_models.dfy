/** The sensor and irrigation records with their defaults
    (`SensorSnapshot.kt`, `IrrigationState.kt`) and the device-side sensor
    record with its null-to-zero conversion (`RtdbSensorLatest.kt`).
    Kotlin `Double`s are only compared, so they are `real`s here. */
module SensorModels {
  import opened Wrappers

  datatype SensorSnapshot = SensorSnapshot(
    soilMoisturePercent: real,
    soilTempC: real,
    airTempC: real,
    humidityPercent: real,
    rainLevelPercent: real,
    gasPpm: real,
    lightPercent: real,
    updatedAt: int)

  /** `SensorSnapshot()`: every reading 0.0 and `updatedAt` 0. */
  const DefaultSensorSnapshot := SensorSnapshot(0.0, 0.0, 0.0, 0.0, 0.0, 0.0, 0.0, 0)

  datatype IrrigationState = IrrigationState(
    isOn: bool,
    mode: string,
    moistureThreshold: real,
    lastChangedAt: int,
    lastChangedBy: string)

  const ModeAuto := "AUTO"
  const ModeManual := "MANUAL"

  /** `IrrigationState()`: off, manual, threshold 30.0. */
  const DefaultIrrigationState := IrrigationState(false, ModeManual, 30.0, 0, ModeManual)

  /** The record at `devices/{id}/sensors/latest`; every field may be
      missing. */
  datatype RtdbSensorLatest = RtdbSensorLatest(
    soilMoisturePercent: Option<real>,
    soilTempC: Option<real>,
    airTempC: Option<real>,
    humidityPercent: Option<real>,
    rainLevelPercent: Option<real>,
    gasPpm: Option<real>,
    lightPercent: Option<real>,
    relayStatus: Option<string>,
    updatedAt: Option<int>)

  /** `RtdbSensorLatest()`: every field null. */
  const EmptySensorLatest := RtdbSensorLatest(None, None, None, None, None, None, None, None, None)

  /** A reading taken from an optional field: copied when present, 0.0
      when missing. */
  predicate Defaulted(field: Option<real>, reading: real)
  {
    (field.Some? ==> reading == field.value) && (field.None? ==> reading == 0.0)
  }

  /** `toSnapshotDefaults`: each present reading is copied, each missing one
      becomes 0.0 (and a missing `updatedAt` 0); `relayStatus` is dropped. */
  function ToSnapshotDefaults(latest: RtdbSensorLatest): (r: SensorSnapshot)
    ensures Defaulted(latest.soilMoisturePercent, r.soilMoisturePercent) && Defaulted(latest.soilTempC, r.soilTempC)
    ensures Defaulted(latest.airTempC, r.airTempC) && Defaulted(latest.humidityPercent, r.humidityPercent)
    ensures Defaulted(latest.rainLevelPercent, r.rainLevelPercent) && Defaulted(latest.gasPpm, r.gasPpm)
    ensures Defaulted(latest.lightPercent, r.lightPercent)
    ensures latest.updatedAt.Some? ==> r.updatedAt == latest.updatedAt.value
    ensures latest.updatedAt.None? ==> r.updatedAt == 0
  {
    SensorSnapshot(
      latest.soilMoisturePercent.GetOr(0.0),
      latest.soilTempC.GetOr(0.0),
      latest.airTempC.GetOr(0.0),
      latest.humidityPercent.GetOr(0.0),
      latest.rainLevelPercent.GetOr(0.0),
      latest.gasPpm.GetOr(0.0),
      latest.lightPercent.GetOr(0.0),
      latest.updatedAt.GetOr(0))
  }

  /** The device-side record carrying every reading of `s`. */
  function FullyPresent(s: SensorSnapshot, relayStatus: Option<string>): RtdbSensorLatest
  {
    RtdbSensorLatest(Some(s.soilMoisturePercent), Some(s.soilTempC), Some(s.airTempC),
                     Some(s.humidityPercent), Some(s.rainLevelPercent), Some(s.gasPpm),
                     Some(s.lightPercent), relayStatus, Some(s.updatedAt))
  }

  /** Round trip: a record with every reading present converts back to
      exactly those readings, whatever its `relayStatus`. */
  lemma ConvertFullyPresent(s: SensorSnapshot, relayStatus: Option<string>)
    ensures ToSnapshotDefaults(FullyPresent(s, relayStatus)) == s
  {
  }

  /** The empty record converts to the default snapshot. */
  lemma ConvertEmpty()
    ensures ToSnapshotDefaults(EmptySensorLatest) == DefaultSensorSnapshot
  {
  }

  /** `relayStatus` does not reach the snapshot. */
  lemma RelayStatusDropped(latest: RtdbSensorLatest, other: Option<string>)
    ensures ToSnapshotDefaults(latest.(relayStatus := other)) == ToSnapshotDefaults(latest)
  {
  }
}
