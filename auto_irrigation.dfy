/** The automatic irrigation loop (`AutoIrrigationManager.kt`): a debounce
    state machine over the last checked moisture and relay state, and a
    timer that, when it fires, re-reads the store and writes at most once.
    The timer is the `pending` flag; its expiry is the `Fire` method. */
module AutoIrrigation {
  import opened Wrappers
  import opened RemoteStore
  import opened SensorModels
  import opened FirebaseData

  /** The attribution of automatic switching. */
  const ChangedByAuto := "AUTO"

  /** `shouldBeOn`: strictly drier than the threshold. */
  predicate ShouldBeOn(moisture: real, threshold: real)
  {
    moisture < threshold
  }

  /** The manager's fields: the last checked pair and whether a debounce
      timer is pending. */
  datatype AutoState = AutoState(lastCheckedMoisture: Option<real>, lastCheckedState: Option<bool>, pending: bool)

  const InitialAutoState := AutoState(None, None, false)

  /** Whether `(moisture, isOn)` is the pair checked last. */
  predicate SameAsLastChecked(st: AutoState, sensors: SensorSnapshot, irrigation: IrrigationState)
  {
    st.lastCheckedMoisture == Some(sensors.soilMoisturePercent) && st.lastCheckedState == Some(irrigation.isOn)
  }

  /** `processAutoLogic`. */
  function Evaluate(st: AutoState, sensors: SensorSnapshot, irrigation: IrrigationState): (r: AutoState)
    ensures irrigation.mode != ModeAuto ==> r == InitialAutoState
    ensures irrigation.mode == ModeAuto && SameAsLastChecked(st, sensors, irrigation) ==> r == st
    ensures irrigation.mode == ModeAuto ==> SameAsLastChecked(r, sensors, irrigation)
    ensures irrigation.mode == ModeAuto && !SameAsLastChecked(st, sensors, irrigation) ==>
              r.pending == (ShouldBeOn(sensors.soilMoisturePercent, irrigation.moistureThreshold) != irrigation.isOn)
  {
    if irrigation.mode != ModeAuto then InitialAutoState
    else if SameAsLastChecked(st, sensors, irrigation) then st
    else
      var shouldBeOn := ShouldBeOn(sensors.soilMoisturePercent, irrigation.moistureThreshold);
      AutoState(Some(sensors.soilMoisturePercent), Some(irrigation.isOn), shouldBeOn != irrigation.isOn)
  }

  /** Whether a call of `processAutoLogic` launches a new timer (replacing
      any pending one). */
  predicate StartsTimer(st: AutoState, sensors: SensorSnapshot, irrigation: IrrigationState)
  {
    irrigation.mode == ModeAuto && !SameAsLastChecked(st, sensors, irrigation) &&
    ShouldBeOn(sensors.soilMoisturePercent, irrigation.moistureThreshold) != irrigation.isOn
  }

  /** A new timer is launched exactly when the evaluation ends with one
      pending after seeing a new pair. */
  lemma StartsTimerPending(st: AutoState, sensors: SensorSnapshot, irrigation: IrrigationState)
    ensures StartsTimer(st, sensors, irrigation) ==> Evaluate(st, sensors, irrigation).pending
    ensures Evaluate(st, sensors, irrigation).pending ==> StartsTimer(st, sensors, irrigation) || st.pending
  {
  }

  /** Evaluating the same inputs twice is the same as once. */
  lemma EvaluateIdempotent(st: AutoState, sensors: SensorSnapshot, irrigation: IrrigationState)
    ensures Evaluate(Evaluate(st, sensors, irrigation), sensors, irrigation) == Evaluate(st, sensors, irrigation)
  {
  }

  /** Once a pair has been checked, a change of threshold alone triggers
      nothing: no new timer, no cancellation. */
  lemma ThresholdChangeAloneIgnored(st: AutoState, sensors: SensorSnapshot, irrigation: IrrigationState, threshold: real)
    requires irrigation.mode == ModeAuto
    ensures var after := Evaluate(st, sensors, irrigation);
            Evaluate(after, sensors, irrigation.(moistureThreshold := threshold)) == after
  {
  }

  /** Already consistent: an evaluation of a new pair whose relay state
      already matches the wish cancels the timer. */
  lemma ConsistentCancels(st: AutoState, sensors: SensorSnapshot, irrigation: IrrigationState)
    requires irrigation.mode == ModeAuto && !SameAsLastChecked(st, sensors, irrigation)
    requires ShouldBeOn(sensors.soilMoisturePercent, irrigation.moistureThreshold) == irrigation.isOn
    ensures !Evaluate(st, sensors, irrigation).pending
  {
  }

  /** Moisture equal to the threshold is not dry. */
  lemma ThresholdIsNotDry(m: real)
    ensures !ShouldBeOn(m, m)
  {
  }

  /** Successive moisture readings against one irrigation state. */
  function EvaluateReadings(st: AutoState, readings: seq<real>, irrigation: IrrigationState): AutoState
    decreases |readings|
  {
    if readings == [] then st
    else EvaluateReadings(Evaluate(st, Moisture(readings[0]), irrigation), readings[1..], irrigation)
  }

  /** A sensor snapshot reporting only a moisture value. */
  function Moisture(m: real): SensorSnapshot
  {
    DefaultSensorSnapshot.(soilMoisturePercent := m)
  }

  /** Evaluating one more reading continues from the state the earlier
      readings left. */
  lemma {:induction false} EvaluateReadingsSnoc(st: AutoState, readings: seq<real>, m: real, irrigation: IrrigationState)
    ensures EvaluateReadings(st, readings + [m], irrigation) ==
            Evaluate(EvaluateReadings(st, readings, irrigation), Moisture(m), irrigation)
    decreases |readings|
  {
    if readings == [] {
      assert [] + [m] == [m];
      assert [m][1..] == [];
    } else {
      assert (readings + [m])[0] == readings[0];
      assert (readings + [m])[1..] == readings[1..] + [m];
      EvaluateReadingsSnoc(Evaluate(st, Moisture(readings[0]), irrigation), readings[1..], m, irrigation);
    }
  }

  /** In automatic mode the newest reading decides: when it differs from
      the moisture checked last, a timer is pending afterwards exactly when
      the relay disagrees with it, whatever came before; and reading the
      same value again right after changes nothing. */
  lemma LastReadingDecides(st: AutoState, readings: seq<real>, m: real, irrigation: IrrigationState)
    requires irrigation.mode == ModeAuto
    ensures EvaluateReadings(st, readings, irrigation).lastCheckedMoisture != Some(m) ==>
              EvaluateReadings(st, readings + [m], irrigation).pending ==
              (ShouldBeOn(m, irrigation.moistureThreshold) != irrigation.isOn)
    ensures EvaluateReadings(st, readings + [m, m], irrigation) == EvaluateReadings(st, readings + [m], irrigation)
  {
    EvaluateReadingsSnoc(st, readings, m, irrigation);
    EvaluateReadingsSnoc(st, readings + [m], m, irrigation);
    assert readings + [m] + [m] == readings + [m, m];
  }

  /** Threshold 30, relay off, automatic mode: the readings 35 and 32 start
      nothing; 28 starts the timer; if 28 is still the reading at expiry,
      the timer switches the relay on; a reading of 31 before expiry
      cancels it. */
  lemma ThresholdCrossingScenario()
    ensures var auto := DefaultIrrigationState.(mode := ModeAuto);
            !EvaluateReadings(InitialAutoState, [35.0, 32.0], auto).pending &&
            EvaluateReadings(InitialAutoState, [35.0, 32.0, 28.0], auto).pending &&
            FireDecision(Some(Moisture(28.0)), Some(auto)) == Switch(true) &&
            !EvaluateReadings(InitialAutoState, [35.0, 32.0, 28.0, 31.0], auto).pending
  {
    var auto := DefaultIrrigationState.(mode := ModeAuto);
    var s1 := Evaluate(InitialAutoState, Moisture(35.0), auto);
    var s2 := Evaluate(s1, Moisture(32.0), auto);
    var s3 := Evaluate(s2, Moisture(28.0), auto);
    var s4 := Evaluate(s3, Moisture(31.0), auto);
    assert !s2.pending && s3.pending && !s4.pending;
    assert [35.0, 32.0][1..] == [32.0];
    assert [35.0, 32.0, 28.0][1..] == [32.0, 28.0] && [32.0, 28.0][1..] == [28.0];
    assert [35.0, 32.0, 28.0, 31.0][1..] == [32.0, 28.0, 31.0] && [32.0, 28.0, 31.0][1..] == [28.0, 31.0] && [28.0, 31.0][1..] == [31.0];
    assert EvaluateReadings(InitialAutoState, [35.0, 32.0], auto) == s2;
    assert EvaluateReadings(InitialAutoState, [35.0, 32.0, 28.0], auto) == s3;
    assert EvaluateReadings(InitialAutoState, [35.0, 32.0, 28.0, 31.0], auto) == s4;
  }

  /** What an expiring timer does with its fresh reads (null when the read
      threw). */
  datatype FireOutcome = ReadFailed | ModeNoLongerAuto | AlreadyConsistent | Switch(on: bool)

  function FireDecision(freshSensors: Option<SensorSnapshot>, freshIrrigation: Option<IrrigationState>): (r: FireOutcome)
    ensures freshSensors.None? || freshIrrigation.None? <==> r == ReadFailed
    ensures r.Switch? ==> freshIrrigation.value.mode == ModeAuto && r.on != freshIrrigation.value.isOn
    ensures r.Switch? ==> r.on == ShouldBeOn(freshSensors.value.soilMoisturePercent, freshIrrigation.value.moistureThreshold)
  {
    if freshSensors.None? || freshIrrigation.None? then ReadFailed
    else if freshIrrigation.value.mode != ModeAuto then ModeNoLongerAuto
    else
      var shouldTurnOn := ShouldBeOn(freshSensors.value.soilMoisturePercent, freshIrrigation.value.moistureThreshold);
      if shouldTurnOn != freshIrrigation.value.isOn then Switch(shouldTurnOn) else AlreadyConsistent
  }

  /** The timer writes exactly when the fresh state is automatic and
      inconsistent: a divergence an operator has already fixed, or a switch
      to manual in the meantime, is left alone. */
  lemma FireWritesIffInconsistent(s: SensorSnapshot, i: IrrigationState)
    ensures FireDecision(Some(s), Some(i)).Switch? <==>
            i.mode == ModeAuto && ShouldBeOn(s.soilMoisturePercent, i.moistureThreshold) != i.isOn
    ensures i.mode != ModeAuto ==> FireDecision(Some(s), Some(i)) == ModeNoLongerAuto
  {
  }

  /** A failed irrigation read of the data source yields the default
      state, whose manual mode makes the timer abort. */
  lemma FailedIrrigationReadAborts(s: SensorSnapshot)
    ensures FireDecision(Some(s), Some(DefaultIrrigationState)) == ModeNoLongerAuto
  {
  }

  /** Firing is settled by its own write: re-reading the node the switch
      produced finds it consistent. */
  lemma FireSettles(s: SensorSnapshot, node: IrrigationNode, now: int)
    requires FireDecision(Some(s), Some(ReadIrrigation(node))).Switch?
    ensures var on := FireDecision(Some(s), Some(ReadIrrigation(node))).on;
            FireDecision(Some(s), Some(ReadIrrigation(WithIrrigationOn(node, on, now, ChangedByAuto)))) == AlreadyConsistent
  {
    var on := FireDecision(Some(s), Some(ReadIrrigation(node))).on;
    IrrigationOnIsPartial(node, on, now, ChangedByAuto);
  }

  /** The manager of one farm over one data source. `timersStarted`
      counts the debounce jobs launched. */
  class AutoIrrigationManager {
    const repository: FirebaseDataSource
    const farmId: string
    var lastCheckedMoisture: Option<real>
    var lastCheckedState: Option<bool>
    var pending: bool
    var timersStarted: nat

    function State(): AutoState
      reads this
    {
      AutoState(lastCheckedMoisture, lastCheckedState, pending)
    }

    constructor (repository: FirebaseDataSource, farmId: string)
      ensures this.repository == repository && this.farmId == farmId
      ensures State() == InitialAutoState && timersStarted == 0
    {
      this.repository, this.farmId := repository, farmId;
      lastCheckedMoisture, lastCheckedState, pending, timersStarted := None, None, false, 0;
    }

    /** `processAutoLogic` for one combined pair of sensor and irrigation
        values. */
    method ProcessAutoLogic(sensors: SensorSnapshot, irrigation: IrrigationState)
      modifies this
      ensures State() == Evaluate(old(State()), sensors, irrigation)
      ensures timersStarted == old(timersStarted) + (if StartsTimer(old(State()), sensors, irrigation) then 1 else 0)
    {
      if irrigation.mode != ModeAuto {
        pending := false;
        lastCheckedMoisture := None;
        lastCheckedState := None;
        return;
      }
      var soilMoisture := sensors.soilMoisturePercent;
      var isCurrentlyOn := irrigation.isOn;
      var shouldBeOn := ShouldBeOn(soilMoisture, irrigation.moistureThreshold);
      if lastCheckedMoisture == Some(soilMoisture) && lastCheckedState == Some(isCurrentlyOn) {
        return;
      }
      lastCheckedMoisture := Some(soilMoisture);
      lastCheckedState := Some(isCurrentlyOn);
      if shouldBeOn != isCurrentlyOn {
        pending := true;
        timersStarted := timersStarted + 1;
      } else {
        pending := false;
      }
    }

    /** The pending timer expires: fresh reads through the data source,
        then at most one switch attributed to `"AUTO"`, whose failure is
        swallowed. */
    method Fire(sensorsReadFails: bool, irrigationReadFails: bool, now: int, writeFault: StoreFault)
      returns (decision: FireOutcome)
      requires pending
      modifies this, repository
      ensures decision == FireDecision(Some(old(repository.GetSensors(farmId, sensorsReadFails))),
                                       Some(old(repository.GetIrrigation(farmId, irrigationReadFails))))
      ensures !pending && lastCheckedMoisture == old(lastCheckedMoisture) && lastCheckedState == old(lastCheckedState)
      ensures timersStarted == old(timersStarted)
      ensures repository.available == old(repository.available) && repository.sensors == old(repository.sensors)
      ensures !decision.Switch? || !repository.available || writeFault.Reject? ==> repository.irrigation == old(repository.irrigation)
      ensures decision.Switch? && repository.available && writeFault.Accept? ==>
                repository.irrigation == old(repository.irrigation)[farmId := WithIrrigationOn(old(repository.NodeAt(farmId)), decision.on, now, ChangedByAuto)]
    {
      pending := false;
      var currentSensors := repository.GetSensors(farmId, sensorsReadFails);
      var currentIrrigation := repository.GetIrrigation(farmId, irrigationReadFails);
      decision := FireDecision(Some(currentSensors), Some(currentIrrigation));
      if decision.Switch? {
        var _ := repository.SetIrrigationOn(farmId, decision.on, now, ChangedByAuto, writeFault);
      }
    }

    /** `stop`: cancels the pending timer and keeps the last checked pair. */
    method Stop()
      modifies this
      ensures !pending && lastCheckedMoisture == old(lastCheckedMoisture) && lastCheckedState == old(lastCheckedState)
      ensures timersStarted == old(timersStarted)
    {
      pending := false;
    }
  }
}
