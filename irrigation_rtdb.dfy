/** The device irrigation screen's state (`IrrigationRtdbViewModel.kt`):
    the merge of the sensor-embedded relay status with the status path,
    the device-id filter of `observe`, and the relay write. */
module IrrigationRtdb {
  import opened Wrappers
  import opened RemoteStore
  import opened RelayCommands
  import opened RelayStatusUis
  import opened RelayControls
  import opened SensorModels
  import opened RtdbRepositories

  const SourceSensors := "sensors/latest.relayStatus"
  const SourceControlStatus := "control/relay/status"
  const SourceUnknown := "unknown"

  datatype IrrigationUiState = IrrigationUiState(
    deviceId: Option<string>,
    isOn: Option<bool>,
    statusSource: string,
    relayStatusUi: Option<RelayStatusUi>,
    relayControl: Option<RelayControl>)

  /** `IrrigationUiState()`. */
  const DefaultUiState := IrrigationUiState(None, None, SourceUnknown, None, None)

  /** ON is running, OFF is stopped, no command is unknown. */
  function IsOnOf(c: Option<RelayCommand>): (r: Option<bool>)
    ensures r == Some(true) <==> c == Some(On)
    ensures r == Some(false) <==> c == Some(Off)
    ensures r.None? <==> c.None?
  {
    match c
    case Some(On) => Some(true)
    case Some(Off) => Some(false)
    case None => None
  }

  /** The collector of `subscribe`: the command embedded in the sensor
      record wins over the status path, the source names the winner, and
      the status record and control record are passed through. */
  function Merge(deviceId: string, sensorsLatest: RtdbSensorLatest, relayStatusUi: RelayStatusUi,
                 relayControl: Option<RelayControl>): (r: IrrigationUiState)
    ensures r.deviceId == Some(deviceId)
    ensures r.relayStatusUi == Some(relayStatusUi) && r.relayControl == relayControl
    ensures FromRaw(sensorsLatest.relayStatus).Some? ==>
              r.statusSource == SourceSensors && r.isOn == IsOnOf(FromRaw(sensorsLatest.relayStatus))
    ensures FromRaw(sensorsLatest.relayStatus).None? && relayStatusUi.value.Some? ==>
              r.statusSource == SourceControlStatus && r.isOn == IsOnOf(relayStatusUi.value)
    ensures r.isOn.None? <==> FromRaw(sensorsLatest.relayStatus).None? && relayStatusUi.value.None?
    ensures r.statusSource == SourceUnknown <==> r.isOn.None?
  {
    var fromSensors := FromRaw(sensorsLatest.relayStatus);
    var fromControlStatus := relayStatusUi.value;
    var chosen := if fromSensors.Some? then fromSensors else fromControlStatus;
    var source :=
      if fromSensors.Some? then SourceSensors
      else if fromControlStatus.Some? then SourceControlStatus
      else SourceUnknown;
    IrrigationUiState(Some(deviceId), IsOnOf(chosen), source, Some(relayStatusUi), relayControl)
  }

  /** The sensor-embedded status decides whatever the status path says. */
  lemma SensorStatusWins(deviceId: string, sensorsLatest: RtdbSensorLatest, ui1: RelayStatusUi, ui2: RelayStatusUi,
                         relayControl: Option<RelayControl>)
    requires FromRaw(sensorsLatest.relayStatus).Some?
    ensures Merge(deviceId, sensorsLatest, ui1, relayControl).isOn == Merge(deviceId, sensorsLatest, ui2, relayControl).isOn
    ensures Merge(deviceId, sensorsLatest, ui1, relayControl).statusSource == Merge(deviceId, sensorsLatest, ui2, relayControl).statusSource
  {
  }

  /** `"on"` if asked to turn on, `"off"` otherwise. */
  function CommandFor(turnOn: bool): (r: string)
    ensures r == (if turnOn then On else Off).Raw()
  {
    if turnOn then "on" else "off"
  }

  /** The command sent parses back to the intended command. */
  lemma CommandForParses(turnOn: bool)
    ensures FromRaw(Some(CommandFor(turnOn))) == Some(if turnOn then On else Off)
    ensures CommandFor(turnOn) == "on" <==> turnOn
  {
    FromRawOfRaw(if turnOn then On else Off);
  }

  /** Round trip through the device: when the sensor record carries no
      relay status, a successful mirrored write of `turnOn` shows up as
      `isOn == turnOn`, attributed to the status path. */
  lemma WriteThenMerge(store: map<string, Value>, deviceId: string, turnOn: bool, user: AuthUser, now: int,
                       sensorsLatest: RtdbSensorLatest, relayControl: Option<RelayControl>)
    requires FromRaw(sensorsLatest.relayStatus).None?
    ensures var after := AfterWrite(store, deviceId, CommandFor(turnOn), true, Some(user), now, Accept, Accept);
            var merged := Merge(deviceId, sensorsLatest, ObservedStatus(after, deviceId), relayControl);
            merged.isOn == Some(turnOn) && merged.statusSource == SourceControlStatus
  {
    MirrorReadBackCommand(store, deviceId, if turnOn then On else Off, user, now);
  }

  /** `filterNotNull().distinctUntilChanged()` on the ids after `last`:
      null ids are dropped and an id equal to the one before it is not
      passed on. */
  function DistinctIds(ids: seq<Option<string>>, last: Option<string>): seq<string>
  {
    if ids == [] then []
    else if ids[0].None? || ids[0] == last then DistinctIds(ids[1..], last)
    else [ids[0].value] + DistinctIds(ids[1..], ids[0])
  }

  /** Every id passed on was in the input, and it differs from the one
      passed on before it (and from `last` for the first). */
  lemma {:induction false} DistinctIdsSound(ids: seq<Option<string>>, last: Option<string>)
    ensures forall k :: 0 <= k < |DistinctIds(ids, last)| ==> Some(DistinctIds(ids, last)[k]) in ids
    ensures forall k :: 0 < k < |DistinctIds(ids, last)| ==> DistinctIds(ids, last)[k - 1] != DistinctIds(ids, last)[k]
    ensures DistinctIds(ids, last) != [] ==> Some(DistinctIds(ids, last)[0]) != last
  {
    if ids != [] {
      DistinctIdsSound(ids[1..], if ids[0].None? || ids[0] == last then last else ids[0]);
      assert forall x :: x in ids[1..] ==> x in ids;
    }
  }

  /** Nulls and repeats are all that is dropped: an input of distinct ids
      with no nulls is passed on whole. */
  lemma {:induction false} DistinctIdsKeepsChanges(ids: seq<Option<string>>, last: Option<string>)
    requires forall k :: 0 <= k < |ids| ==> ids[k].Some?
    requires forall k :: 0 < k < |ids| ==> ids[k - 1] != ids[k]
    requires ids != [] ==> ids[0] != last
    ensures |DistinctIds(ids, last)| == |ids|
    ensures forall k :: 0 <= k < |ids| ==> Some(DistinctIds(ids, last)[k]) == ids[k]
  {
    if ids != [] {
      DistinctIdsKeepsChanges(ids[1..], ids[0]);
    }
  }

  /** The view model over one repository. `subscriptions` lists the device
      ids subscribed so far: `subscribe` starts a new job each time and
      does not cancel the earlier ones. */
  class IrrigationRtdbViewModel {
    const repository: RtdbRepository
    var uiState: IrrigationUiState
    var loading: bool
    var writing: bool
    var errorMessage: Option<string>
    var subscriptions: seq<string>

    constructor (repository: RtdbRepository)
      ensures this.repository == repository
      ensures uiState == DefaultUiState && !loading && !writing && errorMessage.None? && subscriptions == []
    {
      this.repository := repository;
      uiState, loading, writing, errorMessage, subscriptions := DefaultUiState, false, false, None, [];
    }

    /** The start of `subscribe`: loading, error cleared, the device id
        recorded in the state. */
    method Subscribe(deviceId: string)
      modifies this
      ensures uiState == old(uiState).(deviceId := Some(deviceId))
      ensures loading && errorMessage.None? && writing == old(writing)
      ensures subscriptions == old(subscriptions) + [deviceId]
    {
      loading := true;
      errorMessage := None;
      uiState := uiState.(deviceId := Some(deviceId));
      subscriptions := subscriptions + [deviceId];
    }

    /** `observe`: a fresh collector over the id stream, subscribing to
        each id the filter passes on. */
    method Observe(ids: seq<Option<string>>)
      modifies this
      ensures subscriptions == old(subscriptions) + DistinctIds(ids, None)
      ensures writing == old(writing)
      ensures DistinctIds(ids, None) == [] ==> uiState == old(uiState) && loading == old(loading) && errorMessage == old(errorMessage)
      ensures DistinctIds(ids, None) != [] ==>
                var passed := DistinctIds(ids, None);
                uiState == old(uiState).(deviceId := Some(passed[|passed| - 1])) && loading && errorMessage.None?
    {
      var i := 0;
      var last: Option<string> := None;
      while i < |ids|
        invariant 0 <= i <= |ids|
        invariant subscriptions + DistinctIds(ids[i..], last) == old(subscriptions) + DistinctIds(ids, None)
        invariant writing == old(writing)
        invariant subscriptions == old(subscriptions) ==> uiState == old(uiState) && loading == old(loading) && errorMessage == old(errorMessage) && last.None?
        invariant subscriptions != old(subscriptions) ==>
                    |subscriptions| > |old(subscriptions)| && last == Some(subscriptions[|subscriptions| - 1]) &&
                    uiState == old(uiState).(deviceId := last) && loading && errorMessage.None?
        invariant |subscriptions| >= |old(subscriptions)| && subscriptions[..|old(subscriptions)|] == old(subscriptions)
      {
        assert ids[i..][1..] == ids[i + 1..];
        if ids[i].Some? && ids[i] != last {
          Subscribe(ids[i].value);
          last := ids[i];
        }
        i := i + 1;
      }
      assert ids[i..] == [];
      if DistinctIds(ids, None) != [] {
        assert subscriptions != old(subscriptions);
      }
    }

    /** The collector of `subscribe` receiving one combined triple from the
        streams of `deviceId`. */
    method OnStreamsCombined(deviceId: string, sensorsLatest: RtdbSensorLatest, relayStatusUi: RelayStatusUi,
                             relayControl: Option<RelayControl>)
      requires deviceId in subscriptions
      modifies this
      ensures uiState == Merge(deviceId, sensorsLatest, relayStatusUi, relayControl)
      ensures !loading && errorMessage == old(errorMessage) && writing == old(writing) && subscriptions == old(subscriptions)
    {
      uiState := Merge(deviceId, sensorsLatest, relayStatusUi, relayControl);
      loading := false;
    }

    /** The `catch` of `subscribe`: the exception's message, or a fixed
        text when it has none. */
    method OnStreamsError(message: Option<string>)
      modifies this
      ensures errorMessage == Some(message.GetOr("Error loading irrigation status"))
      ensures !loading && uiState == old(uiState) && writing == old(writing) && subscriptions == old(subscriptions)
    {
      errorMessage := Some(message.GetOr("Error loading irrigation status"));
      loading := false;
    }

    /** `writeRelay`: nothing without a known device; otherwise the command
        is written through the repository and a failure is shown. */
    method WriteRelay(turnOn: bool, mirrorStatus: bool, user: Option<AuthUser>, now: int,
                      commandFault: StoreFault, mirrorFault: StoreFault)
      modifies this, repository
      ensures uiState == old(uiState) && loading == old(loading) && subscriptions == old(subscriptions)
      ensures !writing || old(uiState.deviceId).None?
      ensures old(uiState.deviceId).None? ==>
                writing == old(writing) && errorMessage == old(errorMessage) &&
                repository.store == old(repository.store) && repository.writeLog == old(repository.writeLog)
      ensures old(uiState.deviceId).Some? ==>
                var deviceId := old(uiState.deviceId).value;
                var outcome := WriteOutcome(mirrorStatus, user, commandFault, mirrorFault);
                repository.store == AfterWrite(old(repository.store), deviceId, CommandFor(turnOn), mirrorStatus, user, now, commandFault, mirrorFault) &&
                repository.writeLog == old(repository.writeLog) + WritesAttempted(deviceId, mirrorStatus, user, commandFault) &&
                errorMessage == (if outcome.Fail? then Some(outcome.error.GetOr("Error sending command")) else None)
    {
      if uiState.deviceId.None? {
        return;
      }
      var deviceId := uiState.deviceId.value;
      var command := CommandFor(turnOn);
      writing := true;
      errorMessage := None;
      var outcome := repository.WriteRelayCommand(deviceId, command, mirrorStatus, user, now, commandFault, mirrorFault);
      if outcome.Fail? {
        errorMessage := Some(outcome.error.GetOr("Error sending command"));
      }
      writing := false;
    }
  }
}
