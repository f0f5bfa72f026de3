/** The farm irrigation screen's state (`IrrigationViewModel.kt`): the held
    irrigation state, the manual toggle, and the lifecycle of the automatic
    manager. The screen holds a manager exactly while the held state is
    automatic; one it drops is stopped but keeps running, because its
    collector was launched in the screen's scope and is never cancelled. */
module IrrigationVm {
  import opened Wrappers
  import opened RemoteStore
  import opened SensorModels
  import opened FirebaseData
  import opened AutoIrrigation

  const ChangedByManual := "MANUAL"

  /** `!(currentState?.isOn ?: false)`: an unknown state counts as off. */
  function ToggledOn(state: Option<IrrigationState>): (r: bool)
    ensures state.None? ==> r
    ensures state.Some? ==> r == !state.value.isOn
  {
    !(if state.Some? then state.value.isOn else false)
  }

  /** Whether the held state asks for the automatic manager. */
  predicate IsAuto(state: Option<IrrigationState>)
  {
    state.Some? && state.value.mode == ModeAuto
  }

  class IrrigationViewModel {
    const repository: FirebaseDataSource
    const farmId: string
    var irrigationState: Option<IrrigationState>
    var loading: bool
    var errorMessage: Option<string>
    var isAutoModeActive: bool
    var autoManager: AutoIrrigationManager?
    /** The managers dropped so far. `stop` cancels only a manager's pending
        timer; its collector goes on calling `processAutoLogic`, so each of
        these may still evaluate readings and fire. */
    var droppedManagers: seq<AutoIrrigationManager>

    /** The manager, when there is one, works on this screen's farm and
        data source, and the flag shown says whether there is one. */
    predicate Valid()
      reads this, autoManager
    {
      (autoManager != null ==> autoManager.repository == repository && autoManager.farmId == farmId) &&
      isAutoModeActive == (autoManager != null)
    }

    /** `init` starts observing, which shows loading and clears the error
        until the first state or failure arrives; the held state starts
        null, which the manager setup reads as not automatic. */
    constructor (repository: FirebaseDataSource, farmId: string)
      ensures Valid() && this.repository == repository && this.farmId == farmId
      ensures irrigationState.None? && autoManager == null && !isAutoModeActive && droppedManagers == []
      ensures loading && errorMessage.None?
    {
      this.repository, this.farmId := repository, farmId;
      irrigationState, isAutoModeActive, autoManager, droppedManagers := None, false, null, [];
      loading, errorMessage := true, None;
    }

    /** The collector of `setupAutoIrrigation` seeing the held state: an
        automatic state creates a manager only if there is none; any other
        state, including null, stops and drops it. A kept manager is not
        touched, so its pending timer survives a new automatic state. */
    method SetupAutoIrrigation()
      requires Valid()
      modifies this, autoManager
      ensures Valid()
      ensures irrigationState == old(irrigationState) && loading == old(loading) && errorMessage == old(errorMessage)
      ensures IsAuto(irrigationState) && old(autoManager) != null ==>
                autoManager == old(autoManager) && autoManager.State() == old(autoManager.State()) &&
                autoManager.timersStarted == old(autoManager.timersStarted)
      ensures IsAuto(irrigationState) && old(autoManager) == null ==>
                fresh(autoManager) && autoManager.State() == InitialAutoState && autoManager.timersStarted == 0
      ensures IsAuto(irrigationState) || old(autoManager) == null ==> droppedManagers == old(droppedManagers)
      ensures !IsAuto(irrigationState) ==> autoManager == null
      ensures !IsAuto(irrigationState) && old(autoManager) != null ==>
                !old(autoManager).pending && old(autoManager).lastCheckedMoisture == old(autoManager.lastCheckedMoisture) &&
                old(autoManager).lastCheckedState == old(autoManager.lastCheckedState) &&
                old(autoManager).timersStarted == old(autoManager.timersStarted) &&
                droppedManagers == old(droppedManagers) + [old(autoManager)]
    {
      if IsAuto(irrigationState) {
        if autoManager == null {
          autoManager := new AutoIrrigationManager(repository, farmId);
          isAutoModeActive := true;
        }
      } else {
        if autoManager != null {
          autoManager.Stop();
          droppedManagers := droppedManagers + [autoManager];
        }
        autoManager := null;
        isAutoModeActive := false;
      }
    }

    /** The collector of `observeIrrigation`: the received state replaces
        the held one, loading ends and the error is cleared; then the
        manager setup sees the new state. */
    method ReceiveIrrigationState(state: IrrigationState)
      requires Valid()
      modifies this, autoManager
      ensures Valid()
      ensures irrigationState == Some(state) && !loading && errorMessage.None?
      ensures (autoManager != null) == (state.mode == ModeAuto)
      ensures IsAuto(irrigationState) && old(autoManager) != null ==>
                autoManager == old(autoManager) && autoManager.State() == old(autoManager.State()) &&
                autoManager.timersStarted == old(autoManager.timersStarted)
      ensures IsAuto(irrigationState) && old(autoManager) == null ==>
                fresh(autoManager) && autoManager.State() == InitialAutoState && autoManager.timersStarted == 0
      ensures IsAuto(irrigationState) || old(autoManager) == null ==> droppedManagers == old(droppedManagers)
      ensures !IsAuto(irrigationState) ==> autoManager == null
      ensures !IsAuto(irrigationState) && old(autoManager) != null ==>
                !old(autoManager).pending && old(autoManager).lastCheckedMoisture == old(autoManager.lastCheckedMoisture) &&
                old(autoManager).lastCheckedState == old(autoManager.lastCheckedState) &&
                old(autoManager).timersStarted == old(autoManager.timersStarted) &&
                droppedManagers == old(droppedManagers) + [old(autoManager)]
    {
      irrigationState := Some(state);
      loading := false;
      errorMessage := None;
      SetupAutoIrrigation();
    }

    /** The `catch` of `observeIrrigation`. */
    method ObserveFailed(message: Option<string>)
      modifies this
      ensures errorMessage == Some(message.GetOr("Error fetching irrigation status")) && !loading
      ensures droppedManagers == old(droppedManagers)
      ensures irrigationState == old(irrigationState) && autoManager == old(autoManager) && isAutoModeActive == old(isAutoModeActive)
    {
      errorMessage := Some(message.GetOr("Error fetching irrigation status"));
      loading := false;
    }

    /** `onCleared`: the manager is stopped and dropped, keeping its last
        checked pair. The shown flag is not reset, so it can still say that
        automatic mode is active when no manager is left. */
    method OnCleared()
      requires Valid()
      modifies this, autoManager
      ensures autoManager == null
      ensures old(autoManager) != null ==>
                !old(autoManager).pending && old(autoManager).lastCheckedMoisture == old(autoManager.lastCheckedMoisture) &&
                old(autoManager).lastCheckedState == old(autoManager.lastCheckedState) &&
                old(autoManager).timersStarted == old(autoManager.timersStarted)
      ensures irrigationState == old(irrigationState) && errorMessage == old(errorMessage) && loading == old(loading)
      ensures isAutoModeActive == old(isAutoModeActive) && isAutoModeActive == (old(autoManager) != null)
      ensures droppedManagers == old(droppedManagers)
    {
      if autoManager != null {
        autoManager.Stop();
      }
      autoManager := null;
    }

    /** `toggleIrrigation`: nothing unless confirmed; otherwise the opposite
        of the held state (off when unknown) is written as a manual change. */
    method ToggleIrrigation(confirmed: bool, now: int, fault: StoreFault)
      modifies this, repository
      ensures droppedManagers == old(droppedManagers)
      ensures irrigationState == old(irrigationState) && autoManager == old(autoManager) && isAutoModeActive == old(isAutoModeActive)
      ensures repository.available == old(repository.available) && repository.sensors == old(repository.sensors)
      ensures !confirmed ==> repository.irrigation == old(repository.irrigation) &&
                             loading == old(loading) && errorMessage == old(errorMessage)
      ensures confirmed ==> !loading
      ensures confirmed && repository.available && fault.Accept? ==>
                repository.irrigation == old(repository.irrigation)[farmId :=
                  WithIrrigationOn(old(repository.NodeAt(farmId)), ToggledOn(old(irrigationState)), now, ChangedByManual)] &&
                errorMessage == old(errorMessage)
      ensures confirmed && !repository.available ==>
                repository.irrigation == old(repository.irrigation) && errorMessage == Some(NotInitializedMessage)
      ensures confirmed && repository.available && fault.Reject? ==>
                repository.irrigation == old(repository.irrigation) &&
                errorMessage == Some(fault.message.GetOr("Error controlling irrigation"))
    {
      if !confirmed {
        return;
      }
      var newOnState := ToggledOn(irrigationState);
      loading := true;
      var outcome := repository.SetIrrigationOn(farmId, newOnState, now, ChangedByManual, fault);
      if outcome.Fail? {
        errorMessage := Some(outcome.error.GetOr("Error controlling irrigation"));
      }
      loading := false;
    }

    /** `setMode`: a mode write whose failure is shown. */
    method SetMode(mode: string, fault: StoreFault)
      modifies this, repository
      ensures droppedManagers == old(droppedManagers)
      ensures irrigationState == old(irrigationState) && autoManager == old(autoManager) && !loading
      ensures repository.available == old(repository.available) && repository.sensors == old(repository.sensors)
      ensures repository.available && fault.Accept? ==>
                repository.irrigation == old(repository.irrigation)[farmId := WithMode(old(repository.NodeAt(farmId)), mode)] &&
                errorMessage == old(errorMessage)
      ensures !repository.available || fault.Reject? ==>
                repository.irrigation == old(repository.irrigation) &&
                errorMessage == Some(if !repository.available then NotInitializedMessage else fault.message.GetOr("Error setting mode"))
    {
      loading := true;
      var outcome := repository.SetMode(farmId, mode, fault);
      if outcome.Fail? {
        errorMessage := Some(outcome.error.GetOr("Error setting mode"));
      }
      loading := false;
    }

    /** `setThreshold`: a threshold write whose failure is shown; loading
        is not touched. */
    method SetThreshold(threshold: real, fault: StoreFault)
      modifies this, repository
      ensures droppedManagers == old(droppedManagers)
      ensures irrigationState == old(irrigationState) && autoManager == old(autoManager) && loading == old(loading)
      ensures repository.available == old(repository.available) && repository.sensors == old(repository.sensors)
      ensures repository.available && fault.Accept? ==>
                repository.irrigation == old(repository.irrigation)[farmId := WithThreshold(old(repository.NodeAt(farmId)), threshold)] &&
                errorMessage == old(errorMessage)
      ensures !repository.available || fault.Reject? ==>
                repository.irrigation == old(repository.irrigation) &&
                errorMessage == Some(if !repository.available then NotInitializedMessage else fault.message.GetOr("Error setting threshold"))
    {
      var outcome := repository.SetThreshold(farmId, threshold, fault);
      if outcome.Fail? {
        errorMessage := Some(outcome.error.GetOr("Error setting threshold"));
      }
    }

    /** `refreshStatus`: a one-shot read (which never throws) replaces the
        held state; the manager setup then sees it. */
    method RefreshStatus(readFails: bool)
      requires Valid()
      modifies this, autoManager
      ensures Valid()
      ensures irrigationState == Some(repository.GetIrrigation(farmId, readFails)) && errorMessage.None? && !loading
      ensures (autoManager != null) == IsAuto(irrigationState)
      ensures IsAuto(irrigationState) && old(autoManager) != null ==>
                autoManager == old(autoManager) && autoManager.State() == old(autoManager.State()) &&
                autoManager.timersStarted == old(autoManager.timersStarted)
      ensures IsAuto(irrigationState) && old(autoManager) == null ==>
                fresh(autoManager) && autoManager.State() == InitialAutoState && autoManager.timersStarted == 0
      ensures IsAuto(irrigationState) || old(autoManager) == null ==> droppedManagers == old(droppedManagers)
      ensures !IsAuto(irrigationState) ==> autoManager == null
      ensures !IsAuto(irrigationState) && old(autoManager) != null ==>
                !old(autoManager).pending && old(autoManager).lastCheckedMoisture == old(autoManager.lastCheckedMoisture) &&
                old(autoManager).lastCheckedState == old(autoManager.lastCheckedState) &&
                old(autoManager).timersStarted == old(autoManager.timersStarted) &&
                droppedManagers == old(droppedManagers) + [old(autoManager)]
    {
      loading := true;
      var state := repository.GetIrrigation(farmId, readFails);
      irrigationState := Some(state);
      errorMessage := None;
      SetupAutoIrrigation();
      loading := false;
    }

    /** `clearError`. */
    method ClearError()
      modifies this
      ensures errorMessage.None? && irrigationState == old(irrigationState) && loading == old(loading)
      ensures droppedManagers == old(droppedManagers)
      ensures autoManager == old(autoManager) && isAutoModeActive == old(isAutoModeActive)
    {
      errorMessage := None;
    }
  }

  /** Refreshing with a failing read drops the manager: the default state
      is manual. */
  lemma FailedRefreshIsManual(ds: FirebaseDataSource, farmId: string)
    ensures !IsAuto(Some(ds.GetIrrigation(farmId, true)))
  {
  }
}
