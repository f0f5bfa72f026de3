/** The farm-level realtime database access (`FirebaseDataSource.kt`):
    reads that fall back to the default records, partial updates of the
    irrigation node, and the missing-database case. */
module FirebaseData {
  import opened Wrappers
  import opened RemoteStore
  import opened SensorModels

  /** The message of the exception the setters throw without a database. */
  const NotInitializedMessage := "Firebase RTDB is not initialized. Please configure google-services.json"

  /** The stored irrigation node: any of its children may be missing. */
  datatype IrrigationNode = IrrigationNode(
    isOn: Option<bool>,
    mode: Option<string>,
    moistureThreshold: Option<real>,
    lastChangedAt: Option<int>,
    lastChangedBy: Option<string>)

  const EmptyNode := IrrigationNode(None, None, None, None, None)

  /** `getValue(IrrigationState::class.java)` on a present node: the
      children it has, the constructor defaults for the rest. */
  function ReadIrrigation(node: IrrigationNode): (r: IrrigationState)
    ensures node.mode.None? ==> r.mode == ModeManual
    ensures node.isOn.None? ==> !r.isOn
    ensures node.mode.Some? ==> r.mode == node.mode.value
  {
    IrrigationState(
      node.isOn.GetOr(DefaultIrrigationState.isOn),
      node.mode.GetOr(DefaultIrrigationState.mode),
      node.moistureThreshold.GetOr(DefaultIrrigationState.moistureThreshold),
      node.lastChangedAt.GetOr(DefaultIrrigationState.lastChangedAt),
      node.lastChangedBy.GetOr(DefaultIrrigationState.lastChangedBy))
  }

  /** A node with every child present reads back as exactly that state. */
  function NodeOf(s: IrrigationState): IrrigationNode
  {
    IrrigationNode(Some(s.isOn), Some(s.mode), Some(s.moistureThreshold), Some(s.lastChangedAt), Some(s.lastChangedBy))
  }

  lemma ReadNodeOf(s: IrrigationState)
    ensures ReadIrrigation(NodeOf(s)) == s
  {
  }

  lemma ReadEmptyNode()
    ensures ReadIrrigation(EmptyNode) == DefaultIrrigationState
  {
  }

  /** `updateChildren` with `isOn`, `lastChangedAt` and `lastChangedBy`. */
  function WithIrrigationOn(node: IrrigationNode, on: bool, now: int, changedBy: string): IrrigationNode
  {
    node.(isOn := Some(on), lastChangedAt := Some(now), lastChangedBy := Some(changedBy))
  }

  /** `child("mode").setValue(mode)`. */
  function WithMode(node: IrrigationNode, mode: string): IrrigationNode
  {
    node.(mode := Some(mode))
  }

  /** `child("moistureThreshold").setValue(value)`. */
  function WithThreshold(node: IrrigationNode, value: real): IrrigationNode
  {
    node.(moistureThreshold := Some(value))
  }

  /** Switching changes exactly the three fields it writes; mode and
      threshold read back as before. */
  lemma IrrigationOnIsPartial(node: IrrigationNode, on: bool, now: int, changedBy: string)
    ensures ReadIrrigation(WithIrrigationOn(node, on, now, changedBy)) ==
            ReadIrrigation(node).(isOn := on, lastChangedAt := now, lastChangedBy := changedBy)
  {
  }

  /** Setting the mode changes only the mode. */
  lemma ModeIsPartial(node: IrrigationNode, mode: string)
    ensures ReadIrrigation(WithMode(node, mode)) == ReadIrrigation(node).(mode := mode)
  {
  }

  /** Setting the threshold changes only the threshold. */
  lemma ThresholdIsPartial(node: IrrigationNode, value: real)
    ensures ReadIrrigation(WithThreshold(node, value)) == ReadIrrigation(node).(moistureThreshold := value)
  {
  }

  /** What a listener or a one-shot read yields for one snapshot: the
      converted record for data, the default record for no data or data
      that cannot be converted. */
  function IrrigationOfSnapshot(s: Snapshot<IrrigationNode>): (r: IrrigationState)
    ensures !s.Holds? ==> r == DefaultIrrigationState
    ensures s.Holds? ==> r == ReadIrrigation(s.value)
  {
    if s.Holds? then ReadIrrigation(s.value) else DefaultIrrigationState
  }

  function SensorsOfSnapshot(s: Snapshot<SensorSnapshot>): (r: SensorSnapshot)
    ensures !s.Holds? ==> r == DefaultSensorSnapshot
    ensures s.Holds? ==> r == s.value
  {
    if s.Holds? then s.value else DefaultSensorSnapshot
  }

  /** The data source over one store. `available` is whether a database
      instance exists; `irrigation` and `sensors` hold the node at
      `farms/{farmId}/irrigation` and at `farms/{farmId}/sensors/current`. */
  class FirebaseDataSource {
    var available: bool
    var irrigation: map<string, IrrigationNode>
    var sensors: map<string, SensorSnapshot>

    constructor (available: bool, irrigation: map<string, IrrigationNode>, sensors: map<string, SensorSnapshot>)
      ensures this.available == available && this.irrigation == irrigation && this.sensors == sensors
    {
      this.available, this.irrigation, this.sensors := available, irrigation, sensors;
    }

    /** The snapshot a read of the irrigation node returns; `readFails`
        stands for a failed `get()` or a failed conversion. */
    function IrrigationSnapshot(farmId: string, readFails: bool): Snapshot<IrrigationNode>
      reads this
    {
      if readFails then Unconvertible
      else if farmId in irrigation then Holds(irrigation[farmId])
      else Missing
    }

    function SensorsSnapshot(farmId: string, readFails: bool): Snapshot<SensorSnapshot>
      reads this
    {
      if readFails then Unconvertible
      else if farmId in sensors then Holds(sensors[farmId])
      else Missing
    }

    /** `getIrrigation`: never throws; no database, no data or a failed
        read give the default state. */
    function GetIrrigation(farmId: string, readFails: bool): (r: IrrigationState)
      reads this
      ensures !available || readFails || farmId !in irrigation ==> r == DefaultIrrigationState
      ensures available && !readFails && farmId in irrigation ==> r == ReadIrrigation(irrigation[farmId])
    {
      if !available then DefaultIrrigationState
      else IrrigationOfSnapshot(IrrigationSnapshot(farmId, readFails))
    }

    /** `getSensors`: never throws; no database, no data or a failed read
        give the default snapshot. */
    function GetSensors(farmId: string, readFails: bool): (r: SensorSnapshot)
      reads this
      ensures !available || readFails || farmId !in sensors ==> r == DefaultSensorSnapshot
      ensures available && !readFails && farmId in sensors ==> r == sensors[farmId]
    {
      if !available then DefaultSensorSnapshot
      else SensorsOfSnapshot(SensorsSnapshot(farmId, readFails))
    }

    /** `observeIrrigation`: without a database one default state and then
        completion; otherwise one state per delivered snapshot. */
    function ObserveIrrigation(deliveries: seq<Snapshot<IrrigationNode>>): (r: seq<IrrigationState>)
      reads this
      ensures !available ==> r == [DefaultIrrigationState]
      ensures available ==> |r| == |deliveries| && forall i :: 0 <= i < |deliveries| ==> r[i] == IrrigationOfSnapshot(deliveries[i])
    {
      if !available then [DefaultIrrigationState]
      else seq(|deliveries|, i requires 0 <= i < |deliveries| => IrrigationOfSnapshot(deliveries[i]))
    }

    /** `observeSensors`, in the same way. */
    function ObserveSensors(deliveries: seq<Snapshot<SensorSnapshot>>): (r: seq<SensorSnapshot>)
      reads this
      ensures !available ==> r == [DefaultSensorSnapshot]
      ensures available ==> |r| == |deliveries| && forall i :: 0 <= i < |deliveries| ==> r[i] == SensorsOfSnapshot(deliveries[i])
    {
      if !available then [DefaultSensorSnapshot]
      else seq(|deliveries|, i requires 0 <= i < |deliveries| => SensorsOfSnapshot(deliveries[i]))
    }

    /** The stored node of a farm, or the empty node. */
    function NodeAt(farmId: string): IrrigationNode
      reads this
    {
      if farmId in irrigation then irrigation[farmId] else EmptyNode
    }

    /** `setIrrigationOn`: throws without a database; otherwise updates the
        three children, rethrowing a rejected write. */
    method SetIrrigationOn(farmId: string, on: bool, now: int, changedBy: string, fault: StoreFault)
      returns (r: Outcome<Option<string>>)
      modifies this
      ensures available == old(available) && sensors == old(sensors)
      ensures !available ==> r == Fail(Some(NotInitializedMessage)) && irrigation == old(irrigation)
      ensures available && fault.Reject? ==> r == Fail(fault.message) && irrigation == old(irrigation)
      ensures available && fault.Accept? ==>
                r == Pass && irrigation == old(irrigation)[farmId := WithIrrigationOn(old(NodeAt(farmId)), on, now, changedBy)]
    {
      if !available {
        return Fail(Some(NotInitializedMessage));
      }
      if fault.Reject? {
        return Fail(fault.message);
      }
      irrigation := irrigation[farmId := WithIrrigationOn(NodeAt(farmId), on, now, changedBy)];
      r := Pass;
    }

    /** `setMode`: throws without a database; otherwise writes only the
        `mode` child. */
    method SetMode(farmId: string, mode: string, fault: StoreFault) returns (r: Outcome<Option<string>>)
      modifies this
      ensures available == old(available) && sensors == old(sensors)
      ensures !available ==> r == Fail(Some(NotInitializedMessage)) && irrigation == old(irrigation)
      ensures available && fault.Reject? ==> r == Fail(fault.message) && irrigation == old(irrigation)
      ensures available && fault.Accept? ==>
                r == Pass && irrigation == old(irrigation)[farmId := WithMode(old(NodeAt(farmId)), mode)]
    {
      if !available {
        return Fail(Some(NotInitializedMessage));
      }
      if fault.Reject? {
        return Fail(fault.message);
      }
      irrigation := irrigation[farmId := WithMode(NodeAt(farmId), mode)];
      r := Pass;
    }

    /** `setThreshold`: throws without a database; otherwise writes only
        the `moistureThreshold` child. */
    method SetThreshold(farmId: string, value: real, fault: StoreFault) returns (r: Outcome<Option<string>>)
      modifies this
      ensures available == old(available) && sensors == old(sensors)
      ensures !available ==> r == Fail(Some(NotInitializedMessage)) && irrigation == old(irrigation)
      ensures available && fault.Reject? ==> r == Fail(fault.message) && irrigation == old(irrigation)
      ensures available && fault.Accept? ==>
                r == Pass && irrigation == old(irrigation)[farmId := WithThreshold(old(NodeAt(farmId)), value)]
    {
      if !available {
        return Fail(Some(NotInitializedMessage));
      }
      if fault.Reject? {
        return Fail(fault.message);
      }
      irrigation := irrigation[farmId := WithThreshold(NodeAt(farmId), value)];
      r := Pass;
    }
  }

  /** A read from a missing node, or one that fails, reports manual mode,
      moisture 0.0 and the relay off. */
  lemma FailedReadsGiveDefaults(ds: FirebaseDataSource, farmId: string)
    ensures ds.GetIrrigation(farmId, true).mode == ModeManual && !ds.GetIrrigation(farmId, true).isOn
    ensures ds.GetSensors(farmId, true).soilMoisturePercent == 0.0
  {
  }

  /** Read after write: a successful switch reads back with the new
      relay state and attribution, and the mode and threshold read before. */
  lemma SwitchReadsBack(before: IrrigationNode, on: bool, now: int, changedBy: string)
    ensures var s := IrrigationOfSnapshot(Holds(WithIrrigationOn(before, on, now, changedBy)));
            s.isOn == on && s.lastChangedAt == now && s.lastChangedBy == changedBy &&
            s.mode == ReadIrrigation(before).mode && s.moistureThreshold == ReadIrrigation(before).moistureThreshold
  {
    IrrigationOnIsPartial(before, on, now, changedBy);
  }
}
