/** Choosing the device a signed-in user looks at
    (`DeviceSelectionViewModel.kt`): the active id from the user's profile
    when it is set, otherwise the first device of the user's list. */
module DeviceSelection {
  import opened Wrappers
  import opened Text

  /** A device the user owns; only its id matters here. */
  datatype UserDevice = UserDevice(deviceId: string, farmName: Option<string>, location: Option<string>, status: Option<string>)

  /** `Constants.ENABLE_WRITE_ACTIVE_DEVICE_ID`. */
  const EnableWriteActiveDeviceId := false

  /** `isNullOrBlank`. */
  predicate IsNullOrBlank(s: Option<string>)
  {
    s.None? || IsBlank(s.value)
  }

  /** `pickFallbackDeviceId`: the first device's id, or null for an empty
      list. */
  function PickFallbackDeviceId(list: seq<UserDevice>): (r: Option<string>)
    ensures r.None? <==> list == []
    ensures r.Some? ==> r.value == list[0].deviceId
  {
    if list == [] then None else Some(list[0].deviceId)
  }

  /** The selection the active-id stream leads to: a usable active id
      verbatim, otherwise the fallback of the devices known at that point. */
  function SelectionForActive(active: Option<string>, devices: seq<UserDevice>): (r: Option<string>)
    ensures !IsNullOrBlank(active) ==> r == active
    ensures IsNullOrBlank(active) ==> r == PickFallbackDeviceId(devices)
  {
    if !IsNullOrBlank(active) then active else PickFallbackDeviceId(devices)
  }

  /** A selection is made whenever the user has a device, and what is
      selected is either a usable active id or the first device's id; a
      blank active id is never selected. */
  lemma SelectionMadeWhenDevicesExist(active: Option<string>, devices: seq<UserDevice>)
    ensures devices != [] ==> SelectionForActive(active, devices).Some?
    ensures SelectionForActive(active, devices).Some? ==>
              (SelectionForActive(active, devices) == active && !IsNullOrBlank(active)) ||
              (devices != [] && SelectionForActive(active, devices).value == devices[0].deviceId)
  {
  }

  class DeviceSelectionViewModel {
    /** The build switch for the remote write, `EnableWriteActiveDeviceId`
        in the shipped build. */
    const writeActiveDeviceId: bool
    var devices: seq<UserDevice>
    var selectedDeviceId: Option<string>
    /** Whether `start` found a signed-in user and began listening. */
    var listening: bool
    /** The remote `activeDeviceId` writes issued by `selectDevice`. */
    var activeDeviceWrites: seq<string>

    constructor (writeActiveDeviceId: bool)
      ensures this.writeActiveDeviceId == writeActiveDeviceId
      ensures devices == [] && selectedDeviceId.None? && !listening && activeDeviceWrites == []
    {
      this.writeActiveDeviceId := writeActiveDeviceId;
      devices, selectedDeviceId, listening, activeDeviceWrites := [], None, false, [];
    }

    /** `start`: without a signed-in user the list and the selection are
        cleared; with one, the three collectors begin. */
    method Start(uid: Option<string>)
      modifies this
      ensures IsNullOrBlank(uid) ==> devices == [] && selectedDeviceId.None? && listening == old(listening)
      ensures !IsNullOrBlank(uid) ==> devices == old(devices) && selectedDeviceId == old(selectedDeviceId) && listening
      ensures activeDeviceWrites == old(activeDeviceWrites)
    {
      if IsNullOrBlank(uid) {
        devices := [];
        selectedDeviceId := None;
        return;
      }
      listening := true;
    }

    /** The device-list stream delivering a list. */
    method OnDevices(list: seq<UserDevice>)
      requires listening
      modifies this`devices
      ensures devices == list
    {
      devices := list;
    }

    /** The device-list stream failing: the list becomes empty. */
    method OnDevicesError()
      requires listening
      modifies this`devices
      ensures devices == []
    {
      devices := [];
    }

    /** The active-id stream delivering an id. */
    method OnActiveDeviceId(active: Option<string>)
      requires listening
      modifies this`selectedDeviceId
      ensures selectedDeviceId == SelectionForActive(active, devices)
    {
      if !IsNullOrBlank(active) {
        selectedDeviceId := active;
      } else {
        selectedDeviceId := PickFallbackDeviceId(devices);
      }
    }

    /** The active-id stream failing: the fallback is selected. */
    method OnActiveDeviceError()
      requires listening
      modifies this`selectedDeviceId
      ensures selectedDeviceId == PickFallbackDeviceId(devices)
    {
      selectedDeviceId := PickFallbackDeviceId(devices);
    }

    /** The third collector seeing the current device list: it fills in a
        missing or blank selection and leaves a real one alone. */
    method OnDevicesObserved()
      requires listening
      modifies this`selectedDeviceId
      ensures IsNullOrBlank(old(selectedDeviceId)) ==> selectedDeviceId == PickFallbackDeviceId(devices)
      ensures !IsNullOrBlank(old(selectedDeviceId)) ==> selectedDeviceId == old(selectedDeviceId)
    {
      var current := selectedDeviceId;
      if IsNullOrBlank(current) {
        selectedDeviceId := PickFallbackDeviceId(devices);
      }
    }

    /** `selectDevice`: the choice is taken as is; the remote write is
        issued only when switched on and a user is signed in, so the
        shipped build never issues one. */
    method SelectDevice(deviceId: string, uid: Option<string>)
      modifies this`selectedDeviceId, this`activeDeviceWrites
      ensures selectedDeviceId == Some(deviceId)
      ensures writeActiveDeviceId && !IsNullOrBlank(uid) ==> activeDeviceWrites == old(activeDeviceWrites) + [deviceId]
      ensures !writeActiveDeviceId || IsNullOrBlank(uid) ==> activeDeviceWrites == old(activeDeviceWrites)
    {
      selectedDeviceId := Some(deviceId);
      if writeActiveDeviceId && !IsNullOrBlank(uid) {
        activeDeviceWrites := activeDeviceWrites + [deviceId];
      }
    }
  }
}
