/** The process-wide device id (`DeviceConfig.kt`): held in memory and
    persisted under one preferences key. An update never stores a blank id
    (a blank one becomes the default); the stored value is taken as is. */
module DeviceConfigs {
  import opened Text

  const DefaultId := "ESP32_001"
  const KeyDeviceId := "device_id"

  /** `newId.ifBlank { DEFAULT_ID }`. */
  function CleanId(newId: string): (r: string)
    ensures !IsBlank(r)
    ensures IsBlank(newId) ==> r == DefaultId
    ensures !IsBlank(newId) ==> r == newId
  {
    if IsBlank(newId) then
      assert !IsWhitespace(DefaultId[0]);
      DefaultId
    else newId
  }

  /** Cleaning is idempotent: a cleaned id is kept by a second clean. */
  lemma CleanIdIdempotent(newId: string)
    ensures CleanId(CleanId(newId)) == CleanId(newId)
  {
  }

  /** `getString(KEY_DEVICE_ID, DEFAULT_ID) ?: DEFAULT_ID`. */
  function StoredId(prefs: map<string, string>): (r: string)
    ensures KeyDeviceId !in prefs ==> r == DefaultId
    ensures KeyDeviceId in prefs ==> r == prefs[KeyDeviceId]
  {
    if KeyDeviceId in prefs then prefs[KeyDeviceId] else DefaultId
  }

  /** What an update persists is what the next start reads back. */
  lemma StoredAfterUpdate(prefs: map<string, string>, newId: string)
    ensures StoredId(prefs[KeyDeviceId := CleanId(newId)]) == CleanId(newId)
  {
  }

  class DeviceConfig {
    var deviceId: string
    /** The app's `smartagro_prefs` preferences file. */
    var prefs: map<string, string>

    /** Before `init` the id is the default. */
    constructor (prefs: map<string, string>)
      ensures deviceId == DefaultId && this.prefs == prefs
    {
      deviceId := DefaultId;
      this.prefs := prefs;
    }

    /** `currentDeviceId`: the value last set. */
    function CurrentDeviceId(): string
      reads this
    {
      deviceId
    }

    /** `init`: the stored id, or the default when none is stored. */
    method Init()
      modifies this`deviceId
      ensures deviceId == StoredId(prefs)
    {
      var id := if KeyDeviceId in prefs then prefs[KeyDeviceId] else DefaultId;
      deviceId := id;
    }

    /** `updateDeviceId`: a blank id becomes the default; the result is
        both held and persisted. */
    method UpdateDeviceId(newId: string)
      modifies this
      ensures deviceId == CleanId(newId) && CurrentDeviceId() == deviceId
      ensures prefs == old(prefs)[KeyDeviceId := deviceId]
      ensures StoredId(prefs) == deviceId
    {
      var clean := if IsBlank(newId) then DefaultId else newId;
      deviceId := clean;
      prefs := prefs[KeyDeviceId := clean];
    }
  }
}
