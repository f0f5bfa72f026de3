/** Paths of one device's nodes in the realtime database
    (`DeviceRtdbPaths.kt`): `devices/{deviceId}/...`. */
module DeviceRtdbPaths {

  /** `devices/{deviceId}/{suffix}`. */
  function DevicePath(deviceId: string, suffix: string): (r: string)
    ensures |r| == |deviceId| + |suffix| + 9
    ensures r[..8] == "devices/" && r[8..8 + |deviceId|] == deviceId
    ensures r[8 + |deviceId|..] == "/" + suffix
  {
    "devices/" + deviceId + "/" + suffix
  }

  function SensorsLatest(deviceId: string): string { DevicePath(deviceId, "sensors/latest") }
  function MetaLastSeen(deviceId: string): string { DevicePath(deviceId, "meta/lastSeen") }
  function ControlsRelayCommand(deviceId: string): string { DevicePath(deviceId, "controls/relayCommand") }
  function ControlsRelayStatus(deviceId: string): string { DevicePath(deviceId, "controls/relayStatus") }
  function ControlRelayStatus(deviceId: string): string { DevicePath(deviceId, "control/relay/status") }
  function ControlRelay(deviceId: string): string { DevicePath(deviceId, "control/relay") }

  /** Two devices share a node only if they are the same device: the
      device id is recovered from the path. */
  lemma {:induction false} DevicePathInjective(a: string, b: string, suffix: string)
    requires DevicePath(a, suffix) == DevicePath(b, suffix)
    ensures a == b
  {
    var p := DevicePath(a, suffix);
    assert |a| == |b|;
    calc {
      a;
      p[8..8 + |a|];
      b;
    }
  }

  /** The relay status node is the `status` child of the relay node, so
      one listener on the relay node also sees the status. */
  lemma StatusIsChildOfRelay(deviceId: string)
    ensures ControlRelayStatus(deviceId) == ControlRelay(deviceId) + "/status"
  {
    assert ControlRelayStatus(deviceId) == "devices/" + deviceId + "/" + "control/relay/status";
    assert "control/relay/status" == "control/relay" + "/status";
  }

  /** The command node (written by the app, read by the device) is never
      the mirrored status node, for any two device ids. */
  lemma {:induction false} CommandNotMirror(a: string, b: string)
    ensures ControlsRelayCommand(a) != ControlRelayStatus(b)
  {
    var c, s := ControlsRelayCommand(a), ControlRelayStatus(b);
    assert c[|c| - 1] == 'd';
    assert s[|s| - 1] == 's';
  }

  /** The two status nodes, `controls/relayStatus` and
      `control/relay/status`, are different nodes of the same device. */
  lemma {:induction false} TwoStatusNodesDiffer(deviceId: string)
    ensures ControlsRelayStatus(deviceId) != ControlRelayStatus(deviceId)
  {
    var p, q := ControlsRelayStatus(deviceId), ControlRelayStatus(deviceId);
    assert p[8 + |deviceId| + 8] == 's';
    assert q[8 + |deviceId| + 8] == '/';
  }
}
