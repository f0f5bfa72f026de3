/** The relay control record (`RelayControl.kt`), read from the relay path
    (`RtdbRelay`) with its status taken from the separate status path. */
module RelayControls {
  import opened Wrappers
  import opened RelayStatuses

  /** The record at `control/relay`; its own `status` is an untyped value. */
  datatype RtdbRelay = RtdbRelay(
    status: Option<StatusSnapshot>,
    mode: Option<string>,
    lastChangedBy: Option<string>,
    timestamp: Option<int>)

  /** `RtdbRelay()`: every field null. */
  const EmptyRtdbRelay := RtdbRelay(None, None, None, None)

  datatype RelayControl = RelayControl(
    status: Option<RelayStatus>,
    mode: Option<string>,
    lastChangedBy: Option<string>,
    timestamp: Option<int>)

  /** `RelayControl()`: every field null. */
  const EmptyRelayControl := RelayControl(None, None, None, None)

  /** `fromRtdbRelay`: the status is the parse of the separate status
      snapshot (null without one); the other three fields are copied from
      the relay record. */
  function FromRtdbRelay(relay: RtdbRelay, statusSnapshot: Option<StatusSnapshot>): (r: RelayControl)
    ensures r.status == (if statusSnapshot.Some? then Parse(statusSnapshot.value) else None)
    ensures r.mode == relay.mode && r.lastChangedBy == relay.lastChangedBy && r.timestamp == relay.timestamp
  {
    var parsedStatus := if statusSnapshot.Some? then Parse(statusSnapshot.value) else None;
    RelayControl(parsedStatus, relay.mode, relay.lastChangedBy, relay.timestamp)
  }

  /** The relay record's own `status` field plays no part. */
  lemma RelayOwnStatusIgnored(relay: RtdbRelay, other: Option<StatusSnapshot>, statusSnapshot: Option<StatusSnapshot>)
    ensures FromRtdbRelay(relay.(status := other), statusSnapshot) == FromRtdbRelay(relay, statusSnapshot)
  {
  }

  /** An empty relay record with no status snapshot gives the empty
      control record. */
  lemma EmptyRelayGivesEmptyControl()
    ensures FromRtdbRelay(EmptyRtdbRelay, None) == EmptyRelayControl
  {
  }
}
