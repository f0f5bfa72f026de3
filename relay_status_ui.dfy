/** The presentation record of a relay status (`RelayStatusUi.kt`). */
module RelayStatusUis {
  import opened Wrappers
  import opened RelayCommands
  import opened RelayStatuses

  datatype RelayStatusUi = RelayStatusUi(
    value: Option<RelayCommand>,
    requestedBy: Option<string>,
    requestedByEmail: Option<string>,
    timestamp: Option<int>)

  /** The record with all four fields null. */
  const EmptyStatusUi := RelayStatusUi(None, None, None, None)

  /** `fromRelayStatus`: the record shows the status's command and
      timestamp; the requester fields come from the object shape only, and
      a missing status shows nothing at all. */
  function FromRelayStatus(status: Option<RelayStatus>): (r: RelayStatusUi)
    ensures r.value == (if status.Some? then status.value.ValueOrNull() else None)
    ensures r.timestamp == (if status.Some? then status.value.TimestampOrNull() else None)
    ensures status.Some? && status.value.Object? ==>
              r.requestedBy == status.value.data.requestedBy &&
              r.requestedByEmail == status.value.data.requestedByEmail
    ensures (status.None? || status.value.RawString?) ==> r.requestedBy.None? && r.requestedByEmail.None?
    ensures status.None? ==> r == EmptyStatusUi
  {
    match status
    case Some(RawString(c)) => RelayStatusUi(Some(c), None, None, None)
    case Some(Object(d)) => RelayStatusUi(d.NormalizedValue(), d.requestedBy, d.requestedByEmail, d.timestamp)
    case None => RelayStatusUi(None, None, None, None)
  }

  /** Reading a snapshot straight into the record: the record's command is
      whatever the wire value spells (so nothing, never OFF, when it spells
      nothing). */
  lemma StatusUiOfSnapshot(snapshot: StatusSnapshot)
    ensures FromRelayStatus(Parse(snapshot)).value == FromRaw(WireValue(snapshot))
  {
  }
}
