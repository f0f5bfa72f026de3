/** The device-side realtime database access (`RtdbRepository.kt`): what
    each observer emits for the data it receives, the two-path gate of the
    relay-control observer, and the ordered pair of writes that sends a
    relay command. */
module RtdbRepositories {
  import opened Wrappers
  import opened RemoteStore
  import opened RelayCommands
  import opened RelayStatuses
  import opened RelayStatusUis
  import opened RelayControls
  import opened SensorModels
  import opened DeviceRtdbPaths

  /** The signed-in user, as far as the mirror payload uses it. */
  datatype AuthUser = AuthUser(uid: string, email: Option<string>)

  /** A stored value as the status parser sees it: a string stays a string,
      an object is read field by field, and a number is neither. */
  function StatusSnapshotOf(v: Option<Value>): (r: StatusSnapshot)
    ensures v.None? <==> r.Absent?
    ensures r.Str? <==> v.Some? && v.value.Text?
    ensures r.Obj? <==> v.Some? && v.value.Record?
  {
    match v
    case None => Absent
    case Some(Text(s)) => Str(s)
    case Some(Number(_)) => Scalar
    case Some(Record(f)) =>
      Obj(RelayStatusObject(TextField(f, "value"), TextField(f, "requestedBy"),
                            TextField(f, "requestedByEmail"), NumberField(f, "timestamp")))
  }

  // ---------------------------------------------------------------------
  // The single-path observers

  /** `observeSensorsLatest`: the record received, or the all-null record
      when there is no data or it cannot be converted. */
  function SensorsLatestEmission(s: Snapshot<RtdbSensorLatest>): (r: RtdbSensorLatest)
    ensures s.Holds? ==> r == s.value
    ensures !s.Holds? ==> r == EmptySensorLatest
  {
    match s
    case Holds(latest) => latest
    case _ => EmptySensorLatest
  }

  /** With no usable sensor data the dashboard receives the default
      snapshot, which it treats as invalid (`updatedAt` is 0). */
  lemma SensorsFallbackIsDefault(s: Snapshot<RtdbSensorLatest>)
    requires !s.Holds?
    ensures ToSnapshotDefaults(SensorsLatestEmission(s)) == DefaultSensorSnapshot
    ensures ToSnapshotDefaults(SensorsLatestEmission(s)).updatedAt == 0
  {
    ConvertEmpty();
  }

  /** `observeLastSeen`: the heartbeat value, or null when missing or not a
      number. */
  function LastSeenEmission(s: Snapshot<int>): (r: Option<int>)
    ensures r.Some? <==> s.Holds?
    ensures r.Some? ==> r.value == s.value
  {
    if s.Holds? then Some(s.value) else None
  }

  /** `observeRelayStatus`: the presentation record of the parsed status. */
  function RelayStatusEmission(snapshot: StatusSnapshot): (r: RelayStatusUi)
    ensures r.value == FromRaw(WireValue(snapshot))
    ensures Parse(snapshot).None? ==> r == EmptyStatusUi
  {
    StatusUiOfSnapshot(snapshot);
    FromRelayStatus(Parse(snapshot))
  }

  // ---------------------------------------------------------------------
  // The relay-control observer

  /** The value built from one relay snapshot and one status snapshot: the
      relay record (the all-null record for missing data) combined with the
      parsed status, or null when the relay record cannot be converted. */
  function ControlValue(relay: Snapshot<RtdbRelay>, status: StatusSnapshot): (r: Option<RelayControl>)
    ensures r.None? <==> relay.Unconvertible?
    ensures r.Some? ==> r.value.status == Parse(status)
    ensures relay.Holds? ==> r == Some(FromRtdbRelay(relay.value, Some(status)))
    ensures relay.Missing? ==> r == Some(FromRtdbRelay(EmptyRtdbRelay, Some(status)))
  {
    match relay
    case Unconvertible => None
    case Missing => Some(FromRtdbRelay(EmptyRtdbRelay, Some(status)))
    case Holds(record) => Some(FromRtdbRelay(record, Some(status)))
  }

  /** A delivery to one of the two listeners. */
  datatype ControlEvent = RelayChanged(relay: Snapshot<RtdbRelay>) | StatusChanged(status: StatusSnapshot)

  /** The latest relay snapshot among `events`, if any. */
  function LatestRelay(events: seq<ControlEvent>): (r: Option<Snapshot<RtdbRelay>>)
    ensures r.None? <==> forall i :: 0 <= i < |events| ==> !events[i].RelayChanged?
  {
    if events == [] then None
    else if events[|events| - 1].RelayChanged? then Some(events[|events| - 1].relay)
    else LatestRelay(events[..|events| - 1])
  }

  /** The latest status snapshot among `events`, if any. */
  function LatestStatus(events: seq<ControlEvent>): (r: Option<StatusSnapshot>)
    ensures r.None? <==> forall i :: 0 <= i < |events| ==> !events[i].StatusChanged?
  {
    if events == [] then None
    else if events[|events| - 1].StatusChanged? then Some(events[|events| - 1].status)
    else LatestStatus(events[..|events| - 1])
  }

  /** `tryEmit`: one value once both snapshots are known, nothing before. */
  function TryEmit(relay: Option<Snapshot<RtdbRelay>>, status: Option<StatusSnapshot>): (r: seq<Option<RelayControl>>)
    ensures |r| <= 1
    ensures r != [] <==> relay.Some? && status.Some?
  {
    if relay.Some? && status.Some? then [ControlValue(relay.value, status.value)] else []
  }

  /** Everything the observer emits for a sequence of deliveries: each
      delivery stores its snapshot and then tries to emit. */
  function Replay(events: seq<ControlEvent>): seq<Option<RelayControl>>
  {
    if events == [] then []
    else Replay(events[..|events| - 1]) + TryEmit(LatestRelay(events), LatestStatus(events))
  }

  /** Nothing is emitted while one of the two paths has not delivered. */
  lemma {:induction false} ReplayWaitsForBoth(events: seq<ControlEvent>)
    requires LatestRelay(events).None? || LatestStatus(events).None?
    ensures Replay(events) == []
  {
    if events != [] {
      var front := events[..|events| - 1];
      assert forall i :: 0 <= i < |front| ==> front[i] == events[i];
      ReplayWaitsForBoth(front);
    }
  }

  /** Once both paths have delivered, the newest emission is built from the
      latest snapshot of each, whichever path delivered last. */
  lemma ReplayLatest(events: seq<ControlEvent>)
    requires LatestRelay(events).Some? && LatestStatus(events).Some?
    ensures Replay(events) != []
    ensures Replay(events)[|Replay(events)| - 1] ==
            ControlValue(LatestRelay(events).value, LatestStatus(events).value)
  {
  }

  /** Every delivery emits at most one value, and exactly one once both
      paths have delivered. */
  lemma ReplayStep(events: seq<ControlEvent>, e: ControlEvent)
    ensures |Replay(events + [e])| == |Replay(events)| + (if LatestRelay(events + [e]).Some? && LatestStatus(events + [e]).Some? then 1 else 0)
  {
    assert (events + [e])[..|events|] == events;
  }

  /** Every emission is witnessed by a delivery: at most one value per
      delivery. */
  lemma {:induction false} ReplayBounded(events: seq<ControlEvent>)
    ensures |Replay(events)| <= |events|
  {
    if events != [] {
      ReplayBounded(events[..|events| - 1]);
    }
  }

  /** The listener pair with the two snapshot variables of
      `observeRelayControl`. `emitted` is what has been sent so far and
      `events` the deliveries so far. */
  class RelayControlObserver {
    var relaySnapshot: Option<Snapshot<RtdbRelay>>
    var statusSnapshot: Option<StatusSnapshot>
    var emitted: seq<Option<RelayControl>>
    ghost var events: seq<ControlEvent>

    ghost predicate Valid()
      reads this
    {
      relaySnapshot == LatestRelay(events) &&
      statusSnapshot == LatestStatus(events) &&
      emitted == Replay(events)
    }

    constructor ()
      ensures Valid() && events == [] && emitted == []
    {
      relaySnapshot, statusSnapshot, emitted := None, None, [];
      events := [];
    }

    /** The relay listener's `onDataChange`. */
    method OnRelayChange(relay: Snapshot<RtdbRelay>)
      requires Valid()
      modifies this
      ensures Valid() && events == old(events) + [RelayChanged(relay)]
      ensures relaySnapshot == Some(relay) && statusSnapshot == old(statusSnapshot)
      ensures emitted == old(emitted) + TryEmit(Some(relay), old(statusSnapshot))
    {
      relaySnapshot := Some(relay);
      events := events + [RelayChanged(relay)];
      assert events[..|events| - 1] == old(events);
      emitted := emitted + TryEmit(relaySnapshot, statusSnapshot);
    }

    /** The status listener's `onDataChange`. */
    method OnStatusChange(status: StatusSnapshot)
      requires Valid()
      modifies this
      ensures Valid() && events == old(events) + [StatusChanged(status)]
      ensures statusSnapshot == Some(status) && relaySnapshot == old(relaySnapshot)
      ensures emitted == old(emitted) + TryEmit(old(relaySnapshot), Some(status))
    {
      statusSnapshot := Some(status);
      events := events + [StatusChanged(status)];
      assert events[..|events| - 1] == old(events);
      emitted := emitted + TryEmit(relaySnapshot, statusSnapshot);
    }
  }

  // ---------------------------------------------------------------------
  // Writing a relay command

  /** The object mirrored to the status path after a command. */
  function MirrorPayload(command: string, user: AuthUser, now: int): Value
  {
    Record(map["value" := Text(command), "requestedBy" := Text(user.uid),
               "requestedByEmail" := Text(user.email.GetOr("")), "timestamp" := Number(now)])
  }

  /** Whether the mirror write is made: asked for, a user is signed in, and
      the command write succeeded. */
  predicate MirrorAttempted(mirrorStatus: bool, user: Option<AuthUser>, commandFault: StoreFault)
  {
    commandFault.Accept? && mirrorStatus && user.Some?
  }

  /** The store after `writeRelayCommand`. */
  function AfterWrite(store: map<string, Value>, deviceId: string, command: string, mirrorStatus: bool,
                      user: Option<AuthUser>, now: int, commandFault: StoreFault, mirrorFault: StoreFault): map<string, Value>
  {
    if commandFault.Reject? then store
    else
      var written := store[ControlsRelayCommand(deviceId) := Text(command)];
      if MirrorAttempted(mirrorStatus, user, commandFault) && mirrorFault.Accept? then
        written[ControlRelayStatus(deviceId) := MirrorPayload(command, user.value, now)]
      else written
  }

  /** The paths written to, in order. */
  function WritesAttempted(deviceId: string, mirrorStatus: bool, user: Option<AuthUser>, commandFault: StoreFault): seq<string>
  {
    [ControlsRelayCommand(deviceId)] +
    (if MirrorAttempted(mirrorStatus, user, commandFault) then [ControlRelayStatus(deviceId)] else [])
  }

  /** The exception `writeRelayCommand` rethrows, if any. */
  function WriteOutcome(mirrorStatus: bool, user: Option<AuthUser>, commandFault: StoreFault, mirrorFault: StoreFault): Outcome<Option<string>>
  {
    if commandFault.Reject? then Fail(commandFault.message)
    else if MirrorAttempted(mirrorStatus, user, commandFault) && mirrorFault.Reject? then Fail(mirrorFault.message)
    else Pass
  }

  /** A rejected command write changes nothing and rethrows. */
  lemma CommandRejectedChangesNothing(store: map<string, Value>, deviceId: string, command: string, mirrorStatus: bool,
                                      user: Option<AuthUser>, now: int, message: Option<string>, mirrorFault: StoreFault)
    ensures AfterWrite(store, deviceId, command, mirrorStatus, user, now, Reject(message), mirrorFault) == store
    ensures WriteOutcome(mirrorStatus, user, Reject(message), mirrorFault) == Fail(message)
    ensures WritesAttempted(deviceId, mirrorStatus, user, Reject(message)) == [ControlsRelayCommand(deviceId)]
  {
  }

  /** An accepted command write leaves the command at the command path,
      whatever happens to the mirror afterwards. */
  lemma CommandStaysWritten(store: map<string, Value>, deviceId: string, command: string, mirrorStatus: bool,
                            user: Option<AuthUser>, now: int, mirrorFault: StoreFault)
    ensures var after := AfterWrite(store, deviceId, command, mirrorStatus, user, now, Accept, mirrorFault);
            ControlsRelayCommand(deviceId) in after && after[ControlsRelayCommand(deviceId)] == Text(command)
  {
    CommandNotMirror(deviceId, deviceId);
  }

  /** The status path changes only through a successful mirror, which
      needs the flag, a signed-in user and a successful command write;
      every other path keeps its value. */
  lemma OnlyTwoPathsChange(store: map<string, Value>, deviceId: string, command: string, mirrorStatus: bool,
                           user: Option<AuthUser>, now: int, commandFault: StoreFault, mirrorFault: StoreFault, p: string)
    requires p != ControlsRelayCommand(deviceId)
    ensures var after := AfterWrite(store, deviceId, command, mirrorStatus, user, now, commandFault, mirrorFault);
            (p in after <==> p in store || (p == ControlRelayStatus(deviceId) && MirrorAttempted(mirrorStatus, user, commandFault) && mirrorFault.Accept?)) &&
            (p in store && (p != ControlRelayStatus(deviceId) || !MirrorAttempted(mirrorStatus, user, commandFault) || mirrorFault.Reject?) ==> after[p] == store[p])
  {
  }

  /** The command path always comes first, and the mirror is written only
      after an accepted command write. */
  lemma CommandFirst(deviceId: string, mirrorStatus: bool, user: Option<AuthUser>, commandFault: StoreFault)
    ensures var w := WritesAttempted(deviceId, mirrorStatus, user, commandFault);
            w[0] == ControlsRelayCommand(deviceId) &&
            (|w| == 2 <==> commandFault.Accept? && mirrorStatus && user.Some?) &&
            (|w| == 2 ==> w[1] == ControlRelayStatus(deviceId))
  {
  }

  /** What the status observer emits for `deviceId` given the store. */
  function ObservedStatus(store: map<string, Value>, deviceId: string): (r: RelayStatusUi)
    ensures ControlRelayStatus(deviceId) !in store ==> r == EmptyStatusUi
  {
    var node := ControlRelayStatus(deviceId);
    RelayStatusEmission(StatusSnapshotOf(if node in store then Some(store[node]) else None))
  }

  /** Round trip through the store: after a mirrored write the status
      observer shows the command the sent string spells, the requester's
      uid and email (or `""`) and the write time. */
  lemma {:induction false} MirrorReadBack(store: map<string, Value>, deviceId: string, command: string,
                                          user: AuthUser, now: int)
    ensures ObservedStatus(AfterWrite(store, deviceId, command, true, Some(user), now, Accept, Accept), deviceId) ==
              RelayStatusUi(FromRaw(Some(command)), Some(user.uid), Some(user.email.GetOr("")), Some(now))
  {
    var after := AfterWrite(store, deviceId, command, true, Some(user), now, Accept, Accept);
    var payload := MirrorPayload(command, user, now);
    assert after[ControlRelayStatus(deviceId)] == payload;
    var d := RelayStatusObject(Some(command), Some(user.uid), Some(user.email.GetOr("")), Some(now));
    PayloadSnapshot(command, user, now);
    ParseObjectWithValue(d);
    assert FromRelayStatus(Some(Object(d))) ==
           RelayStatusUi(d.NormalizedValue(), d.requestedBy, d.requestedByEmail, d.timestamp);
  }

  /** The mirror object is read back field by field. */
  lemma PayloadSnapshot(command: string, user: AuthUser, now: int)
    ensures StatusSnapshotOf(Some(MirrorPayload(command, user, now))) ==
            Obj(RelayStatusObject(Some(command), Some(user.uid), Some(user.email.GetOr("")), Some(now)))
  {
    var fields := MirrorPayload(command, user, now).fields;
    assert TextField(fields, "value") == Some(command);
    assert TextField(fields, "requestedBy") == Some(user.uid);
    assert TextField(fields, "requestedByEmail") == Some(user.email.GetOr(""));
    assert NumberField(fields, "timestamp") == Some(now);
  }

  /** In particular a mirrored `"on"` or `"off"` reads back as that
      command. */
  lemma MirrorReadBackCommand(store: map<string, Value>, deviceId: string, c: RelayCommand, user: AuthUser, now: int)
    ensures ObservedStatus(AfterWrite(store, deviceId, c.Raw(), true, Some(user), now, Accept, Accept), deviceId).value == Some(c)
  {
    MirrorReadBack(store, deviceId, c.Raw(), user, now);
    FromRawOfRaw(c);
  }

  /** The repository over a store of values at paths. `writeLog` lists the
      paths written to, in order. */
  class RtdbRepository {
    var store: map<string, Value>
    var writeLog: seq<string>

    constructor (initial: map<string, Value>)
      ensures store == initial && writeLog == []
    {
      store, writeLog := initial, [];
    }

    /** `writeRelayCommand`: the command first; then, when asked for and a
        user is signed in, the mirror object; any rejection is rethrown. */
    method WriteRelayCommand(deviceId: string, command: string, mirrorStatus: bool, user: Option<AuthUser>,
                             now: int, commandFault: StoreFault, mirrorFault: StoreFault)
      returns (r: Outcome<Option<string>>)
      modifies this
      ensures store == AfterWrite(old(store), deviceId, command, mirrorStatus, user, now, commandFault, mirrorFault)
      ensures writeLog == old(writeLog) + WritesAttempted(deviceId, mirrorStatus, user, commandFault)
      ensures r == WriteOutcome(mirrorStatus, user, commandFault, mirrorFault)
    {
      var commandPath := ControlsRelayCommand(deviceId);
      r := Pass;
      writeLog := writeLog + [commandPath];
      if commandFault.Reject? {
        r := Fail(commandFault.message);
      } else {
        store := store[commandPath := Text(command)];
        if mirrorStatus && user.Some? {
          var statusPath := ControlRelayStatus(deviceId);
          writeLog := writeLog + [statusPath];
          if mirrorFault.Reject? {
            r := Fail(mirrorFault.message);
          } else {
            store := store[statusPath := MirrorPayload(command, user.value, now)];
          }
        }
      }
    }

  }
}
