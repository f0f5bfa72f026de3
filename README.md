# SmartAgro decision layer in Dafny

SmartAgro is an Android client for a soil-irrigation relay. The relay is
driven by an ESP32 board that publishes its readings to a Firebase realtime
database. This project models the sequential logic behind the screens:

- **Relay-status codec.** The `"on"`/`"off"` commands and the two wire
  shapes of the relay status: a bare string, or an object with `value`,
  `requestedBy`, `requestedByEmail` and `timestamp`. Also covered: the
  presentation record built from a status and the relay-control record.
- **Device irrigation screen.** The firmware-embedded status wins over the
  separate status path, and the source of the decision is recorded. The
  relay-control observer waits for both of its paths. A relay command is
  written first and the status mirror after it.
- **Automatic irrigation.** A debounce state machine whose timer, when it
  fires, re-reads the farm and writes at most once. The farm data source
  falls back to defaults on failed reads and updates only some fields.
  The farm irrigation screen creates and drops the automatic manager.
- **Monitoring, dashboard and device selection.** Heartbeat liveness with a
  30 second window. Two rolling 60-sample chart buffers. The sensor-card
  classifiers. The device-id fallback rules and the process-wide device id.
- **Small utilities.** The database path builders, the null-to-zero
  conversion of a sensor record, the timestamp magnitude classification,
  the "time ago" arithmetic and the grid-spacing arithmetic.
- **Form validators.** The one-time code, the password reset and the
  sign-up form.

The database is a map from paths to values (or one record per farm). Each
read and each write takes an explicit failure flag. The current time is a
parameter. Listener callbacks are methods called once per delivery. Kotlin's
truncating `/` and `%` are written out (`KotlinInt`), because Dafny's
division is Euclidean. Sensor doubles are `real`, since they are only ever
compared.

Each stateful source class becomes a Dafny `class` with the same fields.
Its methods state their new state through specification functions, and
the lemmas about those functions carry the properties.

## Model

| member | source | states |
|---|---|---|
| RelayCommands.RelayCommand.Raw | app/src/main/java/com/example/smartagro/domain/model/rtdb/RelayCommand.kt:3-6 | each command's wire text is a lower-case word of at least two letters |
| RelayCommands.FromRaw | app/src/main/java/com/example/smartagro/domain/model/rtdb/RelayCommand.kt:8-13 | a missing text gives no command |
| RelayCommands.RawInjective | app/src/main/java/com/example/smartagro/domain/model/rtdb/RelayCommand.kt:4-5 | the two wire texts differ, so equal texts mean the same command |
| RelayCommands.RawIsNormalForm | app/src/main/java/com/example/smartagro/domain/model/rtdb/RelayCommand.kt:4-10 | trimming and lower-casing a wire text leaves it unchanged |
| RelayCommands.FromRawOfRaw | app/src/main/java/com/example/smartagro/domain/model/rtdb/RelayCommand.kt:3-14 | round trip: parsing a command's wire text gives that command back |
| RelayCommands.FromRawExactly | app/src/main/java/com/example/smartagro/domain/model/rtdb/RelayCommand.kt:9-11 | a text parses to a command iff its trimmed lower-case form is that command's wire text |
| RelayCommands.FromRawRejects | app/src/main/java/com/example/smartagro/domain/model/rtdb/RelayCommand.kt:12 | every other text gives no command; nothing defaults to on or off |
| RelayCommands.LowersToLetterNotWhitespace | app/src/main/java/com/example/smartagro/domain/model/rtdb/RelayCommand.kt:10 | a character that lower-cases to a letter is not whitespace, so trimming never eats a letter |
| RelayCommands.FromRawPaddedAnyCase | app/src/main/java/com/example/smartagro/domain/model/rtdb/RelayCommand.kt:9-11 | a command word in any case, with any surrounding whitespace, parses to that command |
| Text.Trim | app/src/main/java/com/example/smartagro/domain/model/rtdb/RelayCommand.kt:9 | `trim()`: the result is empty exactly when the input is blank, and otherwise starts and ends with a non-whitespace character; padding removal is proved in TrimOfPadded |
| Text.Lower | app/src/main/java/com/example/smartagro/domain/model/rtdb/RelayCommand.kt:9 | `lowercase()`: same length, each character lowered |
| RelayStatuses.Parse | app/src/main/java/com/example/smartagro/domain/model/rtdb/RelayStatus.kt:35-45 | a parsed status's command is the parse of the stored value; no status means no command; an object result is the stored object itself |
| RelayStatuses.ParseAcceptedString | app/src/main/java/com/example/smartagro/domain/model/rtdb/RelayStatus.kt:36-38 | a stored string that parses to a command gives the bare-string status of that command |
| RelayStatuses.ParseRejectedString | app/src/main/java/com/example/smartagro/domain/model/rtdb/RelayStatus.kt:36-43 | a stored string that does not parse gives no status, because a string is not an object |
| RelayStatuses.ParseObjectWithValue | app/src/main/java/com/example/smartagro/domain/model/rtdb/RelayStatus.kt:40-41 | an object with a value is an object status even when the value is not a command, and its command is then null |
| RelayStatuses.ParseNothing | app/src/main/java/com/example/smartagro/domain/model/rtdb/RelayStatus.kt:41-43 | no data, a non-text scalar, or an object without a value gives no status |
| RelayStatuses.TimestampOfParsed | app/src/main/java/com/example/smartagro/domain/model/rtdb/RelayStatus.kt:27-32 | a bare-string status has no timestamp; an object status has the object's timestamp |
| RelayStatuses.RelayStatusObject.NormalizedValue | app/src/main/java/com/example/smartagro/domain/model/rtdb/RelayStatus.kt:13 | definition: the parse of the object's value; properties in ParseObjectWithValue |
| RelayStatuses.RelayStatus.ValueOrNull | app/src/main/java/com/example/smartagro/domain/model/rtdb/RelayStatus.kt:20-25 | definition: a bare string's command, or the object's normalised value; properties in ParseAcceptedString and ParseObjectWithValue |
| RelayStatuses.RelayStatus.TimestampOrNull | app/src/main/java/com/example/smartagro/domain/model/rtdb/RelayStatus.kt:27-32 | definition: none for a bare string, the object's timestamp otherwise; properties in TimestampOfParsed |
| RelayStatusUis.FromRelayStatus | app/src/main/java/com/example/smartagro/domain/model/rtdb/RelayStatusUi.kt:10-31 | the record's value and timestamp are the status's command and timestamp; object metadata is copied, a bare string has none, and no status gives the all-null record |
| RelayStatusUis.StatusUiOfSnapshot | app/src/main/java/com/example/smartagro/domain/model/rtdb/RelayStatusUi.kt:10-31 | for every stored status the shown command is the parse of the stored value |
| RelayControls.FromRtdbRelay | app/src/main/java/com/example/smartagro/domain/model/rtdb/RelayControl.kt:14-22 | the status is the parse of the separate status snapshot (null without one); mode, lastChangedBy and timestamp are copied from the relay record |
| RelayControls.RelayOwnStatusIgnored | app/src/main/java/com/example/smartagro/domain/model/rtdb/RelayControl.kt:16-21 | the relay record's own status field plays no part |
| RelayControls.EmptyRelayGivesEmptyControl | app/src/main/java/com/example/smartagro/domain/model/rtdb/RelayControl.kt:8-11 | the default relay record without a status snapshot gives the all-null control record |
| SensorModels.ToSnapshotDefaults | app/src/main/java/com/example/smartagro/domain/model/rtdb/RtdbSensorLatest.kt:17-28 | each present reading is copied and each absent one becomes 0.0; an absent updatedAt becomes 0 |
| SensorModels.ConvertFullyPresent | app/src/main/java/com/example/smartagro/domain/model/rtdb/RtdbSensorLatest.kt:18-27 | a record with every field present converts to exactly the snapshot it carries |
| SensorModels.ConvertEmpty | app/src/main/java/com/example/smartagro/domain/model/rtdb/RtdbSensorLatest.kt:6-16 | the default record converts to the default snapshot |
| SensorModels.RelayStatusDropped | app/src/main/java/com/example/smartagro/domain/model/rtdb/RtdbSensorLatest.kt:14-28 | the relay status does not reach the snapshot |
| SensorCards.GetStatus | app/src/main/java/com/example/smartagro/viewmodel/MonitoringViewModel.kt:268-274 | LOW iff below the low bound, NORMAL iff within the closed range, HIGH iff above the high bound |
| SensorCards.GetStatusMonotone | app/src/main/java/com/example/smartagro/viewmodel/MonitoringViewModel.kt:268-274 | for ordered bounds a larger reading never gets a lower class |
| SensorCards.BoundsAreNormal | app/src/main/java/com/example/smartagro/viewmodel/MonitoringViewModel.kt:268-274 | both bounds themselves are NORMAL |
| DeviceRtdbPaths.DevicePath | app/src/main/java/com/example/smartagro/data/firebase/DeviceRtdbPaths.kt:15-25 | every device path is `devices/`, the id, `/` and a fixed suffix |
| DeviceRtdbPaths.SensorsLatest | app/src/main/java/com/example/smartagro/data/firebase/DeviceRtdbPaths.kt:15 | definition: the device path with suffix `sensors/latest`; properties in DevicePathInjective |
| DeviceRtdbPaths.MetaLastSeen | app/src/main/java/com/example/smartagro/data/firebase/DeviceRtdbPaths.kt:17 | definition: the device path with suffix `meta/lastSeen`; properties in DevicePathInjective |
| DeviceRtdbPaths.ControlsRelayCommand | app/src/main/java/com/example/smartagro/data/firebase/DeviceRtdbPaths.kt:19 | definition: the device path with suffix `controls/relayCommand`; properties in CommandNotMirror |
| DeviceRtdbPaths.ControlsRelayStatus | app/src/main/java/com/example/smartagro/data/firebase/DeviceRtdbPaths.kt:21 | definition: the device path with suffix `controls/relayStatus`; properties in TwoStatusNodesDiffer |
| DeviceRtdbPaths.ControlRelayStatus | app/src/main/java/com/example/smartagro/data/firebase/DeviceRtdbPaths.kt:23 | definition: the device path with suffix `control/relay/status`; properties in StatusIsChildOfRelay and CommandNotMirror |
| DeviceRtdbPaths.ControlRelay | app/src/main/java/com/example/smartagro/data/firebase/DeviceRtdbPaths.kt:25 | definition: the device path with suffix `control/relay`; properties in StatusIsChildOfRelay |
| DeviceRtdbPaths.DevicePathInjective | app/src/main/java/com/example/smartagro/data/firebase/DeviceRtdbPaths.kt:15-25 | each builder is injective in the device id |
| DeviceRtdbPaths.StatusIsChildOfRelay | app/src/main/java/com/example/smartagro/data/firebase/DeviceRtdbPaths.kt:23-25 | the relay status path is the relay path plus `/status` |
| DeviceRtdbPaths.CommandNotMirror | app/src/main/java/com/example/smartagro/data/firebase/DeviceRtdbPaths.kt:19-23 | the command path never equals a status mirror path, for any two ids |
| DeviceRtdbPaths.TwoStatusNodesDiffer | app/src/main/java/com/example/smartagro/data/firebase/DeviceRtdbPaths.kt:21-27 | the `controls/relayStatus` and `control/relay/status` paths differ |
| FirebasePaths.SensorsPath | app/src/main/java/com/example/smartagro/data/firebase/FirebasePaths.kt:9-11 | the path is `farms/`, the farm id and `/sensors/current` |
| FirebasePaths.IrrigationPath | app/src/main/java/com/example/smartagro/data/firebase/FirebasePaths.kt:13-15 | the path is `farms/`, the farm id and `/irrigation` |
| FirebasePaths.IrrigationPathInjective | app/src/main/java/com/example/smartagro/data/firebase/FirebasePaths.kt:13-15 | the irrigation path is injective in the farm id |
| FirebasePaths.SensorsPathInjective | app/src/main/java/com/example/smartagro/data/firebase/FirebasePaths.kt:9-11 | the sensors path is injective in the farm id |
| FirebasePaths.SensorsNotIrrigation | app/src/main/java/com/example/smartagro/data/firebase/FirebasePaths.kt:9-15 | a sensors path is never an irrigation path |
| FirebasePaths.NeitherIsPrefix | app/src/main/java/com/example/smartagro/data/firebase/FirebasePaths.kt:9-15 | for one farm neither path is a prefix of the other |
| FirebaseData.ReadIrrigation | app/src/main/java/com/example/smartagro/data/firebase/FirebaseDataSource.kt:138-139 | a missing mode reads as MANUAL and a missing isOn as off; a present mode is read as stored |
| FirebaseData.ReadNodeOf | app/src/main/java/com/example/smartagro/data/firebase/FirebaseDataSource.kt:138-139 | a node with every child present reads back as exactly its state |
| FirebaseData.ReadEmptyNode | app/src/main/java/com/example/smartagro/domain/model/IrrigationState.kt:6-12 | an empty node reads as the default irrigation state |
| FirebaseData.NodeOf | app/src/main/java/com/example/smartagro/domain/model/IrrigationState.kt:6-12 | definition: the node with every child of a state present; properties in ReadNodeOf |
| FirebaseData.IrrigationOnIsPartial | app/src/main/java/com/example/smartagro/data/firebase/FirebaseDataSource.kt:161-166 | switching changes exactly isOn, lastChangedAt and lastChangedBy; mode and threshold are kept |
| FirebaseData.ModeIsPartial | app/src/main/java/com/example/smartagro/data/firebase/FirebaseDataSource.kt:187 | setting the mode changes only the mode |
| FirebaseData.ThresholdIsPartial | app/src/main/java/com/example/smartagro/data/firebase/FirebaseDataSource.kt:208 | setting the threshold changes only the threshold |
| FirebaseData.WithIrrigationOn | app/src/main/java/com/example/smartagro/data/firebase/FirebaseDataSource.kt:161-166 | definition: the node with isOn, lastChangedAt and lastChangedBy replaced; properties in IrrigationOnIsPartial and SwitchReadsBack |
| FirebaseData.WithMode | app/src/main/java/com/example/smartagro/data/firebase/FirebaseDataSource.kt:187 | definition: the node with its mode replaced; properties in ModeIsPartial |
| FirebaseData.WithThreshold | app/src/main/java/com/example/smartagro/data/firebase/FirebaseDataSource.kt:208 | definition: the node with its threshold replaced; properties in ThresholdIsPartial |
| FirebaseData.IrrigationOfSnapshot | app/src/main/java/com/example/smartagro/data/firebase/FirebaseDataSource.kt:98-107 | missing or unconvertible data gives the default state, anything else the converted node |
| FirebaseData.SensorsOfSnapshot | app/src/main/java/com/example/smartagro/data/firebase/FirebaseDataSource.kt:33-42 | missing or unconvertible data gives the default snapshot, anything else the stored one |
| FirebaseData.FirebaseDataSource.constructor | app/src/main/java/com/example/smartagro/data/firebase/FirebaseDataSource.kt:15 | the source holds the given database (or none) and its farm records |
| FirebaseData.FirebaseDataSource.GetIrrigation | app/src/main/java/com/example/smartagro/data/firebase/FirebaseDataSource.kt:124-146 | never fails: no database, no data or a failed read gives the default state, otherwise the stored one |
| FirebaseData.FirebaseDataSource.GetSensors | app/src/main/java/com/example/smartagro/data/firebase/FirebaseDataSource.kt:59-81 | never fails: no database, no data or a failed read gives the default snapshot, otherwise the stored one |
| FirebaseData.FirebaseDataSource.ObserveIrrigation | app/src/main/java/com/example/smartagro/data/firebase/FirebaseDataSource.kt:83-122 | without a database exactly one default state; otherwise one state per delivery |
| FirebaseData.FirebaseDataSource.ObserveSensors | app/src/main/java/com/example/smartagro/data/firebase/FirebaseDataSource.kt:18-57 | without a database exactly one default snapshot; otherwise one snapshot per delivery |
| FirebaseData.FirebaseDataSource.SetIrrigationOn | app/src/main/java/com/example/smartagro/data/firebase/FirebaseDataSource.kt:148-172 | fails without a database or on a rejected write, changing nothing; otherwise updates the three switch fields of that farm only |
| FirebaseData.FirebaseDataSource.SetMode | app/src/main/java/com/example/smartagro/data/firebase/FirebaseDataSource.kt:174-193 | fails without a database or on a rejected write, changing nothing; otherwise writes only that farm's mode |
| FirebaseData.FirebaseDataSource.SetThreshold | app/src/main/java/com/example/smartagro/data/firebase/FirebaseDataSource.kt:195-214 | fails without a database or on a rejected write, changing nothing; otherwise writes only that farm's threshold |
| FirebaseData.FailedReadsGiveDefaults | app/src/main/java/com/example/smartagro/data/firebase/FirebaseDataSource.kt:136-145 | a failed read reports manual mode, relay off and moisture 0.0 |
| FirebaseData.SwitchReadsBack | app/src/main/java/com/example/smartagro/data/firebase/FirebaseDataSource.kt:161-166 | read after write: a switched node reads back with the new isOn and attribution, mode and threshold unchanged |
| RtdbRepositories.StatusSnapshotOf | app/src/main/java/com/example/smartagro/data/firebase/RtdbRepository.kt:100-101 | a stored text is a string shape, a stored record an object shape, nothing is absent |
| RtdbRepositories.SensorsLatestEmission | app/src/main/java/com/example/smartagro/data/firebase/RtdbRepository.kt:33-42 | the received record, or the all-null record on missing or unparseable data |
| RtdbRepositories.SensorsFallbackIsDefault | app/src/main/java/com/example/smartagro/data/firebase/RtdbRepository.kt:35-41 | the fallback record converts to the default snapshot, whose updatedAt is 0 |
| RtdbRepositories.LastSeenEmission | app/src/main/java/com/example/smartagro/data/firebase/RtdbRepository.kt:59-89 | the heartbeat value when one is stored as a number, otherwise null |
| RtdbRepositories.RelayStatusEmission | app/src/main/java/com/example/smartagro/data/firebase/RtdbRepository.kt:98-107 | the shown command is the parse of the stored value; no status gives the all-null record |
| RtdbRepositories.ControlValue | app/src/main/java/com/example/smartagro/data/firebase/RtdbRepository.kt:137-145 | null exactly when the relay record cannot be converted; otherwise the control built from the record (or the default one) and the parsed status |
| RtdbRepositories.LatestRelay | app/src/main/java/com/example/smartagro/data/firebase/RtdbRepository.kt:132-152 | there is a latest relay snapshot iff some relay delivery happened |
| RtdbRepositories.LatestStatus | app/src/main/java/com/example/smartagro/data/firebase/RtdbRepository.kt:133-164 | there is a latest status snapshot iff some status delivery happened |
| RtdbRepositories.TryEmit | app/src/main/java/com/example/smartagro/data/firebase/RtdbRepository.kt:135-147 | at most one value, and one exactly when both snapshots are known |
| RtdbRepositories.Replay | app/src/main/java/com/example/smartagro/data/firebase/RtdbRepository.kt:132-165 | definition: everything the observer emits for a delivery sequence; properties in ReplayWaitsForBoth, ReplayLatest, ReplayStep and ReplayBounded |
| RtdbRepositories.ReplayWaitsForBoth | app/src/main/java/com/example/smartagro/data/firebase/RtdbRepository.kt:135-164 | nothing is emitted until both paths have delivered |
| RtdbRepositories.ReplayLatest | app/src/main/java/com/example/smartagro/data/firebase/RtdbRepository.kt:132-147 | once both have delivered, the newest emission is built from the latest snapshot of each |
| RtdbRepositories.ReplayStep | app/src/main/java/com/example/smartagro/data/firebase/RtdbRepository.kt:149-165 | each delivery adds one emission once both paths are known, none before |
| RtdbRepositories.ReplayBounded | app/src/main/java/com/example/smartagro/data/firebase/RtdbRepository.kt:149-165 | there are never more emissions than deliveries |
| RtdbRepositories.RelayControlObserver.constructor | app/src/main/java/com/example/smartagro/data/firebase/RtdbRepository.kt:132-133 | both snapshot variables start null and nothing has been emitted |
| RtdbRepositories.RelayControlObserver.OnRelayChange | app/src/main/java/com/example/smartagro/data/firebase/RtdbRepository.kt:150-153 | the relay snapshot is replaced and the gate decides what is emitted |
| RtdbRepositories.RelayControlObserver.OnStatusChange | app/src/main/java/com/example/smartagro/data/firebase/RtdbRepository.kt:162-165 | the status snapshot is replaced and the gate decides what is emitted |
| RtdbRepositories.CommandRejectedChangesNothing | app/src/main/java/com/example/smartagro/data/firebase/RtdbRepository.kt:189-211 | a rejected command write leaves the store unchanged, rethrows, and no mirror is attempted |
| RtdbRepositories.CommandStaysWritten | app/src/main/java/com/example/smartagro/data/firebase/RtdbRepository.kt:190-210 | an accepted command stays written even when the mirror write fails |
| RtdbRepositories.OnlyTwoPathsChange | app/src/main/java/com/example/smartagro/data/firebase/RtdbRepository.kt:184-206 | apart from the command path, only the status path can change, and only through a successful mirror |
| RtdbRepositories.CommandFirst | app/src/main/java/com/example/smartagro/data/firebase/RtdbRepository.kt:184-206 | the command path is written first; the mirror follows only when asked for, a user is signed in and the command succeeded |
| RtdbRepositories.ObservedStatus | app/src/main/java/com/example/smartagro/data/firebase/RtdbRepository.kt:91-122 | an empty status path is observed as the all-null record |
| RtdbRepositories.MirrorReadBack | app/src/main/java/com/example/smartagro/data/firebase/RtdbRepository.kt:198-205 | after a mirrored write, the status observer shows the command, the uid, the email (or empty) and the time |
| RtdbRepositories.PayloadSnapshot | app/src/main/java/com/example/smartagro/data/firebase/RtdbRepository.kt:198-203 | the mirror payload is read back as an object with exactly those four fields |
| RtdbRepositories.MirrorReadBackCommand | app/src/main/java/com/example/smartagro/data/firebase/RtdbRepository.kt:198-205 | a mirrored `on` or `off` reads back as that command |
| RtdbRepositories.RtdbRepository.constructor | app/src/main/java/com/example/smartagro/data/firebase/RtdbRepository.kt:20-24 | the repository starts on the given store with an empty write log |
| RtdbRepositories.MirrorPayload | app/src/main/java/com/example/smartagro/data/firebase/RtdbRepository.kt:198-203 | definition: the object with value, requestedBy, requestedByEmail (or empty) and timestamp; properties in PayloadSnapshot and MirrorReadBack |
| RtdbRepositories.MirrorAttempted | app/src/main/java/com/example/smartagro/data/firebase/RtdbRepository.kt:190-194 | definition: the command write succeeded, mirroring was asked for and a user is signed in; properties in CommandFirst |
| RtdbRepositories.AfterWrite | app/src/main/java/com/example/smartagro/data/firebase/RtdbRepository.kt:183-212 | definition: the store after a command write and its optional mirror; properties in CommandRejectedChangesNothing, CommandStaysWritten, OnlyTwoPathsChange and MirrorReadBack |
| RtdbRepositories.WritesAttempted | app/src/main/java/com/example/smartagro/data/firebase/RtdbRepository.kt:184-205 | definition: the paths written, command first; properties in CommandFirst |
| RtdbRepositories.WriteOutcome | app/src/main/java/com/example/smartagro/data/firebase/RtdbRepository.kt:189-211 | definition: the rethrown failure of the command write or of the mirror; properties in CommandRejectedChangesNothing and CommandStaysWritten |
| RtdbRepositories.RtdbRepository.WriteRelayCommand | app/src/main/java/com/example/smartagro/data/firebase/RtdbRepository.kt:183-212 | the new store, the ordered paths written and the rethrown failure are exactly those of the write specification |
| IrrigationRtdb.IsOnOf | app/src/main/java/com/example/smartagro/viewmodel/IrrigationRtdbViewModel.kt:94-98 | running iff ON, stopped iff OFF, unknown iff no command |
| IrrigationRtdb.Merge | app/src/main/java/com/example/smartagro/viewmodel/IrrigationRtdbViewModel.kt:82-101 | the embedded status decides when it parses, otherwise the status path; the source names the winner; unknown exactly when neither parses; id, status and control passed through |
| IrrigationRtdb.SensorStatusWins | app/src/main/java/com/example/smartagro/viewmodel/IrrigationRtdbViewModel.kt:82-88 | when the embedded status parses, the status path cannot change the outcome |
| IrrigationRtdb.CommandFor | app/src/main/java/com/example/smartagro/viewmodel/IrrigationRtdbViewModel.kt:110 | the text sent is the wire text of the wished command |
| IrrigationRtdb.CommandForParses | app/src/main/java/com/example/smartagro/viewmodel/IrrigationRtdbViewModel.kt:110 | the text sent parses back to the intended command, and is `on` iff turning on |
| IrrigationRtdb.WriteThenMerge | app/src/main/java/com/example/smartagro/viewmodel/IrrigationRtdbViewModel.kt:82-116 | without an embedded status, a successful mirrored write shows up as the wished state, attributed to the status path |
| IrrigationRtdb.DistinctIds | app/src/main/java/com/example/smartagro/viewmodel/IrrigationRtdbViewModel.kt:55-56 | definition: null ids and repeats of the previous id dropped; properties in DistinctIdsSound and DistinctIdsKeepsChanges |
| IrrigationRtdb.DistinctIdsSound | app/src/main/java/com/example/smartagro/viewmodel/IrrigationRtdbViewModel.kt:55-56 | every id passed on came from the input and differs from the one passed before it |
| IrrigationRtdb.DistinctIdsKeepsChanges | app/src/main/java/com/example/smartagro/viewmodel/IrrigationRtdbViewModel.kt:55-56 | only nulls and repeats are dropped: distinct non-null ids are all passed on, in order |
| IrrigationRtdb.IrrigationRtdbViewModel.constructor | app/src/main/java/com/example/smartagro/viewmodel/IrrigationRtdbViewModel.kt:23-49 | the default state: no device, unknown status, not loading, not writing, no error |
| IrrigationRtdb.IrrigationRtdbViewModel.Subscribe | app/src/main/java/com/example/smartagro/viewmodel/IrrigationRtdbViewModel.kt:63-67 | loading starts, the error is cleared and the device id is recorded; earlier subscriptions stay |
| IrrigationRtdb.IrrigationRtdbViewModel.Observe | app/src/main/java/com/example/smartagro/viewmodel/IrrigationRtdbViewModel.kt:51-61 | subscribes exactly to the ids the null and repeat filter passes on, the last one ending in the state |
| IrrigationRtdb.IrrigationRtdbViewModel.OnStreamsCombined | app/src/main/java/com/example/smartagro/viewmodel/IrrigationRtdbViewModel.kt:81-104 | the state becomes the merge and loading ends |
| IrrigationRtdb.IrrigationRtdbViewModel.OnStreamsError | app/src/main/java/com/example/smartagro/viewmodel/IrrigationRtdbViewModel.kt:76-80 | the exception's message, or the fixed text, is shown and loading ends |
| IrrigationRtdb.IrrigationRtdbViewModel.WriteRelay | app/src/main/java/com/example/smartagro/viewmodel/IrrigationRtdbViewModel.kt:108-125 | nothing without a known device; otherwise the repository write happens and its failure message (or the fixed text) is shown |
| AutoIrrigation.Evaluate | app/src/main/java/com/example/smartagro/data/irrigation/AutoIrrigationManager.kt:37-104 | outside AUTO everything is cleared; a repeated pair changes nothing; a new pair is recorded and a timer is pending iff the wish differs from the relay |
| AutoIrrigation.ShouldBeOn | app/src/main/java/com/example/smartagro/data/irrigation/AutoIrrigationManager.kt:53 | definition: moisture strictly below the threshold; properties in ThresholdIsNotDry |
| AutoIrrigation.SameAsLastChecked | app/src/main/java/com/example/smartagro/data/irrigation/AutoIrrigationManager.kt:55 | definition: the moisture and relay state equal the pair checked last; properties in EvaluateIdempotent and ThresholdChangeAloneIgnored |
| AutoIrrigation.StartsTimer | app/src/main/java/com/example/smartagro/data/irrigation/AutoIrrigationManager.kt:55-64 | definition: a new pair in AUTO whose wish differs from the relay; properties in StartsTimerPending |
| AutoIrrigation.EvaluateReadings | app/src/main/java/com/example/smartagro/data/irrigation/AutoIrrigationManager.kt:28-34 | definition: successive collected readings against one irrigation state; properties in EvaluateReadingsSnoc and LastReadingDecides |
| AutoIrrigation.StartsTimerPending | app/src/main/java/com/example/smartagro/data/irrigation/AutoIrrigationManager.kt:59-64 | a new divergent pair launches a timer, and a pending timer is either new or kept from before |
| AutoIrrigation.EvaluateIdempotent | app/src/main/java/com/example/smartagro/data/irrigation/AutoIrrigationManager.kt:55-57 | evaluating the same inputs twice is the same as once |
| AutoIrrigation.ThresholdChangeAloneIgnored | app/src/main/java/com/example/smartagro/data/irrigation/AutoIrrigationManager.kt:55-57 | once a pair is checked, a threshold change alone does nothing |
| AutoIrrigation.ConsistentCancels | app/src/main/java/com/example/smartagro/data/irrigation/AutoIrrigationManager.kt:100-103 | a new pair already consistent with the wish cancels any pending timer |
| AutoIrrigation.ThresholdIsNotDry | app/src/main/java/com/example/smartagro/data/irrigation/AutoIrrigationManager.kt:53 | moisture equal to the threshold does not ask for water |
| AutoIrrigation.ThresholdCrossingScenario | app/src/main/java/com/example/smartagro/data/irrigation/AutoIrrigationManager.kt:41-104 | with threshold 30: readings 35 and 32 start nothing, 28 starts the timer which then switches on, and 31 cancels it |
| AutoIrrigation.EvaluateReadingsSnoc | app/src/main/java/com/example/smartagro/data/irrigation/AutoIrrigationManager.kt:28-34 | one more collected reading is evaluated from the state the earlier readings left |
| AutoIrrigation.LastReadingDecides | app/src/main/java/com/example/smartagro/data/irrigation/AutoIrrigationManager.kt:49-103 | in AUTO, a new reading leaves a timer pending iff the relay disagrees with it, whatever came before; the same reading twice in a row is evaluated once |
| AutoIrrigation.FireDecision | app/src/main/java/com/example/smartagro/data/irrigation/AutoIrrigationManager.kt:64-99 | a failed read aborts; a switch happens only in AUTO, towards the fresh wish, and only when it differs from the fresh state |
| AutoIrrigation.FireWritesIffInconsistent | app/src/main/java/com/example/smartagro/data/irrigation/AutoIrrigationManager.kt:81-95 | the timer writes iff the fresh mode is AUTO and the fresh wish differs from the fresh state; manual mode aborts |
| AutoIrrigation.FailedIrrigationReadAborts | app/src/main/java/com/example/smartagro/data/irrigation/AutoIrrigationManager.kt:81-84 | the default state of a failed read is manual, so the timer aborts |
| AutoIrrigation.FireSettles | app/src/main/java/com/example/smartagro/data/irrigation/AutoIrrigationManager.kt:86-94 | after the timer's own switch, a fresh read finds nothing left to do |
| AutoIrrigation.AutoIrrigationManager.constructor | app/src/main/java/com/example/smartagro/data/irrigation/AutoIrrigationManager.kt:13-21 | no timer and no checked pair |
| AutoIrrigation.AutoIrrigationManager.ProcessAutoLogic | app/src/main/java/com/example/smartagro/data/irrigation/AutoIrrigationManager.kt:37-104 | the fields become the evaluation of the old fields, and one timer is launched exactly when a new divergent pair is seen |
| AutoIrrigation.AutoIrrigationManager.Fire | app/src/main/java/com/example/smartagro/data/irrigation/AutoIrrigationManager.kt:64-99 | fresh reads decide; at most one switch attributed to AUTO; a rejected write changes nothing and is swallowed |
| AutoIrrigation.AutoIrrigationManager.Stop | app/src/main/java/com/example/smartagro/data/irrigation/AutoIrrigationManager.kt:106-109 | the timer is cancelled and the last checked pair is kept |
| IrrigationVm.ToggledOn | app/src/main/java/com/example/smartagro/viewmodel/IrrigationViewModel.kt:100-101 | the opposite of the held state, and on when the state is unknown |
| IrrigationVm.IrrigationViewModel.constructor | app/src/main/java/com/example/smartagro/viewmodel/IrrigationViewModel.kt:25-42 | no state, no manager, not automatic, nothing dropped; the observation started by `init` shows loading with no error (lines 78-80) |
| IrrigationVm.IrrigationViewModel.SetupAutoIrrigation | app/src/main/java/com/example/smartagro/viewmodel/IrrigationViewModel.kt:44-69 | an AUTO state keeps an existing manager untouched (its pair, pending timer and count) or creates a fresh one in the initial state; any other state stops the manager, which keeps its pair, records it as dropped and clears the flag |
| IrrigationVm.IrrigationViewModel.ReceiveIrrigationState | app/src/main/java/com/example/smartagro/viewmodel/IrrigationViewModel.kt:88-93 | the state is replaced, loading ends, the error is cleared, a manager exists iff the state is AUTO, and the manager follows the setup rule: kept untouched, fresh, or stopped and dropped |
| IrrigationVm.IrrigationViewModel.ObserveFailed | app/src/main/java/com/example/smartagro/viewmodel/IrrigationViewModel.kt:83-87 | the message, or the fixed text, is shown and loading ends |
| IrrigationVm.IrrigationViewModel.OnCleared | app/src/main/java/com/example/smartagro/viewmodel/IrrigationViewModel.kt:71-75 | the manager is stopped, keeping its pair, and let go; loading and the automatic flag are left as they were, so the flag can stay set with no manager |
| IrrigationVm.IrrigationViewModel.ToggleIrrigation | app/src/main/java/com/example/smartagro/viewmodel/IrrigationViewModel.kt:97-115 | nothing unless confirmed; otherwise the toggled state is written as a MANUAL change, and a failure is shown |
| IrrigationVm.IrrigationViewModel.SetMode | app/src/main/java/com/example/smartagro/viewmodel/IrrigationViewModel.kt:117-130 | the mode is written through the data source and a failure is shown |
| IrrigationVm.IrrigationViewModel.SetThreshold | app/src/main/java/com/example/smartagro/viewmodel/IrrigationViewModel.kt:132-142 | the threshold is written and a failure is shown; loading is left alone |
| IrrigationVm.IrrigationViewModel.RefreshStatus | app/src/main/java/com/example/smartagro/viewmodel/IrrigationViewModel.kt:144-159 | the one-shot read replaces the state and clears the error; the manager follows the setup rule for the new state: kept untouched, fresh, or stopped and dropped |
| IrrigationVm.IrrigationViewModel.ClearError | app/src/main/java/com/example/smartagro/viewmodel/IrrigationViewModel.kt:161-163 | only the error is cleared |
| IrrigationVm.FailedRefreshIsManual | app/src/main/java/com/example/smartagro/viewmodel/IrrigationViewModel.kt:148 | a refresh whose read fails gives a manual state, so the manager is dropped |
| Monitoring.HeartbeatWindow | app/src/main/java/com/example/smartagro/viewmodel/MonitoringViewModel.kt:110-117 | offline before the first heartbeat; afterwards online iff at most 30 seconds have passed |
| Monitoring.IsOnline | app/src/main/java/com/example/smartagro/viewmodel/MonitoringViewModel.kt:112-114 | definition: a heartbeat was received and at most 30 000 ms have passed; properties in HeartbeatWindow |
| Monitoring.IsFresh | app/src/main/java/com/example/smartagro/viewmodel/MonitoringViewModel.kt:96-104 | definition: the snapshot timestamp is present and positive; properties in ChartsOnlyFromFresh and CollectShowsCards |
| Monitoring.OfflineCards | app/src/main/java/com/example/smartagro/viewmodel/MonitoringViewModel.kt:120-134 | eleven cards, one per card name |
| Monitoring.OfflineCardsBlank | app/src/main/java/com/example/smartagro/viewmodel/MonitoringViewModel.kt:120-134 | every offline card reads 0, is NORMAL and is captioned Offline |
| Monitoring.BelowLimit | app/src/main/java/com/example/smartagro/viewmodel/MonitoringViewModel.kt:161-168 | never LOW; NORMAL iff strictly below the limit |
| Monitoring.CardsFor | app/src/main/java/com/example/smartagro/viewmodel/MonitoringViewModel.kt:136-266 | eleven cards, and the offline cards when the snapshot is not live |
| Monitoring.RelayCard | app/src/main/java/com/example/smartagro/viewmodel/MonitoringViewModel.kt:257-264 | the relay card reads 1 iff the status is exactly `on` (missing counts as `off`), captioned with the upper-cased status |
| Monitoring.RainAndLightCards | app/src/main/java/com/example/smartagro/viewmodel/MonitoringViewModel.kt:241-256 | rain is HIGH iff its text contains "Rain" in any case; light reads 1 iff detected is exactly 1 |
| Text.ContainsIgnoreCase | app/src/main/java/com/example/smartagro/viewmodel/MonitoringViewModel.kt:171 | `contains(ignoreCase = true)`: some window of the text equals the needle up to ASCII case; used in RainAndLightCards |
| Text.Upper | app/src/main/java/com/example/smartagro/viewmodel/MonitoringViewModel.kt:263 | `uppercase()`: same length, each character raised |
| Monitoring.AqiCard | app/src/main/java/com/example/smartagro/viewmodel/MonitoringViewModel.kt:217-224 | the air-quality card says Poor iff the index is at least 300 |
| Monitoring.Window | app/src/main/java/com/example/smartagro/viewmodel/MonitoringViewModel.kt:280-285 | the window holds the smaller of the history length and 60 |
| Monitoring.PushSample | app/src/main/java/com/example/smartagro/viewmodel/MonitoringViewModel.kt:280-285 | a pushed buffer stays within 60 and ends with the new sample |
| Monitoring.TempHumiditySample | app/src/main/java/com/example/smartagro/viewmodel/MonitoringViewModel.kt:278-280 | definition: receipt time with air temperature and humidity, missing values as 0; properties in ChartsOnlyFromFresh |
| Monitoring.SoilAqiSample | app/src/main/java/com/example/smartagro/viewmodel/MonitoringViewModel.kt:288-290 | definition: receipt time with soil moisture and air-quality index, missing values as 0; properties in ChartsOnlyFromFresh |
| Monitoring.WindowOfPush | app/src/main/java/com/example/smartagro/viewmodel/MonitoringViewModel.kt:280-295 | pushing onto the window of a history is the window of the longer history: newest kept, oldest dropped first |
| Monitoring.ChartPoints | app/src/main/java/com/example/smartagro/viewmodel/MonitoringViewModel.kt:298-304 | the chart re-indexes the buffer 0..n-1 in buffer order, keeping the values |
| Monitoring.Buffered | app/src/main/java/com/example/smartagro/viewmodel/MonitoringViewModel.kt:276-295 | the buffer built by successive pushes never exceeds 60 |
| Monitoring.BufferedIsWindow | app/src/main/java/com/example/smartagro/viewmodel/MonitoringViewModel.kt:276-295 | the buffer built by successive pushes is exactly the last 60 samples |
| Monitoring.WithSamples | app/src/main/java/com/example/smartagro/viewmodel/MonitoringViewModel.kt:276-307 | appending to both buffers keeps them of equal length and consistent with the chart |
| Monitoring.AfterCollect | app/src/main/java/com/example/smartagro/viewmodel/MonitoringViewModel.kt:85-107 | one collected pair keeps the buffers and chart consistent |
| Monitoring.HeartbeatValueIgnored | app/src/main/java/com/example/smartagro/viewmodel/MonitoringViewModel.kt:88-93 | a heartbeat records the local receipt time whatever its value; no heartbeat keeps the old time |
| Monitoring.ChartsOnlyFromFresh | app/src/main/java/com/example/smartagro/viewmodel/MonitoringViewModel.kt:96-101 | samples are appended to both buffers iff the snapshot timestamp is positive |
| Monitoring.CollectShowsCards | app/src/main/java/com/example/smartagro/viewmodel/MonitoringViewModel.kt:103-106 | the cards are always rebuilt, offline for a stale snapshot, and loading ends |
| Monitoring.MonitoringViewModel.constructor | app/src/main/java/com/example/smartagro/viewmodel/MonitoringViewModel.kt:30-64 | loading, offline cards, empty buffers and chart, no heartbeat |
| Monitoring.MonitoringViewModel.UpdateChartBuffers | app/src/main/java/com/example/smartagro/viewmodel/MonitoringViewModel.kt:276-307 | both buffers are updated in place by the push specification and the chart rebuilt |
| Monitoring.MonitoringViewModel.OnCollect | app/src/main/java/com/example/smartagro/viewmodel/MonitoringViewModel.kt:85-107 | the screen state becomes the collect specification of the old state |
| Monitoring.MonitoringViewModel.OnStreamError | app/src/main/java/com/example/smartagro/viewmodel/MonitoringViewModel.kt:80-84 | the message, or the fixed text, is shown and loading ends; nothing else changes |
| Monitoring.MonitoringViewModel.PollOnline | app/src/main/java/com/example/smartagro/viewmodel/MonitoringViewModel.kt:110-117 | the online flag becomes the liveness of the last heartbeat at `now` |
| Monitoring.ChartIndexed | app/src/main/java/com/example/smartagro/viewmodel/MonitoringViewModel.kt:298-306 | the two buffers and their charts have equal lengths, and chart point i is buffer entry i |
| Dashboard.MissingUpdatedAtInvalid | app/src/main/java/com/example/smartagro/domain/model/rtdb/RtdbSensorLatest.kt:26 | a record without updatedAt, and the default snapshot, are not shown by the dashboard |
| Dashboard.HasValidData | app/src/main/java/com/example/smartagro/viewmodel/DashboardViewModel.kt:77-79 | definition: a positive updatedAt; properties in MissingUpdatedAtInvalid and FailedRefreshKeepsCards |
| Dashboard.DashboardCards | app/src/main/java/com/example/smartagro/viewmodel/DashboardViewModel.kt:81-133 | a valid snapshot gives seven cards |
| Dashboard.DashboardCardOrder | app/src/main/java/com/example/smartagro/viewmodel/DashboardViewModel.kt:81-133 | the cards come in the fixed order Soil Moisture, Soil Temperature, Air Temperature, Humidity, Rain Level, CO2 Level, Light |
| Dashboard.SoilTempUsesAirBand | app/src/main/java/com/example/smartagro/viewmodel/DashboardViewModel.kt:94-149 | soil temperature is classified with the air-temperature bounds 20 and 32 |
| Dashboard.DashboardBands | app/src/main/java/com/example/smartagro/viewmodel/DashboardViewModel.kt:135-181 | each card is LOW below, HIGH above, NORMAL on the closed range of its bounds (30/70, 20/32, 40/75, 10/50, 350/1000, 30/80) |
| Dashboard.DashboardViewModel.constructor | app/src/main/java/com/example/smartagro/viewmodel/DashboardViewModel.kt:21-46 | the farm name is the farm id, no cards, and observation starts at once |
| Dashboard.DashboardViewModel.ObserveSensors | app/src/main/java/com/example/smartagro/viewmodel/DashboardViewModel.kt:48-53 | loading starts, the error is cleared and a new observation begins |
| Dashboard.DashboardViewModel.OnSnapshot | app/src/main/java/com/example/smartagro/viewmodel/DashboardViewModel.kt:60-73 | a valid snapshot replaces the cards and clears the error; an invalid one empties the cards |
| Dashboard.DashboardViewModel.OnObserveError | app/src/main/java/com/example/smartagro/viewmodel/DashboardViewModel.kt:55-59 | the message, or the fixed text, is shown and loading ends |
| Dashboard.DashboardViewModel.RefreshData | app/src/main/java/com/example/smartagro/viewmodel/DashboardViewModel.kt:183-204 | a valid read replaces the cards, an invalid one keeps them; the error is cleared |
| Dashboard.DashboardViewModel.UpdateFarmId | app/src/main/java/com/example/smartagro/viewmodel/DashboardViewModel.kt:206-212 | the current id changes nothing; another id replaces farm and name and restarts observation |
| Dashboard.DashboardViewModel.ClearError | app/src/main/java/com/example/smartagro/viewmodel/DashboardViewModel.kt:214-216 | the error is cleared |
| Dashboard.FailedRefreshKeepsCards | app/src/main/java/com/example/smartagro/viewmodel/DashboardViewModel.kt:187-193 | a failed refresh read is never valid, so the old cards stay |
| DeviceSelection.PickFallbackDeviceId | app/src/main/java/com/example/smartagro/viewmodel/DeviceSelectionViewModel.kt:86-88 | the first device's id, null iff the list is empty |
| DeviceSelection.SelectionForActive | app/src/main/java/com/example/smartagro/viewmodel/DeviceSelectionViewModel.kt:53-58 | a usable active id verbatim, otherwise the fallback |
| DeviceSelection.SelectionMadeWhenDevicesExist | app/src/main/java/com/example/smartagro/viewmodel/DeviceSelectionViewModel.kt:53-88 | with a device some id is selected, and it is a usable active id or the first device's id |
| DeviceSelection.DeviceSelectionViewModel.constructor | app/src/main/java/com/example/smartagro/viewmodel/DeviceSelectionViewModel.kt:22-26 | no devices, no selection, no remote writes |
| DeviceSelection.DeviceSelectionViewModel.Start | app/src/main/java/com/example/smartagro/viewmodel/DeviceSelectionViewModel.kt:28-70 | without a user the list and selection are cleared; with one the collectors start |
| DeviceSelection.DeviceSelectionViewModel.OnDevices | app/src/main/java/com/example/smartagro/viewmodel/DeviceSelectionViewModel.kt:42-44 | the list becomes the delivered list |
| DeviceSelection.DeviceSelectionViewModel.OnDevicesError | app/src/main/java/com/example/smartagro/viewmodel/DeviceSelectionViewModel.kt:38-41 | the list becomes empty |
| DeviceSelection.DeviceSelectionViewModel.OnActiveDeviceId | app/src/main/java/com/example/smartagro/viewmodel/DeviceSelectionViewModel.kt:53-58 | the selection becomes the active-id rule's choice |
| DeviceSelection.DeviceSelectionViewModel.OnActiveDeviceError | app/src/main/java/com/example/smartagro/viewmodel/DeviceSelectionViewModel.kt:49-52 | the fallback is selected |
| DeviceSelection.DeviceSelectionViewModel.OnDevicesObserved | app/src/main/java/com/example/smartagro/viewmodel/DeviceSelectionViewModel.kt:62-68 | a missing or blank selection gets the fallback; a real one is kept |
| DeviceSelection.DeviceSelectionViewModel.SelectDevice | app/src/main/java/com/example/smartagro/viewmodel/DeviceSelectionViewModel.kt:72-84 | the choice is taken as is; a remote write is issued only when the switch is on and a user is signed in |
| DeviceConfigs.CleanId | app/src/main/java/com/example/smartagro/utils/DeviceConfig.kt:26 | never blank: a blank id becomes ESP32_001, any other is kept |
| DeviceConfigs.CleanIdIdempotent | app/src/main/java/com/example/smartagro/utils/DeviceConfig.kt:26 | cleaning twice is cleaning once |
| DeviceConfigs.StoredId | app/src/main/java/com/example/smartagro/utils/DeviceConfig.kt:21 | the stored id, or ESP32_001 when none is stored |
| DeviceConfigs.StoredAfterUpdate | app/src/main/java/com/example/smartagro/utils/DeviceConfig.kt:21-29 | what an update persists is what the next start reads back |
| DeviceConfigs.DeviceConfig.constructor | app/src/main/java/com/example/smartagro/utils/DeviceConfig.kt:11-13 | before initialisation the id is ESP32_001 |
| DeviceConfigs.DeviceConfig.Init | app/src/main/java/com/example/smartagro/utils/DeviceConfig.kt:19-23 | the id becomes the stored one, or the default |
| DeviceConfigs.DeviceConfig.UpdateDeviceId | app/src/main/java/com/example/smartagro/utils/DeviceConfig.kt:16-30 | the cleaned id is held, returned by the current-id getter, and persisted |
| DeviceConfigs.DeviceConfig.CurrentDeviceId | app/src/main/java/com/example/smartagro/utils/DeviceConfig.kt:16-17 | definition: the id held; UpdateDeviceId ensures it is the cleaned id just set |
| Timestamps.EpochMillis | app/src/main/java/com/example/smartagro/utils/TimestampUtils.kt:22 | values below 1e12 are seconds, larger ones milliseconds, and the result is never before 2000 |
| Timestamps.FormatTimestamp | app/src/main/java/com/example/smartagro/utils/TimestampUtils.kt:10-36 | Unknown iff null or not positive; a formatted instant is within 2000..2100 |
| Timestamps.UptimeIsJustNow | app/src/main/java/com/example/smartagro/utils/TimestampUtils.kt:18-20 | a value below one billion is device uptime and shown as Just now |
| Timestamps.FormattedExactly | app/src/main/java/com/example/smartagro/utils/TimestampUtils.kt:18-30 | a value is formatted iff it is at least one billion and its instant is within range, and then that instant is formatted |
| Timestamps.SecondsAndMillisAgree | app/src/main/java/com/example/smartagro/utils/TimestampUtils.kt:22 | a seconds value and the same instant in milliseconds are shown alike |
| Timestamps.NothingBeforeOneTrillion | app/src/main/java/com/example/smartagro/utils/TimestampUtils.kt:18-27 | every formatted instant is at least 1e12 ms, so instants from 2000 to September 2001 are shown as Just now |
| TimeAgoText.UnitsFloored | app/src/main/java/com/example/smartagro/utils/Extensions.kt:19-23 | for a past time the minutes, hours and days are the floored quotients of the difference |
| TimeAgoText.FutureCountsNonPositive | app/src/main/java/com/example/smartagro/utils/Extensions.kt:19-23 | for a future time no unit count is positive |
| TimeAgoText.ToTimeAgo | app/src/main/java/com/example/smartagro/utils/Extensions.kt:17-31 | every unit shown has a positive count |
| TimeAgoText.ToTimeAgoIsReference | app/src/main/java/com/example/smartagro/utils/Extensions.kt:25-29 | the result is the largest non-zero unit of the difference, checked days, hours, minutes |
| TimeAgoText.JustNowExactly | app/src/main/java/com/example/smartagro/utils/Extensions.kt:18-29 | Just now iff the time is in the future or less than a minute ago |
| TimeAgoText.Decimal | app/src/main/java/com/example/smartagro/utils/Extensions.kt:26-28 | a count is written as at least one decimal digit |
| TimeAgoText.PluralExactly | app/src/main/java/com/example/smartagro/utils/Extensions.kt:26-28 | the unit takes an `s` iff its count is greater than 1 |
| KotlinInt.TDiv | app/src/main/java/com/example/smartagro/utils/Extensions.kt:20-23 | Kotlin's `/`: equal to Euclidean division for a non-negative dividend and a positive divisor; the quotient is non-negative when the dividend is non-negative exactly when the divisor is positive, and non-positive otherwise |
| TimeAgoText.Phrase | app/src/main/java/com/example/smartagro/utils/Extensions.kt:26-28 | definition: the count, the unit, `s` when the count exceeds 1, and " ago"; properties in PluralExactly |
| TimeAgoText.Render | app/src/main/java/com/example/smartagro/utils/Extensions.kt:25-30 | definition: the text of each case, "Just now" for the last; properties in JustNowExactly |
| GridSpacing.OuterEdgesFull | app/src/main/java/com/example/smartagro/utils/GridSpacingItemDecoration.kt:21-24 | the first column's left and the last column's right are a full spacing |
| GridSpacing.AdjacentColumnsShareSpacing | app/src/main/java/com/example/smartagro/utils/GridSpacingItemDecoration.kt:23-24 | one column's right plus the next column's left is exactly one spacing |
| GridSpacing.OffsetsBounded | app/src/main/java/com/example/smartagro/utils/GridSpacingItemDecoration.kt:23-24 | for a non-negative spacing both offsets are between 0 and the spacing |
| KotlinInt.TRem | app/src/main/java/com/example/smartagro/utils/GridSpacingItemDecoration.kt:21 | Kotlin's `%`: the remainder takes the dividend's sign, is below the divisor in size, and completes the truncating quotient |
| GridSpacing.LeftOffset | app/src/main/java/com/example/smartagro/utils/GridSpacingItemDecoration.kt:23 | definition: spacing minus column times spacing over span count, truncated; properties in OuterEdgesFull, AdjacentColumnsShareSpacing and OffsetsBounded |
| GridSpacing.RightOffset | app/src/main/java/com/example/smartagro/utils/GridSpacingItemDecoration.kt:24 | definition: the next column times spacing over span count, truncated; properties in OuterEdgesFull, AdjacentColumnsShareSpacing and OffsetsBounded |
| GridSpacing.GridSpacingItemDecoration.constructor | app/src/main/java/com/example/smartagro/utils/GridSpacingItemDecoration.kt:7-10 | the span count and spacing are kept |
| GridSpacing.GridSpacingItemDecoration.GetItemOffsets | app/src/main/java/com/example/smartagro/utils/GridSpacingItemDecoration.kt:12-29 | NO_POSITION leaves the rectangle alone; otherwise left and right follow the column, top is set only in the first row, bottom is the spacing |
| GridSpacing.ColumnInRange | app/src/main/java/com/example/smartagro/utils/GridSpacingItemDecoration.kt:21 | the column of a position is within the span, and the first row's positions are their own columns |
| Otp.ValidateOtp | app/src/main/java/com/example/smartagro/ForgotPW2Activity.kt:105-131 | a missing view gives the setup message; every rejection is one of the three messages |
| Otp.OtpCode | app/src/main/java/com/example/smartagro/ForgotPW2Activity.kt:107-120 | definition: the five trimmed texts joined; properties in AllDigitsJoined and OtpAcceptedExactly |
| Otp.AllDigitsJoined | app/src/main/java/com/example/smartagro/ForgotPW2Activity.kt:120-121 | the joined code is all digits iff each field is |
| Otp.OtpAcceptedExactly | app/src/main/java/com/example/smartagro/ForgotPW2Activity.kt:107-126 | accepted iff all five trimmed fields are non-empty and all digits; field length is not limited |
| Otp.EmptyReportedFirst | app/src/main/java/com/example/smartagro/ForgotPW2Activity.kt:114-124 | an empty field is reported as incomplete before any digit check; the digits message comes iff all are filled and one is not a digit |
| PasswordReset.NewPasswordError | app/src/main/java/com/example/smartagro/ForgotPW3Activity.kt:71-77 | no error iff at least 6 characters; the required error iff empty |
| PasswordReset.ConfirmPasswordError | app/src/main/java/com/example/smartagro/ForgotPW3Activity.kt:80-86 | no error iff non-empty and equal to the new password; the confirm error iff empty |
| PasswordReset.PasswordsValidExactly | app/src/main/java/com/example/smartagro/ForgotPW3Activity.kt:67-88 | valid iff the trimmed new password has at least 6 characters and the trimmed confirmation equals it |
| PasswordReset.ShortPasswordTypedTwice | app/src/main/java/com/example/smartagro/ForgotPW3Activity.kt:74-86 | a short password typed twice gets the length error only, because both fields are checked independently |
| PasswordReset.PasswordResetForm.constructor | app/src/main/java/com/example/smartagro/ForgotPW3Activity.kt:63-64 | both fields start without an error |
| PasswordReset.PasswordResetForm.ValidatePasswords | app/src/main/java/com/example/smartagro/ForgotPW3Activity.kt:59-89 | each field's error is the rule of its trimmed text, and the result is valid iff neither has an error |
| SignUp.UsernameError | app/src/main/java/com/example/smartagro/SignUpActivity.kt:80-86 | no error iff at least 3 characters; the required error iff empty |
| SignUp.EmailError | app/src/main/java/com/example/smartagro/SignUpActivity.kt:89-95 | no error iff non-empty and matching the email pattern; the required error iff empty |
| SignUp.PasswordError | app/src/main/java/com/example/smartagro/SignUpActivity.kt:98-104 | no error iff at least 6 characters; the required error iff empty |
| SignUp.EmptyIsRequired | app/src/main/java/com/example/smartagro/SignUpActivity.kt:80-104 | an empty field reports the required error, not the length or format error |
| SignUp.SignUpForm.constructor | app/src/main/java/com/example/smartagro/SignUpActivity.kt:70-72 | the three fields start without an error |
| SignUp.SignUpForm.ValidateInputs | app/src/main/java/com/example/smartagro/SignUpActivity.kt:66-107 | each field's error is the rule of its trimmed text, all three are checked, and the result is valid iff none has an error |
| SignUp.SignUpValidExactly | app/src/main/java/com/example/smartagro/SignUpActivity.kt:75-106 | valid iff the trimmed username has at least 3 characters, the trimmed email is non-empty and matches, and the trimmed password has at least 6 |

## Left out

- RelayCommands.FromRaw: its own contract states only that a missing text gives no command. The full characterisation (trim, case folding, rejection of every other text) is in the lemmas FromRawExactly, FromRawRejects and FromRawPaddedAnyCase. Stating it on the function itself makes the solver loop on every member that uses it.
- Text handling is ASCII only. Kotlin's `trim`, `lowercase`, `uppercase`, `isBlank` and `isDigit` are Unicode aware; the model uses ASCII whitespace, ASCII case and ASCII digits.
- Firebase snapshot conversion (`getValue`) is not visible, so it is modelled leniently. A snapshot is missing, holds a value, or cannot be converted. Asking a non-text value for a string gives null, and asking a non-object for an object gives null. The real library may throw in some of these cases.
- The listeners, `callbackFlow`, `combine`, `flatMapLatest`, coroutine scheduling and `StateFlow`'s suppression of equal values are not modelled. Each callback is a method called once per delivery.
- IrrigationRtdb.IrrigationRtdbViewModel.Subscribe: old subscriptions are never cancelled (IrrigationRtdbViewModel.kt:57-58, 63-64). The model records every subscription, but it does not model deliveries from old subscriptions that interleave with new ones.
- AutoIrrigation.AutoIrrigationManager.Stop: it cancels only the pending timer, as the source does. The collector that the manager's `start` launched (AutoIrrigationManager.kt:28-34) runs in the screen's scope and is never cancelled. So a dropped manager, kept in `droppedManagers`, may still evaluate readings and fire. The model records these managers but does not interleave their steps with the screen's.
- IrrigationVm.IrrigationViewModel.OnCleared: the framework also cancels the screen's scope at this point, which would end every collector. That cancellation is not modelled, so `droppedManagers` is left as it was.
- The 5 second polling loop and the 5 second debounce delay are not modelled as time. Liveness is a function of `now`, and the debounce timer is a pending flag with an explicit `Fire` step.
- `System.currentTimeMillis()`, the signed-in user, and each read or write failure are parameters.
- Kotlin `Long` and `Int` overflow is not modelled. Integers are unbounded, and the timestamp, time-ago and grid products never wrap here.
- GridSpacing.GridSpacingItemDecoration.GetItemOffsets requires a positive span count. The source would throw `ArithmeticException` for a zero span. Kotlin's truncating `%` and `/` would compute results for a negative span, which the grid layout refuses. Neither case is modelled.
- The date formatter output and its exception path (TimestampUtils.kt:31-35), `toFormattedTime`, and `setTextOrHide` are left out, because their output comes from the platform. A formatted timestamp is represented by the instant it would format.
- `"Just now"` and the `"N unit(s) ago"` texts of `toTimeAgo` are modelled as the TimeAgo datatype, plus a rendering of the phrase.
- The Float conversion of chart values, the icons, colours and all UI are left out. Chart values are kept as `real`.
- The monitoring screen's degree unit is kept as the mis-encoded literal the source has.
- Otp.ValidateOtp: the exception caught when the view binding fails is modelled as a missing set of fields. The toasts are represented by their messages.
- The form validators receive the texts of their fields as parameters instead of reading the edit texts.
- The sign-up email pattern is an uninterpreted predicate parameter.
- `ForgotPW1Activity.kt` is not part of this model. It only checks for an empty field and applies the platform email pattern.
- `AgroRepository.kt` is one-line delegation to the farm data source, which the model calls directly.
- `FirestoreRepository.kt` and `FirebaseProvider.kt` are not part of this model. They hold query plumbing, synchronised singleton set-up and credentials.
- The catch path of the dashboard's `refreshData` (DashboardViewModel.kt:197-199) cannot be reached. The farm read never throws and falls back to the default snapshot, so no member models that path.
- The monitoring screen reads fields (`timestamp`, `airTemperature`, `soilMoisturePct`, `getCO2Ppm()` and others) that the sensor record in RtdbSensorLatest.kt does not declare. The monitoring model therefore has its own input record with the names the screen uses, and the two gas getters are plain numbers.
