# GPS tracker services in Dafny

A model of the three services of a small mobile GPS tracker, which records
the device position once a minute, keeps the points in key-value storage and
exports or imports them as JSON:

- **Track store** (`storage.dfy`, module `Storage`). The device's key-value
  storage as a `TrackStore` object whose `data` field maps each key to the
  document its stored text denotes. Key `@gps_tracks` holds the track list.
  Key `@tracker_enabled` holds the text `"true"` or `"false"`, which is
  the JSON text of `Bool(true)` or `Bool(false)`. Its methods `GetTracks`,
  `AddTrack`, `ClearTracks`, `GetTrackerEnabled` and `SetTrackerEnabled`
  follow the source step by step. Each one's effect on the storage is given
  by a specification function (`ReadTracks`, `AddTrackResult`,
  `ClearTracksResult`, `ReadFlag`, `WriteFlagResult`), and the lemmas are
  about those functions. Storage failures are boolean parameters, and so is
  stored text that fails to parse: `readOk`, `writeOk`, `ok`. A track id is
  `Date.now().toString()`, modelled as `DecimalString(now)` of a clock value
  passed in.
- **Location tracker** (`location_tracker.dfy`, module `Tracker`). The
  class `LocationTracker` has the fields `isTracking` and `intervalId`, plus
  a reference to the store. `Valid()` says that the tracker is tracking
  exactly when a 60000 ms timer handle is held. Permission replies, the
  position fix, the clock, storage outcomes and the timer handle come in as
  parameters (`StartEnv`, `TickEnv`).
- **Import and export** (`icloud_service.dfy`, module `ICloud`). These are
  pure functions over parsed JSON (`json_value.dfy`): shape detection and
  all-or-nothing validation of an imported document, the export document,
  and the backup file name.

Behaviour of the code that the model keeps as written:

- `getTracks` answers `[]` on a failed read or parse. `addTrack` then pushes
  onto that `[]` and writes it back, so a failed read followed by a good
  write replaces the whole stored history by one point
  (`AddTrackAfterFailedReadKeepsOnlyNewTrack`).
- Track ids come from the clock alone. Nothing checks them for uniqueness:
  two points added within the same millisecond share an id
  (`SameClockSameId`), and ids differ only when the clock values differ
  (`DistinctClocksDistinctIds`).
- A background permission request that throws, after foreground permission
  was granted, lands in the same `catch` as a foreground failure. Tracking
  then does not start. A background request that is merely denied does not
  stop it.
- The export document is `{exportDate, appVersion, appName, tracksCount,
  tracks}`. The tracks are exactly the input list: points get no extra
  `date` member. The count member is spelled `tracksCount`.

## Model

| member | source | states |
|---|---|---|
| `Storage.DecimalString` | services/storage.ts:32 | the id text of a clock value is non-empty and made of decimal digits only, so it is always truthy |
| `Storage.DistinctClocksDistinctIds` | services/storage.ts:32 | different clock values give different ids (toString of integers is injective) |
| `Storage.TrackStore.GetTracks` | services/storage.ts:16-24 | returns `ReadTracks` of the storage: the stored tracks document when it is present and readable, the empty list when the key is absent or the read or parse fails |
| `Storage.TrackStore.AddTrack` | services/storage.ts:27-39 | read, push, write back: the new storage is `AddTrackResult` of the old one (see the lemmas on it) |
| `Storage.TrackStore.ClearTracks` | services/storage.ts:42-48 | removes the tracks key when the removal succeeds, and leaves storage unchanged otherwise |
| `Storage.TrackStore.GetTrackerEnabled` | services/storage.ts:51-59 | returns `ReadFlag` of the storage: true exactly when the read succeeds and the stored flag is exactly "true"; an absent flag reads false |
| `Storage.TrackStore.SetTrackerEnabled` | services/storage.ts:62-68 | a successful write stores the boolean's text under the flag key only; a failed write changes nothing |
| `Storage.AddTrackAppendsOne` | services/storage.ts:29-35 | with read and write succeeding, the list grows by exactly one and the old elements stay in place as a prefix; the new element carries the caller's latitude, longitude, timestamp and accuracy unchanged (no accuracy member when undefined) and the clock-derived id |
| `Storage.AddTrackFailureKeepsStore` | services/storage.ts:34-38 | a failed write, or a stored document that is not a list (push throws), leaves the storage unchanged; nothing is raised |
| `Storage.AddTrackAfterFailedReadKeepsOnlyNewTrack` | services/storage.ts:20-35 | a failed read makes the list read as empty, so a successful write leaves a list holding only the new track |
| `Storage.SameClockSameId` | services/storage.ts:30-34 | two tracks added with the same clock value get equal ids: there is no uniqueness check |
| `Storage.ClearThenReadIsEmpty` | services/storage.ts:18-44 | after a successful clear, getTracks yields the empty list whatever the read outcome |
| `Storage.FlagRoundTrip` | services/storage.ts:51-68 | setTrackerEnabled(b) followed by getTrackerEnabled() returns b |
| `Storage.KeysIndependent` | services/storage.ts:11-12 | the two keys are distinct: flag writes leave the tracks read unchanged, and addTrack and clearTracks leave the flag read unchanged |
| `Storage.WriteFlagIdempotent` | services/storage.ts:62-68 | writing the same flag value twice has the effect of writing it once |
| `Tracker.RequestPermissions` | services/locationTracker.ts:8-31 | false unless foreground permission is granted; with foreground granted, a denied or undetermined background answer still gives true; a background request that throws gives false |
| `Tracker.AccuracyOrUndefined` | services/locationTracker.ts:88 | a falsy accuracy (null or 0) becomes absent; any other value is kept unchanged |
| `Tracker.LocationTracker.constructor` | services/locationTracker.ts:4-6 | a new tracker is idle with no timer held |
| `Tracker.LocationTracker.IsCurrentlyTracking` | services/locationTracker.ts:97-99 | returns exactly the `isTracking` field |
| `Tracker.LocationTracker.TrackLocation` | services/locationTracker.ts:80-95 | with a fix, the storage becomes the addTrack of the fix's coordinates, timestamp and truthy accuracy; without one it is unchanged; nothing is raised |
| `Tracker.LocationTracker.StartTracking` | services/locationTracker.ts:45-68 | already tracking: resolves and changes nothing (no request, no flag write, no tick); without permission: rejects with "Location permissions not granted", stays idle and writes nothing; otherwise: tracking, flag written true, exactly one tick, then a 60000 ms timer held; `Valid()` kept |
| `Tracker.LocationTracker.StopTracking` | services/locationTracker.ts:70-78 | from any state: idle, no timer held, flag written false; the result does not depend on the prior tracker state, so a second stop has the effect of the first (see `StopTwiceScenario`) |
| `Tracker.RestoreTrackingState` | app/_layout.tsx:20-30 | at launch, a flag that does not read true changes nothing; an already tracking tracker is left as it was; a flag that reads true on an idle tracker without permission leaves it idle with no timer and the storage unchanged (the rejection is swallowed); with permission it starts tracking with a 60000 ms timer and the storage effect of a start |
| `Tracker.LaunchScenario` | app/_layout.tsx:20-30 | fresh storage with the flag set true, a fresh tracker, permission granted and a fix: after the restore, tracking is on and getTracks lists exactly one track at the fix's latitude, longitude and timestamp |
| `Tracker.StopTwiceScenario` | services/locationTracker.ts:70-78 | on the same initial storage, stopping twice leaves the storage and the tracking state exactly as stopping once; the flag reads false and tracking is off |
| `Tracker.TickAppendsOneTrack` | services/locationTracker.ts:80-95 | a tick with a fix and working storage appends exactly one track holding the fix's latitude, longitude and timestamp, keeping the older tracks |
| `Tracker.TickWithoutFixChangesNothing` | services/locationTracker.ts:82-83 | a tick whose fix failed (null) leaves the storage unchanged |
| `Tracker.FalsyAccuracyStoredAsAbsent` | services/locationTracker.ts:88 | a fix with null or zero accuracy is stored with no accuracy member |
| `Tracker.TickKeepsFlag` | services/locationTracker.ts:80-95 | a tick never changes the tracking flag |
| `Tracker.LaunchWithFlagRecordsOneTrack` | app/_layout.tsx:22-25 | flag true and no tracks at launch: after the resumed start's first tick, the flag still reads true and the list holds exactly one track at the fetched coordinates |
| `ICloud.ImportFromFile` | services/icloudService.ts:98-138 | a result comes unmodified and in order from a bare array or from an object's array `tracks`; each such list is accepted exactly when every element is valid; any other top-level value, or a failed read or parse, gives null; a result never holds an invalid track |
| `ICloud.FormatExportData` | services/icloudService.ts:162-172 | the export object has exactly the members exportDate, appVersion "1.0.0", appName "AI GPS Tracker", tracksCount equal to the number of tracks, and tracks equal to the input list |
| `ICloud.SanitizeTimestamp` | services/icloudService.ts:145 | same length; every ':' and '.' becomes '-', every other character is kept; the result contains neither ':' nor '.' |
| `ICloud.EmptyListImports` | services/icloudService.ts:109-129 | an empty list, bare or exported, imports as the empty list |
| `ICloud.OneBadTrackRejectsAll` | services/icloudService.ts:118-127 | one invalid element rejects the whole file in both shapes: no partial result |
| `ICloud.ExportImportRoundTrip` | services/icloudService.ts:162-171 | importing the export document gives back the exported list exactly when every track is valid, and null otherwise |
| `ICloud.TrackToJsonValid` | services/icloudService.ts:118-123 | a track as the app stores it passes validation exactly when its id is non-empty |
| `ICloud.AddTrackKeepsImportable` | services/storage.ts:29-35 | addTrack keeps the stored list a list of valid tracks, whatever the storage outcomes, because every id it writes is non-empty |
| `ICloud.OtherWritesKeepImportable` | services/storage.ts:42-68 | clearTracks and flag writes keep the stored list importable |
| `ICloud.StoredTracksRoundTrip` | services/icloudService.ts:162-171 | exporting an importable stored list and importing the result gives the same list |
| `ICloud.BackupFilenameShape` | services/icloudService.ts:145-146 | the backup name is the prefix, the sanitised timestamp and ".json"; it contains no ':' and its only '.' starts the extension |

## Left out

- JSON text: `JSON.parse` and `JSON.stringify` are not modelled. Stored and exported values are the parsed documents, and parse after stringify is taken to be the identity. Text that does not parse is a failed read. Stored strings that are not the JSON text of some document are not represented; this program never writes any.
- Numbers are mathematical reals used opaquely. NaN and the infinities are not represented. The truthiness of a NaN accuracy and the `null` that `JSON.stringify` writes for it are therefore out of the model.
- The expo-location calls (permission requests, `getCurrentPositionAsync`) are parameters. `getCurrentLocation`'s `catch` is the `position` parameter being `None`.
- Timers: `setInterval` is the handle recorded in `intervalId`, and `clearInterval` is dropping it. The later ticks that a held timer fires are further `TrackLocation` calls; they are not scheduled by the model.
- Concurrency: async interleavings are not modelled. Two overlapping `addTrack` read-modify-write cycles can lose one point. A `stopTracking` that runs while `startTracking` awaits its first tick leaves a timer armed with `isTracking` false.
- Clocks: `Date.now()` and `new Date().toISOString()` are parameters (`now`, `exportDate`, `isoTimestamp`).
- Property access on `null` throws a TypeError in JavaScript; the model reads it as `undefined`. Both make an import fail, so the result is the same.
- Device I/O and UI in the iCloud service: file access, the share sheet, the document picker and `Alert` pop-ups (`exportToICloud`, `importFromICloud`, the file read of `importFromFile`, and the file write of `createLocalBackup`). Only the backup file name is modelled. `isAvailable` and `isSharingAvailable` are platform queries.
- Logging through `console` is not modelled.
