/**
 * The location tracker: an on/off lifecycle with a repeating one-minute
 * timer whose ticks append the current position to the track store.
 *
 * Everything the device answers (permission prompts, position fixes, the
 * timer handle, the clock, storage failures) arrives as a parameter.
 */
module Tracker {
  import opened Wrappers
  import opened JsonValue
  import opened Storage

  /** Period of the repeating timer armed by a successful start. */
  const TRACK_INTERVAL_MS := 60000

  /** Message of the error startTracking throws without permission. */
  const PERMISSION_ERROR := "Location permissions not granted"

  /** What a permission request resolves to; `RequestFailed` is a request
      that threw. */
  datatype PermissionReply = Granted | Denied | Undetermined | RequestFailed

  /** A position fix; `accuracy` is `null` when the device reports none. */
  datatype LocationObject = LocationObject(
    latitude: Number,
    longitude: Number,
    accuracy: Option<Number>,
    timestamp: Number)

  /** The environment of one tick: the result of getCurrentLocation (`None`
      when the fix threw and was caught), the clock value and the storage
      outcomes of addTrack. */
  datatype TickEnv = TickEnv(position: Option<LocationObject>, now: nat, readOk: bool, writeOk: bool)

  /** The environment of one startTracking call. Only the replies that the
      call actually awaits are consulted. */
  datatype StartEnv = StartEnv(
    foreground: PermissionReply,
    background: PermissionReply,
    flagWriteOk: bool,
    firstTick: TickEnv,
    timerHandle: nat)

  /** A held setInterval handle and its period. */
  datatype Interval = Interval(handle: nat, periodMs: nat)

  /** How an async call settles: resolves, or rejects with an error message. */
  datatype Completion = Resolved | Rejected(message: string)

  /** requestPermissions: the foreground answer decides; the background
      request is asked only after a foreground grant and its denial is
      tolerated, but a background request that throws lands in the catch
      and makes the answer false. */
  function RequestPermissions(foreground: PermissionReply, background: PermissionReply): (granted: bool)
    ensures foreground != Granted ==> !granted
    ensures foreground == Granted && background in {Granted, Denied, Undetermined} ==> granted
    ensures foreground == Granted && background == RequestFailed ==> !granted
  {
    if foreground != Granted then false
    else background != RequestFailed
  }

  /** `accuracy || undefined`: a falsy accuracy (null or 0) becomes absent. */
  function AccuracyOrUndefined(accuracy: Option<Number>): (r: Option<Number>)
    ensures r.None? <==> accuracy.None? || accuracy.value == 0.0
    ensures r.Some? ==> r == accuracy
  {
    match accuracy
    case None => None
    case Some(a) => if a != 0.0 then Some(a) else None
  }

  /** The track the tick hands to addTrack: the fix's coordinates and
      timestamp, and its accuracy unless falsy. */
  function TrackInputOf(location: LocationObject): TrackInput
  {
    TrackInput(location.latitude, location.longitude, location.timestamp,
               AccuracyOrUndefined(location.accuracy))
  }

  /** trackLocation's effect on the storage. */
  function TickResult(m: Store, tick: TickEnv): Store
  {
    match tick.position
    case None => m
    case Some(location) => AddTrackResult(m, TrackInputOf(location), tick.now, tick.readOk, tick.writeOk)
  }

  class LocationTracker {
    var intervalId: Option<Interval>
    var isTracking: bool
    const storage: TrackStore

    /** Tracking exactly when a one-minute timer is held. */
    ghost predicate Valid()
      reads this
    {
      && (isTracking <==> intervalId.Some?)
      && (intervalId.Some? ==> intervalId.value.periodMs == TRACK_INTERVAL_MS)
    }

    constructor (storage: TrackStore)
      ensures Valid()
      ensures this.storage == storage && !isTracking && intervalId == None
    {
      this.storage := storage;
      intervalId := None;
      isTracking := false;
    }

    method IsCurrentlyTracking() returns (tracking: bool)
      ensures tracking == isTracking
    {
      tracking := isTracking;
    }

    /** One tick: with a fix, add one track; without one, do nothing.
        Nothing escapes to the caller. */
    method TrackLocation(tick: TickEnv)
      modifies storage
      ensures storage.data == TickResult(old(storage.data), tick)
    {
      var location := tick.position;
      if location.Some? {
        storage.AddTrack(TrackInputOf(location.value), tick.now, tick.readOk, tick.writeOk);
      }
    }

    method StartTracking(env: StartEnv) returns (result: Completion)
      requires Valid()
      modifies this, storage
      ensures Valid()
      // already tracking: return at once, touching nothing
      ensures old(isTracking) ==>
                && result == Resolved
                && isTracking && intervalId == old(intervalId)
                && storage.data == old(storage.data)
      // no permission: reject, stay idle, write nothing
      ensures !old(isTracking) && !RequestPermissions(env.foreground, env.background) ==>
                && result == Rejected(PERMISSION_ERROR)
                && !isTracking && intervalId == None
                && storage.data == old(storage.data)
      // started: flag persisted as true, one immediate tick, timer armed
      ensures !old(isTracking) && RequestPermissions(env.foreground, env.background) ==>
                && result == Resolved
                && isTracking
                && intervalId == Some(Interval(env.timerHandle, TRACK_INTERVAL_MS))
                && storage.data == TickResult(WriteFlagResult(old(storage.data), true, env.flagWriteOk), env.firstTick)
    {
      if isTracking {
        return Resolved;
      }
      var hasPermission := RequestPermissions(env.foreground, env.background);
      if !hasPermission {
        return Rejected(PERMISSION_ERROR);
      }
      isTracking := true;
      storage.SetTrackerEnabled(true, env.flagWriteOk);
      TrackLocation(env.firstTick);
      intervalId := Some(Interval(env.timerHandle, TRACK_INTERVAL_MS));
      result := Resolved;
    }

    method StopTracking(flagWriteOk: bool)
      modifies this, storage
      ensures Valid()
      ensures !isTracking && intervalId == None
      ensures storage.data == WriteFlagResult(old(storage.data), false, flagWriteOk)
    {
      if intervalId.Some? {
        intervalId := None;
      }
      isTracking := false;
      storage.SetTrackerEnabled(false, flagWriteOk);
    }
  }

  /** The launch rule of the app's root layout: read the stored flag and, if
      it is true, start tracking; a rejected start is caught. */
  method RestoreTrackingState(tracker: LocationTracker, flagReadOk: bool, env: StartEnv)
    requires tracker.Valid()
    modifies tracker, tracker.storage
    ensures tracker.Valid()
    ensures !ReadFlag(old(tracker.storage.data), flagReadOk) ==>
              && tracker.isTracking == old(tracker.isTracking)
              && tracker.intervalId == old(tracker.intervalId)
              && tracker.storage.data == old(tracker.storage.data)
    // already tracking: the start returns at once
    ensures old(tracker.isTracking) ==>
              && tracker.isTracking
              && tracker.intervalId == old(tracker.intervalId)
              && tracker.storage.data == old(tracker.storage.data)
    // the start is rejected for lack of permission; the error is swallowed
    ensures ReadFlag(old(tracker.storage.data), flagReadOk) && !old(tracker.isTracking)
            && !RequestPermissions(env.foreground, env.background) ==>
              && !tracker.isTracking
              && tracker.intervalId == None
              && tracker.storage.data == old(tracker.storage.data)
    // the start succeeds
    ensures ReadFlag(old(tracker.storage.data), flagReadOk) && !old(tracker.isTracking)
            && RequestPermissions(env.foreground, env.background) ==>
              && tracker.isTracking
              && tracker.intervalId == Some(Interval(env.timerHandle, TRACK_INTERVAL_MS))
              && tracker.storage.data
                 == TickResult(WriteFlagResult(old(tracker.storage.data), true, env.flagWriteOk), env.firstTick)
  {
    var wasTracking := tracker.storage.GetTrackerEnabled(flagReadOk);
    if wasTracking {
      var _ := tracker.StartTracking(env);
    }
  }

  /** Launch scenario on objects: fresh storage whose flag was set to true,
      a fresh tracker, permission granted and a fix obtained; after the
      restore, tracking is on and the stored list holds exactly the one
      track at the fix's coordinates. */
  method LaunchScenario(location: LocationObject, now: nat, timerHandle: nat)
    returns (tracking: bool, tracks: Json)
    ensures tracking
    ensures tracks.Arr? && |tracks.items| == 1
    ensures Member(tracks.items[0], "latitude") == Some(Num(location.latitude))
    ensures Member(tracks.items[0], "longitude") == Some(Num(location.longitude))
    ensures Member(tracks.items[0], "timestamp") == Some(Num(location.timestamp))
  {
    var store := new TrackStore();
    store.SetTrackerEnabled(true, true);
    var tracker := new LocationTracker(store);
    var tick := TickEnv(Some(location), now, true, true);
    RestoreTrackingState(tracker, true, StartEnv(Granted, Denied, true, tick, timerHandle));
    tracking := tracker.IsCurrentlyTracking();
    TickAppendsOneTrack(WriteFlagResult(map[TRACKER_ENABLED_KEY := Bool(true)], true, true), tick);
    tracks := store.GetTracks(true);
  }

  /** stopTracking is idempotent: on the same initial storage, stopping
      twice leaves the tracker and the storage as stopping once does. */
  method StopTwiceScenario(initial: Store, timerHandle: nat)
    returns (onceStore: Store, twiceStore: Store, onceTracking: bool, twiceTracking: bool)
    ensures onceStore == twiceStore && onceTracking == twiceTracking
    ensures !twiceTracking && !ReadFlag(twiceStore, true)
  {
    var store1 := new TrackStore();
    store1.data := initial;
    var tracker1 := new LocationTracker(store1);
    tracker1.StopTracking(true);
    onceStore := store1.data;
    onceTracking := tracker1.IsCurrentlyTracking();

    var store2 := new TrackStore();
    store2.data := initial;
    var tracker2 := new LocationTracker(store2);
    tracker2.StopTracking(true);
    tracker2.StopTracking(true);
    twiceStore := store2.data;
    twiceTracking := tracker2.IsCurrentlyTracking();
  }

  // ---------------------------------------------------------------------
  // Properties of the tick
  // ---------------------------------------------------------------------

  /** A tick with a fix and working storage appends exactly one track that
      carries the fix's coordinates and timestamp. */
  lemma TickAppendsOneTrack(m: Store, tick: TickEnv)
    requires tick.position.Some? && tick.readOk && tick.writeOk
    requires ReadTracks(m, true).Arr?
    ensures var before := ReadTracks(m, true).items;
            var after := ReadTracks(TickResult(m, tick), true);
            && after.Arr?
            && |after.items| == |before| + 1
            && after.items[..|before|] == before
            && Member(after.items[|before|], "latitude") == Some(Num(tick.position.value.latitude))
            && Member(after.items[|before|], "longitude") == Some(Num(tick.position.value.longitude))
            && Member(after.items[|before|], "timestamp") == Some(Num(tick.position.value.timestamp))
  {
    AddTrackAppendsOne(m, TrackInputOf(tick.position.value), tick.now);
  }

  /** A tick without a fix leaves the storage unchanged. */
  lemma TickWithoutFixChangesNothing(m: Store, tick: TickEnv)
    requires tick.position.None?
    ensures TickResult(m, tick) == m
  {
  }

  /** A fix whose accuracy is falsy is stored with no accuracy member. */
  lemma FalsyAccuracyStoredAsAbsent(m: Store, tick: TickEnv)
    requires tick.position.Some? && tick.readOk && tick.writeOk
    requires ReadTracks(m, true).Arr?
    requires tick.position.value.accuracy.None? || tick.position.value.accuracy.value == 0.0
    ensures var after := ReadTracks(TickResult(m, tick), true).items;
            |after| >= 1 && Member(after[|after| - 1], "accuracy") == None
  {
    AddTrackAppendsOne(m, TrackInputOf(tick.position.value), tick.now);
  }

  /** A tick never touches the tracking flag. */
  lemma TickKeepsFlag(m: Store, tick: TickEnv, readOk: bool)
    ensures ReadFlag(TickResult(m, tick), readOk) == ReadFlag(m, readOk)
  {
  }

  /** Launch scenario: the flag reads true and no tracks are stored; the
      resumed start persists the flag again and its first tick leaves a list
      of exactly one track at the fetched coordinates. */
  lemma LaunchWithFlagRecordsOneTrack(m: Store, tick: TickEnv)
    requires ReadFlag(m, true) && TRACKS_STORAGE_KEY !in m
    requires tick.position.Some? && tick.readOk && tick.writeOk
    ensures var after := TickResult(WriteFlagResult(m, true, true), tick);
            && ReadFlag(after, true)
            && ReadTracks(after, true).Arr?
            && |ReadTracks(after, true).items| == 1
            && Member(ReadTracks(after, true).items[0], "latitude") == Some(Num(tick.position.value.latitude))
            && Member(ReadTracks(after, true).items[0], "longitude") == Some(Num(tick.position.value.longitude))
  {
    TickAppendsOneTrack(WriteFlagResult(m, true, true), tick);
  }
}
