/**
 * The track store: a two-key view of the device's key-value storage.
 *
 * One key holds the list of recorded GPS points, the other the
 * "tracking enabled" flag. The storage holds strings; the model keeps, for
 * each key, the document whose JSON text is stored there. The flag is written
 * as the literal string "true" or "false", which is exactly the JSON text of
 * `Bool(true)` or `Bool(false)`. A failed storage call, or stored text that
 * does not parse, is an environment outcome passed in as a flag (`readOk`,
 * `writeOk`, `ok`).
 */
module Storage {
  import opened Wrappers
  import opened JsonValue

  const TRACKS_STORAGE_KEY := "@gps_tracks"
  const TRACKER_ENABLED_KEY := "@tracker_enabled"

  /** The key-value storage: key to the document its stored text denotes. */
  type Store = map<string, Json>

  /** One GPS sample. `accuracy == None` is an absent (undefined) accuracy. */
  datatype GpsTrack = GpsTrack(
    id: string,
    latitude: Number,
    longitude: Number,
    timestamp: Number,
    accuracy: Option<Number>)

  /** What callers of addTrack supply: a GpsTrack without its id. */
  datatype TrackInput = TrackInput(
    latitude: Number,
    longitude: Number,
    timestamp: Number,
    accuracy: Option<Number>)

  /** A decimal digit character. */
  function Digit(d: nat): char
    requires d < 10
  {
    (('0' as int) + d) as char
  }

  /** `n.toString()` for a non-negative integer (the clock value behind a
      track id): its decimal digits, without leading zeros. */
  function DecimalString(n: nat): (s: string)
    ensures |s| >= 1
    ensures n >= 10 ==> |s| >= 2
    ensures forall i :: 0 <= i < |s| ==> '0' <= s[i] <= '9'
    decreases n
  {
    if n < 10 then [Digit(n)] else DecimalString(n / 10) + [Digit(n % 10)]
  }

  /** Different clock values give different ids: the only source of id
      uniqueness, since addTrack itself checks nothing. */
  lemma {:induction false} DistinctClocksDistinctIds(a: nat, b: nat)
    requires a != b
    ensures DecimalString(a) != DecimalString(b)
    decreases a
  {
    var sa, sb := DecimalString(a), DecimalString(b);
    if a < 10 && b < 10 {
      assert sa[0] != sb[0];
    } else if a < 10 {
      assert |sa| != |sb|;
    } else if b < 10 {
      assert |sa| != |sb|;
    } else if a % 10 != b % 10 {
      assert sa[|sa| - 1] == Digit(a % 10);
      assert sb[|sb| - 1] == Digit(b % 10);
    } else {
      assert a / 10 != b / 10;
      DistinctClocksDistinctIds(a / 10, b / 10);
      assert sa[..|sa| - 1] == DecimalString(a / 10);
      assert sb[..|sb| - 1] == DecimalString(b / 10);
    }
  }

  /** The object addTrack pushes, {...track, id: Date.now().toString()}, with
      the caller's fields unchanged and an id from the clock value `now`. */
  function NewTrack(track: TrackInput, now: nat): GpsTrack
  {
    GpsTrack(DecimalString(now), track.latitude, track.longitude, track.timestamp, track.accuracy)
  }

  /** The document JSON.stringify/JSON.parse makes of a track: an undefined
      accuracy leaves no "accuracy" member. */
  function TrackToJson(t: GpsTrack): Json
  {
    var fields := map[
      "id" := Str(t.id),
      "latitude" := Num(t.latitude),
      "longitude" := Num(t.longitude),
      "timestamp" := Num(t.timestamp)];
    Obj(if t.accuracy.Some? then fields["accuracy" := Num(t.accuracy.value)] else fields)
  }

  // ---------------------------------------------------------------------
  // The effect of each operation on the storage (specification functions)
  // ---------------------------------------------------------------------

  /** getTracks: the parsed tracks document, or the empty list when the key
      is absent or the read or parse fails. */
  function ReadTracks(m: Store, readOk: bool): Json
  {
    if readOk && TRACKS_STORAGE_KEY in m then m[TRACKS_STORAGE_KEY] else Arr([])
  }

  /** addTrack: read the list, push the new track, write the list back. A
      `push` on a document that is not an array throws, and so does a failed
      write; both are caught and leave the storage as it was. */
  function AddTrackResult(m: Store, track: TrackInput, now: nat, readOk: bool, writeOk: bool): Store
  {
    var tracks := ReadTracks(m, readOk);
    if tracks.Arr? && writeOk then
      m[TRACKS_STORAGE_KEY := Arr(tracks.items + [TrackToJson(NewTrack(track, now))])]
    else
      m
  }

  /** clearTracks: remove the tracks key. */
  function ClearTracksResult(m: Store, ok: bool): Store
  {
    if ok then m - {TRACKS_STORAGE_KEY} else m
  }

  /** getTrackerEnabled: the stored text is exactly "true". */
  predicate ReadFlag(m: Store, readOk: bool)
  {
    readOk && TRACKER_ENABLED_KEY in m && m[TRACKER_ENABLED_KEY] == Bool(true)
  }

  /** setTrackerEnabled: store `enabled.toString()`. */
  function WriteFlagResult(m: Store, enabled: bool, ok: bool): Store
  {
    if ok then m[TRACKER_ENABLED_KEY := Bool(enabled)] else m
  }

  // ---------------------------------------------------------------------
  // The store object
  // ---------------------------------------------------------------------

  class TrackStore {
    var data: Store

    /** Device storage with neither key set. */
    constructor ()
      ensures data == map[]
    {
      data := map[];
    }

    method GetTracks(readOk: bool) returns (tracks: Json)
      ensures tracks == ReadTracks(data, readOk)
      ensures TRACKS_STORAGE_KEY !in data ==> tracks == Arr([])
      ensures !readOk ==> tracks == Arr([])
      ensures readOk && TRACKS_STORAGE_KEY in data ==> tracks == data[TRACKS_STORAGE_KEY]
    {
      if readOk && TRACKS_STORAGE_KEY in data {
        tracks := data[TRACKS_STORAGE_KEY];
      } else {
        tracks := Arr([]);
      }
    }

    method AddTrack(track: TrackInput, now: nat, readOk: bool, writeOk: bool)
      modifies this
      ensures data == AddTrackResult(old(data), track, now, readOk, writeOk)
    {
      var tracks := GetTracks(readOk);
      if tracks.Arr? {
        var newTrack := NewTrack(track, now);
        tracks := Arr(tracks.items + [TrackToJson(newTrack)]);
        if writeOk {
          data := data[TRACKS_STORAGE_KEY := tracks];
        }
      }
    }

    method ClearTracks(ok: bool)
      modifies this
      ensures data == ClearTracksResult(old(data), ok)
    {
      if ok {
        data := data - {TRACKS_STORAGE_KEY};
      }
    }

    method GetTrackerEnabled(readOk: bool) returns (enabled: bool)
      ensures enabled == ReadFlag(data, readOk)
      ensures enabled <==> readOk && TRACKER_ENABLED_KEY in data && data[TRACKER_ENABLED_KEY] == Bool(true)
      ensures TRACKER_ENABLED_KEY !in data ==> !enabled
    {
      if readOk && TRACKER_ENABLED_KEY in data {
        var value := data[TRACKER_ENABLED_KEY];
        enabled := value == Bool(true);
      } else {
        enabled := false;
      }
    }

    method SetTrackerEnabled(enabled: bool, ok: bool)
      modifies this
      ensures data == WriteFlagResult(old(data), enabled, ok)
    {
      if ok {
        data := data[TRACKER_ENABLED_KEY := Bool(enabled)];
      }
    }
  }

  // ---------------------------------------------------------------------
  // Properties of the store
  // ---------------------------------------------------------------------

  /** A successful addTrack on a stored list appends exactly one element,
      leaves the old elements in place, and the new element carries the
      caller's fields unchanged plus the clock-derived id. */
  lemma AddTrackAppendsOne(m: Store, track: TrackInput, now: nat)
    requires ReadTracks(m, true).Arr?
    ensures var before := ReadTracks(m, true).items;
            var after := ReadTracks(AddTrackResult(m, track, now, true, true), true);
            && after.Arr?
            && |after.items| == |before| + 1
            && after.items[..|before|] == before
            && Member(after.items[|before|], "id") == Some(Str(DecimalString(now)))
            && Member(after.items[|before|], "latitude") == Some(Num(track.latitude))
            && Member(after.items[|before|], "longitude") == Some(Num(track.longitude))
            && Member(after.items[|before|], "timestamp") == Some(Num(track.timestamp))
            && Member(after.items[|before|], "accuracy")
               == (if track.accuracy.Some? then Some(Num(track.accuracy.value)) else None)
  {
    var before := ReadTracks(m, true).items;
    var after := ReadTracks(AddTrackResult(m, track, now, true, true), true);
    assert after.items == before + [TrackToJson(NewTrack(track, now))];
  }

  /** addTrack never fails outward: when the write fails, or the stored
      document is not a list, the storage is unchanged. */
  lemma AddTrackFailureKeepsStore(m: Store, track: TrackInput, now: nat, readOk: bool, writeOk: bool)
    requires !writeOk || !ReadTracks(m, readOk).Arr?
    ensures AddTrackResult(m, track, now, readOk, writeOk) == m
  {
  }

  /** A failed read makes getTracks answer the empty list, so a successful
      write that follows replaces the whole stored history by the new track. */
  lemma AddTrackAfterFailedReadKeepsOnlyNewTrack(m: Store, track: TrackInput, now: nat)
    ensures ReadTracks(AddTrackResult(m, track, now, false, true), true)
            == Arr([TrackToJson(NewTrack(track, now))])
  {
  }

  /** No uniqueness check: two tracks added within the same clock value get
      the same id. */
  lemma SameClockSameId(m: Store, first: TrackInput, second: TrackInput, now: nat)
    requires ReadTracks(m, true).Arr?
    ensures var m2 := AddTrackResult(AddTrackResult(m, first, now, true, true), second, now, true, true);
            var items := ReadTracks(m2, true).items;
            && |items| == |ReadTracks(m, true).items| + 2
            && Member(items[|items| - 2], "id") == Member(items[|items| - 1], "id")
  {
    AddTrackAppendsOne(m, first, now);
    AddTrackAppendsOne(AddTrackResult(m, first, now, true, true), second, now);
  }

  /** After a successful clearTracks, getTracks answers the empty list. */
  lemma ClearThenReadIsEmpty(m: Store, readOk: bool)
    ensures ReadTracks(ClearTracksResult(m, true), readOk) == Arr([])
  {
  }

  /** setTrackerEnabled(b) followed by getTrackerEnabled() gives b. */
  lemma FlagRoundTrip(m: Store, enabled: bool)
    ensures ReadFlag(WriteFlagResult(m, enabled, true), true) == enabled
  {
  }

  /** The two keys are distinct: flag writes leave the track list as it was,
      and track operations leave the flag as it was. */
  lemma KeysIndependent(m: Store, track: TrackInput, now: nat, enabled: bool, ok1: bool, ok2: bool)
    ensures forall readOk :: ReadTracks(WriteFlagResult(m, enabled, ok1), readOk) == ReadTracks(m, readOk)
    ensures forall readOk :: ReadFlag(AddTrackResult(m, track, now, ok1, ok2), readOk) == ReadFlag(m, readOk)
    ensures forall readOk :: ReadFlag(ClearTracksResult(m, ok1), readOk) == ReadFlag(m, readOk)
  {
  }

  /** Writing the flag twice with the same value is the same as writing it once. */
  lemma WriteFlagIdempotent(m: Store, enabled: bool)
    ensures WriteFlagResult(WriteFlagResult(m, enabled, true), enabled, true)
            == WriteFlagResult(m, enabled, true)
  {
  }
}
