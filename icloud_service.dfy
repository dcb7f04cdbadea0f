/**
 * Import validation and export shaping of the iCloud service, on parsed
 * documents, and the backup file name.
 */
module ICloud {
  import opened Wrappers
  import opened JsonValue
  import opened Storage

  const APP_VERSION := "1.0.0"
  const APP_NAME := "AI GPS Tracker"
  const BACKUP_PREFIX := "gps-tracks-backup-"
  const BACKUP_SUFFIX := ".json"

  /** The shape check of importFromFile: a bare array, or an object whose
      `tracks` member is an array. */
  function TracksOf(data: Json): Option<seq<Json>>
  {
    if data.Arr? then Some(data.items)
    else
      var tracks := Member(data, "tracks");
      if Truthy(tracks) && tracks.value.Arr? then Some(tracks.value.items) else None
  }

  /** The `every` callback: a truthy id and numeric latitude, longitude and
      timestamp. */
  predicate IsValidTrack(track: Json)
  {
    && Truthy(Member(track, "id"))
    && IsNumber(Member(track, "latitude"))
    && IsNumber(Member(track, "longitude"))
    && IsNumber(Member(track, "timestamp"))
  }

  predicate AllValid(tracks: seq<Json>)
  {
    forall i :: 0 <= i < |tracks| ==> IsValidTrack(tracks[i])
  }

  /** importFromFile after reading and parsing: `parsed == None` is a read or
      parse failure. The result is the track list, or `None` (null). */
  function ImportFromFile(parsed: Option<Json>): (r: Option<seq<Json>>)
    // a result comes unmodified from one of the two accepted shapes
    ensures r.Some? ==> parsed.Some? && (parsed.value == Arr(r.value) || Member(parsed.value, "tracks") == Some(Arr(r.value)))
    // all or nothing: a result holds only valid tracks
    ensures r.Some? ==> AllValid(r.value)
    // a bare array is accepted exactly when all its elements are valid
    ensures parsed.Some? && parsed.value.Arr? ==> (r.Some? <==> AllValid(parsed.value.items))
    // an object with an array `tracks` is accepted exactly when all of them are valid
    ensures parsed.Some? && parsed.value.Obj? && Member(parsed.value, "tracks").Some?
            && Member(parsed.value, "tracks").value.Arr? ==>
              (r.Some? <==> AllValid(Member(parsed.value, "tracks").value.items))
    // every other top-level value is rejected
    ensures parsed.None? || (!parsed.value.Arr? && !(Member(parsed.value, "tracks").Some? && Member(parsed.value, "tracks").value.Arr?))
            ==> r.None?
  {
    match parsed
    case None => None
    case Some(data) =>
      match TracksOf(data)
      case None => None
      case Some(tracks) => if AllValid(tracks) then Some(tracks) else None
  }

  /** formatExportData, before stringifying; `exportDate` is the clock's ISO
      string. */
  function FormatExportData(tracks: seq<Json>, exportDate: string): (doc: Json)
    ensures doc.Obj?
    ensures doc.fields.Keys == {"exportDate", "appVersion", "appName", "tracksCount", "tracks"}
    ensures Member(doc, "tracksCount") == Some(Num(|tracks| as real))
    ensures Member(doc, "tracks") == Some(Arr(tracks))
    ensures Member(doc, "exportDate") == Some(Str(exportDate))
    ensures Member(doc, "appVersion") == Some(Str(APP_VERSION))
    ensures Member(doc, "appName") == Some(Str(APP_NAME))
  {
    Obj(map[
      "exportDate" := Str(exportDate),
      "appVersion" := Str(APP_VERSION),
      "appName" := Str(APP_NAME),
      "tracksCount" := Num(|tracks| as real),
      "tracks" := Arr(tracks)])
  }

  /** `replace(/[:.]/g, '-')`. */
  function SanitizeTimestamp(s: string): (r: string)
    ensures |r| == |s|
    ensures forall i :: 0 <= i < |r| ==> r[i] != ':' && r[i] != '.'
    ensures forall i :: 0 <= i < |s| && s[i] != ':' && s[i] != '.' ==> r[i] == s[i]
    ensures forall i :: 0 <= i < |s| && (s[i] == ':' || s[i] == '.') ==> r[i] == '-'
  {
    if s == [] then []
    else (if s[0] == ':' || s[0] == '.' then "-" else [s[0]]) + SanitizeTimestamp(s[1..])
  }

  /** The backup file name built from the clock's ISO string. */
  function BackupFilename(isoTimestamp: string): string
  {
    BACKUP_PREFIX + SanitizeTimestamp(isoTimestamp) + BACKUP_SUFFIX
  }

  // ---------------------------------------------------------------------
  // Properties of import and export
  // ---------------------------------------------------------------------

  /** An empty list imports as the empty list, in both accepted shapes. */
  lemma EmptyListImports(exportDate: string)
    ensures ImportFromFile(Some(Arr([]))) == Some([])
    ensures ImportFromFile(Some(FormatExportData([], exportDate))) == Some([])
  {
  }

  /** One invalid element rejects the whole file. */
  lemma OneBadTrackRejectsAll(tracks: seq<Json>, k: nat)
    requires k < |tracks| && !IsValidTrack(tracks[k])
    ensures ImportFromFile(Some(Arr(tracks))) == None
    ensures forall fields :: "tracks" in fields && fields["tracks"] == Arr(tracks)
              ==> ImportFromFile(Some(Obj(fields))) == None
  {
  }

  /** Export then import gives back the exported list exactly when every
      track is valid, and fails otherwise. */
  lemma ExportImportRoundTrip(tracks: seq<Json>, exportDate: string)
    ensures ImportFromFile(Some(FormatExportData(tracks, exportDate)))
            == (if AllValid(tracks) then Some(tracks) else None)
  {
  }

  /** A track built by the app is valid for import exactly when its id is
      non-empty. */
  lemma TrackToJsonValid(t: GpsTrack)
    ensures IsValidTrack(TrackToJson(t)) <==> t.id != ""
  {
  }

  /** The stored list is importable: a list of valid tracks. An absent key
      reads as the empty list, which is importable. */
  predicate Importable(m: Store)
  {
    ReadTracks(m, true).Arr? && AllValid(ReadTracks(m, true).items)
  }

  /** Every track addTrack writes has a clock-derived, hence non-empty, id,
      so addTrack keeps the stored list importable, whatever the storage
      outcomes. */
  lemma AddTrackKeepsImportable(m: Store, track: TrackInput, now: nat, readOk: bool, writeOk: bool)
    requires Importable(m)
    ensures Importable(AddTrackResult(m, track, now, readOk, writeOk))
  {
  }

  /** clearTracks and flag writes keep the stored list importable. */
  lemma OtherWritesKeepImportable(m: Store, ok: bool, enabled: bool)
    requires Importable(m)
    ensures Importable(ClearTracksResult(m, ok))
    ensures Importable(WriteFlagResult(m, enabled, ok))
  {
  }

  /** Exporting an importable stored list and importing the file gives the
      same list back. */
  lemma StoredTracksRoundTrip(m: Store, exportDate: string)
    requires Importable(m)
    ensures ImportFromFile(Some(FormatExportData(ReadTracks(m, true).items, exportDate)))
            == Some(ReadTracks(m, true).items)
  {
    ExportImportRoundTrip(ReadTracks(m, true).items, exportDate);
  }

  /** The backup name contains no ':' and its only '.' is the one that
      starts the ".json" extension. */
  lemma BackupFilenameShape(isoTimestamp: string)
    ensures var name := BackupFilename(isoTimestamp);
            && |name| == |BACKUP_PREFIX| + |isoTimestamp| + |BACKUP_SUFFIX|
            && name[..|BACKUP_PREFIX|] == BACKUP_PREFIX
            && name[|name| - |BACKUP_SUFFIX|..] == BACKUP_SUFFIX
            && (forall i :: 0 <= i < |name| ==> name[i] != ':')
            && (forall i :: 0 <= i < |name| && name[i] == '.' ==> i == |name| - |BACKUP_SUFFIX|)
  {
  }
}
