/**
 The routes of app.py that drive the storage core: the upload flow with its
 rollback-and-cleanup path, and the stream and preview routes. The track table is a
 map from id to track; forms, flashes, redirects and templates are left out.
 */
module App {
  import opened Base
  import opened Text
  import opened Models
  import opened Storage
  import opened Naming
  import opened Ingest
  import opened Retrieval
  import opened Cleanup
  import Config

  /**
   What the upload form delivers: the client's file name, its `secure_filename`
   rendering, the optional title and description, and the file's bytes.
   */
  datatype UploadForm = UploadForm(filename: string, secured: string, title: string, description: string, data: Bytes)

  datatype UploadFailure = ProcessingFailed(error: IngestError) | CommitFailed

  datatype UploadOutcome = Rejected | Committed(trackId: nat) | Failed(cause: UploadFailure)

  datatype UploadResult = UploadResult(outcome: UploadOutcome, tracks: map<nat, Track>, world: World)

  /** `form.title.data or filename.rsplit(".", 1)[0]`. */
  function TrackTitle(form: UploadForm): (r: string)
    ensures |form.title| > 0 ==> r == form.title
    // Without a title, the secured name minus its extension; the whole name when it has none.
    ensures |form.title| == 0 && '.' in form.secured ==> r + "." + AfterLast(form.secured, '.').value == form.secured
    ensures |form.title| == 0 && '.' !in form.secured ==> r == form.secured
  {
    if |form.title| > 0 then form.title else BeforeLast(form.secured, '.')
  }

  /** The ingestion an allowed upload runs: the new track, processed. */
  function Ingestion(cfg: Config.Settings, world: World, faults: Faults, codec: Transcoder,
                     ids: Uuids, newId: nat, owner: nat, form: UploadForm): Ingested
  {
    ProcessTrackUpload(cfg, NewTrack(newId, owner, TrackTitle(form), form.description), form.secured, form.data,
                       codec, ids, world, faults)
  }

  /** A processed new track that raised nothing is stored under the ingest backend as MPEG audio. */
  lemma IngestionStored(cfg: Config.Settings, world: World, faults: Faults, codec: Transcoder,
                        ids: Uuids, newId: nat, owner: nat, form: UploadForm)
    ensures var ing := Ingestion(cfg, world, faults, codec, ids, newId, owner, form);
      var t := ing.track;
      ing.error.None? ==> StoredIn(t, IngestBackend(cfg.storageMode)) && t.ownerId == owner && t.mimeType == Some(Config.MpegMime)
  {
  }

  /**
   The POST branch of `upload`. `newId` is the id the flush assigns; `commitSucceeds`
   says whether the final commit goes through. On any exception the session is rolled
   back, which drops the new row but leaves the in-memory track as processing left it,
   and `storage_delete` runs on that track.
   */
  function Upload(cfg: Config.Settings, tracks: map<nat, Track>, world: World, faults: Faults, codec: Transcoder,
                  ids: Uuids, newId: nat, owner: nat, form: UploadForm, commitSucceeds: bool): (r: UploadResult)
    // A disallowed extension is turned away before a track exists or storage is touched.
    ensures !AllowedFile(form.filename, cfg.allowed) ==> r == UploadResult(Rejected, tracks, world)
    ensures r.outcome == Rejected ==> !AllowedFile(form.filename, cfg.allowed)
    // A track is committed only when processing returned normally and the commit succeeded.
    ensures r.outcome.Committed? ==>
      && r.outcome.trackId == newId && commitSucceeds
      && r.tracks.Keys == tracks.Keys + {newId}
      && (forall id :: id in tracks && id != newId ==> r.tracks[id] == tracks[id])
      && StoredIn(r.tracks[newId], IngestBackend(cfg.storageMode))
      && r.tracks[newId].ownerId == owner && r.tracks[newId].mimeType == Some(Config.MpegMime)
    // A failed upload adds no track.
    ensures r.outcome.Failed? ==> r.tracks == tracks
    ensures r.outcome.Failed? && r.outcome.cause == CommitFailed ==> !commitSucceeds
    // An allowed upload commits exactly when processing returns normally and the commit succeeds.
    ensures var ing := Ingestion(cfg, world, faults, codec, ids, newId, owner, form);
      && (AllowedFile(form.filename, cfg.allowed) ==> (r.outcome.Committed? <==> ing.error.None? && commitSucceeds))
      && (r.outcome.Committed? ==> r.tracks[newId] == ing.track && r.world == ing.world)
      // After the rollback, cleanup runs on the track as processing left it.
      && (r.outcome.Failed? ==>
            && r.world == StorageDelete(cfg.storageMode, ing.track, ing.world, faults).world
            && r.outcome.cause == (if ing.error.Some? then ProcessingFailed(ing.error.value) else CommitFailed))
  {
    if !AllowedFile(form.filename, cfg.allowed) then UploadResult(Rejected, tracks, world)
    else
      var ing := Ingestion(cfg, world, faults, codec, ids, newId, owner, form);
      IngestionStored(cfg, world, faults, codec, ids, newId, owner, form);
      Settle(cfg.storageMode, tracks, faults, newId, ing, commitSucceeds)
  }

  /**
   The end of an allowed upload once processing is over: commit, or roll back and
   clean up after the track as processing left it.
   */
  function Settle(mode: string, tracks: map<nat, Track>, faults: Faults, newId: nat, ing: Ingested,
                  commitSucceeds: bool): (r: UploadResult)
    ensures r.outcome != Rejected
    ensures r.outcome.Committed? <==> ing.error.None? && commitSucceeds
    ensures r.outcome.Committed? ==>
      && r.outcome.trackId == newId && r.tracks == tracks[newId := ing.track] && r.world == ing.world
      && r.tracks.Keys == tracks.Keys + {newId} && r.tracks[newId] == ing.track
      && (forall id :: id in tracks && id != newId ==> r.tracks[id] == tracks[id])
    ensures r.outcome.Failed? ==>
      && r.tracks == tracks
      && r.world == StorageDelete(mode, ing.track, ing.world, faults).world
      && r.outcome.cause == (if ing.error.Some? then ProcessingFailed(ing.error.value) else CommitFailed)
  {
    if ing.error.None? && commitSucceeds then
      UploadResult(Committed(newId), tracks[newId := ing.track], ing.world)
    else
      var cleaned := StorageDelete(mode, ing.track, ing.world, faults);
      var cause := if ing.error.Some? then ProcessingFailed(ing.error.value) else CommitFailed;
      UploadResult(Failed(cause), tracks, cleaned.world)
  }

  /**
   The `stream` route: a missing track is a 404, otherwise the "mp3" variant, which
   serves the stream when the track has one and the original otherwise.
   */
  function StreamRoute(mode: string, tracks: map<nat, Track>, id: nat, world: World): (r: Response)
    ensures id !in tracks ==> r == Abort404
    ensures id in tracks ==> r == ChainResponse(mode, tracks[id], "mp3", world)
    ensures id in tracks ==>
      var t, b := tracks[id], IngestBackend(mode);
      Resolved(mode, t, "mp3") ==
        if Has(t, b, Stream) then Some(Stream) else if Has(t, b, Original) then Some(Original) else None
  {
    if id !in tracks then Abort404
    else
      ShortChain(tracks[id], IngestBackend(mode), Chain(IngestBackend(mode), "mp3"));
      GetFileStreamResponse(mode, tracks[id], "mp3", world)
  }

  /** The role a preview falls back to: the original in postgres mode, the stream otherwise. */
  function PreviewFallback(mode: string): Role
  {
    if IngestBackend(mode) == Postgres then Original else Stream
  }

  /**
   The `preview` route: a missing track is a 404, otherwise the "preview" variant,
   which serves the preview when the track has one and the fallback otherwise.
   */
  function PreviewRoute(mode: string, tracks: map<nat, Track>, id: nat, world: World): (r: Response)
    ensures id !in tracks ==> r == Abort404
    ensures id in tracks ==> r == ChainResponse(mode, tracks[id], "preview", world)
    ensures id in tracks ==>
      var t, b := tracks[id], IngestBackend(mode);
      Resolved(mode, t, "preview") ==
        if Has(t, b, Preview) then Some(Preview)
        else if Has(t, b, PreviewFallback(mode)) then Some(PreviewFallback(mode)) else None
  {
    if id !in tracks then Abort404
    else
      ShortChain(tracks[id], IngestBackend(mode), Chain(IngestBackend(mode), "preview"));
      GetFileStreamResponse(mode, tracks[id], "preview", world)
  }

  /**
   An allowed upload that decodes, encodes and writes without raising is committed
   when the commit succeeds.
   */
  lemma UploadCommits(cfg: Config.Settings, tracks: map<nat, Track>, world: World, faults: Faults, codec: Transcoder,
                      ids: Uuids, newId: nat, owner: nat, form: UploadForm)
    requires AllowedFile(form.filename, cfg.allowed)
    requires Decode(form.secured, form.data, codec).Some?
    requires Encodable(cfg, Decode(form.secured, form.data, codec).value, codec)
    requires WritesSucceed(WriteLocators(cfg, owner, ids, Extension(form.secured).value), faults)
    ensures Upload(cfg, tracks, world, faults, codec, ids, newId, owner, form, true).outcome == Committed(newId)
  {
  }

  /**
   Under the base configuration an executable, whatever the case of its extension, is
   turned away: the upload changes no track and touches no storage.
   */
  lemma DefaultsRejectExecutable(folder: string, tracks: map<nat, Track>, world: World, faults: Faults,
                                 codec: Transcoder, ids: Uuids, newId: nat, owner: nat, form: UploadForm,
                                 commitSucceeds: bool, stem: string, ext: string)
    requires form.filename == stem + "." + ext && '.' !in ext && Lower(ext) == "exe"
    ensures Upload(Config.Defaults(folder), tracks, world, faults, codec, ids, newId, owner, form, commitSucceeds)
            == UploadResult(Rejected, tracks, world)
  {
    ExtensionOfDotted(stem, ext);
  }
}
