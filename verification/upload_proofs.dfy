/**
 Properties of ingestion and of the upload flow that relate several operations:
 what a successful ingestion stores, reading it back, the preview clip, the blobs a
 partial failure leaves behind, and the cleanup after a failed commit.

 The codec facts every lemma assumes are the same four: the secured name has
 extension `ext`, the upload decodes to `audio`, and the two exports yield `mp3`
 and `preview`.
 */
module UploadProofs {
  import opened Base
  import opened Text
  import opened Models
  import opened Storage
  import opened Naming
  import opened Ingest
  import opened Retrieval
  import opened Cleanup
  import opened App
  import Config

  /** The codec produced `ext`, `audio`, `mp3` and `preview` for this upload. */
  predicate Encodes(cfg: Config.Settings, secured: string, data: Bytes, codec: Transcoder,
                    ext: string, audio: Segment, mp3: Bytes, preview: Bytes)
  {
    && Extension(secured) == Some(ext)
    && codec.decode(data, ext) == Some(audio)
    && codec.exportMp3(audio, cfg.bitrate) == Some(mp3)
    && codec.exportMp3(Head(audio, cfg.previewSeconds * 1000), cfg.bitrate) == Some(preview)
  }

  /** With the codec facts, processing reduces to the storage step on the decoded track. */
  lemma ProcessReducesToStore(cfg: Config.Settings, track: Track, secured: string, data: Bytes, codec: Transcoder,
                              ids: Uuids, world: World, faults: Faults,
                              ext: string, audio: Segment, mp3: Bytes, preview: Bytes)
    requires Encodes(cfg, secured, data, codec, ext, audio, mp3, preview)
    ensures ProcessTrackUpload(cfg, track, secured, data, codec, ids, world, faults)
            == StoreVariants(cfg, Decoded(track, secured, audio), ext, data, mp3, preview, ids, world, faults)
  {
  }

  /**
   Once the upload decodes, the duration recorded is the decoded length truncated to
   whole seconds and the file name is the secured name, however the call ends.
   */
  lemma IngestRecordsDuration(cfg: Config.Settings, track: Track, secured: string, data: Bytes, codec: Transcoder,
                              ids: Uuids, world: World, faults: Faults, ext: string, audio: Segment)
    requires Extension(secured) == Some(ext) && codec.decode(data, ext) == Some(audio)
    ensures var r := ProcessTrackUpload(cfg, track, secured, data, codec, ids, world, faults);
      && r.track.duration == |audio.ms| / 1000
      && r.track.duration * 1000 <= |audio.ms| < r.track.duration * 1000 + 1000
      && r.track.originalFilename == Some(secured)
  {
  }

  /** The s3 branch of the storage step, in terms of the run of three puts. */
  lemma StoreS3(cfg: Config.Settings, t: Track, ext: string, data: Bytes, mp3: Bytes, preview: Bytes,
                ids: Uuids, world: World, faults: Faults)
    requires IngestBackend(cfg.storageMode) == S3
    ensures var puts := S3Puts(t.ownerId, ids.first, ext, data, mp3, preview);
      var run := WriteEach(world.bucket, puts, faults.failingWrites);
      var r := StoreVariants(cfg, t, ext, data, mp3, preview, ids, world, faults);
      && r.world == world.(bucket := run.store)
      && (run.done < 3 ==> r.track == t && r.error == Some(WriteFailed(puts[run.done].key)))
      && (run.done == 3 ==>
            && r.error.None?
            && r.track.s3Key == Some(puts[0].key) && r.track.s3Mp3Key == Some(puts[1].key)
            && r.track.s3PreviewKey == Some(puts[2].key)
            && SameFieldsBesideKeys(r.track, t.(mimeType := Some(Config.MpegMime))))
  {
  }

  /** The local branch of the storage step, in terms of the run of three writes. */
  lemma StoreLocal(cfg: Config.Settings, t: Track, ext: string, data: Bytes, mp3: Bytes, preview: Bytes,
                   ids: Uuids, world: World, faults: Faults)
    requires IngestBackend(cfg.storageMode) == Local
    ensures var puts := LocalPuts(cfg.uploadFolder, t.ownerId, ids, ext, data, mp3, preview);
      var run := WriteEach(world.fs, puts, faults.failingWrites);
      var r := StoreVariants(cfg, t, ext, data, mp3, preview, ids, world, faults);
      && r.world == world.(fs := run.store)
      && (run.done < 3 ==> r.track == t && r.error == Some(WriteFailed(puts[run.done].key)))
      && (run.done == 3 ==>
            && r.error.None?
            && r.track.filePath == Some(puts[0].key) && r.track.mp3Path == Some(puts[1].key)
            && r.track.previewPath == Some(puts[2].key)
            && SameFieldsBesidePaths(r.track, t.(mimeType := Some(Config.MpegMime))))
  {
  }

  predicate SameFieldsBesideKeys(t: Track, u: Track)
  {
    t.(s3Key := None, s3Mp3Key := None, s3PreviewKey := None) == u.(s3Key := None, s3Mp3Key := None, s3PreviewKey := None)
  }

  predicate SameFieldsBesidePaths(t: Track, u: Track)
  {
    t.(filePath := None, mp3Path := None, previewPath := None) == u.(filePath := None, mp3Path := None, previewPath := None)
  }

  /**
   The variants sit where the active backend's layout puts them: postgres keeps them in
   the blob columns; s3 stores them under the three keys of one uuid, the original with
   an "audio/<ext>" content type; local writes them to three files, one uuid each.
   */
  predicate VariantsStored(cfg: Config.Settings, r: Ingested, owner: nat, ids: Uuids, ext: string,
                           data: Bytes, mp3: Bytes, preview: Bytes)
  {
    match IngestBackend(cfg.storageMode)
    case Postgres =>
      r.track.originalFile == Some(data) && r.track.mp3File == Some(mp3) && r.track.previewFile == Some(preview)
    case S3 =>
      var (k0, k1, k2) := (OriginalKey(owner, ids.first, ext), StreamKey(owner, ids.first), PreviewKey(owner, ids.first));
      && r.track.s3Key == Some(k0) && r.track.s3Mp3Key == Some(k1) && r.track.s3PreviewKey == Some(k2)
      && k0 in r.world.bucket && r.world.bucket[k0] == StoredObject(data, "audio/" + ext)
      && k1 in r.world.bucket && r.world.bucket[k1] == StoredObject(mp3, Config.MpegMime)
      && k2 in r.world.bucket && r.world.bucket[k2] == StoredObject(preview, Config.MpegMime)
    case Local =>
      var p0 := LocalPath(cfg.uploadFolder, owner, ids.first, OriginalLeaf(ext));
      var p1 := LocalPath(cfg.uploadFolder, owner, ids.second, StreamLeaf);
      var p2 := LocalPath(cfg.uploadFolder, owner, ids.third, PreviewLeaf);
      && r.track.filePath == Some(p0) && r.track.mp3Path == Some(p1) && r.track.previewPath == Some(p2)
      && p0 in r.world.fs && r.world.fs[p0] == data
      && p1 in r.world.fs && r.world.fs[p1] == mp3
      && p2 in r.world.fs && r.world.fs[p2] == preview
  }

  /** A storage step that raised nothing leaves every variant where the layout puts it. */
  lemma StoreContents(cfg: Config.Settings, t: Track, ext: string, data: Bytes, mp3: Bytes, preview: Bytes,
                      ids: Uuids, world: World, faults: Faults)
    requires WellFormedUuids(ids)
    requires StoreVariants(cfg, t, ext, data, mp3, preview, ids, world, faults).error.None?
    ensures VariantsStored(cfg, StoreVariants(cfg, t, ext, data, mp3, preview, ids, world, faults),
                           t.ownerId, ids, ext, data, mp3, preview)
  {
    match IngestBackend(cfg.storageMode)
    case Postgres =>
    case S3 =>
      var puts := S3Puts(t.ownerId, ids.first, ext, data, mp3, preview);
      S3PutsDistinct(t.ownerId, ids.first, ext, data, mp3, preview);
      WriteEachStoresValues(world.bucket, puts, faults.failingWrites);
      StoreS3(cfg, t, ext, data, mp3, preview, ids, world, faults);
      var run := WriteEach(world.bucket, puts, faults.failingWrites);
      assert run.done == 3;
      assert run.store[puts[0].key] == puts[0].value;
      assert run.store[puts[1].key] == puts[1].value;
      assert run.store[puts[2].key] == puts[2].value;
    case Local =>
      var puts := LocalPuts(cfg.uploadFolder, t.ownerId, ids, ext, data, mp3, preview);
      LocalPutsDistinct(cfg.uploadFolder, t.ownerId, ids, ext, data, mp3, preview);
      WriteEachStoresValues(world.fs, puts, faults.failingWrites);
      StoreLocal(cfg, t, ext, data, mp3, preview, ids, world, faults);
      var run := WriteEach(world.fs, puts, faults.failingWrites);
      assert run.done == 3;
      assert run.store[puts[0].key] == puts[0].value;
      assert run.store[puts[1].key] == puts[1].value;
      assert run.store[puts[2].key] == puts[2].value;
  }

  /**
   A successful ingestion stores the uploaded bytes, the stream and the preview under
   the three recorded locators of the active backend, laid out as the source names them.
   */
  lemma IngestStoresVariants(cfg: Config.Settings, track: Track, secured: string, data: Bytes, codec: Transcoder,
                             ids: Uuids, world: World, faults: Faults,
                             ext: string, audio: Segment, mp3: Bytes, preview: Bytes)
    requires Encodes(cfg, secured, data, codec, ext, audio, mp3, preview)
    requires WellFormedUuids(ids)
    requires ProcessTrackUpload(cfg, track, secured, data, codec, ids, world, faults).error.None?
    ensures VariantsStored(cfg, ProcessTrackUpload(cfg, track, secured, data, codec, ids, world, faults),
                           track.ownerId, ids, ext, data, mp3, preview)
  {
    ProcessReducesToStore(cfg, track, secured, data, codec, ids, world, faults, ext, audio, mp3, preview);
    StoreContents(cfg, Decoded(track, secured, audio), ext, data, mp3, preview, ids, world, faults);
  }

  /** The bytes held as the preview, wherever the active backend's layout keeps them. */
  function StoredPreview(cfg: Config.Settings, r: Ingested, owner: nat, ids: Uuids): Option<Bytes>
  {
    match IngestBackend(cfg.storageMode)
    case Postgres => r.track.previewFile
    case S3 =>
      var k := PreviewKey(owner, ids.first);
      if k in r.world.bucket then Some(r.world.bucket[k].body) else None
    case Local =>
      var p := LocalPath(cfg.uploadFolder, owner, ids.third, PreviewLeaf);
      if p in r.world.fs then Some(r.world.fs[p]) else None
  }

  /**
   After a successful ingestion the stored preview is the MP3 export of the leading
   min(preview length, track length) milliseconds of the decoded audio.
   */
  lemma PreviewIsLeadingClip(cfg: Config.Settings, track: Track, secured: string, data: Bytes, codec: Transcoder,
                             ids: Uuids, world: World, faults: Faults, ext: string, audio: Segment)
    requires Extension(secured) == Some(ext) && codec.decode(data, ext) == Some(audio)
    requires WellFormedUuids(ids)
    requires ProcessTrackUpload(cfg, track, secured, data, codec, ids, world, faults).error.None?
    ensures StoredPreview(cfg, ProcessTrackUpload(cfg, track, secured, data, codec, ids, world, faults), track.ownerId, ids)
            == codec.exportMp3(Segment(audio.ms[..Min(cfg.previewSeconds * 1000, |audio.ms|)]), cfg.bitrate)
  {
    var mp3 := codec.exportMp3(audio, cfg.bitrate).value;
    var preview := codec.exportMp3(Head(audio, cfg.previewSeconds * 1000), cfg.bitrate).value;
    IngestStoresVariants(cfg, track, secured, data, codec, ids, world, faults, ext, audio, mp3, preview);
  }

  /**
   Round trip in s3 mode: after a successful ingestion, "mp3" serves the stream,
   "preview" the preview and any other variant the original, each with the content
   type it was put with.
   */
  lemma RoundTripS3(cfg: Config.Settings, track: Track, secured: string, data: Bytes, codec: Transcoder,
                    ids: Uuids, world: World, faults: Faults,
                    ext: string, audio: Segment, mp3: Bytes, preview: Bytes, variant: string)
    requires Encodes(cfg, secured, data, codec, ext, audio, mp3, preview)
    requires WellFormedUuids(ids) && NoLocators(track)
    requires cfg.storageMode == "s3"
    requires ProcessTrackUpload(cfg, track, secured, data, codec, ids, world, faults).error.None?
    ensures var r := ProcessTrackUpload(cfg, track, secured, data, codec, ids, world, faults);
      GetFileStreamResponse("s3", r.track, variant, r.world) ==
        if variant == "mp3" then Send(mp3, Config.MpegMime, Some(track.title))
        else if variant == "preview" then Send(preview, Config.MpegMime, Some(track.title))
        else Send(data, "audio/" + ext, Some(track.title))
  {
    IngestStoresVariants(cfg, track, secured, data, codec, ids, world, faults, ext, audio, mp3, preview);
  }

  /**
   Round trip in local mode (and every unknown mode): each variant is served from
   the file written for it, named by its base name.
   */
  lemma RoundTripLocal(cfg: Config.Settings, track: Track, secured: string, data: Bytes, codec: Transcoder,
                       ids: Uuids, world: World, faults: Faults,
                       ext: string, audio: Segment, mp3: Bytes, preview: Bytes, variant: string)
    requires Encodes(cfg, secured, data, codec, ext, audio, mp3, preview)
    requires WellFormedUuids(ids) && NoLocators(track)
    requires IngestBackend(cfg.storageMode) == Local
    requires ProcessTrackUpload(cfg, track, secured, data, codec, ids, world, faults).error.None?
    ensures var r := ProcessTrackUpload(cfg, track, secured, data, codec, ids, world, faults);
      var resp := GetFileStreamResponse(cfg.storageMode, r.track, variant, r.world);
      && resp.Send? && resp.mimetype == Config.MpegMime
      && resp.body == (if variant == "mp3" then mp3 else if variant == "preview" then preview else data)
  {
    IngestStoresVariants(cfg, track, secured, data, codec, ids, world, faults, ext, audio, mp3, preview);
  }

  /**
   Round trip in postgres mode, where an empty blob counts as missing: with non-empty
   encodings each variant is served from its own blob.
   */
  lemma RoundTripPostgres(cfg: Config.Settings, track: Track, secured: string, data: Bytes, codec: Transcoder,
                          ids: Uuids, world: World, faults: Faults,
                          ext: string, audio: Segment, mp3: Bytes, preview: Bytes, variant: string)
    requires Encodes(cfg, secured, data, codec, ext, audio, mp3, preview)
    requires cfg.storageMode == "postgres"
    requires |data| > 0 && |mp3| > 0 && |preview| > 0
    ensures var r := ProcessTrackUpload(cfg, track, secured, data, codec, ids, world, faults);
      var resp := GetFileStreamResponse("postgres", r.track, variant, r.world);
      && r.error.None?
      && resp.Send?
      && resp.body == (if variant == "mp3" then mp3 else if variant == "preview" then preview else data)
  {
  }

  /** The track an allowed upload is ingested into, once decoded. */
  function UploadedTrack(newId: nat, owner: nat, form: UploadForm, audio: Segment): Track
  {
    Decoded(NewTrack(newId, owner, TrackTitle(form), form.description), form.secured, audio)
  }

  /**
   An allowed upload whose codec steps succeed comes down to the storage step followed
   by either the commit or the rollback-and-cleanup path.
   */
  lemma UploadReduces(cfg: Config.Settings, tracks: map<nat, Track>, world: World, faults: Faults,
                      codec: Transcoder, ids: Uuids, newId: nat, owner: nat, form: UploadForm,
                      commitSucceeds: bool, ext: string, audio: Segment, mp3: Bytes, preview: Bytes)
    requires AllowedFile(form.filename, cfg.allowed)
    requires Encodes(cfg, form.secured, form.data, codec, ext, audio, mp3, preview)
    ensures var ing := StoreVariants(cfg, UploadedTrack(newId, owner, form, audio), ext, form.data, mp3, preview,
                                     ids, world, faults);
      Upload(cfg, tracks, world, faults, codec, ids, newId, owner, form, commitSucceeds) ==
        if ing.error.None? && commitSucceeds then UploadResult(Committed(newId), tracks[newId := ing.track], ing.world)
        else
          var cause := if ing.error.Some? then ProcessingFailed(ing.error.value) else CommitFailed;
          UploadResult(Failed(cause), tracks, StorageDelete(cfg.storageMode, ing.track, ing.world, faults).world)
  {
    var track := NewTrack(newId, owner, TrackTitle(form), form.description);
    ProcessReducesToStore(cfg, track, form.secured, form.data, codec, ids, world, faults, ext, audio, mp3, preview);
  }

  /** In s3 mode a put that raises after `j` successful ones leaves those `j` objects behind any cleanup. */
  lemma S3StoreFailsAt(cfg: Config.Settings, t: Track, ext: string, data: Bytes, mp3: Bytes, preview: Bytes,
                       ids: Uuids, world: World, faults: Faults, j: nat)
    requires cfg.storageMode == "s3" && NoLocators(t)
    requires j < 3
    requires var puts := S3Puts(t.ownerId, ids.first, ext, data, mp3, preview);
      (forall i :: 0 <= i < j ==> puts[i].key !in faults.failingWrites) && puts[j].key in faults.failingWrites
    ensures var puts := S3Puts(t.ownerId, ids.first, ext, data, mp3, preview);
      var ing := StoreVariants(cfg, t, ext, data, mp3, preview, ids, world, faults);
      var after := StorageDelete(cfg.storageMode, ing.track, ing.world, faults).world;
      && ing.error == Some(WriteFailed(puts[j].key))
      && forall i :: 0 <= i < j ==> puts[i].key in after.bucket && after.bucket[puts[i].key] == puts[i].value
  {
    var puts := S3Puts(t.ownerId, ids.first, ext, data, mp3, preview);
    S3PutsDistinct(t.ownerId, ids.first, ext, data, mp3, preview);
    WriteEachStoresValues(world.bucket, puts, faults.failingWrites);
    StoreS3(cfg, t, ext, data, mp3, preview, ids, world, faults);
    var run := WriteEach(world.bucket, puts, faults.failingWrites);
    assert run.done == j;
    NothingRecorded(t);
    var ing := StoreVariants(cfg, t, ext, data, mp3, preview, ids, world, faults);
    assert ing.track == t && ing.world.bucket == run.store;
    var after := StorageDelete(cfg.storageMode, ing.track, ing.world, faults).world;
    assert after.bucket == run.store by {
      assert CleanupBackend(cfg.storageMode) == S3;
      assert RemoveEach(run.store, [], faults.failingRemoves, false).store == run.store;
    }
    forall i | 0 <= i < j
      ensures puts[i].key in after.bucket && after.bucket[puts[i].key] == puts[i].value
    {
    }
  }

  /** The same for local files. */
  lemma LocalStoreFailsAt(cfg: Config.Settings, t: Track, ext: string, data: Bytes, mp3: Bytes, preview: Bytes,
                          ids: Uuids, world: World, faults: Faults, j: nat)
    requires IngestBackend(cfg.storageMode) == Local && WellFormedUuids(ids) && NoLocators(t)
    requires j < 3
    requires var puts := LocalPuts(cfg.uploadFolder, t.ownerId, ids, ext, data, mp3, preview);
      (forall i :: 0 <= i < j ==> puts[i].key !in faults.failingWrites) && puts[j].key in faults.failingWrites
    ensures var puts := LocalPuts(cfg.uploadFolder, t.ownerId, ids, ext, data, mp3, preview);
      var ing := StoreVariants(cfg, t, ext, data, mp3, preview, ids, world, faults);
      var after := StorageDelete(cfg.storageMode, ing.track, ing.world, faults).world;
      && ing.error == Some(WriteFailed(puts[j].key))
      && forall i :: 0 <= i < j ==> puts[i].key in after.fs && after.fs[puts[i].key] == puts[i].value
  {
    var puts := LocalPuts(cfg.uploadFolder, t.ownerId, ids, ext, data, mp3, preview);
    LocalPutsDistinct(cfg.uploadFolder, t.ownerId, ids, ext, data, mp3, preview);
    WriteEachStoresValues(world.fs, puts, faults.failingWrites);
    StoreLocal(cfg, t, ext, data, mp3, preview, ids, world, faults);
    var run := WriteEach(world.fs, puts, faults.failingWrites);
    assert run.done == j;
    NothingRecorded(t);
    var ing := StoreVariants(cfg, t, ext, data, mp3, preview, ids, world, faults);
    var after := StorageDelete(cfg.storageMode, ing.track, ing.world, faults).world;
    forall i | 0 <= i < j
      ensures puts[i].key in after.fs && after.fs[puts[i].key] == puts[i].value
    {
      assert puts[..j][i] == puts[i];
      assert puts[i].key in KeysOf(puts[..j]);
      assert run.store[puts[i].key] == puts[i].value;
    }
  }

  lemma ThreeKeys<V>(puts: seq<Put<V>>)
    requires |puts| == 3
    ensures KeySeq(puts) == [puts[0].key, puts[1].key, puts[2].key]
  {
  }

  /** In s3 mode, cleanup after a complete storage step of fresh keys restores the bucket. */
  lemma S3StoreThenCleanup(cfg: Config.Settings, t: Track, ext: string, data: Bytes, mp3: Bytes, preview: Bytes,
                           ids: Uuids, world: World, faults: Faults)
    requires cfg.storageMode == "s3"
    requires var puts := S3Puts(t.ownerId, ids.first, ext, data, mp3, preview);
      forall i :: 0 <= i < 3 ==> puts[i].key !in faults.failingWrites && puts[i].key !in faults.failingRemoves
                                 && puts[i].key !in world.bucket
    ensures var ing := StoreVariants(cfg, t, ext, data, mp3, preview, ids, world, faults);
      && ing.error.None?
      && StorageDelete(cfg.storageMode, ing.track, ing.world, faults).world == world
  {
    var puts := S3Puts(t.ownerId, ids.first, ext, data, mp3, preview);
    StoreS3(cfg, t, ext, data, mp3, preview, ids, world, faults);
    var ing := StoreVariants(cfg, t, ext, data, mp3, preview, ids, world, faults);
    KeysRecorded(ing.track, puts[0].key, puts[1].key, puts[2].key);
    ThreeKeys(puts);
    RemoveUndoesWrite(world.bucket, puts, faults.failingWrites, RecordedKeys(ing.track), faults.failingRemoves, false);
  }

  /** In local mode, cleanup after a complete storage step of fresh files restores the file system. */
  lemma LocalStoreThenCleanup(cfg: Config.Settings, t: Track, ext: string, data: Bytes, mp3: Bytes, preview: Bytes,
                              ids: Uuids, world: World, faults: Faults)
    requires cfg.storageMode == "local" && WellFormedUuids(ids)
    requires var puts := LocalPuts(cfg.uploadFolder, t.ownerId, ids, ext, data, mp3, preview);
      forall i :: 0 <= i < 3 ==> puts[i].key !in faults.failingWrites && puts[i].key !in faults.failingRemoves
                                 && puts[i].key !in world.fs
    ensures var ing := StoreVariants(cfg, t, ext, data, mp3, preview, ids, world, faults);
      && ing.error.None?
      && StorageDelete(cfg.storageMode, ing.track, ing.world, faults).world == world
  {
    var puts := LocalPuts(cfg.uploadFolder, t.ownerId, ids, ext, data, mp3, preview);
    StoreLocal(cfg, t, ext, data, mp3, preview, ids, world, faults);
    var ing := StoreVariants(cfg, t, ext, data, mp3, preview, ids, world, faults);
    PathsRecorded(ing.track, puts[0].key, puts[1].key, puts[2].key);
    ThreeKeys(puts);
    RemoveUndoesWrite(world.fs, puts, faults.failingWrites, RecordedPaths(ing.track), faults.failingRemoves, true);
  }

  /**
   Orphans in s3 mode: when the put of variant `j` (1 = stream, 2 = preview) raises
   after the earlier ones succeeded, the upload fails, no key was recorded, cleanup
   therefore deletes nothing, and every earlier object stays in the bucket.
   */
  lemma PartialS3WriteOrphans(cfg: Config.Settings, tracks: map<nat, Track>, world: World, faults: Faults,
                              codec: Transcoder, ids: Uuids, newId: nat, owner: nat, form: UploadForm,
                              commitSucceeds: bool, ext: string, audio: Segment, mp3: Bytes, preview: Bytes, j: nat)
    requires AllowedFile(form.filename, cfg.allowed)
    requires Encodes(cfg, form.secured, form.data, codec, ext, audio, mp3, preview)
    requires cfg.storageMode == "s3"
    requires 1 <= j < 3
    requires var puts := S3Puts(owner, ids.first, ext, form.data, mp3, preview);
      (forall i :: 0 <= i < j ==> puts[i].key !in faults.failingWrites) && puts[j].key in faults.failingWrites
    ensures var r := Upload(cfg, tracks, world, faults, codec, ids, newId, owner, form, commitSucceeds);
      var puts := S3Puts(owner, ids.first, ext, form.data, mp3, preview);
      && r.outcome == Failed(ProcessingFailed(WriteFailed(puts[j].key)))
      && forall i :: 0 <= i < j ==> puts[i].key in r.world.bucket && r.world.bucket[puts[i].key] == puts[i].value
  {
    UploadReduces(cfg, tracks, world, faults, codec, ids, newId, owner, form, commitSucceeds, ext, audio, mp3, preview);
    S3StoreFailsAt(cfg, UploadedTrack(newId, owner, form, audio), ext, form.data, mp3, preview, ids, world, faults, j);
  }

  /**
   Orphans in local mode (and every unknown mode): when the write of file `j` raises
   after the earlier ones succeeded, every earlier file stays on disk after cleanup.
   */
  lemma PartialLocalWriteOrphans(cfg: Config.Settings, tracks: map<nat, Track>, world: World, faults: Faults,
                                 codec: Transcoder, ids: Uuids, newId: nat, owner: nat, form: UploadForm,
                                 commitSucceeds: bool, ext: string, audio: Segment, mp3: Bytes, preview: Bytes, j: nat)
    requires AllowedFile(form.filename, cfg.allowed)
    requires Encodes(cfg, form.secured, form.data, codec, ext, audio, mp3, preview)
    requires IngestBackend(cfg.storageMode) == Local && WellFormedUuids(ids)
    requires 1 <= j < 3
    requires var puts := LocalPuts(cfg.uploadFolder, owner, ids, ext, form.data, mp3, preview);
      (forall i :: 0 <= i < j ==> puts[i].key !in faults.failingWrites) && puts[j].key in faults.failingWrites
    ensures var r := Upload(cfg, tracks, world, faults, codec, ids, newId, owner, form, commitSucceeds);
      var puts := LocalPuts(cfg.uploadFolder, owner, ids, ext, form.data, mp3, preview);
      && r.outcome == Failed(ProcessingFailed(WriteFailed(puts[j].key)))
      && forall i :: 0 <= i < j ==> puts[i].key in r.world.fs && r.world.fs[puts[i].key] == puts[i].value
  {
    UploadReduces(cfg, tracks, world, faults, codec, ids, newId, owner, form, commitSucceeds, ext, audio, mp3, preview);
    LocalStoreFailsAt(cfg, UploadedTrack(newId, owner, form, audio), ext, form.data, mp3, preview, ids, world, faults, j);
  }

  /**
   A commit failure after a complete s3 ingestion is undone: cleanup sees the three
   recorded keys and deletes them, so the bucket is as before the upload, provided
   the keys were new and no deletion raises.
   */
  lemma CommitFailureRestoresBucket(cfg: Config.Settings, tracks: map<nat, Track>, world: World, faults: Faults,
                                    codec: Transcoder, ids: Uuids, newId: nat, owner: nat, form: UploadForm,
                                    ext: string, audio: Segment, mp3: Bytes, preview: Bytes)
    requires AllowedFile(form.filename, cfg.allowed)
    requires Encodes(cfg, form.secured, form.data, codec, ext, audio, mp3, preview)
    requires cfg.storageMode == "s3"
    requires var puts := S3Puts(owner, ids.first, ext, form.data, mp3, preview);
      forall i :: 0 <= i < 3 ==> puts[i].key !in faults.failingWrites && puts[i].key !in faults.failingRemoves
                                 && puts[i].key !in world.bucket
    ensures Upload(cfg, tracks, world, faults, codec, ids, newId, owner, form, false)
            == UploadResult(Failed(CommitFailed), tracks, world)
  {
    UploadReduces(cfg, tracks, world, faults, codec, ids, newId, owner, form, false, ext, audio, mp3, preview);
    S3StoreThenCleanup(cfg, UploadedTrack(newId, owner, form, audio), ext, form.data, mp3, preview, ids, world, faults);
  }

  /**
   The same in local mode: a commit failure after a complete ingestion removes the
   three recorded files, so the file system is as before the upload.
   */
  lemma CommitFailureRestoresFiles(cfg: Config.Settings, tracks: map<nat, Track>, world: World, faults: Faults,
                                   codec: Transcoder, ids: Uuids, newId: nat, owner: nat, form: UploadForm,
                                   ext: string, audio: Segment, mp3: Bytes, preview: Bytes)
    requires AllowedFile(form.filename, cfg.allowed)
    requires Encodes(cfg, form.secured, form.data, codec, ext, audio, mp3, preview)
    requires cfg.storageMode == "local" && WellFormedUuids(ids)
    requires var puts := LocalPuts(cfg.uploadFolder, owner, ids, ext, form.data, mp3, preview);
      forall i :: 0 <= i < 3 ==> puts[i].key !in faults.failingWrites && puts[i].key !in faults.failingRemoves
                                 && puts[i].key !in world.fs
    ensures Upload(cfg, tracks, world, faults, codec, ids, newId, owner, form, false)
            == UploadResult(Failed(CommitFailed), tracks, world)
  {
    UploadReduces(cfg, tracks, world, faults, codec, ids, newId, owner, form, false, ext, audio, mp3, preview);
    LocalStoreThenCleanup(cfg, UploadedTrack(newId, owner, form, audio), ext, form.data, mp3, preview, ids, world, faults);
  }

  /** In a mode cleanup reads as postgres, a complete local storage step survives cleanup. */
  lemma LocalStoreSurvivesCleanup(cfg: Config.Settings, t: Track, ext: string, data: Bytes, mp3: Bytes, preview: Bytes,
                                  ids: Uuids, world: World, faults: Faults)
    requires IngestBackend(cfg.storageMode) == Local && CleanupBackend(cfg.storageMode) == Postgres
    requires WellFormedUuids(ids)
    requires var puts := LocalPuts(cfg.uploadFolder, t.ownerId, ids, ext, data, mp3, preview);
      forall i :: 0 <= i < 3 ==> puts[i].key !in faults.failingWrites
    ensures var puts := LocalPuts(cfg.uploadFolder, t.ownerId, ids, ext, data, mp3, preview);
      var ing := StoreVariants(cfg, t, ext, data, mp3, preview, ids, world, faults);
      var after := StorageDelete(cfg.storageMode, ing.track, ing.world, faults).world;
      && ing.error.None?
      && forall i :: 0 <= i < 3 ==> puts[i].key in after.fs && after.fs[puts[i].key] == puts[i].value
  {
    var puts := LocalPuts(cfg.uploadFolder, t.ownerId, ids, ext, data, mp3, preview);
    LocalPutsDistinct(cfg.uploadFolder, t.ownerId, ids, ext, data, mp3, preview);
    WriteEachStoresValues(world.fs, puts, faults.failingWrites);
    StoreLocal(cfg, t, ext, data, mp3, preview, ids, world, faults);
    var run := WriteEach(world.fs, puts, faults.failingWrites);
    assert run.done == 3;
    var ing := StoreVariants(cfg, t, ext, data, mp3, preview, ids, world, faults);
    assert ing.world.fs == run.store;
    var after := StorageDelete(cfg.storageMode, ing.track, ing.world, faults).world;
    assert after.fs == run.store;
    forall i | 0 <= i < 3
      ensures puts[i].key in after.fs && after.fs[puts[i].key] == puts[i].value
    {
      assert puts[..3][i] == puts[i];
      assert puts[i].key in KeysOf(puts[..3]);
    }
  }

  /**
   With a mode name other than "postgres", "s3" and "local", ingestion writes local
   files but cleanup takes the postgres branch: after a failed commit all three files
   stay on disk.
   */
  lemma UnknownModeOrphansOnCommitFailure(cfg: Config.Settings, tracks: map<nat, Track>, world: World, faults: Faults,
                                          codec: Transcoder, ids: Uuids, newId: nat, owner: nat, form: UploadForm,
                                          ext: string, audio: Segment, mp3: Bytes, preview: Bytes)
    requires AllowedFile(form.filename, cfg.allowed)
    requires Encodes(cfg, form.secured, form.data, codec, ext, audio, mp3, preview)
    requires cfg.storageMode !in {"postgres", "s3", "local"} && WellFormedUuids(ids)
    requires var puts := LocalPuts(cfg.uploadFolder, owner, ids, ext, form.data, mp3, preview);
      forall i :: 0 <= i < 3 ==> puts[i].key !in faults.failingWrites
    ensures var r := Upload(cfg, tracks, world, faults, codec, ids, newId, owner, form, false);
      var puts := LocalPuts(cfg.uploadFolder, owner, ids, ext, form.data, mp3, preview);
      && r.outcome == Failed(CommitFailed)
      && forall i :: 0 <= i < 3 ==> puts[i].key in r.world.fs && r.world.fs[puts[i].key] == puts[i].value
  {
    UploadReduces(cfg, tracks, world, faults, codec, ids, newId, owner, form, false, ext, audio, mp3, preview);
    LocalStoreSurvivesCleanup(cfg, UploadedTrack(newId, owner, form, audio), ext, form.data, mp3, preview, ids, world, faults);
  }

  /**
   End to end: once an upload is committed, the stream route serves the encoded
   stream and the preview route the encoded preview of that upload.
   */
  lemma CommittedUploadIsServed(cfg: Config.Settings, tracks: map<nat, Track>, world: World, faults: Faults,
                                codec: Transcoder, ids: Uuids, newId: nat, owner: nat, form: UploadForm,
                                ext: string, audio: Segment, mp3: Bytes, preview: Bytes)
    requires AllowedFile(form.filename, cfg.allowed)
    requires Encodes(cfg, form.secured, form.data, codec, ext, audio, mp3, preview)
    requires WellFormedUuids(ids)
    requires IngestBackend(cfg.storageMode) == Postgres ==> |mp3| > 0 && |preview| > 0
    requires Upload(cfg, tracks, world, faults, codec, ids, newId, owner, form, true).outcome.Committed?
    ensures var r := Upload(cfg, tracks, world, faults, codec, ids, newId, owner, form, true);
      && StreamRoute(cfg.storageMode, r.tracks, newId, r.world).Send?
      && StreamRoute(cfg.storageMode, r.tracks, newId, r.world).body == mp3
      && PreviewRoute(cfg.storageMode, r.tracks, newId, r.world).Send?
      && PreviewRoute(cfg.storageMode, r.tracks, newId, r.world).body == preview
  {
    var t := UploadedTrack(newId, owner, form, audio);
    UploadReduces(cfg, tracks, world, faults, codec, ids, newId, owner, form, true, ext, audio, mp3, preview);
    StoreContents(cfg, t, ext, form.data, mp3, preview, ids, world, faults);
    var ing := StoreVariants(cfg, t, ext, form.data, mp3, preview, ids, world, faults);
    StoredVariantsServed(cfg, ing, owner, ids, ext, form.data, mp3, preview, tracks[newId := ing.track], newId);
  }

  /** A track whose variants sit where the layout puts them is served by both routes. */
  lemma StoredVariantsServed(cfg: Config.Settings, ing: Ingested, owner: nat, ids: Uuids, ext: string,
                             data: Bytes, mp3: Bytes, preview: Bytes, tracks: map<nat, Track>, id: nat)
    requires VariantsStored(cfg, ing, owner, ids, ext, data, mp3, preview)
    requires StoredIn(ing.track, IngestBackend(cfg.storageMode))
    requires IngestBackend(cfg.storageMode) == Postgres ==> |mp3| > 0 && |preview| > 0
    requires id in tracks && tracks[id] == ing.track
    ensures && StreamRoute(cfg.storageMode, tracks, id, ing.world).Send?
            && StreamRoute(cfg.storageMode, tracks, id, ing.world).body == mp3
            && PreviewRoute(cfg.storageMode, tracks, id, ing.world).Send?
            && PreviewRoute(cfg.storageMode, tracks, id, ing.world).body == preview
  {
  }
}
