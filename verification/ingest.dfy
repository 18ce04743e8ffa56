/**
 Ingestion of one uploaded track (`process_track_upload`, utils.py): decode once,
 record duration and file name, encode the stream and preview variants, then write
 the three variants to the active storage and record their locators.

 Decoding and MP3 encoding are the `Transcoder`'s uninterpreted functions over an
 abstract decoded segment; each may fail. The uuids drawn are parameters.
 */
module Ingest {
  import opened Base
  import opened Text
  import opened Models
  import opened Storage
  import opened Naming
  import Config

  /** Decoded audio: one abstract sample per millisecond, as pydub's `len()` and slicing see it. */
  datatype Segment = Segment(ms: seq<int>)

  /** `audio[:n]`: the leading `n` milliseconds, clamped to the segment. */
  function Head(a: Segment, n: nat): (h: Segment)
    ensures |h.ms| == Min(n, |a.ms|)
    ensures h.ms <= a.ms
    ensures |a.ms| <= n ==> h == a
  {
    Segment(a.ms[..Min(n, |a.ms|)])
  }

  /** `int(duration_ms / 1000)`: whole seconds, truncated. */
  function DurationSeconds(ms: nat): (s: nat)
    ensures s * 1000 <= ms < s * 1000 + 1000
  {
    ms / 1000
  }

  /**
   The audio library: decoding bytes in a given format, and exporting a segment as
   MP3 at a bitrate. `None` stands for the exception either may raise.
   */
  datatype Transcoder = Transcoder(
    decode: (Bytes, string) -> Option<Segment>,
    exportMp3: (Segment, string) -> Option<Bytes>)

  /** The values of successive `uuid.uuid4().hex` calls. */
  datatype Uuids = Uuids(first: string, second: string, third: string)

  predicate WellFormedUuids(ids: Uuids)
  {
    IsUuidHex(ids.first) && IsUuidHex(ids.second) && IsUuidHex(ids.third)
  }

  datatype IngestError =
    | NoExtension          // `rsplit(".", 1)[1]` raises IndexError
    | DecodeFailed
    | EncodeFailed
    | WriteFailed(locator: string)

  /** The track as the call leaves it, the storage, and the exception raised, if any. */
  datatype Ingested = Ingested(track: Track, world: World, error: Option<IngestError>)

  /** Exactly the three locator columns of backend `b` are set. */
  predicate StoredIn(t: Track, b: Backend)
  {
    match b
    case Postgres =>
      t.originalFile.Some? && t.mp3File.Some? && t.previewFile.Some? && NoPaths(t) && NoKeys(t)
    case S3 =>
      t.s3Key.Some? && t.s3Mp3Key.Some? && t.s3PreviewKey.Some? && NoPaths(t) && NoBlobs(t)
    case Local =>
      t.filePath.Some? && t.mp3Path.Some? && t.previewPath.Some? && NoKeys(t) && NoBlobs(t)
  }

  /** The object-store writes, in the order the source performs them. */
  function S3Puts(owner: nat, hex: string, ext: string, orig: Bytes, mp3: Bytes, preview: Bytes): seq<Put<StoredObject>>
  {
    [ Put(OriginalKey(owner, hex, ext), StoredObject(orig, "audio/" + ext)),
      Put(StreamKey(owner, hex), StoredObject(mp3, Config.MpegMime)),
      Put(PreviewKey(owner, hex), StoredObject(preview, Config.MpegMime)) ]
  }

  /** The file writes, in the order the source performs them, each under its own uuid. */
  function LocalPuts(folder: string, owner: nat, ids: Uuids, ext: string, orig: Bytes, mp3: Bytes, preview: Bytes): seq<Put<Bytes>>
  {
    [ Put(LocalPath(folder, owner, ids.first, OriginalLeaf(ext)), orig),
      Put(LocalPath(folder, owner, ids.second, StreamLeaf), mp3),
      Put(LocalPath(folder, owner, ids.third, PreviewLeaf), preview) ]
  }

  /** The locators the storage step writes, in order; postgres writes none. */
  function WriteLocators(cfg: Config.Settings, owner: nat, ids: Uuids, ext: string): seq<string>
  {
    match IngestBackend(cfg.storageMode)
    case Postgres => []
    case S3 => [OriginalKey(owner, ids.first, ext), StreamKey(owner, ids.first), PreviewKey(owner, ids.first)]
    case Local =>
      [ LocalPath(cfg.uploadFolder, owner, ids.first, OriginalLeaf(ext)),
        LocalPath(cfg.uploadFolder, owner, ids.second, StreamLeaf),
        LocalPath(cfg.uploadFolder, owner, ids.third, PreviewLeaf) ]
  }

  /** The s3 puts are made under the s3 write locators, in order. */
  lemma S3PutsUnderLocators(cfg: Config.Settings, owner: nat, ids: Uuids, ext: string,
                            orig: Bytes, mp3: Bytes, preview: Bytes)
    requires IngestBackend(cfg.storageMode) == S3
    ensures var puts, locators := S3Puts(owner, ids.first, ext, orig, mp3, preview), WriteLocators(cfg, owner, ids, ext);
      |puts| == |locators| && forall i :: 0 <= i < |puts| ==> puts[i].key == locators[i]
  {
  }

  /** The local writes are made under the local write locators, in order. */
  lemma LocalPutsUnderLocators(cfg: Config.Settings, owner: nat, ids: Uuids, ext: string,
                               orig: Bytes, mp3: Bytes, preview: Bytes)
    requires IngestBackend(cfg.storageMode) == Local
    ensures var puts, locators := LocalPuts(cfg.uploadFolder, owner, ids, ext, orig, mp3, preview),
                                  WriteLocators(cfg, owner, ids, ext);
      |puts| == |locators| && forall i :: 0 <= i < |puts| ==> puts[i].key == locators[i]
  {
  }

  /** None of `locators` raises when written. */
  predicate WritesSucceed(locators: seq<string>, faults: Faults)
  {
    forall i :: 0 <= i < |locators| ==> locators[i] !in faults.failingWrites
  }

  lemma S3PutsDistinct(owner: nat, hex: string, ext: string, orig: Bytes, mp3: Bytes, preview: Bytes)
    ensures DistinctKeys(S3Puts(owner, hex, ext, orig, mp3, preview))
  {
    KeysDistinct(owner, hex, ext);
  }

  lemma LocalPutsDistinct(folder: string, owner: nat, ids: Uuids, ext: string, orig: Bytes, mp3: Bytes, preview: Bytes)
    requires WellFormedUuids(ids)
    ensures DistinctKeys(LocalPuts(folder, owner, ids, ext, orig, mp3, preview))
  {
    PathsDistinct(folder, owner, ids.first, ids.second, ids.third, ext);
  }

  /**
   The storage step: postgres assigns the three blob columns; s3 and local write the
   three variants in order and assign the three locators only once all have been
   written, together with the MIME type.
   */
  function StoreVariants(cfg: Config.Settings, t: Track, ext: string, orig: Bytes, mp3: Bytes, preview: Bytes,
                         ids: Uuids, world: World, faults: Faults): (r: Ingested)
    ensures r.error.None? ==> r.track.mimeType == Some(Config.MpegMime)
    ensures r.error.Some? ==> r.track == t && r.error.value.WriteFailed?
    ensures r.error.None? && NoLocators(t) ==> StoredIn(r.track, IngestBackend(cfg.storageMode))
    ensures IngestBackend(cfg.storageMode) != S3 ==> r.world.bucket == world.bucket
    ensures IngestBackend(cfg.storageMode) != Local ==> r.world.fs == world.fs
    ensures IngestBackend(cfg.storageMode) == Postgres ==> r.error.None?
    // The step succeeds exactly when none of its writes raises, and it names the one that did.
    ensures r.error.None? <==> WritesSucceed(WriteLocators(cfg, t.ownerId, ids, ext), faults)
    ensures r.error.Some? ==> r.error.value.locator in WriteLocators(cfg, t.ownerId, ids, ext)
                              && r.error.value.locator in faults.failingWrites
  {
    match IngestBackend(cfg.storageMode)
    case Postgres =>
      var t' := t.(originalFile := Some(orig), mp3File := Some(mp3), previewFile := Some(preview));
      Ingested(t'.(mimeType := Some(Config.MpegMime)), world, None)
    case S3 => PutVariants(cfg, t, ext, orig, mp3, preview, ids, world, faults)
    case Local => WriteVariants(cfg, t, ext, orig, mp3, preview, ids, world, faults)
  }

  /** The s3 branch of the storage step: three puts under one uuid. */
  function PutVariants(cfg: Config.Settings, t: Track, ext: string, orig: Bytes, mp3: Bytes, preview: Bytes,
                       ids: Uuids, world: World, faults: Faults): (r: Ingested)
    requires IngestBackend(cfg.storageMode) == S3
    ensures r.error.None? ==> r.track.mimeType == Some(Config.MpegMime)
    ensures r.error.Some? ==> r.track == t && r.error.value.WriteFailed?
    ensures r.error.None? && NoLocators(t) ==> StoredIn(r.track, S3)
    ensures r.world.fs == world.fs
    ensures r.error.None? <==> WritesSucceed(WriteLocators(cfg, t.ownerId, ids, ext), faults)
    ensures r.error.Some? ==> r.error.value.locator in WriteLocators(cfg, t.ownerId, ids, ext)
                              && r.error.value.locator in faults.failingWrites
  {
    var puts := S3Puts(t.ownerId, ids.first, ext, orig, mp3, preview);
    var run := WriteEach(world.bucket, puts, faults.failingWrites);
    S3PutsUnderLocators(cfg, t.ownerId, ids, ext, orig, mp3, preview);
    WriteOutcome(world.bucket, puts, faults.failingWrites, WriteLocators(cfg, t.ownerId, ids, ext));
    var w := world.(bucket := run.store);
    if run.done < 3 then Ingested(t, w, Some(WriteFailed(puts[run.done].key)))
    else
      var t' := t.(s3Key := Some(puts[0].key), s3Mp3Key := Some(puts[1].key), s3PreviewKey := Some(puts[2].key));
      Ingested(t'.(mimeType := Some(Config.MpegMime)), w, None)
  }

  /** The local branch of the storage step: three files, one uuid each. */
  function WriteVariants(cfg: Config.Settings, t: Track, ext: string, orig: Bytes, mp3: Bytes, preview: Bytes,
                         ids: Uuids, world: World, faults: Faults): (r: Ingested)
    requires IngestBackend(cfg.storageMode) == Local
    ensures r.error.None? ==> r.track.mimeType == Some(Config.MpegMime)
    ensures r.error.Some? ==> r.track == t && r.error.value.WriteFailed?
    ensures r.error.None? && NoLocators(t) ==> StoredIn(r.track, Local)
    ensures r.world.bucket == world.bucket
    ensures r.error.None? <==> WritesSucceed(WriteLocators(cfg, t.ownerId, ids, ext), faults)
    ensures r.error.Some? ==> r.error.value.locator in WriteLocators(cfg, t.ownerId, ids, ext)
                              && r.error.value.locator in faults.failingWrites
  {
    var puts := LocalPuts(cfg.uploadFolder, t.ownerId, ids, ext, orig, mp3, preview);
    var run := WriteEach(world.fs, puts, faults.failingWrites);
    LocalPutsUnderLocators(cfg, t.ownerId, ids, ext, orig, mp3, preview);
    WriteOutcome(world.fs, puts, faults.failingWrites, WriteLocators(cfg, t.ownerId, ids, ext));
    var w := world.(fs := run.store);
    if run.done < 3 then Ingested(t, w, Some(WriteFailed(puts[run.done].key)))
    else
      var t' := t.(filePath := Some(puts[0].key), mp3Path := Some(puts[1].key), previewPath := Some(puts[2].key));
      Ingested(t'.(mimeType := Some(Config.MpegMime)), w, None)
  }

  /** The track once the upload has been decoded: duration and file name recorded. */
  function Decoded(track: Track, secured: string, audio: Segment): Track
  {
    track.(duration := DurationSeconds(|audio.ms|), originalFilename := Some(secured))
  }

  /** The decoded upload: absent when the name has no extension or decoding raises. */
  function Decode(secured: string, data: Bytes, codec: Transcoder): Option<Segment>
  {
    match Extension(secured)
    case None => None
    case Some(ext) => codec.decode(data, ext)
  }

  /** Both MP3 exports of `audio`, the whole track and its leading clip, succeed. */
  predicate Encodable(cfg: Config.Settings, audio: Segment, codec: Transcoder)
  {
    codec.exportMp3(audio, cfg.bitrate).Some? && codec.exportMp3(Head(audio, cfg.previewSeconds * 1000), cfg.bitrate).Some?
  }

  /**
   `process_track_upload(track, file_storage, app)`. `secured` is the file name after
   `secure_filename`, `data` the uploaded bytes.
   */
  function ProcessTrackUpload(cfg: Config.Settings, track: Track, secured: string, data: Bytes,
                              codec: Transcoder, ids: Uuids, world: World, faults: Faults): (r: Ingested)
    // On success exactly the active backend's three locators are set, with the MIME type and file name.
    ensures r.error.None? && NoLocators(track) ==> StoredIn(r.track, IngestBackend(cfg.storageMode))
    ensures r.error.None? ==> r.track.mimeType == Some(Config.MpegMime) && r.track.originalFilename == Some(secured)
    // On failure no locator column has changed.
    ensures r.error.Some? ==> SameLocators(r.track, track) && r.track.mimeType == track.mimeType
    // Failures before the storage step touch neither the track nor the storage.
    ensures r.error == Some(NoExtension) <==> '.' !in secured
    ensures r.error == Some(NoExtension) || r.error == Some(DecodeFailed) ==> r.track == track && r.world == world
    // Both exports run before any write, so an encode failure leaves the storage alone.
    ensures r.error == Some(EncodeFailed) ==> r.world == world
    // Which step raises, if any.
    ensures r.error == Some(DecodeFailed) <==> '.' in secured && Decode(secured, data, codec).None?
    ensures r.error == Some(EncodeFailed) <==>
      Decode(secured, data, codec).Some? && !Encodable(cfg, Decode(secured, data, codec).value, codec)
    ensures r.error.None? <==>
      && Decode(secured, data, codec).Some? && Encodable(cfg, Decode(secured, data, codec).value, codec)
      && WritesSucceed(WriteLocators(cfg, track.ownerId, ids, Extension(secured).value), faults)
    ensures r.error.Some? && r.error.value.WriteFailed? ==>
      && Extension(secured).Some?
      && r.error.value.locator in WriteLocators(cfg, track.ownerId, ids, Extension(secured).value)
      && r.error.value.locator in faults.failingWrites
    // Only the active backend's store is written.
    ensures IngestBackend(cfg.storageMode) != S3 ==> r.world.bucket == world.bucket
    ensures IngestBackend(cfg.storageMode) != Local ==> r.world.fs == world.fs
    ensures r.error.Some? && r.error.value.WriteFailed? ==> IngestBackend(cfg.storageMode) != Postgres
    // Nothing but ingestion fields of the track changes.
    ensures r.track.id == track.id && r.track.ownerId == track.ownerId && r.track.title == track.title
  {
    match Extension(secured)
    case None => Ingested(track, world, Some(NoExtension))
    case Some(ext) =>
      match codec.decode(data, ext)
      case None => Ingested(track, world, Some(DecodeFailed))
      case Some(audio) => EncodeAndStore(cfg, Decoded(track, secured, audio), ext, data, audio, codec, ids, world, faults)
  }

  /** The steps after decoding: the two exports, then the storage step. */
  function EncodeAndStore(cfg: Config.Settings, t: Track, ext: string, data: Bytes, audio: Segment,
                          codec: Transcoder, ids: Uuids, world: World, faults: Faults): (r: Ingested)
    ensures r.error.None? && NoLocators(t) ==> StoredIn(r.track, IngestBackend(cfg.storageMode))
    ensures r.error.None? ==> r.track.mimeType == Some(Config.MpegMime)
    ensures r.error.Some? ==> r.track == t
    ensures r.error == Some(EncodeFailed) <==> !Encodable(cfg, audio, codec)
    ensures r.error == Some(EncodeFailed) ==> r.world == world
    ensures r.error.None? <==> Encodable(cfg, audio, codec) && WritesSucceed(WriteLocators(cfg, t.ownerId, ids, ext), faults)
    ensures r.error.Some? ==> r.error == Some(EncodeFailed) || r.error.value.WriteFailed?
    ensures r.error.Some? && r.error.value.WriteFailed? ==>
      && r.error.value.locator in WriteLocators(cfg, t.ownerId, ids, ext)
      && r.error.value.locator in faults.failingWrites
      && IngestBackend(cfg.storageMode) != Postgres
    ensures IngestBackend(cfg.storageMode) != S3 ==> r.world.bucket == world.bucket
    ensures IngestBackend(cfg.storageMode) != Local ==> r.world.fs == world.fs
  {
    match codec.exportMp3(audio, cfg.bitrate)
    case None => Ingested(t, world, Some(EncodeFailed))
    case Some(mp3) =>
      match codec.exportMp3(Head(audio, cfg.previewSeconds * 1000), cfg.bitrate)
      case None => Ingested(t, world, Some(EncodeFailed))
      case Some(preview) => StoreVariants(cfg, t, ext, data, mp3, preview, ids, world, faults)
  }
}
