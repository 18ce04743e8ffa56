/**
 Retrieval of a stored variant (`get_file_stream_response`, utils.py): pick a locator
 column from the requested variant with a per-mode fallback, then fetch what it
 locates. The definition follows the source's branches; `Chain` is an independent
 statement of the fallback order, and the contract of `GetFileStreamResponse`
 connects the two.
 */
module Retrieval {
  import opened Base
  import opened Text
  import opened Models
  import opened Storage
  import Config

  datatype Role = Original | Stream | Preview

  /** What the route hands back: bytes to send, a 404, nothing at all, or an exception. */
  datatype Response =
    | Send(body: Bytes, mimetype: string, downloadName: Option<string>)
    | Abort404
    | NoResponse       // the function falls off its end and returns None
    | Raised           // the object store raises for a key it does not hold

  /** `value or default` for a nullable string. */
  function OrDefault(o: Option<string>, default: string): string
  {
    if Present(o) then o.value else default
  }

  /** `os.path.basename`: the text after the last '/'. */
  function Basename(path: string): string
  {
    match AfterLast(path, '/')
    case None => path
    case Some(leaf) => leaf
  }

  /** The object-store key column for a role. */
  function KeyOf(t: Track, role: Role): Option<string>
  {
    match role
    case Original => t.s3Key
    case Stream => t.s3Mp3Key
    case Preview => t.s3PreviewKey
  }

  /** The file-path column for a role. */
  function PathOf(t: Track, role: Role): Option<string>
  {
    match role
    case Original => t.filePath
    case Stream => t.mp3Path
    case Preview => t.previewPath
  }

  /** The blob column for a role. */
  function BlobOf(t: Track, role: Role): Option<Bytes>
  {
    match role
    case Original => t.originalFile
    case Stream => t.mp3File
    case Preview => t.previewFile
  }

  /** Whether the column for `role` under backend `b` is truthy. */
  predicate Has(t: Track, b: Backend, role: Role)
  {
    match b
    case Postgres => Present(BlobOf(t, role))
    case S3 => Present(KeyOf(t, role))
    case Local => Present(PathOf(t, role))
  }

  /**
   The fallback order per backend and requested variant. "mp3" tries the stream, then
   the original. "preview" tries the preview, then the stream (s3, local) or the
   original (postgres). Any other variant is the original alone in s3 and local; in
   postgres every variant ends with the original.
   */
  function Chain(b: Backend, variant: string): (c: seq<Role>)
    ensures 0 < |c| <= 2
    ensures c[|c| - 1] == Original || (b != Postgres && variant == "preview")
    // In s3 and local mode a preview request never reaches the original.
    ensures b != Postgres && variant == "preview" ==> Original !in c
  {
    if variant == "mp3" then [Stream, Original]
    else if variant == "preview" then (if b == Postgres then [Preview, Original] else [Preview, Stream])
    else [Original]
  }

  /** The first role of `chain` whose column is truthy. */
  function FirstPresent(t: Track, b: Backend, chain: seq<Role>): (r: Option<Role>)
    ensures r.Some? ==> r.value in chain && Has(t, b, r.value)
    ensures r.None? <==> forall i :: 0 <= i < |chain| ==> !Has(t, b, chain[i])
    // Every role earlier in the chain than the one chosen has a falsy column.
    ensures r.Some? ==> exists i :: 0 <= i < |chain| && chain[i] == r.value
                                    && forall j :: 0 <= j < i ==> !Has(t, b, chain[j])
  {
    if |chain| == 0 then None
    else if Has(t, b, chain[0]) then Some(chain[0])
    else
      var r := FirstPresent(t, b, chain[1..]);
      if r.Some? then
        var i :| 0 <= i < |chain[1..]| && chain[1..][i] == r.value
                 && forall j :: 0 <= j < i ==> !Has(t, b, chain[1..][j]);
        assert chain[i + 1] == r.value;
        assert forall j :: 0 < j < i + 1 ==> chain[j] == chain[1..][j - 1];
        r
      else r
  }

  /** `FirstPresent` on a chain of one or two roles, spelled out. */
  lemma ShortChain(t: Track, b: Backend, c: seq<Role>)
    requires 0 < |c| <= 2
    ensures FirstPresent(t, b, c) ==
      if Has(t, b, c[0]) then Some(c[0])
      else if |c| == 2 && Has(t, b, c[1]) then Some(c[1])
      else None
  {
    if |c| == 2 {
      assert c[1..] == [c[1]];
      assert c[1..][1..] == [];
    } else {
      assert c[1..] == [];
    }
  }

  /** The role a request resolves to under the chain. */
  function Resolved(mode: string, t: Track, variant: string): Option<Role>
  {
    var b := IngestBackend(mode);
    FirstPresent(t, b, Chain(b, variant))
  }

  /** Postgres mode: the response for a chosen blob column. */
  function SendBlob(t: Track, role: Role): (r: Response)
    requires Present(BlobOf(t, role))
    // The role's own blob is sent; the encoded variants go out as MPEG audio.
    ensures r.Send? && r.body == BlobOf(t, role).value
    ensures role != Original ==> r.mimetype == Config.MpegMime
    ensures role == Original ==> r.downloadName == t.originalFilename
  {
    match role
    case Stream => Send(t.mp3File.value, Config.MpegMime, Some(t.title + ".mp3"))
    case Preview => Send(t.previewFile.value, Config.MpegMime, Some(t.title + "_preview.mp3"))
    case Original =>
      Send(t.originalFile.value, OrDefault(t.mimeType, "application/octet-stream"), t.originalFilename)
  }

  /** S3 mode: fetch an object, raising when the bucket does not hold it. */
  function FetchObject(t: Track, key: string, world: World): Response
  {
    if key in world.bucket then
      Send(world.bucket[key].body, world.bucket[key].contentType, Some(t.title))
    else Raised
  }

  /** Local mode: send a file, or 404 when it does not exist. */
  function SendFile(t: Track, path: string, world: World): Response
  {
    if path in world.fs then
      Send(world.fs[path], OrDefault(t.mimeType, Config.MpegMime), Some(Basename(path)))
    else Abort404
  }

  /**
   The response the fallback chain calls for: the first truthy role of the variant's
   chain, fetched from the active storage; when the chain finds nothing, s3 and local
   answer 404 and postgres answers nothing.
   */
  function ChainResponse(mode: string, t: Track, variant: string, world: World): Response
  {
    match Resolved(mode, t, variant)
    case None => if IngestBackend(mode) == Postgres then NoResponse else Abort404
    case Some(role) =>
      match IngestBackend(mode)
      case Postgres => SendBlob(t, role)
      case S3 => FetchObject(t, KeyOf(t, role).value, world)
      case Local => SendFile(t, PathOf(t, role).value, world)
  }

  /** `get_file_stream_response(track, variant, app)`, branch by branch. */
  function GetFileStreamResponse(mode: string, t: Track, variant: string, world: World): (r: Response)
    ensures r == ChainResponse(mode, t, variant, world)
  {
    ShortChain(t, IngestBackend(mode), Chain(IngestBackend(mode), variant));
    match IngestBackend(mode)
    case Postgres =>
      if variant == "mp3" && Present(t.mp3File) then SendBlob(t, Stream)
      else if variant == "preview" && Present(t.previewFile) then SendBlob(t, Preview)
      else if Present(t.originalFile) then SendBlob(t, Original)
      else NoResponse
    case S3 =>
      var key :=
        if variant == "mp3" then Or(t.s3Mp3Key, t.s3Key)
        else if variant == "preview" then Or(t.s3PreviewKey, t.s3Mp3Key)
        else t.s3Key;
      if !Present(key) then Abort404 else FetchObject(t, key.value, world)
    case Local =>
      var path :=
        if variant == "mp3" then Or(t.mp3Path, t.filePath)
        else if variant == "preview" then Or(t.previewPath, t.mp3Path)
        else t.filePath;
      if !Present(path) then Abort404 else SendFile(t, path.value, world)
  }

  /** In s3 and local mode a preview request never falls back to the original. */
  lemma PreviewNeverServesOriginal(mode: string, t: Track)
    requires IngestBackend(mode) != Postgres
    ensures Resolved(mode, t, "preview") != Some(Original)
  {
  }

  /** In postgres mode a preview request never falls back to the stream blob. */
  lemma PostgresPreviewNeverServesStream(mode: string, t: Track)
    requires IngestBackend(mode) == Postgres
    ensures Resolved(mode, t, "preview") != Some(Stream)
  {
  }

  /** Postgres mode with no truthy blob returns nothing rather than a 404, for every variant. */
  lemma PostgresWithoutBlobsReturnsNothing(mode: string, t: Track, variant: string, world: World)
    requires IngestBackend(mode) == Postgres
    requires !Present(t.originalFile) && !Present(t.mp3File) && !Present(t.previewFile)
    ensures GetFileStreamResponse(mode, t, variant, world) == NoResponse
  {
  }

  /** In s3 and local mode, a variant other than "mp3" or "preview" is served only from the original. */
  lemma OtherVariantsServeOriginalOnly(mode: string, t: Track, variant: string, world: World)
    requires IngestBackend(mode) != Postgres
    requires variant != "mp3" && variant != "preview"
    ensures Resolved(mode, t, variant).Some? <==> Has(t, IngestBackend(mode), Original)
    ensures Resolved(mode, t, variant).Some? ==> Resolved(mode, t, variant) == Some(Original)
  {
  }
}
