/**
 The persisted records the core acts on: tracks with their nine nullable locator
 columns (three per storage mode), users, and the rows of the relation tables.
 Database ids and timestamps other than those the operations read are left out.
 */
module Models {
  import opened Base
  import Config

  datatype Track = Track(
    id: nat,
    ownerId: nat,
    title: string,
    description: string,
    duration: int,
    mimeType: Option<string>,
    originalFilename: Option<string>,
    isPublic: bool,
    // local mode: file paths
    filePath: Option<string>,
    mp3Path: Option<string>,
    previewPath: Option<string>,
    // postgres mode: the bytes themselves
    originalFile: Option<Bytes>,
    mp3File: Option<Bytes>,
    previewFile: Option<Bytes>,
    // s3 mode: object keys
    s3Key: Option<string>,
    s3Mp3Key: Option<string>,
    s3PreviewKey: Option<string>)

  predicate NoPaths(t: Track)
  {
    t.filePath.None? && t.mp3Path.None? && t.previewPath.None?
  }

  predicate NoBlobs(t: Track)
  {
    t.originalFile.None? && t.mp3File.None? && t.previewFile.None?
  }

  predicate NoKeys(t: Track)
  {
    t.s3Key.None? && t.s3Mp3Key.None? && t.s3PreviewKey.None?
  }

  /** None of the nine locator columns is set. */
  predicate NoLocators(t: Track)
  {
    NoPaths(t) && NoBlobs(t) && NoKeys(t)
  }

  /** The nine locator columns of two track states agree. */
  predicate SameLocators(t: Track, u: Track)
  {
    && t.filePath == u.filePath && t.mp3Path == u.mp3Path && t.previewPath == u.previewPath
    && t.originalFile == u.originalFile && t.mp3File == u.mp3File && t.previewFile == u.previewFile
    && t.s3Key == u.s3Key && t.s3Mp3Key == u.s3Mp3Key && t.s3PreviewKey == u.s3PreviewKey
  }

  /** A track as the upload route constructs it, with the column defaults applied at flush. */
  function NewTrack(id: nat, ownerId: nat, title: string, description: string): (t: Track)
    ensures t.id == id && t.ownerId == ownerId && t.title == title
    ensures t.duration == 0 && t.mimeType == Some(Config.MpegMime) && t.isPublic
    ensures t.originalFilename.None?
    ensures NoLocators(t)
  {
    Track(id, ownerId, title, description, 0, Some(Config.MpegMime), None, true,
          None, None, None, None, None, None, None, None, None)
  }

  datatype User = User(
    username: string,
    email: string,
    passwordHash: string,
    bio: string,
    avatarFilename: Option<string>,
    avatarData: Option<Bytes>)

  /** A row of `follows`; the table has no uniqueness constraint on the pair. */
  datatype FollowRow = FollowRow(follower: nat, followed: nat)

  /** A row of `favorites`; the table has no uniqueness constraint on the pair. */
  datatype FavoriteRow = FavoriteRow(user: nat, track: nat)

  /** A row of `likes`; both columns together form the primary key. */
  datatype LikeRow = LikeRow(user: nat, track: nat)

  datatype Playlist = Playlist(owner: nat, title: string, description: string)

  /** A row of `playlist_tracks`; no uniqueness constraint on (playlist, track). */
  datatype PlaylistTrackRow = PlaylistTrackRow(playlist: nat, track: nat, order: int)

  /** A new `playlist_tracks` row, with the column default for its order. */
  function NewPlaylistTrack(playlist: nat, track: nat): (r: PlaylistTrackRow)
    ensures r.playlist == playlist && r.track == track && r.order == 0
  {
    PlaylistTrackRow(playlist, track, 0)
  }
}
