/**
 Storing a user's avatar (`handle_avatar_upload`, utils.py): the naming and the
 field assignment per storage mode. Image decoding and thumbnailing are left to the
 caller, which supplies the PNG bytes; the final commit is not modelled.
 */
module Avatar {
  import opened Base
  import opened Text
  import opened Models
  import opened Storage
  import opened Naming

  datatype AvatarStored = AvatarStored(user: User, world: World, failed: bool)

  /** The object key an avatar gets in s3 mode. */
  function AvatarKey(name: string): string
  {
    "avatars/" + name
  }

  /** The file an avatar gets in local mode: `Path(folder) / "avatars" / name`. */
  function AvatarPath(folder: string, name: string): string
  {
    folder + "/avatars/" + name
  }

  /**
   `handle_avatar_upload(user, file_storage, app)`. Postgres keeps the bytes and the
   bare name on the user; s3 and every other mode write the PNG and record its
   locator. A failing write raises before the user is changed.
   */
  function HandleAvatarUpload(mode: string, folder: string, userId: nat, user: User, png: Bytes, hex: string,
                              world: World, faults: Faults): (r: AvatarStored)
    // Postgres keeps bytes and bare name on the user and never touches storage.
    ensures mode == "postgres" ==>
      && !r.failed && r.world == world
      && r.user.avatarData == Some(png) && r.user.avatarFilename == Some(AvatarName(userId, hex))
    // The other modes leave the bytes column alone and write only their own store.
    ensures mode != "postgres" ==> r.user.avatarData == user.avatarData
    ensures mode == "s3" ==> r.world.fs == world.fs
    ensures mode != "s3" ==> r.world.bucket == world.bucket
    // Only the two avatar columns change, and a failed write changes nothing.
    ensures r.user.(avatarFilename := user.avatarFilename, avatarData := user.avatarData) == user
    ensures r.failed ==> r.user == user && r.world == world
    // s3 puts the PNG under "avatars/" + name; a put that raises is the only failure.
    ensures mode == "s3" ==> (r.failed <==> AvatarKey(AvatarName(userId, hex)) in faults.failingWrites)
    ensures mode == "s3" && !r.failed ==>
      && r.user.avatarFilename == Some(AvatarKey(AvatarName(userId, hex)))
      && r.world.bucket == world.bucket[AvatarKey(AvatarName(userId, hex)) := StoredObject(png, "image/png")]
    // Every other mode writes the file under the upload folder and records its path.
    ensures mode != "postgres" && mode != "s3" ==>
      (r.failed <==> AvatarPath(folder, AvatarName(userId, hex)) in faults.failingWrites)
    ensures mode != "postgres" && mode != "s3" && !r.failed ==>
      && r.user.avatarFilename == Some(AvatarPath(folder, AvatarName(userId, hex)))
      && r.world.fs == world.fs[AvatarPath(folder, AvatarName(userId, hex)) := png]
  {
    var name := AvatarName(userId, hex);
    if mode == "postgres" then
      AvatarStored(user.(avatarData := Some(png), avatarFilename := Some(name)), world, false)
    else if mode == "s3" then
      var key := AvatarKey(name);
      if key in faults.failingWrites then AvatarStored(user, world, true)
      else AvatarStored(user.(avatarFilename := Some(key)),
                        world.(bucket := world.bucket[key := StoredObject(png, "image/png")]), false)
    else
      var path := AvatarPath(folder, name);
      if path in faults.failingWrites then AvatarStored(user, world, true)
      else AvatarStored(user.(avatarFilename := Some(path)), world.(fs := world.fs[path := png]), false)
  }

  /**
   The name recorded on the user locates the stored PNG: in s3 mode the bucket holds
   it under `avatar_filename`, in local mode the file system does, and the name has
   the form "avatar_{id}_{hex}.png" after its directory prefix.
   */
  lemma AvatarLocatorRoundTrip(mode: string, folder: string, userId: nat, user: User, png: Bytes, hex: string,
                               world: World, faults: Faults)
    requires mode != "postgres"
    requires !HandleAvatarUpload(mode, folder, userId, user, png, hex, world, faults).failed
    ensures var r := HandleAvatarUpload(mode, folder, userId, user, png, hex, world, faults);
      var loc := r.user.avatarFilename.value;
      && (mode == "s3" ==> loc in r.world.bucket && r.world.bucket[loc].body == png
                           && loc == "avatars/" + AvatarName(userId, hex))
      && (mode != "s3" ==> loc in r.world.fs && r.world.fs[loc] == png
                           && loc == folder + "/avatars/" + AvatarName(userId, hex))
  {
  }
}
