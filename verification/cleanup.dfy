/**
 Cleanup of a track's stored variants (`storage_delete`, utils.py). It sees only the
 locators already recorded on the track, dispatches on the mode differently from
 ingestion (anything but "local" and "s3" is treated as postgres), and swallows every
 exception: one raised part-way skips the remaining removals and is only logged.
 */
module Cleanup {
  import opened Base
  import opened Models
  import opened Storage

  /** `[k for k in candidates if k]`. */
  function Truthy(candidates: seq<Option<string>>): (r: seq<string>)
    ensures forall x :: x in r <==> Some(x) in candidates && |x| > 0
    ensures |r| <= |candidates|
  {
    if |candidates| == 0 then []
    else if Present(candidates[0]) then [candidates[0].value] + Truthy(candidates[1..])
    else
      assert forall x :: Some(x) in candidates <==> Some(x) == candidates[0] || Some(x) in candidates[1..];
      Truthy(candidates[1..])
  }

  /**
   The paths local cleanup visits. The fourth candidate is
   `getattr(track, "avatar_filename", None)`; a track has no such attribute, so it is
   always None.
   */
  function RecordedPaths(t: Track): (r: seq<string>)
    ensures forall p :: p in r <==> |p| > 0 && (t.filePath == Some(p) || t.mp3Path == Some(p) || t.previewPath == Some(p))
  {
    Truthy([t.filePath, t.mp3Path, t.previewPath, None])
  }

  /** `[k for k in (s3_key, s3_mp3_key, s3_preview_key) if k]`. */
  function RecordedKeys(t: Track): (r: seq<string>)
    ensures |r| <= 3
    ensures forall k :: k in r <==> |k| > 0 && (t.s3Key == Some(k) || t.s3Mp3Key == Some(k) || t.s3PreviewKey == Some(k))
  {
    Truthy([t.s3Key, t.s3Mp3Key, t.s3PreviewKey])
  }

  /** A track with no locator columns set gives cleanup nothing to visit. */
  lemma NothingRecorded(t: Track)
    requires NoKeys(t) && NoPaths(t)
    ensures RecordedKeys(t) == [] && RecordedPaths(t) == []
  {
    var none: Option<string> := None;
    assert Truthy([none]) == [] by { assert [none][1..] == []; }
    assert Truthy([none, none]) == [] by { assert [none, none][1..] == [none]; }
    assert Truthy([none, none, none]) == [] by { assert [none, none, none][1..] == [none, none]; }
    assert Truthy([none, none, none, none]) == [] by { assert [none, none, none, none][1..] == [none, none, none]; }
  }

  /** Three non-empty keys are visited in column order. */
  lemma KeysRecorded(t: Track, a: string, b: string, c: string)
    requires t.s3Key == Some(a) && t.s3Mp3Key == Some(b) && t.s3PreviewKey == Some(c)
    requires |a| > 0 && |b| > 0 && |c| > 0
    ensures RecordedKeys(t) == [a, b, c]
  {
    assert Truthy([Some(c)]) == [c] by { assert [Some(c)][1..] == []; }
    assert Truthy([Some(b), Some(c)]) == [b, c] by { assert [Some(b), Some(c)][1..] == [Some(c)]; }
    assert Truthy([Some(a), Some(b), Some(c)]) == [a, b, c] by {
      assert [Some(a), Some(b), Some(c)][1..] == [Some(b), Some(c)];
    }
  }

  /** Three non-empty paths are visited in column order. */
  lemma PathsRecorded(t: Track, a: string, b: string, c: string)
    requires t.filePath == Some(a) && t.mp3Path == Some(b) && t.previewPath == Some(c)
    requires |a| > 0 && |b| > 0 && |c| > 0
    ensures RecordedPaths(t) == [a, b, c]
  {
    var none: Option<string> := None;
    assert Truthy([none]) == [] by { assert [none][1..] == []; }
    assert Truthy([Some(c), none]) == [c] by { assert [Some(c), none][1..] == [none]; }
    assert Truthy([Some(b), Some(c), none]) == [b, c] by { assert [Some(b), Some(c), none][1..] == [Some(c), none]; }
    assert Truthy([Some(a), Some(b), Some(c), none]) == [a, b, c] by {
      assert [Some(a), Some(b), Some(c), none][1..] == [Some(b), Some(c), none];
    }
  }

  datatype Cleaned = Cleaned(track: Track, world: World)

  /** `storage_delete(track, app)`; it never raises. */
  function StorageDelete(mode: string, t: Track, world: World, faults: Faults): (r: Cleaned)
    // Only locators recorded on the track are removed, and nothing is written.
    ensures forall p :: p in world.fs && p !in RecordedPaths(t) ==> p in r.world.fs
    ensures forall k :: k in world.bucket && k !in RecordedKeys(t) ==> k in r.world.bucket
    ensures forall p :: p in r.world.fs ==> p in world.fs && r.world.fs[p] == world.fs[p]
    ensures forall k :: k in r.world.bucket ==> k in world.bucket && r.world.bucket[k] == world.bucket[k]
    // Each mode touches only its own storage.
    ensures CleanupBackend(mode) != Local ==> r.world.fs == world.fs
    ensures CleanupBackend(mode) != S3 ==> r.world.bucket == world.bucket
    ensures CleanupBackend(mode) == Postgres ==> NoBlobs(r.track) && SameFieldsBesideBlobs(r.track, t)
    ensures CleanupBackend(mode) != Postgres ==> r.track == t
    // Without a failing removal every recorded locator of the mode is gone.
    ensures (CleanupBackend(mode) == Local && forall p :: p in RecordedPaths(t) ==> p !in faults.failingRemoves)
      ==> forall p :: p in RecordedPaths(t) ==> p !in r.world.fs
    ensures (CleanupBackend(mode) == S3 && forall k :: k in RecordedKeys(t) ==> k !in faults.failingRemoves)
      ==> forall k :: k in RecordedKeys(t) ==> k !in r.world.bucket
  {
    match CleanupBackend(mode)
    case Local =>
      var run := RemoveEach(world.fs, RecordedPaths(t), faults.failingRemoves, true);
      Cleaned(t, world.(fs := run.store))
    case S3 =>
      var run := RemoveEach(world.bucket, RecordedKeys(t), faults.failingRemoves, false);
      Cleaned(t, world.(bucket := run.store))
    case Postgres =>
      Cleaned(t.(originalFile := None, mp3File := None, previewFile := None), world)
  }

  /** Every column of the two tracks other than the three blob columns agrees. */
  predicate SameFieldsBesideBlobs(t: Track, u: Track)
  {
    t.(originalFile := None, mp3File := None, previewFile := None)
      == u.(originalFile := None, mp3File := None, previewFile := None)
  }

  /**
   An exception part-way through local cleanup ends it: when the removal of the `j`-th
   recorded path raises (its file exists) after the earlier removals could not raise,
   exactly the files before it are gone and no later file is touched.
   */
  lemma FailingRemoveSkipsTheRest(mode: string, t: Track, world: World, faults: Faults, j: nat)
    requires CleanupBackend(mode) == Local
    requires j < |RecordedPaths(t)|
    requires RecordedPaths(t)[j] in world.fs && RecordedPaths(t)[j] in faults.failingRemoves
    requires forall i :: 0 <= i < j ==> RecordedPaths(t)[i] !in faults.failingRemoves
    ensures var after := StorageDelete(mode, t, world, faults).world;
      && after.fs.Keys == world.fs.Keys - (set i | 0 <= i < j :: RecordedPaths(t)[i])
      && after.bucket == world.bucket
  {
    RemoveStopsAt(world.fs, RecordedPaths(t), faults.failingRemoves, true, j);
  }

  /**
   The same in s3 mode, where every recorded key is deleted whether or not the object
   exists: a deletion that raises at key `j` leaves every object from `j` on in place.
   */
  lemma FailingDeleteSkipsTheRest(mode: string, t: Track, world: World, faults: Faults, j: nat)
    requires CleanupBackend(mode) == S3
    requires j < |RecordedKeys(t)| && RecordedKeys(t)[j] in faults.failingRemoves
    requires forall i :: 0 <= i < j ==> RecordedKeys(t)[i] !in faults.failingRemoves
    ensures var after := StorageDelete(mode, t, world, faults).world;
      && after.bucket.Keys == world.bucket.Keys - (set i | 0 <= i < j :: RecordedKeys(t)[i])
      && after.fs == world.fs
  {
    RemoveStopsAt(world.bucket, RecordedKeys(t), faults.failingRemoves, false, j);
  }

  /**
   Deleting twice removes nothing more than deleting once, whatever raises: the second
   run stops where the first did.
   */
  lemma StorageDeleteIdempotent(mode: string, t: Track, world: World, faults: Faults)
    ensures var once := StorageDelete(mode, t, world, faults);
            StorageDelete(mode, once.track, once.world, faults).world == once.world
  {
    match CleanupBackend(mode)
    case Local => RemoveEachIdempotent(world.fs, RecordedPaths(t), faults.failingRemoves, true);
    case S3 => RemoveEachIdempotent(world.bucket, RecordedKeys(t), faults.failingRemoves, false);
    case Postgres =>
  }
}
