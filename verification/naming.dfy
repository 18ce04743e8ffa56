/**
 How the core names things: the extension allow-list check on an uploaded file name,
 the object keys and file paths the three stored variants of a track get, and the
 avatar file names.
 */
module Naming {
  import opened Base
  import opened Text

  /** `filename.rsplit(".", 1)[1].lower()`: the lower-cased extension, absent without a dot. */
  function Extension(filename: string): (r: Option<string>)
    ensures r.None? <==> '.' !in filename
    ensures r.Some? ==> '.' !in r.value
    ensures r.Some? ==> exists k :: 0 <= k < |filename| && filename[k] == '.' && '.' !in filename[k + 1..]
                                    && r.value == Lower(filename[k + 1..])
  {
    match AfterLast(filename, '.')
    case None => None
    case Some(e) => Some(Lower(e))
  }

  /** `allowed_file`: the name has a dot and its lower-cased extension is allow-listed. */
  function AllowedFile(filename: string, allowed: set<string>): (ok: bool)
    // The check and ingestion read the same extension from the name.
    ensures ok <==> Extension(filename).Some? && Extension(filename).value in allowed
  {
    '.' in filename && Lower(AfterLast(filename, '.').value) in allowed
  }

  /**
   The allow-list check, stated through the position of the last dot: a name passes
   exactly when some dot has no dot after it and the lower-cased text after that dot
   is allow-listed.
   */
  lemma AllowedFileCharacterization(filename: string, allowed: set<string>)
    ensures AllowedFile(filename, allowed) <==>
      exists k :: 0 <= k < |filename| && filename[k] == '.' && '.' !in filename[k + 1..]
                  && Lower(filename[k + 1..]) in allowed
  {
    if '.' in filename {
      var k := LastIndex(filename, '.').value;
      assert AfterLast(filename, '.') == Some(filename[k + 1..]);
      assert filename[k] == '.' && '.' !in filename[k + 1..];
      forall j | 0 <= j < |filename| && filename[j] == '.' && '.' !in filename[j + 1..]
        ensures j == k
      {
        LastIndexUnique(filename, '.', j);
      }
    }
  }

  /** A name without a dot is always rejected. */
  lemma NoDotRejected(filename: string, allowed: set<string>)
    requires '.' !in filename
    ensures !AllowedFile(filename, allowed)
  {
  }

  /** Lower-casing keeps every dot where it was. */
  lemma LowerKeepsLastDot(s: string)
    ensures LastIndex(Lower(s), '.') == LastIndex(s, '.')
  {
    var l := Lower(s);
    if '.' in s {
      var k := LastIndex(s, '.').value;
      assert l[k] == '.';
      forall j | k < j < |l| ensures l[j] != '.' {
        assert s[k + 1..][j - k - 1] == s[j];
      }
      LastIndexUnique(l, '.', k);
    } else {
      assert forall j :: 0 <= j < |l| ==> l[j] != '.';
      assert '.' !in l;
    }
  }

  /** The check is case-insensitive: names equal up to case are judged alike. */
  lemma AllowedFileIgnoresCase(f: string, g: string, allowed: set<string>)
    requires Lower(f) == Lower(g)
    ensures AllowedFile(f, allowed) <==> AllowedFile(g, allowed)
  {
    AllowedFileOfLower(f, allowed);
    AllowedFileOfLower(g, allowed);
  }

  lemma AllowedFileOfLower(f: string, allowed: set<string>)
    ensures AllowedFile(f, allowed) <==> AllowedFile(Lower(f), allowed)
  {
    ExtensionOfLower(f);
  }

  /** The extension of a lower-cased name is the name's extension. */
  lemma ExtensionOfLower(f: string)
    ensures Extension(Lower(f)) == Extension(f)
  {
    LowerKeepsLastDot(f);
    if '.' in f {
      var l := Lower(f);
      var k := LastIndex(f, '.').value;
      var e := f[k + 1..];
      assert AfterLast(l, '.') == Some(l[k + 1..]);
      assert AfterLast(f, '.') == Some(e);
      LowerSuffix(f, k + 1);
      LowerIdempotent(e);
    }
  }

  /** The extension of "stem.ext" is the lower-cased `ext`, whatever dots the stem holds. */
  lemma ExtensionOfDotted(stem: string, ext: string)
    requires '.' !in ext
    ensures Extension(stem + "." + ext) == Some(Lower(ext))
  {
    var f := stem + "." + ext;
    assert f[|stem|] == '.';
    assert f[|stem| + 1..] == ext;
    LastIndexUnique(f, '.', |stem|);
  }

  /** Any stem followed by a dot and an allow-listed extension is accepted. */
  lemma AllowedExtensionAccepted(stem: string, ext: string, allowed: set<string>)
    requires ext in allowed && '.' !in ext && Lower(ext) == ext
    ensures AllowedFile(stem + "." + ext, allowed)
  {
    var f := stem + "." + ext;
    assert f[|stem|] == '.';
    assert f[|stem| + 1..] == ext;
    AllowedFileCharacterization(f, allowed);
  }

  // ---- storage layout of one ingested track ----

  /** `f"tracks/{owner}/{hex}"`: the common prefix of a track's three object keys. */
  function KeyBase(owner: nat, hex: string): (r: string)
    // The owner id and the uuid can be read back from the key prefix.
    ensures |r| == 8 + |DecimalString(owner)| + |hex|
    ensures r[..7] == "tracks/" && r[|r| - |hex| - 1] == '/' && r[|r| - |hex|..] == hex
    ensures IsDecimal(r[7..|r| - |hex| - 1]) && ParseDecimal(r[7..|r| - |hex| - 1]) == owner
  {
    var d := DecimalString(owner);
    var r := "tracks/" + d + "/" + hex;
    assert r[7..|r| - |hex| - 1] == d;
    DecimalRoundTrip(owner);
    r
  }

  function OriginalKey(owner: nat, hex: string, ext: string): string
  {
    KeyBase(owner, hex) + "/original." + ext
  }

  function StreamKey(owner: nat, hex: string): string
  {
    KeyBase(owner, hex) + "/stream.mp3"
  }

  function PreviewKey(owner: nat, hex: string): string
  {
    KeyBase(owner, hex) + "/preview.mp3"
  }

  /** `Path(folder) / str(owner) / f"{hex}_{leaf}"`, with '/' as the separator. */
  function LocalPath(folder: string, owner: nat, hex: string, leaf: string): (r: string)
    // The file lies in the owner's directory under the upload folder, named by uuid and leaf.
    ensures |r| == |folder| + 3 + |DecimalString(owner)| + |hex| + |leaf|
    ensures r[..|folder| + 1] == folder + "/"
    ensures IsDecimal(r[|folder| + 1..|folder| + 1 + |DecimalString(owner)|])
    ensures ParseDecimal(r[|folder| + 1..|folder| + 1 + |DecimalString(owner)|]) == owner
    ensures r[|r| - |leaf| - |hex| - 2..] == "/" + hex + "_" + leaf
  {
    var d := DecimalString(owner);
    var r := folder + "/" + d + "/" + hex + "_" + leaf;
    assert r[..|folder| + 1] == folder + "/";
    assert r[|folder| + 1..|folder| + 1 + |d|] == d;
    assert r[|r| - |leaf| - |hex| - 2..] == "/" + hex + "_" + leaf;
    DecimalRoundTrip(owner);
    r
  }

  function OriginalLeaf(ext: string): string { "orig." + ext }

  const StreamLeaf: string := "stream.mp3"

  const PreviewLeaf: string := "preview.mp3"

  /** The three object keys of one upload are pairwise distinct. */
  lemma KeysDistinct(owner: nat, hex: string, ext: string)
    ensures OriginalKey(owner, hex, ext) != StreamKey(owner, hex)
    ensures OriginalKey(owner, hex, ext) != PreviewKey(owner, hex)
    ensures StreamKey(owner, hex) != PreviewKey(owner, hex)
  {
    var b := KeyBase(owner, hex);
    assert OriginalKey(owner, hex, ext)[|b| + 1] == 'o';
    assert StreamKey(owner, hex)[|b| + 1] == 's';
    assert PreviewKey(owner, hex)[|b| + 1] == 'p';
  }

  /**
   The three file paths of one upload are pairwise distinct, even if the three
   uuids drawn for them coincide.
   */
  lemma PathsDistinct(folder: string, owner: nat, h1: string, h2: string, h3: string, ext: string)
    requires IsUuidHex(h1) && IsUuidHex(h2) && IsUuidHex(h3)
    ensures LocalPath(folder, owner, h1, OriginalLeaf(ext)) != LocalPath(folder, owner, h2, StreamLeaf)
    ensures LocalPath(folder, owner, h1, OriginalLeaf(ext)) != LocalPath(folder, owner, h3, PreviewLeaf)
    ensures LocalPath(folder, owner, h2, StreamLeaf) != LocalPath(folder, owner, h3, PreviewLeaf)
  {
    var n := |folder + "/" + DecimalString(owner) + "/"| + 32 + 1;
    assert LocalPath(folder, owner, h1, OriginalLeaf(ext))[n] == 'o';
    assert LocalPath(folder, owner, h2, StreamLeaf)[n] == 's';
    assert LocalPath(folder, owner, h3, PreviewLeaf)[n] == 'p';
  }

  /** An object key regrouped at its separators. */
  lemma KeyShape(o: nat, h: string, l: string)
    ensures KeyBase(o, h) + "/" + l == "tracks" + ['/'] + (DecimalString(o) + ['/'] + (h + ['/'] + l))
  {
  }

  /** A local path regrouped after the upload folder. */
  lemma PathShape(folder: string, o: nat, h: string, l: string)
    ensures LocalPath(folder, o, h, l) == (folder + "/") + (DecimalString(o) + ['/'] + (h + ['_'] + l))
  {
  }

  /** The part of an object key after "tracks/": owner, hex and leaf. */
  lemma KeyParts(o1: nat, h1: string, l1: string, o2: nat, h2: string, l2: string)
    requires IsUuidHex(h1) && IsUuidHex(h2)
    requires KeyBase(o1, h1) + "/" + l1 == KeyBase(o2, h2) + "/" + l2
    ensures o1 == o2 && h1 == h2 && l1 == l2
  {
    var d1, d2 := DecimalString(o1), DecimalString(o2);
    KeyShape(o1, h1, l1);
    KeyShape(o2, h2, l2);
    SplitAtSeparator('/', "tracks", d1 + ['/'] + (h1 + ['/'] + l1), "tracks", d2 + ['/'] + (h2 + ['/'] + l2));
    DecimalHasNo('/', o1);
    DecimalHasNo('/', o2);
    SplitAtSeparator('/', d1, h1 + ['/'] + l1, d2, h2 + ['/'] + l2);
    UuidHexHasNo('/', h1);
    UuidHexHasNo('/', h2);
    SplitAtSeparator('/', h1, l1, h2, l2);
    DecimalRoundTrip(o1);
    DecimalRoundTrip(o2);
  }

  /**
   Uploads that drew different (owner, uuid) pairs never share an object key,
   whatever the variants compared.
   */
  lemma KeysOfDifferentUploadsDisjoint(o1: nat, h1: string, l1: string, o2: nat, h2: string, l2: string)
    requires IsUuidHex(h1) && IsUuidHex(h2)
    requires o1 != o2 || h1 != h2
    ensures KeyBase(o1, h1) + "/" + l1 != KeyBase(o2, h2) + "/" + l2
  {
    if KeyBase(o1, h1) + "/" + l1 == KeyBase(o2, h2) + "/" + l2 {
      KeyParts(o1, h1, l1, o2, h2, l2);
    }
  }

  lemma PrefixCancel(p: string, x: string, y: string)
    requires p + x == p + y
    ensures x == y
  {
    assert x == (p + x)[|p|..];
    assert y == (p + y)[|p|..];
  }

  /** Two local paths under one upload folder agree only if owner, uuid and leaf agree. */
  lemma PathParts(folder: string, o1: nat, h1: string, l1: string, o2: nat, h2: string, l2: string)
    requires IsUuidHex(h1) && IsUuidHex(h2)
    requires LocalPath(folder, o1, h1, l1) == LocalPath(folder, o2, h2, l2)
    ensures o1 == o2 && h1 == h2 && l1 == l2
  {
    var d1, d2 := DecimalString(o1), DecimalString(o2);
    var t1, t2 := d1 + ['/'] + (h1 + ['_'] + l1), d2 + ['/'] + (h2 + ['_'] + l2);
    var p := folder + "/";
    PathShape(folder, o1, h1, l1);
    PathShape(folder, o2, h2, l2);
    PrefixCancel(p, t1, t2);
    DecimalHasNo('/', o1);
    DecimalHasNo('/', o2);
    SplitAtSeparator('/', d1, h1 + ['_'] + l1, d2, h2 + ['_'] + l2);
    UuidHexHasNo('_', h1);
    UuidHexHasNo('_', h2);
    SplitAtSeparator('_', h1, l1, h2, l2);
    DecimalRoundTrip(o1);
    DecimalRoundTrip(o2);
  }

  /** Files written for different (owner, uuid) pairs never share a path. */
  lemma PathsOfDifferentUploadsDisjoint(folder: string, o1: nat, h1: string, l1: string, o2: nat, h2: string, l2: string)
    requires IsUuidHex(h1) && IsUuidHex(h2)
    requires o1 != o2 || h1 != h2
    ensures LocalPath(folder, o1, h1, l1) != LocalPath(folder, o2, h2, l2)
  {
    if LocalPath(folder, o1, h1, l1) == LocalPath(folder, o2, h2, l2) {
      PathParts(folder, o1, h1, l1, o2, h2, l2);
    }
  }

  // ---- avatars ----

  /** `f"avatar_{user.id}_{uuid4().hex}.png"`. */
  function AvatarName(userId: nat, hex: string): (r: string)
    // A PNG name from which the user id and the uuid can be read back.
    ensures |r| == 12 + |DecimalString(userId)| + |hex|
    ensures r[..7] == "avatar_" && r[|r| - 4..] == ".png"
    ensures IsDecimal(r[7..7 + |DecimalString(userId)|]) && ParseDecimal(r[7..7 + |DecimalString(userId)|]) == userId
    ensures r[|r| - |hex| - 5..|r| - 4] == "_" + hex
  {
    var d := DecimalString(userId);
    var r := "avatar_" + d + "_" + hex + ".png";
    assert r[7..7 + |d|] == d;
    assert r[|r| - |hex| - 5..|r| - 4] == "_" + hex;
    DecimalRoundTrip(userId);
    r
  }

  /** Avatar names for different (user, uuid) pairs differ. */
  lemma AvatarNamesDistinct(u1: nat, h1: string, u2: nat, h2: string)
    requires IsUuidHex(h1) && IsUuidHex(h2)
    requires u1 != u2 || h1 != h2
    ensures AvatarName(u1, h1) != AvatarName(u2, h2)
  {
    assert h1 == ("_" + h1)[1..] && h2 == ("_" + h2)[1..];
  }
}
