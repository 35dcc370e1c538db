/**
 * The string logic of the S3 provider (src/storage/provider/s3.ts): the
 * extension taken from `split('.').pop()`, the unique filename built from a
 * UUID, the folder-prefixed object key and the public-URL join.
 */
module S3Naming {
  import opened StorageTypes

  /** `s.split(sep)` for a one-character separator: never empty, and "" splits to [""]. */
  function Split(s: string, sep: char): (parts: seq<string>)
    ensures |parts| >= 1
    decreases |s|
  {
    if s == [] then [[]]
    else
      var rest := Split(s[1..], sep);
      if s[0] == sep then [[]] + rest
      else [[s[0]] + rest[0]] + rest[1..]
  }

  /** `parts.join(sep)` */
  function Join(parts: seq<string>, sep: char): string
    requires |parts| >= 1
  {
    if |parts| == 1 then parts[0] else parts[0] + [sep] + Join(parts[1..], sep)
  }

  /** Splitting and joining back gives the original string, and no part holds the separator. */
  lemma {:induction false} SplitJoin(s: string, sep: char)
    ensures Join(Split(s, sep), sep) == s
    ensures forall i :: 0 <= i < |Split(s, sep)| ==> sep !in Split(s, sep)[i]
    decreases |s|
  {
    if s != [] {
      var rest := Split(s[1..], sep);
      SplitJoin(s[1..], sep);
      assert s == [s[0]] + s[1..];
      if s[0] == sep {
        assert Split(s, sep) == [[]] + rest;
        assert Join([[]] + rest, sep) == [sep] + Join(rest, sep);
      } else {
        JoinGrowsFirstPart(s[0], rest, sep);
        var parts := Split(s, sep);
        forall i | 0 <= i < |parts|
          ensures sep !in parts[i]
        {
          if i > 0 {
            assert parts[i] == rest[i];
          }
        }
      }
    }
  }

  /** Putting a character at the front of the first part puts it at the front
      of the joined string. */
  lemma JoinGrowsFirstPart(c: char, parts: seq<string>, sep: char)
    requires |parts| >= 1
    ensures Join([[c] + parts[0]] + parts[1..], sep) == [c] + Join(parts, sep)
  {
    var grown := [[c] + parts[0]] + parts[1..];
    assert grown[1..] == parts[1..];
  }

  /** A string splits into a single part exactly when it does not hold the separator. */
  lemma {:induction false} SplitSingle(s: string, sep: char)
    ensures |Split(s, sep)| == 1 <==> sep !in s
    ensures sep !in s ==> Split(s, sep) == [s]
    decreases |s|
  {
    if s != [] {
      SplitSingle(s[1..], sep);
      assert s == [s[0]] + s[1..];
    }
  }

  /** The extension `filename.split('.').pop() || ''`: the last '.'-separated
      segment, which is the longest dot-free suffix of the filename. */
  function Extension(filename: string): (ext: string)
    ensures IsLastSegment(filename, ext)
  {
    var parts := Split(filename, '.');
    LastPartIsLastSegment(filename);
    parts[|parts| - 1]
  }

  /** The extension is the longest dot-free suffix of the filename: it has no
      dot, it ends the filename, and it is either the whole filename (which then
      has no dot) or preceded by a dot. */
  predicate IsLastSegment(filename: string, ext: string) {
    && '.' !in ext
    && |ext| <= |filename|
    && filename[|filename| - |ext|..] == ext
    && (|ext| == |filename| ==> '.' !in filename)
    && (|ext| < |filename| ==> filename[|filename| - |ext| - 1] == '.')
  }

  /** The last part of `s.split('.')` is the longest dot-free suffix of `s`. */
  lemma {:induction false} LastPartIsLastSegment(s: string)
    ensures var parts := Split(s, '.'); IsLastSegment(s, parts[|parts| - 1])
    decreases |s|
  {
    if s != [] {
      if s[0] != '.' && '.' !in s[1..] {
        assert '.' !in s by { assert s == [s[0]] + s[1..]; }
        SplitSingle(s, '.');
      } else {
        LastPartIsLastSegment(s[1..]);
        var rest := Split(s[1..], '.');
        var e := rest[|rest| - 1];
        LastPartOfCons(s);
        SegmentBehindOneMore(s, e);
        assert IsLastSegment(s, e);
      }
    }
  }

  /** When `s` starts with a dot or has one after its first character, its
      last part is the last part of its tail. */
  lemma LastPartOfCons(s: string)
    requires s != [] && (s[0] == '.' || '.' in s[1..])
    ensures var parts := Split(s, '.'); var rest := Split(s[1..], '.');
      parts[|parts| - 1] == rest[|rest| - 1]
  {
    var rest := Split(s[1..], '.');
    if s[0] != '.' {
      SplitSingle(s[1..], '.');
      assert |rest| > 1;
    }
  }

  /** A last segment of the tail of `s` is the last segment of `s` too, unless
      it is the whole tail and `s` does not start with a dot. */
  lemma SegmentBehindOneMore(s: string, e: string)
    requires s != [] && IsLastSegment(s[1..], e)
    requires |e| == |s| - 1 ==> s[0] == '.'
    ensures IsLastSegment(s, e)
  {
    var t := s[1..];
    assert s[|s| - |e|..] == t[|t| - |e|..];
    if |e| < |t| {
      assert s[|s| - |e| - 1] == t[|t| - |e| - 1];
    }
  }

  /** There is only one last segment. */
  lemma LastSegmentUnique(filename: string, e1: string, e2: string)
    requires IsLastSegment(filename, e1) && IsLastSegment(filename, e2)
    ensures e1 == e2
  {
  }

  /** The extension of `prefix + '.' + ext` is `ext` whenever `ext` has no dot. */
  lemma ExtensionAfterDot(prefix: string, ext: string)
    requires '.' !in ext
    ensures Extension(prefix + "." + ext) == ext
  {
    var s := prefix + "." + ext;
    assert s[|s| - |ext|..] == ext;
    assert s[|s| - |ext| - 1] == '.';
    LastSegmentUnique(s, Extension(s), ext);
  }

  /** A filename without a dot is its own extension. */
  lemma ExtensionOfDotlessName(filename: string)
    requires '.' !in filename
    ensures Extension(filename) == filename
  {
    SplitSingle(filename, '.');
  }

  /** `generateUniqueFilename`: the UUID, then `.ext` when the extension is
      non-empty. The name starts with the UUID, and a non-empty extension of the
      original is the extension of the new name, so renaming twice keeps it. */
  function UniqueFilename(originalFilename: string, uuid: string): (name: string)
    ensures |name| >= |uuid| && name[..|uuid|] == uuid
    ensures Extension(originalFilename) == "" ==> name == uuid
    ensures Extension(originalFilename) != "" ==> Extension(name) == Extension(originalFilename)
  {
    var ext := Extension(originalFilename);
    ExtensionAfterDot(uuid, ext);
    if ext != "" then uuid + "." + ext else uuid
  }

  /** The three shapes of a unique filename: a filename without a dot is taken
      whole as the extension; an empty name or a trailing dot gives the bare
      UUID; otherwise the UUID gets the text after the last dot. */
  lemma UniqueFilenameCases(originalFilename: string, uuid: string)
    ensures originalFilename != "" && '.' !in originalFilename ==>
      UniqueFilename(originalFilename, uuid) == uuid + "." + originalFilename
    ensures originalFilename == "" || originalFilename[|originalFilename| - 1] == '.' ==>
      UniqueFilename(originalFilename, uuid) == uuid
    ensures forall prefix, ext :: originalFilename == prefix + "." + ext && '.' !in ext && ext != "" ==>
      UniqueFilename(originalFilename, uuid) == uuid + "." + ext
  {
    var f := originalFilename;
    if '.' !in f {
      ExtensionOfDotlessName(f);
    }
    if f != "" && f[|f| - 1] == '.' {
      assert Extension(f) == "";
    }
    forall prefix, ext | f == prefix + "." + ext && '.' !in ext && ext != ""
      ensures UniqueFilename(f, uuid) == uuid + "." + ext
    {
      ExtensionAfterDot(prefix, ext);
    }
  }

  /** Renaming an extension-less name twice turns the first (dot-free) UUID into
      the extension: the result is `uuid2.uuid1`. */
  lemma DoubleRenamingOfExtensionlessName(originalFilename: string, uuid1: string, uuid2: string)
    requires Extension(originalFilename) == ""
    requires uuid1 != "" && '.' !in uuid1
    ensures UniqueFilename(UniqueFilename(originalFilename, uuid1), uuid2) == uuid2 + "." + uuid1
  {
    assert UniqueFilename(originalFilename, uuid1) == uuid1;
    ExtensionOfDotlessName(uuid1);
    assert UniqueFilename(uuid1, uuid2) == uuid2 + "." + uuid1;
  }

  /** The object key: `folder ? folder + '/' + uniqueFilename : uniqueFilename`.
      It ends with the unique filename; a non-empty folder and one slash come
      before it, and nothing else. */
  function ObjectKey(folder: Option<string>, uniqueFilename: string): (key: string)
    ensures |key| == |uniqueFilename| + (if IsSet(folder) then |folder.value| + 1 else 0)
    ensures key[|key| - |uniqueFilename|..] == uniqueFilename
    ensures IsSet(folder) ==> key[..|folder.value| + 1] == folder.value + "/"
  {
    if IsSet(folder) then folder.value + "/" + uniqueFilename else uniqueFilename
  }

  /** A unique filename is the UUID, then `.ext` for a non-empty extension. */
  lemma NameShape(filename: string, uuid: string)
    ensures UniqueFilename(filename, uuid)
         == uuid + (if Extension(filename) != "" then "." + Extension(filename) else "")
  {
    var ext := Extension(filename);
    var name := UniqueFilename(filename, uuid);
    if ext != "" {
      assert name == uuid + "." + ext;
      assert uuid + "." + ext == uuid + ("." + ext);
    } else {
      assert name == uuid;
    }
  }

  /** Every key is the folder prefix, then the UUID, then the extension suffix. */
  lemma KeyShape(folder: Option<string>, filename: string, uuid: string)
    ensures ObjectKey(folder, UniqueFilename(filename, uuid))
         == (if IsSet(folder) then folder.value + "/" else "") + uuid
            + (if Extension(filename) != "" then "." + Extension(filename) else "")
  {
    var suf := if Extension(filename) != "" then "." + Extension(filename) else "";
    NameShape(filename, uuid);
    if IsSet(folder) {
      assert folder.value + "/" + (uuid + suf) == folder.value + "/" + uuid + suf;
    }
  }

  /** `photo.png` in folder `avatars` is stored as `avatars/<uuid>.png`. */
  lemma PhotoKey(uuid: string)
    ensures ObjectKey(Some("avatars"), UniqueFilename("photo.png", uuid)) == "avatars/" + uuid + ".png"
  {
    assert "photo.png" == "photo" + "." + "png";
    ExtensionAfterDot("photo", "png");
    KeyShape(Some("avatars"), "photo.png", uuid);
  }

  /** Keys for the same folder and filename differ whenever the UUIDs differ. */
  lemma DistinctUuidsGiveDistinctKeys(folder: Option<string>, filename: string, uuid1: string, uuid2: string)
    requires uuid1 != uuid2
    ensures ObjectKey(folder, UniqueFilename(filename, uuid1)) != ObjectKey(folder, UniqueFilename(filename, uuid2))
  {
    KeyShape(folder, filename, uuid1);
    KeyShape(folder, filename, uuid2);
    InfixCancels(if IsSet(folder) then folder.value + "/" else "", uuid1, uuid2,
                 if Extension(filename) != "" then "." + Extension(filename) else "");
  }

  /** Strings that differ only in their middle part differ. */
  lemma InfixCancels(p: string, a: string, b: string, q: string)
    requires a != b
    ensures p + a + q != p + b + q
  {
    if |a| == |b| {
      assert (p + a + q)[|p|..|p| + |a|] == a;
      assert (p + b + q)[|p|..|p| + |b|] == b;
    }
  }

  /** `publicUrl.replace(/\/$/, '')`: drops one trailing slash, if there is one,
      and only one. */
  function StripTrailingSlash(s: string): (r: string)
    ensures s != "" && s[|s| - 1] == '/' ==> r + "/" == s
    ensures s == "" || s[|s| - 1] != '/' ==> r == s
  {
    if s != "" && s[|s| - 1] == '/' then s[..|s| - 1] else s
  }

  /** `${publicUrl.replace(/\/$/, '')}/${key}`: base and key are joined by
      exactly one slash when the base has no trailing slash or just one; a
      doubled trailing slash keeps one of its slashes. */
  function PublicObjectUrl(publicUrl: string, key: string): (url: string)
    ensures publicUrl == "" || publicUrl[|publicUrl| - 1] != '/' ==> url == publicUrl + "/" + key
    ensures publicUrl != "" && publicUrl[|publicUrl| - 1] == '/' ==> url == publicUrl + key
  {
    StripTrailingSlash(publicUrl) + "/" + key
  }
}
