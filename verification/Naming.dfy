/** Object keys and file names: `posixpath` splitting and joining, and the stable audio file name. */
module Naming {
  import opened Wrappers
  import opened Strings

  /** The settings the names depend on. `md5` is the hexadecimal digest function. */
  datatype Settings = Settings(audioPrefix: string, rssPrefix: string, salt: string, md5: string -> string)

  ghost predicate HexDigest(md5: string -> string) {
    forall s, i :: 0 <= i < |md5(s)| ==> '0' <= md5(s)[i] <= '9' || 'a' <= md5(s)[i] <= 'f'
  }

  /** The text after the last slash. */
  function Basename(path: string): string {
    if Without('/', path) then path else Basename(path[1..])
  }

  /** `os.path.join` for two components. */
  function Join(prefix: string, name: string): string {
    if |name| > 0 && name[0] == '/' then name
    else if prefix == "" || prefix[|prefix| - 1] == '/' then prefix + name
    else prefix + "/" + name
  }

  /** Joining gives the name back exactly when there is no prefix or the name is absolute. */
  lemma JoinIsName(prefix: string, name: string)
    ensures Join(prefix, name) == name <==> prefix == "" || (name != "" && name[0] == '/')
  {
    assert |prefix + name| == |prefix| + |name| && |prefix + "/" + name| == |prefix| + 1 + |name|;
  }

  function LastDot(s: string): (k: int)
    ensures -1 <= k < |s|
  {
    if s == "" then -1
    else if s[|s| - 1] == '.' then |s| - 1
    else LastDot(s[..|s| - 1])
  }

  predicate StartsAtLastDot(ext: string) {
    ext != "" && ext[0] == '.' && forall j :: 1 <= j < |ext| ==> ext[j] != '.'
  }

  /** The extension half of `os.path.splitext` for a name without a slash: leading dots do not start one. */
  function Extension(name: string): string {
    var k := LastDot(name);
    if k >= 0 && (exists j :: 0 <= j < k && name[j] != '.') then name[k..] else ""
  }

  predicate OccursAt(s: string, i: nat, t: string) {
    i + |t| <= |s| && s[i..i + |t|] == t
  }

  predicate Contains(s: string, t: string) {
    exists i: nat :: i <= |s| && OccursAt(s, i, t)
  }

  /** Whether `audio_filename` keeps the basename of the stored path. */
  predicate KeepsName(path: Option<string>) {
    path.Some? && Basename(path.value) != "" && !Contains(path.value, "tmp")
  }

  /** The extension of the old name, or `.mp3`. */
  function ExtensionOr(name: string): string {
    var ext := Extension(name);
    if ext == "" then ".mp3" else ext
  }

  function Digest(cfg: Settings, sourceId: string): string {
    "_" + cfg.md5(sourceId + "-" + cfg.salt)
  }

  /** `Episode.audio_filename`; `path` is the path of the audio row, if there is one. The generated
      alternative is made of the source id, a digest, and the old extension. */
  function AudioFilename(cfg: Settings, sourceId: string, path: Option<string>): (name: string)
    ensures name != ""
  {
    var current := Basename(path.GetOr(""));
    if KeepsName(path) then current else sourceId + (Digest(cfg, sourceId) + ExtensionOr(current))
  }

  /** The last component is the end of the path, and has no slash. */
  lemma {:induction false} BasenameEnds(path: string)
    ensures Without('/', Basename(path))
    ensures |Basename(path)| <= |path| && Basename(path) == path[|path| - |Basename(path)|..]
  {
    if !Without('/', path) {
      BasenameEnds(path[1..]);
    }
  }

  lemma {:induction false} LastDotIsLast(s: string)
    ensures LastDot(s) >= 0 ==> s[LastDot(s)] == '.'
    ensures forall j :: LastDot(s) < j < |s| ==> s[j] != '.'
  {
    if s != "" && s[|s| - 1] != '.' {
      LastDotIsLast(s[..|s| - 1]);
    }
  }

  lemma LastDotIs(s: string, k: int)
    requires -1 <= k < |s| && (k >= 0 ==> s[k] == '.') && forall j :: k < j < |s| ==> s[j] != '.'
    ensures LastDot(s) == k
  {
    LastDotIsLast(s);
  }

  /** An extension starts at the last dot of the name it ends. */
  lemma ExtensionEnds(name: string)
    requires Without('/', name)
    ensures StartsAtLastDot(ExtensionOr(name)) && Without('/', ExtensionOr(name))
  {
    LastDotIsLast(name);
  }

  lemma {:induction false} BasenameAfterSlash(a: string, b: string)
    requires a != "" && a[|a| - 1] == '/'
    ensures Basename(a + b) == Basename(b)
  {
    assert (a + b)[|a| - 1] == '/';
    assert (a + b)[1..] == a[1..] + b;
    if |a| > 1 {
      BasenameAfterSlash(a[1..], b);
    }
  }

  lemma BasenameOfJoined(prefix: string, name: string)
    requires prefix != "" && prefix[|prefix| - 1] == '/'
    ensures Basename(Join(prefix, name)) == Basename(name)
  {
    if !(|name| > 0 && name[0] == '/') {
      BasenameAfterSlash(prefix, name);
    }
  }

  lemma NoSlashInside(s: string, i: nat, t: string, k: nat)
    requires OccursAt(s, i, t) && Without('/', t) && i <= k < i + |t|
    ensures s[k] != '/'
  {
  }

  lemma ContainsAcrossSlash(a: string, b: string, t: string)
    requires a != "" && a[|a| - 1] == '/' && Without('/', t)
    requires Contains(a + b, t)
    ensures Contains(a, t) || Contains(b, t)
  {
    var i: nat :| i <= |a + b| && OccursAt(a + b, i, t);
    assert (a + b)[|a| - 1] == '/';
    if i + |t| <= |a| {
      assert (a + b)[i..i + |t|] == a[i..i + |t|];
      assert OccursAt(a, i, t);
    } else {
      if i < |a| {
        NoSlashInside(a + b, i, t, |a| - 1);
        assert false;
      }
      assert (a + b)[i..i + |t|] == b[i - |a|..i - |a| + |t|];
      assert OccursAt(b, i - |a|, t);
    }
  }

  lemma ContainsSuffix(s: string, k: nat, t: string)
    requires k <= |s| && Contains(s[k..], t)
    ensures Contains(s, t)
  {
    var i: nat :| i <= |s[k..]| && OccursAt(s[k..], i, t);
    assert s[k..][i..i + |t|] == s[k + i..k + i + |t|];
    assert OccursAt(s, k + i, t);
  }

  /** A dot that ends the stem, with an underscore before it, starts the extension. */
  lemma ExtensionOfStem(stem: string, ext: string)
    requires Without('/', stem + ext) && StartsAtLastDot(ext)
    requires !(forall i :: 0 <= i < |stem| ==> stem[i] == '.')
    ensures Extension(stem + ext) == ext
  {
    var s := stem + ext;
    assert s[|stem|] == '.';
    forall j | |stem| < j < |s| ensures s[j] != '.' {
      assert s[j] == ext[j - |stem|];
    }
    LastDotIs(s, |stem|);
    var u :| 0 <= u < |stem| && stem[u] != '.';
    assert s[u] != '.';
  }

  lemma NoSlashInTmp()
    ensures Without('/', "tmp")
  {
  }

  lemma ExtensionAfter(head: string, digest: string, ext: string)
    requires Without('/', head) && Without('/', digest + ext)
    requires |digest| > 0 && digest[0] == '_' && StartsAtLastDot(ext)
    ensures Extension(head + (digest + ext)) == ext
  {
    var stem := head + digest;
    assert stem + ext == head + (digest + ext);
    assert stem[|head|] == '_';
    ExtensionOfStem(stem, ext);
  }

  lemma NothingCut(head: string)
    ensures Basename(head) == head <==> Without('/', head)
  {
    BasenameEnds(head);
  }

  lemma DigestShape(cfg: Settings, sourceId: string)
    requires HexDigest(cfg.md5)
    ensures Without('/', Digest(cfg, sourceId)) && |Digest(cfg, sourceId)| > 0 && Digest(cfg, sourceId)[0] == '_'
  {
  }

  /** The last component of a name ending in digest and extension still carries the whole extension,
      and it is the whole name exactly when the head has no slash. */
  lemma TailSurvives(head: string, digest: string, ext: string)
    requires Without('/', digest) && |digest| > 0 && digest[0] == '_'
    requires StartsAtLastDot(ext) && Without('/', ext)
    ensures
      var name := head + (digest + ext);
      && Extension(Basename(name)) == ext
      && (Basename(name) == name <==> Without('/', head))
  {
    var rest := digest + ext;
    BasenameOfTail(head, rest);
    BasenameEnds(head);
    ExtensionAfter(Basename(head), digest, ext);
    NothingCut(head);
    assert |Basename(head) + rest| == |head + rest| <==> |Basename(head)| == |head|;
  }

  lemma {:induction false} BasenameOfTail(a: string, rest: string)
    requires Without('/', rest)
    ensures Basename(a + rest) == Basename(a) + rest
  {
    if !Without('/', a) {
      var k :| 0 <= k < |a| && a[k] == '/';
      assert (a + rest)[k] == '/';
      assert (a + rest)[1..] == a[1..] + rest;
      BasenameOfTail(a[1..], rest);
    }
  }

  lemma RecomputedName(cfg: Settings, sourceId: string, stored: string, base: string, ext: string)
    requires base == Basename(stored) && ext != "" && Extension(base) == ext
    ensures AudioFilename(cfg, sourceId, Some(stored))
            == if Contains(stored, "tmp") then sourceId + (Digest(cfg, sourceId) + ext) else base
  {
  }

  /** What the last component of a generated name says, wherever the name is stored. */
  lemma GeneratedTail(head: string, digest: string, ext: string, name: string, base: string)
    requires Without('/', digest) && |digest| > 0 && digest[0] == '_'
    requires StartsAtLastDot(ext) && Without('/', ext)
    requires name == head + (digest + ext) && base == Basename(name)
    ensures Extension(base) == ext && (base == name <==> Without('/', head))
  {
    TailSurvives(head, digest, ext);
  }

  lemma GeneratedIsStable(cfg: Settings, sourceId: string, name: string, stored: string, base: string, ext: string)
    requires name == sourceId + (Digest(cfg, sourceId) + ext) && base == Basename(stored)
    requires ext != "" && Extension(base) == ext && (base == name <==> Without('/', sourceId))
    ensures AudioFilename(cfg, sourceId, Some(stored)) == name <==> Without('/', sourceId) || Contains(stored, "tmp")
  {
    RecomputedName(cfg, sourceId, stored, base, ext);
  }

  lemma StoredBase(prefix: string, name: string, stored: string)
    requires prefix != "" && prefix[|prefix| - 1] == '/' && stored == Join(prefix, name)
    ensures Basename(stored) == Basename(name)
  {
    BasenameOfJoined(prefix, name);
  }

  /** A name that was generated. */
  lemma GeneratedName(cfg: Settings, sourceId: string, ext: string, name: string, stored: string)
    requires HexDigest(cfg.md5) && cfg.audioPrefix != "" && cfg.audioPrefix[|cfg.audioPrefix| - 1] == '/'
    requires StartsAtLastDot(ext) && Without('/', ext)
    requires name == sourceId + (Digest(cfg, sourceId) + ext) && stored == Join(cfg.audioPrefix, name)
    ensures AudioFilename(cfg, sourceId, Some(stored)) == name <==> Without('/', sourceId) || Contains(stored, "tmp")
  {
    DigestShape(cfg, sourceId);
    StoredBase(cfg.audioPrefix, name, stored);
    GeneratedTail(sourceId, Digest(cfg, sourceId), ext, name, Basename(name));
    GeneratedIsStable(cfg, sourceId, name, stored, Basename(stored), ext);
  }

  /** A name that was kept. */
  lemma KeptName(cfg: Settings, sourceId: string, path: string, name: string, stored: string)
    requires cfg.audioPrefix != "" && cfg.audioPrefix[|cfg.audioPrefix| - 1] == '/' && !Contains(cfg.audioPrefix, "tmp")
    requires KeepsName(Some(path)) && name == Basename(path) && stored == Join(cfg.audioPrefix, name)
    ensures AudioFilename(cfg, sourceId, Some(stored)) == name
  {
    KeptStaysKept(cfg.audioPrefix, path, name, stored);
  }

  lemma NameIs(cfg: Settings, sourceId: string, path: Option<string>, name: string)
    requires name == AudioFilename(cfg, sourceId, path)
    ensures KeepsName(path) ==> name == Basename(path.value)
    ensures !KeepsName(path) ==> name == sourceId + (Digest(cfg, sourceId) + ExtensionOr(Basename(path.GetOr(""))))
  {
  }

  /** Storing the file under the audio prefix with its stable name and recomputing the name from the
      new path gives the same name exactly when the old basename was kept, the source id has no
      slash, or the new path still looks temporary. */
  lemma AudioFilenameIsStable(cfg: Settings, sourceId: string, path: Option<string>)
    requires HexDigest(cfg.md5)
    requires cfg.audioPrefix != "" && cfg.audioPrefix[|cfg.audioPrefix| - 1] == '/'
    requires !Contains(cfg.audioPrefix, "tmp")
    ensures
      var name := AudioFilename(cfg, sourceId, path);
      var stored := Join(cfg.audioPrefix, name);
      AudioFilename(cfg, sourceId, Some(stored)) == name
      <==> KeepsName(path) || Without('/', sourceId) || Contains(stored, "tmp")
  {
    var name := AudioFilename(cfg, sourceId, path);
    var stored := Join(cfg.audioPrefix, name);
    NameIs(cfg, sourceId, path, name);
    if KeepsName(path) {
      KeptName(cfg, sourceId, path.value, name, stored);
    } else {
      BasenameEnds(path.GetOr(""));
      ExtensionEnds(Basename(path.GetOr("")));
      GeneratedName(cfg, sourceId, ExtensionOr(Basename(path.GetOr(""))), name, stored);
    }
  }

  lemma KeptStaysKept(prefix: string, path: string, name: string, stored: string)
    requires prefix != "" && prefix[|prefix| - 1] == '/' && !Contains(prefix, "tmp")
    requires KeepsName(Some(path)) && name == Basename(path) && stored == Join(prefix, name)
    ensures KeepsName(Some(stored)) && Basename(stored) == name
  {
    NoSlashInTmp();
    KeptMeans(path, name);
    StoredName(prefix, path, name, stored, "tmp");
  }

  lemma KeptMeans(path: string, name: string)
    requires KeepsName(Some(path)) && name == Basename(path)
    ensures name != "" && !Contains(path, "tmp") && Without('/', name)
    ensures |name| <= |path| && name == path[|path| - |name|..] && Basename(name) == name
  {
    BasenameEnds(path);
    NothingCut(name);
  }

  lemma StoredName(prefix: string, path: string, name: string, stored: string, t: string)
    requires prefix != "" && prefix[|prefix| - 1] == '/' && !Contains(prefix, t) && Without('/', t)
    requires !Contains(path, t) && Without('/', name) && |name| <= |path| && name == path[|path| - |name|..]
    requires stored == Join(prefix, name) && Basename(name) == name
    ensures Basename(stored) == name && !Contains(stored, t)
  {
    StoredBase(prefix, name, stored);
    StillNotTemporary(prefix, path, name, t);
  }

  lemma StillNotTemporary(prefix: string, path: string, name: string, t: string)
    requires prefix != "" && prefix[|prefix| - 1] == '/' && Without('/', t)
    requires !Contains(prefix, t) && !Contains(path, t)
    requires Without('/', name) && |name| <= |path| && name == path[|path| - |name|..]
    ensures !Contains(Join(prefix, name), t)
  {
    assert Join(prefix, name) == prefix + name;
    if Contains(prefix + name, t) {
      ContainsAcrossSlash(prefix, name, t);
      ContainsSuffix(path, |path| - |name|, t);
    }
  }
}
