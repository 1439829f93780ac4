/** Which object an episode's audio is stored under, letter by letter, and that different sources never share one. */
module Keys {
  import opened Wrappers
  import opened Strings
  import opened Rows
  import opened Naming
  import opened Downloading
  import opened Uploading

  /** `path` ends in the component `name`. */
  ghost predicate EndsIn(path: string, dir: string, name: string) {
    path == dir + name && Without('/', name) && (dir == "" || dir[|dir| - 1] == '/')
  }

  /** No dot of the name starts an extension: before each there are dots only. */
  ghost predicate HasNoExtension(name: string) {
    forall k, j :: 0 <= j < k < |name| && name[k] == '.' ==> name[j] == '.'
  }

  /** `name` is `stem`, with a character that is not a dot, and then `ext`, which starts at the last dot. */
  ghost predicate HasExtension(name: string, stem: string, ext: string) {
    && name == stem + ext && StartsAtLastDot(ext)
    && exists j :: 0 <= j < |stem| && stem[j] != '.'
  }

  lemma LastComponent(path: string, dir: string, name: string)
    requires EndsIn(path, dir, name)
    ensures Basename(path) == name
  {
    NothingCut(name);
    if dir == "" {
      assert path == name;
    } else {
      BasenameAfterSlash(dir, name);
    }
  }

  lemma ExtensionFound(name: string, stem: string, ext: string)
    requires Without('/', name) && HasExtension(name, stem, ext)
    ensures Extension(name) == ext
  {
    ExtensionOfStem(stem, ext);
  }

  lemma ExtensionMissing(name: string)
    requires HasNoExtension(name)
    ensures Extension(name) == ""
  {
    LastDotIsLast(name);
  }

  /** A stored path that does not look temporary keeps its last component. */
  lemma KeptFilename(cfg: Settings, sourceId: string, path: string, dir: string, name: string)
    requires EndsIn(path, dir, name) && name != "" && !Contains(path, "tmp")
    ensures AudioFilename(cfg, sourceId, Some(path)) == name
  {
    LastComponent(path, dir, name);
  }

  /** Every other name is the source id, the digest of the salted source id, and the old extension. */
  lemma GeneratedFilename(cfg: Settings, sourceId: string, path: Option<string>, dir: string, name: string,
                          stem: string,
                          ext: string)
    requires EndsIn(path.GetOr(""), dir, name) && HasExtension(name, stem, ext)
    requires path.None? || Contains(path.value, "tmp")
    ensures AudioFilename(cfg, sourceId, path) == sourceId + ("_" + cfg.md5(sourceId + "-" + cfg.salt) + ext)
  {
    LastComponent(path.GetOr(""), dir, name);
    ExtensionFound(name, stem, ext);
  }

  /** Or `.mp3` when the old name has none. */
  lemma DefaultFilename(cfg: Settings, sourceId: string, path: Option<string>, dir: string, name: string)
    requires EndsIn(path.GetOr(""), dir, name) && HasNoExtension(name)
    requires path.None? || name == "" || Contains(path.value, "tmp")
    ensures AudioFilename(cfg, sourceId, path) == sourceId + ("_" + cfg.md5(sourceId + "-" + cfg.salt) + ".mp3")
  {
    LastComponent(path.GetOr(""), dir, name);
    ExtensionMissing(name);
  }

  // -------- the key of a downloaded source

  function OwnName(cfg: Settings, sourceId: string): string {
    sourceId + ("_" + cfg.md5(sourceId + "-" + cfg.salt) + ".mp3")
  }

  /** The object a downloaded source is stored under. */
  function OwnKey(cfg: Settings, sourceId: string): string {
    Join(cfg.audioPrefix, OwnName(cfg, sourceId))
  }

  /** All digests are hexadecimal and of one length. */
  ghost predicate Digests(md5: string -> string) {
    HexDigest(md5) && forall s, t :: |md5(s)| == |md5(t)|
  }

  lemma OwnNameShape(cfg: Settings, sourceId: string)
    requires HexDigest(cfg.md5) && Without('/', sourceId)
    ensures Without('/', OwnName(cfg, sourceId)) && OwnName(cfg, sourceId) != ""
    ensures Extension(OwnName(cfg, sourceId)) == ".mp3"
  {
    var digest := "_" + cfg.md5(sourceId + "-" + cfg.salt);
    assert Without('/', digest + ".mp3");
    ExtensionAfter(sourceId, digest, ".mp3");
  }

  /** The last component of a joined key is the name joined. */
  lemma JoinedName(prefix: string, name: string)
    requires Without('/', name)
    ensures Basename(Join(prefix, name)) == name
  {
    NothingCut(name);
    if prefix != "" && prefix[|prefix| - 1] == '/' {
      BasenameAfterSlash(prefix, name);
    } else if prefix != "" {
      BasenameAfterSlash(prefix + "/", name);
      assert prefix + "/" + name == Join(prefix, name);
    }
  }

  lemma NamedKey(cfg: Settings, e: Episode, path: string, name: string)
    requires Without('/', name) && (e.sourceType.Upload? ==> Basename(path) == name)
    requires !e.sourceType.Upload? ==> AudioFilename(cfg, e.sourceId, Some(path)) == name
    ensures StorageKey(cfg, e, path) == Join(cfg.audioPrefix, name)
  {
    NothingCut(name);
  }

  /** The first download of a source is stored under the source's own key. */
  lemma FirstKey(cfg: Settings, e: Episode)
    requires HexDigest(cfg.md5) && Without('/', e.sourceId) && !e.sourceType.Upload?
    ensures StorageKey(cfg, e, "")
            == Join(cfg.audioPrefix, e.sourceId + ("_" + cfg.md5(e.sourceId + "-" + cfg.salt) + ".mp3"))
    ensures cfg.audioPrefix != "" && cfg.audioPrefix[|cfg.audioPrefix| - 1] == '/' ==>
              StorageKey(cfg, e, "")
              == cfg.audioPrefix + (e.sourceId + ("_" + cfg.md5(e.sourceId + "-" + cfg.salt) + ".mp3"))
  {
    DefaultFilename(cfg, e.sourceId, Some(""), "", "");
    OwnNameShape(cfg, e.sourceId);
    NamedKey(cfg, e, "", OwnName(cfg, e.sourceId));
  }

  /** Of a path that does not look temporary, and of the path of an upload, the last component is kept. */
  lemma KeptKey(cfg: Settings, e: Episode, path: string, dir: string, name: string)
    requires EndsIn(path, dir, name) && (e.sourceType.Upload? || (name != "" && !Contains(path, "tmp")))
    ensures StorageKey(cfg, e, path) == Join(cfg.audioPrefix, name)
  {
    LastComponent(path, dir, name);
    NamedKey(cfg, e, path, name);
  }

  /** A path that looks temporary is replaced by a name made of the source id, the digest, and its extension. */
  lemma GeneratedKey(cfg: Settings, e: Episode, path: string, dir: string, name: string, stem: string, ext: string)
    requires HexDigest(cfg.md5) && Without('/', e.sourceId) && !e.sourceType.Upload?
    requires EndsIn(path, dir, name) && HasExtension(name, stem, ext) && Contains(path, "tmp")
    ensures StorageKey(cfg, e, path)
            == Join(cfg.audioPrefix, e.sourceId + ("_" + cfg.md5(e.sourceId + "-" + cfg.salt) + ext))
  {
    GeneratedFilename(cfg, e.sourceId, Some(path), dir, name, stem, ext);
    WithoutTail('/', stem, ext, name);
    GeneratedNameShape(cfg, e.sourceId, ext);
    NamedKey(cfg, e, path, e.sourceId + ("_" + cfg.md5(e.sourceId + "-" + cfg.salt) + ext));
  }

  lemma OwnFilenameAgain(cfg: Settings, sourceId: string, path: string)
    requires HexDigest(cfg.md5) && Without('/', sourceId) && path == OwnKey(cfg, sourceId)
    ensures AudioFilename(cfg, sourceId, Some(path)) == OwnName(cfg, sourceId)
  {
    var name := OwnName(cfg, sourceId);
    OwnNameShape(cfg, sourceId);
    JoinedName(cfg.audioPrefix, name);
  }

  /** Downloading again, whatever the old key looks like, uses the own key again. */
  lemma OwnKeyAgain(cfg: Settings, e: Episode, path: string)
    requires HexDigest(cfg.md5) && Without('/', e.sourceId) && !e.sourceType.Upload?
    requires path == "" || path == OwnKey(cfg, e.sourceId)
    ensures StorageKey(cfg, e, path) == OwnKey(cfg, e.sourceId)
  {
    if path == "" {
      FirstKey(cfg, e);
    } else {
      OwnFilenameAgain(cfg, e.sourceId, path);
      OwnNameShape(cfg, e.sourceId);
      NamedKey(cfg, e, path, OwnName(cfg, e.sourceId));
    }
  }

  // -------- different sources, different keys

  /** A generated name tells its source id and its extension. */
  lemma GeneratedApart(x: string, d: string, ext: string, x2: string, d2: string, ext2: string)
    requires |d| == |d2| && StartsAtLastDot(ext) && StartsAtLastDot(ext2)
    requires x + ("_" + d + ext) == x2 + ("_" + d2 + ext2)
    ensures x == x2 && ext == ext2
  {
    var name, a, b := x + ("_" + d + ext), x + "_" + d, x2 + "_" + d2;
    assert name == a + ext && name == b + ext2;
    DotAt(name, a, ext);
    DotAt(name, b, ext2);
    assert |a| == |b| && |x| == |x2|;
    assert x == name[..|x|] && x2 == name[..|x2|];
    assert ext == name[|a|..] && ext2 == name[|b|..];
  }

  lemma DotAt(name: string, stem: string, ext: string)
    requires name == stem + ext && StartsAtLastDot(ext)
    ensures LastDot(name) == |stem|
  {
    assert name[|stem|] == '.';
    forall j | |stem| < j < |name| ensures name[j] != '.' {
      assert name[j] == ext[j - |stem|];
    }
    LastDotIs(name, |stem|);
  }

  lemma JoinedApart(prefix: string, a: string, b: string)
    requires Without('/', a) && Without('/', b) && Join(prefix, a) == Join(prefix, b)
    ensures a == b
  {
    JoinedName(prefix, a);
    JoinedName(prefix, b);
  }

  lemma OwnNamesApart(cfg: Settings, x: string, y: string)
    requires Digests(cfg.md5) && OwnName(cfg, x) == OwnName(cfg, y)
    ensures x == y
  {
    GeneratedApart(x, cfg.md5(x + "-" + cfg.salt), ".mp3", y, cfg.md5(y + "-" + cfg.salt), ".mp3");
  }

  /** Different sources are stored under different keys. */
  lemma OwnKeysApart(cfg: Settings, x: string, y: string)
    requires Digests(cfg.md5) && Without('/', x) && Without('/', y)
    ensures OwnKey(cfg, x) == OwnKey(cfg, y) <==> x == y
  {
    if OwnKey(cfg, x) == OwnKey(cfg, y) {
      OwnNameShape(cfg, x);
      OwnNameShape(cfg, y);
      JoinedApart(cfg.audioPrefix, OwnName(cfg, x), OwnName(cfg, y));
      OwnNamesApart(cfg, x, y);
    }
  }

  /** The key taken for an unfinished object, the prefix joined with the own key, is not the own key of any other
      source. */
  lemma UnfinishedKeyApart(cfg: Settings, x: string, y: string)
    requires Digests(cfg.md5) && Without('/', x) && Without('/', y) && x != y
    ensures Join(cfg.audioPrefix, OwnKey(cfg, x)) != OwnKey(cfg, y)
  {
    OwnNameShape(cfg, x);
    OwnNameShape(cfg, y);
    if Join(cfg.audioPrefix, OwnKey(cfg, x)) == OwnKey(cfg, y) {
      TwiceApart(cfg.audioPrefix, OwnName(cfg, x), OwnName(cfg, y));
      OwnNamesApart(cfg, x, y);
    }
  }

  lemma TwiceApart(prefix: string, a: string, b: string)
    requires Without('/', a) && Without('/', b) && Join(prefix, Join(prefix, a)) == Join(prefix, b)
    ensures a == b
  {
    JoinedName(prefix, b);
    JoinedTwice(prefix, Join(prefix, a), a);
  }

  lemma JoinedTwice(prefix: string, key: string, name: string)
    requires Without('/', name) && key == Join(prefix, name)
    ensures Basename(Join(prefix, key)) == name
  {
    JoinedName(prefix, name);
    if key != "" && key[0] == '/' {
    } else if prefix != "" && prefix[|prefix| - 1] == '/' {
      BasenameAfterSlash(prefix, key);
    } else if prefix != "" {
      BasenameAfterSlash(prefix + "/", key);
      assert prefix + "/" + key == Join(prefix, key);
    }
  }

  // -------- the key of an upload's copy

  /** An upload whose path does not look temporary is copied to the path's last component under the prefix. */
  lemma KeptCopy(cfg: Settings, e: Episode, path: string, dir: string, name: string)
    requires EndsIn(path, dir, name) && name != "" && !Contains(path, "tmp")
    ensures CopyTarget(cfg, e, path) == Join(cfg.audioPrefix, name)
  {
    KeptFilename(cfg, e.sourceId, path, dir, name);
  }

  /** An upload in a temporary place is copied to a name made of its source id, the digest, and its extension. */
  lemma GeneratedCopy(cfg: Settings, e: Episode, path: string, dir: string, name: string, stem: string, ext: string)
    requires EndsIn(path, dir, name) && HasExtension(name, stem, ext) && Contains(path, "tmp")
    ensures CopyTarget(cfg, e, path)
            == Join(cfg.audioPrefix, e.sourceId + ("_" + cfg.md5(e.sourceId + "-" + cfg.salt) + ext))
  {
    GeneratedFilename(cfg, e.sourceId, Some(path), dir, name, stem, ext);
  }

  lemma GeneratedNameShape(cfg: Settings, sourceId: string, ext: string)
    requires HexDigest(cfg.md5) && Without('/', sourceId) && Without('/', ext)
    ensures Without('/', sourceId + ("_" + cfg.md5(sourceId + "-" + cfg.salt) + ext))
  {
  }

  /** The source id and the extension of an upload's temporary file. */
  ghost predicate Temporary(e: Episode, path: string, dir: string, name: string, stem: string, ext: string) {
    Without('/', e.sourceId) && EndsIn(path, dir, name) && HasExtension(name, stem, ext) && Contains(path, "tmp")
  }

  /** Two temporary uploads are copied to one key only if they have one source id. */
  lemma CopiesApart(cfg: Settings, e: Episode, path: string, dir: string, name: string, stem: string, ext: string,
                    e2: Episode, path2: string, dir2: string, name2: string, stem2: string, ext2: string)
    requires Digests(cfg.md5)
    requires Temporary(e, path, dir, name, stem, ext) && Temporary(e2, path2, dir2, name2, stem2, ext2)
    requires CopyTarget(cfg, e, path) == CopyTarget(cfg, e2, path2)
    ensures e.sourceId == e2.sourceId && ext == ext2
  {
    var d, copy := TemporaryCopy(cfg, e, path, dir, name, stem, ext);
    var d2, copy2 := TemporaryCopy(cfg, e2, path2, dir2, name2, stem2, ext2);
    CopiedNamesApart(cfg.audioPrefix, e.sourceId, d, ext, copy, e2.sourceId, d2, ext2, copy2);
  }

  lemma TemporaryCopy(cfg: Settings, e: Episode, path: string, dir: string, name: string, stem: string, ext: string)
    returns (d: string, copy: string)
    requires Digests(cfg.md5) && Temporary(e, path, dir, name, stem, ext)
    ensures CopyTarget(cfg, e, path) == Join(cfg.audioPrefix, copy) && CopiedName(e.sourceId, d, ext, copy)
    ensures |d| == |cfg.md5("")|
  {
    d := cfg.md5(e.sourceId + "-" + cfg.salt);
    copy := e.sourceId + ("_" + d + ext);
    GeneratedCopy(cfg, e, path, dir, name, stem, ext);
    WithoutTail('/', stem, ext, name);
    GeneratedNameShape(cfg, e.sourceId, ext);
  }

  ghost predicate CopiedName(x: string, d: string, ext: string, copy: string) {
    copy == x + ("_" + d + ext) && Without('/', copy) && StartsAtLastDot(ext)
  }

  lemma CopiedNamesApart(prefix: string, x: string, d: string, ext: string, copy: string,
                         x2: string, d2: string, ext2: string, copy2: string)
    requires CopiedName(x, d, ext, copy) && CopiedName(x2, d2, ext2, copy2) && |d| == |d2|
    requires Join(prefix, copy) == Join(prefix, copy2)
    ensures x == x2 && ext == ext2
  {
    JoinedApart(prefix, copy, copy2);
    GeneratedApart(x, d, ext, x2, d2, ext2);
  }

  lemma WithoutTail(c: char, a: string, b: string, s: string)
    requires s == a + b && Without(c, s)
    ensures Without(c, b)
  {
    forall i | 0 <= i < |b| ensures b[i] != c {
      assert s[|a| + i] == b[i];
    }
  }
}
