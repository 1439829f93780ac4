/** The whole-system promises of a run for an uploaded episode: fresh feeds, and idempotence. */
module UploadTheorems {
  import opened Wrappers
  import opened Strings
  import opened Rows
  import opened Queries
  import opened Naming
  import opened Consistency
  import opened Feeds
  import opened Downloading
  import opened DownloadingProofs
  import opened DownloadingOutcomes
  import opened RunEffects
  import opened RunTheorems
  import opened Uploading

  // -------- feeds

  lemma CopyRedoesFeeds(cfg: Settings, s: State, id: Id, w: UploadWorld)
    requires Linked(s.db) && Distinct(w.feeds.scan) && Distinct(w.feeds.podcastScan)
    requires id in s.db.episodes && s.db.episodes[id].audio.Some? && AudioOf(s.db, s.db.episodes[id]).path in s.objects
    requires PublishCopy(cfg, s, id, w).1.Finished?
    ensures FeedsRedone(s, PublishCopy(cfg, s, id, w).0, s.db.episodes[id].sourceId, w.feeds)
  {
    var t := CopiedState(cfg, s, id, w);
    var sourceId := s.db.episodes[id].sourceId;
    CopiedShape(cfg, s, id, w);
    AffectedKept(s.db, t.db, sourceId, w.feeds);
    GenerateLeavesEpisodes(cfg, t, Affected(t.db, sourceId, w.feeds), w.feeds);
    GenerateFeeds(cfg, t, Affected(t.db, sourceId, w.feeds), w.feeds);
  }

  lemma FinishedIsCopied(cfg: Settings, s: State, id: Id, w: UploadWorld)
    requires Distinct(w.feeds.scan) && PerformUploaded(cfg, s, id, w).1.Finished?
    ensures NeedsCopy(s, id, w) && AudioOf(s.db, s.db.episodes[id]).path in s.objects
    ensures PerformUploaded(cfg, s, id, w) == PublishCopy(cfg, s, id, w)
  {
  }

  lemma OneRowFresh(s: State, r: State, id: Id, w: FeedWorld)
    requires id in s.db.episodes && SameShape(s.db, r.db) && Dated(r.db) && ScansFit(s.db, w)
    requires r.db.episodes == s.db.episodes[id := r.db.episodes[id]]
    requires FeedsRedone(s, r, s.db.episodes[id].sourceId, w)
    requires w.refused !! Holders(s.db.episodes, s.db.episodes[id].sourceId)
    requires forall p :: p in s.db.podcasts && p !in Holders(s.db.episodes, s.db.episodes[id].sourceId) ==>
        Fresh(s.db, s.feeds, p)
    ensures forall p :: p in r.db.podcasts ==> Fresh(r.db, r.feeds, p)
  {
    RedoneIsFresh(s, r, s.db.episodes[id], w);
  }

  lemma CopyDated(cfg: Settings, s: State, id: Id, w: UploadWorld)
    requires Dated(s.db) && Distinct(w.feeds.scan) && id in s.db.episodes && s.db.episodes[id].audio.Some?
    requires AudioOf(s.db, s.db.episodes[id]).path in s.objects
    ensures Dated(PublishCopy(cfg, s, id, w).0.db)
  {
    PublishCopyRows(cfg, s, id, w);
  }

  lemma CopyRefreshesFeeds(cat: Catalogue, cfg: Settings, s: State, id: Id, w: UploadWorld, r: State)
    requires Sound(cat) && Structured(cat, s.db) && Dated(s.db) && ScansFit(s.db, w.feeds)
    requires id in s.db.episodes && s.db.episodes[id].sourceType.Upload? && s.db.episodes[id].audio.Some?
    requires AudioOf(s.db, s.db.episodes[id]).path in s.objects && PublishCopy(cfg, s, id, w) == (r, Finished)
    requires w.feeds.refused !! Holders(s.db.episodes, s.db.episodes[id].sourceId)
    requires forall p :: p in s.db.podcasts && p !in Holders(s.db.episodes, s.db.episodes[id].sourceId) ==>
               Fresh(s.db, s.feeds, p)
    ensures forall p :: p in r.db.podcasts ==> Fresh(r.db, r.feeds, p)
  {
    PublishCopyKeeps(cat, cfg, s, id, w);
    PublishCopyRows(cfg, s, id, w);
    CopyRedoesFeeds(cfg, s, id, w);
    CopyDated(cfg, s, id, w);
    OneRowFresh(s, r, id, w.feeds);
  }

  /** If every podcast without an episode of this source had a fresh feed, then after a successful run for an
      upload whose feed uploads are accepted every podcast has one. */
  lemma UploadRefreshesFeeds(cat: Catalogue, cfg: Settings, s: State, id: Id, w: UploadWorld, r: State)
    requires Sound(cat) && Structured(cat, s.db) && Dated(s.db) && ScansFit(s.db, w.feeds)
    requires id in s.db.episodes && s.db.episodes[id].sourceType.Upload?
    requires PerformUploaded(cfg, s, id, w) == (r, Finished)
    requires w.feeds.refused !! Holders(s.db.episodes, s.db.episodes[id].sourceId)
    requires forall p :: p in s.db.podcasts && p !in Holders(s.db.episodes, s.db.episodes[id].sourceId) ==>
               Fresh(s.db, s.feeds, p)
    ensures forall p :: p in r.db.podcasts ==> Fresh(r.db, r.feeds, p)
  {
    FinishedIsCopied(cfg, s, id, w);
    CopyRefreshesFeeds(cat, cfg, s, id, w, r);
  }

  // -------- idempotence

  /** What the stable names need of the settings and of the source id. */
  ghost predicate StableNames(cfg: Settings, sourceId: string) {
    && HexDigest(cfg.md5) && Without('/', sourceId)
    && cfg.audioPrefix != "" && cfg.audioPrefix[|cfg.audioPrefix| - 1] == '/' && !Contains(cfg.audioPrefix, "tmp")
  }

  lemma FilenameHasNoSlash(cfg: Settings, sourceId: string, path: Option<string>)
    requires StableNames(cfg, sourceId)
    ensures Without('/', AudioFilename(cfg, sourceId, path))
  {
    BasenameEnds(path.GetOr(""));
    if !KeepsName(path) {
      var ext := ExtensionOr(Basename(path.GetOr("")));
      ExtensionEnds(Basename(path.GetOr("")));
      DigestShape(cfg, sourceId);
      WithoutJoins('/', Digest(cfg, sourceId), ext);
      WithoutJoins('/', sourceId, Digest(cfg, sourceId) + ext);
    }
  }

  lemma WithoutJoins(c: char, a: string, b: string)
    requires Without(c, a) && Without(c, b)
    ensures Without(c, a + b)
  {
  }

  /** The size measured by name after the copy is the size found at the key. */
  lemma MeasuredAtKey(cfg: Settings, e: Episode, path: string, objects: map<string, nat>, reachable: bool)
    requires StableNames(cfg, e.sourceId)
    ensures
      var key := CopyTarget(cfg, e, path);
      SizeByName(objects, cfg, Basename(key), reachable) == StoredSize(objects, key, reachable)
  {
    var name := AudioFilename(cfg, e.sourceId, Some(path));
    FilenameHasNoSlash(cfg, e.sourceId, Some(path));
    BasenameOfJoined(cfg.audioPrefix, name);
    NothingCut(name);
  }

  /** The audio row records the object at its key. */
  ghost predicate AtKey(r: State, f: Id, key: string) {
    f in r.db.files && r.db.files[f].path == key && key != "" && key in r.objects
    && r.db.files[f].size == r.objects[key] && r.db.files[f].available
  }

  /** After a success that measured its copy, the audio row records the object at the stable key. */
  lemma CopiedAtKey(cfg: Settings, s: State, id: Id, w: UploadWorld, r: State)
    requires Linked(s.db) && Distinct(w.feeds.scan) && id in s.db.episodes && w.measure
    requires StableNames(cfg, s.db.episodes[id].sourceId) && PerformUploaded(cfg, s, id, w) == (r, Finished)
    ensures
      var e := s.db.episodes[id];
      && e.audio.Some? && AtKey(r, e.audio.value, CopyTarget(cfg, e, AudioOf(s.db, e).path))
      && r.db.episodes == s.db.episodes[id := Restamp(e, Published, Some(e.createdAt))]
  {
    FinishedIsCopied(cfg, s, id, w);
    PublishCopyEffect(cfg, s, id, w);
    PublishCopyRows(cfg, s, id, w);
    RecordedAtKey(cfg, s, id, w, r);
  }

  lemma RecordedAtKey(cfg: Settings, s: State, id: Id, w: UploadWorld, r: State)
    requires id in s.db.episodes && CopyRecorded(cfg, s, id, w, r) && w.measure
    requires StableNames(cfg, s.db.episodes[id].sourceId)
    ensures
      var e := s.db.episodes[id];
      e.audio.Some? && AtKey(r, e.audio.value, CopyTarget(cfg, e, AudioOf(s.db, e).path))
  {
    var e := s.db.episodes[id];
    MeasuredAtKey(cfg, e, AudioOf(s.db, e).path, r.objects, w.measure);
    KeyIsNotEmpty(cfg, e, AudioOf(s.db, e).path);
  }

  lemma KeyIsNotEmpty(cfg: Settings, e: Episode, path: string)
    ensures CopyTarget(cfg, e, path) != ""
  {
  }

  /** Running again for the same episode, with the storage unchanged, is skipped and changes nothing. */
  lemma UploadRerunSkips(cfg: Settings, s: State, id: Id, w: UploadWorld, r: State, later: State, w2: UploadWorld)
    requires Linked(s.db) && Distinct(w.feeds.scan) && Distinct(w2.feeds.scan) && id in s.db.episodes && w.measure
    requires w2.probe
    requires StableNames(cfg, s.db.episodes[id].sourceId) && PerformUploaded(cfg, s, id, w) == (r, Finished)
    requires later.db == r.db && later.objects == r.objects
    ensures PerformUploaded(cfg, later, id, w2) == (later, AlreadyStored)
  {
    CopiedAtKey(cfg, s, id, w, r);
    AtKeySkips(cfg, later, id, CopyTarget(cfg, s.db.episodes[id], AudioOf(s.db, s.db.episodes[id]).path), w2);
  }

  lemma AtKeySkips(cfg: Settings, s: State, id: Id, key: string, w: UploadWorld)
    requires Distinct(w.feeds.scan) && w.probe && id in s.db.episodes && s.db.episodes[id].status.Published?
    requires s.db.episodes[id].audio.Some? && AtKey(s, s.db.episodes[id].audio.value, key)
    ensures PerformUploaded(cfg, s, id, w) == (s, AlreadyStored)
  {
  }

  /** Running for another episode that shares the audio row publishes it without changing an object or any audio
      or image row: the file is copied onto itself. */
  lemma SharedUploadRun(cfg: Settings, s: State, id: Id, w: UploadWorld, r: State, later: State, id2: Id,
                        w2: UploadWorld, u: State)
    requires Linked(s.db) && Linked(later.db) && Distinct(w.feeds.scan) && Distinct(w2.feeds.scan)
    requires id in s.db.episodes
    requires w.measure && StableNames(cfg, s.db.episodes[id].sourceId)
    requires PerformUploaded(cfg, s, id, w) == (r, Finished)
    requires later.db == r.db && later.objects == r.objects
    requires id2 in r.db.episodes && r.db.episodes[id2].audio == s.db.episodes[id].audio
    requires r.db.episodes[id2].sourceId == s.db.episodes[id].sourceId
    requires w2.measure && PerformUploaded(cfg, later, id2, w2) == (u, Finished)
    ensures u.objects == r.objects
    ensures u.db.episodes
            == r.db.episodes[id2 := Restamp(r.db.episodes[id2], Published, Some(r.db.episodes[id2].createdAt))]
    ensures forall f :: f in r.db.files && !r.db.files[f].kind.Rss? ==>
        f in u.db.files && u.db.files[f] == r.db.files[f]
  {
    var e := s.db.episodes[id];
    var key := CopyTarget(cfg, e, AudioOf(s.db, e).path);
    CopiedAtKey(cfg, s, id, w, r);
    CopyTargetIsStable(cfg, e, AudioOf(s.db, e).path);
    SameTarget(cfg, e, r.db.episodes[id2], key);
    CopyOntoItself(cfg, later, id2, w2, key, u);
  }

  lemma SameTarget(cfg: Settings, e: Episode, e2: Episode, path: string)
    requires e2.sourceId == e.sourceId
    ensures CopyTarget(cfg, e2, path) == CopyTarget(cfg, e, path)
  {
  }

  lemma CopyOntoItself(cfg: Settings, s: State, id: Id, w: UploadWorld, key: string, u: State)
    requires Linked(s.db) && Distinct(w.feeds.scan) && id in s.db.episodes && w.measure
    requires StableNames(cfg, s.db.episodes[id].sourceId)
    requires s.db.episodes[id].audio.Some? && AtKey(s, s.db.episodes[id].audio.value, key)
    requires CopyTarget(cfg, s.db.episodes[id], key) == key
    requires PerformUploaded(cfg, s, id, w) == (u, Finished)
    ensures u.objects == s.objects
    ensures u.db.episodes
            == s.db.episodes[id := Restamp(s.db.episodes[id], Published, Some(s.db.episodes[id].createdAt))]
    ensures forall f :: f in s.db.files && !s.db.files[f].kind.Rss? ==>
        f in u.db.files && u.db.files[f] == s.db.files[f]
  {
    FinishedIsCopied(cfg, s, id, w);
    PublishCopyEffect(cfg, s, id, w);
    PublishCopyRows(cfg, s, id, w);
    PublishCopyShape(cfg, s, id, w);
    RewrittenSame(cfg, s, id, w, key, u);
  }

  lemma PublishCopyShape(cfg: Settings, s: State, id: Id, w: UploadWorld)
    requires Linked(s.db) && Distinct(w.feeds.scan) && id in s.db.episodes && s.db.episodes[id].audio.Some?
    requires AudioOf(s.db, s.db.episodes[id]).path in s.objects
    ensures SameShape(s.db, PublishCopy(cfg, s, id, w).0.db)
  {
    var t := CopiedState(cfg, s, id, w);
    var rows := Affected(t.db, s.db.episodes[id].sourceId, w.feeds);
    CopiedShape(cfg, s, id, w);
    ShapeKeepsLinked(s.db, t.db);
    GenerateTouches(cfg, t, rows, w.feeds);
    ShapeTransitive(s.db, t.db, Generate(cfg, t, rows, w.feeds).0.db);
  }

  lemma RewrittenSame(cfg: Settings, s: State, id: Id, w: UploadWorld, key: string, u: State)
    requires id in s.db.episodes && CopyRecorded(cfg, s, id, w, u) && w.measure
    requires StableNames(cfg, s.db.episodes[id].sourceId)
    requires s.db.episodes[id].audio.Some? && AtKey(s, s.db.episodes[id].audio.value, key)
    requires CopyTarget(cfg, s.db.episodes[id], key) == key
    requires SameShape(s.db, u.db)
    ensures u.objects == s.objects
    ensures forall f :: f in s.db.files && !s.db.files[f].kind.Rss? ==>
        f in u.db.files && u.db.files[f] == s.db.files[f]
  {
    var e := s.db.episodes[id];
    MeasuredAtKey(cfg, e, key, u.objects, w.measure);
    assert FileShape(s.db.files[e.audio.value], u.db.files[e.audio.value]);
  }
}
