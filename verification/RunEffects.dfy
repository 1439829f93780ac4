/** What a successful download run leaves in files and feeds, and why running again does nothing. */
module RunEffects {
  import opened Wrappers
  import opened Rows
  import opened Queries
  import opened Naming
  import opened Consistency
  import opened Feeds
  import opened Downloading
  import opened DownloadingProofs
  import opened DownloadingOutcomes

  /** All audio and image rows are as in `a`, except that those with this URL are patched. */
  ghost predicate MediaPatched(a: Database, b: Database, url: string, p: FilePatch) {
    && a.files.Keys == b.files.Keys
    && forall f :: f in a.files && !a.files[f].kind.Rss? ==>
         b.files[f] == if a.files[f].sourceUrl == url then Patched(a.files[f], p) else a.files[f]
  }

  const UNCHANGED := FilePatch(None, None, None)

  /** No file was sent. */
  ghost predicate NothingSent(s: State, e: Episode, objects: map<string, nat>, r: State) {
    r.objects == objects && MediaPatched(s.db, r.db, AudioOf(s.db, e).sourceUrl, UNCHANGED)
  }

  /** The file was sent to its key, and recorded and published under it with the size found there. */
  ghost predicate Sent(cfg: Settings, s: State, e: Episode, w: World, objects: map<string, nat>, r: State) {
    var key := StorageKey(cfg, e, AudioOf(s.db, e).path);
    && w.upload.Stored? && r.objects == objects[key := w.upload.size]
    && MediaPatched(s.db, r.db, AudioOf(s.db, e).sourceUrl,
                    FilePatch(Some(key), Some(StoredSize(r.objects, key, w.measure)), Some(true)))
  }

  /** The file was found in the store, and published with the recorded size. */
  ghost predicate Found(s: State, e: Episode, w: World, objects: map<string, nat>, r: State) {
    && IsStored(s, e, w) && r.objects == objects
    && MediaPatched(s.db, r.db, AudioOf(s.db, e).sourceUrl, FilePatch(None, Some(AudioOf(s.db, e).size), Some(true)))
  }

  /** The audio and image rows, and the store, by the way a download ended; `objects` is the store as it was when a
      file was asked for. */
  ghost predicate FetchAfter(cfg: Settings, s: State, e: Episode, w: World, exit: Exit, objects: map<string, nat>,
                             r: State) {
    match exit
    case Finished => Sent(cfg, s, e, w, objects, r)
    case AlreadyStored => false
    case SourceFailed =>
      r.objects == objects && MediaPatched(s.db, r.db, AudioOf(s.db, e).sourceUrl, FilePatch(None, None, Some(false)))
    case Crashed => NothingSent(s, e, objects, r) || Sent(cfg, s, e, w, objects, r)
    case _ => NothingSent(s, e, objects, r)
  }

  /** The same for a whole run: without a download the file was found, and the run ended normally or crashed. */
  ghost predicate MediaAfter(cfg: Settings, s: State, e: Episode, w: World, exit: Exit, objects: map<string, nat>,
                             r: State) {
    FetchAfter(cfg, s, e, w, exit, objects, r) || (Found(s, e, w, objects, r) && (exit.AlreadyStored? || exit.Crashed?))
  }

  /** Feeds of podcasts without an episode of the source stay, and those whose upload is refused. */
  ghost predicate FeedsKept(before: State, r: State, sourceId: string, w: FeedWorld) {
    forall p :: (p !in Affected(before.db, sourceId, w) || p in w.refused) && p in before.feeds ==>
      p in r.feeds && r.feeds[p] == before.feeds[p]
  }

  /** Affected podcasts' feeds whose upload is accepted list what `r` says is published; the others are as before. */
  ghost predicate FeedsRedone(before: State, r: State, sourceId: string, w: FeedWorld)
    requires Distinct(w.scan)
  {
    && FeedsKept(before, r, sourceId, w)
    && (forall p :: p in Affected(before.db, sourceId, w) && p !in w.refused ==>
          p in r.feeds && r.feeds[p] == FeedItems(r.db.episodes, w.scan, p))
  }

  ghost predicate FeedsAfter(s: State, sourceId: string, w: FeedWorld, exit: Exit, r: State)
    requires Distinct(w.scan)
  {
    match exit
    case Finished => FeedsRedone(s, r, sourceId, w)
    case AlreadyStored => FeedsRedone(s, r, sourceId, w)
    case Crashed => FeedsKept(s, r, sourceId, w)
    case _ => r.feeds == s.feeds
  }

  lemma PublishEffect(cfg: Settings, s: State, e: Episode, size: nat, w: World, exit: Exit)
    requires Linked(s.db) && Distinct(w.feeds.scan) && Distinct(w.feeds.podcastScan)
    ensures
      var (r, end) := Publish(cfg, s, e, size, w, exit);
      && r.objects == s.objects
      && MediaPatched(s.db, r.db, AudioOf(s.db, e).sourceUrl, FilePatch(None, Some(size), Some(true)))
      && FeedsKept(s, r, e.sourceId, w.feeds)
      && (end != Crashed ==> FeedsRedone(s, r, e.sourceId, w.feeds))
  {
    var t := s.(db := PublishFamily(s.db, e, size));
    PublishShape(s.db, e, size);
    ShapeKeepsLinked(s.db, t.db);
    AffectedKept(s.db, t.db, e.sourceId, w.feeds);
    GenerateTouches(cfg, t, Affected(t.db, e.sourceId, w.feeds), w.feeds);
    GenerateFeeds(cfg, t, Affected(t.db, e.sourceId, w.feeds), w.feeds);
  }

  lemma PatchTwice(a: Database, c: Database, url: string, key: string, size: nat)
    requires MediaPatched(SetFiles(a, url, FilePatch(Some(key), None, None)), c, url,
        FilePatch(None, Some(size), Some(true)))
    ensures MediaPatched(a, c, url, FilePatch(Some(key), Some(size), Some(true)))
  {
  }

  lemma SentEffect(cfg: Settings, s: State, e: Episode, w: World)
    requires Linked(s.db) && Distinct(w.feeds.scan) && Distinct(w.feeds.podcastScan) && w.upload.Stored?
    ensures
      var (r, exit) := SendFile(cfg, s, e, w);
      Sent(cfg, s, e, w, s.objects, r) && FeedsAfter(s, e.sourceId, w.feeds, exit, r)
  {
    var key := StorageKey(cfg, e, AudioOf(s.db, e).path);
    var url := AudioOf(s.db, e).sourceUrl;
    var t := Recorded(cfg, s, e, w.upload.size);
    SetFilesShape(s.db, url, FilePatch(Some(key), None, None));
    ShapeKeepsLinked(s.db, t.db);
    AffectedKept(s.db, t.db, e.sourceId, w.feeds);
    PublishEffect(cfg, t, e, StoredSize(t.objects, key, w.measure), w, Finished);
    PatchTwice(s.db, SendFile(cfg, s, e, w).0.db, url, key, StoredSize(t.objects, key, w.measure));
  }

  lemma SendFileEffect(cfg: Settings, s: State, e: Episode, w: World)
    requires Linked(s.db) && Distinct(w.feeds.scan) && Distinct(w.feeds.podcastScan)
    ensures
      var (r, exit) := SendFile(cfg, s, e, w);
      FetchAfter(cfg, s, e, w, exit, s.objects, r) && FeedsAfter(s, e.sourceId, w.feeds, exit, r)
  {
    SendFileExit(cfg, s, e, w);
    if w.upload.Stored? {
      SentEffect(cfg, s, e, w);
    }
  }

  lemma FailedMedia(db: Database, e: Episode)
    ensures MediaPatched(db, FailFamily(db, e), AudioOf(db, e).sourceUrl, FilePatch(None, None, Some(false)))
  {
  }

  lemma FetchFileEffect(cfg: Settings, s: State, e: Episode, w: World)
    requires Linked(s.db) && Distinct(w.feeds.scan) && Distinct(w.feeds.podcastScan)
    ensures
      var (r, exit) := FetchFile(cfg, s, e, w);
      FetchAfter(cfg, s, e, w, exit, s.objects, r) && FeedsAfter(s, e.sourceId, w.feeds, exit, r)
  {
    ObtainCauses(s.db, e, w);
    if HasFile(s.db, e, w) {
      SendFileEffect(cfg, s, e, w);
    } else if FetchFails(e, w) {
      FailedMedia(s.db, e);
    }
  }

  lemma AfterClaim(cfg: Settings, s: State, t: State, e: Episode, w: World, exit: Exit, objects: map<string, nat>,
                   r: State)
    requires s.db.files == t.db.files && FetchAfter(cfg, t, e, w, exit, objects, r)
    ensures FetchAfter(cfg, s, e, w, exit, objects, r)
  {
  }

  lemma ReloadEffect(cfg: Settings, s: State, e: Episode, w: World)
    requires Linked(s.db) && Distinct(w.feeds.scan) && Distinct(w.feeds.podcastScan)
    ensures
      var (r, exit) := Reload(cfg, s, e, w);
      && FetchAfter(cfg, s, e, w, exit, RemoveUnfinished(cfg, s, e, w).objects, r)
      && FeedsAfter(s, e.sourceId, w.feeds, exit, r)
  {
    var t := Claim(cfg, s, e, w);
    SetFamilyShape(s.db, e.sourceId, e.sourceType, Downloading, None);
    ShapeKeepsLinked(s.db, t.db);
    AffectedKept(s.db, t.db, e.sourceId, w.feeds);
    FetchFileEffect(cfg, t, e, w);
    FetchFileExit(cfg, t, e, w);
    var (r, exit) := FetchFile(cfg, t, e, w);
    AfterClaim(cfg, s, t, e, w, exit, t.objects, r);
  }

  /** The store once an unfinished object has been removed, if the run gets that far. */
  function StoreBefore(cfg: Settings, s: State, id: Id, w: World): map<string, nat> {
    if CanStart(s.db, id, w) && !IsStored(s, s.db.episodes[id], w) then
        RemoveUnfinished(cfg, s, s.db.episodes[id], w).objects
    else s.objects
  }

  lemma PerformEffect(cfg: Settings, s: State, id: Id, w: World)
    requires Linked(s.db) && id in s.db.episodes && Distinct(w.feeds.scan) && Distinct(w.feeds.podcastScan)
    ensures
      var e := s.db.episodes[id];
      var (r, exit) := Perform(cfg, s, id, w);
      && MediaAfter(cfg, s, e, w, exit, StoreBefore(cfg, s, id, w), r)
      && FeedsAfter(s, e.sourceId, w.feeds, exit, r)
  {
    var e := s.db.episodes[id];
    if CanStart(s.db, id, w) {
      if IsStored(s, e, w) {
        PublishEffect(cfg, s, e, StoredSize(s.objects, AudioOf(s.db, e).path, w.probe), w, AlreadyStored);
      } else {
        ReloadEffect(cfg, s, e, w);
      }
    }
  }

  /** What a run does to audio and image rows, to objects and to feeds, by the way it ends. */
  lemma RunFixesFiles(cfg: Settings, s: State, id: Id, w: World)
    requires Linked(s.db) && id in s.db.episodes && Distinct(w.feeds.scan) && Distinct(w.feeds.podcastScan)
    ensures
      var e := s.db.episodes[id];
      var (r, exit) := Run(cfg, s, id, w);
      && MediaAfter(cfg, s, e, w, exit, StoreBefore(cfg, s, id, w), r)
      && FeedsAfter(s, e.sourceId, w.feeds, exit, r)
  {
    PerformEffect(cfg, s, id, w);
    var (r, exit) := Perform(cfg, s, id, w);
    HandledEffect(cfg, s, s.db.episodes[id], w, r, id, exit, StoreBefore(cfg, s, id, w));
  }

  lemma HandledEffect(cfg: Settings, s: State, e: Episode, w: World, r: State, id: Id, exit: Exit,
                      objects: map<string, nat>)
    requires Distinct(w.feeds.scan)
    requires MediaAfter(cfg, s, e, w, exit, objects, r) && FeedsAfter(s, e.sourceId, w.feeds, exit, r)
    ensures
      var h := Handle(r, id, exit);
      MediaAfter(cfg, s, e, w, exit, objects, h) && FeedsAfter(s, e.sourceId, w.feeds, exit, h)
  {
  }

  /** The store after a run is the one it had when it asked for a file, or has the file sent in addition. */
  ghost predicate StoreAfter(objects: map<string, nat>, key: string, upload: Upload, after: map<string, nat>) {
    after == objects || (upload.Stored? && after == objects[key := upload.size])
  }

  lemma SentStore(cfg: Settings, s: State, e: Episode, w: World, objects: map<string, nat>, r: State, key: string)
    requires Sent(cfg, s, e, w, objects, r) && key == StorageKey(cfg, e, AudioOf(s.db, e).path)
    ensures StoreAfter(objects, key, w.upload, r.objects)
  {
  }

  lemma FetchStore(cfg: Settings, s: State, e: Episode, w: World, exit: Exit, objects: map<string, nat>, r: State)
    requires FetchAfter(cfg, s, e, w, exit, objects, r)
    ensures r.objects == objects || Sent(cfg, s, e, w, objects, r)
  {
  }

  lemma RunStore(cfg: Settings, s: State, e: Episode, w: World, exit: Exit, objects: map<string, nat>, r: State,
                 key: string)
    requires MediaAfter(cfg, s, e, w, exit, objects, r) && key == StorageKey(cfg, e, AudioOf(s.db, e).path)
    ensures StoreAfter(objects, key, w.upload, r.objects)
  {
    if FetchAfter(cfg, s, e, w, exit, objects, r) {
      FetchStore(cfg, s, e, w, exit, objects, r);
      if r.objects != objects {
        SentStore(cfg, s, e, w, objects, r, key);
      }
    }
  }

  /** Whatever way it ends, a run touches two objects at most: the one it sends, and the one it takes for unfinished. */
  lemma OtherObjectsStay(cfg: Settings, s: State, id: Id, w: World, key: string)
    requires Linked(s.db) && id in s.db.episodes && Distinct(w.feeds.scan) && Distinct(w.feeds.podcastScan)
    requires key != StorageKey(cfg, s.db.episodes[id], AudioOf(s.db, s.db.episodes[id]).path)
    requires key != Join(cfg.audioPrefix, AudioOf(s.db, s.db.episodes[id]).path)
    ensures
      var r := Work(cfg, s, id, w).0;
      (key in r.objects <==> key in s.objects) && (key in s.objects ==> r.objects[key] == s.objects[key])
  {
    RunFixesFiles(cfg, s, id, w);
    var (r, exit) := Run(cfg, s, id, w);
    var e := s.db.episodes[id];
    RunStore(cfg, s, e, w, exit, StoreBefore(cfg, s, id, w), r, StorageKey(cfg, e, AudioOf(s.db, e).path));
  }
}
