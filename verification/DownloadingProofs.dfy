/** A download run keeps the rows consistent, whatever the outside world answers. */
module DownloadingProofs {
  import opened Wrappers
  import opened Rows
  import opened Queries
  import opened Naming
  import opened Consistency
  import opened Feeds
  import opened Downloading

  /** `e` is the row of a downloadable episode, up to status, as the worker loaded it. */
  ghost predicate Drives(db: Database, id: Id, e: Episode) {
    id in db.episodes && EpisodeShape(e, db.episodes[id]) && !e.sourceType.Upload?
  }

  ghost predicate Keeps(cat: Catalogue, a: Database, b: Database) {
    SameShape(a, b) && Preserves(cat, a, b)
  }

  lemma DrivesOn(a: Database, b: Database, id: Id, e: Episode)
    requires SameShape(a, b) && Drives(a, id, e)
    ensures Drives(b, id, e)
  {
  }

  /** The driver's key, read off the row the worker holds. */
  lemma DriverKey(cat: Catalogue, db: Database, id: Id, e: Episode, j: Id)
    requires Sound(cat) && Traceable(cat, db) && Drives(db, id, e) && j in db.episodes
    ensures AudioOf(db, db.episodes[j]).sourceUrl == AudioOf(db, e).sourceUrl <==> db.episodes[j].sourceId == e.sourceId
    ensures db.episodes[j].sourceId == e.sourceId ==> db.episodes[j].sourceType == e.sourceType
    ensures db.episodes[j].audio.Some? && db.episodes[j].audio.value in db.files
  {
  }

  // -------- single updates

  /** A change of shape that keeps agreement and playability keeps consistency. */
  lemma KeepsFrom(cat: Catalogue, a: Database, b: Database)
    requires Traceable(cat, a) && SameShape(a, b) && Agreed(b) && (Playable(a) ==> Playable(b))
    ensures Keeps(cat, a, b)
  {
    ShapeKeepsTraceable(cat, a, b);
  }

  lemma DemotePlays(db: Database, sourceId: string, sourceType: SourceType, status: Status)
    requires Playable(db) && !status.Published?
    ensures Playable(SetFamily(db, sourceId, sourceType, status, None))
  {
  }

  lemma DemoteKeeps(cat: Catalogue, db: Database, sourceId: string, sourceType: SourceType, status: Status)
    requires Structured(cat, db) && !status.Published?
    ensures Keeps(cat, db, SetFamily(db, sourceId, sourceType, status, None))
  {
    SetFamilyShape(db, sourceId, sourceType, status, None);
    SameFilesAgree(db, SetFamily(db, sourceId, sourceType, status, None));
    if Playable(db) {
      DemotePlays(db, sourceId, sourceType, status);
    }
    KeepsFrom(cat, db, SetFamily(db, sourceId, sourceType, status, None));
  }

  lemma MarkPlays(db: Database, id: Id, status: Status)
    requires Playable(db) && !status.Published?
    ensures Playable(SetStatus(db, id, status))
  {
  }

  lemma MarkKeeps(cat: Catalogue, db: Database, id: Id, status: Status)
    requires Structured(cat, db) && !status.Published?
    ensures Keeps(cat, db, SetStatus(db, id, status))
  {
    SetStatusShape(db, id, status);
    SameFilesAgree(db, SetStatus(db, id, status));
    if Playable(db) {
      MarkPlays(db, id, status);
    }
    KeepsFrom(cat, db, SetStatus(db, id, status));
  }

  lemma RepathPlays(db: Database, url: string, key: string)
    requires Playable(db)
    ensures Playable(SetFiles(db, url, FilePatch(Some(key), None, None)))
  {
  }

  lemma RepathKeeps(cat: Catalogue, db: Database, url: string, key: string)
    requires Structured(cat, db)
    ensures Keeps(cat, db, SetFiles(db, url, FilePatch(Some(key), None, None)))
  {
    SetFilesShape(db, url, FilePatch(Some(key), None, None));
    SetFilesAgreed(db, url, FilePatch(Some(key), None, None));
    if Playable(db) {
      RepathPlays(db, url, key);
    }
    KeepsFrom(cat, db, SetFiles(db, url, FilePatch(Some(key), None, None)));
  }

  /** The episodes that use the audio rows with the driver's source URL are those of its source. */
  ghost predicate KeysMeet(db: Database, e: Episode) {
    forall j :: j in db.episodes ==>
      && db.episodes[j].audio.Some? && db.episodes[j].audio.value in db.files
      && (AudioOf(db, db.episodes[j]).sourceUrl == AudioOf(db, e).sourceUrl <==> db.episodes[j].sourceId == e.sourceId)
      && (db.episodes[j].sourceId == e.sourceId ==> db.episodes[j].sourceType == e.sourceType)
  }

  lemma DriverKeysMeet(cat: Catalogue, db: Database, id: Id, e: Episode)
    requires Sound(cat) && Traceable(cat, db) && Drives(db, id, e)
    ensures KeysMeet(db, e)
  {
    forall j | j in db.episodes
      ensures db.episodes[j].audio.Some? && db.episodes[j].audio.value in db.files
      ensures AudioOf(db, db.episodes[j]).sourceUrl == AudioOf(db, e).sourceUrl <==>
          db.episodes[j].sourceId == e.sourceId
      ensures db.episodes[j].sourceId == e.sourceId ==> db.episodes[j].sourceType == e.sourceType
    {
      DriverKey(cat, db, id, e, j);
    }
  }

  /** Publishing a source makes available exactly the audio rows its episodes use. */
  lemma PublishFamilyPlays(db: Database, e: Episode, size: nat)
    requires Playable(db) && KeysMeet(db, e)
    ensures Playable(PublishFamily(db, e, size))
  {
    var r := PublishFamily(db, e, size);
    forall j | j in r.episodes && r.episodes[j].status.Published? ensures CanPlay(r, r.episodes[j]) {
      if db.episodes[j].sourceId != e.sourceId {
        assert CanPlay(db, db.episodes[j]);
      }
    }
  }

  lemma PublishFamilyShape(db: Database, e: Episode, size: nat)
    requires Agreed(db)
    ensures SameShape(db, PublishFamily(db, e, size)) && Agreed(PublishFamily(db, e, size))
  {
    var mid := SetFamily(db, e.sourceId, e.sourceType, Published, Some(e.createdAt));
    SetFamilyShape(db, e.sourceId, e.sourceType, Published, Some(e.createdAt));
    SameFilesAgree(db, mid);
    SetFilesShape(mid, AudioOf(db, e).sourceUrl, FilePatch(None, Some(size), Some(true)));
    SetFilesAgreed(mid, AudioOf(db, e).sourceUrl, FilePatch(None, Some(size), Some(true)));
    ShapeTransitive(db, mid, PublishFamily(db, e, size));
  }

  lemma PublishFamilyKeeps(cat: Catalogue, db: Database, id: Id, e: Episode, size: nat)
    requires Sound(cat) && Structured(cat, db) && Drives(db, id, e)
    ensures Keeps(cat, db, PublishFamily(db, e, size))
  {
    DriverKeysMeet(cat, db, id, e);
    PublishFamilyShape(db, e, size);
    if Playable(db) {
      PublishFamilyPlays(db, e, size);
    }
    KeepsFrom(cat, db, PublishFamily(db, e, size));
  }

  /** The failed fetch makes unavailable only audio rows whose episodes leave PUBLISHED. */
  lemma FailFamilyPlays(db: Database, e: Episode)
    requires Playable(db) && KeysMeet(db, e)
    ensures Playable(FailFamily(db, e))
  {
  }

  lemma FailFamilyShape(db: Database, e: Episode)
    requires Agreed(db)
    ensures SameShape(db, FailFamily(db, e)) && Agreed(FailFamily(db, e))
  {
    var mid := SetFamily(db, e.sourceId, e.sourceType, Status.Error, None);
    SetFamilyShape(db, e.sourceId, e.sourceType, Status.Error, None);
    SameFilesAgree(db, mid);
    SetFilesShape(mid, AudioOf(db, e).sourceUrl, FilePatch(None, None, Some(false)));
    SetFilesAgreed(mid, AudioOf(db, e).sourceUrl, FilePatch(None, None, Some(false)));
    ShapeTransitive(db, mid, FailFamily(db, e));
  }

  lemma FailFamilyKeeps(cat: Catalogue, db: Database, id: Id, e: Episode)
    requires Sound(cat) && Structured(cat, db) && Drives(db, id, e)
    ensures Keeps(cat, db, FailFamily(db, e))
  {
    DriverKeysMeet(cat, db, id, e);
    FailFamilyShape(db, e);
    if Playable(db) {
      FailFamilyPlays(db, e);
    }
    KeepsFrom(cat, db, FailFamily(db, e));
  }

  lemma GenerateKeeps(cat: Catalogue, cfg: Settings, s: State, rows: seq<Id>, w: FeedWorld)
    requires Structured(cat, s.db) && Distinct(w.scan)
    requires forall p :: p in rows ==> p in s.db.podcasts
    ensures Keeps(cat, s.db, Generate(cfg, s, rows, w).0.db)
  {
    GenerateTouches(cfg, s, rows, w);
    FeedRowsKeep(cat, s, Generate(cfg, s, rows, w).0);
  }

  lemma FeedRowsPlay(s: State, r: State)
    requires Linked(s.db) && Playable(s.db) && OnlyFeedRows(s, r)
    ensures Playable(r.db)
  {
    forall i | i in r.db.episodes && r.db.episodes[i].status.Published? ensures CanPlay(r.db, r.db.episodes[i]) {
      assert CanPlay(s.db, s.db.episodes[i]) && EpisodeLinked(s.db, s.db.episodes[i]);
    }
  }

  lemma FeedRowsKeep(cat: Catalogue, s: State, r: State)
    requires Structured(cat, s.db) && OnlyFeedRows(s, r)
    ensures Keeps(cat, s.db, r.db)
  {
    forall i | i in s.db.episodes ensures AudioOf(r.db, r.db.episodes[i]) == AudioOf(s.db, s.db.episodes[i]) {
      assert EpisodeLinked(s.db, s.db.episodes[i]);
    }
    SameAudioAgrees(s.db, r.db);
    if Playable(s.db) {
      FeedRowsPlay(s, r);
    }
    KeepsFrom(cat, s.db, r.db);
  }

  // -------- the run, inside out

  lemma PublishKeeps(cat: Catalogue, cfg: Settings, s: State, id: Id, e: Episode, size: nat, w: World, exit: Exit)
    requires Sound(cat) && Structured(cat, s.db) && Drives(s.db, id, e)
    requires Distinct(w.feeds.scan) && Distinct(w.feeds.podcastScan)
    ensures Keeps(cat, s.db, Publish(cfg, s, e, size, w, exit).0.db)
  {
    var t := s.(db := PublishFamily(s.db, e, size));
    PublishFamilyKeeps(cat, s.db, id, e, size);
    GenerateKeeps(cat, cfg, t, Affected(t.db, e.sourceId, w.feeds), w.feeds);
    ShapeTransitive(s.db, t.db, RefreshFeeds(cfg, t, e.sourceId, w.feeds).0.db);
  }

  lemma KeepsSelf(cat: Catalogue, db: Database)
    requires Structured(cat, db)
    ensures Keeps(cat, db, db)
  {
  }

  lemma KeepsOn(cat: Catalogue, a: Database, b: Database, c: Database)
    requires Keeps(cat, a, b) && Keeps(cat, b, c)
    ensures Keeps(cat, a, c)
  {
    ShapeTransitive(a, b, c);
  }

  lemma SentKeeps(cat: Catalogue, cfg: Settings, s: State, id: Id, e: Episode, w: World)
    requires Sound(cat) && Structured(cat, s.db) && Drives(s.db, id, e) && w.upload.Stored?
    requires Distinct(w.feeds.scan) && Distinct(w.feeds.podcastScan)
    ensures Keeps(cat, s.db, SendFile(cfg, s, e, w).0.db)
  {
    var key := StorageKey(cfg, e, AudioOf(s.db, e).path);
    var t := Recorded(cfg, s, e, w.upload.size);
    RepathKeeps(cat, s.db, AudioOf(s.db, e).sourceUrl, key);
    DrivesOn(s.db, t.db, id, e);
    PublishKeeps(cat, cfg, t, id, e, StoredSize(t.objects, key, w.measure), w, Finished);
    KeepsOn(cat, s.db, t.db, SendFile(cfg, s, e, w).0.db);
  }

  lemma SendFileKeeps(cat: Catalogue, cfg: Settings, s: State, id: Id, e: Episode, w: World)
    requires Sound(cat) && Structured(cat, s.db) && Drives(s.db, id, e)
    requires Distinct(w.feeds.scan) && Distinct(w.feeds.podcastScan)
    ensures Keeps(cat, s.db, SendFile(cfg, s, e, w).0.db)
  {
    if w.upload.Stored? {
      SentKeeps(cat, cfg, s, id, e, w);
    } else if w.upload.Refused? {
      DemoteKeeps(cat, s.db, e.sourceId, e.sourceType, Status.Error);
    } else {
      KeepsSelf(cat, s.db);
    }
  }

  lemma NoFileKeeps(cat: Catalogue, s: State, id: Id, e: Episode, exit: Exit)
    requires Sound(cat) && Structured(cat, s.db) && Drives(s.db, id, e)
    ensures Keeps(cat, s.db, WithoutFile(s, e, exit).db)
  {
    if exit.SourceFailed? {
      FailFamilyKeeps(cat, s.db, id, e);
    } else {
      KeepsSelf(cat, s.db);
    }
  }

  lemma FetchFileKeeps(cat: Catalogue, cfg: Settings, s: State, id: Id, e: Episode, w: World)
    requires Sound(cat) && Structured(cat, s.db) && Drives(s.db, id, e)
    requires Distinct(w.feeds.scan) && Distinct(w.feeds.podcastScan)
    ensures Keeps(cat, s.db, FetchFile(cfg, s, e, w).0.db)
  {
    var obtained := ObtainFile(s.db, e, w);
    if obtained.None? {
      SendFileKeeps(cat, cfg, s, id, e, w);
    } else {
      NoFileKeeps(cat, s, id, e, obtained.value);
    }
  }

  lemma ReloadKeeps(cat: Catalogue, cfg: Settings, s: State, id: Id, e: Episode, w: World)
    requires Sound(cat) && Structured(cat, s.db) && Drives(s.db, id, e)
    requires Distinct(w.feeds.scan) && Distinct(w.feeds.podcastScan)
    ensures Keeps(cat, s.db, Reload(cfg, s, e, w).0.db)
  {
    var t := Claim(cfg, s, e, w);
    DemoteKeeps(cat, s.db, e.sourceId, e.sourceType, Downloading);
    DrivesOn(s.db, t.db, id, e);
    FetchFileKeeps(cat, cfg, t, id, e, w);
    KeepsOn(cat, s.db, t.db, FetchFile(cfg, t, e, w).0.db);
  }

  lemma PerformKeeps(cat: Catalogue, cfg: Settings, s: State, id: Id, w: World)
    requires Sound(cat) && Structured(cat, s.db)
    requires id in s.db.episodes ==> !s.db.episodes[id].sourceType.Upload?
    requires Distinct(w.feeds.scan) && Distinct(w.feeds.podcastScan)
    ensures Keeps(cat, s.db, Perform(cfg, s, id, w).0.db)
  {
    if CanStart(s.db, id, w) {
      var e := s.db.episodes[id];
      if IsStored(s, e, w) {
        PublishKeeps(cat, cfg, s, id, e, StoredSize(s.objects, AudioOf(s.db, e).path, w.probe), w, AlreadyStored);
      } else {
        ReloadKeeps(cat, cfg, s, id, e, w);
      }
    } else {
      KeepsSelf(cat, s.db);
    }
  }

  lemma HandleKeeps(cat: Catalogue, s: State, id: Id, exit: Exit)
    requires Structured(cat, s.db)
    ensures Keeps(cat, s.db, Handle(s, id, exit).db)
  {
    if exit.Stopped? {
      MarkKeeps(cat, s.db, id, New);
    } else if exit.Crashed? {
      MarkKeeps(cat, s.db, id, Status.Error);
    } else {
      KeepsSelf(cat, s.db);
    }
  }

  /** A worker run keeps every transaction invariant, at each of its exits. */
  lemma WorkKeeps(cat: Catalogue, cfg: Settings, s: State, id: Id, w: World)
    requires Sound(cat) && Structured(cat, s.db)
    requires id in s.db.episodes ==> !s.db.episodes[id].sourceType.Upload?
    requires Distinct(w.feeds.scan) && Distinct(w.feeds.podcastScan)
    ensures Keeps(cat, s.db, Work(cfg, s, id, w).0.db)
  {
    var (r, exit) := Perform(cfg, s, id, w);
    PerformKeeps(cat, cfg, s, id, w);
    HandleKeeps(cat, r, id, exit);
    KeepsOn(cat, s.db, r.db, Handle(r, id, exit).db);
    KeepsSelf(cat, s.db);
  }
}
