/** Where an episode comes from and where its audio is kept, over all runs: watch URLs belong to the source, and a
    downloaded source has an object of its own. */
module Origins {
  import opened Wrappers
  import opened Strings
  import opened Rows
  import opened Queries
  import opened Naming
  import opened Keys
  import opened Consistency
  import opened Feeds
  import opened Downloading
  import opened DownloadingProofs
  import opened DownloadingOutcomes
  import opened RunEffects
  import opened RunTheorems
  import opened Uploading
  import opened UploadTheorems
  import opened Creation
  import opened Deletion
  import opened Requests
  import opened RequestProofs
  import opened Machine
  import opened FeedRuns

  /** Ids of downloadable sources have no slash, and digests are those of one hash function. */
  ghost predicate Plain(cat: Catalogue, cfg: Settings) {
    Digests(cfg.md5) && forall id :: !cat.kindOf(id).Upload? ==> Without('/', id)
  }

  /** A downloadable episode has a watch URL of its source. */
  ghost predicate Watched(cat: Catalogue, e: Episode) {
    !e.sourceType.Upload? ==> e.watchUrl.Some? && cat.origin(e.watchUrl.value) == Some(e.sourceId)
  }

  /** If ids are plain, a file that comes from a source is not stored yet, or stored under the source's own key. */
  ghost predicate OwnPlace(cat: Catalogue, cfg: Settings, f: File) {
    Plain(cat, cfg) && cat.origin(f.sourceUrl).Some? ==>
      f.path == "" || f.path == OwnKey(cfg, cat.origin(f.sourceUrl).value)
  }

  ghost predicate Originated(cat: Catalogue, cfg: Settings, db: Database) {
    && (forall i :: i in db.episodes ==> Watched(cat, db.episodes[i]))
    && (forall f :: f in db.files ==> OwnPlace(cat, cfg, db.files[f]))
  }

  predicate SameOrigin(d: Episode, e: Episode) {
    e.sourceId == d.sourceId && e.sourceType == d.sourceType && e.watchUrl == d.watchUrl
  }

  predicate SamePlace(f: File, g: File) {
    g.path == f.path && g.sourceUrl == f.sourceUrl
  }

  ghost predicate EpisodesDescend(cat: Catalogue, a: map<Id, Episode>, b: map<Id, Episode>) {
    forall i :: i in b ==> (i in a && SameOrigin(a[i], b[i])) || Watched(cat, b[i])
  }

  ghost predicate FilesDescend(cat: Catalogue, cfg: Settings, a: map<Id, File>, b: map<Id, File>) {
    forall f :: f in b ==> (f in a && SamePlace(a[f], b[f])) || OwnPlace(cat, cfg, b[f])
  }

  lemma DescendOriginated(cat: Catalogue, cfg: Settings, a: Database, b: Database)
    requires Originated(cat, cfg, a)
    requires EpisodesDescend(cat, a.episodes, b.episodes) && FilesDescend(cat, cfg, a.files, b.files)
    ensures Originated(cat, cfg, b)
  {
  }

  lemma ShapeDescends(cat: Catalogue, a: Database, b: Database)
    requires SameShape(a, b)
    ensures EpisodesDescend(cat, a.episodes, b.episodes)
  {
    forall i | i in b.episodes ensures i in a.episodes && SameOrigin(a.episodes[i], b.episodes[i]) {
      assert EpisodeShape(a.episodes[i], b.episodes[i]);
    }
  }

  // -------- requests

  lemma AddedOriginated(cat: Catalogue, cfg: Settings, db: Database, image: File, audio: File, e: Episode)
    requires Watched(cat, e) && OwnPlace(cat, cfg, image) && OwnPlace(cat, cfg, audio)
    ensures
      var r := AddEpisode(db, image, audio, e).0;
      EpisodesDescend(cat, db.episodes, r.episodes) && FilesDescend(cat, cfg, db.files, r.files)
  {
  }

  lemma CopiedWatched(cat: Catalogue, db: Database, o: Order, d: Id)
    requires Sound(cat) && Structured(cat, db) && Plausible(cat, db, o) && d in db.episodes
    requires Watched(cat, db.episodes[d]) && db.episodes[d].sourceId == o.source.id
    ensures Watched(cat, CopiedEpisode(o, db.episodes[d]))
  {
    CopyFitsOrder(cat, db, o, d);
  }

  lemma CopyOriginated(cat: Catalogue, cfg: Settings, db: Database, o: Order, d: Id)
    requires Sound(cat) && Structured(cat, db) && Plausible(cat, db, o) && Originated(cat, cfg, db)
    requires d in db.episodes && db.episodes[d].sourceId == o.source.id && AddCopy(db, o, db.episodes[d]).Ok?
    ensures
      var r := AddCopy(db, o, db.episodes[d]).value.0;
      EpisodesDescend(cat, db.episodes, r.episodes) && FilesDescend(cat, cfg, db.files, r.files)
  {
    var same := db.episodes[d];
    CopiedWatched(cat, db, o, d);
    AddedOriginated(cat, cfg, db, CopyOf(db.files[same.image.value], o.user, true),
                    CopyOf(db.files[same.audio.value], o.user, false), CopiedEpisode(o, same));
  }

  lemma FreshOriginated(cat: Catalogue, cfg: Settings, db: Database, o: Order, m: MediaInfo)
    requires Plausible(cat, db, o) && o.media == Some(m)
    ensures
      var r := AddFresh(db, o, m).0;
      EpisodesDescend(cat, db.episodes, r.episodes) && FilesDescend(cat, cfg, db.files, r.files)
  {
    AddedOriginated(cat, cfg, db, File(Image, "", 0, m.thumbnailUrl, false, o.user, ""),
                    File(Audio, "", 0, m.watchUrl, false, o.user, ""), NewEpisode(o, o.source.kind, Some(m.watchUrl)));
  }

  lemma CreationDescends(cat: Catalogue, cfg: Settings, db: Database, o: Order)
    requires Sound(cat) && Structured(cat, db) && Plausible(cat, db, o) && Originated(cat, cfg, db)
    requires CreateEpisode(db, o).Ok?
    ensures
      var r := CreateEpisode(db, o).value.0;
      EpisodesDescend(cat, db.episodes, r.episodes) && FilesDescend(cat, cfg, db.files, r.files)
  {
    var same := SameEpisodes(db, o);
    if FindIn(db.episodes, same, o.podcast).None? {
      if same != [] {
        assert same[0] in same;
        CopyOriginated(cat, cfg, db, o, same[0]);
      } else {
        FreshOriginated(cat, cfg, db, o, o.media.value);
      }
    }
  }

  lemma MarkedOriginated(cat: Catalogue, cfg: Settings, db: Database, id: Id, status: Status)
    requires Originated(cat, cfg, db)
    ensures Originated(cat, cfg, SetStatus(db, id, status))
  {
  }

  lemma CreateOriginated(cat: Catalogue, cfg: Settings, db: Database, o: Order)
    requires Sound(cat) && Structured(cat, db) && Plausible(cat, db, o) && Originated(cat, cfg, db)
    requires RequestCreate(db, o).Ok?
    ensures Originated(cat, cfg, RequestCreate(db, o).value)
  {
    var (r, id) := CreateEpisode(db, o).value;
    CreationDescends(cat, cfg, db, o);
    DescendOriginated(cat, cfg, db, r);
    MarkedOriginated(cat, cfg, r, id, Status.Downloading);
  }

  lemma FileOriginated(cat: Catalogue, cfg: Settings, db: Database, f: File)
    requires Originated(cat, cfg, db) && OwnPlace(cat, cfg, f)
    ensures Originated(cat, cfg, InsertFile(db, f))
  {
  }

  lemma PlacedOriginated(cat: Catalogue, cfg: Settings, db: Database, u: UploadOrder, audio: Id)
    requires Originated(cat, cfg, db)
    ensures Originated(cat, cfg, WithEpisode(db, u, audio))
  {
  }

  lemma UploadOriginated(cat: Catalogue, cfg: Settings, db: Database, u: UploadOrder)
    requires Sound(cat) && Originated(cat, cfg, db) && RequestUploaded(db, u).Ok?
    ensures Originated(cat, cfg, RequestUploaded(db, u).value)
  {
    var (a, audio) := WithAudio(db, u);
    if u.audioRow.None? {
      FileOriginated(cat, cfg, db, File(Audio, u.path.GetOr(""), u.size.GetOr(0), "", false, u.user, u.hash));
    }
    CoverOriginated(cat, cfg, a, u);
    PlacedOriginated(cat, cfg, WithCover(a, u), u, audio);
  }

  lemma CoverOriginated(cat: Catalogue, cfg: Settings, db: Database, u: UploadOrder)
    requires Sound(cat) && Originated(cat, cfg, db)
    ensures Originated(cat, cfg, WithCover(db, u))
  {
    if u.cover.Some? {
      var c := u.cover.value;
      FileOriginated(cat, cfg, db, File(Image, c.path.GetOr(""), c.size, "", true, u.user, c.hash.GetOr("")));
    }
  }

  lemma RemovedOriginated(cat: Catalogue, cfg: Settings, db: Database, gone: set<Id>, r: Database)
    requires Originated(cat, cfg, db) && RemovedAtOnce(db, gone, r)
    ensures Originated(cat, cfg, r)
  {
  }

  lemma RemovalOriginated(cat: Catalogue, cfg: Settings, db: Database, user: Id, podcast: Id, scan: seq<Id>)
    requires Originated(cat, cfg, db) && Visits(scan, db.episodes) && DeletePodcast(db, user, podcast, scan).Ok?
    ensures Originated(cat, cfg, DeletePodcast(db, user, podcast, scan).value)
  {
    DeletePodcastMeans(db, user, podcast, scan);
    var mid :| RemovedAtOnce(db, EpisodesOf(db, podcast), mid)
               && DeletePodcast(db, user, podcast, scan).value == mid.(podcasts := db.podcasts - {podcast});
    RemovedOriginated(cat, cfg, db, EpisodesOf(db, podcast), mid);
  }

  lemma OwnerOriginated(cat: Catalogue, cfg: Settings, s: State, a: Action)
    requires Originated(cat, cfg, s.db) && WellPosed(s, a)
    requires a.StartDownload? || a.CancelDownload? || a.RemoveEpisode?
    ensures Originated(cat, cfg, Apply(cfg, s, a).db)
  {
    if a.StartDownload? {
      MarkedOriginated(cat, cfg, s.db, a.id, Status.Downloading);
    } else if a.CancelDownload? {
      MarkedOriginated(cat, cfg, s.db, a.id, Canceling);
    } else if RequestDelete(s.db, a.user, a.id).Ok? {
      SafeDeleteRemoves(s.db, a.id);
      RemovedOriginated(cat, cfg, s.db, {a.id}, RequestDelete(s.db, a.user, a.id).value);
    }
  }

  lemma OtherOriginated(cat: Catalogue, cfg: Settings, s: State, a: Action)
    requires Sound(cat) && Linked(s.db) && FilesSourced(cat, s.db.files) && Originated(cat, cfg, s.db)
    requires WellPosed(s, a)
    requires a.CreatePodcast? || a.ConfigurePodcast? || a.StoreCover? || a.Archive? || a.ChangeObjects?
    ensures Originated(cat, cfg, Apply(cfg, s, a).db)
  {
    if a.Archive? {
      MarkedOriginated(cat, cfg, s.db, a.id, Archived);
    }
  }

  lemma InsertOriginated(cat: Catalogue, cfg: Settings, s: State, a: Action)
    requires Sound(cat) && Structured(cat, s.db) && Originated(cat, cfg, s.db) && Allowed(cat, s, a)
    requires a.CreateFrom? || a.CreateUploaded? || a.RemovePodcast?
    ensures Originated(cat, cfg, Apply(cfg, s, a).db)
  {
    if a.CreateFrom? {
      if RequestCreate(s.db, a.order).Ok? {
        CreateOriginated(cat, cfg, s.db, a.order);
      }
    } else if a.CreateUploaded? {
      if RequestUploaded(s.db, a.upload).Ok? {
        UploadOriginated(cat, cfg, s.db, a.upload);
      }
    } else if DeletePodcast(s.db, a.user, a.podcast, a.scan).Ok? {
      RemovalOriginated(cat, cfg, s.db, a.user, a.podcast, a.scan);
    }
  }

  // -------- workers

  /** A row that is not audio comes from no source. */
  lemma OtherPlaces(cat: Catalogue, cfg: Settings, files: map<Id, File>, f: Id)
    requires FilesSourced(cat, files) && f in files && !files[f].kind.Audio?
    ensures OwnPlace(cat, cfg, files[f])
  {
  }

  lemma PatchDescends(cat: Catalogue, cfg: Settings, a: Database, b: Database, url: string, p: FilePatch)
    requires FilesSourced(cat, b.files) && MediaPatched(a, b, url, p) && SameShape(a, b)
    requires p.path.None? || (cat.origin(url).Some? && p.path.value == OwnKey(cfg, cat.origin(url).value))
    ensures FilesDescend(cat, cfg, a.files, b.files)
  {
    forall f | f in b.files
      ensures (f in a.files && SamePlace(a.files[f], b.files[f])) || OwnPlace(cat, cfg, b.files[f])
    {
      assert FileShape(a.files[f], b.files[f]);
      if a.files[f].kind.Rss? {
        OtherPlaces(cat, cfg, b.files, f);
      }
    }
  }

  lemma MediaDescends(cat: Catalogue, cfg: Settings, s: State, e: Episode, w: World, exit: Exit,
                      objects: map<string, nat>, r: State, key: string)
    requires FilesSourced(cat, r.db.files) && SameShape(s.db, r.db) && MediaAfter(cfg, s, e, w, exit, objects, r)
    requires key == StorageKey(cfg, e, AudioOf(s.db, e).path)
    requires cat.origin(AudioOf(s.db, e).sourceUrl) == Some(e.sourceId) && key == OwnKey(cfg, e.sourceId)
    ensures FilesDescend(cat, cfg, s.db.files, r.db.files)
  {
    var url := AudioOf(s.db, e).sourceUrl;
    if Sent(cfg, s, e, w, objects, r) {
      PatchDescends(cat, cfg, s.db, r.db, url,
                    FilePatch(Some(key), Some(StoredSize(r.objects, key, w.measure)), Some(true)));
    } else if NothingSent(s, e, objects, r) {
      PatchDescends(cat, cfg, s.db, r.db, url, UNCHANGED);
    } else if Found(s, e, w, objects, r) {
      PatchDescends(cat, cfg, s.db, r.db, url, FilePatch(None, Some(AudioOf(s.db, e).size), Some(true)));
    } else {
      PatchDescends(cat, cfg, s.db, r.db, url, FilePatch(None, None, Some(false)));
    }
  }

  /** The key a download run writes: its source's own. */
  lemma DriverKeyIsOwn(cat: Catalogue, cfg: Settings, db: Database, id: Id)
    requires Plain(cat, cfg) && Structured(cat, db) && Originated(cat, cfg, db)
    requires id in db.episodes && !db.episodes[id].sourceType.Upload?
    ensures
      var e := db.episodes[id];
      && cat.origin(AudioOf(db, e).sourceUrl) == Some(e.sourceId) && Without('/', e.sourceId)
      && (AudioOf(db, e).path == "" || AudioOf(db, e).path == OwnKey(cfg, e.sourceId))
      && StorageKey(cfg, e, AudioOf(db, e).path) == OwnKey(cfg, e.sourceId)
  {
    var e := db.episodes[id];
    assert EpisodeSourced(cat, db, e) && EpisodeLinked(db, e);
    assert OwnPlace(cat, cfg, db.files[e.audio.value]);
    OwnKeyAgain(cfg, e, AudioOf(db, e).path);
  }

  lemma DownloadOriginated(cat: Catalogue, cfg: Settings, s: State, id: Id, w: World)
    requires Sound(cat) && Structured(cat, s.db) && Originated(cat, cfg, s.db)
    requires Distinct(w.feeds.scan) && Distinct(w.feeds.podcastScan)
    requires id in s.db.episodes && !s.db.episodes[id].sourceType.Upload?
    ensures Originated(cat, cfg, Work(cfg, s, id, w).0.db)
  {
    var (h, exit) := Run(cfg, s, id, w);
    RunShape(cat, cfg, s, id, w);
    ShapeKeepsSourced(cat, s.db, h.db);
    if Plain(cat, cfg) {
      DriverKeyIsOwn(cat, cfg, s.db, id);
      RunFixesFiles(cfg, s, id, w);
      MediaDescends(cat, cfg, s, s.db.episodes[id], w, exit, StoreBefore(cfg, s, id, w), h,
                    OwnKey(cfg, s.db.episodes[id].sourceId));
    }
    ShapeDescends(cat, s.db, h.db);
    DescendOriginated(cat, cfg, s.db, h.db);
  }

  lemma RecordedDescends(cat: Catalogue, cfg: Settings, db: Database, id: Id, key: string, size: nat, r: Database)
    requires Sound(cat) && Structured(cat, db) && id in db.episodes && db.episodes[id].sourceType.Upload?
    requires RowsRecorded(db, id, key, size, r) && SameShape(db, r)
    ensures FilesDescend(cat, cfg, db.files, r.files)
  {
    assert EpisodeSourced(cat, db, db.episodes[id]) && EpisodeLinked(db, db.episodes[id]);
    ShapeKeepsSourced(cat, db, r);
    forall f | f in r.files
      ensures (f in db.files && SamePlace(db.files[f], r.files[f])) || OwnPlace(cat, cfg, r.files[f])
    {
      assert FileShape(db.files[f], r.files[f]);
      if db.files[f].kind.Rss? {
        OtherPlaces(cat, cfg, r.files, f);
      }
    }
  }

  lemma UploadRunOriginated(cat: Catalogue, cfg: Settings, s: State, id: Id, w: UploadWorld)
    requires Sound(cat) && Structured(cat, s.db) && Originated(cat, cfg, s.db) && Distinct(w.feeds.scan)
    requires id in s.db.episodes && s.db.episodes[id].sourceType.Upload? && Copies(s, id, w)
    ensures Originated(cat, cfg, PublishCopy(cfg, s, id, w).0.db)
  {
    var r := PublishCopy(cfg, s, id, w).0;
    var key := CopyTarget(cfg, s.db.episodes[id], AudioOf(s.db, s.db.episodes[id]).path);
    PublishCopyEffect(cfg, s, id, w);
    PublishCopyShape(cfg, s, id, w);
    RecordedDescends(cat, cfg, s.db, id, key, SizeByName(r.objects, cfg, Basename(key), w.measure), r.db);
    ShapeDescends(cat, s.db, r.db);
    DescendOriginated(cat, cfg, s.db, r.db);
  }

  lemma HandledOriginated(cat: Catalogue, cfg: Settings, r: State, id: Id, exit: Exit)
    requires Originated(cat, cfg, r.db)
    ensures Originated(cat, cfg, Handle(r, id, exit).db)
  {
    MarkedOriginated(cat, cfg, r.db, id, New);
    MarkedOriginated(cat, cfg, r.db, id, Status.Error);
  }

  lemma UploadWorkOriginated(cat: Catalogue, cfg: Settings, s: State, id: Id, w: UploadWorld)
    requires Sound(cat) && Structured(cat, s.db) && Originated(cat, cfg, s.db) && Distinct(w.feeds.scan)
    requires id in s.db.episodes && s.db.episodes[id].sourceType.Upload?
    ensures Originated(cat, cfg, WorkUploaded(cfg, s, id, w).0.db)
  {
    var (r, exit) := PerformUploaded(cfg, s, id, w);
    if Copies(s, id, w) {
      UploadRunOriginated(cat, cfg, s, id, w);
      HandledOriginated(cat, cfg, r, id, exit);
    } else {
      NoCopyEnds(cfg, s, id, w);
      NoCopyOriginated(cat, cfg, s, id, Handle(r, id, exit));
    }
  }

  lemma NoCopyOriginated(cat: Catalogue, cfg: Settings, s: State, id: Id, h: State)
    requires Originated(cat, cfg, s.db)
    requires h == s || exists status: Status :: !status.Published? && h == s.(db := SetStatus(s.db, id, status))
    ensures Originated(cat, cfg, h.db)
  {
    if h != s {
      var status: Status :| !status.Published? && h == s.(db := SetStatus(s.db, id, status));
      MarkedOriginated(cat, cfg, s.db, id, status);
    }
  }

  lemma FeedRowsOriginated(cat: Catalogue, cfg: Settings, s: State, r: State)
    requires Sourced(cat, s.db) && Originated(cat, cfg, s.db) && OnlyFeedRows(s, r)
    ensures Originated(cat, cfg, r.db)
  {
    ShapeDescends(cat, s.db, r.db);
    ShapeKeepsSourced(cat, s.db, r.db);
    forall f | f in r.db.files && r.db.files[f] != s.db.files[f] ensures OwnPlace(cat, cfg, r.db.files[f]) {
      assert FileShape(s.db.files[f], r.db.files[f]);
      OtherPlaces(cat, cfg, r.db.files, f);
    }
    DescendOriginated(cat, cfg, s.db, r.db);
  }

  lemma WorkOriginated(cat: Catalogue, cfg: Settings, s: State, a: Action)
    requires Sound(cat) && Structured(cat, s.db) && Originated(cat, cfg, s.db) && Allowed(cat, s, a)
    requires a.WorkDownload? || a.WorkUpload?
    ensures Originated(cat, cfg, Apply(cfg, s, a).db)
  {
    if a.id in s.db.episodes {
      if a.WorkDownload? {
        AllowedDownload(cat, s, a.id, a.world);
        DownloadOriginated(cat, cfg, s, a.id, a.world);
      } else {
        AllowedUpload(cat, s, a.id, a.uploadWorld);
        UploadWorkOriginated(cat, cfg, s, a.id, a.uploadWorld);
      }
    }
  }

  lemma AllowedDownload(cat: Catalogue, s: State, id: Id, w: World)
    requires Allowed(cat, s, WorkDownload(id, w))
    ensures Distinct(w.feeds.scan) && Distinct(w.feeds.podcastScan)
    ensures id in s.db.episodes ==> !s.db.episodes[id].sourceType.Upload?
  {
  }

  lemma AllowedUpload(cat: Catalogue, s: State, id: Id, w: UploadWorld)
    requires Allowed(cat, s, WorkUpload(id, w))
    ensures Distinct(w.feeds.scan) && Distinct(w.feeds.podcastScan)
    ensures id in s.db.episodes ==> s.db.episodes[id].sourceType.Upload?
  {
  }

  lemma FeedsOriginated(cat: Catalogue, cfg: Settings, s: State, a: Action)
    requires Structured(cat, s.db) && Originated(cat, cfg, s.db) && WellPosed(s, a) && a.WorkFeeds?
    ensures Originated(cat, cfg, Apply(cfg, s, a).db)
  {
    GenerateTouches(cfg, s, a.podcasts, a.feedWorld);
    FeedRowsOriginated(cat, cfg, s, Generate(cfg, s, a.podcasts, a.feedWorld).0);
  }

  // -------- runs

  lemma StepOriginated(cat: Catalogue, cfg: Settings, s: State, a: Action)
    requires Sound(cat) && Structured(cat, s.db) && Originated(cat, cfg, s.db) && Allowed(cat, s, a)
    ensures Originated(cat, cfg, Apply(cfg, s, a).db)
  {
    if a.WorkDownload? || a.WorkUpload? {
      WorkOriginated(cat, cfg, s, a);
    } else if a.WorkFeeds? {
      FeedsOriginated(cat, cfg, s, a);
    } else if a.CreateFrom? || a.CreateUploaded? || a.RemovePodcast? {
      InsertOriginated(cat, cfg, s, a);
    } else if a.StartDownload? || a.CancelDownload? || a.RemoveEpisode? {
      OwnerOriginated(cat, cfg, s, a);
    } else {
      OtherOriginated(cat, cfg, s, a);
    }
  }

  lemma {:induction false} RunOriginated(cat: Catalogue, cfg: Settings, actions: seq<Action>, t: State)
    requires Sound(cat) && Reaches(cat, cfg, actions, t, AnyStep)
    ensures Structured(cat, t.db) && Originated(cat, cfg, t.db)
    decreases |actions|
  {
    ReachableIsStructured(cat, cfg, actions, t, AnyStep);
    if actions != [] {
      var last := actions[|actions| - 1];
      var mid :| Leads(cat, cfg, EMPTY_STATE, actions[..|actions| - 1], mid, AnyStep) && Allowed(cat, mid, last)
                 && t == Apply(cfg, mid, last);
      RunOriginated(cat, cfg, actions[..|actions| - 1], mid);
      StepOriginated(cat, cfg, mid, last);
    }
  }

  /** In every reachable state a downloadable episode has a watch URL that belongs to its source. */
  lemma ReachableIsWatched(cat: Catalogue, cfg: Settings, actions: seq<Action>, s: State, i: Id)
    requires Sound(cat) && Reaches(cat, cfg, actions, s, AnyStep)
    requires i in s.db.episodes && !s.db.episodes[i].sourceType.Upload?
    ensures s.db.episodes[i].watchUrl.Some?
    ensures cat.origin(s.db.episodes[i].watchUrl.value) == Some(s.db.episodes[i].sourceId)
  {
    RunOriginated(cat, cfg, actions, s);
    assert Watched(cat, s.db.episodes[i]);
  }

  /** So no download run from a reachable state ends for want of one. */
  lemma NeverWithoutWatchUrl(cat: Catalogue, cfg: Settings, actions: seq<Action>, s: State, id: Id, w: World)
    requires Sound(cat) && Reaches(cat, cfg, actions, s, AnyStep)
    requires Allowed(cat, s, WorkDownload(id, w))
    ensures !Run(cfg, s, id, w).1.NoWatchUrl?
  {
    if CanStart(s.db, id, w) {
      ReachableIsWatched(cat, cfg, actions, s, id);
      WatchedRuns(cfg, s, id, w);
    }
  }

  lemma WatchedRuns(cfg: Settings, s: State, id: Id, w: World)
    requires CanStart(s.db, id, w) && Distinct(w.feeds.scan) && s.db.episodes[id].watchUrl.GetOr("") != ""
    ensures !Run(cfg, s, id, w).1.NoWatchUrl?
  {
  }

  /** In every reachable state the audio of a downloadable episode is not stored yet, or stored under a key made of the
      source id and its digest. */
  lemma ReachableOwnKey(cat: Catalogue, cfg: Settings, actions: seq<Action>, s: State, i: Id)
    requires Sound(cat) && Plain(cat, cfg) && Reaches(cat, cfg, actions, s, AnyStep)
    requires i in s.db.episodes && !s.db.episodes[i].sourceType.Upload?
    ensures
      var e, path := s.db.episodes[i], AudioOf(s.db, s.db.episodes[i]).path;
      path == "" || path == Join(cfg.audioPrefix, e.sourceId + ("_" + cfg.md5(e.sourceId + "-" + cfg.salt) + ".mp3"))
  {
    RunOriginated(cat, cfg, actions, s);
    DriverKeyIsOwn(cat, cfg, s.db, i);
  }

  /** A download run from a reachable state never replaces or removes the object of another source, however it ends. */
  lemma OthersObjectsStay(cat: Catalogue, cfg: Settings, actions: seq<Action>, s: State, id: Id, w: World,
                          other: string)
    requires Sound(cat) && Plain(cat, cfg) && Reaches(cat, cfg, actions, s, AnyStep)
    requires Allowed(cat, s, WorkDownload(id, w)) && Without('/', other)
    requires id in s.db.episodes ==> s.db.episodes[id].sourceId != other
    ensures
      var key := Join(cfg.audioPrefix, other + ("_" + cfg.md5(other + "-" + cfg.salt) + ".mp3"));
      var r := Work(cfg, s, id, w).0;
      (key in r.objects <==> key in s.objects) && (key in s.objects ==> r.objects[key] == s.objects[key])
  {
    if id in s.db.episodes {
      RunOriginated(cat, cfg, actions, s);
      AllowedDownload(cat, s, id, w);
      OtherObjectStays(cat, cfg, s, id, w, other);
    }
  }

  lemma OtherObjectStays(cat: Catalogue, cfg: Settings, s: State, id: Id, w: World, other: string)
    requires Plain(cat, cfg) && Structured(cat, s.db) && Originated(cat, cfg, s.db)
    requires Distinct(w.feeds.scan) && Distinct(w.feeds.podcastScan) && Without('/', other)
    requires id in s.db.episodes && !s.db.episodes[id].sourceType.Upload? && s.db.episodes[id].sourceId != other
    ensures
      var key := OwnKey(cfg, other);
      var r := Work(cfg, s, id, w).0;
      (key in r.objects <==> key in s.objects) && (key in s.objects ==> r.objects[key] == s.objects[key])
  {
    var e := s.db.episodes[id];
    DriverKeyIsOwn(cat, cfg, s.db, id);
    OwnKeysApart(cfg, e.sourceId, other);
    RemovedKeyApart(cfg, AudioOf(s.db, e).path, e.sourceId, other);
    OtherObjectsStay(cfg, s, id, w, OwnKey(cfg, other));
  }

  /** The key a run removes is not another source's. */
  lemma RemovedKeyApart(cfg: Settings, path: string, x: string, y: string)
    requires Digests(cfg.md5) && Without('/', x) && Without('/', y) && x != y && (path == "" || path == OwnKey(cfg, x))
    ensures Join(cfg.audioPrefix, path) != OwnKey(cfg, y)
  {
    OwnNameShape(cfg, y);
    JoinedName(cfg.audioPrefix, OwnName(cfg, y));
    if path == "" {
      JoinedName(cfg.audioPrefix, "");
    } else {
      UnfinishedKeyApart(cfg, x, y);
    }
  }

  /** After a success from a reachable state the object is under the source's own key, and every episode of the source
      says so. */
  lemma SuccessIsOwn(cat: Catalogue, cfg: Settings, actions: seq<Action>, s: State, id: Id, w: World, j: Id)
    requires Sound(cat) && Plain(cat, cfg) && Reaches(cat, cfg, actions, s, AnyStep)
    requires Allowed(cat, s, WorkDownload(id, w)) && Work(cfg, s, id, w).1.SUCCESS?
    requires id in s.db.episodes && j in s.db.episodes && s.db.episodes[j].sourceId == s.db.episodes[id].sourceId
    ensures
      var r := Work(cfg, s, id, w).0;
      var x := s.db.episodes[id].sourceId;
      var key := Join(cfg.audioPrefix, x + ("_" + cfg.md5(x + "-" + cfg.salt) + ".mp3"));
      && w.upload.Stored? && key in r.objects && r.objects[key] == w.upload.size
      && j in r.db.episodes && AudioOf(r.db, r.db.episodes[j]).path == key && AudioOf(r.db, r.db.episodes[j]).available
      && AudioOf(r.db, r.db.episodes[j]).size == StoredSize(r.objects, key, w.measure)
  {
    RunOriginated(cat, cfg, actions, s);
    AllowedDownload(cat, s, id, w);
    SuccessRecordsOwn(cat, cfg, s, id, w, j);
  }

  lemma SuccessRecordsOwn(cat: Catalogue, cfg: Settings, s: State, id: Id, w: World, j: Id)
    requires Sound(cat) && Plain(cat, cfg) && Structured(cat, s.db) && Originated(cat, cfg, s.db)
    requires Distinct(w.feeds.scan) && Distinct(w.feeds.podcastScan) && Work(cfg, s, id, w).1.SUCCESS?
    requires id in s.db.episodes && !s.db.episodes[id].sourceType.Upload?
    requires j in s.db.episodes && s.db.episodes[j].sourceId == s.db.episodes[id].sourceId
    ensures
      var r := Work(cfg, s, id, w).0;
      var key := OwnKey(cfg, s.db.episodes[id].sourceId);
      && w.upload.Stored? && key in r.objects && r.objects[key] == w.upload.size
      && j in r.db.episodes && AudioOf(r.db, r.db.episodes[j]).path == key && AudioOf(r.db, r.db.episodes[j]).available
      && AudioOf(r.db, r.db.episodes[j]).size == StoredSize(r.objects, key, w.measure)
  {
    DriverKeyIsOwn(cat, cfg, s.db, id);
    SuccessSends(cat, cfg, s, id, w, OwnKey(cfg, s.db.episodes[id].sourceId), j);
  }

  lemma SuccessSends(cat: Catalogue, cfg: Settings, s: State, id: Id, w: World, key: string, j: Id)
    requires Sound(cat) && Structured(cat, s.db) && Distinct(w.feeds.scan) && Distinct(w.feeds.podcastScan)
    requires id in s.db.episodes && !s.db.episodes[id].sourceType.Upload? && Work(cfg, s, id, w).1.SUCCESS?
    requires key == StorageKey(cfg, s.db.episodes[id], AudioOf(s.db, s.db.episodes[id]).path)
    requires j in s.db.episodes && s.db.episodes[j].sourceId == s.db.episodes[id].sourceId
    ensures
      var r := Work(cfg, s, id, w).0;
      && w.upload.Stored? && key in r.objects && r.objects[key] == w.upload.size
      && j in r.db.episodes && AudioOf(r.db, r.db.episodes[j]).path == key && AudioOf(r.db, r.db.episodes[j]).available
      && AudioOf(r.db, r.db.episodes[j]).size == StoredSize(r.objects, key, w.measure)
  {
    var r := Work(cfg, s, id, w).0;
    var e := s.db.episodes[id];
    CommittedRun(cfg, s, id, w);
    RunFixesFiles(cfg, s, id, w);
    FirstRun(cat, cfg, s, id, w, r);
    DriverKey(cat, r.db, id, e, j);
    RecordedAt(r.db, j, AudioOf(s.db, e).sourceUrl, key, StoredSize(r.objects, key, w.measure));
  }

  lemma RecordedAt(db: Database, j: Id, url: string, key: string, size: nat)
    requires Linked(db) && Records(db, url, key, size) && j in db.episodes
    requires AudioOf(db, db.episodes[j]).sourceUrl == url
    ensures
      var f := AudioOf(db, db.episodes[j]);
      f.path == key && f.size == size && f.available
  {
    assert EpisodeLinked(db, db.episodes[j]);
  }
}
