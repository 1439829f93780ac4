/** From the empty system to a published episode and a skipped second run: what the other results assume
    does come about. */
module FirstDay {
  import opened Wrappers
  import opened Rows
  import opened Queries
  import opened Naming
  import opened Consistency
  import opened Feeds
  import opened Downloading
  import opened DownloadingOutcomes
  import opened DownloadingProofs
  import opened RunEffects
  import opened RunTheorems
  import opened Creation
  import opened Requests
  import opened Machine

  /** An order for the first podcast, from a source the catalogue knows, nothing listed yet. */
  ghost predicate FirstOrder(cat: Catalogue, o: Order) {
    && o.podcast == 2 && o.scan == [] && o.media.Some? && !o.source.kind.Upload?
    && cat.kindOf(o.source.id) == o.source.kind
    && cat.origin(o.media.value.watchUrl) == Some(o.source.id) && cat.origin(o.media.value.thumbnailUrl) == None
  }

  /** Everything outside works, and the file is not empty. */
  predicate AllWell(w: World) {
    && w.saveJob && w.probe && w.fetch.Fetched? && w.process.Done? && w.upload.Stored? && w.upload.size > 0 && w.measure
    && w.feeds.scan == [5] && w.feeds.podcastScan == [2] && w.feeds.broken == {} && w.feeds.refused == {}
    && w.signal && w.commit
  }

  function PodcastDay(): State {
    EMPTY_STATE.(db := AddPodcast(EMPTY_DATABASE, 1, "p", false))
  }

  function EpisodeDay(o: Order): State
    requires o.media.Some?
  {
    PodcastDay().(db := AddFresh(PodcastDay().db, o, o.media.value).0)
  }

  lemma PodcastDayReached(cat: Catalogue, cfg: Settings)
    ensures Reaches(cat, cfg, [CreatePodcast(1, "p", false)], PodcastDay(), Careful)
  {
    var a := CreatePodcast(1, "p", false);
    assert Reaches(cat, cfg, [], EMPTY_STATE, Careful);
    ReachOn(cat, cfg, [], EMPTY_STATE, a, Careful);
    assert [] + [a] == [a];
  }

  lemma EpisodeDayReached(cat: Catalogue, cfg: Settings, o: Order)
    requires FirstOrder(cat, o)
    ensures Reaches(cat, cfg, [CreatePodcast(1, "p", false), CreateFrom(o)], EpisodeDay(o), Careful)
  {
    PodcastDayReached(cat, cfg);
    assert RequestCreate(PodcastDay().db, o) == Ok(EpisodeDay(o).db);
    ReachOn(cat, cfg, [CreatePodcast(1, "p", false)], PodcastDay(), CreateFrom(o), Careful);
    assert [CreatePodcast(1, "p", false)] + [CreateFrom(o)] == [CreatePodcast(1, "p", false), CreateFrom(o)];
  }

  /** The rows of the second day: one podcast, and one new episode without a file. */
  lemma EpisodeDayRows(o: Order)
    requires o.media.Some? && o.podcast == 2
    ensures
      var s := EpisodeDay(o);
      && s.db.episodes.Keys == {5} && s.db.podcasts.Keys == {2} && s.objects == map[]
      && s.db.episodes[5].podcast == 2 && s.db.episodes[5].sourceId == o.source.id
      && s.db.episodes[5].sourceType == o.source.kind
      && s.db.episodes[5].status.New? && s.db.episodes[5].watchUrl == Some(o.media.value.watchUrl)
      && AudioOf(s.db, s.db.episodes[5]).path == "" && s.db.episodes[5].audio == Some(4) && 4 in s.db.files
  {
  }

  /** The state is that of the second day, as far as a run needs it. */
  ghost predicate Waiting(cat: Catalogue, s: State, sourceId: string) {
    && Consistent(cat, s.db) && s.db.episodes.Keys == {5} && s.db.podcasts.Keys == {2}
    && s.db.episodes[5].podcast == 2 && s.db.episodes[5].sourceId == sourceId && !s.db.episodes[5].sourceType.Upload?
    && s.db.episodes[5].status.New? && s.db.episodes[5].watchUrl.GetOr("") != ""
    && AudioOf(s.db, s.db.episodes[5]).path == "" && s.db.episodes[5].audio == Some(4) && 4 in s.db.files
  }

  lemma EpisodeDayWaits(cat: Catalogue, cfg: Settings, o: Order)
    requires Sound(cat) && FirstOrder(cat, o)
    ensures Waiting(cat, EpisodeDay(o), o.source.id)
  {
    EpisodeDayReached(cat, cfg, o);
    ReachableIsConsistent(cat, cfg, [CreatePodcast(1, "p", false), CreateFrom(o)], EpisodeDay(o));
    EpisodeDayRows(o);
  }

  lemma WaitingScans(cat: Catalogue, s: State, sourceId: string, w: World)
    requires Waiting(cat, s, sourceId) && AllWell(w)
    ensures ScansFit(s.db, w.feeds) && Holders(s.db.episodes, sourceId) == {2}
  {
    assert s.db.episodes[5].podcast in Holders(s.db.episodes, sourceId);
  }

  lemma WaitingFinishes(cat: Catalogue, cfg: Settings, s: State, sourceId: string, w: World)
    requires Waiting(cat, s, sourceId) && AllWell(w) && Distinct(w.feeds.scan)
    ensures Run(cfg, s, 5, w).1.Finished?
  {
    assert CanStart(s.db, 5, w) && !IsStored(s, s.db.episodes[5], w) && HasFile(s.db, s.db.episodes[5], w);
    ExitCauses(cfg, s, 5, w);
  }

  lemma FinishedCommits(cfg: Settings, s: State, id: Id, w: World)
    requires Distinct(w.feeds.scan) && Run(cfg, s, id, w).1.Finished? && w.signal && w.commit
    ensures Work(cfg, s, id, w) == (Run(cfg, s, id, w).0, SUCCESS)
  {
  }

  lemma WaitingSucceeds(cat: Catalogue, cfg: Settings, s: State, sourceId: string, w: World)
    requires Waiting(cat, s, sourceId) && AllWell(w)
    ensures ScansFit(s.db, w.feeds) && Holders(s.db.episodes, sourceId) == {2}
    ensures Run(cfg, s, 5, w).1.Finished? && Work(cfg, s, 5, w) == (Run(cfg, s, 5, w).0, SUCCESS)
  {
    WaitingScans(cat, s, sourceId, w);
    WaitingFinishes(cat, cfg, s, sourceId, w);
    FinishedCommits(cfg, s, 5, w);
  }

  lemma WaitingPublishes(cat: Catalogue, cfg: Settings, s: State, sourceId: string, w: World, r: State)
    requires Sound(cat) && Waiting(cat, s, sourceId) && AllWell(w) && Work(cfg, s, 5, w) == (r, SUCCESS)
    ensures 5 in r.db.episodes && r.db.episodes[5].status == Published && Fresh(r.db, r.feeds, 2)
  {
    WaitingSucceeds(cat, cfg, s, sourceId, w);
    CodeFixesStatuses(cfg, s, 5, w);
    PlayableIsDated(s.db);
    RunRefreshesFeeds(cat, cfg, s, 5, w);
    WorkKeeps(cat, cfg, s, 5, w);
  }

  /** From the empty system: a podcast, an episode from a known source, and a run while everything outside works
      leave the episode PUBLISHED and its podcast's feed fresh. */
  lemma FirstRunPublishes(cat: Catalogue, cfg: Settings, o: Order, w: World, s: State, r: State)
    requires Sound(cat) && FirstOrder(cat, o) && AllWell(w) && s == EpisodeDay(o) && r == Work(cfg, s, 5, w).0
    ensures Reaches(cat, cfg, [CreatePodcast(1, "p", false), CreateFrom(o)] + [WorkDownload(5, w)], r, Careful)
    ensures 5 in r.db.episodes && r.db.episodes[5].status == Published && Fresh(r.db, r.feeds, 2)
  {
    EpisodeDayReached(cat, cfg, o);
    EpisodeDayWaits(cat, cfg, o);
    WaitingReached(cat, cfg, [CreatePodcast(1, "p", false), CreateFrom(o)], s, o.source.id, w, r);
  }

  lemma WaitingReached(cat: Catalogue, cfg: Settings, a: seq<Action>, s: State, sourceId: string, w: World, r: State)
    requires Sound(cat) && Waiting(cat, s, sourceId) && AllWell(w) && Reaches(cat, cfg, a, s, Careful)
    requires r == Work(cfg, s, 5, w).0
    ensures Reaches(cat, cfg, a + [WorkDownload(5, w)], r, Careful)
    ensures 5 in r.db.episodes && r.db.episodes[5].status == Published && Fresh(r.db, r.feeds, 2)
  {
    WaitingSucceeds(cat, cfg, s, sourceId, w);
    WaitingPublishes(cat, cfg, s, sourceId, w, r);
    StepReached(cat, cfg, a, s, w);
  }

  lemma StepReached(cat: Catalogue, cfg: Settings, a: seq<Action>, s: State, w: World)
    requires Reaches(cat, cfg, a, s, Careful) && ScansFit(s.db, w.feeds)
    requires 5 in s.db.episodes ==> !s.db.episodes[5].sourceType.Upload?
    ensures Reaches(cat, cfg, a + [WorkDownload(5, w)], Work(cfg, s, 5, w).0, Careful)
  {
    ReachOn(cat, cfg, a, s, WorkDownload(5, w), Careful);
  }

  /** And a second run in the state so reached is skipped. */
  lemma SecondRunSkipped(cat: Catalogue, cfg: Settings, s: State, sourceId: string, w: World, r: State)
    requires Sound(cat) && Waiting(cat, s, sourceId) && AllWell(w) && cfg.audioPrefix != "" && r == Work(cfg, s, 5, w).0
    ensures Work(cfg, r, 5, w).1.SKIP? && Work(cfg, r, 5, w).0.objects == r.objects
  {
    WaitingSucceeds(cat, cfg, s, sourceId, w);
    FirstRun(cat, cfg, s, 5, w, r);
    FirstSize(cat, cfg, s, w, r);
    RerunSkips(cat, cfg, s, 5, w, r, 5, w);
  }

  lemma StoredAsUploaded(cfg: Settings, s: State, id: Id, w: World)
    requires Linked(s.db) && id in s.db.episodes && Distinct(w.feeds.scan) && Distinct(w.feeds.podcastScan)
    requires Run(cfg, s, id, w).1.Finished? && w.upload.Stored? && w.measure && cfg.audioPrefix != ""
    ensures
      var key := StorageKey(cfg, s.db.episodes[id], AudioOf(s.db, s.db.episodes[id]).path);
      StoredSize(Run(cfg, s, id, w).0.objects, key, w.measure) == w.upload.size
  {
    RunFixesFiles(cfg, s, id, w);
    KeyNotEmpty(cfg, s.db.episodes[id], AudioOf(s.db, s.db.episodes[id]).path);
  }

  lemma KeyNotEmpty(cfg: Settings, e: Episode, path: string)
    requires cfg.audioPrefix != ""
    ensures StorageKey(cfg, e, path) != ""
  {
  }

  lemma FirstSize(cat: Catalogue, cfg: Settings, s: State, w: World, r: State)
    requires Sound(cat) && Consistent(cat, s.db) && 5 in s.db.episodes && !s.db.episodes[5].sourceType.Upload?
    requires AllWell(w) && Distinct(w.feeds.scan) && Distinct(w.feeds.podcastScan) && cfg.audioPrefix != ""
    requires Run(cfg, s, 5, w) == (r, Finished)
    ensures 5 in r.db.episodes && AudioOf(r.db, r.db.episodes[5]).size != 0
    ensures r.db.episodes[5].sourceId == s.db.episodes[5].sourceId
  {
    var e := s.db.episodes[5];
    FirstRun(cat, cfg, s, 5, w, r);
    StoredAsUploaded(cfg, s, 5, w);
    RecordedSize(r.db, 5, e, AudioOf(s.db, e).sourceUrl, StorageKey(cfg, e, AudioOf(s.db, e).path), w.upload.size);
  }

  lemma RecordedSize(db: Database, id: Id, e: Episode, url: string, key: string, size: nat)
    requires Linked(db) && Drives(db, id, e) && AudioOf(db, e).sourceUrl == url && Records(db, url, key, size)
    ensures id in db.episodes && AudioOf(db, db.episodes[id]).size == size && db.episodes[id].sourceId == e.sourceId
  {
    assert EpisodeLinked(db, db.episodes[id]);
  }

  /** A catalogue of one source, an order from it, and a world where everything works. */
  lemma SomeFirstDay()
    ensures exists cat: Catalogue, o: Order, w: World :: Sound(cat) && FirstOrder(cat, o) && AllWell(w)
  {
    var cat := Catalogue((url: string) => if |url| == 1 then Some("v") else None,
                         (id: string) => if |id| == 1 then Youtube else Upload);
    var o := Order(2, 1, SourceInfo("v", Youtube), Some(MediaInfo("w", "")), 0, []);
    var feeds := FeedWorld([5], [2], {}, {}, map[]);
    var w := World(true, true, true, Fetched, Done, Stored(1), true, feeds, true, true);
    forall h ensures cat.kindOf(UploadId(h)) == Upload {
      assert |UploadId(h)| >= 4;
    }
    assert Sound(cat) && FirstOrder(cat, o) && AllWell(w);
  }
}
