/** The two whole-system promises of a download run: fresh feeds, and idempotence. */
module RunTheorems {
  import opened Wrappers
  import opened Rows
  import opened Queries
  import opened Naming
  import opened Consistency
  import opened Feeds
  import opened Downloading
  import opened DownloadingProofs
  import opened DownloadingOutcomes
  import opened RunEffects

  /** The feed of `p` lists exactly its PUBLISHED episodes, each once, newest first. */
  ghost predicate Fresh(db: Database, feeds: map<Id, seq<Id>>, p: Id) {
    && p in feeds && Distinct(feeds[p])
    && (forall i :: i in feeds[p] <==>
        i in db.episodes && db.episodes[i].podcast == p && db.episodes[i].status.Published?)
    && NewestFirst(db.episodes, feeds[p])
  }

  ghost predicate ScansFit(db: Database, w: FeedWorld) {
    Visits(w.scan, db.episodes) && Visits(w.podcastScan, db.podcasts)
  }

  lemma ListedIsFresh(db: Database, feeds: map<Id, seq<Id>>, p: Id, scan: seq<Id>)
    requires Dated(db) && Visits(scan, db.episodes)
    requires p in feeds && feeds[p] == FeedItems(db.episodes, scan, p)
    ensures Fresh(db, feeds, p)
  {
  }

  lemma UntouchedStaysFresh(a: Database, b: Database, feeds: map<Id, seq<Id>>, feeds2: map<Id, seq<Id>>, p: Id)
    requires Fresh(a, feeds, p) && SameShape(a, b)
    requires p in feeds2 && feeds2[p] == feeds[p]
    requires forall j :: j in a.episodes && a.episodes[j].podcast == p ==> b.episodes[j] == a.episodes[j]
    ensures Fresh(b, feeds2, p)
  {
  }

  lemma RedoneIsFresh(s: State, r: State, e: Episode, w: FeedWorld)
    requires SameShape(s.db, r.db) && Dated(r.db) && ScansFit(s.db, w)
    requires FeedsRedone(s, r, e.sourceId, w)
    requires forall j :: j in s.db.episodes && s.db.episodes[j].sourceId != e.sourceId ==>
        r.db.episodes[j] == s.db.episodes[j]
    requires w.refused !! Holders(s.db.episodes, e.sourceId)
    requires forall p :: p in s.db.podcasts && p !in Holders(s.db.episodes, e.sourceId) ==> Fresh(s.db, s.feeds, p)
    ensures forall p :: p in r.db.podcasts ==> Fresh(r.db, r.feeds, p)
  {
    forall p | p in r.db.podcasts ensures Fresh(r.db, r.feeds, p) {
      if p in Holders(s.db.episodes, e.sourceId) {
        ListedIsFresh(r.db, r.feeds, p, w.scan);
      } else {
        UntouchedStaysFresh(s.db, r.db, s.feeds, r.feeds, p);
      }
    }
  }

  /** What a committed SUCCESS or SKIP amounts to. */
  ghost predicate Succeeded(cat: Catalogue, s: State, e: Episode, r: State, w: FeedWorld)
    requires Distinct(w.scan)
  {
    && Keeps(cat, s.db, r.db)
    && FeedsRedone(s, r, e.sourceId, w)
    && (forall j :: j in s.db.episodes && s.db.episodes[j].sourceId != e.sourceId ==>
        r.db.episodes[j] == s.db.episodes[j])
  }

  lemma OtherSourcesStay(a: Database, b: Database, e: Episode)
    requires b.episodes == FamilyMoved(a, e, (Published, Some(e.createdAt)))
    ensures forall j :: j in a.episodes && a.episodes[j].sourceId != e.sourceId ==> b.episodes[j] == a.episodes[j]
  {
  }

  lemma MovedDated(a: Database, b: Database, e: Episode)
    requires Dated(a) && b.episodes == FamilyMoved(a, e, (Published, Some(e.createdAt)))
    ensures Dated(b)
  {
  }

  lemma SuccessDated(cfg: Settings, s: State, id: Id, w: World)
    requires Dated(s.db) && id in s.db.episodes && Distinct(w.feeds.scan)
    requires Run(cfg, s, id, w).1.Finished? || Run(cfg, s, id, w).1.AlreadyStored?
    ensures Dated(Run(cfg, s, id, w).0.db)
  {
    PerformEpisodes(cfg, s, id, w);
    MovedDated(s.db, Run(cfg, s, id, w).0.db, s.db.episodes[id]);
  }

  lemma SuccessMeans(cat: Catalogue, cfg: Settings, s: State, id: Id, w: World)
    requires Sound(cat) && Structured(cat, s.db)
    requires id in s.db.episodes && !s.db.episodes[id].sourceType.Upload?
    requires Distinct(w.feeds.scan) && Distinct(w.feeds.podcastScan)
    ensures
      var (r, exit) := Run(cfg, s, id, w);
      exit.Finished? || exit.AlreadyStored? ==> Succeeded(cat, s, s.db.episodes[id], r, w.feeds)
  {
    var (r, exit) := Run(cfg, s, id, w);
    if exit.Finished? || exit.AlreadyStored? {
      PerformKeeps(cat, cfg, s, id, w);
      RunFixesFiles(cfg, s, id, w);
      PerformEpisodes(cfg, s, id, w);
      OtherSourcesStay(s.db, r.db, s.db.episodes[id]);
    }
  }

  lemma CommittedRun(cfg: Settings, s: State, id: Id, w: World)
    requires Distinct(w.feeds.scan)
    ensures
      var (r, code) := Work(cfg, s, id, w);
      var (t, exit) := Run(cfg, s, id, w);
      && (code.SUCCESS? ==> r == t && exit.Finished?)
      && (code.SKIP? ==> r == t && exit.AlreadyStored?)
      && (w.signal && w.commit && exit.AlreadyStored? ==> code.SKIP?)
  {
  }

  /** If every podcast without an episode of this source had a fresh feed, then after a successful or
      skipping run whose feed uploads are accepted every podcast has one. */
  lemma RunRefreshesFeeds(cat: Catalogue, cfg: Settings, s: State, id: Id, w: World)
    requires Sound(cat) && Structured(cat, s.db) && Dated(s.db)
    requires id in s.db.episodes && !s.db.episodes[id].sourceType.Upload? && ScansFit(s.db, w.feeds)
    requires Work(cfg, s, id, w).1.SUCCESS? || Work(cfg, s, id, w).1.SKIP?
    requires w.feeds.refused !! Holders(s.db.episodes, s.db.episodes[id].sourceId)
    requires forall p :: p in s.db.podcasts && p !in Holders(s.db.episodes, s.db.episodes[id].sourceId) ==>
               Fresh(s.db, s.feeds, p)
    ensures
      var r := Work(cfg, s, id, w).0;
      forall p :: p in r.db.podcasts ==> Fresh(r.db, r.feeds, p)
  {
    CommittedRun(cfg, s, id, w);
    SuccessMeans(cat, cfg, s, id, w);
    SuccessDated(cfg, s, id, w);
    RedoneIsFresh(s, Work(cfg, s, id, w).0, s.db.episodes[id], w.feeds);
  }

  /** All media rows with the driver's URL record the stored object. */
  ghost predicate Records(r: Database, url: string, key: string, size: nat) {
    forall f :: f in r.files && !r.files[f].kind.Rss? && r.files[f].sourceUrl == url ==>
      r.files[f].path == key && r.files[f].size == size && r.files[f].available
  }

  lemma PatchRecords(a: Database, b: Database, url: string, key: string, size: nat)
    requires SameShape(a, b) && MediaPatched(a, b, url, FilePatch(Some(key), Some(size), Some(true)))
    ensures Records(b, url, key, size)
  {
  }

  lemma RecordsUnmoved(a: Database, b: Database, url: string, key: string, size: nat)
    requires Records(a, url, key, size) && MediaPatched(a, b, url, FilePatch(None, Some(size), Some(true)))
    ensures forall f :: f in a.files && !a.files[f].kind.Rss? ==> f in b.files && b.files[f] == a.files[f]
  {
  }

  lemma SuccessRecords(cat: Catalogue, cfg: Settings, s: State, id: Id, w: World)
    requires Sound(cat) && Structured(cat, s.db)
    requires id in s.db.episodes && !s.db.episodes[id].sourceType.Upload?
    requires Distinct(w.feeds.scan) && Distinct(w.feeds.podcastScan)
    ensures
      var e := s.db.episodes[id];
      var (r, exit) := Run(cfg, s, id, w);
      var key := StorageKey(cfg, e, AudioOf(s.db, e).path);
      exit.Finished? ==> Records(r.db, AudioOf(s.db, e).sourceUrl, key, StoredSize(r.objects, key, w.measure))
  {
    var e := s.db.episodes[id];
    var (r, exit) := Run(cfg, s, id, w);
    if exit.Finished? {
      PerformKeeps(cat, cfg, s, id, w);
      RunFixesFiles(cfg, s, id, w);
      var key := StorageKey(cfg, e, AudioOf(s.db, e).path);
      PatchRecords(s.db, r.db, AudioOf(s.db, e).sourceUrl, key, StoredSize(r.objects, key, w.measure));
    }
  }

  /** A recorded source is recognised as stored by any of its episodes. */
  lemma RecordedIsStored(cat: Catalogue, s: State, id: Id, e: Episode, id2: Id, url: string, key: string,
                         reached: bool, w2: World)
    requires Sound(cat) && Structured(cat, s.db) && Drives(s.db, id, e) && AudioOf(s.db, e).sourceUrl == url
    requires Records(s.db, url, key, StoredSize(s.objects, key, reached))
    requires id2 in s.db.episodes && s.db.episodes[id2].sourceId == e.sourceId
    requires AudioOf(s.db, s.db.episodes[id2]).size != 0 && w2.saveJob && w2.probe
    ensures CanStart(s.db, id2, w2) && IsStored(s, s.db.episodes[id2], w2)
    ensures AudioOf(s.db, s.db.episodes[id2]).sourceUrl == url
    ensures AudioOf(s.db, s.db.episodes[id2]).size == StoredSize(s.objects, key, reached)
    ensures s.db.episodes[id2].sourceType == e.sourceType
  {
    DriverKey(cat, s.db, id, e, id2);
    assert EpisodeLinked(s.db, s.db.episodes[id2]);
  }

  /** The family is already published, so publishing it again changes no status. */
  lemma PublishedTwice(a: Database, b: Database, c: Database, e: Episode, e2: Episode)
    requires e2.sourceId == e.sourceId && e2.sourceType == e.sourceType
    requires b.episodes == FamilyMoved(a, e, (Published, Some(e.createdAt)))
    requires c.episodes == FamilyMoved(b, e2, (Published, Some(e2.createdAt)))
    ensures c.episodes.Keys == b.episodes.Keys
    ensures forall j :: j in b.episodes ==> c.episodes[j].status == b.episodes[j].status
  {
  }

  /** The second run, seen from the state the first one left. */
  lemma SecondRun(cat: Catalogue, cfg: Settings, r: State, id: Id, e: Episode, id2: Id, url: string, key: string,
                  reached: bool, w2: World)
    requires Sound(cat) && Structured(cat, r.db) && Drives(r.db, id, e) && AudioOf(r.db, e).sourceUrl == url
    requires Records(r.db, url, key, StoredSize(r.objects, key, reached))
    requires id2 in r.db.episodes && r.db.episodes[id2].sourceId == e.sourceId
    requires AudioOf(r.db, r.db.episodes[id2]).size != 0
    requires w2.saveJob && w2.probe && Distinct(w2.feeds.scan) && Distinct(w2.feeds.podcastScan)
    requires FeedsRender(r.db, e.sourceId, w2.feeds)
    ensures
      var (u, exit) := Run(cfg, r, id2, w2);
      var e2 := r.db.episodes[id2];
      && exit.AlreadyStored? && u.objects == r.objects
      && u.db.episodes == FamilyMoved(r.db, e2, (Published, Some(e2.createdAt)))
      && (forall f :: f in r.db.files && !r.db.files[f].kind.Rss? ==> f in u.db.files && u.db.files[f] == r.db.files[f])
  {
    RecordedIsStored(cat, r, id, e, id2, url, key, reached, w2);
    ExitCauses(cfg, r, id2, w2);
    RunFixesFiles(cfg, r, id2, w2);
    PerformEpisodes(cfg, r, id2, w2);
    RecordsUnmoved(r.db, Run(cfg, r, id2, w2).0.db, url, key, StoredSize(r.objects, key, reached));
  }

  /** After a committed success with a non-zero size and unchanged storage, running the worker for any
      episode of the source is skipped: nothing is fetched or stored, no status changes, and no audio
      or image row changes. */
  lemma RerunSkips(cat: Catalogue, cfg: Settings, s: State, id: Id, w: World, r: State, id2: Id, w2: World)
    requires Sound(cat) && Structured(cat, s.db)
    requires id in s.db.episodes && !s.db.episodes[id].sourceType.Upload?
    requires ScansFit(s.db, w.feeds) && ScansFit(s.db, w2.feeds)
    requires
      var (t, code) := Work(cfg, s, id, w);
      code.SUCCESS? && r.db == t.db && r.objects == t.objects
    requires id2 in r.db.episodes && r.db.episodes[id2].sourceId == s.db.episodes[id].sourceId
    requires AudioOf(r.db, r.db.episodes[id2]).size != 0
    requires w2.saveJob && w2.probe && w2.signal && w2.commit
    requires FeedsRender(r.db, s.db.episodes[id].sourceId, w2.feeds)
    ensures
      var (u, code) := Work(cfg, r, id2, w2);
      && code.SKIP? && u.objects == r.objects && u.db.episodes.Keys == r.db.episodes.Keys
      && (forall j :: j in r.db.episodes ==> u.db.episodes[j].status == r.db.episodes[j].status)
      && (forall f :: f in r.db.files && !r.db.files[f].kind.Rss? ==> f in u.db.files && u.db.files[f] == r.db.files[f])
  {
    var e := s.db.episodes[id];
    var url, key := AudioOf(s.db, e).sourceUrl, StorageKey(cfg, e, AudioOf(s.db, e).path);
    CommittedRun(cfg, s, id, w);
    FirstRun(cat, cfg, s, id, w, r);
    SecondRun(cat, cfg, r, id, e, id2, url, key, w.measure, w2);
    CommittedRun(cfg, r, id2, w2);
    DriverKey(cat, r.db, id, e, id2);
    PublishedTwice(s.db, r.db, Run(cfg, r, id2, w2).0.db, e, r.db.episodes[id2]);
  }

  lemma FirstRun(cat: Catalogue, cfg: Settings, s: State, id: Id, w: World, r: State)
    requires Sound(cat) && Structured(cat, s.db)
    requires id in s.db.episodes && !s.db.episodes[id].sourceType.Upload?
    requires Distinct(w.feeds.scan) && Distinct(w.feeds.podcastScan)
    requires
      var (t, exit) := Run(cfg, s, id, w);
      exit.Finished? && r.db == t.db && r.objects == t.objects
    ensures
      var e := s.db.episodes[id];
      var key := StorageKey(cfg, e, AudioOf(s.db, e).path);
      && Structured(cat, r.db) && Drives(r.db, id, e) && AudioOf(r.db, e).sourceUrl == AudioOf(s.db, e).sourceUrl
      && Records(r.db, AudioOf(s.db, e).sourceUrl, key, StoredSize(r.objects, key, w.measure))
      && r.db.episodes == FamilyMoved(s.db, e, (Published, Some(e.createdAt)))
  {
    var e := s.db.episodes[id];
    SuccessRecords(cat, cfg, s, id, w);
    PerformKeeps(cat, cfg, s, id, w);
    PerformEpisodes(cfg, s, id, w);
    DrivesOn(s.db, r.db, id, e);
    assert EpisodeLinked(s.db, e);
  }
}
