/** Two podcasts with an episode each from one uploaded file, and the two runs that publish them: what
    `UploadTheorems.SharedUploadRun` assumes does come about. */
module SharedDay {
  import opened Wrappers
  import opened Strings
  import opened Rows
  import opened Queries
  import opened Naming
  import opened Consistency
  import opened Feeds
  import opened Downloading
  import opened DownloadingProofs
  import opened DownloadingOutcomes
  import opened RunTheorems
  import opened Uploading
  import opened UploadTheorems
  import opened Requests
  import opened Machine
  import opened PrefixClash

  /** The same file is uploaded to podcast 2, and then to podcast 4, where its audio row is found. */
  function UploadTo(podcast: Id, hash: string, audioRow: Option<Id>): UploadOrder {
    UploadOrder(podcast, 1, hash, Some("a"), Some(5), None, 0, audioRow, None, None)
  }

  function TwoPodcasts(): State {
    EMPTY_STATE.(db := AddPodcast(AddPodcast(EMPTY_DATABASE, 1, "p", false), 1, "q", false))
  }

  function SharedEpisode(hash: string, podcast: Id): Episode {
    Episode(UploadId(hash), Upload, podcast, Some(5), None, 1, Some(""), Status.Downloading, 0, None)
  }

  function OneUpload(hash: string): State {
    TwoPodcasts().(db := Database(
      map[2 := Podcast(1, "p", 1, false), 4 := Podcast(1, "q", 3, false)],
      map[6 := SharedEpisode(hash, 2)],
      map[1 := File(Rss, "", 0, "", false, 1, ""), 3 := File(Rss, "", 0, "", false, 1, ""),
          5 := File(Audio, "a", 5, "", false, 1, hash)],
      7))
  }

  function TwoUploads(hash: string): State {
    OneUpload(hash).(db := InsertEpisode(OneUpload(hash).db, SharedEpisode(hash, 4)), objects := map["a" := 5])
  }

  const PODCAST_ACTIONS := [CreatePodcast(1, "p", false), CreatePodcast(1, "q", false)]

  function UploadActions(hash: string): seq<Action> {
    PODCAST_ACTIONS + [CreateUploaded(UploadTo(2, hash, None))] + [CreateUploaded(UploadTo(4, hash, Some(5)))]
    + [ChangeObjects(map["a" := 5])]
  }

  lemma TwoPodcastsReached(cfg: Settings)
    ensures Reaches(UploadsOnly(), cfg, PODCAST_ACTIONS, TwoPodcasts(), Careful)
  {
    var cat, a, b := UploadsOnly(), CreatePodcast(1, "p", false), CreatePodcast(1, "q", false);
    PodcastWaitsReached(cfg);
    ReachOn(cat, cfg, [a], PodcastWaits(), b, Careful);
    assert [a] + [b] == PODCAST_ACTIONS;
  }

  lemma UploadsAccepted(hash: string)
    requires hash != ""
    ensures Answered(TwoPodcasts().db, UploadTo(2, hash, None))
    ensures RequestUploaded(TwoPodcasts().db, UploadTo(2, hash, None)) == Ok(OneUpload(hash).db)
  {
  }

  lemma SecondAccepted(hash: string)
    requires hash != ""
    ensures Answered(OneUpload(hash).db, UploadTo(4, hash, Some(5)))
    ensures RequestUploaded(OneUpload(hash).db, UploadTo(4, hash, Some(5))) == Ok(TwoUploads(hash).db)
  {
  }

  lemma TwoUploadsReached(cfg: Settings, hash: string)
    requires hash != ""
    ensures Reaches(UploadsOnly(), cfg, UploadActions(hash), TwoUploads(hash), Careful)
  {
    var cat, a := UploadsOnly(), PODCAST_ACTIONS;
    var first, second := CreateUploaded(UploadTo(2, hash, None)), CreateUploaded(UploadTo(4, hash, Some(5)));
    TwoPodcastsReached(cfg);
    UploadsAccepted(hash);
    SecondAccepted(hash);
    ReachOn(cat, cfg, a, TwoPodcasts(), first, Careful);
    ReachOn(cat, cfg, a + [first], OneUpload(hash), second, Careful);
    ReachOn(cat, cfg, a + [first] + [second], TwoUploads(hash).(objects := map[]), ChangeObjects(map["a" := 5]),
        Careful);
  }

  /** What the two runs need of the state. */
  ghost predicate SharedWaits(s: State, sourceId: string) {
    && s.db.episodes.Keys == {6, 7} && s.db.podcasts.Keys == {2, 4} && 5 in s.db.files
    && s.db.episodes[6].audio == Some(5) && s.db.episodes[7].audio == Some(5)
    && s.db.episodes[6].sourceId == sourceId && s.db.episodes[7].sourceId == sourceId
    && s.db.episodes[6].sourceType.Upload? && s.db.episodes[7].sourceType.Upload?
    && s.db.episodes[6].status.Downloading? && s.db.episodes[7].status.Downloading?
    && s.db.files[5].path != "" && s.db.files[5].path in s.objects
    && s.objects[s.db.files[5].path] == s.db.files[5].size
  }

  lemma TwoUploadsWait(hash: string)
    ensures SharedWaits(TwoUploads(hash), UploadId(hash))
  {
  }

  /** Everything outside works. */
  predicate AllWorks(w: UploadWorld) {
    && w.probe && w.copy.Copied? && w.measure && w.signal && w.commit
    && w.feeds.scan == [6, 7] && w.feeds.podcastScan == [2, 4] && w.feeds.broken == {} && w.feeds.refused == {}
  }

  /** The state after the first run. */
  ghost predicate Halfway(s: State, r: State, key: string) {
    && Linked(r.db) && AtKey(r, 5, key) && r.db.episodes.Keys == {6, 7} && r.db.podcasts == s.db.podcasts
    && 7 in s.db.episodes && r.db.episodes[7] == s.db.episodes[7] && r.db.episodes[6].status.Published?
  }

  lemma FirstFinishes(cfg: Settings, s: State, sourceId: string, w: UploadWorld, r: State, exit: Exit)
    requires Linked(s.db) && SharedWaits(s, sourceId) && StableNames(cfg, sourceId) && AllWorks(w)
    requires PerformUploaded(cfg, s, 6, w) == (r, exit)
    ensures exit.Finished? && exists key ::
      AtKey(r, 5, key)
      && r.db.episodes == s.db.episodes[6 := Restamp(s.db.episodes[6], Published, Some(s.db.episodes[6].createdAt))]
  {
    UploadedExitCauses(cfg, s, 6, w);
    CopiedAtKey(cfg, s, 6, w, r);
  }

  lemma OnePublished(s: State, sourceId: string, r: State)
    requires SharedWaits(s, sourceId)
    requires r.db.episodes == s.db.episodes[6 := Restamp(s.db.episodes[6], Published, Some(s.db.episodes[6].createdAt))]
    ensures r.db.episodes.Keys == {6, 7} && r.db.episodes[7] == s.db.episodes[7] && r.db.episodes[6].status.Published?
  {
  }

  lemma FirstKeeps(cat: Catalogue, cfg: Settings, s: State, w: UploadWorld)
    requires Sound(cat) && Structured(cat, s.db) && 6 in s.db.episodes && s.db.episodes[6].sourceType.Upload?
    requires AllWorks(w)
    ensures
      var r := PerformUploaded(cfg, s, 6, w).0;
      Linked(r.db) && r.db.podcasts == s.db.podcasts
  {
    PerformUploadedKeeps(cat, cfg, s, 6, w);
  }

  lemma FirstHalf(cat: Catalogue, cfg: Settings, s: State, sourceId: string, w: UploadWorld, r: State, exit: Exit)
    requires Sound(cat) && Structured(cat, s.db) && SharedWaits(s, sourceId) && StableNames(cfg, sourceId)
    requires AllWorks(w) && PerformUploaded(cfg, s, 6, w) == (r, exit)
    ensures exit.Finished? && exists key :: Halfway(s, r, key)
  {
    FirstFinishes(cfg, s, sourceId, w, r, exit);
    FirstKeeps(cat, cfg, s, w);
    OnePublished(s, sourceId, r);
    var key :| AtKey(r, 5, key);
    assert Halfway(s, r, key);
  }

  /** An episode that is not PUBLISHED, whose audio row records the object at a key, is published by a run. */
  lemma AtKeyFinishes(cfg: Settings, s: State, id: Id, f: Id, key: string, w: UploadWorld)
    requires Linked(s.db) && Distinct(w.feeds.scan) && id in s.db.episodes && s.db.episodes[id].audio == Some(f)
    requires AtKey(s, f, key) && !s.db.episodes[id].status.Published? && w.probe && w.copy.Copied?
    requires w.feeds.broken == {}
    ensures PerformUploaded(cfg, s, id, w).1.Finished?
  {
    UploadedExitCauses(cfg, s, id, w);
  }

  /** The second run finishes, too, without changing an object: it copies the file onto itself. */
  lemma SecondHalf(cfg: Settings, s: State, sourceId: string, w: UploadWorld, r: State, key: string, u: State,
                   exit: Exit)
    requires Linked(s.db) && SharedWaits(s, sourceId) && StableNames(cfg, sourceId) && AllWorks(w) && Halfway(s, r, key)
    requires PerformUploaded(cfg, s, 6, w) == (r, Finished) && PerformUploaded(cfg, r, 7, w) == (u, exit)
    ensures exit.Finished? && BothDone(r, u)
  {
    AtKeyFinishes(cfg, r, 7, 5, key, w);
    SecondRunShared(cfg, s, w, r, u);
    BothPublished(r, u);
  }

  lemma SecondRunShared(cfg: Settings, s: State, w: UploadWorld, r: State, u: State)
    requires Linked(s.db) && Linked(r.db) && 6 in s.db.episodes && StableNames(cfg, s.db.episodes[6].sourceId)
    requires Distinct(w.feeds.scan) && w.measure
    requires PerformUploaded(cfg, s, 6, w) == (r, Finished) && PerformUploaded(cfg, r, 7, w) == (u, Finished)
    requires 7 in r.db.episodes && r.db.episodes[7].audio == s.db.episodes[6].audio
    requires r.db.episodes[7].sourceId == s.db.episodes[6].sourceId
    ensures u.objects == r.objects
    ensures u.db.episodes
            == r.db.episodes[7 := Restamp(r.db.episodes[7], Published, Some(r.db.episodes[7].createdAt))]
  {
    SharedUploadRun(cfg, s, 6, w, r, r, 7, w, u);
  }

  ghost predicate BothDone(r: State, u: State) {
    && u.objects == r.objects && u.db.episodes.Keys == {6, 7}
    && u.db.episodes[6].status.Published? && u.db.episodes[7].status.Published?
  }

  lemma BothPublished(r: State, u: State)
    requires r.db.episodes.Keys == {6, 7} && r.db.episodes[6].status.Published? && u.objects == r.objects
    requires u.db.episodes == r.db.episodes[7 := Restamp(r.db.episodes[7], Published, Some(r.db.episodes[7].createdAt))]
    ensures BothDone(r, u)
  {
  }

  lemma FinishedCommits(cfg: Settings, s: State, id: Id, w: UploadWorld, r: State)
    requires Distinct(w.feeds.scan) && PerformUploaded(cfg, s, id, w) == (r, Finished) && w.signal && w.commit
    ensures WorkUploaded(cfg, s, id, w).0 == r
  {
  }

  lemma RunReachedOn(cfg: Settings, actions: seq<Action>, s: State, id: Id, w: UploadWorld, r: State)
    requires Reaches(UploadsOnly(), cfg, actions, s, Careful) && AllWorks(w)
    requires s.db.episodes.Keys == {6, 7} && s.db.podcasts.Keys == {2, 4}
    requires id in s.db.episodes && s.db.episodes[id].sourceType.Upload?
    requires PerformUploaded(cfg, s, id, w) == (r, Finished)
    ensures Reaches(UploadsOnly(), cfg, actions + [WorkUpload(id, w)], r, Careful)
  {
    FinishedCommits(cfg, s, id, w, r);
    StepReachedOn(cfg, actions, s, id, w);
  }

  lemma StepReachedOn(cfg: Settings, actions: seq<Action>, s: State, id: Id, w: UploadWorld)
    requires Reaches(UploadsOnly(), cfg, actions, s, Careful) && AllWorks(w)
    requires s.db.episodes.Keys == {6, 7} && s.db.podcasts.Keys == {2, 4}
    requires id in s.db.episodes && s.db.episodes[id].sourceType.Upload?
    ensures Reaches(UploadsOnly(), cfg, actions + [WorkUpload(id, w)], WorkUploaded(cfg, s, id, w).0, Careful)
  {
    ReachOn(UploadsOnly(), cfg, actions, s, WorkUpload(id, w), Careful);
  }

  /** From a state where two such episodes wait, both runs finish, and the second changes no object. */
  lemma SharedReached(cfg: Settings, actions: seq<Action>, s: State, sourceId: string, w: UploadWorld)
    requires Reaches(UploadsOnly(), cfg, actions, s, Careful) && SharedWaits(s, sourceId) && StableNames(cfg, sourceId)
    requires AllWorks(w)
    ensures exists r, u ::
      && PerformUploaded(cfg, s, 6, w) == (r, Finished) && PerformUploaded(cfg, r, 7, w) == (u, Finished)
      && Reaches(UploadsOnly(), cfg, actions + [WorkUpload(6, w)] + [WorkUpload(7, w)], u, Careful) && BothDone(r, u)
  {
    var (r, exit) := PerformUploaded(cfg, s, 6, w);
    var (u, exit2) := PerformUploaded(cfg, r, 7, w);
    ReachableIsStructured(UploadsOnly(), cfg, actions, s, Careful);
    FirstHalf(UploadsOnly(), cfg, s, sourceId, w, r, exit);
    var key :| Halfway(s, r, key);
    SecondHalf(cfg, s, sourceId, w, r, key, u, exit2);
    RunReachedOn(cfg, actions, s, 6, w, r);
    RunReachedOn(cfg, actions + [WorkUpload(6, w)], r, 7, w, u);
  }

  /** From the empty system: two podcasts, one file uploaded to both, and a run for each episode publish both, and the
      second run copies the object onto itself. */
  lemma SharedDayReached(cfg: Settings, hash: string, w: UploadWorld)
    requires hash != "" && StableNames(cfg, UploadId(hash)) && AllWorks(w)
    ensures exists r, u ::
      && PerformUploaded(cfg, TwoUploads(hash), 6, w) == (r, Finished) && PerformUploaded(cfg, r, 7, w) == (u, Finished)
      && Reaches(UploadsOnly(), cfg, UploadActions(hash) + [WorkUpload(6, w)] + [WorkUpload(7, w)], u, Careful)
      && BothDone(r, u)
  {
    TwoUploadsReached(cfg, hash);
    TwoUploadsWait(hash);
    SharedReached(cfg, UploadActions(hash), TwoUploads(hash), UploadId(hash), w);
  }

  /** Settings, a hash and a world to start from. */
  lemma SomeSharedDay()
    ensures exists cfg: Settings, hash: string, w: UploadWorld ::
      hash != "" && StableNames(cfg, UploadId(hash)) && AllWorks(w)
  {
    var cfg := Settings("a/", "r/", "", (s: string) => "0");
    assert |cfg.audioPrefix| < |"tmp"|;
    assert UploadId("b") == "upl_b";
    var w := UploadWorld(true, Copied, true, FeedWorld([6, 7], [2, 4], {}, {}, map[]), true, true);
    assert StableNames(cfg, UploadId("b")) && AllWorks(w);
  }
}
