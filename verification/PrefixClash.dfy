/** Uploads are keyed by a prefix of the content hash, reused by the whole hash: what goes wrong in between. */
module PrefixClash {
  import opened Wrappers
  import opened Rows
  import opened Queries
  import opened Naming
  import opened Consistency
  import opened Feeds
  import opened Downloading
  import opened DownloadingProofs
  import opened DownloadingOutcomes
  import opened Uploading
  import opened Requests
  import opened Machine

  function UploadsOnly(): Catalogue {
    Catalogue((url: string) => None, (id: string) => Upload)
  }

  /** A file of five bytes with this content hash is uploaded to podcast 2. */
  function FirstUpload(hash: string): UploadOrder {
    UploadOrder(2, 1, hash, Some("a"), Some(5), None, 0, None, None, None)
  }

  /** Later another file is, whose hash starts the same, so that the query finds episode 4. */
  function ClashingUpload(hash: string): UploadOrder {
    UploadOrder(2, 1, hash, Some("b"), Some(7), None, 9, None, None, Some(4))
  }

  function FirstActions(hash: string): seq<Action> {
    [CreatePodcast(1, "p", false)] + [CreateUploaded(FirstUpload(hash))] + [ChangeObjects(map["a" := 5])]
  }

  /** One podcast, and one uploaded episode waiting for the worker. */
  function UploadWaits(hash: string): State {
    State(
      Database(
        map[2 := Podcast(1, "p", 1, false)],
        map[4 := Episode(UploadId(hash), Upload, 2, Some(3), None, 1, Some(""), Status.Downloading, 0, None)],
        map[1 := File(Rss, "", 0, "", false, 1, ""), 3 := File(Audio, "a", 5, "", false, 1, hash)],
        5),
      map["a" := 5],
      map[])
  }

  function AllWell(): UploadWorld {
    UploadWorld(true, Copied, true, FeedWorld([4], [2], {}, {}, map[]), true, true)
  }

  function PodcastWaits(): State {
    EMPTY_STATE.(db := AddPodcast(EMPTY_DATABASE, 1, "p", false))
  }

  lemma PodcastWaitsReached(cfg: Settings)
    ensures Reaches(UploadsOnly(), cfg, [CreatePodcast(1, "p", false)], PodcastWaits(), Careful)
  {
    var a := CreatePodcast(1, "p", false);
    assert Reaches(UploadsOnly(), cfg, [], EMPTY_STATE, Careful);
    ReachOn(UploadsOnly(), cfg, [], EMPTY_STATE, a, Careful);
    assert [] + [a] == [a];
  }

  lemma FirstUploadAccepted(hash: string)
    requires hash != ""
    ensures Answered(PodcastWaits().db, FirstUpload(hash))
    ensures RequestUploaded(PodcastWaits().db, FirstUpload(hash)) == Ok(UploadWaits(hash).db)
  {
  }

  lemma UploadWaitsReached(cfg: Settings, hash: string)
    requires hash != ""
    ensures Reaches(UploadsOnly(), cfg, FirstActions(hash), UploadWaits(hash), Careful)
  {
    var cat, a, b := UploadsOnly(), [CreatePodcast(1, "p", false)], CreateUploaded(FirstUpload(hash));
    PodcastWaitsReached(cfg);
    FirstUploadAccepted(hash);
    ReachOn(cat, cfg, a, PodcastWaits(), b, Careful);
    ReachOn(cat, cfg, a + [b], UploadWaits(hash).(objects := map[]), ChangeObjects(map["a" := 5]), Careful);
  }

  /** The state is that of the waiting upload after its worker run. */
  ghost predicate Uploaded(hash: string, db: Database) {
    && SameShape(UploadWaits(hash).db, db) && db.episodes[4].status.Published?
  }

  lemma UploadRuns(cfg: Settings, hash: string, r: State)
    requires hash != "" && r == WorkUploaded(cfg, UploadWaits(hash), 4, AllWell()).0
    requires Structured(UploadsOnly(), UploadWaits(hash).db)
    ensures Uploaded(hash, r.db)
  {
    var s, w := UploadWaits(hash), AllWell();
    UploadedExitCauses(cfg, s, 4, w);
    UploadedRunOutcome(cfg, s, 4, w);
    WorkUploadedKeeps(UploadsOnly(), cfg, s, 4, w);
  }

  lemma ClashStrands(a: string, b: string, db: Database)
    requires a != "" && b != "" && a != b && UploadId(a) == UploadId(b) && Uploaded(a, db)
    ensures Answered(db, ClashingUpload(b)) && RequestUploaded(db, ClashingUpload(b)).Ok?
    ensures Strands(db, ClashingUpload(b))
  {
    assert EpisodeShape(UploadWaits(a).db.episodes[4], db.episodes[4]);
    assert forall f :: f in db.files ==> FileShape(UploadWaits(a).db.files[f], db.files[f]);
  }

  function PublishedActions(hash: string): seq<Action> {
    FirstActions(hash) + [WorkUpload(4, AllWell())]
  }

  function AfterRun(cfg: Settings, hash: string): State {
    WorkUploaded(cfg, UploadWaits(hash), 4, AllWell()).0
  }

  lemma UploadRunReached(cfg: Settings, hash: string)
    requires hash != ""
    ensures Reaches(UploadsOnly(), cfg, PublishedActions(hash), AfterRun(cfg, hash), AnyStep)
    ensures Consistent(UploadsOnly(), AfterRun(cfg, hash).db)
  {
    UploadWaitsReached(cfg, hash);
    RunReached(cfg, FirstActions(hash), UploadWaits(hash));
  }

  lemma UploadIsPublished(cfg: Settings, hash: string)
    requires hash != ""
    ensures Uploaded(hash, AfterRun(cfg, hash).db)
  {
    UploadWaitsReached(cfg, hash);
    ReachableIsConsistent(UploadsOnly(), cfg, FirstActions(hash), UploadWaits(hash));
    UploadRuns(cfg, hash, AfterRun(cfg, hash));
  }

  function ClashActions(a: string, b: string): seq<Action> {
    PublishedActions(a) + [CreateUploaded(ClashingUpload(b))]
  }

  /** Any two content hashes that agree on the first eleven characters only, from the empty system: a podcast, an
      upload, its run, and an upload of the other file lead to a published episode without available audio. */
  lemma ClashBreaksPlayable(cfg: Settings, a: string, b: string)
    requires a != "" && b != "" && a != b && UploadId(a) == UploadId(b)
    ensures exists t :: Reaches(UploadsOnly(), cfg, ClashActions(a, b), t, AnyStep) && !Playable(t.db)
  {
    UploadRunReached(cfg, a);
    UploadIsPublished(cfg, a);
    ClashStep(cfg, a, b, PublishedActions(a), AfterRun(cfg, a));
  }

  lemma RunReached(cfg: Settings, actions: seq<Action>, s: State)
    requires Reaches(UploadsOnly(), cfg, actions, s, Careful)
    requires s.db.episodes.Keys == {4} && s.db.podcasts.Keys == {2} && s.db.episodes[4].sourceType.Upload?
    ensures
      var r := WorkUploaded(cfg, s, 4, AllWell()).0;
      && Reaches(UploadsOnly(), cfg, actions + [WorkUpload(4, AllWell())], r, AnyStep)
      && Consistent(UploadsOnly(), r.db)
  {
    var cat, a := UploadsOnly(), WorkUpload(4, AllWell());
    ReachOn(cat, cfg, actions, s, a, Careful);
    ReachableIsConsistent(cat, cfg, actions + [a], Apply(cfg, s, a));
    RunsWiden(cat, cfg, EMPTY_STATE, actions + [a], Apply(cfg, s, a), Careful);
  }

  lemma ClashStep(cfg: Settings, a: string, b: string, actions: seq<Action>, s: State)
    requires a != "" && b != "" && a != b && UploadId(a) == UploadId(b) && Uploaded(a, s.db)
    requires Consistent(UploadsOnly(), s.db) && Reaches(UploadsOnly(), cfg, actions, s, AnyStep)
    ensures exists t ::
      Reaches(UploadsOnly(), cfg, actions + [CreateUploaded(ClashingUpload(b))], t, AnyStep) && !Playable(t.db)
  {
    var cat, last := UploadsOnly(), CreateUploaded(ClashingUpload(b));
    ClashStrands(a, b, s.db);
    ReachOn(cat, cfg, actions, s, last, AnyStep);
    StepKeepsIff(cat, cfg, s, last);
    StepStructured(cat, cfg, s, last);
    assert !Playable(Apply(cfg, s, last).db);
  }

  /** Which hashes clash: those of eleven characters or more that agree on the first eleven. */
  lemma ClashIff(a: string, b: string)
    ensures UploadId(a) == UploadId(b) && a != b <==>
              a != b && |a| >= 11 && |b| >= 11 && a[..11] == b[..11]
    ensures |UploadId(a)| >= 4 && UploadId(a)[..4] == "upl_"
  {
    assert forall h: string :: |h| >= 11 ==> UploadId(h)[4..] == h[..11];
    assert forall h: string :: |h| < 11 ==> UploadId(h)[4..] == h;
  }

  /** Two such hashes. */
  lemma HashesClash()
    ensures UploadId("0123456789ab") == UploadId("0123456789ac") && "0123456789ab" != "0123456789ac"
  {
  }
}
