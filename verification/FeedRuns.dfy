/** Only workers regenerate feeds: which podcasts' feeds can be out of date after any run of the system. */
module FeedRuns {
  import opened Wrappers
  import opened Rows
  import opened Queries
  import opened Naming
  import opened Consistency
  import opened Feeds
  import opened Downloading
  import opened DownloadingProofs
  import opened DownloadingOutcomes
  import opened RunEffects
  import opened RunTheorems
  import opened Uploading
  import opened UploadTheorems
  import opened Machine
  import opened StaleFeeds

  // -------- worker runs

  /** What a run for an episode of this source leaves, before its rows are committed or rolled back. */
  ghost predicate RunLeaves(s: State, h: State, sourceId: string, w: FeedWorld, exit: Exit, redone: bool)
    requires Distinct(w.scan)
  {
    && SameShape(s.db, h.db) && (Dated(s.db) ==> Dated(h.db))
    && (forall j :: j in s.db.episodes && s.db.episodes[j].sourceId != sourceId ==>
        h.db.episodes[j] == s.db.episodes[j])
    && FeedsKept(s, h, sourceId, w)
    && (redone ==> FeedsRedone(s, h, sourceId, w))
    && (!redone && !exit.Crashed? ==> Quiet(s.db, h.db) && h.feeds == s.feeds)
  }

  /** The podcasts among `ps` whose set of PUBLISHED episodes differs between two states. */
  ghost function Changed(a: Database, b: Database, ps: set<Id>): set<Id> {
    set p | p in ps && PublishedIn(a, p) != PublishedIn(b, p)
  }

  /** The podcasts whose feed may be out of date after it, given those before: `a` are the rows before the run, `h`
      those
      it leaves, and `b` those that stay. A feed sent lists what `h` says; one refused lists what it did before. */
  ghost function StaleRun(a: Database, h: Database, b: Database, sourceId: string, refused: set<Id>, exit: Exit,
                          redone: bool, stale: set<Id>): set<Id>
  {
    var holders := Holders(a.episodes, sourceId);
    if redone then
      stale - (holders - refused) + Changed(h, b, holders - refused) + Changed(a, b, holders * refused)
    else if exit.Crashed? then
      stale + (holders - refused) + Changed(a, b, holders * refused)
    else
      stale + Demoted(a, b)
  }

  /** Every podcast's feed is fresh, except perhaps those named. */
  ghost predicate FreshBut(db: Database, feeds: map<Id, seq<Id>>, stale: set<Id>) {
    forall p :: p in db.podcasts && p !in stale ==> Fresh(db, feeds, p)
  }

  lemma OutsideFresh(s: State, h: State, b: Database, sourceId: string, w: FeedWorld, exit: Exit, redone: bool, p: Id)
    requires Distinct(w.scan) && RunLeaves(s, h, sourceId, w, exit, redone) && (b == s.db || b == h.db)
    requires p in s.db.podcasts && p !in Holders(s.db.episodes, sourceId) && Fresh(s.db, s.feeds, p)
    ensures Fresh(b, h.feeds, p)
  {
    forall j | j in s.db.episodes && s.db.episodes[j].podcast == p ensures b.episodes[j] == s.db.episodes[j] {
      assert s.db.episodes[j].sourceId == sourceId ==> p in Holders(s.db.episodes, sourceId);
    }
    UntouchedStaysFresh(s.db, b, s.feeds, h.feeds, p);
  }

  lemma RedoneFresh(s: State, h: State, sourceId: string, w: FeedWorld, exit: Exit, p: Id)
    requires ScansFit(s.db, w) && Dated(s.db) && RunLeaves(s, h, sourceId, w, exit, true)
    requires p in s.db.podcasts && p in Holders(s.db.episodes, sourceId) && p !in w.refused
    ensures Fresh(h.db, h.feeds, p)
  {
    ListedIsFresh(h.db, h.feeds, p, w.scan);
  }

  lemma SameRows(a: Database, b: Database)
    requires SameShape(a, b)
    ensures forall i :: i in a.episodes && i in b.episodes ==> b.episodes[i].createdAt == a.episodes[i].createdAt
  {
    forall i | i in a.episodes && i in b.episodes ensures b.episodes[i].createdAt == a.episodes[i].createdAt {
      assert EpisodeShape(a.episodes[i], b.episodes[i]);
    }
  }

  /** A feed that was sent is fresh as long as what it lists stays published. */
  lemma SentFresh(s: State, h: State, b: Database, sourceId: string, w: FeedWorld, exit: Exit, p: Id)
    requires ScansFit(s.db, w) && Dated(s.db) && RunLeaves(s, h, sourceId, w, exit, true) && (b == s.db || b == h.db)
    requires p in s.db.podcasts && p in Holders(s.db.episodes, sourceId) && p !in w.refused
    requires PublishedIn(h.db, p) == PublishedIn(b, p)
    ensures Fresh(b, h.feeds, p)
  {
    RedoneFresh(s, h, sourceId, w, exit, p);
    SameRows(s.db, h.db);
    FreshAfterIff(h.db, b, h.feeds, p);
  }

  /** A feed that was refused is fresh as long as what it listed stays published. */
  lemma RefusedFresh(s: State, h: State, b: Database, sourceId: string, w: FeedWorld, exit: Exit, redone: bool, p: Id)
    requires Distinct(w.scan) && RunLeaves(s, h, sourceId, w, exit, redone) && (b == s.db || b == h.db)
    requires p in w.refused && Fresh(s.db, s.feeds, p) && PublishedIn(s.db, p) == PublishedIn(b, p)
    ensures Fresh(b, h.feeds, p)
  {
    SameRows(s.db, h.db);
    FreshAfterIff(s.db, b, s.feeds, p);
    SameFeedFresh(b, s.feeds, h.feeds, p);
  }

  lemma SameFeedFresh(db: Database, a: map<Id, seq<Id>>, b: map<Id, seq<Id>>, p: Id)
    requires Fresh(db, a, p) && p in b && b[p] == a[p]
    ensures Fresh(db, b, p)
  {
  }

  lemma RunFresh(s: State, h: State, b: Database, sourceId: string, w: FeedWorld, exit: Exit, redone: bool,
                 stale: set<Id>)
    requires ScansFit(s.db, w) && Dated(s.db) && RunLeaves(s, h, sourceId, w, exit, redone)
    requires (b == h.db || b == s.db) && FreshBut(s.db, s.feeds, stale)
    ensures FreshBut(b, h.feeds, StaleRun(s.db, h.db, b, sourceId, w.refused, exit, redone, stale))
  {
    var after := StaleRun(s.db, h.db, b, sourceId, w.refused, exit, redone, stale);
    forall p | p in b.podcasts && p !in after ensures Fresh(b, h.feeds, p) {
      if !redone && !exit.Crashed? {
        assert Quiet(s.db, b);
        QuietFreshIff(s.db, b, s.feeds, p);
      } else if p !in Holders(s.db.episodes, sourceId) {
        OutsideFresh(s, h, b, sourceId, w, exit, redone, p);
      } else if p in w.refused {
        RefusedFresh(s, h, b, sourceId, w, exit, redone, p);
      } else {
        SentFresh(s, h, b, sourceId, w, exit, p);
      }
    }
  }

  // -------- what the two workers leave

  predicate DownloadRedoes(exit: Exit) {
    exit.Finished? || exit.AlreadyStored?
  }

  lemma FamilyQuiet(db: Database, e: Episode, status: Status, b: Database)
    requires !status.Published? && b.episodes == FamilyMoved(db, e, (status, None))
    ensures Quiet(db, b)
  {
  }

  lemma DownloadQuiet(cfg: Settings, s: State, id: Id, w: World)
    requires id in s.db.episodes && Distinct(w.feeds.scan)
    requires !DownloadRedoes(Run(cfg, s, id, w).1) && !Run(cfg, s, id, w).1.Crashed?
    ensures Quiet(s.db, Run(cfg, s, id, w).0.db)
  {
    var e := s.db.episodes[id];
    var (r, exit) := Perform(cfg, s, id, w);
    PerformEpisodes(cfg, s, id, w);
    FamilyQuiet(s.db, e, Verdict(e, exit).0, r.db);
    FamilyMembers(s.db, e, Verdict(e, exit));
    MarkQuiet(r.db, id, New);
    QuietOn(s.db, r.db, Handle(r, id, exit).db);
  }

  lemma StatusesDated(db: Database, id: Id, exit: Exit, b: Database)
    requires id in db.episodes && Dated(db) && StatusesAfter(db, id, exit, b.episodes)
    ensures Dated(b)
  {
    forall i | i in b.episodes && b.episodes[i].status.Published? ensures b.episodes[i].publishedAt.Some? {
      assert i in db.episodes;
    }
  }

  lemma StatusesOutside(db: Database, id: Id, exit: Exit, b: Database)
    requires id in db.episodes && StatusesAfter(db, id, exit, b.episodes)
    ensures forall j :: j in db.episodes && db.episodes[j].sourceId != db.episodes[id].sourceId ==>
        b.episodes[j] == db.episodes[j]
  {
  }

  lemma RunShape(cat: Catalogue, cfg: Settings, s: State, id: Id, w: World)
    requires Sound(cat) && Structured(cat, s.db) && id in s.db.episodes && !s.db.episodes[id].sourceType.Upload?
    requires Distinct(w.feeds.scan) && Distinct(w.feeds.podcastScan)
    ensures SameShape(s.db, Run(cfg, s, id, w).0.db)
  {
    var (r, exit) := Perform(cfg, s, id, w);
    PerformKeeps(cat, cfg, s, id, w);
    HandleKeeps(cat, r, id, exit);
    ShapeTransitive(s.db, r.db, Handle(r, id, exit).db);
  }

  lemma FamilyLeaves(s: State, h: State, id: Id, w: FeedWorld, exit: Exit)
    requires Distinct(w.scan) && id in s.db.episodes && SameShape(s.db, h.db)
    requires StatusesAfter(s.db, id, exit, h.db.episodes) && FeedsAfter(s, s.db.episodes[id].sourceId, w, exit, h)
    requires !DownloadRedoes(exit) && !exit.Crashed? ==> Quiet(s.db, h.db)
    ensures RunLeaves(s, h, s.db.episodes[id].sourceId, w, exit, DownloadRedoes(exit))
  {
    StatusesOutside(s.db, id, exit, h.db);
    if Dated(s.db) {
      StatusesDated(s.db, id, exit, h.db);
    }
  }

  lemma DownloadLeaves(cat: Catalogue, cfg: Settings, s: State, id: Id, w: World, h: State, exit: Exit)
    requires Sound(cat) && Structured(cat, s.db) && id in s.db.episodes && !s.db.episodes[id].sourceType.Upload?
    requires Distinct(w.feeds.scan) && Distinct(w.feeds.podcastScan) && Run(cfg, s, id, w) == (h, exit)
    ensures RunLeaves(s, h, s.db.episodes[id].sourceId, w.feeds, exit, DownloadRedoes(exit))
  {
    RunShape(cat, cfg, s, id, w);
    RunFixesStatuses(cfg, s, id, w);
    RunFixesFiles(cfg, s, id, w);
    if !DownloadRedoes(exit) && !exit.Crashed? {
      DownloadQuiet(cfg, s, id, w);
    }
    FamilyLeaves(s, h, id, w.feeds, exit);
  }

  // -------- runs for uploads

  lemma CopyLeavesFeeds(cfg: Settings, s: State, id: Id, w: UploadWorld)
    requires Linked(s.db) && Distinct(w.feeds.scan) && Distinct(w.feeds.podcastScan)
    requires id in s.db.episodes && s.db.episodes[id].audio.Some? && AudioOf(s.db, s.db.episodes[id]).path in s.objects
    ensures FeedsKept(s, PublishCopy(cfg, s, id, w).0, s.db.episodes[id].sourceId, w.feeds)
  {
    var t := CopiedState(cfg, s, id, w);
    var sourceId := s.db.episodes[id].sourceId;
    CopiedShape(cfg, s, id, w);
    AffectedKept(s.db, t.db, sourceId, w.feeds);
    GenerateFeeds(cfg, t, Affected(t.db, sourceId, w.feeds), w.feeds);
  }

  predicate Copies(s: State, id: Id, w: UploadWorld) {
    NeedsCopy(s, id, w) && w.copy.Copied? && AudioOf(s.db, s.db.episodes[id]).path in s.objects
  }

  lemma MarkedRows(a: Database, b: Database, id: Id, status: Status)
    requires SameShape(a, b) && OthersStay(a.episodes, id, b.episodes) && !status.Published?
    ensures
      var c := SetStatus(b, id, status);
      SameShape(a, c) && OthersStay(a.episodes, id, c.episodes) && (Dated(b) ==> Dated(c))
  {
    SetStatusShape(b, id, status);
    ShapeTransitive(a, b, SetStatus(b, id, status));
  }

  /** The handlers leave the state alone, or mark the driver NEW or ERROR. */
  lemma HandledState(r: State, id: Id, exit: Exit)
    ensures
      || Handle(r, id, exit) == r
      || Handle(r, id, exit) == r.(db := SetStatus(r.db, id, New))
      || Handle(r, id, exit) == r.(db := SetStatus(r.db, id, Status.Error))
    ensures exit.Finished? ==> Handle(r, id, exit) == r
  {
  }

  lemma HandledRows(a: Database, r: State, id: Id, h: State)
    requires SameShape(a, r.db) && OthersStay(a.episodes, id, r.db.episodes)
    requires
      || h == r
      || h == r.(db := SetStatus(r.db, id, New))
      || h == r.(db := SetStatus(r.db, id, Status.Error))
    ensures SameShape(a, h.db) && OthersStay(a.episodes, id, h.db.episodes) && h.feeds == r.feeds
    ensures Dated(r.db) ==> Dated(h.db)
  {
    if h != r {
      if h == r.(db := SetStatus(r.db, id, New)) {
        MarkedRows(a, r.db, id, New);
      } else {
        MarkedRows(a, r.db, id, Status.Error);
      }
    }
  }

  /** A run that changes only the driver's row. */
  lemma OneRowLeaves(s: State, h: State, id: Id, w: FeedWorld, exit: Exit)
    requires Distinct(w.scan) && id in s.db.episodes && (exit.Finished? || exit.Crashed?)
    requires SameShape(s.db, h.db) && OthersStay(s.db.episodes, id, h.db.episodes) && (Dated(s.db) ==> Dated(h.db))
    requires FeedsKept(s, h, s.db.episodes[id].sourceId, w)
    requires exit.Finished? ==> FeedsRedone(s, h, s.db.episodes[id].sourceId, w)
    ensures RunLeaves(s, h, s.db.episodes[id].sourceId, w, exit, exit.Finished?)
  {
  }

  lemma CopyLeaves(cfg: Settings, s: State, id: Id, w: UploadWorld, r: State, exit: Exit)
    requires Linked(s.db) && Distinct(w.feeds.scan) && Distinct(w.feeds.podcastScan) && Copies(s, id, w)
    requires PublishCopy(cfg, s, id, w) == (r, exit)
    ensures RunLeaves(s, Handle(r, id, exit), s.db.episodes[id].sourceId, w.feeds, exit, exit.Finished?)
  {
    PublishCopyShape(cfg, s, id, w);
    PublishCopyRows(cfg, s, id, w);
    OneRowChanges(s.db.episodes, id, r.db.episodes[id], r.db.episodes);
    HandledState(r, id, exit);
    HandledRows(s.db, r, id, Handle(r, id, exit));
    CopyLeavesFeeds(cfg, s, id, w);
    if exit.Finished? {
      CopyRedoesFeeds(cfg, s, id, w);
    }
    if Dated(s.db) {
      CopyDated(cfg, s, id, w);
    }
    OneRowLeaves(s, Handle(r, id, exit), id, w.feeds, exit);
  }

  lemma NoCopyEnds(cfg: Settings, s: State, id: Id, w: UploadWorld)
    requires Distinct(w.feeds.scan) && id in s.db.episodes && !Copies(s, id, w)
    ensures
      var (r, exit) := PerformUploaded(cfg, s, id, w);
      !exit.Finished? && (Handle(r, id, exit) == s || exists status: Status ::
        !status.Published? && Handle(r, id, exit) == s.(db := SetStatus(s.db, id, status)))
  {
    var (r, exit) := PerformUploaded(cfg, s, id, w);
    assert exit.Stopped? ==> Handle(r, id, exit) == s.(db := SetStatus(s.db, id, New));
    assert exit.Crashed? || exit.UploadFailed? ==> Handle(r, id, exit) == s.(db := SetStatus(s.db, id, Status.Error));
  }

  lemma SameLeaves(s: State, h: State, id: Id, w: FeedWorld, exit: Exit)
    requires Distinct(w.scan) && id in s.db.episodes && h.feeds == s.feeds && Quiet(s.db, h.db)
    requires SameShape(s.db, h.db) && OthersStay(s.db.episodes, id, h.db.episodes) && (Dated(s.db) ==> Dated(h.db))
    ensures RunLeaves(s, h, s.db.episodes[id].sourceId, w, exit, false)
  {
  }

  lemma MarkedLeaves(s: State, id: Id, status: Status, w: FeedWorld, exit: Exit)
    requires id in s.db.episodes && Distinct(w.scan) && !status.Published?
    ensures RunLeaves(s, s, s.db.episodes[id].sourceId, w, exit, false)
    ensures RunLeaves(s, s.(db := SetStatus(s.db, id, status)), s.db.episodes[id].sourceId, w, exit, false)
  {
    MarkQuiet(s.db, id, status);
    SameLeaves(s, s, id, w, exit);
    MarkedRows(s.db, s.db, id, status);
    SameLeaves(s, s.(db := SetStatus(s.db, id, status)), id, w, exit);
  }

  lemma UploadLeaves(cfg: Settings, s: State, id: Id, w: UploadWorld)
    requires Linked(s.db) && Distinct(w.feeds.scan) && Distinct(w.feeds.podcastScan) && id in s.db.episodes
    ensures
      var (r, exit) := PerformUploaded(cfg, s, id, w);
      RunLeaves(s, Handle(r, id, exit), s.db.episodes[id].sourceId, w.feeds, exit, exit.Finished?)
  {
    var (r, exit) := PerformUploaded(cfg, s, id, w);
    if Copies(s, id, w) {
      CopyLeaves(cfg, s, id, w, r, exit);
    } else {
      NoCopyEnds(cfg, s, id, w);
      MarkedLeaves(s, id, New, w.feeds, exit);
      if Handle(r, id, exit) != s {
        var status: Status :| !status.Published? && Handle(r, id, exit) == s.(db := SetStatus(s.db, id, status));
        MarkedLeaves(s, id, status, w.feeds, exit);
      }
    }
  }

  // -------- feed runs

  /** The podcasts a feed run gets to, before the first one whose rendering raises. */
  function Rendered(rows: seq<Id>, broken: set<Id>): (done: seq<Id>)
    ensures forall p :: p in done ==> p in rows
    ensures broken == {} ==> done == rows
  {
    if rows == [] || rows[0] in broken then []
    else
      assert rows == [rows[0]] + rows[1..];
      [rows[0]] + Rendered(rows[1..], broken)
  }

  /** A feed run, complete or not, leaves each feed as it was or brings it up to date. */
  lemma {:induction false} GenerateEither(cfg: Settings, s: State, rows: seq<Id>, w: FeedWorld, p: Id)
    requires Distinct(w.scan) && forall q :: q in rows ==> q in s.db.podcasts
    ensures
      var (r, ok) := Generate(cfg, s, rows, w);
      && (p in s.feeds ==> p in r.feeds)
      && (p in r.feeds && (p in s.feeds ==> r.feeds[p] != s.feeds[p]) ==>
            r.feeds[p] == FeedItems(s.db.episodes, w.scan, p))
      && (p in Rendered(rows, w.broken) && p !in w.refused ==>
            p in r.feeds && r.feeds[p] == FeedItems(s.db.episodes, w.scan, p))
    decreases rows
  {
    if rows != [] && rows[0] !in w.broken {
      var t := GenerateOne(cfg, s, rows[0], w);
      assert rows == [rows[0]] + rows[1..];
      GenerateEither(cfg, t, rows[1..], w, p);
    }
  }

  lemma FeedRunFresh(cfg: Settings, s: State, rows: seq<Id>, w: FeedWorld, p: Id, b: Database)
    requires Visits(w.scan, s.db.episodes) && (forall q :: q in rows ==> q in s.db.podcasts) && Dated(s.db)
    requires b.episodes == s.db.episodes
    requires Fresh(s.db, s.feeds, p) || (p in Rendered(rows, w.broken) && p !in w.refused)
    ensures Fresh(b, Generate(cfg, s, rows, w).0.feeds, p)
  {
    var r := Generate(cfg, s, rows, w).0;
    GenerateEither(cfg, s, rows, w, p);
    if r.feeds[p] == FeedItems(s.db.episodes, w.scan, p) {
      ListedIsFresh(b, r.feeds, p, w.scan);
    }
  }

  // -------- all steps

  ghost function StaleDownload(cfg: Settings, s: State, id: Id, w: World, stale: set<Id>): set<Id>
    requires Distinct(w.feeds.scan)
  {
    if id !in s.db.episodes then stale
    else
      var (h, exit) := Run(cfg, s, id, w);
      var b := Work(cfg, s, id, w).0.db;
      StaleRun(s.db, h.db, b, s.db.episodes[id].sourceId, w.feeds.refused, exit, DownloadRedoes(exit), stale)
  }

  ghost function StaleUpload(cfg: Settings, s: State, id: Id, w: UploadWorld, stale: set<Id>): set<Id>
    requires Distinct(w.feeds.scan)
  {
    if id !in s.db.episodes then stale
    else
      var (r, exit) := PerformUploaded(cfg, s, id, w);
      var h, b := Handle(r, id, exit).db, WorkUploaded(cfg, s, id, w).0.db;
      StaleRun(s.db, h, b, s.db.episodes[id].sourceId, w.feeds.refused, exit, exit.Finished?, stale)
  }

  /** The podcasts whose feed may be out of date after a step, given those before it. */
  ghost function StaleAfter(cfg: Settings, s: State, a: Action, stale: set<Id>): set<Id>
    requires WellPosed(s, a)
  {
    match a
    case WorkDownload(id, w) => StaleDownload(cfg, s, id, w, stale)
    case WorkUpload(id, w) => StaleUpload(cfg, s, id, w, stale)
    case WorkFeeds(rows, w, _) => stale - (set p | p in Rendered(rows, w.broken) && p !in w.refused)
    case _ =>
      var b := Apply(cfg, s, a).db;
      stale + Demoted(s.db, b) + (b.podcasts.Keys - s.db.podcasts.Keys)
  }

  lemma QuietStepFresh(cfg: Settings, s: State, a: Action, stale: set<Id>)
    requires Linked(s.db) && WellPosed(s, a) && !IsWorker(a) && FreshBut(s.db, s.feeds, stale)
    ensures
      var r := Apply(cfg, s, a);
      FreshBut(r.db, r.feeds, stale + Demoted(s.db, r.db) + (r.db.podcasts.Keys - s.db.podcasts.Keys))
  {
    var r := Apply(cfg, s, a);
    StepQuiet(cfg, s, a);
    forall p | p in r.db.podcasts && p in s.db.podcasts && p !in stale && p !in Demoted(s.db, r.db)
      ensures Fresh(r.db, r.feeds, p)
    {
      QuietFreshIff(s.db, r.db, s.feeds, p);
    }
  }

  lemma DownloadStepFresh(cat: Catalogue, cfg: Settings, s: State, id: Id, w: World, stale: set<Id>)
    requires Sound(cat) && Structured(cat, s.db) && Dated(s.db) && ScansFit(s.db, w.feeds)
    requires id in s.db.episodes ==> !s.db.episodes[id].sourceType.Upload?
    requires FreshBut(s.db, s.feeds, stale)
    ensures
      var r := Work(cfg, s, id, w).0;
      FreshBut(r.db, r.feeds, StaleDownload(cfg, s, id, w, stale)) && Dated(r.db)
  {
    if id in s.db.episodes {
      var (h, exit) := Run(cfg, s, id, w);
      DownloadLeaves(cat, cfg, s, id, w, h, exit);
      RunFresh(s, h, Work(cfg, s, id, w).0.db, s.db.episodes[id].sourceId, w.feeds, exit, DownloadRedoes(exit), stale);
    }
  }

  lemma UploadRunFresh(cfg: Settings, s: State, id: Id, w: UploadWorld, r: State, exit: Exit, h: State, b: Database,
                       stale: set<Id>)
    requires Linked(s.db) && Dated(s.db) && ScansFit(s.db, w.feeds) && id in s.db.episodes
    requires PerformUploaded(cfg, s, id, w) == (r, exit) && h == Handle(r, id, exit)
    requires b == (if w.signal && w.commit then h.db else s.db) && FreshBut(s.db, s.feeds, stale)
    ensures
      var sourceId := s.db.episodes[id].sourceId;
      && FreshBut(b, h.feeds, StaleRun(s.db, h.db, b, sourceId, w.feeds.refused, exit, exit.Finished?, stale))
      && Dated(b)
  {
    UploadLeaves(cfg, s, id, w);
    RunFresh(s, h, b, s.db.episodes[id].sourceId, w.feeds, exit, exit.Finished?, stale);
  }

  lemma UploadStepFresh(cfg: Settings, s: State, id: Id, w: UploadWorld, stale: set<Id>)
    requires Linked(s.db) && Dated(s.db) && ScansFit(s.db, w.feeds) && FreshBut(s.db, s.feeds, stale)
    ensures
      var r := WorkUploaded(cfg, s, id, w).0;
      FreshBut(r.db, r.feeds, StaleUpload(cfg, s, id, w, stale)) && Dated(r.db)
  {
    if id in s.db.episodes {
      var (r, exit) := PerformUploaded(cfg, s, id, w);
      UploadRunFresh(cfg, s, id, w, r, exit, Handle(r, id, exit), WorkUploaded(cfg, s, id, w).0.db, stale);
    }
  }

  lemma FeedStepFresh(cfg: Settings, s: State, a: Action, stale: set<Id>)
    requires Linked(s.db) && Dated(s.db) && WellPosed(s, a) && a.WorkFeeds? && FreshBut(s.db, s.feeds, stale)
    ensures
      var r := Apply(cfg, s, a);
      FreshBut(r.db, r.feeds, StaleAfter(cfg, s, a, stale)) && Dated(r.db)
  {
    var r := Apply(cfg, s, a);
    GenerateTouches(cfg, s, a.podcasts, a.feedWorld);
    forall p | p in r.db.podcasts && p !in StaleAfter(cfg, s, a, stale) ensures Fresh(r.db, r.feeds, p) {
      FeedRunFresh(cfg, s, a.podcasts, a.feedWorld, p, r.db);
    }
  }

  /** Every step updates the set: what it does not name stays fresh, or becomes so. */
  lemma StepFresh(cat: Catalogue, cfg: Settings, s: State, a: Action, stale: set<Id>)
    requires Sound(cat) && Structured(cat, s.db) && Dated(s.db) && Allowed(cat, s, a)
    requires FreshBut(s.db, s.feeds, stale)
    ensures
      var r := Apply(cfg, s, a);
      FreshBut(r.db, r.feeds, StaleAfter(cfg, s, a, stale)) && Dated(r.db)
  {
    if a.WorkDownload? {
      DownloadStepFresh(cat, cfg, s, a.id, a.world, stale);
    } else if a.WorkUpload? {
      UploadStepFresh(cfg, s, a.id, a.uploadWorld, stale);
    } else if a.WorkFeeds? {
      FeedStepFresh(cfg, s, a, stale);
    } else {
      QuietStepFresh(cfg, s, a, stale);
      StepQuiet(cfg, s, a);
      QuietDated(s.db, Apply(cfg, s, a).db);
    }
  }

  // -------- all runs

  /** The run leads from the empty system to `t`, and the set kept along it ends as `stale`. */
  ghost predicate Tracks(cat: Catalogue, cfg: Settings, actions: seq<Action>, t: State, stale: set<Id>)
    decreases |actions|
  {
    if actions == [] then t == EMPTY_STATE && stale == {}
    else
      var last := actions[|actions| - 1];
      exists mid, before ::
        && Tracks(cat, cfg, actions[..|actions| - 1], mid, before)
        && Allowed(cat, mid, last) && t == Apply(cfg, mid, last) && stale == StaleAfter(cfg, mid, last, before)
  }

  /** Every run can be tracked. */
  lemma {:induction false} RunsAreTracked(cat: Catalogue, cfg: Settings, actions: seq<Action>, t: State)
    requires Reaches(cat, cfg, actions, t, AnyStep)
    ensures exists stale :: Tracks(cat, cfg, actions, t, stale)
    decreases |actions|
  {
    if actions == [] {
      assert Tracks(cat, cfg, actions, t, {});
    } else {
      var last := actions[|actions| - 1];
      var mid :| Leads(cat, cfg, EMPTY_STATE, actions[..|actions| - 1], mid, AnyStep) && Allowed(cat, mid, last)
                 && t == Apply(cfg, mid, last);
      RunsAreTracked(cat, cfg, actions[..|actions| - 1], mid);
      var before :| Tracks(cat, cfg, actions[..|actions| - 1], mid, before);
      assert Tracks(cat, cfg, actions, t, StaleAfter(cfg, mid, last, before));
    }
  }

  /** After every run, whatever was requested, failed, crashed or was rolled back along it, the feed of every podcast
      outside the set lists exactly its PUBLISHED episodes, each once, newest first. */
  lemma {:induction false} TrackedFeedsAreFresh(cat: Catalogue, cfg: Settings, actions: seq<Action>, t: State,
                                                stale: set<Id>)
    requires Sound(cat) && Tracks(cat, cfg, actions, t, stale)
    ensures Structured(cat, t.db) && Dated(t.db) && FreshBut(t.db, t.feeds, stale)
    decreases |actions|
  {
    if actions != [] {
      var last := actions[|actions| - 1];
      var mid, before :| Tracks(cat, cfg, actions[..|actions| - 1], mid, before)
                         && Allowed(cat, mid, last) && t == Apply(cfg, mid, last)
                         && stale == StaleAfter(cfg, mid, last, before);
      TrackedFeedsAreFresh(cat, cfg, actions[..|actions| - 1], mid, before);
      StepFresh(cat, cfg, mid, last, before);
      StepStructured(cat, cfg, mid, last);
    }
  }

  /** So in every reachable state one complete feed run over all podcasts, with every upload accepted, makes every
      feed fresh, committed or not. */
  lemma FeedRunRepairs(cat: Catalogue, cfg: Settings, actions: seq<Action>, s: State, rows: seq<Id>, w: FeedWorld,
                       commit: bool)
    requires Sound(cat) && Reaches(cat, cfg, actions, s, AnyStep)
    requires Visits(rows, s.db.podcasts) && Visits(w.scan, s.db.episodes)
    requires w.broken == {} && w.refused == {}
    ensures
      var r := Apply(cfg, s, WorkFeeds(rows, w, commit));
      FreshBut(r.db, r.feeds, {})
  {
    RunsAreTracked(cat, cfg, actions, s);
    var stale :| Tracks(cat, cfg, actions, s, stale);
    TrackedFeedsAreFresh(cat, cfg, actions, s, stale);
    GenerateTouches(cfg, s, rows, w);
    var r := Apply(cfg, s, WorkFeeds(rows, w, commit));
    forall p | p in r.db.podcasts ensures Fresh(r.db, r.feeds, p) {
      FeedRunFresh(cfg, s, rows, w, p, r.db);
    }
  }
}
