/** Which step can move an episode to which status, and which can delete it. */
module Lifecycle {
  import opened Wrappers
  import opened Rows
  import opened Queries
  import opened Naming
  import opened Consistency
  import opened Feeds
  import opened Downloading
  import opened DownloadingProofs
  import opened DownloadingOutcomes
  import opened Uploading
  import opened Creation
  import opened Deletion
  import opened Requests
  import opened RequestProofs
  import opened Machine

  /** A download worker can move the episodes of its driver's source key, ARCHIVED ones excluded. */
  ghost predicate InReach(db: Database, a: Action, before: Episode) {
    && a.WorkDownload? && a.id in db.episodes
    && InFamily(before, db.episodes[a.id].sourceId, db.episodes[a.id].sourceType)
  }

  /** Which step, taken where the rows are `db`, may move episode `i` to which status. */
  ghost predicate MayMove(db: Database, a: Action, i: Id, after: Status)
    requires i in db.episodes
  {
    var before := db.episodes[i];
    match after
    case New => (a.WorkDownload? || a.WorkUpload?) && a.id == i
    case Downloading =>
      || InReach(db, a, before)
      || (a.StartDownload? && a.id == i && a.user == before.owner && !InProgress(before.status))
      || (a.CreateFrom? && a.order.podcast == before.podcast && a.order.source.id == before.sourceId)
    case Canceling => a.CancelDownload? && a.id == i && a.user == before.owner && before.status.Downloading?
    case Published => InReach(db, a, before) || (a.WorkUpload? && a.id == i)
    case Archived => a.Archive? && a.id == i
    case Error => InReach(db, a, before) || ((a.WorkDownload? || a.WorkUpload?) && a.id == i)
  }

  ghost predicate MayDelete(a: Action, i: Id, before: Episode) {
    && !InProgress(before.status)
    && ((a.RemoveEpisode? && a.id == i && a.user == before.owner)
        || (a.RemovePodcast? && a.podcast == before.podcast && a.user == before.owner))
  }

  ghost predicate Follows(db: Database, a: Action, i: Id, r: map<Id, Episode>)
    requires i in db.episodes
  {
    && (i !in r ==> MayDelete(a, i, db.episodes[i]))
    && (i in r && r[i].status != db.episodes[i].status ==> MayMove(db, a, i, r[i].status))
  }

  lemma CreatedRowsStay(db: Database, o: Order, i: Id)
    requires Linked(db) && Distinct(o.scan) && i in db.episodes && CreateEpisode(db, o).Ok?
    ensures i in CreateEpisode(db, o).value.0.episodes && CreateEpisode(db, o).value.0.episodes[i] == db.episodes[i]
  {
  }

  lemma CreateFollows(cat: Catalogue, db: Database, o: Order, i: Id)
    requires Sound(cat) && Structured(cat, db) && Plausible(cat, db, o) && i in db.episodes
    ensures RequestCreate(db, o).Ok? ==> Follows(db, CreateFrom(o), i, RequestCreate(db, o).value.episodes)
  {
    if RequestCreate(db, o).Ok? {
      var (r, id) := CreateEpisode(db, o).value;
      CreatedRowsStay(db, o, i);
      CreatedIsFound(db, o, i);
      CreatedFollows(db, o, i, r, id);
    }
  }

  /** An old row that creation answers with was found, in the podcast and of the source. */
  lemma CreatedIsFound(db: Database, o: Order, i: Id)
    requires Linked(db) && Distinct(o.scan) && i in db.episodes && CreateEpisode(db, o).Ok?
    ensures CreateEpisode(db, o).value.1 == i ==>
              db.episodes[i].podcast == o.podcast && db.episodes[i].sourceId == o.source.id
  {
    var found := FindIn(db.episodes, SameEpisodes(db, o), o.podcast);
    if found.Some? {
      assert found.value in SameEpisodes(db, o);
    }
  }

  lemma CreatedFollows(db: Database, o: Order, i: Id, r: Database, id: Id)
    requires i in db.episodes && i in r.episodes && r.episodes[i] == db.episodes[i]
    requires id == i ==> db.episodes[i].podcast == o.podcast && db.episodes[i].sourceId == o.source.id
    ensures Follows(db, CreateFrom(o), i, r.episodes)
    ensures Follows(db, CreateFrom(o), i, SetStatus(r, id, Status.Downloading).episodes)
  {
  }

  lemma UploadedFollows(db: Database, u: UploadOrder, i: Id)
    requires Linked(db) && i in db.episodes && RequestUploaded(db, u).Ok?
    ensures
      var r := RequestUploaded(db, u).value.episodes;
      i in r && r[i].status == db.episodes[i].status
  {
  }

  lemma RemovalFollows(db: Database, user: Id, podcast: Id, scan: seq<Id>, i: Id)
    requires Visits(scan, db.episodes) && i in db.episodes && DeletePodcast(db, user, podcast, scan).Ok?
    ensures
      var r := DeletePodcast(db, user, podcast, scan).value.episodes;
      Follows(db, RemovePodcast(user, podcast, scan), i, r)
  {
    DeletePodcastMeans(db, user, podcast, scan);
    var mid :| RemovedAtOnce(db, EpisodesOf(db, podcast), mid)
               && DeletePodcast(db, user, podcast, scan).value == mid.(podcasts := db.podcasts - {podcast});
    assert mid.episodes == db.episodes - EpisodesOf(db, podcast);
  }

  lemma StatusesFollow(db: Database, id: Id, w: World, exit: Exit, r: map<Id, Episode>, i: Id)
    requires id in db.episodes && i in db.episodes && StatusesAfter(db, id, exit, r)
    ensures Follows(db, WorkDownload(id, w), i, r)
  {
    assert i in r;
    if r[i].status != db.episodes[i].status {
      assert i == id || MemberAfter(db.episodes[i], db.episodes[id], exit, r[i]);
    }
  }

  lemma WorkDownloadFollows(cfg: Settings, s: State, id: Id, w: World, i: Id)
    requires Distinct(w.feeds.scan) && i in s.db.episodes
    ensures Follows(s.db, WorkDownload(id, w), i, Work(cfg, s, id, w).0.db.episodes)
  {
    var (r, exit) := Run(cfg, s, id, w);
    if id in s.db.episodes {
      RunFixesStatuses(cfg, s, id, w);
      StatusesFollow(s.db, id, w, exit, r.db.episodes, i);
    }
  }

  lemma UploadedAfterFollows(cfg: Settings, s: State, id: Id, w: UploadWorld, exit: Exit, h: State, i: Id)
    requires id in s.db.episodes && i in s.db.episodes && UploadedAfter(cfg, s, id, w, exit, h)
    ensures Follows(s.db, WorkUpload(id, w), i, h.db.episodes)
  {
  }

  lemma WorkUploadFollows(cfg: Settings, s: State, id: Id, w: UploadWorld, i: Id)
    requires Linked(s.db) && Distinct(w.feeds.scan) && i in s.db.episodes
    ensures Follows(s.db, WorkUpload(id, w), i, WorkUploaded(cfg, s, id, w).0.db.episodes)
  {
    UnchangedFollows(s.db, WorkUpload(id, w), i);
    if id in s.db.episodes {
      var (r, exit) := PerformUploaded(cfg, s, id, w);
      UploadedRunOutcome(cfg, s, id, w);
      UploadedAfterFollows(cfg, s, id, w, exit, Handle(r, id, exit), i);
    }
  }

  lemma WorkFeedsFollows(cfg: Settings, s: State, rows: seq<Id>, w: FeedWorld, commit: bool, i: Id)
    requires WellPosed(s, WorkFeeds(rows, w, commit)) && i in s.db.episodes
    ensures Apply(cfg, s, WorkFeeds(rows, w, commit)).db.episodes == s.db.episodes
  {
    GenerateLeavesEpisodes(cfg, s, rows, w);
  }

  lemma StatusFollows(a: Action, db: Database, target: Id, status: Status, i: Id)
    requires target in db.episodes && i in db.episodes
    requires i == target ==> MayMove(db, a, i, status)
    ensures Follows(db, a, i, SetStatus(db, target, status).episodes)
  {
  }

  lemma StartFollows(db: Database, user: Id, id: Id, i: Id)
    requires i in db.episodes && RequestDownload(db, user, id).Ok?
    ensures Follows(db, StartDownload(user, id), i, RequestDownload(db, user, id).value.episodes)
  {
  }

  lemma CancelFollows(db: Database, user: Id, id: Id, i: Id)
    requires i in db.episodes && RequestCancel(db, user, id).Ok?
    ensures Follows(db, CancelDownload(user, id), i, RequestCancel(db, user, id).value.episodes)
  {
  }

  lemma DeleteFollows(db: Database, user: Id, id: Id, i: Id)
    requires i in db.episodes && RequestDelete(db, user, id).Ok?
    ensures Follows(db, RemoveEpisode(user, id), i, RequestDelete(db, user, id).value.episodes)
  {
    SafeDeleteRemoves(db, id);
  }

  lemma UnchangedFollows(db: Database, a: Action, i: Id)
    requires i in db.episodes
    ensures Follows(db, a, i, db.episodes)
  {
  }

  lemma RequestFollows(cat: Catalogue, cfg: Settings, s: State, a: Action, i: Id)
    requires Sound(cat) && Structured(cat, s.db) && Allowed(cat, s, a) && i in s.db.episodes
    requires a.CreateFrom? || a.StartDownload? || a.CancelDownload?
    ensures Follows(s.db, a, i, Apply(cfg, s, a).db.episodes)
  {
    UnchangedFollows(s.db, a, i);
    if a.CreateFrom? {
      CreateFollows(cat, s.db, a.order, i);
    } else if a.StartDownload? {
      if RequestDownload(s.db, a.user, a.id).Ok? {
        StartFollows(s.db, a.user, a.id, i);
      }
    } else if RequestCancel(s.db, a.user, a.id).Ok? {
      CancelFollows(s.db, a.user, a.id, i);
    }
  }

  lemma UploadStepFollows(cfg: Settings, s: State, a: Action, i: Id)
    requires Linked(s.db) && WellPosed(s, a) && i in s.db.episodes && a.CreateUploaded?
    ensures Follows(s.db, a, i, Apply(cfg, s, a).db.episodes)
  {
    if RequestUploaded(s.db, a.upload).Ok? {
      UploadedFollows(s.db, a.upload, i);
    }
  }

  lemma DeleteStepFollows(cfg: Settings, s: State, a: Action, i: Id)
    requires WellPosed(s, a) && i in s.db.episodes && a.RemoveEpisode?
    ensures Follows(s.db, a, i, Apply(cfg, s, a).db.episodes)
  {
    if RequestDelete(s.db, a.user, a.id).Ok? {
      DeleteFollows(s.db, a.user, a.id, i);
    }
  }

  lemma RemovalStepFollows(cfg: Settings, s: State, a: Action, i: Id)
    requires WellPosed(s, a) && i in s.db.episodes && a.RemovePodcast?
    ensures Follows(s.db, a, i, Apply(cfg, s, a).db.episodes)
  {
    if DeletePodcast(s.db, a.user, a.podcast, a.scan).Ok? {
      RemovalFollows(s.db, a.user, a.podcast, a.scan, i);
    }
  }

  lemma OtherFollows(cfg: Settings, s: State, a: Action, i: Id)
    requires WellPosed(s, a) && i in s.db.episodes
    requires a.CreatePodcast? || a.ConfigurePodcast? || a.WorkFeeds? || a.StoreCover? || a.Archive? || a.ChangeObjects?
    ensures Follows(s.db, a, i, Apply(cfg, s, a).db.episodes)
  {
    if a.WorkFeeds? {
      WorkFeedsFollows(cfg, s, a.podcasts, a.feedWorld, a.commit, i);
    } else if a.Archive? && a.id in s.db.episodes {
      StatusFollows(a, s.db, a.id, Archived, i);
    }
  }

  lemma WorkerFollows(cfg: Settings, s: State, a: Action, i: Id)
    requires Linked(s.db) && WellPosed(s, a) && i in s.db.episodes && (a.WorkDownload? || a.WorkUpload?)
    ensures Follows(s.db, a, i, Apply(cfg, s, a).db.episodes)
  {
    if a.WorkDownload? {
      WorkDownloadFollows(cfg, s, a.id, a.world, i);
    } else {
      WorkUploadFollows(cfg, s, a.id, a.uploadWorld, i);
    }
  }

  /** Every step of the system moves and deletes episodes only as the table allows. In particular an
      episode in progress is never deleted, only workers publish, and CANCELING is entered only from
      DOWNLOADING, by the owner. */
  lemma StepFollowsTable(cat: Catalogue, cfg: Settings, s: State, a: Action, i: Id)
    requires Sound(cat) && Structured(cat, s.db) && Allowed(cat, s, a) && i in s.db.episodes
    ensures Follows(s.db, a, i, Apply(cfg, s, a).db.episodes)
  {
    if a.CreateFrom? || a.StartDownload? || a.CancelDownload? {
      RequestFollows(cat, cfg, s, a, i);
    } else if a.CreateUploaded? {
      UploadStepFollows(cfg, s, a, i);
    } else if a.RemoveEpisode? {
      DeleteStepFollows(cfg, s, a, i);
    } else if a.RemovePodcast? {
      RemovalStepFollows(cfg, s, a, i);
    } else if a.WorkDownload? || a.WorkUpload? {
      WorkerFollows(cfg, s, a, i);
    } else {
      OtherFollows(cfg, s, a, i);
    }
  }

  // -------- a cancellation lasts

  /** The steps that may take an episode out of CANCELING. */
  ghost predicate MayEndCancel(db: Database, a: Action, i: Id) {
    i in db.episodes ==>
      || InReach(db, a, db.episodes[i])
      || ((a.WorkDownload? || a.WorkUpload? || a.Archive?) && a.id == i)
      || (a.CreateFrom? && a.order.podcast == db.episodes[i].podcast && a.order.source.id == db.episodes[i].sourceId)
  }

  lemma CancelStays(db: Database, a: Action, i: Id, r: map<Id, Episode>)
    requires i in db.episodes && db.episodes[i].status.Canceling? && !MayEndCancel(db, a, i) && Follows(db, a, i, r)
    ensures i in r && r[i].status.Canceling?
  {
  }

  /** An episode that is being cancelled is neither restarted nor deleted by any run of requests, nor by workers
      of other sources: it stays CANCELING until a worker, an archiving, or a creation that finds it. */
  lemma {:induction false} CancelLasts(cat: Catalogue, cfg: Settings, s: State, actions: seq<Action>, t: State, i: Id)
    requires Sound(cat) && Structured(cat, s.db) && i in s.db.episodes && s.db.episodes[i].status.Canceling?
    requires Leads(cat, cfg, s, actions, t, (db, a) => !MayEndCancel(db, a, i))
    ensures i in t.db.episodes && t.db.episodes[i].status.Canceling?
    decreases |actions|
  {
    if actions != [] {
      var only: Condition := (db, a) => !MayEndCancel(db, a, i);
      var last := actions[|actions| - 1];
      var mid :| Leads(cat, cfg, s, actions[..|actions| - 1], mid, only) && Allowed(cat, mid, last)
                 && only(mid.db, last) && t == Apply(cfg, mid, last);
      CancelLasts(cat, cfg, s, actions[..|actions| - 1], mid, i);
      RunStructured(cat, cfg, s, actions[..|actions| - 1], mid, only);
      StepFollowsTable(cat, cfg, mid, last, i);
      CancelStays(mid.db, last, i, t.db.episodes);
    }
  }

  /** From any reachable state: a download that is started and then cancelled is CANCELING, and stays so over every run
      of steps that may not end a cancellation. */
  lemma CancelledStays(cat: Catalogue, cfg: Settings, before: seq<Action>, s: State, user: Id, id: Id,
                       actions: seq<Action>, t: State)
    requires Sound(cat) && Reaches(cat, cfg, before, s, AnyStep) && RequestDownload(s.db, user, id).Ok?
    requires
      var started := Apply(cfg, s, StartDownload(user, id));
      Leads(cat, cfg, Apply(cfg, started, CancelDownload(user, id)), actions, t, (db, a) => !MayEndCancel(db, a, id))
    ensures
      var started := Apply(cfg, s, StartDownload(user, id));
      var cancelled := Apply(cfg, started, CancelDownload(user, id));
      && OnlyStatus(s.db, id, Status.Downloading, started.db) && OnlyStatus(started.db, id, Canceling, cancelled.db)
      && id in t.db.episodes && t.db.episodes[id].status == Canceling
  {
    var started := Apply(cfg, s, StartDownload(user, id));
    var cancelled := Apply(cfg, started, CancelDownload(user, id));
    ReachableIsStructured(cat, cfg, before, s, AnyStep);
    StepStructured(cat, cfg, s, StartDownload(user, id));
    StepStructured(cat, cfg, started, CancelDownload(user, id));
    StartMeans(s.db, user, id);
    CancelMeans(started.db, user, id);
    CancelLasts(cat, cfg, cancelled, actions, t, id);
  }
}
