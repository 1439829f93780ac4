/** Requests do not regenerate feeds: exactly which of them put a fresh feed out of date. */
module StaleFeeds {
  import opened Wrappers
  import opened Rows
  import opened Queries
  import opened Naming
  import opened Consistency
  import opened Feeds
  import opened RunTheorems
  import opened Creation
  import opened Deletion
  import opened Requests
  import opened Machine

  ghost function PublishedIn(db: Database, p: Id): set<Id> {
    set i | i in db.episodes && db.episodes[i].podcast == p && db.episodes[i].status.Published?
  }

  /** A fresh feed stays fresh exactly as long as the podcast's set of PUBLISHED episodes does. */
  lemma FreshAfterIff(a: Database, b: Database, feeds: map<Id, seq<Id>>, p: Id)
    requires Fresh(a, feeds, p)
    requires forall i :: i in a.episodes && i in b.episodes ==> b.episodes[i].createdAt == a.episodes[i].createdAt
    ensures Fresh(b, feeds, p) <==> PublishedIn(b, p) == PublishedIn(a, p)
  {
    assert forall i :: i in feeds[p] <==> i in PublishedIn(a, p);
    if Fresh(b, feeds, p) {
      assert forall i :: i in feeds[p] <==> i in PublishedIn(b, p);
    }
    if PublishedIn(b, p) == PublishedIn(a, p) {
      assert forall i :: i in feeds[p] <==>
          i in b.episodes && b.episodes[i].podcast == p && b.episodes[i].status.Published?;
    }
  }

  // -------- steps that leave the feeds alone

  predicate IsPublished(db: Database, i: Id) {
    i in db.episodes && db.episodes[i].status.Published?
  }

  /** The podcasts that lose a PUBLISHED episode between two states. */
  ghost function Demoted(a: Database, b: Database): set<Id> {
    set i | i in a.episodes && IsPublished(a, i) && !IsPublished(b, i) :: a.episodes[i].podcast
  }

  predicate RowKept(d: Episode, e: Episode) {
    e.podcast == d.podcast && e.createdAt == d.createdAt && e.publishedAt == d.publishedAt
  }

  /** Nothing becomes PUBLISHED, and rows keep their podcasts and times. */
  ghost predicate Quiet(a: Database, b: Database) {
    && (forall i :: IsPublished(b, i) ==> IsPublished(a, i))
    && (forall i :: i in a.episodes && i in b.episodes ==> RowKept(a.episodes[i], b.episodes[i]))
  }

  /** Such a step puts a fresh feed out of date exactly when its podcast loses a PUBLISHED episode. */
  lemma QuietFreshIff(a: Database, b: Database, feeds: map<Id, seq<Id>>, p: Id)
    requires Quiet(a, b) && Fresh(a, feeds, p)
    ensures Fresh(b, feeds, p) <==> p !in Demoted(a, b)
  {
    FreshAfterIff(a, b, feeds, p);
    forall i ensures i in PublishedIn(b, p) ==> i in PublishedIn(a, p) {
      assert i in PublishedIn(b, p) ==> IsPublished(b, i) && IsPublished(a, i);
    }
    if p in Demoted(a, b) {
      var i :| i in a.episodes && IsPublished(a, i) && !IsPublished(b, i) && a.episodes[i].podcast == p;
      assert i in PublishedIn(a, p) && i !in PublishedIn(b, p);
    } else {
      forall i | i in PublishedIn(a, p) ensures i in PublishedIn(b, p) {
        assert IsPublished(a, i);
      }
      assert PublishedIn(a, p) == PublishedIn(b, p);
    }
  }

  lemma QuietDated(a: Database, b: Database)
    requires Quiet(a, b) && Dated(a)
    ensures Dated(b)
  {
    forall i | i in b.episodes && b.episodes[i].status.Published? ensures b.episodes[i].publishedAt.Some? {
      assert IsPublished(b, i) && IsPublished(a, i) && RowKept(a.episodes[i], b.episodes[i]);
    }
  }

  lemma MarkQuiet(db: Database, id: Id, status: Status)
    requires !status.Published?
    ensures Quiet(db, SetStatus(db, id, status))
  {
  }

  lemma QuietOn(a: Database, b: Database, c: Database)
    requires Quiet(a, b) && Quiet(b, c) && a.episodes.Keys <= b.episodes.Keys
    ensures Quiet(a, c)
  {
    forall i | i in a.episodes && i in c.episodes ensures RowKept(a.episodes[i], c.episodes[i]) {
      assert i in b.episodes && RowKept(a.episodes[i], b.episodes[i]) && RowKept(b.episodes[i], c.episodes[i]);
    }
  }

  lemma CreateEpisodeQuiet(db: Database, o: Order)
    requires Linked(db) && Distinct(o.scan) && CreateEpisode(db, o).Ok?
    ensures
      var r := CreateEpisode(db, o).value.0;
      Quiet(db, r) && db.episodes.Keys <= r.episodes.Keys
  {
  }

  lemma CreateQuiet(db: Database, o: Order)
    requires Linked(db) && Distinct(o.scan) && RequestCreate(db, o).Ok?
    ensures Quiet(db, RequestCreate(db, o).value)
  {
    var (r, id) := CreateEpisode(db, o).value;
    CreateEpisodeQuiet(db, o);
    MarkQuiet(r, id, Downloading);
    QuietOn(db, r, SetStatus(r, id, Downloading));
  }

  lemma UploadQuiet(db: Database, u: UploadOrder)
    requires Linked(db) && RequestUploaded(db, u).Ok?
    ensures Quiet(db, RequestUploaded(db, u).value)
  {
  }

  lemma RemovalQuiet(db: Database, user: Id, podcast: Id, scan: seq<Id>)
    requires Visits(scan, db.episodes) && DeletePodcast(db, user, podcast, scan).Ok?
    ensures Quiet(db, DeletePodcast(db, user, podcast, scan).value)
  {
    DeletePodcastMeans(db, user, podcast, scan);
    var mid :| RemovedAtOnce(db, EpisodesOf(db, podcast), mid)
               && DeletePodcast(db, user, podcast, scan).value == mid.(podcasts := db.podcasts - {podcast});
    assert mid.episodes == db.episodes - EpisodesOf(db, podcast);
  }

  lemma DeleteQuiet(db: Database, user: Id, id: Id)
    ensures RequestDelete(db, user, id).Ok? ==> Quiet(db, RequestDelete(db, user, id).value)
  {
    if RequestDelete(db, user, id).Ok? {
      SafeDeleteRemoves(db, id);
    }
  }

  lemma StatusQuiet(db: Database, user: Id, id: Id)
    ensures RequestDownload(db, user, id).Ok? ==> Quiet(db, RequestDownload(db, user, id).value)
    ensures RequestCancel(db, user, id).Ok? ==> Quiet(db, RequestCancel(db, user, id).value)
  {
    MarkQuiet(db, id, Status.Downloading);
    MarkQuiet(db, id, Canceling);
  }

  lemma OwnerQuiet(cfg: Settings, s: State, a: Action)
    requires Linked(s.db) && WellPosed(s, a)
    requires a.StartDownload? || a.CancelDownload? || a.RemoveEpisode? || a.RemovePodcast?
    ensures Quiet(s.db, Apply(cfg, s, a).db)
  {
    if a.StartDownload? || a.CancelDownload? {
      StatusQuiet(s.db, a.user, a.id);
    } else if a.RemoveEpisode? {
      DeleteQuiet(s.db, a.user, a.id);
    } else if DeletePodcast(s.db, a.user, a.podcast, a.scan).Ok? {
      RemovalQuiet(s.db, a.user, a.podcast, a.scan);
    }
  }

  lemma InsertQuiet(cfg: Settings, s: State, a: Action)
    requires Linked(s.db) && WellPosed(s, a) && (a.CreateFrom? || a.CreateUploaded?)
    ensures Quiet(s.db, Apply(cfg, s, a).db)
  {
    if a.CreateFrom? {
      if RequestCreate(s.db, a.order).Ok? {
        CreateQuiet(s.db, a.order);
      }
    } else if RequestUploaded(s.db, a.upload).Ok? {
      UploadQuiet(s.db, a.upload);
    }
  }

  predicate IsWorker(a: Action) {
    a.WorkDownload? || a.WorkUpload? || a.WorkFeeds?
  }

  lemma StepQuiet(cfg: Settings, s: State, a: Action)
    requires Linked(s.db) && WellPosed(s, a) && !IsWorker(a)
    ensures Quiet(s.db, Apply(cfg, s, a).db) && Apply(cfg, s, a).feeds == s.feeds
  {
    if a.CreateFrom? || a.CreateUploaded? {
      InsertQuiet(cfg, s, a);
    } else if a.StartDownload? || a.CancelDownload? || a.RemoveEpisode? || a.RemovePodcast? {
      OwnerQuiet(cfg, s, a);
    } else {
      OtherQuiet(cfg, s, a);
    }
  }

  lemma OtherQuiet(cfg: Settings, s: State, a: Action)
    requires WellPosed(s, a)
    requires a.CreatePodcast? || a.ConfigurePodcast? || a.StoreCover? || a.Archive? || a.ChangeObjects?
    ensures Quiet(s.db, Apply(cfg, s, a).db) && Apply(cfg, s, a).feeds == s.feeds
  {
    if a.Archive? {
      MarkQuiet(s.db, a.id, Archived);
    }
  }

  /** Deleting an episode leaves its podcast's feed stale exactly when the episode was PUBLISHED. */
  lemma DeletionStalesIff(db: Database, feeds: map<Id, seq<Id>>, user: Id, id: Id)
    requires RequestDelete(db, user, id).Ok? && Fresh(db, feeds, db.episodes[id].podcast)
    ensures Fresh(RequestDelete(db, user, id).value, feeds, db.episodes[id].podcast) <==>
        !db.episodes[id].status.Published?
  {
    var p := db.episodes[id].podcast;
    var r := RequestDelete(db, user, id).value;
    SafeDeleteRemoves(db, id);
    FreshAfterIff(db, r, feeds, p);
    assert PublishedIn(r, p) == PublishedIn(db, p) - {id};
  }

  /** So does starting a download again. */
  lemma StartStalesIff(db: Database, feeds: map<Id, seq<Id>>, user: Id, id: Id)
    requires RequestDownload(db, user, id).Ok? && Fresh(db, feeds, db.episodes[id].podcast)
    ensures Fresh(RequestDownload(db, user, id).value, feeds, db.episodes[id].podcast) <==>
        !db.episodes[id].status.Published?
  {
    var p := db.episodes[id].podcast;
    var r := RequestDownload(db, user, id).value;
    FreshAfterIff(db, r, feeds, p);
    assert PublishedIn(r, p) == PublishedIn(db, p) - {id};
  }
}
