/** The publishing system as a state machine: requests, worker runs, and whatever else happens to the
    object store, in any order. Each step is one committed or rolled-back transaction. */
module Machine {
  import opened Wrappers
  import opened Rows
  import opened Queries
  import opened Naming
  import opened Consistency
  import opened Feeds
  import opened Downloading
  import opened DownloadingProofs
  import opened DownloadingOutcomes
  import opened Uploading
  import opened Creation
  import opened Deletion
  import opened Requests
  import opened RequestProofs

  datatype Action =
    | CreatePodcast(owner: Id, publishId: string, downloadAutomatically: bool)
    | ConfigurePodcast(user: Id, podcast: Id, downloadAutomatically: bool)
    | CreateFrom(order: Order)
    | CreateUploaded(upload: UploadOrder)
    | StartDownload(user: Id, id: Id)
    | CancelDownload(user: Id, id: Id)
    | RemoveEpisode(user: Id, id: Id)
    | RemovePodcast(user: Id, podcast: Id, scan: seq<Id>)
    | WorkDownload(id: Id, world: World)
    | WorkUpload(id: Id, uploadWorld: UploadWorld)
    | WorkFeeds(podcasts: seq<Id>, feedWorld: FeedWorld, commit: bool)
    | StoreCover(file: Id, path: string, size: nat)
    | Archive(id: Id)
    | ChangeObjects(objects: map<string, nat>)

  const EMPTY_STATE := State(EMPTY_DATABASE, map[], map[])

  /** A podcast enters the model together with its feed's file row. */
  function AddPodcast(db: Database, owner: Id, publishId: string, automatic: bool): Database {
    var n := db.nextId;
    db.(files := db.files[n := File(Rss, "", 0, "", false, owner, "")],
        podcasts := db.podcasts[n + 1 := Podcast(owner, publishId, n, automatic)],
        nextId := n + 2)
  }

  /** The podcast update request; the other columns it can change are not modelled. */
  function Configure(db: Database, user: Id, podcast: Id, automatic: bool): Database {
    if podcast in db.podcasts && db.podcasts[podcast].owner == user then
      db.(podcasts := db.podcasts[podcast := db.podcasts[podcast].(downloadAutomatically := automatic)])
    else db
  }

  function Accept<E>(s: State, r: Result<Database, E>): State {
    if r.Ok? then s.(db := r.value) else s
  }

  predicate IsCover(db: Database, f: Id) {
    f in db.files && db.files[f].kind == Image
  }

  function Apply(cfg: Settings, s: State, a: Action): State
    requires WellPosed(s, a)
  {
    match a
    case CreatePodcast(owner, publishId, automatic) => s.(db := AddPodcast(s.db, owner, publishId, automatic))
    case ConfigurePodcast(user, podcast, automatic) => s.(db := Configure(s.db, user, podcast, automatic))
    case CreateFrom(o) => Accept(s, RequestCreate(s.db, o))
    case CreateUploaded(u) => Accept(s, RequestUploaded(s.db, u))
    case StartDownload(user, id) => Accept(s, RequestDownload(s.db, user, id))
    case CancelDownload(user, id) => Accept(s, RequestCancel(s.db, user, id))
    case RemoveEpisode(user, id) => Accept(s, RequestDelete(s.db, user, id))
    case RemovePodcast(user, podcast, scan) => Accept(s, DeletePodcast(s.db, user, podcast, scan))
    case WorkDownload(id, w) => Work(cfg, s, id, w).0
    case WorkUpload(id, w) => WorkUploaded(cfg, s, id, w).0
    case WorkFeeds(rows, w, commit) =>
      var (r, ok) := Generate(cfg, s, rows, w);
      if ok && commit then r else r.(db := s.db)
    case StoreCover(f, path, size) =>
      if IsCover(s.db, f) then s.(db := SetFile(s.db, f, FilePatch(Some(path), Some(size), Some(true)))) else s
    case Archive(id) => s.(db := SetStatus(s.db, id, Archived))
    case ChangeObjects(objects) => s.(objects := objects)
  }

  /** The orders in which queries visit rows are orders of the rows there are. */
  ghost predicate WellPosed(s: State, a: Action) {
    match a
    case CreateFrom(o) => Visits(o.scan, s.db.episodes)
    case RemovePodcast(user, podcast, scan) => Visits(scan, s.db.episodes)
    case WorkDownload(id, w) => Visits(w.feeds.scan, s.db.episodes) && Visits(w.feeds.podcastScan, s.db.podcasts)
    case WorkUpload(id, w) => Visits(w.feeds.scan, s.db.episodes) && Visits(w.feeds.podcastScan, s.db.podcasts)
    case WorkFeeds(rows, w, _) => Visits(w.scan, s.db.episodes) && forall p :: p in rows ==> p in s.db.podcasts
    case _ => true
  }

  /** What the steps rely on from outside: unique publish ids, the catalogue for creation, the answers of the
      upload queries, and the choice of worker by source type. */
  ghost predicate Allowed(cat: Catalogue, s: State, a: Action) {
    && WellPosed(s, a)
    && match a
       case CreatePodcast(_, publishId, _) => forall p :: p in s.db.podcasts ==> s.db.podcasts[p].publishId != publishId
       case CreateFrom(o) => Plausible(cat, s.db, o)
       case CreateUploaded(u) => Answered(s.db, u)
       case WorkDownload(id, w) => id in s.db.episodes ==> !s.db.episodes[id].sourceType.Upload?
       case WorkUpload(id, w) => id in s.db.episodes ==> s.db.episodes[id].sourceType.Upload?
       case _ => true
  }

  /** No accepted upload repoints a PUBLISHED episode at an audio row that is not available. */
  predicate Careful(db: Database, a: Action) {
    a.CreateUploaded? && RequestUploaded(db, a.upload).Ok? ==> !Strands(db, a.upload)
  }

  /** After the owner's update of a podcast, creation in it starts the download exactly as the update says. */
  lemma ConfiguredStarts(db: Database, user: Id, podcast: Id, automatic: bool, o: Order)
    requires podcast in db.podcasts && db.podcasts[podcast].owner == user && o.podcast == podcast
    requires Distinct(o.scan) && IdsBelow(db) && RequestCreate(Configure(db, user, podcast, automatic), o).Ok?
    ensures
      var c := CreateEpisode(Configure(db, user, podcast, automatic), o).value;
      var r := RequestCreate(Configure(db, user, podcast, automatic), o).value;
      if automatic then OnlyStatus(c.0, c.1, Status.Downloading, r) else r == c.0
  {
    CreateMeans(Configure(db, user, podcast, automatic), o);
  }

  /** The update changes this column of the user's own podcast, and nothing else. */
  lemma ConfigureMeans(db: Database, user: Id, podcast: Id, automatic: bool)
    ensures
      var r := Configure(db, user, podcast, automatic);
      && r.episodes == db.episodes && r.files == db.files && r.nextId == db.nextId
          && r.podcasts.Keys == db.podcasts.Keys
      && (forall p :: p in db.podcasts ==>
            r.podcasts[p] == if p == podcast && db.podcasts[p].owner == user
                             then db.podcasts[p].(downloadAutomatically := automatic) else db.podcasts[p])
  {
  }

  /** A new podcast belongs to whoever created it, holds what was asked for, and has an empty feed file of its own;
      every
      other row is as before. */
  lemma AddPodcastMeans(db: Database, owner: Id, publishId: string, automatic: bool)
    requires Linked(db)
    ensures
      var r := AddPodcast(db, owner, publishId, automatic);
      exists p: Id, f: Id ::
        && p !in db.podcasts && f !in db.files && r.episodes == db.episodes
        && r.podcasts == db.podcasts[p := Podcast(owner, publishId, f, automatic)]
        && r.files == db.files[f := File(Rss, "", 0, "", false, owner, "")]
  {
    var p, f := db.nextId + 1, db.nextId;
    assert p !in db.podcasts && f !in db.files;
    assert AddPodcast(db, owner, publishId, automatic).podcasts
           == db.podcasts[p := Podcast(owner, publishId, f, automatic)];
  }

  /** A stored cover's row says where it is, how long it is and that it is available; nothing else changes. */
  lemma StoreCoverMeans(cfg: Settings, s: State, f: Id, path: string, size: nat)
    requires f in s.db.files && s.db.files[f].kind == Image
    ensures
      var g := s.db.files[f].(path := path, size := size, available := true);
      Apply(cfg, s, StoreCover(f, path, size)) == s.(db := s.db.(files := s.db.files[f := g]))
  {
  }

  // -------- invariance

  lemma AddPodcastLinked(db: Database, owner: Id, publishId: string, automatic: bool)
    requires Linked(db)
    ensures
      var r := AddPodcast(db, owner, publishId, automatic);
      && Linked(r) && r.episodes == db.episodes
      && forall i :: i in db.episodes ==> AudioOf(r, db.episodes[i]) == AudioOf(db, db.episodes[i])
  {
    var r := AddPodcast(db, owner, publishId, automatic);
    forall i | i in db.episodes
      ensures EpisodeLinked(r, db.episodes[i]) && AudioOf(r, db.episodes[i]) == AudioOf(db, db.episodes[i])
    {
      assert EpisodeLinked(db, db.episodes[i]);
    }
  }

  lemma AddPodcastSourced(cat: Catalogue, db: Database, owner: Id, publishId: string, automatic: bool)
    requires Linked(db) && Sourced(cat, db) && cat.origin("") == None
    ensures Sourced(cat, AddPodcast(db, owner, publishId, automatic))
  {
    var r := AddPodcast(db, owner, publishId, automatic);
    AddPodcastLinked(db, owner, publishId, automatic);
    InsertedFilesSourced(cat, db.files, db.nextId, File(Rss, "", 0, "", false, owner, ""));
    forall i | i in db.episodes ensures EpisodeSourced(cat, r, db.episodes[i]) {
      assert EpisodeSourced(cat, db, db.episodes[i]) && EpisodeLinked(db, db.episodes[i]);
    }
  }

  lemma AddPodcastKeeps(cat: Catalogue, db: Database, owner: Id, publishId: string, automatic: bool)
    requires Structured(cat, db) && cat.origin("") == None
    ensures Preserves(cat, db, AddPodcast(db, owner, publishId, automatic))
  {
    var r := AddPodcast(db, owner, publishId, automatic);
    AddPodcastLinked(db, owner, publishId, automatic);
    AddPodcastSourced(cat, db, owner, publishId, automatic);
    SameAudioAgrees(db, r);
    if Playable(db) {
      forall i | i in r.episodes && r.episodes[i].status.Published? ensures CanPlay(r, r.episodes[i]) {
        assert CanPlay(db, db.episodes[i]) && EpisodeLinked(r, r.episodes[i]);
      }
    }
  }

  /** Podcast rows matter to the others by their ids, owners and feed rows only. */
  ghost predicate PodcastsAlike(a: Database, b: Database) {
    && a.files == b.files && a.episodes == b.episodes && a.nextId == b.nextId && a.podcasts.Keys == b.podcasts.Keys
    && forall p :: p in a.podcasts ==>
        a.podcasts[p].owner == b.podcasts[p].owner && a.podcasts[p].rss == b.podcasts[p].rss
  }

  lemma ConfigureAlike(db: Database, user: Id, podcast: Id, automatic: bool)
    ensures PodcastsAlike(db, Configure(db, user, podcast, automatic))
  {
  }

  lemma AlikeLinked(db: Database, r: Database)
    requires Linked(db) && PodcastsAlike(db, r)
    ensures Linked(r)
  {
    forall i | i in db.episodes ensures EpisodeLinked(r, db.episodes[i]) {
      assert EpisodeLinked(db, db.episodes[i]);
    }
  }

  lemma AlikeSourced(cat: Catalogue, db: Database, r: Database)
    requires Sourced(cat, db) && PodcastsAlike(db, r)
    ensures Sourced(cat, r)
  {
    forall i | i in db.episodes ensures EpisodeSourced(cat, r, db.episodes[i]) {
      assert EpisodeSourced(cat, db, db.episodes[i]);
    }
  }

  lemma ConfigureKeeps(cat: Catalogue, db: Database, user: Id, podcast: Id, automatic: bool)
    requires Structured(cat, db)
    ensures Preserves(cat, db, Configure(db, user, podcast, automatic))
  {
    var r := Configure(db, user, podcast, automatic);
    ConfigureAlike(db, user, podcast, automatic);
    AlikeLinked(db, r);
    AlikeSourced(cat, db, r);
    SameAudioAgrees(db, r);
    if Playable(db) {
      forall i | i in r.episodes && r.episodes[i].status.Published? ensures CanPlay(r, r.episodes[i]) {
        assert CanPlay(db, db.episodes[i]);
      }
    }
  }

  lemma CoverPlays(db: Database, f: Id, p: FilePatch)
    requires Linked(db) && Playable(db) && IsCover(db, f)
    ensures Playable(SetFile(db, f, p))
  {
    var r := SetFile(db, f, p);
    forall i | i in r.episodes && r.episodes[i].status.Published? ensures CanPlay(r, r.episodes[i]) {
      assert CanPlay(db, db.episodes[i]) && EpisodeLinked(db, db.episodes[i]);
    }
  }

  lemma StoreCoverKeeps(cat: Catalogue, db: Database, f: Id, p: FilePatch)
    requires Structured(cat, db) && IsCover(db, f)
    ensures Preserves(cat, db, SetFile(db, f, p))
  {
    SetFileShape(db, f, p);
    SetFileAgreed(db, f, p);
    if Playable(db) {
      CoverPlays(db, f, p);
    }
    KeepsFrom(cat, db, SetFile(db, f, p));
  }

  lemma Unchanged(cat: Catalogue, db: Database)
    requires Structured(cat, db)
    ensures Preserves(cat, db, db)
  {
  }

  lemma RequestPreserves(cat: Catalogue, cfg: Settings, s: State, a: Action)
    requires Sound(cat) && Structured(cat, s.db) && Allowed(cat, s, a)
    requires a.CreateFrom? || a.StartDownload? || a.CancelDownload? || a.RemoveEpisode? || a.RemovePodcast?
    ensures Preserves(cat, s.db, Apply(cfg, s, a).db)
  {
    Unchanged(cat, s.db);
    if a.CreateFrom? {
      RequestCreateKeeps(cat, s.db, a.order);
    } else if a.StartDownload? {
      RequestDownloadKeeps(cat, s.db, a.user, a.id);
    } else if a.CancelDownload? {
      RequestCancelKeeps(cat, s.db, a.user, a.id);
    } else if a.RemoveEpisode? {
      RequestDeleteKeeps(cat, s.db, a.user, a.id);
    } else {
      DeletePodcastKeeps(cat, s.db, a.user, a.podcast, a.scan);
    }
  }

  lemma WorkPreserves(cat: Catalogue, cfg: Settings, s: State, a: Action)
    requires Sound(cat) && Structured(cat, s.db) && Allowed(cat, s, a)
    requires a.WorkDownload? || a.WorkUpload? || a.WorkFeeds?
    ensures Preserves(cat, s.db, Apply(cfg, s, a).db)
  {
    Unchanged(cat, s.db);
    if a.WorkDownload? {
      WorkKeeps(cat, cfg, s, a.id, a.world);
    } else if a.WorkUpload? {
      WorkUploadedKeeps(cat, cfg, s, a.id, a.uploadWorld);
    } else {
      GenerateKeeps(cat, cfg, s, a.podcasts, a.feedWorld);
    }
  }

  /** Every step but an upload keeps the rows connected and in agreement, and published episodes playable. */
  lemma StepPreserves(cat: Catalogue, cfg: Settings, s: State, a: Action)
    requires Sound(cat) && Structured(cat, s.db) && Allowed(cat, s, a) && !a.CreateUploaded?
    ensures Preserves(cat, s.db, Apply(cfg, s, a).db)
  {
    Unchanged(cat, s.db);
    match a
    case CreatePodcast(owner, publishId, automatic) => AddPodcastKeeps(cat, s.db, owner, publishId, automatic);
    case ConfigurePodcast(user, podcast, automatic) => ConfigureKeeps(cat, s.db, user, podcast, automatic);
    case WorkDownload(_, _) => WorkPreserves(cat, cfg, s, a);
    case WorkUpload(_, _) => WorkPreserves(cat, cfg, s, a);
    case WorkFeeds(_, _, _) => WorkPreserves(cat, cfg, s, a);
    case StoreCover(f, path, size) =>
      if IsCover(s.db, f) {
        StoreCoverKeeps(cat, s.db, f, FilePatch(Some(path), Some(size), Some(true)));
      }
    case Archive(id) => MarkKeeps(cat, s.db, id, Archived);
    case ChangeObjects(objects) =>
    case _ => RequestPreserves(cat, cfg, s, a);
  }

  /** Every step keeps the rows connected and in agreement. */
  lemma StepStructured(cat: Catalogue, cfg: Settings, s: State, a: Action)
    requires Sound(cat) && Structured(cat, s.db) && Allowed(cat, s, a)
    ensures Structured(cat, Apply(cfg, s, a).db)
  {
    if a.CreateUploaded? {
      if RequestUploaded(s.db, a.upload).Ok? {
        RequestUploadedStructured(cat, s.db, a.upload);
      }
    } else {
      StepPreserves(cat, cfg, s, a);
    }
  }

  /** A step keeps the rows consistent exactly when it is careful. */
  lemma StepKeepsIff(cat: Catalogue, cfg: Settings, s: State, a: Action)
    requires Sound(cat) && Consistent(cat, s.db) && Allowed(cat, s, a)
    ensures Consistent(cat, Apply(cfg, s, a).db) <==> Careful(s.db, a)
  {
    if a.CreateUploaded? {
      if RequestUploaded(s.db, a.upload).Ok? {
        RequestUploadedKeepsIff(cat, s.db, a.upload);
      }
    } else {
      StepPreserves(cat, cfg, s, a);
    }
  }

  // -------- runs

  /** A condition on a step and the rows it is taken at. */
  type Condition = (Database, Action) -> bool

  predicate AnyStep(db: Database, a: Action) {
    true
  }

  /** The actions lead from `s` to `t`, each allowed where it is taken, and of the kind asked for. */
  ghost predicate Leads(cat: Catalogue, cfg: Settings, s: State, actions: seq<Action>, t: State, only: Condition)
    decreases |actions|
  {
    if actions == [] then t == s
    else
      var last := actions[|actions| - 1];
      exists mid ::
        && Leads(cat, cfg, s, actions[..|actions| - 1], mid, only)
        && Allowed(cat, mid, last) && only(mid.db, last) && t == Apply(cfg, mid, last)
  }

  /** `t` is reached from the empty system. */
  ghost predicate Reaches(cat: Catalogue, cfg: Settings, actions: seq<Action>, t: State, only: Condition) {
    Leads(cat, cfg, EMPTY_STATE, actions, t, only)
  }

  lemma ReachOn(cat: Catalogue, cfg: Settings, actions: seq<Action>, t: State, a: Action, only: Condition)
    requires Reaches(cat, cfg, actions, t, only) && Allowed(cat, t, a) && only(t.db, a)
    ensures Reaches(cat, cfg, actions + [a], Apply(cfg, t, a), only)
  {
    var all := actions + [a];
    assert all[..|all| - 1] == actions && all[|all| - 1] == a;
  }

  lemma {:induction false} RunsWiden(cat: Catalogue, cfg: Settings, s: State, actions: seq<Action>, t: State,
                                     only: Condition)
    requires Leads(cat, cfg, s, actions, t, only)
    ensures Leads(cat, cfg, s, actions, t, AnyStep)
    decreases |actions|
  {
    if actions != [] {
      var last := actions[|actions| - 1];
      var mid :| Leads(cat, cfg, s, actions[..|actions| - 1], mid, only) && Allowed(cat, mid, last)
                 && t == Apply(cfg, mid, last);
      RunsWiden(cat, cfg, s, actions[..|actions| - 1], mid, only);
    }
  }

  lemma {:induction false} RunStructured(cat: Catalogue, cfg: Settings, s: State, actions: seq<Action>, t: State,
                                         only: Condition)
    requires Sound(cat) && Structured(cat, s.db) && Leads(cat, cfg, s, actions, t, only)
    ensures Structured(cat, t.db)
    decreases |actions|
  {
    if actions != [] {
      var last := actions[|actions| - 1];
      var mid :| Leads(cat, cfg, s, actions[..|actions| - 1], mid, only) && Allowed(cat, mid, last)
                 && t == Apply(cfg, mid, last);
      RunStructured(cat, cfg, s, actions[..|actions| - 1], mid, only);
      StepStructured(cat, cfg, mid, last);
    }
  }

  lemma {:induction false} CarefulRunConsistent(cat: Catalogue, cfg: Settings, s: State, actions: seq<Action>, t: State)
    requires Sound(cat) && Consistent(cat, s.db) && Leads(cat, cfg, s, actions, t, Careful)
    ensures Consistent(cat, t.db)
    decreases |actions|
  {
    if actions != [] {
      var last := actions[|actions| - 1];
      var mid :| Leads(cat, cfg, s, actions[..|actions| - 1], mid, Careful) && Allowed(cat, mid, last)
                 && Careful(mid.db, last) && t == Apply(cfg, mid, last);
      CarefulRunConsistent(cat, cfg, s, actions[..|actions| - 1], mid);
      StepKeepsIff(cat, cfg, mid, last);
    }
  }

  /** In every reachable state the rows are connected and in agreement. */
  lemma ReachableIsStructured(cat: Catalogue, cfg: Settings, actions: seq<Action>, s: State, only: Condition)
    requires Sound(cat) && Reaches(cat, cfg, actions, s, only)
    ensures Structured(cat, s.db)
  {
    RunStructured(cat, cfg, EMPTY_STATE, actions, s, only);
  }

  /** In every state reached by a run of careful steps the rows are consistent. */
  lemma ReachableIsConsistent(cat: Catalogue, cfg: Settings, actions: seq<Action>, s: State)
    requires Sound(cat) && Reaches(cat, cfg, actions, s, Careful)
    ensures Consistent(cat, s.db)
  {
    CarefulRunConsistent(cat, cfg, EMPTY_STATE, actions, s);
  }

  /** In every such state a published episode has a publication time and an available audio row. */
  lemma PublishedIsPlayable(cat: Catalogue, cfg: Settings, actions: seq<Action>, s: State, i: Id)
    requires Sound(cat) && Reaches(cat, cfg, actions, s, Careful)
    requires i in s.db.episodes && s.db.episodes[i].status == Published
    ensures s.db.episodes[i].publishedAt.Some?
    ensures s.db.episodes[i].audio.Some? && s.db.episodes[i].audio.value in s.db.files
    ensures s.db.files[s.db.episodes[i].audio.value].kind == Audio && s.db.files[s.db.episodes[i].audio.value].available
  {
    ReachableIsConsistent(cat, cfg, actions, s);
    assert CanPlay(s.db, s.db.episodes[i]) && EpisodeLinked(s.db, s.db.episodes[i]);
  }

  /** In every reachable state two episodes' audio rows that share a non-empty source URL agree on path
      and size and belong to the same source, and episodes of one downloadable source share the URL. */
  lemma SourcesAgree(cat: Catalogue, cfg: Settings, actions: seq<Action>, s: State, i: Id, j: Id)
    requires Sound(cat) && Reaches(cat, cfg, actions, s, AnyStep)
    requires i in s.db.episodes && j in s.db.episodes
    ensures
      var d, e := s.db.episodes[i], s.db.episodes[j];
      var f, g := AudioOf(s.db, d), AudioOf(s.db, e);
      && (f.sourceUrl == g.sourceUrl && f.sourceUrl != "" ==>
            f.path == g.path && f.size == g.size && d.sourceId == e.sourceId && d.sourceType == e.sourceType)
      && (d.sourceId == e.sourceId && !d.sourceType.Upload? ==>
            f.sourceUrl == g.sourceUrl && f.sourceUrl != "" && f.path == g.path && f.size == g.size)
  {
    ReachableIsStructured(cat, cfg, actions, s, AnyStep);
    var d, e := s.db.episodes[i], s.db.episodes[j];
    assert EpisodeSourced(cat, s.db, d) && EpisodeSourced(cat, s.db, e) && EpisodeLinked(s.db, d);
    assert Agree(AudioOf(s.db, d), AudioOf(s.db, e));
  }

  /** In every reachable state a podcast holds at most one episode of a source. */
  lemma OneEpisodePerSource(cat: Catalogue, cfg: Settings, actions: seq<Action>, s: State, i: Id, j: Id)
    requires Sound(cat) && Reaches(cat, cfg, actions, s, AnyStep)
    requires i in s.db.episodes && j in s.db.episodes && s.db.episodes[i].podcast == s.db.episodes[j].podcast
    requires s.db.episodes[i].sourceId == s.db.episodes[j].sourceId
    ensures i == j
  {
    ReachableIsStructured(cat, cfg, actions, s, AnyStep);
  }

  // -------- podcasts and their feeds

  /** No two podcasts share a publish id or a feed row. */
  ghost predicate FeedsApart(db: Database) {
    forall p, q :: p in db.podcasts && q in db.podcasts && p != q ==>
      db.podcasts[p].publishId != db.podcasts[q].publishId && db.podcasts[p].rss != db.podcasts[q].rss
  }

  lemma WorkerPodcasts(cat: Catalogue, cfg: Settings, s: State, a: Action)
    requires Sound(cat) && Structured(cat, s.db) && Allowed(cat, s, a)
    requires a.WorkDownload? || a.WorkUpload? || a.WorkFeeds?
    ensures Apply(cfg, s, a).db.podcasts == s.db.podcasts
  {
    if a.WorkDownload? {
      WorkKeeps(cat, cfg, s, a.id, a.world);
    } else if a.WorkUpload? {
      WorkUploadedKeeps(cat, cfg, s, a.id, a.uploadWorld);
    } else {
      GenerateKeeps(cat, cfg, s, a.podcasts, a.feedWorld);
    }
  }

  lemma UploadPodcasts(db: Database, u: UploadOrder)
    requires RequestUploaded(db, u).Ok?
    ensures RequestUploaded(db, u).value.podcasts == db.podcasts
  {
  }

  lemma CreatePodcasts(db: Database, o: Order)
    requires Distinct(o.scan) && RequestCreate(db, o).Ok?
    ensures RequestCreate(db, o).value.podcasts == db.podcasts
  {
  }

  lemma OwnerPodcasts(cfg: Settings, s: State, a: Action)
    requires WellPosed(s, a) && (a.StartDownload? || a.CancelDownload? || a.RemoveEpisode?)
    ensures Apply(cfg, s, a).db.podcasts == s.db.podcasts
  {
    if a.RemoveEpisode? && RequestDelete(s.db, a.user, a.id).Ok? {
      SafeDeleteRemoves(s.db, a.id);
    }
  }

  lemma InsertPodcasts(cfg: Settings, s: State, a: Action)
    requires WellPosed(s, a)
    requires a.CreateFrom? || a.CreateUploaded? || a.StoreCover? || a.Archive? || a.ChangeObjects?
    ensures Apply(cfg, s, a).db.podcasts == s.db.podcasts
  {
    if a.CreateFrom? {
      if RequestCreate(s.db, a.order).Ok? {
        CreatePodcasts(s.db, a.order);
      }
    } else if a.CreateUploaded? {
      if RequestUploaded(s.db, a.upload).Ok? {
        UploadPodcasts(s.db, a.upload);
      }
    }
  }

  lemma PodcastsStay(cat: Catalogue, cfg: Settings, s: State, a: Action)
    requires Sound(cat) && Structured(cat, s.db) && Allowed(cat, s, a)
    requires !a.CreatePodcast? && !a.ConfigurePodcast? && !a.RemovePodcast?
    ensures Apply(cfg, s, a).db.podcasts == s.db.podcasts
  {
    if a.WorkDownload? || a.WorkUpload? || a.WorkFeeds? {
      WorkerPodcasts(cat, cfg, s, a);
    } else if a.StartDownload? || a.CancelDownload? || a.RemoveEpisode? {
      OwnerPodcasts(cfg, s, a);
    } else {
      InsertPodcasts(cfg, s, a);
    }
  }

  lemma RemovedPodcast(db: Database, user: Id, podcast: Id, scan: seq<Id>)
    requires Visits(scan, db.episodes) && DeletePodcast(db, user, podcast, scan).Ok?
    ensures DeletePodcast(db, user, podcast, scan).value.podcasts == db.podcasts - {podcast}
  {
    DeletePodcastMeans(db, user, podcast, scan);
  }

  lemma StepKeepsFeedsApart(cat: Catalogue, cfg: Settings, s: State, a: Action)
    requires Sound(cat) && Structured(cat, s.db) && Allowed(cat, s, a) && FeedsApart(s.db)
    ensures FeedsApart(Apply(cfg, s, a).db)
  {
    if a.RemovePodcast? {
      if DeletePodcast(s.db, a.user, a.podcast, a.scan).Ok? {
        RemovedPodcast(s.db, a.user, a.podcast, a.scan);
      }
    } else if a.CreatePodcast? || a.ConfigurePodcast? {
      PodcastWritten(cat, cfg, s, a);
    } else {
      PodcastsStay(cat, cfg, s, a);
    }
  }

  lemma PodcastWritten(cat: Catalogue, cfg: Settings, s: State, a: Action)
    requires Linked(s.db) && Allowed(cat, s, a) && FeedsApart(s.db) && (a.CreatePodcast? || a.ConfigurePodcast?)
    ensures FeedsApart(Apply(cfg, s, a).db)
  {
  }

  /** In every reachable state no two podcasts share a publish id, which names the feed object, or a feed row. */
  lemma {:induction false} FeedsStayApart(cat: Catalogue, cfg: Settings, actions: seq<Action>, t: State,
                                          only: Condition)
    requires Sound(cat) && Reaches(cat, cfg, actions, t, only)
    ensures FeedsApart(t.db)
    decreases |actions|
  {
    if actions != [] {
      var last := actions[|actions| - 1];
      var mid :| Leads(cat, cfg, EMPTY_STATE, actions[..|actions| - 1], mid, only) && Allowed(cat, mid, last)
                 && t == Apply(cfg, mid, last);
      ReachableIsStructured(cat, cfg, actions[..|actions| - 1], mid, only);
      FeedsStayApart(cat, cfg, actions[..|actions| - 1], mid, only);
      StepKeepsFeedsApart(cat, cfg, mid, last);
    }
  }
}
