/** The worker for episodes whose audio was uploaded by hand. */
module Uploading {
  import opened Wrappers
  import opened Strings
  import opened Rows
  import opened Queries
  import opened Naming
  import opened Consistency
  import opened Feeds
  import opened Downloading
  import opened DownloadingProofs
  import opened DownloadingOutcomes

  /** `remote_copy_episode`: copied, refused (None returned), or an exception. */
  datatype Copy = Copied | CopyRefused | CopyStopped | CopyRaised

  datatype UploadWorld = UploadWorld(
    probe: bool,
    copy: Copy,
    measure: bool,
    feeds: FeedWorld,
    signal: bool,
    commit: bool)

  function CopyTarget(cfg: Settings, e: Episode, path: string): string {
    Join(cfg.audioPrefix, AudioFilename(cfg, e.sourceId, Some(path)))
  }

  /** The rows after the driver and its audio row are published. */
  function PublishUpload(db: Database, id: Id, p: FilePatch): Database
    requires id in db.episodes && db.episodes[id].audio.Some?
  {
    SetFile(db.(episodes := db.episodes[id := Restamp(db.episodes[id], Published, Some(db.episodes[id].createdAt))]),
            db.episodes[id].audio.value, p)
  }

  function SizeByName(objects: map<string, nat>, cfg: Settings, name: string, reachable: bool): nat {
    if name == "" then 0 else StoredSize(objects, Join(cfg.audioPrefix, name), reachable)
  }

  /** The copy made and recorded, before the feeds are refreshed. */
  function CopiedState(cfg: Settings, s: State, id: Id, w: UploadWorld): State
    requires id in s.db.episodes && s.db.episodes[id].audio.Some?
    requires AudioOf(s.db, s.db.episodes[id]).path in s.objects
  {
    var path := AudioOf(s.db, s.db.episodes[id]).path;
    var key := CopyTarget(cfg, s.db.episodes[id], path);
    var objects := s.objects[key := s.objects[path]];
    var size := SizeByName(objects, cfg, Basename(key), w.measure);
    s.(objects := objects, db := PublishUpload(s.db, id, FilePatch(Some(key), Some(size), Some(true))))
  }

  function PublishCopy(cfg: Settings, s: State, id: Id, w: UploadWorld): (State, Exit)
    requires Distinct(w.feeds.scan) && id in s.db.episodes && s.db.episodes[id].audio.Some?
    requires AudioOf(s.db, s.db.episodes[id]).path in s.objects
  {
    var (r, ok) := RefreshFeeds(cfg, CopiedState(cfg, s, id, w), s.db.episodes[id].sourceId, w.feeds);
    (r, if ok then Finished else Crashed)
  }

  /** `_copy_file` and what follows it. */
  function CopyFile(cfg: Settings, s: State, id: Id, w: UploadWorld): (State, Exit)
    requires Distinct(w.feeds.scan) && id in s.db.episodes && s.db.episodes[id].audio.Some?
  {
    match w.copy
    case CopyStopped => (s, Stopped)
    case CopyRaised => (s, Crashed)
    case CopyRefused => (s.(db := SetStatus(s.db, id, Status.Error)), UploadFailed)
    case Copied =>
      if AudioOf(s.db, s.db.episodes[id]).path in s.objects then PublishCopy(cfg, s, id, w)
      else (s.(db := SetStatus(s.db, id, Status.Error)), UploadFailed)
  }

  predicate NeedsCopy(s: State, id: Id, w: UploadWorld) {
    && id in s.db.episodes && s.db.episodes[id].audio.Some? && s.db.episodes[id].audio.value in s.db.files
    && var f := AudioOf(s.db, s.db.episodes[id]);
       !s.db.episodes[id].status.Published? && StoredSize(s.objects, f.path, w.probe) == f.size
  }

  /** `UploadedEpisodeTask.perform_run`. */
  function PerformUploaded(cfg: Settings, s: State, id: Id, w: UploadWorld): (State, Exit)
    requires Distinct(w.feeds.scan)
  {
    if id !in s.db.episodes then (s, Crashed)
    else
      var e := s.db.episodes[id];
      if e.audio.None? || e.audio.value !in s.db.files then (s, Crashed)
      else
        var size := StoredSize(s.objects, AudioOf(s.db, e).path, w.probe);
        if e.status.Published? && size == AudioOf(s.db, e).size then (s, AlreadyStored)
        else if size != AudioOf(s.db, e).size then (s, SizeMismatch)
        else CopyFile(cfg, s, id, w)
  }

  function WorkUploaded(cfg: Settings, s: State, id: Id, w: UploadWorld): (State, Code)
    requires Distinct(w.feeds.scan)
  {
    var (r, exit) := PerformUploaded(cfg, s, id, w);
    Settle(s.db, Handle(r, id, exit), CodeOf(exit), w.signal, w.commit)
  }

  // -------- what it keeps

  lemma PublishUploadShape(db: Database, id: Id, p: FilePatch)
    requires Linked(db) && Agreed(db) && id in db.episodes && AudioOf(db, db.episodes[id]).sourceUrl == ""
    ensures SameShape(db, PublishUpload(db, id, p)) && Agreed(PublishUpload(db, id, p))
  {
    assert EpisodeLinked(db, db.episodes[id]);
    var mid := db.(episodes := db.episodes[id := Restamp(db.episodes[id], Published, Some(db.episodes[id].createdAt))]);
    var f := db.episodes[id].audio.value;
    assert SameShape(db, mid);
    SameFilesAgree(db, mid);
    ShapeKeepsLinked(db, mid);
    SetFileShape(mid, f, p);
    SetFileAgreed(mid, f, p);
    ShapeTransitive(db, mid, SetFile(mid, f, p));
  }

  lemma PublishUploadPlays(db: Database, id: Id, p: FilePatch)
    requires Playable(db) && id in db.episodes && p.available == Some(true)
    requires db.episodes[id].audio.Some? && db.episodes[id].audio.value in db.files
    ensures Playable(PublishUpload(db, id, p))
  {
  }

  ghost predicate OnlyPublished(a: Database, id: Id, b: Database)
    requires id in a.episodes && a.episodes[id].audio.Some?
  {
    && id in b.episodes && b.episodes - {id} == a.episodes - {id} && EpisodeShape(a.episodes[id], b.episodes[id])
    && b.episodes[id].status.Published? && b.episodes[id].publishedAt == Some(a.episodes[id].createdAt)
    && b.files - {a.episodes[id].audio.value} == a.files - {a.episodes[id].audio.value}
    && b.podcasts == a.podcasts && b.nextId == a.nextId
  }

  /** Publishing an upload publishes the driver alone, at its creation time, and changes no file but its audio row. If
      that row is made available, the driver can be played, and whatever was published still can. */
  lemma UploadPublished(db: Database, id: Id, p: FilePatch)
    requires id in db.episodes && db.episodes[id].audio.Some?
    ensures
      var r := PublishUpload(db, id, p);
      && OnlyPublished(db, id, r)
      && (p.available == Some(true) && db.episodes[id].audio.value in db.files ==>
            CanPlay(r, r.episodes[id]) && (Playable(db) ==> Playable(r)))
  {
    if p.available == Some(true) && db.episodes[id].audio.value in db.files && Playable(db) {
      PublishUploadPlays(db, id, p);
    }
  }

  lemma CopiedStateKeeps(cat: Catalogue, cfg: Settings, s: State, id: Id, w: UploadWorld)
    requires Sound(cat) && Structured(cat, s.db)
    requires id in s.db.episodes && s.db.episodes[id].sourceType.Upload?
    requires s.db.episodes[id].audio.Some? && AudioOf(s.db, s.db.episodes[id]).path in s.objects
    ensures Keeps(cat, s.db, CopiedState(cfg, s, id, w).db)
  {
    var e := s.db.episodes[id];
    assert EpisodeLinked(s.db, e) && EpisodeSourced(cat, s.db, e);
    var key := CopyTarget(cfg, e, AudioOf(s.db, e).path);
    var size := SizeByName(CopiedState(cfg, s, id, w).objects, cfg, Basename(key), w.measure);
    var patch := FilePatch(Some(key), Some(size), Some(true));
    PublishUploadShape(s.db, id, patch);
    if Playable(s.db) {
      PublishUploadPlays(s.db, id, patch);
    }
    KeepsFrom(cat, s.db, PublishUpload(s.db, id, patch));
  }

  lemma PublishCopyKeeps(cat: Catalogue, cfg: Settings, s: State, id: Id, w: UploadWorld)
    requires Sound(cat) && Structured(cat, s.db) && Distinct(w.feeds.scan)
    requires id in s.db.episodes && s.db.episodes[id].sourceType.Upload?
    requires s.db.episodes[id].audio.Some? && AudioOf(s.db, s.db.episodes[id]).path in s.objects
    ensures Keeps(cat, s.db, PublishCopy(cfg, s, id, w).0.db)
  {
    var t := CopiedState(cfg, s, id, w);
    var rows := Affected(t.db, s.db.episodes[id].sourceId, w.feeds);
    CopiedStateKeeps(cat, cfg, s, id, w);
    GenerateKeeps(cat, cfg, t, rows, w.feeds);
    KeepsOn(cat, s.db, t.db, Generate(cfg, t, rows, w.feeds).0.db);
  }

  lemma CopyFileKeeps(cat: Catalogue, cfg: Settings, s: State, id: Id, w: UploadWorld)
    requires Sound(cat) && Structured(cat, s.db) && Distinct(w.feeds.scan)
    requires id in s.db.episodes && s.db.episodes[id].sourceType.Upload? && s.db.episodes[id].audio.Some?
    ensures Keeps(cat, s.db, CopyFile(cfg, s, id, w).0.db)
  {
    if w.copy.Copied? && AudioOf(s.db, s.db.episodes[id]).path in s.objects {
      PublishCopyKeeps(cat, cfg, s, id, w);
    } else if w.copy.Copied? || w.copy.CopyRefused? {
      MarkKeeps(cat, s.db, id, Status.Error);
    } else {
      KeepsSelf(cat, s.db);
    }
  }

  lemma PerformUploadedKeeps(cat: Catalogue, cfg: Settings, s: State, id: Id, w: UploadWorld)
    requires Sound(cat) && Structured(cat, s.db) && Distinct(w.feeds.scan)
    requires id in s.db.episodes ==> s.db.episodes[id].sourceType.Upload?
    ensures Keeps(cat, s.db, PerformUploaded(cfg, s, id, w).0.db)
  {
    if NeedsCopy(s, id, w) {
      CopyFileKeeps(cat, cfg, s, id, w);
    } else {
      KeepsSelf(cat, s.db);
    }
  }

  /** A run for an uploaded episode keeps every transaction invariant, at each of its exits. */
  lemma WorkUploadedKeeps(cat: Catalogue, cfg: Settings, s: State, id: Id, w: UploadWorld)
    requires Sound(cat) && Structured(cat, s.db) && Distinct(w.feeds.scan)
    requires id in s.db.episodes ==> s.db.episodes[id].sourceType.Upload?
    ensures Keeps(cat, s.db, WorkUploaded(cfg, s, id, w).0.db)
  {
    var (r, exit) := PerformUploaded(cfg, s, id, w);
    PerformUploadedKeeps(cat, cfg, s, id, w);
    HandleKeeps(cat, r, id, exit);
    KeepsOn(cat, s.db, r.db, Handle(r, id, exit).db);
    KeepsSelf(cat, s.db);
  }

  // -------- what it does

  /** The driver is published, and its audio row alone records the copy. */
  ghost predicate RowsRecorded(db: Database, id: Id, key: string, size: nat, r: Database)
    requires id in db.episodes
  {
    var e := db.episodes[id];
    && e.audio.Some? && e.audio.value in db.files && e.audio.value in r.files
    && r.episodes == db.episodes[id := Restamp(e, Published, Some(e.createdAt))]
    && r.files[e.audio.value].path == key && r.files[e.audio.value].size == size && r.files[e.audio.value].available
    && (forall f :: f in db.files && f != e.audio.value && !db.files[f].kind.Rss? ==>
          f in r.files && r.files[f] == db.files[f])
  }

  /** The object is copied to its stable key, and the rows say so, with the size found there. */
  ghost predicate CopyRecorded(cfg: Settings, s: State, id: Id, w: UploadWorld, r: State)
    requires id in s.db.episodes
  {
    var path := AudioOf(s.db, s.db.episodes[id]).path;
    var key := CopyTarget(cfg, s.db.episodes[id], path);
    && path in s.objects && r.objects == s.objects[key := s.objects[path]]
    && RowsRecorded(s.db, id, key, SizeByName(r.objects, cfg, Basename(key), w.measure), r.db)
  }

  lemma PublishUploadRows(db: Database, id: Id, key: string, size: nat)
    requires Linked(db) && id in db.episodes && db.episodes[id].audio.Some?
    ensures
      var r := PublishUpload(db, id, FilePatch(Some(key), Some(size), Some(true)));
      && RowsRecorded(db, id, key, size, r) && SameShape(db, r) && Linked(r)
  {
    assert EpisodeLinked(db, db.episodes[id]);
    PublishUploadLinked(db, id, FilePatch(Some(key), Some(size), Some(true)));
  }

  lemma CopiedStateRecorded(cfg: Settings, s: State, id: Id, w: UploadWorld)
    requires Linked(s.db) && id in s.db.episodes && s.db.episodes[id].audio.Some?
    requires AudioOf(s.db, s.db.episodes[id]).path in s.objects
    ensures CopyRecorded(cfg, s, id, w, CopiedState(cfg, s, id, w))
    ensures SameShape(s.db, CopiedState(cfg, s, id, w).db) && Linked(CopiedState(cfg, s, id, w).db)
  {
    var key := CopyTarget(cfg, s.db.episodes[id], AudioOf(s.db, s.db.episodes[id]).path);
    var size := SizeByName(CopiedState(cfg, s, id, w).objects, cfg, Basename(key), w.measure);
    PublishUploadRows(s.db, id, key, size);
  }

  lemma PublishCopyEffect(cfg: Settings, s: State, id: Id, w: UploadWorld)
    requires Linked(s.db) && Distinct(w.feeds.scan) && id in s.db.episodes && s.db.episodes[id].audio.Some?
    requires AudioOf(s.db, s.db.episodes[id]).path in s.objects
    ensures CopyRecorded(cfg, s, id, w, PublishCopy(cfg, s, id, w).0)
  {
    var t := CopiedState(cfg, s, id, w);
    var rows := Affected(t.db, s.db.episodes[id].sourceId, w.feeds);
    CopiedStateRecorded(cfg, s, id, w);
    GenerateTouches(cfg, t, rows, w.feeds);
    var key := CopyTarget(cfg, s.db.episodes[id], AudioOf(s.db, s.db.episodes[id]).path);
    RecordedOn(s, id, key, SizeByName(t.objects, cfg, Basename(key), w.measure), t, Generate(cfg, t, rows, w.feeds).0);
  }

  lemma RecordedOn(s: State, id: Id, key: string, size: nat, t: State, r: State)
    requires Linked(s.db) && id in s.db.episodes && RowsRecorded(s.db, id, key, size, t.db) && OnlyFeedRows(t, r)
    requires SameShape(s.db, t.db)
    ensures RowsRecorded(s.db, id, key, size, r.db)
  {
    assert EpisodeLinked(s.db, s.db.episodes[id]);
    forall f | f in s.db.files && !s.db.files[f].kind.Rss? ensures f in r.db.files && r.db.files[f] == t.db.files[f] {
      assert FileShape(s.db.files[f], t.db.files[f]);
    }
  }

  lemma PublishUploadLinked(db: Database, id: Id, p: FilePatch)
    requires Linked(db) && id in db.episodes && db.episodes[id].audio.Some?
    ensures SameShape(db, PublishUpload(db, id, p)) && Linked(PublishUpload(db, id, p))
  {
    ShapeKeepsLinked(db, PublishUpload(db, id, p));
  }

  ghost predicate OthersStay(a: map<Id, Episode>, id: Id, b: map<Id, Episode>) {
    b.Keys == a.Keys && forall j :: j in a && j != id ==> b[j] == a[j]
  }

  ghost predicate UploadedAfter(cfg: Settings, s: State, id: Id, w: UploadWorld, exit: Exit, h: State)
    requires id in s.db.episodes
  {
    && !exit.NoAudioPath? && !exit.NoWatchUrl? && !exit.SourceFailed?
    && OthersStay(s.db.episodes, id, h.db.episodes)
    && (exit.Finished? ==> CopyRecorded(cfg, s, id, w, h))
    && (exit.UploadFailed? || exit.Crashed? ==> h.db.episodes[id].status == Status.Error)
    && (exit.Stopped? ==> h.db.episodes[id].status == New)
    && (exit.AlreadyStored? || exit.SizeMismatch? ==> h == s)
    && (!exit.Finished? && !exit.Crashed? ==> h.db.files == s.db.files && h.objects == s.objects)
  }

  lemma CopyFileEnds(cfg: Settings, s: State, id: Id, w: UploadWorld)
    requires Linked(s.db) && Distinct(w.feeds.scan) && id in s.db.episodes && s.db.episodes[id].audio.Some?
    ensures
      var (r, exit) := CopyFile(cfg, s, id, w);
      UploadedAfter(cfg, s, id, w, exit, Handle(r, id, exit))
  {
    if w.copy.Copied? && AudioOf(s.db, s.db.episodes[id]).path in s.objects {
      PublishCopyEnds(cfg, s, id, w);
    } else if w.copy.Copied? || w.copy.CopyRefused? {
      RefusedEnds(cfg, s, id, w);
    }
  }

  /** Publishing touches one episode row, whatever happens to the files. */
  lemma PublishedEpisodes(db: Database, id: Id, p: FilePatch)
    requires id in db.episodes && db.episodes[id].audio.Some?
    ensures
      var row := Restamp(db.episodes[id], Published, Some(db.episodes[id].createdAt));
      PublishUpload(db, id, p).episodes == db.episodes[id := row]
  {
  }

  lemma OneRowChanges(a: map<Id, Episode>, id: Id, e: Episode, b: map<Id, Episode>)
    requires id in a && b == a[id := e]
    ensures OthersStay(a, id, b)
  {
  }

  lemma CopiedEpisodes(cfg: Settings, s: State, id: Id, w: UploadWorld)
    requires id in s.db.episodes && s.db.episodes[id].audio.Some?
    requires AudioOf(s.db, s.db.episodes[id]).path in s.objects
    ensures
      var row := Restamp(s.db.episodes[id], Published, Some(s.db.episodes[id].createdAt));
      CopiedState(cfg, s, id, w).db.episodes == s.db.episodes[id := row]
  {
    var key := CopyTarget(cfg, s.db.episodes[id], AudioOf(s.db, s.db.episodes[id]).path);
    var size := SizeByName(CopiedState(cfg, s, id, w).objects, cfg, Basename(key), w.measure);
    PublishedEpisodes(s.db, id, FilePatch(Some(key), Some(size), Some(true)));
  }

  lemma PublishCopyRows(cfg: Settings, s: State, id: Id, w: UploadWorld)
    requires Distinct(w.feeds.scan) && id in s.db.episodes && s.db.episodes[id].audio.Some?
    requires AudioOf(s.db, s.db.episodes[id]).path in s.objects
    ensures
      var r := PublishCopy(cfg, s, id, w).0;
      r.db.episodes == s.db.episodes[id := Restamp(s.db.episodes[id], Published, Some(s.db.episodes[id].createdAt))]
  {
    var t := CopiedState(cfg, s, id, w);
    CopiedEpisodes(cfg, s, id, w);
    GenerateLeavesEpisodes(cfg, t, Affected(t.db, s.db.episodes[id].sourceId, w.feeds), w.feeds);
  }

  lemma PublishCopyEnds(cfg: Settings, s: State, id: Id, w: UploadWorld)
    requires Linked(s.db) && Distinct(w.feeds.scan) && id in s.db.episodes && s.db.episodes[id].audio.Some?
    requires AudioOf(s.db, s.db.episodes[id]).path in s.objects
    ensures
      var (r, exit) := PublishCopy(cfg, s, id, w);
      UploadedAfter(cfg, s, id, w, exit, Handle(r, id, exit))
  {
    var (r, exit) := PublishCopy(cfg, s, id, w);
    PublishCopyEffect(cfg, s, id, w);
    PublishCopyRows(cfg, s, id, w);
    if exit.Finished? {
      PublishedEnds(cfg, s, id, w, r);
    } else {
      CrashedEnds(cfg, s, id, w, r);
    }
  }

  lemma PublishedEnds(cfg: Settings, s: State, id: Id, w: UploadWorld, r: State)
    requires id in s.db.episodes && id in r.db.episodes && CopyRecorded(cfg, s, id, w, r)
    requires r.db.episodes == s.db.episodes[id := r.db.episodes[id]]
    ensures UploadedAfter(cfg, s, id, w, Finished, r)
  {
    OneRowChanges(s.db.episodes, id, r.db.episodes[id], r.db.episodes);
  }

  lemma CrashedEnds(cfg: Settings, s: State, id: Id, w: UploadWorld, r: State)
    requires id in s.db.episodes && id in r.db.episodes
    requires r.db.episodes == s.db.episodes[id := r.db.episodes[id]]
    ensures UploadedAfter(cfg, s, id, w, Crashed, Handle(r, id, Crashed))
  {
  }

  lemma RefusedEnds(cfg: Settings, s: State, id: Id, w: UploadWorld)
    requires id in s.db.episodes
    ensures UploadedAfter(cfg, s, id, w, UploadFailed, s.(db := SetStatus(s.db, id, Status.Error)))
  {
  }

  /** How a run for an uploaded episode ends: only the driver's row can change, to PUBLISHED with its
      creation time, to ERROR, or to NEW; only its own audio row is repointed, and only on success. */
  lemma UploadedRunOutcome(cfg: Settings, s: State, id: Id, w: UploadWorld)
    requires Linked(s.db) && Distinct(w.feeds.scan) && id in s.db.episodes
    ensures
      var (r, exit) := PerformUploaded(cfg, s, id, w);
      UploadedAfter(cfg, s, id, w, exit, Handle(r, id, exit))
  {
    if NeedsCopy(s, id, w) {
      CopyFileEnds(cfg, s, id, w);
    }
  }

  lemma CopyFileExit(cfg: Settings, s: State, id: Id, w: UploadWorld)
    requires Distinct(w.feeds.scan) && id in s.db.episodes && s.db.episodes[id].audio.Some?
    ensures
      var exit := CopyFile(cfg, s, id, w).1;
      var found := AudioOf(s.db, s.db.episodes[id]).path in s.objects;
      && (exit.Finished? <==> w.copy.Copied? && found && FeedsRender(s.db, s.db.episodes[id].sourceId, w.feeds))
      && (exit.UploadFailed? <==> w.copy.CopyRefused? || (w.copy.Copied? && !found))
      && !exit.AlreadyStored? && !exit.SizeMismatch?
  {
    if w.copy.Copied? && AudioOf(s.db, s.db.episodes[id]).path in s.objects {
      var t := CopiedState(cfg, s, id, w);
      var sourceId := s.db.episodes[id].sourceId;
      CopiedShape(cfg, s, id, w);
      AffectedKept(s.db, t.db, sourceId, w.feeds);
      GenerateSucceeds(cfg, t, Affected(t.db, sourceId, w.feeds), w.feeds);
    }
  }

  lemma CopiedShape(cfg: Settings, s: State, id: Id, w: UploadWorld)
    requires id in s.db.episodes && s.db.episodes[id].audio.Some?
    requires AudioOf(s.db, s.db.episodes[id]).path in s.objects
    ensures SameShape(s.db, CopiedState(cfg, s, id, w).db)
  {
    var key := CopyTarget(cfg, s.db.episodes[id], AudioOf(s.db, s.db.episodes[id]).path);
    var size := SizeByName(CopiedState(cfg, s, id, w).objects, cfg, Basename(key), w.measure);
    PublishShapes(s.db, id, FilePatch(Some(key), Some(size), Some(true)));
  }

  lemma PublishShapes(db: Database, id: Id, p: FilePatch)
    requires id in db.episodes && db.episodes[id].audio.Some?
    ensures SameShape(db, PublishUpload(db, id, p))
  {
  }

  /** Exactly which answers of the outside world end a run for an uploaded episode in each of the deciding
      ways: it never publishes a file whose stored size differs from the recorded one. */
  lemma UploadedExitCauses(cfg: Settings, s: State, id: Id, w: UploadWorld)
    requires Linked(s.db) && Distinct(w.feeds.scan) && id in s.db.episodes
    ensures
      var e := s.db.episodes[id];
      var exit := PerformUploaded(cfg, s, id, w).1;
      var sameSize := StoredSize(s.objects, AudioOf(s.db, e).path, w.probe) == AudioOf(s.db, e).size;
      var found := AudioOf(s.db, e).path in s.objects;
      && (exit.SizeMismatch? <==> !sameSize)
      && (exit.AlreadyStored? <==> sameSize && e.status.Published?)
      && (exit.UploadFailed? <==> NeedsCopy(s, id, w) && (w.copy.CopyRefused? || (w.copy.Copied? && !found)))
      && (exit.Finished? <==> NeedsCopy(s, id, w) && w.copy.Copied? && found && FeedsRender(s.db, e.sourceId, w.feeds))
      && (NeedsCopy(s, id, w) <==> sameSize && !e.status.Published?)
  {
    assert EpisodeLinked(s.db, s.db.episodes[id]);
    if NeedsCopy(s, id, w) {
      CopyFileExit(cfg, s, id, w);
    }
  }

  /** The other ways: the user stops the copy, or it raises or a feed does not render. */
  lemma OtherUploadedExits(cfg: Settings, s: State, id: Id, w: UploadWorld)
    requires Linked(s.db) && Distinct(w.feeds.scan) && id in s.db.episodes
    ensures
      var e := s.db.episodes[id];
      var exit := PerformUploaded(cfg, s, id, w).1;
      && (exit.Stopped? <==> NeedsCopy(s, id, w) && w.copy.CopyStopped?)
      && (exit.Crashed? <==>
            && NeedsCopy(s, id, w)
            && (w.copy.CopyRaised?
                || (w.copy.Copied? && AudioOf(s.db, e).path in s.objects && !FeedsRender(s.db, e.sourceId, w.feeds))))
  {
    assert EpisodeLinked(s.db, s.db.episodes[id]);
    if NeedsCopy(s, id, w) {
      CopyFileExit(cfg, s, id, w);
    }
  }

  /** The committed form: each result code with what it says about the driver. Every other episode is as before. */
  lemma CodeFixesUpload(cfg: Settings, s: State, id: Id, w: UploadWorld)
    requires Linked(s.db) && Distinct(w.feeds.scan) && id in s.db.episodes
    ensures
      var e := s.db.episodes[id];
      var (r, code) := WorkUploaded(cfg, s, id, w);
      var t := PerformUploaded(cfg, s, id, w).0;
      && OthersStay(s.db.episodes, id, r.db.episodes)
      && (code.SUCCESS? ==> CopyRecorded(cfg, s, id, w, r))
      && (code.SKIP? ==> r == s && e.status.Published?)
      && (code.CANCEL? ==> r.db.episodes[id].status == New && r.db.files == s.db.files)
      && (code.ERROR? ==> r.db.episodes == s.db.episodes || r.db.episodes[id].status == Status.Error)
      && (!(w.signal && w.commit) ==> code.ERROR? && r.db == s.db)
      && r.objects == t.objects && r.feeds == t.feeds
  {
    UploadedRunOutcome(cfg, s, id, w);
    UploadedExitCauses(cfg, s, id, w);
  }

  /** The stable name makes the copy settle: once published, copying again would write the same key. */
  lemma CopyTargetIsStable(cfg: Settings, e: Episode, path: string)
    requires HexDigest(cfg.md5) && Without('/', e.sourceId)
    requires cfg.audioPrefix != "" && cfg.audioPrefix[|cfg.audioPrefix| - 1] == '/' && !Contains(cfg.audioPrefix, "tmp")
    ensures CopyTarget(cfg, e, CopyTarget(cfg, e, path)) == CopyTarget(cfg, e, path)
  {
    AudioFilenameIsStable(cfg, e.sourceId, Some(path));
  }
}
