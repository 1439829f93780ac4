/** What each way of ending a download run leaves behind: statuses, files, feeds, and a second run. */
module DownloadingOutcomes {
  import opened Wrappers
  import opened Rows
  import opened Queries
  import opened Naming
  import opened Consistency
  import opened Feeds
  import opened Downloading
  import opened DownloadingProofs

  // -------- statuses

  /** Moving a family to DOWNLOADING first does not show in the status it ends with. */
  lemma FamilyTwice(db: Database, sourceId: string, sourceType: SourceType, status: Status, published: Option<Time>)
    ensures SetFamily(SetFamily(db, sourceId, sourceType, Downloading, None), sourceId, sourceType, status, published)
            == SetFamily(db, sourceId, sourceType, status, published)
  {
  }

  /** The status, and the publication time if one is set, that an orderly end gives the family. */
  function Verdict(e: Episode, exit: Exit): (Status, Option<Time>) {
    match exit
    case Finished => (Published, Some(e.createdAt))
    case AlreadyStored => (Published, Some(e.createdAt))
    case SourceFailed => (Status.Error, None)
    case UploadFailed => (Status.Error, None)
    case _ => (Downloading, None)
  }

  function FamilyMoved(db: Database, e: Episode, verdict: (Status, Option<Time>)): map<Id, Episode> {
    SetFamily(db, e.sourceId, e.sourceType, verdict.0, verdict.1).episodes
  }

  /** The episode table when `perform_run` ends, before the handlers of `run`. */
  ghost predicate EpisodesAfter(db: Database, e: Episode, exit: Exit, r: map<Id, Episode>) {
    if exit.Crashed? then
      r == db.episodes || r == FamilyMoved(db, e, (Downloading, None)) || r == FamilyMoved(db, e, Verdict(e, Finished))
    else
      r == FamilyMoved(db, e, Verdict(e, exit))
  }

  lemma PublishEpisodes(cfg: Settings, s: State, e: Episode, size: nat, w: World, exit: Exit)
    requires Distinct(w.feeds.scan)
    ensures Publish(cfg, s, e, size, w, exit).0.db.episodes
            == SetFamily(s.db, e.sourceId, e.sourceType, Published, Some(e.createdAt)).episodes
  {
    var t := s.(db := PublishFamily(s.db, e, size));
    GenerateLeavesEpisodes(cfg, t, Affected(t.db, e.sourceId, w.feeds), w.feeds);
  }

  /** A file to upload exists: it was fetched, or it is an upload already stored, and was processed. */
  predicate HasFile(db: Database, e: Episode, w: World) {
    && (if e.sourceType.Upload? then AudioOf(db, e).path != "" else e.watchUrl.GetOr("") != "" && w.fetch.Fetched?)
    && (e.sourceType.Youtube? ==> w.process.Done?)
  }

  predicate FetchFails(e: Episode, w: World) {
    !e.sourceType.Upload? && e.watchUrl.GetOr("") != "" && w.fetch.Unfetchable?
  }

  lemma ObtainCauses(db: Database, e: Episode, w: World)
    ensures ObtainFile(db, e, w).None? <==> HasFile(db, e, w)
    ensures ObtainFile(db, e, w) == Some(SourceFailed) <==> FetchFails(e, w)
    ensures ObtainFile(db, e, w).Some? ==>
        ObtainFile(db, e, w).value in {NoAudioPath, NoWatchUrl, SourceFailed, Stopped, Crashed}
  {
  }

  /** The episode table a stage leaves, in terms of the one it was given. */
  ghost predicate EpisodesFrom(db: Database, e: Episode, exit: Exit, r: map<Id, Episode>) {
    match exit
    case Finished => r == FamilyMoved(db, e, (Published, Some(e.createdAt)))
    case SourceFailed => r == FamilyMoved(db, e, (Status.Error, None))
    case UploadFailed => r == FamilyMoved(db, e, (Status.Error, None))
    case Crashed => r == db.episodes || r == FamilyMoved(db, e, (Published, Some(e.createdAt)))
    case AlreadyStored => false
    case _ => r == db.episodes
  }

  lemma SendFileEpisodes(cfg: Settings, s: State, e: Episode, w: World)
    requires Distinct(w.feeds.scan)
    ensures
      var (r, exit) := SendFile(cfg, s, e, w);
      EpisodesFrom(s.db, e, exit, r.db.episodes)
  {
    if w.upload.Stored? {
      var t := Recorded(cfg, s, e, w.upload.size);
      var size := StoredSize(t.objects, StorageKey(cfg, e, AudioOf(s.db, e).path), w.measure);
      PublishEpisodes(cfg, t, e, size, w, Finished);
    }
  }

  lemma FetchFileEpisodes(cfg: Settings, s: State, e: Episode, w: World)
    requires Distinct(w.feeds.scan)
    ensures
      var (r, exit) := FetchFile(cfg, s, e, w);
      EpisodesFrom(s.db, e, exit, r.db.episodes)
  {
    ObtainCauses(s.db, e, w);
    if ObtainFile(s.db, e, w).None? {
      SendFileEpisodes(cfg, s, e, w);
    }
  }

  lemma ClaimedThen(db: Database, e: Episode, exit: Exit, r: map<Id, Episode>)
    requires EpisodesFrom(SetFamily(db, e.sourceId, e.sourceType, Downloading, None), e, exit, r)
    ensures EpisodesAfter(db, e, exit, r)
  {
    FamilyTwice(db, e.sourceId, e.sourceType, Published, Some(e.createdAt));
    FamilyTwice(db, e.sourceId, e.sourceType, Status.Error, None);
  }

  lemma ReloadEpisodes(cfg: Settings, s: State, e: Episode, w: World)
    requires Distinct(w.feeds.scan)
    ensures
      var (r, exit) := Reload(cfg, s, e, w);
      EpisodesAfter(s.db, e, exit, r.db.episodes)
  {
    var t := Claim(cfg, s, e, w);
    FetchFileEpisodes(cfg, t, e, w);
    var (r, exit) := FetchFile(cfg, t, e, w);
    ClaimedThen(s.db, e, exit, r.db.episodes);
  }

  lemma PerformEpisodes(cfg: Settings, s: State, id: Id, w: World)
    requires Distinct(w.feeds.scan) && id in s.db.episodes
    ensures
      var (r, exit) := Perform(cfg, s, id, w);
      EpisodesAfter(s.db, s.db.episodes[id], exit, r.db.episodes)
  {
    var e := s.db.episodes[id];
    if CanStart(s.db, id, w) {
      if IsStored(s, e, w) {
        PublishEpisodes(cfg, s, e, StoredSize(s.objects, AudioOf(s.db, e).path, w.probe), w, AlreadyStored);
      } else {
        ReloadEpisodes(cfg, s, e, w);
      }
    }
  }

  /** What happens to a non-archived row of the driver's source, the driver itself set aside. */
  ghost predicate MemberAfter(d: Episode, e: Episode, exit: Exit, r: Episode) {
    if exit.Crashed? then
      r == d || r == Restamp(d, Downloading, None) || r == Restamp(d, Published, Some(e.createdAt))
    else
      r == Restamp(d, Verdict(e, exit).0, Verdict(e, exit).1)
  }

  /** The statuses `run` leaves, given how it ended. */
  ghost predicate StatusesAfter(db: Database, id: Id, exit: Exit, r: map<Id, Episode>)
    requires id in db.episodes
  {
    var e := db.episodes[id];
    && r.Keys == db.episodes.Keys
    && (forall j :: j in db.episodes && j != id && !InFamily(db.episodes[j], e.sourceId, e.sourceType) ==>
          r[j] == db.episodes[j])
    && (forall j :: j in db.episodes && InFamily(db.episodes[j], e.sourceId, e.sourceType) ==>
          MemberAfter(db.episodes[j], e, exit, r[j]) || (j == id && (exit.Stopped? || exit.Crashed?)))
    && (exit.Stopped? ==> r[id].status == New)
    && (exit.Crashed? ==> r[id].status == Status.Error)
    && (e.status.Archived? && !exit.Stopped? && !exit.Crashed? ==> r[id] == e)
  }

  lemma FamilyMembers(db: Database, e: Episode, verdict: (Status, Option<Time>))
    ensures
      var r := FamilyMoved(db, e, verdict);
      && r.Keys == db.episodes.Keys
      && (forall j :: j in db.episodes && !InFamily(db.episodes[j], e.sourceId, e.sourceType) ==>
          r[j] == db.episodes[j])
      && (forall j :: j in db.episodes && InFamily(db.episodes[j], e.sourceId, e.sourceType) ==>
            r[j] == Restamp(db.episodes[j], verdict.0, verdict.1))
  {
  }

  lemma HandledOrderly(db: Database, id: Id, exit: Exit, r: State)
    requires id in db.episodes && !exit.Crashed? && EpisodesAfter(db, db.episodes[id], exit, r.db.episodes)
    ensures StatusesAfter(db, id, exit, Handle(r, id, exit).db.episodes)
  {
    FamilyMembers(db, db.episodes[id], Verdict(db.episodes[id], exit));
  }

  lemma CrashedAfterMove(db: Database, id: Id, r: State, verdict: (Status, Option<Time>))
    requires id in db.episodes
    requires verdict == (Downloading, None) || verdict == (Published, Some(db.episodes[id].createdAt))
    requires r.db.episodes == FamilyMoved(db, db.episodes[id], verdict)
    ensures StatusesAfter(db, id, Crashed, Handle(r, id, Crashed).db.episodes)
  {
    FamilyMembers(db, db.episodes[id], verdict);
  }

  lemma HandledCrash(db: Database, id: Id, r: State)
    requires id in db.episodes && EpisodesAfter(db, db.episodes[id], Crashed, r.db.episodes)
    ensures StatusesAfter(db, id, Crashed, Handle(r, id, Crashed).db.episodes)
  {
    var e := db.episodes[id];
    if r.db.episodes == FamilyMoved(db, e, (Downloading, None)) {
      CrashedAfterMove(db, id, r, (Downloading, None));
    } else if r.db.episodes == FamilyMoved(db, e, Verdict(e, Finished)) {
      CrashedAfterMove(db, id, r, Verdict(e, Finished));
    }
  }

  /** The way a run ends fixes the status of every episode. Non-archived members of the driver's source
      share the outcome; archived siblings and other sources are untouched on every exit; the driver is
      NEW after a cancellation and ERROR after an unexpected failure. */
  lemma RunFixesStatuses(cfg: Settings, s: State, id: Id, w: World)
    requires Distinct(w.feeds.scan) && id in s.db.episodes
    ensures
      var (r, exit) := Run(cfg, s, id, w);
      StatusesAfter(s.db, id, exit, r.db.episodes)
  {
    PerformEpisodes(cfg, s, id, w);
    var (r, exit) := Perform(cfg, s, id, w);
    if exit.Crashed? {
      HandledCrash(s.db, id, r);
    } else {
      HandledOrderly(s.db, id, exit, r);
    }
  }

  function Marked(episodes: map<Id, Episode>, id: Id, status: Status): map<Id, Episode>
    requires id in episodes
  {
    episodes[id := episodes[id].(status := status)]
  }

  /** The rows a committed ERROR can leave: the whole family ERROR or DOWNLOADING, or, after a crash, the driver ERROR
      beside siblings that are all unchanged, all DOWNLOADING or all PUBLISHED. */
  ghost predicate FailedAs(db: Database, id: Id, r: map<Id, Episode>)
    requires id in db.episodes
  {
    var e := db.episodes[id];
    || r == FamilyMoved(db, e, (Status.Error, None))
    || r == FamilyMoved(db, e, (Downloading, None))
    || r == Marked(db.episodes, id, Status.Error)
    || r == Marked(FamilyMoved(db, e, (Downloading, None)), id, Status.Error)
    || r == Marked(FamilyMoved(db, e, (Published, Some(e.createdAt))), id, Status.Error)
  }

  lemma CrashMarks(r: State, id: Id, episodes: map<Id, Episode>)
    requires id in episodes && r.db.episodes == episodes
    ensures Handle(r, id, Crashed).db.episodes == Marked(episodes, id, Status.Error)
  {
  }

  lemma CrashFailsAs(db: Database, id: Id, r: State)
    requires id in db.episodes && id in r.db.episodes && EpisodesAfter(db, db.episodes[id], Crashed, r.db.episodes)
    ensures FailedAs(db, id, Handle(r, id, Crashed).db.episodes)
  {
    CrashMarks(r, id, r.db.episodes);
  }

  lemma ErrorFailsAs(cfg: Settings, s: State, id: Id, w: World)
    requires Distinct(w.feeds.scan) && id in s.db.episodes && CodeOf(Run(cfg, s, id, w).1).ERROR?
    ensures FailedAs(s.db, id, Run(cfg, s, id, w).0.db.episodes)
  {
    PerformEpisodes(cfg, s, id, w);
    var (r, exit) := Perform(cfg, s, id, w);
    if exit.Crashed? {
      assert id in r.db.episodes;
      CrashFailsAs(s.db, id, r);
    } else {
      OrderlyFailsAs(s.db, id, exit, r.db.episodes);
    }
  }

  lemma OrderlyFailsAs(db: Database, id: Id, exit: Exit, r: map<Id, Episode>)
    requires id in db.episodes && EpisodesAfter(db, db.episodes[id], exit, r) && CodeOf(exit).ERROR? && !exit.Crashed?
    ensures FailedAs(db, id, r)
  {
  }

  lemma CancelMarks(cfg: Settings, s: State, id: Id, w: World)
    requires Distinct(w.feeds.scan) && id in s.db.episodes && Run(cfg, s, id, w).1.Stopped?
    ensures
      var moved := FamilyMoved(s.db, s.db.episodes[id], (Downloading, None));
      id in moved && Run(cfg, s, id, w).0.db.episodes == Marked(moved, id, New)
  {
    PerformEpisodes(cfg, s, id, w);
    FamilyMembers(s.db, s.db.episodes[id], (Downloading, None));
  }

  /** The committed form: each result code fixes the episode table. After SUCCESS or SKIP the family is PUBLISHED;
      after CANCEL the driver is NEW and its siblings are left DOWNLOADING; a rolled-back run leaves
      all rows as they were, and a committed ERROR fails the family as one. */
  lemma CodeFixesStatuses(cfg: Settings, s: State, id: Id, w: World)
    requires Distinct(w.feeds.scan) && id in s.db.episodes
    ensures
      var e := s.db.episodes[id];
      var (r, code) := Work(cfg, s, id, w);
      && r.db.episodes.Keys == s.db.episodes.Keys
      && (forall j :: j in s.db.episodes && j != id && !InFamily(s.db.episodes[j], e.sourceId, e.sourceType) ==>
            r.db.episodes[j] == s.db.episodes[j])
      && (code.SUCCESS? || code.SKIP? ==>
            forall j :: j in s.db.episodes && InFamily(s.db.episodes[j], e.sourceId, e.sourceType) ==>
              r.db.episodes[j] == Restamp(s.db.episodes[j], Published, Some(e.createdAt)))
      && (code.CANCEL? ==>
            && r.db.episodes[id].status == New
            && forall j :: j in s.db.episodes && j != id && InFamily(s.db.episodes[j], e.sourceId, e.sourceType) ==>
                 r.db.episodes[j] == Restamp(s.db.episodes[j], Downloading, None))
      && (code.ERROR? && w.signal && w.commit ==> FailedAs(s.db, id, r.db.episodes))
      && (!(w.signal && w.commit) ==> code.ERROR? && r.db == s.db)
  {
    RunFixesStatuses(cfg, s, id, w);
    if Run(cfg, s, id, w).1.Stopped? {
      CancelMarks(cfg, s, id, w);
    } else if CodeOf(Run(cfg, s, id, w).1).ERROR? {
      ErrorFailsAs(cfg, s, id, w);
    }
  }

  // -------- which outcome leads where

  ghost predicate FeedsRender(db: Database, sourceId: string, w: FeedWorld) {
    forall p :: p in Affected(db, sourceId, w) ==> p !in w.broken
  }

  /** The affected podcasts do not depend on statuses or files. */
  lemma AffectedKept(a: Database, b: Database, sourceId: string, w: FeedWorld)
    requires SameShape(a, b)
    ensures Affected(a, sourceId, w) == Affected(b, sourceId, w)
  {
    forall i | i in a.episodes
      ensures a.episodes[i].sourceId == b.episodes[i].sourceId && a.episodes[i].podcast == b.episodes[i].podcast
    {
      assert EpisodeShape(a.episodes[i], b.episodes[i]);
    }
    var x, y := Holders(a.episodes, sourceId), Holders(b.episodes, sourceId);
    forall p ensures p in x <==> p in y {
      if p in x {
        var i :| i in a.episodes && a.episodes[i].sourceId == sourceId && a.episodes[i].podcast == p;
        assert b.episodes[i].podcast in y;
      }
      if p in y {
        var i :| i in b.episodes && b.episodes[i].sourceId == sourceId && b.episodes[i].podcast == p;
        assert a.episodes[i].podcast in x;
      }
    }
    assert x == y;
  }

  lemma PublishExit(cfg: Settings, s: State, e: Episode, size: nat, w: World, exit: Exit)
    requires Distinct(w.feeds.scan)
    ensures Publish(cfg, s, e, size, w, exit).1 == if FeedsRender(s.db, e.sourceId, w.feeds) then exit else Crashed
  {
    var t := s.(db := PublishFamily(s.db, e, size));
    PublishShape(s.db, e, size);
    AffectedKept(s.db, t.db, e.sourceId, w.feeds);
    GenerateSucceeds(cfg, t, Affected(t.db, e.sourceId, w.feeds), w.feeds);
  }

  lemma PublishShape(db: Database, e: Episode, size: nat)
    ensures SameShape(db, PublishFamily(db, e, size))
  {
  }

  lemma SendFileExit(cfg: Settings, s: State, e: Episode, w: World)
    requires Distinct(w.feeds.scan)
    ensures
      var exit := SendFile(cfg, s, e, w).1;
      && (exit.UploadFailed? <==> w.upload.Refused?)
      && (exit.Finished? <==> w.upload.Stored? && FeedsRender(s.db, e.sourceId, w.feeds))
      && !exit.SourceFailed? && !exit.AlreadyStored?
  {
    if w.upload.Stored? {
      var key := StorageKey(cfg, e, AudioOf(s.db, e).path);
      var t := Recorded(cfg, s, e, w.upload.size);
      SetFilesShape(s.db, AudioOf(s.db, e).sourceUrl, FilePatch(Some(key), None, None));
      AffectedKept(s.db, t.db, e.sourceId, w.feeds);
      PublishExit(cfg, t, e, StoredSize(t.objects, key, w.measure), w, Finished);
    }
  }

  lemma FetchFileExit(cfg: Settings, s: State, e: Episode, w: World)
    requires Distinct(w.feeds.scan)
    ensures
      var exit := FetchFile(cfg, s, e, w).1;
      && (exit.SourceFailed? <==> FetchFails(e, w))
      && (exit.UploadFailed? <==> HasFile(s.db, e, w) && w.upload.Refused?)
      && (exit.Finished? <==> HasFile(s.db, e, w) && w.upload.Stored? && FeedsRender(s.db, e.sourceId, w.feeds))
      && !exit.AlreadyStored?
  {
    ObtainCauses(s.db, e, w);
    if HasFile(s.db, e, w) {
      SendFileExit(cfg, s, e, w);
    }
  }

  lemma ReloadExit(cfg: Settings, s: State, e: Episode, w: World)
    requires Distinct(w.feeds.scan)
    ensures
      var exit := Reload(cfg, s, e, w).1;
      && (exit.SourceFailed? <==> FetchFails(e, w))
      && (exit.UploadFailed? <==> HasFile(s.db, e, w) && w.upload.Refused?)
      && (exit.Finished? <==> HasFile(s.db, e, w) && w.upload.Stored? && FeedsRender(s.db, e.sourceId, w.feeds))
      && !exit.AlreadyStored?
  {
    var t := Claim(cfg, s, e, w);
    assert t.db.files == s.db.files;
    SetFamilyShape(s.db, e.sourceId, e.sourceType, Downloading, None);
    AffectedKept(s.db, t.db, e.sourceId, w.feeds);
    FetchFileExit(cfg, t, e, w);
  }

  /** Exactly which answers of the outside world end a run in each of the deciding ways. */
  lemma ExitCauses(cfg: Settings, s: State, id: Id, w: World)
    requires Distinct(w.feeds.scan) && CanStart(s.db, id, w)
    ensures
      var e := s.db.episodes[id];
      var exit := Run(cfg, s, id, w).1;
      var stored := IsStored(s, e, w);
      var rendered := FeedsRender(s.db, e.sourceId, w.feeds);
      && (exit.AlreadyStored? <==> stored && rendered)
      && (exit.SourceFailed? <==> !stored && FetchFails(e, w))
      && (exit.UploadFailed? <==> !stored && HasFile(s.db, e, w) && w.upload.Refused?)
      && (exit.Finished? <==> !stored && HasFile(s.db, e, w) && w.upload.Stored? && rendered)
  {
    var e := s.db.episodes[id];
    if IsStored(s, e, w) {
      PublishExit(cfg, s, e, StoredSize(s.objects, AudioOf(s.db, e).path, w.probe), w, AlreadyStored);
    } else {
      ReloadExit(cfg, s, e, w);
    }
  }

  /** A file is at hand before processing: an upload already stored, or a fetched one. */
  predicate HasRawFile(db: Database, e: Episode, w: World) {
    if e.sourceType.Upload? then AudioOf(db, e).path != "" else e.watchUrl.GetOr("") != "" && w.fetch.Fetched?
  }

  /** The user stops the run during the download, the processing, or the upload. */
  predicate UserStops(db: Database, e: Episode, w: World) {
    || (!e.sourceType.Upload? && e.watchUrl.GetOr("") != "" && w.fetch.FetchStopped?)
    || (HasRawFile(db, e, w) && e.sourceType.Youtube? && w.process.UserStopped?)
    || (HasFile(db, e, w) && w.upload.UploadStopped?)
  }

  lemma FetchFileRest(cfg: Settings, s: State, e: Episode, w: World)
    requires Distinct(w.feeds.scan)
    ensures
      var exit := FetchFile(cfg, s, e, w).1;
      && (exit.NoAudioPath? <==> e.sourceType.Upload? && AudioOf(s.db, e).path == "")
      && (exit.NoWatchUrl? <==> !e.sourceType.Upload? && e.watchUrl.GetOr("") == "")
      && (exit.Stopped? <==> UserStops(s.db, e, w)) && !exit.SizeMismatch?
  {
  }

  /** And the other ways: what is missing, that the user stopped it, or, in every remaining case, a crash. */
  lemma OtherExitCauses(cfg: Settings, s: State, id: Id, w: World)
    requires Distinct(w.feeds.scan) && CanStart(s.db, id, w)
    ensures
      var e := s.db.episodes[id];
      var exit := Run(cfg, s, id, w).1;
      var stored := IsStored(s, e, w);
      && (exit.NoAudioPath? <==> !stored && e.sourceType.Upload? && AudioOf(s.db, e).path == "")
      && (exit.NoWatchUrl? <==> !stored && !e.sourceType.Upload? && e.watchUrl.GetOr("") == "")
      && (exit.Stopped? <==> !stored && UserStops(s.db, e, w)) && !exit.SizeMismatch?
  {
    var e := s.db.episodes[id];
    if !IsStored(s, e, w) {
      var t := Claim(cfg, s, e, w);
      assert t.db.files == s.db.files;
      FetchFileRest(cfg, t, e, w);
    }
  }

  /** A file counts as stored exactly when the storage answers with the recorded size, and that is not zero. */
  lemma StoredMeans(s: State, e: Episode, w: World)
    ensures
      var f := AudioOf(s.db, e);
      IsStored(s, e, w) <==>
        f.path != "" && w.probe && f.path in s.objects && s.objects[f.path] == f.size && f.size != 0
  {
  }

  /** What a run has sent stays sent when its rows are rolled back. */
  lemma SentStays(cfg: Settings, s: State, id: Id, w: World)
    requires Distinct(w.feeds.scan)
    ensures
      var (r, t) := (Work(cfg, s, id, w).0, Run(cfg, s, id, w).0);
      && r.objects == t.objects && r.feeds == t.feeds && r.db == (if w.signal && w.commit then t.db else s.db)
  {
  }

  /** A run whose job cannot be saved, or whose episode or audio row is missing, crashes before it does anything. */
  lemma StartFails(cfg: Settings, s: State, id: Id, w: World)
    requires Distinct(w.feeds.scan)
    requires id in s.db.episodes && w.saveJob && s.db.episodes[id].audio.Some? ==>
               s.db.episodes[id].audio.value !in s.db.files
    ensures Run(cfg, s, id, w) == (s.(db := SetStatus(s.db, id, Status.Error)), Crashed)
  {
  }
}
