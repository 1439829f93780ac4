/** `DownloadEpisodeTask`, step by step, with its exceptions as results. */
module DownloadTask {
  import opened Wrappers
  import opened Rows
  import opened Queries
  import opened Naming
  import opened Consistency
  import opened Feeds
  import opened Downloading
  import opened DownloadingProofs
  import opened Transactions
  import opened Repositories
  import opened RssTask

  /** The episodes of the source move together, ARCHIVED ones excluded; the others stay. */
  ghost predicate MovesSource(a: map<Id, Episode>, sourceId: string, status: Status, published: Option<Time>,
                              b: map<Id, Episode>)
  {
    && b.Keys == a.Keys
    && (forall j :: j in a && a[j].sourceId == sourceId && !a[j].status.Archived? ==>
        b[j] == Restamp(a[j], status, published))
    && (forall j :: j in a && (a[j].sourceId != sourceId || a[j].status.Archived?) ==> b[j] == a[j])
  }

  /** The audio rows of the source's episodes are patched; those of other episodes stay. */
  ghost predicate PatchesSource(a: Database, sourceId: string, p: FilePatch, b: Database) {
    && b == a.(files := b.files)
    && forall j :: j in a.episodes ==>
         AudioOf(b, a.episodes[j])
         == if a.episodes[j].sourceId == sourceId then Patched(AudioOf(a, a.episodes[j]), p)
             else AudioOf(a, a.episodes[j])
  }

  lemma FamilyMovesSource(db: Database, e: Episode, status: Status, published: Option<Time>)
    requires KeysMeet(db, e)
    ensures MovesSource(db.episodes, e.sourceId, status, published,
                        SetFamily(db, e.sourceId, e.sourceType, status, published).episodes)
  {
  }

  lemma UrlPatchesSource(db: Database, e: Episode, p: FilePatch)
    requires KeysMeet(db, e)
    ensures PatchesSource(db, e.sourceId, p, SetFiles(db, AudioOf(db, e).sourceUrl, p))
  {
  }

  class DownloadEpisodeTask {
    const cfg: Settings
    const session: DbSession
    const episodes: EpisodeRepository
    const files: FileRepository
    var tmpAudioPath: string

    constructor (cfg: Settings, session: DbSession)
      ensures this.cfg == cfg && this.session == session && Wired()
      ensures fresh(episodes) && fresh(files)
    {
      this.cfg := cfg;
      this.session := session;
      this.episodes := new EpisodeRepository(session);
      this.files := new FileRepository(session);
      this.tmpAudioPath := "";
    }

    ghost predicate Wired() {
      episodes.session == session && files.session == session
    }

    /** `_update_episodes`. In a system whose keys meet, the rows it moves are all episodes of the source that are not
        ARCHIVED, whatever podcast holds them. */
    method UpdateEpisodes(e: Episode, status: Status, published: Option<Time>)
      requires Wired()
      modifies session`rows
      ensures session.rows == SetFamily(old(session.rows), e.sourceId, e.sourceType, status, published)
      ensures KeysMeet(old(session.rows), e) ==>
                MovesSource(old(session.rows.episodes), e.sourceId, status, published, session.rows.episodes)
    {
      if KeysMeet(session.rows, e) {
        FamilyMovesSource(session.rows, e, status, published);
      }
      episodes.UpdateFamily(e.sourceId, e.sourceType, status, published);
    }

    /** `_update_files`. In a system whose keys meet, the audio rows it patches are those of the source's episodes. */
    method UpdateFiles(e: Episode, p: FilePatch)
      requires Wired()
      modifies session`rows
      ensures session.rows == SetFiles(old(session.rows), AudioOf(old(session.rows), e).sourceUrl, p)
      ensures KeysMeet(old(session.rows), e) ==> PatchesSource(old(session.rows), e.sourceId, p, session.rows)
    {
      if KeysMeet(session.rows, e) {
        UrlPatchesSource(session.rows, e, p);
      }
      var sourceUrl := AudioOf(session.rows, e).sourceUrl;
      files.UpdateBySource(sourceUrl, p);
    }

    /** `_update_all_rss`: the ids are collected from the source's episodes; false when a rendering raised. */
    method UpdateAllRss(sourceId: string, w: FeedWorld) returns (rendered: bool)
      requires Visits(w.scan, session.rows.episodes) && sourceId in SourceIds(session.rows.episodes)
      modifies session`rows, session.store`feeds
      ensures (session.View(), rendered) == RefreshFeeds(cfg, old(session.View()), sourceId, w)
    {
      var affected := Select(session.rows.episodes, w.scan, (e: Episode) => e.sourceId == sourceId);
      var podcastIds := PodcastsOf(session.rows.episodes, affected);
      var task := new GenerateRssTask(cfg, session);
      AffectedPodcasts(session.rows.episodes, w.scan, sourceId, affected);
      assert task.Asked(podcastIds) == Holders(session.rows.episodes, sourceId);
      var code := task.Run(podcastIds, w);
      return code.Some?;
    }

    /** The end of a successful run, here and in `_check_is_needed`. */
    method PublishAll(e: Episode, size: nat, w: World) returns (rendered: bool)
      requires Wired() && Visits(w.feeds.scan, session.rows.episodes) && e.sourceId in SourceIds(session.rows.episodes)
      modifies session`rows, session.store`feeds
      ensures (session.View(), if rendered then Finished else Crashed)
          == Publish(cfg, old(session.View()), e, size, w, Finished)
    {
      UpdateEpisodes(e, Published, Some(e.createdAt));
      UpdateFiles(e, FilePatch(None, Some(size), Some(true)));
      SourcesStay(old(session.rows), e);
      rendered := UpdateAllRss(e.sourceId, w.feeds);
    }

    /** `_check_is_needed`. */
    method CheckIsNeeded(e: Episode, w: World) returns (exit: Option<Exit>)
      requires Wired() && Visits(w.feeds.scan, session.rows.episodes) && e.sourceId in SourceIds(session.rows.episodes)
      modifies session`rows, session.store`feeds
      ensures exit.Some? <==> IsStored(old(session.View()), e, w)
      ensures exit.None? ==> session.View() == old(session.View())
      ensures exit.Some? ==>
                (session.View(), exit.value)
                == Publish(cfg, old(session.View()), e, AudioOf(old(session.rows), e).size, w, AlreadyStored)
    {
      var audioPath := AudioOf(session.rows, e).path;
      if audioPath == "" {
        return None;
      }
      var storedFileSize := StoredSize(session.store.objects, audioPath, w.probe);
      if storedFileSize != 0 && storedFileSize == AudioOf(session.rows, e).size {
        var rendered := PublishAll(e, storedFileSize, w);
        return Some(if rendered then AlreadyStored else Crashed);
      }
      return None;
    }

    /** `_remove_unfinished`. No other object than the one under the joined key goes, and none at all for an episode
        that
        is NEW or DOWNLOADING; so the object stored under the recorded path stays, unless that path is absolute or there
        is no audio prefix. */
    method RemoveUnfinishedObject(e: Episode, w: World)
      modifies session.store`objects
      ensures session.View() == RemoveUnfinished(cfg, old(session.View()), e, w)
      ensures
        var path := AudioOf(session.rows, e).path;
        && session.store.objects - {Join(cfg.audioPrefix, path)}
            == old(session.store.objects) - {Join(cfg.audioPrefix, path)}
        && (path == "" || e.status.New? || e.status.Downloading? ==>
            session.store.objects == old(session.store.objects))
        && (path != "" && !e.status.New? && !e.status.Downloading? ==>
              (Join(cfg.audioPrefix, path) in session.store.objects
               <==> !w.remove && Join(cfg.audioPrefix, path) in old(session.store.objects)))
        && (cfg.audioPrefix != "" && path != "" && path[0] != '/' ==>
              (path in session.store.objects <==> path in old(session.store.objects)))
    {
      JoinIsName(cfg.audioPrefix, AudioOf(session.rows, e).path);
      var audioPath := AudioOf(session.rows, e).path;
      if audioPath == "" {
        return;
      }
      if !e.status.New? && !e.status.Downloading? {
        if w.remove {
          session.store.objects := session.store.objects - {Join(cfg.audioPrefix, audioPath)};
        }
      }
    }

    /** `_download_episode`: the local path, or how it ends. */
    method DownloadEpisode(e: Episode, w: World) returns (r: Result<string, Exit>)
      requires Wired()
      modifies session`rows
      ensures
        var was := old(session.View());
        match r
        case Ok(path) =>
          && session.View() == was && ObtainFile(was.db, e, w) == ProcessFile(e, w)
          && StorageKey(cfg, e, AudioOf(was.db, e).path) == Join(cfg.audioPrefix, Basename(path))
        case Err(exit) => ObtainFile(was.db, e, w) == Some(exit) && session.View() == WithoutFile(was, e, exit)
    {
      var existingPath := AudioOf(session.rows, e).path;
      if e.sourceType.Upload? {
        return if existingPath != "" then Ok(existingPath) else Err(NoAudioPath);
      }
      if e.watchUrl.GetOr("") == "" {
        return Err(NoWatchUrl);
      }
      match w.fetch {
        case Fetched =>
          return Ok(AudioFilename(cfg, e.sourceId, Some(existingPath)));
        case Unfetchable =>
          UpdateEpisodes(e, Status.Error, None);
          UpdateFiles(e, FilePatch(None, None, Some(false)));
          return Err(SourceFailed);
        case FetchStopped =>
          return Err(Stopped);
        case FetchRaised =>
          return Err(Crashed);
      }
    }

    /** `_process_file`. */
    method PostProcess(e: Episode, w: World) returns (exit: Option<Exit>)
      ensures exit == ProcessFile(e, w)
    {
      if NeedsPostprocessing(e.sourceType) {
        match w.process {
          case Done => return None;
          case UserStopped => return Some(Stopped);
          case Raised => return Some(Crashed);
        }
      }
      return None;
    }

    /** `_upload_file`: the size of what was stored, or how it ends. */
    method UploadFile(e: Episode, w: World) returns (r: Result<nat, Exit>)
      requires Wired()
      requires StorageKey(cfg, e, AudioOf(session.rows, e).path) == Join(cfg.audioPrefix, Basename(tmpAudioPath))
      modifies session`rows, session.store`objects
      ensures
        var was := old(session.View());
        match r
        case Ok(size) =>
          && w.upload.Stored? && session.View() == Recorded(cfg, was, e, w.upload.size)
          && size == StoredSize(session.store.objects, StorageKey(cfg, e, AudioOf(was.db, e).path), w.measure)
        case Err(exit) =>
          && !w.upload.Stored?
          && exit == (if w.upload.Refused? then UploadFailed else if w.upload.UploadStopped? then Stopped else Crashed)
          && session.View() == (if w.upload.Refused?
                                then was.(db := SetFamily(was.db, e.sourceId, e.sourceType, Status.Error, None))
                                else was)
    {
      match w.upload {
        case UploadStopped =>
          return Err(Stopped);
        case UploadRaised =>
          return Err(Crashed);
        case Refused =>
          UpdateEpisodes(e, Status.Error, None);
          return Err(UploadFailed);
        case Stored(size) =>
          var remotePath := Join(cfg.audioPrefix, Basename(tmpAudioPath));
          session.store.objects := session.store.objects[remotePath := size];
          UpdateFiles(e, FilePatch(Some(remotePath), None, None));
          return Ok(StoredSize(session.store.objects, remotePath, w.measure));
      }
    }

    /** The steps of `perform_run` from the download on. */
    method Fetch(e: Episode, w: World) returns (exit: Exit)
      requires Wired() && Visits(w.feeds.scan, session.rows.episodes) && e.sourceId in SourceIds(session.rows.episodes)
      modifies this`tmpAudioPath, session`rows, session.store`objects, session.store`feeds
      ensures (session.View(), exit) == FetchFile(cfg, old(session.View()), e, w)
    {
      var downloaded := DownloadEpisode(e, w);
      if downloaded.Err? {
        return downloaded.error;
      }
      tmpAudioPath := downloaded.value;
      var failed := PostProcess(e, w);
      if failed.Some? {
        return failed.value;
      }
      exit := Send(e, w);
    }

    /** From the upload on. */
    method Send(e: Episode, w: World) returns (exit: Exit)
      requires Wired() && Visits(w.feeds.scan, session.rows.episodes) && e.sourceId in SourceIds(session.rows.episodes)
      requires StorageKey(cfg, e, AudioOf(session.rows, e).path) == Join(cfg.audioPrefix, Basename(tmpAudioPath))
      modifies session`rows, session.store`objects, session.store`feeds
      ensures (session.View(), exit) == SendFile(cfg, old(session.View()), e, w)
    {
      var uploaded := UploadFile(e, w);
      if uploaded.Err? {
        return uploaded.error;
      }
      var rendered := PublishAll(e, uploaded.value, w);
      return if rendered then Finished else Crashed;
    }

    /** `perform_run`. */
    method PerformRun(id: Id, w: World) returns (exit: Exit)
      requires Wired() && Visits(w.feeds.scan, session.rows.episodes)
      modifies this`tmpAudioPath, session`rows, session.store`objects, session.store`feeds
      ensures (session.View(), exit) == Perform(cfg, old(session.View()), id, w)
    {
      if !CanStart(session.rows, id, w) {
        return Crashed;
      }
      var episode := session.rows.episodes[id];
      assert episode.sourceId in SourceIds(session.rows.episodes);
      var needless := CheckIsNeeded(episode, w);
      if needless.Some? {
        return needless.value;
      }
      exit := Claimed(episode, w);
    }

    /** The steps between the check and the download. */
    method Claimed(e: Episode, w: World) returns (exit: Exit)
      requires Wired() && Visits(w.feeds.scan, session.rows.episodes) && e.sourceId in SourceIds(session.rows.episodes)
      modifies this`tmpAudioPath, session`rows, session.store`objects, session.store`feeds
      ensures (session.View(), exit) == Reload(cfg, old(session.View()), e, w)
    {
      RemoveUnfinishedObject(e, w);
      UpdateEpisodes(e, Downloading, None);
      SourcesMoved(old(session.rows.episodes), session.rows.episodes);
      exit := Fetch(e, w);
    }

    /** `run`; None when publishing the signal raises. */
    method Run(id: Id, w: World) returns (code: Option<Code>)
      requires Wired() && Visits(w.feeds.scan, session.rows.episodes)
      modifies this`tmpAudioPath, session`rows, session.store`objects, session.store`feeds
      ensures session.View() == Downloading.Run(cfg, old(session.View()), id, w).0
      ensures code == if w.signal then Some(CodeOf(Downloading.Run(cfg, old(session.View()), id, w).1)) else None
    {
      var exit := PerformRun(id, w);
      var result := HandleExit(id, exit);
      return if w.signal then Some(result) else None;
    }

    /** The exception handlers of `run`: every way of ending becomes a code. Only the driver's status can change, and
        only
        when the run was stopped or crashed; what was PUBLISHED beside it stays playable. */
    method HandleExit(id: Id, exit: Exit) returns (code: Code)
      requires Wired()
      modifies session`rows
      ensures session.View() == Handle(old(session.View()), id, exit) && code == CodeOf(exit)
      ensures SameShape(old(session.rows), session.rows) && session.rows.files == old(session.rows.files)
      ensures session.rows.episodes - {id} == old(session.rows.episodes) - {id}
      ensures !exit.Stopped? && !exit.Crashed? ==> session.rows == old(session.rows)
      ensures id in session.rows.episodes && exit.Stopped? ==> session.rows.episodes[id].status == New && code == CANCEL
      ensures id in session.rows.episodes && exit.Crashed? ==>
                session.rows.episodes[id].status == Status.Error && code == ERROR
      ensures Playable(old(session.rows)) ==> Playable(session.rows)
    {
      match exit {
        case Finished =>
          code := SUCCESS;
        case AlreadyStored =>
          code := SKIP;
        case Stopped =>
          code := CANCEL;
          episodes.UpdateStatus(id, New);
        case Crashed =>
          episodes.UpdateStatus(id, Status.Error);
          code := ERROR;
        case _ =>
          code := ERROR;
      }
    }
  }

  // -------- the queries behind `_update_all_rss`

  ghost function SourceIds(episodes: map<Id, Episode>): set<string> {
    set i | i in episodes :: episodes[i].sourceId
  }

  function PodcastsOf(episodes: map<Id, Episode>, ids: seq<Id>): seq<Id>
    requires forall i :: i in ids ==> i in episodes
  {
    seq(|ids|, k requires 0 <= k < |ids| => episodes[ids[k]].podcast)
  }

  lemma AffectedPodcasts(episodes: map<Id, Episode>, scan: seq<Id>, sourceId: string, affected: seq<Id>)
    requires Visits(scan, episodes) && sourceId in SourceIds(episodes)
    requires Lists(episodes, scan, (e: Episode) => e.sourceId == sourceId, affected)
    ensures PodcastsOf(episodes, affected) != []
    ensures (set p | p in PodcastsOf(episodes, affected)) == Holders(episodes, sourceId)
  {
    var podcasts := PodcastsOf(episodes, affected);
    forall p | p in Holders(episodes, sourceId) ensures p in podcasts {
      var i :| i in episodes && episodes[i].sourceId == sourceId && episodes[i].podcast == p;
      assert i in affected;
      var k :| 0 <= k < |affected| && affected[k] == i;
      assert podcasts[k] == p;
    }
    forall p | p in podcasts ensures p in Holders(episodes, sourceId) {
      var k :| 0 <= k < |podcasts| && podcasts[k] == p;
      assert affected[k] in affected;
    }
    var i :| i in episodes && episodes[i].sourceId == sourceId;
    assert i in affected;
  }

  lemma SourcesMoved(a: map<Id, Episode>, b: map<Id, Episode>)
    requires a.Keys == b.Keys && forall i :: i in a ==> b[i].sourceId == a[i].sourceId
    ensures SourceIds(a) == SourceIds(b)
  {
  }

  lemma SourcesStay(db: Database, e: Episode)
    ensures
      var r := SetFamily(db, e.sourceId, e.sourceType, Published, Some(e.createdAt));
      SourceIds(r.episodes) == SourceIds(db.episodes) && r.episodes.Keys == db.episodes.Keys
  {
    SourcesMoved(db.episodes, SetFamily(db, e.sourceId, e.sourceType, Published, Some(e.createdAt)).episodes);
  }
}
