/** `UploadedEpisodeTask`, step by step, and the transaction around both workers. */
module UploadTask {
  import opened Wrappers
  import opened Rows
  import opened Queries
  import opened Naming
  import opened Consistency
  import opened Feeds
  import opened Downloading
  import opened Uploading
  import opened Transactions
  import opened Repositories
  import opened DownloadTask

  lemma NoCopyExit(cfg: Settings, s: State, id: Id, w: UploadWorld)
    requires Distinct(w.feeds.scan) && id in s.db.episodes && s.db.episodes[id].audio.Some?
    requires !(w.copy.Copied? && AudioOf(s.db, s.db.episodes[id]).path in s.objects)
    ensures
      var exit := if w.copy.CopyStopped? then Stopped else if w.copy.CopyRaised? then Crashed else UploadFailed;
      CopyFile(cfg, s, id, w)
      == (if exit.UploadFailed? then s.(db := SetStatus(s.db, id, Status.Error)) else s, exit)
  {
  }

  lemma CopiedExit(cfg: Settings, s: State, id: Id, w: UploadWorld, key: string, t: State)
    requires Distinct(w.feeds.scan) && id in s.db.episodes && s.db.episodes[id].audio.Some? && w.copy.Copied?
    requires AudioOf(s.db, s.db.episodes[id]).path in s.objects
    requires key == CopyTarget(cfg, s.db.episodes[id], AudioOf(s.db, s.db.episodes[id]).path)
    requires t == s.(objects := s.objects[key := s.objects[AudioOf(s.db, s.db.episodes[id]).path]])
    ensures
      var size := SizeByName(t.objects, cfg, Basename(key), w.measure);
      var published := t.(db := PublishUpload(t.db, id, FilePatch(Some(key), Some(size), Some(true))));
      var (r, rendered) := RefreshFeeds(cfg, published, t.db.episodes[id].sourceId, w.feeds);
      CopyFile(cfg, s, id, w) == (r, if rendered then Finished else Crashed)
  {
    var size := SizeByName(t.objects, cfg, Basename(key), w.measure);
    assert CopiedState(cfg, s, id, w)
           == t.(db := PublishUpload(t.db, id, FilePatch(Some(key), Some(size), Some(true))));
  }

  lemma SourceStays(db: Database, id: Id, p: FilePatch)
    requires id in db.episodes && db.episodes[id].audio.Some?
    ensures PublishUpload(db, id, p).episodes.Keys == db.episodes.Keys
    ensures db.episodes[id].sourceId in SourceIds(PublishUpload(db, id, p).episodes)
  {
    PublishedEpisodes(db, id, p);
    var r := PublishUpload(db, id, p).episodes;
    assert r[id].sourceId in SourceIds(r);
  }

  class UploadedEpisodeTask {
    const cfg: Settings
    const session: DbSession
    const base: DownloadEpisodeTask

    constructor (cfg: Settings, session: DbSession)
      ensures this.cfg == cfg && this.session == session && Wired() && fresh(base) && fresh(base.episodes)
      ensures fresh(base.files)
    {
      this.cfg := cfg;
      this.session := session;
      this.base := new DownloadEpisodeTask(cfg, session);
    }

    ghost predicate Wired() {
      base.Wired() && base.session == session && base.cfg == cfg
    }

    /** `_copy_file` to the key chosen for the copy: that key, or how it ends. */
    method CopyObject(id: Id, dstPath: string, w: UploadWorld) returns (r: Result<string, Exit>)
      requires Wired() && id in session.rows.episodes && session.rows.episodes[id].audio.Some?
      modifies session`rows, session.store`objects
      ensures
        var was := old(session.View());
        var path := AudioOf(was.db, was.db.episodes[id]).path;
        match r
        case Ok(key) =>
          && w.copy.Copied? && path in was.objects && key == dstPath
          && session.View() == was.(objects := was.objects[key := was.objects[path]])
        case Err(exit) =>
          && !(w.copy.Copied? && path in was.objects)
          && exit == (if w.copy.CopyStopped? then Stopped else if w.copy.CopyRaised? then Crashed else UploadFailed)
          && session.View() == (if exit.UploadFailed? then was.(db := SetStatus(was.db, id, Status.Error)) else was)
    {
      var episode := session.rows.episodes[id];
      var path := AudioOf(session.rows, episode).path;
      match w.copy {
        case CopyStopped =>
          return Err(Stopped);
        case CopyRaised =>
          return Err(Crashed);
        case CopyRefused =>
          base.episodes.UpdateStatus(id, Status.Error);
          return Err(UploadFailed);
        case Copied =>
          if path !in session.store.objects {
            base.episodes.UpdateStatus(id, Status.Error);
            return Err(UploadFailed);
          }
          session.store.objects := session.store.objects[dstPath := session.store.objects[path]];
          return Ok(dstPath);
      }
    }

    /** `perform_run`. */
    method PerformRun(id: Id, w: UploadWorld) returns (exit: Exit)
      requires Wired() && Visits(w.feeds.scan, session.rows.episodes)
      modifies session`rows, session.store`objects, session.store`feeds
      ensures (session.View(), exit) == PerformUploaded(cfg, old(session.View()), id, w)
    {
      if id !in session.rows.episodes {
        return Crashed;
      }
      var episode := session.rows.episodes[id];
      if episode.audio.None? || episode.audio.value !in session.rows.files {
        return Crashed;
      }
      var audio := session.rows.files[episode.audio.value];
      var remoteSize := StoredSize(session.store.objects, audio.path, w.probe);
      if episode.status.Published? && remoteSize == audio.size {
        return AlreadyStored;
      }
      if remoteSize != audio.size {
        return SizeMismatch;
      }
      exit := CopyAndPublish(id, w);
    }

    method CopyAndPublish(id: Id, w: UploadWorld) returns (exit: Exit)
      requires Wired() && Visits(w.feeds.scan, session.rows.episodes)
      requires id in session.rows.episodes && session.rows.episodes[id].audio.Some?
      modifies session`rows, session.store`objects, session.store`feeds
      ensures (session.View(), exit) == CopyFile(cfg, old(session.View()), id, w)
    {
      var episode := session.rows.episodes[id];
      var key := CopyTarget(cfg, episode, AudioOf(session.rows, episode).path);
      var copied := CopyObject(id, key, w);
      if copied.Err? {
        NoCopyExit(cfg, old(session.View()), id, w);
        return copied.error;
      }
      CopiedExit(cfg, old(session.View()), id, w, key, session.View());
      var rendered := Announce(id, copied.value, w);
      return if rendered then Finished else Crashed;
    }

    /** What follows a successful copy. */
    method Announce(id: Id, remotePath: string, w: UploadWorld) returns (rendered: bool)
      requires Wired() && Visits(w.feeds.scan, session.rows.episodes)
      requires id in session.rows.episodes && session.rows.episodes[id].audio.Some?
      modifies session`rows, session.store`feeds
      ensures
        var was := old(session.View());
        var size := SizeByName(was.objects, cfg, Basename(remotePath), w.measure);
        var published := was.(db := PublishUpload(was.db, id, FilePatch(Some(remotePath), Some(size), Some(true))));
        (session.View(), rendered) == RefreshFeeds(cfg, published, was.db.episodes[id].sourceId, w.feeds)
    {
      var sourceId := session.rows.episodes[id].sourceId;
      var remoteSize := SizeByName(session.store.objects, cfg, Basename(remotePath), w.measure);
      var patch := FilePatch(Some(remotePath), Some(remoteSize), Some(true));
      SourceStays(session.rows, id, patch);
      Publish(id, patch);
      rendered := base.UpdateAllRss(sourceId, w.feeds);
    }

    /** The two row updates of a successful run; UploadPublished says what they amount to. */
    method Publish(id: Id, p: FilePatch)
      requires Wired() && id in session.rows.episodes && session.rows.episodes[id].audio.Some?
      modifies session`rows
      ensures session.rows == PublishUpload(old(session.rows), id, p)
    {
      var episode := session.rows.episodes[id];
      var row := episode.(status := Published, publishedAt := Some(episode.createdAt));
      session.rows := session.rows.(episodes := session.rows.episodes[id := row]);
      base.files.UpdateById(episode.audio.value, p);
    }

    /** `run`, inherited. */
    method Run(id: Id, w: UploadWorld) returns (code: Option<Code>)
      requires Wired() && Visits(w.feeds.scan, session.rows.episodes)
      modifies session`rows, session.store`objects, session.store`feeds
      ensures
        var (r, exit) := PerformUploaded(cfg, old(session.View()), id, w);
        session.View() == Handle(r, id, exit) && code == if w.signal then Some(CodeOf(exit)) else None
    {
      var exit := PerformRun(id, w);
      var result := base.HandleExit(id, exit);
      return if w.signal then Some(result) else None;
    }
  }

  /** `RQTask._perform_and_run`: commits whatever code the run returns, rolls back when it raises. `closing`
      is how the database reacts when the unit of work, already committed, is left. */
  class Worker {
    const cfg: Settings
    const store: Store

    constructor (cfg: Settings, store: Store)
      ensures this.cfg == cfg && this.store == store
    {
      this.cfg := cfg;
      this.store := store;
    }

    method WorkDownload(id: Id, w: World, closing: Reactions) returns (code: Code)
      requires Visits(w.feeds.scan, store.db.episodes)
      modifies store
      ensures store.Snapshot() == Work(cfg, old(store.Snapshot()), id, w).0
      ensures code == if closing.flush && closing.commit then Work(cfg, old(store.Snapshot()), id, w).1 else ERROR
    {
      var uow := new UnitOfWork.Standalone(store);
      uow.Enter();
      var task := new DownloadEpisodeTask(cfg, uow.session);
      var result := task.Run(id, w);
      code := Finish(uow, result, w.commit, closing);
    }

    method WorkUpload(id: Id, w: UploadWorld, closing: Reactions) returns (code: Code)
      requires Visits(w.feeds.scan, store.db.episodes)
      modifies store
      ensures store.Snapshot() == WorkUploaded(cfg, old(store.Snapshot()), id, w).0
      ensures code == if closing.flush && closing.commit then WorkUploaded(cfg, old(store.Snapshot()), id, w).1
          else ERROR
    {
      var uow := new UnitOfWork.Standalone(store);
      uow.Enter();
      var task := new UploadedEpisodeTask(cfg, uow.session);
      var result := task.Run(id, w);
      code := Finish(uow, result, w.commit, closing);
    }

    /** The end of the block: the explicit commit, and the way out. */
    method Finish(uow: UnitOfWork, result: Option<Code>, commits: bool, closing: Reactions) returns (code: Code)
      requires uow.ownsSession && uow.session.store == store
      modifies uow, uow.session, store`db
      ensures
        var committed := result.Some? && commits;
        && store.db == (if committed then old(uow.session.rows) else old(store.db))
        && code == (if committed && closing.flush && closing.commit then result.value else ERROR)
    {
      var failed := result.None? || !commits;
      if !failed {
        uow.session.Commit();
      }
      var raised := uow.Exit(failed, closing);
      if failed || raised {
        uow.session.Rollback();
        return ERROR;
      }
      return result.value;
    }
  }
}
