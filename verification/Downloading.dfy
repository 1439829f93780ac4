/** The download worker as a function of the state and of what the outside world answers. */
module Downloading {
  import opened Wrappers
  import opened Rows
  import opened Queries
  import opened Naming
  import opened Consistency
  import opened Feeds

  datatype Code = SUCCESS | SKIP | ERROR | CANCEL

  /** How `perform_run` ends: normally, by one of its interruptions, by user cancellation, or by any
      other exception. */
  datatype Exit =
    | Finished
    | AlreadyStored
    | SizeMismatch
    | NoAudioPath
    | NoWatchUrl
    | SourceFailed
    | UploadFailed
    | Stopped
    | Crashed

  /** How one call to the outside ends. */
  datatype Call = Done | UserStopped | Raised

  /** `download_audio`: like a call, or a `YoutubeDLError`. */
  datatype Fetch = Fetched | Unfetchable | FetchStopped | FetchRaised

  /** `upload_episode`: the stored size, a refusal (None returned), or an exception. */
  datatype Upload = Stored(size: nat) | Refused | UploadStopped | UploadRaised

  datatype World = World(
    saveJob: bool,      // saving the job id does not raise
    probe: bool,        // the first size request reaches the storage
    remove: bool,       // deleting an unfinished object succeeds
    fetch: Fetch,
    process: Call,
    upload: Upload,
    measure: bool,      // the size request after the upload reaches the storage
    feeds: FeedWorld,
    signal: bool,       // publishing the progress signal does not raise
    commit: bool)       // the transaction commits

  predicate NeedsPostprocessing(t: SourceType) {
    t.Youtube?
  }

  /** `get_file_size`: 0 when there is no key, no object or no answer. */
  function StoredSize(objects: map<string, nat>, key: string, reachable: bool): nat {
    if key != "" && reachable && key in objects then objects[key] else 0
  }

  predicate IsStored(s: State, e: Episode, w: World) {
    var f := AudioOf(s.db, e);
    f.path != "" && StoredSize(s.objects, f.path, w.probe) != 0 && StoredSize(s.objects, f.path, w.probe) == f.size
  }

  /** `_update_episodes(PUBLISHED)` followed by `_update_files(size, available)`. */
  function PublishFamily(db: Database, e: Episode, size: nat): Database {
    SetFiles(SetFamily(db, e.sourceId, e.sourceType, Published, Some(e.createdAt)),
             AudioOf(db, e).sourceUrl, FilePatch(None, Some(size), Some(true)))
  }

  /** `_update_episodes(ERROR)` followed by `_update_files(unavailable)`. */
  function FailFamily(db: Database, e: Episode): Database {
    SetFiles(SetFamily(db, e.sourceId, e.sourceType, Status.Error, None),
             AudioOf(db, e).sourceUrl, FilePatch(None, None, Some(false)))
  }

  function Publish(cfg: Settings, s: State, e: Episode, size: nat, w: World, exit: Exit): (State, Exit)
    requires Distinct(w.feeds.scan)
  {
    var (r, ok) := RefreshFeeds(cfg, s.(db := PublishFamily(s.db, e, size)), e.sourceId, w.feeds);
    (r, if ok then exit else Crashed)
  }

  /** `_remove_unfinished`: the stored path is passed as a file name, so the key that goes is the audio
      prefix joined with it. */
  function RemoveUnfinished(cfg: Settings, s: State, e: Episode, w: World): State {
    var path := AudioOf(s.db, e).path;
    if path == "" || e.status.New? || e.status.Downloading? || !w.remove then s
    else s.(objects := s.objects - {Join(cfg.audioPrefix, path)})
  }

  /** The storage key of the episode's audio, named after the local file it is worked on in. */
  function StorageKey(cfg: Settings, e: Episode, path: string): string {
    Join(cfg.audioPrefix, Basename(if e.sourceType.Upload? then path else AudioFilename(cfg, e.sourceId, Some(path))))
  }

  /** The state in which an uploaded file's path has just been recorded. */
  function Recorded(cfg: Settings, s: State, e: Episode, size: nat): State {
    var key := StorageKey(cfg, e, AudioOf(s.db, e).path);
    s.(objects := s.objects[key := size],
       db := SetFiles(s.db, AudioOf(s.db, e).sourceUrl, FilePatch(Some(key), None, None)))
  }

  function SendFile(cfg: Settings, s: State, e: Episode, w: World): (State, Exit)
    requires Distinct(w.feeds.scan)
  {
    match w.upload
    case UploadStopped => (s, Stopped)
    case UploadRaised => (s, Crashed)
    case Refused => (s.(db := SetFamily(s.db, e.sourceId, e.sourceType, Status.Error, None)), UploadFailed)
    case Stored(size) =>
      var key := StorageKey(cfg, e, AudioOf(s.db, e).path);
      var t := Recorded(cfg, s, e, size);
      Publish(cfg, t, e, StoredSize(t.objects, key, w.measure), w, Finished)
  }

  /** `_process_file`: None when the file is ready to upload. */
  function ProcessFile(e: Episode, w: World): Option<Exit> {
    if !NeedsPostprocessing(e.sourceType) || w.process.Done? then None
    else if w.process.UserStopped? then Some(Stopped)
    else Some(Crashed)
  }

  /** `_download_episode` and `_process_file`: None when there is a file to upload, else how they end. */
  function ObtainFile(db: Database, e: Episode, w: World): Option<Exit> {
    if e.sourceType.Upload? then
      if AudioOf(db, e).path != "" then ProcessFile(e, w) else Some(NoAudioPath)
    else if e.watchUrl.GetOr("") == "" then Some(NoWatchUrl)
    else match w.fetch
      case Fetched => ProcessFile(e, w)
      case Unfetchable => Some(SourceFailed)
      case FetchStopped => Some(Stopped)
      case FetchRaised => Some(Crashed)
  }

  function WithoutFile(s: State, e: Episode, exit: Exit): State {
    if exit.SourceFailed? then s.(db := FailFamily(s.db, e)) else s
  }

  /** From `_download_episode` on; only a failed download touches the rows before the upload. */
  function FetchFile(cfg: Settings, s: State, e: Episode, w: World): (State, Exit)
    requires Distinct(w.feeds.scan)
  {
    match ObtainFile(s.db, e, w)
    case None => SendFile(cfg, s, e, w)
    case Some(exit) => (WithoutFile(s, e, exit), exit)
  }

  /** Removes the unfinished object and moves the family to DOWNLOADING. */
  function Claim(cfg: Settings, s: State, e: Episode, w: World): State {
    var t := RemoveUnfinished(cfg, s, e, w);
    t.(db := SetFamily(t.db, e.sourceId, e.sourceType, Downloading, None))
  }

  function Reload(cfg: Settings, s: State, e: Episode, w: World): (State, Exit)
    requires Distinct(w.feeds.scan)
  {
    FetchFile(cfg, Claim(cfg, s, e, w), e, w)
  }

  predicate CanStart(db: Database, id: Id, w: World) {
    id in db.episodes && w.saveJob && db.episodes[id].audio.Some? && db.episodes[id].audio.value in db.files
  }

  function Perform(cfg: Settings, s: State, id: Id, w: World): (State, Exit)
    requires Distinct(w.feeds.scan)
  {
    if !CanStart(s.db, id, w) then (s, Crashed)
    else
      var e := s.db.episodes[id];
      if IsStored(s, e, w) then
        Publish(cfg, s, e, StoredSize(s.objects, AudioOf(s.db, e).path, w.probe), w, AlreadyStored)
      else Reload(cfg, s, e, w)
  }

  function CodeOf(exit: Exit): Code {
    match exit
    case Finished => SUCCESS
    case AlreadyStored => SKIP
    case Stopped => CANCEL
    case _ => ERROR
  }

  /** The exception handlers of `run`. */
  function Handle(s: State, id: Id, exit: Exit): State {
    match exit
    case Stopped => s.(db := SetStatus(s.db, id, New))
    case Crashed => s.(db := SetStatus(s.db, id, Status.Error))
    case _ => s
  }

  function Run(cfg: Settings, s: State, id: Id, w: World): (State, Exit)
    requires Distinct(w.feeds.scan)
  {
    var (r, exit) := Perform(cfg, s, id, w);
    (Handle(r, id, exit), exit)
  }

  /** `_perform_and_run`: rows are committed whatever code the run returned, and rolled back when it
      raised; objects and feeds already sent stay. */
  function Settle(before: Database, r: State, code: Code, signal: bool, commit: bool): (State, Code) {
    if signal && commit then (r, code) else (r.(db := before), ERROR)
  }

  function Work(cfg: Settings, s: State, id: Id, w: World): (State, Code)
    requires Distinct(w.feeds.scan)
  {
    var (r, exit) := Run(cfg, s, id, w);
    Settle(s.db, r, CodeOf(exit), w.signal, w.commit)
  }
}
