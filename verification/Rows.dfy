/** The rows of the publishing database, and the bulk `UPDATE` statements issued against them. */
module Rows {
  import opened Wrappers

  type Id = nat
  type Time = int

  datatype Status = New | Downloading | Canceling | Published | Archived | Error

  datatype SourceType = Youtube | Yandex | Upload

  datatype FileType = Audio | Image | Rss

  datatype File = File(
    kind: FileType,
    path: string,
    size: nat,
    sourceUrl: string,
    available: bool,
    owner: Id,
    hash: string)

  datatype Episode = Episode(
    sourceId: string,
    sourceType: SourceType,
    podcast: Id,
    audio: Option<Id>,
    image: Option<Id>,
    owner: Id,
    watchUrl: Option<string>,
    status: Status,
    createdAt: Time,
    publishedAt: Option<Time>)

  datatype Podcast = Podcast(owner: Id, publishId: string, rss: Id, downloadAutomatically: bool)

  /** All tables. `nextId` is above every primary key ever handed out, so ids are never reused. */
  datatype Database = Database(
    podcasts: map<Id, Podcast>,
    episodes: map<Id, Episode>,
    files: map<Id, File>,
    nextId: Id)

  const EMPTY_DATABASE := Database(map[], map[], map[], 1)

  const NO_FILE := File(Audio, "", 0, "", false, 0, "")

  /** The audio row an episode points at; `NO_FILE` stands for a missing one. */
  function AudioOf(db: Database, e: Episode): File {
    FileRow(db.files, e.audio)
  }

  function FileRow(files: map<Id, File>, id: Option<Id>): File {
    if id.Some? && id.value in files then files[id.value] else NO_FILE
  }

  predicate InProgress(status: Status) {
    status.Downloading? || status.Canceling?
  }

  /** The rows `_update_episodes` addresses: same source key, ARCHIVED excluded. */
  predicate InFamily(e: Episode, sourceId: string, sourceType: SourceType) {
    e.sourceId == sourceId && e.sourceType == sourceType && !e.status.Archived?
  }

  function Restamp(e: Episode, status: Status, published: Option<Time>): Episode {
    e.(status := status, publishedAt := if published.Some? then published else e.publishedAt)
  }

  function Moved(e: Episode, sourceId: string, sourceType: SourceType, status: Status,
                 published: Option<Time>): Episode {
    if InFamily(e, sourceId, sourceType) then Restamp(e, status, published) else e
  }

  /** Status bulk update; `published` is the new `published_at`, or None to leave that column alone. */
  function SetFamily(db: Database, sourceId: string, sourceType: SourceType,
                     status: Status, published: Option<Time>): Database
  {
    db.(episodes := map i | i in db.episodes :: Moved(db.episodes[i], sourceId, sourceType, status, published))
  }

  /** `update_by_ids([id], {"status": status})`: a missing id updates nothing. */
  function SetStatus(db: Database, id: Id, status: Status): Database {
    if id in db.episodes then db.(episodes := db.episodes[id := db.episodes[id].(status := status)]) else db
  }

  /** The columns a file update assigns; None leaves the column alone. */
  datatype FilePatch = FilePatch(path: Option<string>, size: Option<nat>, available: Option<bool>)

  function Patched(f: File, p: FilePatch): File {
    f.(path := p.path.GetOr(f.path), size := p.size.GetOr(f.size), available := p.available.GetOr(f.available))
  }

  /** File bulk update keyed by `source_url`. */
  function SetFiles(db: Database, url: string, p: FilePatch): Database {
    db.(files := map i | i in db.files ::
      if db.files[i].sourceUrl == url then Patched(db.files[i], p) else db.files[i])
  }

  /** Update of a single file row by id. */
  function SetFile(db: Database, id: Id, p: FilePatch): Database {
    if id in db.files then db.(files := db.files[id := Patched(db.files[id], p)]) else db
  }

  /** New rows get the next id. */
  function InsertFile(db: Database, f: File): Database {
    db.(files := db.files[db.nextId := f], nextId := db.nextId + 1)
  }

  function InsertEpisode(db: Database, e: Episode): Database {
    db.(episodes := db.episodes[db.nextId := e], nextId := db.nextId + 1)
  }
}
