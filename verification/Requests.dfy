/** The HTTP requests that start, cancel, delete and upload episodes. Each is one unit of work: an error
    leaves the rows alone. */
module Requests {
  import opened Wrappers
  import opened Rows
  import opened Queries
  import opened Consistency
  import opened Creation
  import opened Deletion

  datatype RequestError = NotFoundError | Conflict | Unprocessable

  function RequestDownload(db: Database, user: Id, id: Id): Result<Database, RequestError> {
    if id !in db.episodes || db.episodes[id].owner != user then Err(NotFoundError)
    else if InProgress(db.episodes[id].status) then Err(Conflict)
    else Ok(SetStatus(db, id, Downloading))
  }

  function RequestCancel(db: Database, user: Id, id: Id): Result<Database, RequestError> {
    if id !in db.episodes || db.episodes[id].owner != user then Err(NotFoundError)
    else if !db.episodes[id].status.Downloading? then Err(Conflict)
    else Ok(SetStatus(db, id, Canceling))
  }

  function RequestDelete(db: Database, user: Id, id: Id): Result<Database, RequestError> {
    if id !in db.episodes || db.episodes[id].owner != user then Err(NotFoundError)
    else match SafeDelete(db, id)
      case Err(_) => Err(Conflict)
      case Ok(r) => Ok(r)
  }

  function RequestCreate(db: Database, o: Order): Result<Database, RequestError>
    requires Distinct(o.scan)
  {
    if o.podcast !in db.podcasts then Err(NotFoundError)
    else match CreateEpisode(db, o)
      case Err(_) => Err(Unprocessable)
      case Ok((r, id)) =>
        if db.podcasts[o.podcast].downloadAutomatically then Ok(SetStatus(r, id, Downloading)) else Ok(r)
  }

  // -------- episodes from uploaded files

  datatype Cover = Cover(hash: Option<string>, path: Option<string>, size: nat)

  /** The request, the time, and the rows its three `first` queries answered with. */
  datatype UploadOrder = UploadOrder(
    podcast: Id,
    user: Id,
    hash: string,
    path: Option<string>,
    size: Option<nat>,
    cover: Option<Cover>,
    now: Time,
    audioRow: Option<Id>,
    imageRow: Option<Id>,
    episodeRow: Option<Id>)

  predicate IsUploadedAudio(f: File, hash: string) {
    f.kind == Audio && f.hash == hash
  }

  predicate IsCoverOf(f: File, cover: Option<Cover>, user: Id) {
    && cover.Some? && cover.value.hash.GetOr("") != ""
    && f.kind == Image && f.hash == cover.value.hash.GetOr("") && f.owner == user
  }

  predicate IsUploadedEpisode(e: Episode, u: UploadOrder) {
    e.sourceId == UploadId(u.hash) && e.sourceType == Upload && e.podcast == u.podcast && e.owner == u.user
  }

  /** The queries answered with a matching row, or with none because there is none. */
  ghost predicate Answered(db: Database, u: UploadOrder) {
    && u.hash != ""
    && (u.audioRow.Some? ==> u.audioRow.value in db.files && IsUploadedAudio(db.files[u.audioRow.value], u.hash))
    && (u.audioRow.None? ==> forall f :: f in db.files ==> !IsUploadedAudio(db.files[f], u.hash))
    && (u.imageRow.Some? ==> u.imageRow.value in db.files && IsCoverOf(db.files[u.imageRow.value], u.cover, u.user))
    && (u.imageRow.None? ==> forall f :: f in db.files ==> !IsCoverOf(db.files[f], u.cover, u.user))
    && (u.episodeRow.Some? ==>
        u.episodeRow.value in db.episodes && IsUploadedEpisode(db.episodes[u.episodeRow.value], u))
    && (u.episodeRow.None? ==> forall i :: i in db.episodes ==> !IsUploadedEpisode(db.episodes[i], u))
  }

  /** The audio row: the one found by hash, or a new one. */
  function WithAudio(db: Database, u: UploadOrder): (Database, Id) {
    if u.audioRow.Some? then (db, u.audioRow.value)
    else (InsertFile(db, File(Audio, u.path.GetOr(""), u.size.GetOr(0), "", false, u.user, u.hash)), db.nextId)
  }

  /** A cover that was not found by hash gets a row, but the id of that row is read before the flush that
      assigns it, so the episode does not point at it. */
  function WithCover(db: Database, u: UploadOrder): Database {
    if u.cover.Some? && u.imageRow.None? && u.cover.value.path.GetOr("") != "" then
      InsertFile(db, File(Image, u.cover.value.path.GetOr(""), u.cover.value.size, "", true, u.user,
                          u.cover.value.hash.GetOr("")))
    else db
  }

  /** The episode row: the one found gets its audio repointed, otherwise a new one is inserted. */
  function WithEpisode(db: Database, u: UploadOrder, audio: Id): Database {
    if u.episodeRow.Some? && u.episodeRow.value in db.episodes then
      db.(episodes := db.episodes[u.episodeRow.value := db.episodes[u.episodeRow.value].(audio := Some(audio))])
    else
      InsertEpisode(db, Episode(UploadId(u.hash), Upload, u.podcast, Some(audio), u.imageRow, u.user, Some(""),
                                Downloading, u.now, None))
  }

  function RequestUploaded(db: Database, u: UploadOrder): Result<Database, RequestError> {
    if u.podcast !in db.podcasts || db.podcasts[u.podcast].owner != u.user then Err(NotFoundError)
    else if u.audioRow.None? && (u.path.GetOr("") == "" || u.size.None?) then Err(NotFoundError)
    else
      var (a, audio) := WithAudio(db, u);
      Ok(WithEpisode(WithCover(a, u), u, audio))
  }

  /** Whether the audio row the request settles on is available; a new one never is. */
  predicate ChosenAvailable(db: Database, u: UploadOrder) {
    u.audioRow.Some? && u.audioRow.value in db.files && db.files[u.audioRow.value].available
  }

  /** The request repoints a PUBLISHED episode at an audio row that is not available. */
  predicate Strands(db: Database, u: UploadOrder) {
    && u.episodeRow.Some? && u.episodeRow.value in db.episodes && db.episodes[u.episodeRow.value].status.Published?
    && !ChosenAvailable(db, u)
  }

  // -------- what starting and cancelling mean

  /** Only this episode's status differs between the two. */
  ghost predicate OnlyStatus(a: Database, id: Id, status: Status, b: Database) {
    && b.podcasts == a.podcasts && b.files == a.files && b.nextId == a.nextId
    && id in a.episodes && id in b.episodes && b.episodes - {id} == a.episodes - {id}
    && b.episodes[id].status == status && EpisodeShape(a.episodes[id], b.episodes[id])
    && b.episodes[id].publishedAt == a.episodes[id].publishedAt
  }

  /** A start is accepted from the owner exactly while the episode is not in progress, and moves it to DOWNLOADING;
      everybody else is told there is none. */
  lemma StartMeans(db: Database, user: Id, id: Id)
    ensures
      var r := RequestDownload(db, user, id);
      var mine := id in db.episodes && db.episodes[id].owner == user;
      && (r.Ok? <==> mine && !db.episodes[id].status.Downloading? && !db.episodes[id].status.Canceling?)
      && (r.Ok? ==> OnlyStatus(db, id, Downloading, r.value))
      && (r.Err? ==> r.error == if mine then Conflict else NotFoundError)
  {
  }

  /** A cancellation is accepted from the owner exactly while the episode is DOWNLOADING, and moves it to CANCELING. */
  lemma CancelMeans(db: Database, user: Id, id: Id)
    ensures
      var r := RequestCancel(db, user, id);
      var mine := id in db.episodes && db.episodes[id].owner == user;
      && (r.Ok? <==> mine && db.episodes[id].status.Downloading?)
      && (r.Ok? ==> OnlyStatus(db, id, Canceling, r.value))
      && (r.Err? ==> r.error == if mine then Conflict else NotFoundError)
  {
  }

  /** Creation starts the download exactly when the podcast says so, and is otherwise what creation comes to. */
  lemma CreateMeans(db: Database, o: Order)
    requires Distinct(o.scan) && IdsBelow(db)
    ensures
      var r, c := RequestCreate(db, o), CreateEpisode(db, o);
      && (r == Err(NotFoundError) <==> o.podcast !in db.podcasts)
      && (r == Err(Unprocessable) <==> o.podcast in db.podcasts && c.Err?)
      && (r.Ok? ==> c.Ok? && c.value.1 in c.value.0.episodes)
      && (r.Ok? && !db.podcasts[o.podcast].downloadAutomatically ==> r.value == c.value.0)
      && (r.Ok? && db.podcasts[o.podcast].downloadAutomatically ==>
            OnlyStatus(c.value.0, c.value.1, Downloading, r.value))
  {
    var same := SameEpisodes(db, o);
    var found := FindIn(db.episodes, same, o.podcast);
    if found.Some? {
      assert found.value in same;
    }
  }
}
