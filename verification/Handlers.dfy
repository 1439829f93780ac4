/** The request handlers, step by step, each in a unit of work of its own. */
module Handlers {
  import opened Wrappers
  import opened Rows
  import opened Queries
  import opened Consistency
  import opened Creation
  import opened Deletion
  import opened Requests
  import opened Transactions
  import opened Repositories

  /** What the client sees: done, refused with a reason, or a failure of the transaction itself. */
  datatype Reply<E> = Accepted | Rejected(error: E) | Broken

  /** The committed rows, given what the block came to and how the database reacted. */
  function Committed<E>(before: Database, r: Result<Database, E>, o: Reactions): Database {
    if r.Ok? && o.flush && o.commit then r.value else before
  }

  function ReplyTo<E>(r: Result<Database, E>, o: Reactions): Reply<E> {
    match r
    case Ok(_) => if o.flush && o.commit then Accepted else Broken
    case Err(e) => if o.flush && o.rollback then Rejected(e) else Broken
  }

  method LeaveWith<E>(uow: UnitOfWork, failure: Option<E>, o: Reactions) returns (r: Reply<E>)
    requires uow.ownsSession
    modifies uow, uow.session, uow.session.store`db
    ensures
      var outcome: Result<Database, E> := if failure.None? then Ok(old(uow.session.rows)) else Err(failure.value);
      uow.session.store.db == Committed(old(uow.session.store.db), outcome, o) && r == ReplyTo(outcome, o)
  {
    var raised := uow.Exit(failure.Some?, o);
    return if raised then Broken else if failure.Some? then Rejected(failure.value) else Accepted;
  }

  class EpisodeApi {
    const store: Store

    constructor (store: Store)
      ensures this.store == store
    {
      this.store := store;
    }

    predicate Owns(db: Database, user: Id, id: Id) {
      id in db.episodes && db.episodes[id].owner == user
    }

    method Download(user: Id, id: Id, o: Reactions) returns (r: Reply<RequestError>)
      modifies store`db
      ensures store.db == Committed(old(store.db), RequestDownload(old(store.db), user, id), o)
      ensures r == ReplyTo(RequestDownload(old(store.db), user, id), o)
      ensures r.Accepted? <==>
                && id in old(store.db.episodes) && old(store.db.episodes)[id].owner == user
                && !InProgress(old(store.db.episodes)[id].status) && o.flush && o.commit
      ensures r.Accepted? ==> OnlyStatus(old(store.db), id, Downloading, store.db)
      ensures !r.Accepted? ==> store.db == old(store.db)
    {
      var uow := new UnitOfWork.Standalone(store);
      uow.Enter();
      var failure: Option<RequestError> := None;
      if !Owns(uow.session.rows, user, id) {
        failure := Some(NotFoundError);
      } else if InProgress(uow.session.rows.episodes[id].status) {
        failure := Some(Conflict);
      } else {
        var repository := new EpisodeRepository(uow.session);
        repository.UpdateStatus(id, Downloading);
      }
      r := LeaveWith(uow, failure, o);
    }

    method CancelDownloading(user: Id, id: Id, o: Reactions) returns (r: Reply<RequestError>)
      modifies store`db
      ensures store.db == Committed(old(store.db), RequestCancel(old(store.db), user, id), o)
      ensures r == ReplyTo(RequestCancel(old(store.db), user, id), o)
      ensures r.Accepted? <==>
                && id in old(store.db.episodes) && old(store.db.episodes)[id].owner == user
                && old(store.db.episodes)[id].status == Downloading && o.flush && o.commit
      ensures r.Accepted? ==> OnlyStatus(old(store.db), id, Canceling, store.db)
      ensures !r.Accepted? ==> store.db == old(store.db)
    {
      var uow := new UnitOfWork.Standalone(store);
      uow.Enter();
      var failure: Option<RequestError> := None;
      if !Owns(uow.session.rows, user, id) {
        failure := Some(NotFoundError);
      } else if !uow.session.rows.episodes[id].status.Downloading? {
        failure := Some(Conflict);
      } else {
        var repository := new EpisodeRepository(uow.session);
        repository.UpdateStatus(id, Canceling);
      }
      r := LeaveWith(uow, failure, o);
    }

    method Delete(user: Id, id: Id, o: Reactions) returns (r: Reply<RequestError>)
      modifies store`db
      ensures store.db == Committed(old(store.db), RequestDelete(old(store.db), user, id), o)
      ensures r == ReplyTo(RequestDelete(old(store.db), user, id), o)
      ensures r.Accepted? <==>
                && id in old(store.db.episodes) && old(store.db.episodes)[id].owner == user
                && !InProgress(old(store.db.episodes)[id].status) && o.flush && o.commit
      ensures r.Accepted? ==> RemovedAtOnce(old(store.db), {id}, store.db)
      ensures !r.Accepted? ==> store.db == old(store.db)
    {
      if Owns(store.db, user, id) && !InProgress(store.db.episodes[id].status) {
        SafeDeleteRemoves(store.db, id);
      }
      var uow := new UnitOfWork.Standalone(store);
      uow.Enter();
      var failure: Option<RequestError> := None;
      if !Owns(uow.session.rows, user, id) {
        failure := Some(NotFoundError);
      } else {
        var repository := new EpisodeRepository(uow.session);
        var deleted := repository.SafeDelete(id);
        if deleted.Err? {
          failure := Some(Conflict);
        }
      }
      r := LeaveWith(uow, failure, o);
    }

    method Create(o: Order, reactions: Reactions) returns (r: Reply<RequestError>)
      requires Distinct(o.scan) && Linked(store.db)
      modifies store`db
      ensures store.db == Committed(old(store.db), RequestCreate(old(store.db), o), reactions)
      ensures r == ReplyTo(RequestCreate(old(store.db), o), reactions)
      ensures !r.Accepted? ==> store.db == old(store.db)
    {
      var uow := new UnitOfWork.Standalone(store);
      uow.Enter();
      var failure: Option<RequestError> := None;
      if o.podcast !in uow.session.rows.podcasts {
        failure := Some(NotFoundError);
      } else {
        var automatic := uow.session.rows.podcasts[o.podcast].downloadAutomatically;
        var creator := new EpisodeCreator(uow.session, o.user);
        var created := creator.Create(o);
        if created.Err? {
          failure := Some(Unprocessable);
        } else if automatic {
          var repository := new EpisodeRepository(uow.session);
          repository.UpdateStatus(created.value, Downloading);
        }
      }
      r := LeaveWith(uow, failure, reactions);
    }

    /** `create_uploaded`: audio row, cover row, episode row, each found or inserted. */
    method CreateUploaded(u: UploadOrder, o: Reactions) returns (r: Reply<RequestError>)
      modifies store`db
      ensures store.db == Committed(old(store.db), RequestUploaded(old(store.db), u), o)
      ensures r == ReplyTo(RequestUploaded(old(store.db), u), o)
      ensures !r.Accepted? ==> store.db == old(store.db)
    {
      var uow := new UnitOfWork.Standalone(store);
      uow.Enter();
      var session := uow.session;
      var files := new FileRepository(session);
      var failure: Option<RequestError> := None;
      if u.podcast !in session.rows.podcasts || session.rows.podcasts[u.podcast].owner != u.user {
        failure := Some(NotFoundError);
      } else if u.audioRow.None? && (u.path.GetOr("") == "" || u.size.None?) {
        failure := Some(NotFoundError);
      } else {
        var audio: Id;
        if u.audioRow.Some? {
          audio := u.audioRow.value;
        } else {
          audio := files.Create(File(Audio, u.path.GetOr(""), u.size.GetOr(0), "", false, u.user, u.hash));
        }
        if u.cover.Some? && u.imageRow.None? && u.cover.value.path.GetOr("") != "" {
          var cover := u.cover.value;
          var _ := files.Create(File(Image, cover.path.GetOr(""), cover.size, "", true, u.user, cover.hash.GetOr("")));
        }
        PlaceEpisode(session, u, audio);
      }
      r := LeaveWith(uow, failure, o);
    }

    method PlaceEpisode(session: DbSession, u: UploadOrder, audio: Id)
      modifies session`rows
      ensures session.rows == WithEpisode(old(session.rows), u, audio)
    {
      var rows := session.rows;
      if u.episodeRow.Some? && u.episodeRow.value in rows.episodes {
        var episode := rows.episodes[u.episodeRow.value].(audio := Some(audio));
        session.rows := rows.(episodes := rows.episodes[u.episodeRow.value := episode]);
      } else {
        var episode :=
          Episode(UploadId(u.hash), Upload, u.podcast, Some(audio), u.imageRow, u.user, Some(""), Downloading, u.now,
              None);
        session.rows := rows.(episodes := rows.episodes[rows.nextId := episode], nextId := rows.nextId + 1);
      }
    }
  }

  /** One turn of the loop over a podcast's episodes. */
  lemma DeleteStep(db: Database, episodes: seq<Id>, k: nat)
    requires k < |episodes| && Distinct(episodes[k..]) && forall i :: i in episodes[k..] ==> i in db.episodes
    ensures episodes[k] in db.episodes && Distinct(episodes[k + 1..])
    ensures
      match SafeDelete(db, episodes[k])
      case Err(e) => DeleteAll(db, episodes[k..]) == Err(e)
      case Ok(r) =>
        && (forall i :: i in episodes[k + 1..] ==> i in r.episodes)
        && DeleteAll(db, episodes[k..]) == DeleteAll(r, episodes[k + 1..])
  {
    var rest := episodes[k..];
    assert rest[0] == episodes[k] && rest[1..] == episodes[k + 1..] && rest == [episodes[k]] + rest[1..];
    assert episodes[k] in rest;
    DropFilesTouches(db.(episodes := db.episodes - {episodes[k]}), FileIds(db.episodes[episodes[k]]));
  }

  class PodcastApi {
    const store: Store

    constructor (store: Store)
      ensures this.store == store
    {
      this.store := store;
    }

    /** `delete`: every owned episode is deleted in turn, then the podcast; whatever raises undoes it all. */
    method Delete(user: Id, podcast: Id, scan: seq<Id>, o: Reactions) returns (r: Reply<DeleteError>)
      requires Distinct(scan)
      modifies store`db
      ensures store.db == Committed(old(store.db), DeletePodcast(old(store.db), user, podcast, scan), o)
      ensures r == ReplyTo(DeletePodcast(old(store.db), user, podcast, scan), o)
    {
      var uow := new UnitOfWork.Standalone(store);
      uow.Enter();
      var session := uow.session;
      var failure: Option<DeleteError> := None;
      if podcast !in session.rows.podcasts || session.rows.podcasts[podcast].owner != user {
        failure := Some(NotFound);
      } else {
        var episodes := OwnedEpisodes(session.rows, user, podcast, scan);
        failure := DeleteEach(session, episodes);
        if failure.None? {
          failure := DropRow(session, podcast);
        }
      }
      r := LeaveWith(uow, failure, o);
    }

    /** The loop of `delete`; it stops at the first episode in progress. */
    method DeleteEach(session: DbSession, episodes: seq<Id>) returns (failure: Option<DeleteError>)
      requires Distinct(episodes) && forall i :: i in episodes ==> i in session.rows.episodes
      modifies session`rows
      ensures failure.None? ==> DeleteAll(old(session.rows), episodes) == Ok(session.rows)
      ensures failure.Some? ==> DeleteAll(old(session.rows), episodes) == Err(failure.value)
    {
      var repository := new EpisodeRepository(session);
      var k := 0;
      while k < |episodes|
        invariant 0 <= k <= |episodes|
        invariant Distinct(episodes[k..]) && forall i :: i in episodes[k..] ==> i in session.rows.episodes
        invariant DeleteAll(session.rows, episodes[k..]) == DeleteAll(old(session.rows), episodes)
      {
        var episode := episodes[k];
        DeleteStep(session.rows, episodes, k);
        var deleted := repository.SafeDelete(episode);
        if deleted.Err? {
          return Some(deleted.error);
        }
        k := k + 1;
      }
      assert episodes[|episodes|..] == [];
      return None;
    }

    /** Deleting the podcast row: the foreign key of a remaining episode restricts it. */
    method DropRow(session: DbSession, podcast: Id) returns (failure: Option<DeleteError>)
      modifies session`rows
      ensures failure.None? ==> DropPodcast(old(session.rows), podcast) == Ok(session.rows)
      ensures failure.Some? ==> DropPodcast(old(session.rows), podcast) == Err(failure.value)
    {
      if Holds(session.rows.episodes, podcast) {
        return Some(IntegrityError);
      }
      session.rows := session.rows.(podcasts := session.rows.podcasts - {podcast});
      return None;
    }
  }
}
