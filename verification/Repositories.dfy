/** The repositories: statements issued against the rows of a session. */
module Repositories {
  import opened Wrappers
  import opened Rows
  import opened Queries
  import opened Consistency
  import opened DownloadingProofs
  import opened Transactions
  import opened Deletion
  import opened Creation
  import opened Requests
  import opened RequestProofs

  /** What a bulk update by source key does to one row. */
  ghost predicate FamilyRow(d: Episode, sourceId: string, sourceType: SourceType, status: Status,
                            published: Option<Time>,
                            e: Episode)
  {
    if InFamily(d, sourceId, sourceType) then
      && e.status == status && (if published.Some? then e.publishedAt == published else e.publishedAt == d.publishedAt)
      && EpisodeShape(d, e)
    else
      e == d
  }

  lemma FamilyUpdated(db: Database, sourceId: string, sourceType: SourceType, status: Status, published: Option<Time>)
    ensures
      var r := SetFamily(db, sourceId, sourceType, status, published);
      forall i :: i in db.episodes ==> FamilyRow(db.episodes[i], sourceId, sourceType, status, published, r.episodes[i])
  {
  }

  class EpisodeRepository {
    const session: DbSession

    constructor (session: DbSession)
      ensures this.session == session
    {
      this.session := session;
    }

    /** The filters of a worker: source key, ARCHIVED excluded. The rows they address get the status, and the
        publication time if one is given; every other row stays. */
    method UpdateFamily(sourceId: string, sourceType: SourceType, status: Status, published: Option<Time>)
      modifies session`rows
      ensures session.rows == SetFamily(old(session.rows), sourceId, sourceType, status, published)
      ensures session.rows == old(session.rows).(episodes := session.rows.episodes)
      ensures session.rows.episodes.Keys == old(session.rows.episodes).Keys
      ensures forall i :: i in session.rows.episodes ==>
                FamilyRow(old(session.rows.episodes)[i], sourceId, sourceType, status, published,
                    session.rows.episodes[i])
      ensures !status.Published? && published.None? && Playable(old(session.rows)) ==> Playable(session.rows)
    {
      FamilyUpdated(session.rows, sourceId, sourceType, status, published);
      if !status.Published? && published.None? && Playable(session.rows) {
        DemotePlays(session.rows, sourceId, sourceType, status);
      }
      session.rows := SetFamily(session.rows, sourceId, sourceType, status, published);
    }

    /** Only this row, and only its status; a missing row is no error. */
    method UpdateStatus(id: Id, status: Status)
      modifies session`rows
      ensures session.rows == SetStatus(old(session.rows), id, status)
      ensures id in session.rows.episodes ==> session.rows.episodes[id].status == status
      ensures session.rows == old(session.rows).(episodes := session.rows.episodes)
      ensures session.rows.episodes - {id} == old(session.rows.episodes) - {id}
      ensures SameShape(old(session.rows), session.rows)
      ensures !status.Published? && Playable(old(session.rows)) ==> Playable(session.rows)
    {
      SetStatusShape(session.rows, id, status);
      if !status.Published? && Playable(session.rows) {
        MarkPlays(session.rows, id, status);
      }
      if id in session.rows.episodes {
        var row := session.rows.episodes[id].(status := status);
        session.rows := session.rows.(episodes := session.rows.episodes[id := row]);
      }
    }

    /** `safe_delete`: the episode goes first, then each of its files that nobody uses. */
    method SafeDelete(id: Id) returns (r: Result<(), DeleteError>)
      requires id in session.rows.episodes
      modifies session`rows
      ensures r.Ok? <==> Deletion.SafeDelete(old(session.rows), id).Ok?
      ensures session.rows == if r.Ok? then Deletion.SafeDelete(old(session.rows), id).value else old(session.rows)
      ensures r.Err? ==> Err(r.error) == Deletion.SafeDelete(old(session.rows), id)
    {
      var episode := session.rows.episodes[id];
      if InProgress(episode.status) {
        return Err(InProgressError);
      }
      var fileIds := FileIds(episode);
      session.rows := session.rows.(episodes := session.rows.episodes - {id});
      ghost var begun := session.rows;
      var k := 0;
      while k < |fileIds|
        invariant 0 <= k <= |fileIds|
        invariant DropFiles(session.rows, fileIds[k..]) == DropFiles(begun, fileIds)
      {
        var fileId := fileIds[k];
        assert fileIds[k..] == [fileId] + fileIds[k + 1..];
        k := k + 1;
        if IsUsed(session.rows.episodes, fileId) {
          continue;
        }
        if fileId !in session.rows.files {
          continue;
        }
        if session.rows.files[fileId].path == "" {
          continue;
        }
        session.rows := session.rows.(files := session.rows.files - {fileId});
      }
      assert fileIds[|fileIds|..] == [];
      return Ok(());
    }
  }

  lemma InsertedAlone(db: Database, f: File)
    requires Linked(db)
    ensures Linked(InsertFile(db, f)) && db.nextId !in db.files
    ensures forall i :: i in db.episodes ==>
        db.episodes[i].audio != Some(db.nextId) && db.episodes[i].image != Some(db.nextId)
  {
    InsertFileLinked(db, f);
    forall i | i in db.episodes
      ensures db.episodes[i].audio != Some(db.nextId) && db.episodes[i].image != Some(db.nextId)
    {
      assert EpisodeLinked(db, db.episodes[i]);
    }
  }

  class FileRepository {
    const session: DbSession

    constructor (session: DbSession)
      ensures this.session == session
    {
      this.session := session;
    }

    /** The rows with this source URL are patched alike, so that they go on agreeing with each other. */
    method UpdateBySource(url: string, p: FilePatch)
      modifies session`rows
      ensures session.rows == SetFiles(old(session.rows), url, p)
      ensures session.rows == old(session.rows).(files := session.rows.files)
      ensures SameShape(old(session.rows), session.rows)
      ensures forall f :: f in old(session.rows.files) && old(session.rows.files)[f].sourceUrl != url ==>
                session.rows.files[f] == old(session.rows.files)[f]
      ensures forall f :: f in session.rows.files && session.rows.files[f].sourceUrl == url ==>
                && (p.path.Some? ==> session.rows.files[f].path == p.path.value)
                && (p.size.Some? ==> session.rows.files[f].size == p.size.value)
                && (p.available.Some? ==> session.rows.files[f].available == p.available.value)
      ensures Agreed(old(session.rows)) ==> Agreed(session.rows)
    {
      SetFilesShape(session.rows, url, p);
      if Agreed(session.rows) {
        SetFilesAgreed(session.rows, url, p);
      }
      session.rows := SetFiles(session.rows, url, p);
    }

    /** Only this row, and only the columns named. Rows go on agreeing when it carries no source URL. */
    method UpdateById(id: Id, p: FilePatch)
      modifies session`rows
      ensures session.rows == SetFile(old(session.rows), id, p)
      ensures session.rows == old(session.rows).(files := session.rows.files)
      ensures SameShape(old(session.rows), session.rows)
      ensures session.rows.files - {id} == old(session.rows.files) - {id}
      ensures id in session.rows.files ==>
                && (p.path.Some? ==> session.rows.files[id].path == p.path.value)
                && (p.size.Some? ==> session.rows.files[id].size == p.size.value)
                && (p.available.Some? ==> session.rows.files[id].available == p.available.value)
      ensures Linked(old(session.rows)) && Agreed(old(session.rows)) && id in old(session.rows.files)
              && (old(session.rows.files)[id].kind.Audio? ==> old(session.rows.files)[id].sourceUrl == "") ==>
                Agreed(session.rows)
    {
      SetFileShape(session.rows, id, p);
      if Linked(session.rows) && Agreed(session.rows) && id in session.rows.files
         && (session.rows.files[id].kind.Audio? ==> session.rows.files[id].sourceUrl == "")
      {
        SetFileAgreed(session.rows, id, p);
      }
      if id in session.rows.files {
        session.rows := session.rows.(files := session.rows.files[id := Patched(session.rows.files[id], p)]);
      }
    }

    /** The id is one no row has had, so that nothing else changes and nothing else points at the new row. */
    method Create(f: File) returns (id: Id)
      modifies session`rows
      ensures session.rows == InsertFile(old(session.rows), f) && id == old(session.rows.nextId)
      ensures Linked(old(session.rows)) ==>
                && id !in old(session.rows.files) && Linked(session.rows)
                && (forall g :: g in old(session.rows.files) ==> session.rows.files[g] == old(session.rows.files)[g])
                && (forall i :: i in session.rows.episodes ==>
                      session.rows.episodes[i].audio != Some(id) && session.rows.episodes[i].image != Some(id))
    {
      if Linked(session.rows) {
        InsertedAlone(session.rows, f);
      }
      id := session.rows.nextId;
      session.rows := session.rows.(files := session.rows.files[id := f], nextId := id + 1);
    }

    /** `copy`: raises when the row is missing. */
    method Copy(id: Id, owner: Id, available: bool) returns (r: Option<Id>)
      modifies session`rows
      ensures id !in old(session.rows).files ==> r.None? && session.rows == old(session.rows)
      ensures id in old(session.rows).files ==>
                r == Some(old(session.rows).nextId)
                && session.rows == InsertFile(old(session.rows), CopyOf(old(session.rows).files[id], owner, available))
    {
      if id !in session.rows.files {
        return None;
      }
      var copied := Create(CopyOf(session.rows.files[id], owner, available));
      return Some(copied);
    }
  }

  /** The search from the `k`-th episode on. */
  function FindFrom(episodes: map<Id, Episode>, ids: seq<Id>, k: nat, podcast: Id): Option<Id>
    requires k <= |ids| && forall i :: i in ids ==> i in episodes
  {
    FindIn(episodes, ids[k..], podcast)
  }

  lemma FindStep(episodes: map<Id, Episode>, ids: seq<Id>, k: nat, podcast: Id)
    requires k < |ids| && forall i :: i in ids ==> i in episodes
    ensures ids[k] in ids
    ensures FindFrom(episodes, ids, k, podcast)
            == if episodes[ids[k]].podcast == podcast then Some(ids[k]) else FindFrom(episodes, ids, k + 1, podcast)
  {
    assert ids[k..] == [ids[k]] + ids[k + 1..];
  }

  lemma FindEnds(episodes: map<Id, Episode>, ids: seq<Id>, podcast: Id)
    requires forall i :: i in ids ==> i in episodes
    ensures FindFrom(episodes, ids, 0, podcast) == FindIn(episodes, ids, podcast)
    ensures FindFrom(episodes, ids, |ids|, podcast) == None
  {
    assert ids[0..] == ids;
  }

  /** `EpisodeCreator`. */
  class EpisodeCreator {
    const session: DbSession
    const files: FileRepository
    const userId: Id
    var podcastId: Id
    var sourceInfo: SourceInfo

    constructor (session: DbSession, userId: Id)
      ensures this.session == session && files.session == session && this.userId == userId && fresh(files)
    {
      this.session := session;
      this.files := new FileRepository(session);
      this.userId := userId;
      this.podcastId := 0;
      this.sourceInfo := SourceInfo("", Youtube);
    }

    /** `create`. */
    method Create(o: Order) returns (r: Result<Id, CreateError>)
      requires files.session == session && o.user == userId && Distinct(o.scan) && Linked(session.rows)
      modifies this, session`rows
      ensures r.Ok? ==> CreateEpisode(old(session.rows), o) == Ok((session.rows, r.value))
      ensures r.Err? ==> CreateEpisode(old(session.rows), o) == Err(r.error)
    {
      podcastId, sourceInfo := o.podcast, o.source;
      var sameEpisodes := SameEpisodes(session.rows, o);
      var episodeInPodcast, lastSameEpisode := Search(sameEpisodes);
      if episodeInPodcast.Some? {
        return Ok(episodeInPodcast.value);
      }
      if lastSameEpisode.Some? {
        r := AddCopied(session.rows.episodes[lastSameEpisode.value], o);
      } else if o.media.Some? {
        r := AddExtracted(o, o.media.value);
      } else {
        return Err(SourceFetchError);
      }
    }

    /** The search loop: it stops at the first episode of the podcast; the first listed one is the newest. */
    method Search(sameEpisodes: seq<Id>) returns (episodeInPodcast: Option<Id>, lastSameEpisode: Option<Id>)
      requires forall i :: i in sameEpisodes ==> i in session.rows.episodes
      ensures episodeInPodcast == FindIn(session.rows.episodes, sameEpisodes, podcastId)
      ensures lastSameEpisode == if sameEpisodes == [] then None else Some(sameEpisodes[0])
    {
      episodeInPodcast, lastSameEpisode := None, None;
      FindEnds(session.rows.episodes, sameEpisodes, podcastId);
      var k := 0;
      while k < |sameEpisodes|
        invariant 0 <= k <= |sameEpisodes| && episodeInPodcast.None?
        invariant lastSameEpisode == if k == 0 then None else Some(sameEpisodes[0])
        invariant FindFrom(session.rows.episodes, sameEpisodes, k, podcastId)
                  == FindIn(session.rows.episodes, sameEpisodes, podcastId)
      {
        var episode := sameEpisodes[k];
        FindStep(session.rows.episodes, sameEpisodes, k, podcastId);
        lastSameEpisode := if lastSameEpisode.Some? then lastSameEpisode else Some(episode);
        if session.rows.episodes[episode].podcast == podcastId {
          episodeInPodcast := Some(episode);
          return;
        }
        k := k + 1;
      }
    }

    /** An episode of the source exists: its two files are copied, image first. */
    method AddCopied(same: Episode, o: Order) returns (r: Result<Id, CreateError>)
      requires files.session == session && o.user == userId && o.source == sourceInfo && Linked(session.rows)
      modifies session`rows
      ensures r.Ok? ==> AddCopy(old(session.rows), o, same) == Ok((session.rows, r.value))
      ensures r.Err? ==> AddCopy(old(session.rows), o, same) == Err(r.error)
      ensures r.Ok? ==>
                && r.value in session.rows.episodes
                && session.rows.episodes[r.value].watchUrl
                   == (if o.media.Some? then Some(o.media.value.watchUrl) else same.watchUrl)
    {
      if same.image.None? || same.audio.None? {
        return Err(MissingFiles);
      }
      if same.image.value !in session.rows.files || same.audio.value !in session.rows.files {
        return Err(MissingFiles);
      }
      var row := if o.media.Some? then NewEpisode(o, sourceInfo.kind, Some(o.media.value.watchUrl))
                 else NewEpisode(o, same.sourceType, same.watchUrl);
      var image := files.Copy(same.image.value, userId, true);
      var audio := files.Copy(same.audio.value, userId, false);
      r := InsertEpisode(row.(image := image, audio := audio));
    }

    /** The first episode of its source: both file rows are new. */
    method AddExtracted(o: Order, m: MediaInfo) returns (r: Result<Id, CreateError>)
      requires files.session == session && o.user == userId && o.source == sourceInfo
      modifies session`rows
      ensures r == Ok(AddFresh(old(session.rows), o, m).1) && session.rows == AddFresh(old(session.rows), o, m).0
    {
      var row := NewEpisode(o, sourceInfo.kind, Some(m.watchUrl));
      var image := files.Create(File(Image, "", 0, m.thumbnailUrl, false, userId, ""));
      var audio := files.Create(File(Audio, "", 0, m.watchUrl, false, userId, ""));
      r := InsertEpisode(row.(image := Some(image), audio := Some(audio)));
    }

    method InsertEpisode(row: Episode) returns (r: Result<Id, CreateError>)
      modifies session`rows
      ensures r == Ok(old(session.rows).nextId)
      ensures session.rows == Rows.InsertEpisode(old(session.rows), row)
    {
      var id := session.rows.nextId;
      session.rows := session.rows.(episodes := session.rows.episodes[id := row], nextId := id + 1);
      return Ok(id);
    }
  }
}
