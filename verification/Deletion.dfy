/** Deleting episodes with their unused files, one by one and as a whole podcast. */
module Deletion {
  import opened Wrappers
  import opened Rows
  import opened Queries
  import opened Consistency

  datatype DeleteError = NotFound | InProgressError | IntegrityError

  predicate Uses(e: Episode, f: Id) {
    e.audio == Some(f) || e.image == Some(f)
  }

  /** The file ids an episode points at, audio first. */
  function FileIds(e: Episode): seq<Id> {
    (if e.audio.Some? then [e.audio.value] else []) + (if e.image.Some? then [e.image.value] else [])
  }

  predicate IsUsed(episodes: map<Id, Episode>, f: Id) {
    exists i :: i in episodes && Uses(episodes[i], f)
  }

  /** One turn of the loop over the file ids: drop the row unless it is used, missing or has no path. */
  function DropFile(db: Database, f: Id): Database {
    if IsUsed(db.episodes, f) || f !in db.files || db.files[f].path == "" then db
    else db.(files := db.files - {f})
  }

  function DropFiles(db: Database, ids: seq<Id>): Database
    decreases ids
  {
    if ids == [] then db else DropFiles(DropFile(db, ids[0]), ids[1..])
  }

  /** `safe_delete`. */
  function SafeDelete(db: Database, id: Id): Result<Database, DeleteError>
    requires id in db.episodes
  {
    var e := db.episodes[id];
    if InProgress(e.status) then Err(InProgressError)
    else Ok(DropFiles(db.(episodes := db.episodes - {id}), FileIds(e)))
  }

  /** The loop of `safe_delete` over a list of episodes. */
  function DeleteAll(db: Database, ids: seq<Id>): Result<Database, DeleteError>
    requires Distinct(ids) && forall i :: i in ids ==> i in db.episodes
    decreases |ids|
  {
    if ids == [] then Ok(db)
    else
      assert ids == [ids[0]] + ids[1..] && ids[0] !in ids[1..];
      match SafeDelete(db, ids[0])
      case Err(e) => Err(e)
      case Ok(r) =>
        DropFilesTouches(db.(episodes := db.episodes - {ids[0]}), FileIds(db.episodes[ids[0]]));
        DeleteAll(r, ids[1..])
  }

  lemma {:induction false} DropFilesTouches(db: Database, ids: seq<Id>)
    ensures
      var r := DropFiles(db, ids);
      && r == db.(files := r.files)
      && (forall f :: f in r.files ==> f in db.files && r.files[f] == db.files[f])
      && (forall f :: f in db.files && f !in r.files <==>
            f in db.files && f in ids && db.files[f].path != "" && !IsUsed(db.episodes, f))
    decreases ids
  {
    if ids != [] {
      assert ids == [ids[0]] + ids[1..];
      DropFilesTouches(DropFile(db, ids[0]), ids[1..]);
    }
  }

  // -------- the one-shot definition

  /** The file rows that go when the episodes `gone` go. */
  ghost predicate Collected(db: Database, gone: set<Id>, f: Id) {
    && f in db.files && db.files[f].path != ""
    && (exists i :: i in gone && i in db.episodes && Uses(db.episodes[i], f))
    && !(exists i :: i !in gone && i in db.episodes && Uses(db.episodes[i], f))
  }

  /** Exactly the episodes `gone` and the files nobody else uses are missing; all else is as before. */
  ghost predicate RemovedAtOnce(db: Database, gone: set<Id>, r: Database) {
    && r == db.(episodes := db.episodes - gone, files := r.files)
    && (forall f :: f in r.files ==> f in db.files && r.files[f] == db.files[f])
    && (forall f :: f in db.files ==> (f !in r.files <==> Collected(db, gone, f)))
  }

  lemma SafeDeleteRemoves(db: Database, id: Id)
    requires id in db.episodes && !InProgress(db.episodes[id].status)
    ensures SafeDelete(db, id).Ok? && RemovedAtOnce(db, {id}, SafeDelete(db, id).value)
  {
    var mid := db.(episodes := db.episodes - {id});
    DropFilesTouches(mid, FileIds(db.episodes[id]));
    forall f | f in db.files ensures f !in SafeDelete(db, id).value.files <==> Collected(db, {id}, f) {
      assert f in FileIds(db.episodes[id]) <==> Uses(db.episodes[id], f);
      UsedByOthers(db, id, f);
    }
  }

  lemma UsedByOthers(db: Database, id: Id, f: Id)
    requires id in db.episodes
    ensures IsUsed(db.episodes - {id}, f) <==> exists i :: i !in {id} && i in db.episodes && Uses(db.episodes[i], f)
    ensures Uses(db.episodes[id], f) <==> exists i :: i in {id} && i in db.episodes && Uses(db.episodes[i], f)
  {
    var others := db.episodes - {id};
    if IsUsed(others, f) {
      var i :| i in others && Uses(others[i], f);
      assert i !in {id} && i in db.episodes && Uses(db.episodes[i], f);
    }
    if j :| j !in {id} && j in db.episodes && Uses(db.episodes[j], f) {
      assert j in others && Uses(others[j], f);
    }
    if Uses(db.episodes[id], f) {
      assert id in {id};
    }
  }

  /** Collecting in two rounds collects what one round would. */
  lemma RemovedInTwo(db: Database, first: set<Id>, mid: Database, rest: set<Id>, r: Database)
    requires RemovedAtOnce(db, first, mid) && RemovedAtOnce(mid, rest, r)
    ensures RemovedAtOnce(db, first + rest, r)
  {
    assert db.episodes - (first + rest) == (db.episodes - first) - rest;
    forall f | f in db.files ensures f !in r.files <==> Collected(db, first + rest, f) {
      CollectedInTwo(db, first, mid, rest, f);
    }
  }

  lemma CollectedInTwo(db: Database, first: set<Id>, mid: Database, rest: set<Id>, f: Id)
    requires RemovedAtOnce(db, first, mid) && f in db.files
    ensures Collected(db, first + rest, f) <==> Collected(db, first, f) || Collected(mid, rest, f)
  {
  }

  ghost function Members(ids: seq<Id>): set<Id> {
    set i | i in ids
  }

  /** The incremental collector equals the one-shot definition, in any order of the episodes; it raises
      exactly when some listed episode is in progress. */
  lemma {:induction false} DeleteAllRemoves(db: Database, ids: seq<Id>)
    requires Distinct(ids) && forall i :: i in ids ==> i in db.episodes
    ensures DeleteAll(db, ids).Ok? <==> forall i :: i in ids ==> !InProgress(db.episodes[i].status)
    ensures DeleteAll(db, ids).Ok? ==> RemovedAtOnce(db, Members(ids), DeleteAll(db, ids).value)
    ensures DeleteAll(db, ids).Err? ==> DeleteAll(db, ids).error.InProgressError?
    decreases |ids|
  {
    if ids == [] {
      assert db.episodes - Members(ids) == db.episodes;
    } else {
      var head, tail := ids[0], ids[1..];
      assert ids == [head] + tail && head !in tail;
      if !InProgress(db.episodes[head].status) {
        SafeDeleteRemoves(db, head);
        var mid := SafeDelete(db, head).value;
        assert forall i :: i in tail ==> i in mid.episodes && mid.episodes[i] == db.episodes[i];
        DeleteAllRemoves(mid, tail);
        if DeleteAll(mid, tail).Ok? {
          RemovedInTwo(db, {head}, mid, Members(tail), DeleteAll(mid, tail).value);
          assert Members(ids) == {head} + Members(tail);
        }
      }
    }
  }

  /** Which order the database lists the episodes in makes no difference. */
  lemma DeletionOrderIrrelevant(db: Database, ids: seq<Id>, ids2: seq<Id>)
    requires Distinct(ids) && Distinct(ids2) && Members(ids) == Members(ids2)
    requires forall i :: i in ids ==> i in db.episodes
    ensures (forall i :: i in ids2 ==> i in db.episodes) && DeleteAll(db, ids) == DeleteAll(db, ids2)
  {
    forall i ensures i in ids <==> i in ids2 {
      assert i in Members(ids) <==> i in Members(ids2);
    }
    DeleteAllRemoves(db, ids);
    DeleteAllRemoves(db, ids2);
    if DeleteAll(db, ids).Ok? {
      var a, b := DeleteAll(db, ids).value, DeleteAll(db, ids2).value;
      assert a.files == b.files by {
        forall f ensures f in a.files <==> f in b.files {
        }
      }
    }
  }

  // -------- podcasts

  predicate Holds(episodes: map<Id, Episode>, podcast: Id) {
    exists i :: i in episodes && episodes[i].podcast == podcast
  }

  predicate OwnedIn(e: Episode, podcast: Id, user: Id) {
    e.podcast == podcast && e.owner == user
  }

  function OwnedEpisodes(db: Database, user: Id, podcast: Id, scan: seq<Id>): (ids: seq<Id>)
    requires Distinct(scan)
    ensures Lists(db.episodes, scan, (e: Episode) => OwnedIn(e, podcast, user), ids)
  {
    Select(db.episodes, scan, (e: Episode) => OwnedIn(e, podcast, user))
  }

  /** Deleting the podcast row: the foreign key of a remaining episode restricts it. */
  function DropPodcast(db: Database, podcast: Id): Result<Database, DeleteError> {
    if Holds(db.episodes, podcast) then Err(IntegrityError) else Ok(db.(podcasts := db.podcasts - {podcast}))
  }

  /** The body of the request, inside its unit of work. */
  function DeletePodcast(db: Database, user: Id, podcast: Id, scan: seq<Id>): Result<Database, DeleteError>
    requires Distinct(scan)
  {
    if podcast !in db.podcasts || db.podcasts[podcast].owner != user then Err(NotFound)
    else
      match DeleteAll(db, OwnedEpisodes(db, user, podcast, scan))
      case Err(e) => Err(e)
      case Ok(r) => DropPodcast(r, podcast)
  }

  /** What a caller can check beforehand: the podcast is theirs, none of its episodes is in progress, and
      nobody else has put an episode into it. */
  ghost predicate Deletable(db: Database, user: Id, podcast: Id) {
    && podcast in db.podcasts && db.podcasts[podcast].owner == user
    && forall i :: i in db.episodes && db.episodes[i].podcast == podcast ==>
         db.episodes[i].owner == user && !InProgress(db.episodes[i].status)
  }

  ghost function EpisodesOf(db: Database, podcast: Id): set<Id> {
    set i | i in db.episodes && db.episodes[i].podcast == podcast
  }

  /** The request goes through exactly when the podcast is deletable; then the podcast and its episodes
      are gone, and of the files exactly those with a path that only its episodes used. */
  lemma DeletePodcastMeans(db: Database, user: Id, podcast: Id, scan: seq<Id>)
    requires Visits(scan, db.episodes)
    ensures
      var r := DeletePodcast(db, user, podcast, scan);
      && (r.Ok? <==> Deletable(db, user, podcast))
      && (r.Ok? ==> exists mid :: RemovedAtOnce(db, EpisodesOf(db, podcast), mid)
                                  && r.value == mid.(podcasts := db.podcasts - {podcast}))
  {
    var ids := OwnedEpisodes(db, user, podcast, scan);
    forall i | i in db.episodes ensures i in ids <==> OwnedIn(db.episodes[i], podcast, user) {
    }
    DeleteAllRemoves(db, ids);
    if podcast in db.podcasts && db.podcasts[podcast].owner == user && DeleteAll(db, ids).Ok? {
      var mid := DeleteAll(db, ids).value;
      if Holds(mid.episodes, podcast) {
        var i :| i in mid.episodes && mid.episodes[i].podcast == podcast;
        assert i !in ids && !OwnedIn(db.episodes[i], podcast, user);
      } else {
        forall i | i in EpisodesOf(db, podcast) ensures i in ids {
          assert i !in mid.episodes;
        }
        assert Members(ids) == EpisodesOf(db, podcast);
        assert mid.podcasts == db.podcasts;
      }
    }
  }

  /** A podcast someone else contributed to cannot be deleted by its owner: the foreign key undoes it. */
  lemma ForeignEpisodeBlocksDeletion(db: Database, user: Id, podcast: Id, scan: seq<Id>, i: Id)
    requires Visits(scan, db.episodes) && podcast in db.podcasts && db.podcasts[podcast].owner == user
    requires i in db.episodes && db.episodes[i].podcast == podcast && db.episodes[i].owner != user
    requires forall j :: j in db.episodes && db.episodes[j].podcast == podcast ==> !InProgress(db.episodes[j].status)
    ensures DeletePodcast(db, user, podcast, scan) == Err(IntegrityError)
  {
    var ids := OwnedEpisodes(db, user, podcast, scan);
    assert i !in ids;
    DeleteAllRemoves(db, ids);
    assert i in DeleteAll(db, ids).value.episodes;
  }

  // -------- what it keeps

  lemma UsedStays(db: Database, gone: set<Id>, r: Database, i: Id, f: Id)
    requires RemovedAtOnce(db, gone, r) && i in r.episodes && f in db.files && Uses(db.episodes[i], f)
    ensures f in r.files && r.files[f] == db.files[f]
  {
  }

  lemma SurvivorStays(db: Database, gone: set<Id>, r: Database, i: Id)
    requires Linked(db) && RemovedAtOnce(db, gone, r) && i in r.episodes
    ensures r.episodes[i] == db.episodes[i] && EpisodeLinked(r, r.episodes[i])
    ensures AudioOf(r, r.episodes[i]) == AudioOf(db, db.episodes[i])
  {
    var e := db.episodes[i];
    assert EpisodeLinked(db, e);
    UsedStays(db, gone, r, i, e.audio.value);
    if e.image.Some? {
      UsedStays(db, gone, r, i, e.image.value);
    }
  }

  lemma FeedRowUnused(db: Database, p: Id, i: Id)
    requires Linked(db) && p in db.podcasts && i in db.episodes
    ensures !Uses(db.episodes[i], db.podcasts[p].rss)
  {
  }

  lemma FeedRowStays(db: Database, gone: set<Id>, r: Database, p: Id)
    requires Linked(db) && RemovedAtOnce(db, gone, r) && p in r.podcasts
    ensures r.podcasts[p].rss in r.files
  {
    if i :| i in gone && i in db.episodes && Uses(db.episodes[i], db.podcasts[p].rss) {
      FeedRowUnused(db, p, i);
    }
    assert !Collected(db, gone, db.podcasts[p].rss);
  }

  /** Surviving episodes keep their file rows, and podcasts their feed rows. */
  lemma SurvivorsKeepFiles(db: Database, gone: set<Id>, r: Database)
    requires Linked(db) && RemovedAtOnce(db, gone, r)
    ensures Linked(r)
    ensures forall i :: i in r.episodes ==>
        r.episodes[i] == db.episodes[i] && AudioOf(r, r.episodes[i]) == AudioOf(db, db.episodes[i])
  {
    forall i | i in r.episodes
      ensures r.episodes[i] == db.episodes[i] && EpisodeLinked(r, r.episodes[i])
      ensures AudioOf(r, r.episodes[i]) == AudioOf(db, db.episodes[i])
    {
      SurvivorStays(db, gone, r, i);
    }
    forall p | p in r.podcasts ensures r.podcasts[p].rss in r.files {
      FeedRowStays(db, gone, r, p);
    }
  }

  lemma RemovalSourced(cat: Catalogue, db: Database, gone: set<Id>, r: Database)
    requires Linked(db) && Sourced(cat, db) && RemovedAtOnce(db, gone, r)
    ensures Sourced(cat, r)
  {
    SurvivorsKeepFiles(db, gone, r);
    forall i | i in r.episodes ensures EpisodeSourced(cat, r, r.episodes[i]) {
      assert EpisodeSourced(cat, db, db.episodes[i]);
    }
  }

  lemma RemovalShared(db: Database, gone: set<Id>, r: Database)
    requires Linked(db) && RemovedAtOnce(db, gone, r) && Shared(db) && Single(db)
    ensures Shared(r) && Single(r)
  {
    SurvivorsKeepFiles(db, gone, r);
  }

  lemma RemovalAgreed(db: Database, gone: set<Id>, r: Database)
    requires Linked(db) && RemovedAtOnce(db, gone, r) && Agreed(db)
    ensures Agreed(r)
  {
  }

  lemma RemovalPlays(db: Database, gone: set<Id>, r: Database)
    requires Linked(db) && RemovedAtOnce(db, gone, r) && Playable(db)
    ensures Playable(r)
  {
    SurvivorsKeepFiles(db, gone, r);
    forall i | i in r.episodes && r.episodes[i].status.Published? ensures CanPlay(r, r.episodes[i]) {
      assert CanPlay(db, db.episodes[i]) && EpisodeLinked(r, r.episodes[i]);
    }
  }

  lemma RemovalKeeps(cat: Catalogue, db: Database, gone: set<Id>, r: Database)
    requires Structured(cat, db) && RemovedAtOnce(db, gone, r)
    ensures Preserves(cat, db, r)
  {
    SurvivorsKeepFiles(db, gone, r);
    RemovalSourced(cat, db, gone, r);
    RemovalShared(db, gone, r);
    RemovalAgreed(db, gone, r);
    if Playable(db) {
      RemovalPlays(db, gone, r);
    }
  }

  lemma DropPodcastLinked(cat: Catalogue, db: Database, podcast: Id)
    requires Linked(db) && Sourced(cat, db) && !Holds(db.episodes, podcast)
    ensures
      var r := db.(podcasts := db.podcasts - {podcast});
      Linked(r) && Sourced(cat, r)
  {
    var r := db.(podcasts := db.podcasts - {podcast});
    forall i | i in r.episodes ensures EpisodeLinked(r, r.episodes[i]) && EpisodeSourced(cat, r, r.episodes[i]) {
      assert EpisodeLinked(db, db.episodes[i]) && EpisodeSourced(cat, db, db.episodes[i]);
    }
  }

  lemma DropPodcastKeeps(cat: Catalogue, db: Database, podcast: Id)
    requires Structured(cat, db) && !Holds(db.episodes, podcast)
    ensures Preserves(cat, db, db.(podcasts := db.podcasts - {podcast}))
  {
    var r := db.(podcasts := db.podcasts - {podcast});
    DropPodcastLinked(cat, db, podcast);
    SameAudioAgrees(db, r);
    if Playable(db) {
      forall i | i in r.episodes && r.episodes[i].status.Published? ensures CanPlay(r, r.episodes[i]) {
        assert CanPlay(db, db.episodes[i]);
      }
    }
  }

  lemma DeletePodcastKeeps(cat: Catalogue, db: Database, user: Id, podcast: Id, scan: seq<Id>)
    requires Structured(cat, db) && Visits(scan, db.episodes)
    ensures
      var r := DeletePodcast(db, user, podcast, scan);
      r.Ok? ==> Preserves(cat, db, r.value)
  {
    var r := DeletePodcast(db, user, podcast, scan);
    DeletePodcastMeans(db, user, podcast, scan);
    if r.Ok? {
      var mid :| RemovedAtOnce(db, EpisodesOf(db, podcast), mid)
          && r.value == mid.(podcasts := db.podcasts - {podcast});
      DeletedKeeps(cat, db, podcast, mid);
    }
  }

  lemma DeletedKeeps(cat: Catalogue, db: Database, podcast: Id, mid: Database)
    requires Structured(cat, db) && RemovedAtOnce(db, EpisodesOf(db, podcast), mid)
    ensures Preserves(cat, db, mid.(podcasts := db.podcasts - {podcast}))
  {
    RemovalKeeps(cat, db, EpisodesOf(db, podcast), mid);
    NoneHeld(db, podcast, mid);
    DropPodcastKeeps(cat, mid, podcast);
  }

  lemma NoneHeld(db: Database, podcast: Id, mid: Database)
    requires RemovedAtOnce(db, EpisodesOf(db, podcast), mid)
    ensures !Holds(mid.episodes, podcast) && mid.podcasts == db.podcasts
  {
  }
}
