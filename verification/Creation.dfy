/** Creating an episode from a source URL: reuse, copy, or start afresh. */
module Creation {
  import opened Wrappers
  import opened Rows
  import opened Queries
  import opened Consistency

  datatype SourceInfo = SourceInfo(id: string, kind: SourceType)

  datatype MediaInfo = MediaInfo(watchUrl: string, thumbnailUrl: string)

  datatype CreateError = SourceFetchError | MissingFiles

  /** What the request and the outside world supply: the source read off the URL, what the extractor
      answered (None on failure), the time, and the order in which rows are visited. */
  datatype Order = Order(podcast: Id, user: Id, source: SourceInfo, media: Option<MediaInfo>, now: Time, scan: seq<Id>)

  /** Episodes of the source, newest first. */
  function SameEpisodes(db: Database, o: Order): (ids: seq<Id>)
    requires Distinct(o.scan)
    ensures Lists(db.episodes, o.scan, (e: Episode) => e.sourceId == o.source.id, ids)
  {
    Select(db.episodes, o.scan, (e: Episode) => e.sourceId == o.source.id)
  }

  /** The `k`-th listed episode belongs to the podcast, and none before it does. */
  ghost predicate FirstIn(episodes: map<Id, Episode>, ids: seq<Id>, podcast: Id, k: nat)
    requires forall i :: i in ids ==> i in episodes
  {
    k < |ids| && episodes[ids[k]].podcast == podcast && forall j :: 0 <= j < k ==> episodes[ids[j]].podcast != podcast
  }

  /** The search loop of `create`. */
  function FindIn(episodes: map<Id, Episode>, ids: seq<Id>, podcast: Id): (r: Option<Id>)
    requires forall i :: i in ids ==> i in episodes
    ensures r.Some? ==> r.value in ids && episodes[r.value].podcast == podcast
    ensures r.None? ==> forall i :: i in ids ==> episodes[i].podcast != podcast
  {
    if ids == [] then None
    else if episodes[ids[0]].podcast == podcast then Some(ids[0])
    else
      assert ids == [ids[0]] + ids[1..];
      FindIn(episodes, ids[1..], podcast)
  }

  /** It answers with the first listed episode of the podcast, and with none exactly when none is listed. */
  lemma {:induction false} FindInIsFirst(episodes: map<Id, Episode>, ids: seq<Id>, podcast: Id)
    requires forall i :: i in ids ==> i in episodes
    ensures
      var r := FindIn(episodes, ids, podcast);
      && (r.Some? ==> exists k: nat :: FirstIn(episodes, ids, podcast, k) && ids[k] == r.value)
      && (r.None? <==> forall i :: i in ids ==> episodes[i].podcast != podcast)
  {
    if ids != [] {
      if episodes[ids[0]].podcast == podcast {
        assert FirstIn(episodes, ids, podcast, 0);
      } else {
        assert ids == [ids[0]] + ids[1..];
        FindInIsFirst(episodes, ids[1..], podcast);
        var r := FindIn(episodes, ids, podcast);
        if r.Some? {
          var k: nat :| FirstIn(episodes, ids[1..], podcast, k) && ids[1..][k] == r.value;
          assert FirstIn(episodes, ids, podcast, k + 1);
        }
      }
    }
  }

  /** `FileRepository.copy`: the content hash is not copied. */
  function CopyOf(f: File, owner: Id, available: bool): File {
    f.(owner := owner, available := available, hash := "")
  }

  /** Two file rows and an episode row pointing at them. */
  function AddEpisode(db: Database, image: File, audio: File, e: Episode): (Database, Id) {
    var n := db.nextId;
    (db.(files := db.files[n := image][n + 1 := audio],
         episodes := db.episodes[n + 2 := e.(image := Some(n), audio := Some(n + 1))],
         nextId := n + 3), n + 2)
  }

  function NewEpisode(o: Order, kind: SourceType, watchUrl: Option<string>): Episode {
    Episode(o.source.id, kind, o.podcast, None, None, o.user, watchUrl, New, o.now, None)
  }

  function AddFresh(db: Database, o: Order, m: MediaInfo): (Database, Id) {
    AddEpisode(db,
      File(Image, "", 0, m.thumbnailUrl, false, o.user, ""),
      File(Audio, "", 0, m.watchUrl, false, o.user, ""),
      NewEpisode(o, o.source.kind, Some(m.watchUrl)))
  }

  /** The row a copy is given. */
  function CopiedEpisode(o: Order, same: Episode): Episode {
    if o.media.Some? then NewEpisode(o, o.source.kind, Some(o.media.value.watchUrl))
    else NewEpisode(o, same.sourceType, same.watchUrl)
  }

  function AddCopy(db: Database, o: Order, same: Episode): Result<(Database, Id), CreateError> {
    if same.image.None? || same.audio.None? || same.image.value !in db.files || same.audio.value !in db.files
    then Err(MissingFiles)
    else
      Ok(AddEpisode(db, CopyOf(db.files[same.image.value], o.user, true),
                    CopyOf(db.files[same.audio.value], o.user, false), CopiedEpisode(o, same)))
  }

  /** `EpisodeCreator.create`. */
  function CreateEpisode(db: Database, o: Order): Result<(Database, Id), CreateError>
    requires Distinct(o.scan)
  {
    var same := SameEpisodes(db, o);
    var found := FindIn(db.episodes, same, o.podcast);
    if found.Some? then Ok((db, found.value))
    else if same != [] then AddCopy(db, o, db.episodes[same[0]])
    else if o.media.Some? then Ok(AddFresh(db, o, o.media.value))
    else Err(SourceFetchError)
  }

  /** An episode the podcast already holds is returned, with nothing changed, wherever it is listed. */
  lemma ExistingIsReturned(db: Database, o: Order, i: Id)
    requires Visits(o.scan, db.episodes) && Single(db)
    requires i in db.episodes && db.episodes[i].podcast == o.podcast && db.episodes[i].sourceId == o.source.id
    ensures CreateEpisode(db, o) == Ok((db, i))
  {
  }

  /** Episode `i` is of the source, and none of the source is newer. */
  ghost predicate IsNewest(db: Database, o: Order, i: Id) {
    && i in db.episodes && db.episodes[i].sourceId == o.source.id
    && forall j :: j in db.episodes && db.episodes[j].sourceId == o.source.id ==>
         db.episodes[i].createdAt >= db.episodes[j].createdAt
  }

  predicate HasFiles(db: Database, e: Episode) {
    e.image.Some? && e.image.value in db.files && e.audio.Some? && e.audio.value in db.files
  }

  /** The answer when the podcast holds no episode of the source but others do: a newest one is copied, or lacks a file
      row, which is an error. */
  ghost predicate AnswersFrom(db: Database, o: Order, i: Id, r: Result<(Database, Id), CreateError>) {
    && IsNewest(db, o, i)
    && (r.Ok? <==> HasFiles(db, db.episodes[i])) && (r == Err(MissingFiles) <==> !HasFiles(db, db.episodes[i]))
    && (r.Ok? ==> CopiesFrom(db, o, i, r.value.0, r.value.1))
  }

  /** Without one, a newest episode of the source is copied, and the request fails exactly when that episode lacks a
      file row; if no episode is of the source, everything is new, and the request fails exactly when the extractor did
      not answer. */
  lemma OtherwiseNewestIsCopied(db: Database, o: Order)
    requires Visits(o.scan, db.episodes) && IdsBelow(db)
    requires forall i :: i in db.episodes && db.episodes[i].sourceId == o.source.id ==>
        db.episodes[i].podcast != o.podcast
    ensures
      var r := CreateEpisode(db, o);
      var known := exists i :: i in db.episodes && db.episodes[i].sourceId == o.source.id;
      && (known ==> exists i :: AnswersFrom(db, o, i, r))
      && (!known ==> (r.Ok? <==> o.media.Some?) && (r.Err? ==> r.error == SourceFetchError))
      && (!known && r.Ok? ==> StartsFresh(db, o, o.media.value, r.value.0, r.value.1))
  {
    NewestIsFirst(db, o);
    var same := SameEpisodes(db, o);
    if same != [] {
      CopyAnswers(db, o, same[0]);
      assert CreateEpisode(db, o) == AddCopy(db, o, db.episodes[same[0]]);
      assert AnswersFrom(db, o, same[0], CreateEpisode(db, o));
    } else if o.media.Some? {
      FreshStarts(db, o, o.media.value);
    }
  }

  /** What the search sees in a podcast without an episode of the source. */
  lemma NewestIsFirst(db: Database, o: Order)
    requires Visits(o.scan, db.episodes)
    requires forall i :: i in db.episodes && db.episodes[i].sourceId == o.source.id ==>
        db.episodes[i].podcast != o.podcast
    ensures
      var same := SameEpisodes(db, o);
      && FindIn(db.episodes, same, o.podcast).None?
      && (same == [] ==> forall i :: i in db.episodes ==> db.episodes[i].sourceId != o.source.id)
      && (same != [] ==> IsNewest(db, o, same[0]))
  {
    var same := SameEpisodes(db, o);
    forall i | i in db.episodes && db.episodes[i].sourceId == o.source.id ensures i in same {
    }
    if same != [] {
      assert same[0] in same;
      FirstIsNewest(db.episodes, same);
    }
  }

  lemma FreshStarts(db: Database, o: Order, m: MediaInfo)
    requires IdsBelow(db)
    ensures StartsFresh(db, o, m, AddFresh(db, o, m).0, AddFresh(db, o, m).1)
  {
  }

  lemma FirstIsNewest(episodes: map<Id, Episode>, ids: seq<Id>)
    requires ids != [] && (forall i :: i in ids ==> i in episodes) && NewestFirst(episodes, ids)
    ensures forall j :: j in ids ==> episodes[ids[0]].createdAt >= episodes[j].createdAt
  {
  }

  lemma CopyAnswers(db: Database, o: Order, i: Id)
    requires IsNewest(db, o, i) && IdsBelow(db)
    ensures AnswersFrom(db, o, i, AddCopy(db, o, db.episodes[i]))
  {
  }

  /** `r` has one episode row more than `db`, and its two file rows; old rows are as before. */
  ghost predicate OneEpisodeMore(db: Database, r: Database, id: Id) {
    && id !in db.episodes && id in r.episodes && r.episodes == db.episodes[id := r.episodes[id]]
    && r.episodes[id].audio.Some? && r.episodes[id].image.Some?
    && r.files.Keys == db.files.Keys + {r.episodes[id].audio.value, r.episodes[id].image.value}
    && r.episodes[id].audio != r.episodes[id].image
    && r.podcasts == db.podcasts && forall f :: f in db.files ==> f in r.files && r.files[f] == db.files[f]
  }

  /** Ids in use are below the sequence. */
  ghost predicate IdsBelow(db: Database) {
    (forall i :: i in db.episodes ==> i < db.nextId) && forall f :: f in db.files ==> f < db.nextId
  }

  /** `g` is another user's copy of `f`: the same content from the same place, without the content hash. */
  predicate FileCopied(f: File, g: File, owner: Id, available: bool) {
    && g.kind == f.kind && g.path == f.path && g.size == f.size && g.sourceUrl == f.sourceUrl
    && g.owner == owner && g.available == available && g.hash == ""
  }

  /** Episode `id` of `r` is new, belongs to the podcast, and its files copy those of `i`, a newest
      episode of the source: audio not yet available, image available. Its watch URL is the one extracted, or that of
      `i` if nothing was. */
  ghost predicate CopiesFrom(db: Database, o: Order, i: Id, r: Database, id: Id)
    requires i in db.episodes
  {
    var d := db.episodes[i];
    && IsNewest(db, o, i) && OneEpisodeMore(db, r, id)
    && var e := r.episodes[id];
       && e.sourceId == d.sourceId && e.podcast == o.podcast && e.owner == o.user
       && e.status.New? && e.createdAt == o.now && e.publishedAt.None?
       && e.sourceType == (if o.media.Some? then o.source.kind else d.sourceType)
       && e.watchUrl == (if o.media.Some? then Some(o.media.value.watchUrl) else d.watchUrl)
       && FileCopied(AudioOf(db, d), AudioOf(r, e), o.user, false)
       && FileCopied(FileRow(db.files, d.image), FileRow(r.files, e.image), o.user, true)
  }

  /** Episode `id` of `r` is new and belongs to the podcast; its files are empty, not available, and know where
      their content comes from. */
  ghost predicate StartsFresh(db: Database, o: Order, m: MediaInfo, r: Database, id: Id) {
    && OneEpisodeMore(db, r, id)
    && var e := r.episodes[id];
       && e.sourceId == o.source.id && e.sourceType == o.source.kind && e.podcast == o.podcast && e.owner == o.user
       && e.status.New? && e.createdAt == o.now && e.publishedAt.None? && e.watchUrl == Some(m.watchUrl)
       && AudioOf(r, e) == File(Audio, "", 0, m.watchUrl, false, o.user, "")
       && FileRow(r.files, e.image) == File(Image, "", 0, m.thumbnailUrl, false, o.user, "")
  }

  // -------- what it keeps

  /** The conditions on new rows under which consistency survives their insertion. */
  ghost predicate Fits(cat: Catalogue, db: Database, image: File, audio: File, e: Episode) {
    && image.kind == Image && cat.origin(image.sourceUrl) == None
    && audio.kind == Audio && audio.hash == "" && cat.origin(audio.sourceUrl) == Some(e.sourceId)
    && e.podcast in db.podcasts && e.sourceType == cat.kindOf(e.sourceId) && !e.sourceType.Upload?
    && !e.status.Published?
    && (forall i :: i in db.episodes ==>
          && Agree(audio, AudioOf(db, db.episodes[i]))
          && (db.episodes[i].sourceId == e.sourceId ==>
                db.episodes[i].podcast != e.podcast && AudioOf(db, db.episodes[i]).sourceUrl == audio.sourceUrl))
  }

  lemma OldRowsStay(db: Database, image: File, audio: File, e: Episode, i: Id)
    requires Linked(db) && i in db.episodes
    ensures
      var r := AddEpisode(db, image, audio, e).0;
      && i in r.episodes && r.episodes[i] == db.episodes[i] && AudioOf(r, r.episodes[i]) == AudioOf(db, db.episodes[i])
      && EpisodeLinked(r, r.episodes[i])
  {
  }

  lemma AddLinked(cat: Catalogue, db: Database, image: File, audio: File, e: Episode)
    requires Linked(db) && Fits(cat, db, image, audio, e)
    ensures Linked(AddEpisode(db, image, audio, e).0)
  {
    var (r, id) := AddEpisode(db, image, audio, e);
    forall i | i in r.episodes ensures i < r.nextId && EpisodeLinked(r, r.episodes[i]) {
      if i != id {
        OldRowsStay(db, image, audio, e, i);
      }
    }
  }

  lemma AddSourced(cat: Catalogue, db: Database, image: File, audio: File, e: Episode)
    requires Linked(db) && Sourced(cat, db) && Fits(cat, db, image, audio, e)
    ensures Sourced(cat, AddEpisode(db, image, audio, e).0)
  {
    var (r, id) := AddEpisode(db, image, audio, e);
    forall i | i in r.episodes ensures EpisodeSourced(cat, r, r.episodes[i]) {
      if i != id {
        OldRowsStay(db, image, audio, e, i);
        assert EpisodeSourced(cat, db, db.episodes[i]);
      }
    }
  }

  lemma AddSingle(cat: Catalogue, db: Database, image: File, audio: File, e: Episode)
    requires Linked(db) && Single(db) && Fits(cat, db, image, audio, e)
    ensures Single(AddEpisode(db, image, audio, e).0)
  {
  }

  lemma AddShared(cat: Catalogue, db: Database, image: File, audio: File, e: Episode)
    requires Linked(db) && Shared(db) && Fits(cat, db, image, audio, e)
    requires forall i :: i in db.episodes && db.episodes[i].sourceId == e.sourceId ==>
        db.episodes[i].sourceType == e.sourceType
    ensures Shared(AddEpisode(db, image, audio, e).0)
  {
    var (r, id) := AddEpisode(db, image, audio, e);
    forall i, j | i in r.episodes && j in r.episodes
      && r.episodes[i].sourceId == r.episodes[j].sourceId && !r.episodes[i].sourceType.Upload?
      ensures AudioOf(r, r.episodes[i]).sourceUrl == AudioOf(r, r.episodes[j]).sourceUrl
    {
      if i != id {
        OldRowsStay(db, image, audio, e, i);
      }
      if j != id {
        OldRowsStay(db, image, audio, e, j);
      }
    }
  }

  lemma KindFollows(cat: Catalogue, db: Database, image: File, audio: File, e: Episode)
    requires Sourced(cat, db) && Fits(cat, db, image, audio, e)
    ensures forall i :: i in db.episodes && db.episodes[i].sourceId == e.sourceId ==>
        db.episodes[i].sourceType == e.sourceType
  {
  }

  lemma AddAgreed(cat: Catalogue, db: Database, image: File, audio: File, e: Episode)
    requires Linked(db) && Agreed(db) && Fits(cat, db, image, audio, e)
    ensures Agreed(AddEpisode(db, image, audio, e).0)
  {
    var (r, id) := AddEpisode(db, image, audio, e);
    forall i, j | i in r.episodes && j in r.episodes
      ensures Agree(AudioOf(r, r.episodes[i]), AudioOf(r, r.episodes[j]))
    {
      if i != id {
        OldRowsStay(db, image, audio, e, i);
      }
      if j != id {
        OldRowsStay(db, image, audio, e, j);
      }
      if i != id && j != id {
        assert Agree(AudioOf(db, db.episodes[i]), AudioOf(db, db.episodes[j]));
      }
    }
  }

  lemma AddPlays(cat: Catalogue, db: Database, image: File, audio: File, e: Episode)
    requires Linked(db) && Playable(db) && Fits(cat, db, image, audio, e)
    ensures Playable(AddEpisode(db, image, audio, e).0)
  {
    var r := AddEpisode(db, image, audio, e).0;
    forall i | i in r.episodes && r.episodes[i].status.Published? ensures CanPlay(r, r.episodes[i]) {
      OldRowsStay(db, image, audio, e, i);
      assert CanPlay(db, db.episodes[i]);
    }
  }

  lemma AddKeeps(cat: Catalogue, db: Database, image: File, audio: File, e: Episode)
    requires Structured(cat, db) && Fits(cat, db, image, audio, e)
    ensures Preserves(cat, db, AddEpisode(db, image, audio, e).0)
  {
    AddLinked(cat, db, image, audio, e);
    AddSourced(cat, db, image, audio, e);
    AddSingle(cat, db, image, audio, e);
    KindFollows(cat, db, image, audio, e);
    AddShared(cat, db, image, audio, e);
    AddAgreed(cat, db, image, audio, e);
    if Playable(db) {
      AddPlays(cat, db, image, audio, e);
    }
  }

  /** What the catalogue says about an order: the source kind follows from the id, the extracted watch URL
      belongs to the source, and thumbnails are not watch URLs. A blank URL yields an upload-kind id with
      nothing to extract and nothing to copy. */
  ghost predicate Plausible(cat: Catalogue, db: Database, o: Order) {
    && Visits(o.scan, db.episodes)
    && (o.source.kind.Upload? ==>
          o.media.None? && forall i :: i in db.episodes ==> db.episodes[i].sourceId != o.source.id)
    && (!o.source.kind.Upload? ==> cat.kindOf(o.source.id) == o.source.kind)
    && (o.media.Some? ==>
        cat.origin(o.media.value.watchUrl) == Some(o.source.id) && cat.origin(o.media.value.thumbnailUrl) == None)
  }

  lemma FreshFits(cat: Catalogue, db: Database, o: Order, m: MediaInfo)
    requires Sound(cat) && Structured(cat, db) && Plausible(cat, db, o) && o.media == Some(m)
    requires o.podcast in db.podcasts
    requires forall i :: i in db.episodes ==> db.episodes[i].sourceId != o.source.id
    ensures Fits(cat, db, File(Image, "", 0, m.thumbnailUrl, false, o.user, ""),
        File(Audio, "", 0, m.watchUrl, false, o.user, ""),
                 NewEpisode(o, o.source.kind, Some(m.watchUrl)))
  {
    forall i | i in db.episodes ensures AudioOf(db, db.episodes[i]).sourceUrl != m.watchUrl {
      assert EpisodeSourced(cat, db, db.episodes[i]) && EpisodeLinked(db, db.episodes[i]);
    }
  }

  lemma CopyFits(cat: Catalogue, db: Database, o: Order, d: Id, e: Episode)
    requires Sound(cat) && Structured(cat, db) && d in db.episodes && !db.episodes[d].sourceType.Upload?
    requires e.sourceId == db.episodes[d].sourceId && e.sourceType == db.episodes[d].sourceType && e.status.New?
    requires e.podcast in db.podcasts
    requires forall i :: i in db.episodes && db.episodes[i].sourceId == e.sourceId ==>
        db.episodes[i].podcast != e.podcast
    ensures EpisodeLinked(db, db.episodes[d]) && db.episodes[d].image.Some?
    ensures Fits(cat, db, CopyOf(db.files[db.episodes[d].image.value], o.user, true),
                 CopyOf(db.files[db.episodes[d].audio.value], o.user, false), e)
  {
  }

  ghost predicate CreatedWell(cat: Catalogue, db: Database, podcast: Id, r: Database, id: Id) {
    Preserves(cat, db, r) && id in r.episodes && r.episodes[id].podcast == podcast && !r.episodes[id].sourceType.Upload?
  }

  lemma CopyFitsOrder(cat: Catalogue, db: Database, o: Order, d: Id)
    requires Sound(cat) && Structured(cat, db) && Plausible(cat, db, o)
    requires d in db.episodes && db.episodes[d].sourceId == o.source.id
    ensures CopiedEpisode(o, db.episodes[d]).sourceType == db.episodes[d].sourceType
    ensures !db.episodes[d].sourceType.Upload?
  {
  }

  lemma CopyKeeps(cat: Catalogue, db: Database, o: Order, d: Id)
    requires Sound(cat) && Structured(cat, db) && Plausible(cat, db, o) && o.podcast in db.podcasts
    requires d in db.episodes && db.episodes[d].sourceId == o.source.id
    requires forall i :: i in db.episodes && db.episodes[i].sourceId == o.source.id ==>
        db.episodes[i].podcast != o.podcast
    ensures
      var r := AddCopy(db, o, db.episodes[d]);
      r.Ok? && CreatedWell(cat, db, o.podcast, r.value.0, r.value.1)
  {
    var same := db.episodes[d];
    CopyFitsOrder(cat, db, o, d);
    CopyFits(cat, db, o, d, CopiedEpisode(o, same));
    CopyAdds(cat, db, o, same, CopyOf(db.files[same.image.value], o.user, true),
        CopyOf(db.files[same.audio.value], o.user, false));
  }

  lemma CopyAdds(cat: Catalogue, db: Database, o: Order, same: Episode, image: File, audio: File)
    requires EpisodeLinked(db, same) && same.image.Some?
    requires image == CopyOf(db.files[same.image.value], o.user, true)
    requires audio == CopyOf(db.files[same.audio.value], o.user, false)
    requires Structured(cat, db) && Fits(cat, db, image, audio, CopiedEpisode(o, same))
    ensures
      var r := AddCopy(db, o, same);
      r.Ok? && CreatedWell(cat, db, o.podcast, r.value.0, r.value.1)
  {
    AddWell(cat, db, o.podcast, image, audio, CopiedEpisode(o, same));
    assert AddCopy(db, o, same) == Ok(AddEpisode(db, image, audio, CopiedEpisode(o, same)));
  }

  lemma AddWell(cat: Catalogue, db: Database, podcast: Id, image: File, audio: File, e: Episode)
    requires Structured(cat, db) && Fits(cat, db, image, audio, e) && e.podcast == podcast
    ensures
      var (r, id) := AddEpisode(db, image, audio, e);
      CreatedWell(cat, db, podcast, r, id)
  {
    AddKeeps(cat, db, image, audio, e);
  }

  lemma FreshKeeps(cat: Catalogue, db: Database, o: Order, m: MediaInfo)
    requires Sound(cat) && Structured(cat, db) && Plausible(cat, db, o) && o.media == Some(m)
    requires o.podcast in db.podcasts
    requires forall i :: i in db.episodes ==> db.episodes[i].sourceId != o.source.id
    ensures CreatedWell(cat, db, o.podcast, AddFresh(db, o, m).0, AddFresh(db, o, m).1)
  {
    FreshFits(cat, db, o, m);
    AddKeeps(cat, db, File(Image, "", 0, m.thumbnailUrl, false, o.user, ""),
             File(Audio, "", 0, m.watchUrl, false, o.user, ""), NewEpisode(o, o.source.kind, Some(m.watchUrl)));
  }

  /** Creation keeps the rows consistent, and hands back an episode of the podcast. */
  lemma CreateKeeps(cat: Catalogue, db: Database, o: Order)
    requires Sound(cat) && Structured(cat, db) && Plausible(cat, db, o) && o.podcast in db.podcasts
    ensures
      var r := CreateEpisode(db, o);
      r.Ok? ==> CreatedWell(cat, db, o.podcast, r.value.0, r.value.1)
  {
    var same := SameEpisodes(db, o);
    forall i | i in db.episodes ensures i in same <==> db.episodes[i].sourceId == o.source.id {
    }
    var found := FindIn(db.episodes, same, o.podcast);
    if found.Some? {
      assert EpisodeSourced(cat, db, db.episodes[found.value]);
    } else if same != [] {
      assert same[0] in same;
      CopyKeeps(cat, db, o, same[0]);
    } else if o.media.Some? {
      FreshKeeps(cat, db, o, o.media.value);
    }
  }
}
