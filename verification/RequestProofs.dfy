/** The requests keep the rows consistent; reuse of an uploaded episode does so under an exact condition. */
module RequestProofs {
  import opened Wrappers
  import opened Rows
  import opened Queries
  import opened Consistency
  import opened DownloadingProofs
  import opened Creation
  import opened Deletion
  import opened Requests

  // -------- inserting a file row

  lemma InsertFileKeeps(cat: Catalogue, db: Database, f: File)
    requires Structured(cat, db) && f.sourceUrl == "" && cat.origin("") == None
    requires f.kind == Audio && f.hash != "" ==> forall g :: g in db.files ==> !SameUpload(db.files[g], f)
    ensures
      var r := InsertFile(db, f);
      && Preserves(cat, db, r) && r.podcasts == db.podcasts && r.episodes == db.episodes
      && (forall g :: g in db.files ==> g in r.files && r.files[g] == db.files[g])
  {
    InsertFileLinked(db, f);
    InsertFileSourced(cat, db, f);
    InsertFileShared(db, InsertFile(db, f));
    if Playable(db) {
      InsertFilePlays(db, f);
    }
  }

  /** Rows whose episodes and audio are the same share, agree and stay single alike. */
  lemma InsertFileShared(db: Database, r: Database)
    requires Shared(db) && Single(db) && Agreed(db) && r.episodes == db.episodes
    requires forall i :: i in db.episodes ==> AudioOf(r, db.episodes[i]) == AudioOf(db, db.episodes[i])
    ensures Shared(r) && Single(r) && Agreed(r)
  {
    SameAudioAgrees(db, r);
  }

  lemma InsertFileLinked(db: Database, f: File)
    requires Linked(db)
    ensures Linked(InsertFile(db, f))
    ensures forall i :: i in db.episodes ==> AudioOf(InsertFile(db, f), db.episodes[i]) == AudioOf(db, db.episodes[i])
  {
    forall i | i in db.episodes
      ensures EpisodeLinked(InsertFile(db, f), db.episodes[i])
      ensures AudioOf(InsertFile(db, f), db.episodes[i]) == AudioOf(db, db.episodes[i])
    {
      assert EpisodeLinked(db, db.episodes[i]);
    }
  }

  lemma InsertFileSourced(cat: Catalogue, db: Database, f: File)
    requires Linked(db) && Sourced(cat, db) && f.sourceUrl == "" && cat.origin("") == None
    requires f.kind == Audio && f.hash != "" ==> forall g :: g in db.files ==> !SameUpload(db.files[g], f)
    ensures Sourced(cat, InsertFile(db, f))
  {
    InsertedFilesSourced(cat, db.files, db.nextId, f);
    InsertedEpisodesSourced(cat, db, f);
  }

  lemma InsertedEpisodesSourced(cat: Catalogue, db: Database, f: File)
    requires Linked(db) && Sourced(cat, db)
    ensures forall i :: i in db.episodes ==> EpisodeSourced(cat, InsertFile(db, f), db.episodes[i])
  {
    InsertFileLinked(db, f);
    forall i | i in db.episodes ensures EpisodeSourced(cat, InsertFile(db, f), db.episodes[i]) {
      assert EpisodeSourced(cat, db, db.episodes[i]);
    }
  }

  lemma InsertFilePlays(db: Database, f: File)
    requires Linked(db) && Playable(db)
    ensures Playable(InsertFile(db, f))
  {
  }

  // -------- the episode row of an upload

  /** What holds of the rows once audio and cover are in place. */
  ghost predicate Prepared(db: Database, u: UploadOrder, audio: Id) {
    && u.hash != "" && audio in db.files && IsUploadedAudio(db.files[audio], u.hash)
    && u.podcast in db.podcasts && db.podcasts[u.podcast].owner == u.user
    && (u.imageRow.Some? ==> u.imageRow.value in db.files && db.files[u.imageRow.value].kind == Image)
    && (u.episodeRow.Some? ==>
        u.episodeRow.value in db.episodes && IsUploadedEpisode(db.episodes[u.episodeRow.value], u))
    && (u.episodeRow.None? ==> forall i :: i in db.episodes ==> !IsUploadedEpisode(db.episodes[i], u))
  }

  lemma RepointedStays(db: Database, u: UploadOrder, audio: Id, i: Id)
    requires Linked(db) && i in db.episodes && Prepared(db, u, audio) && u.episodeRow.Some?
    ensures
      var r := WithEpisode(db, u, audio);
      && i in r.episodes && EpisodeLinked(r, r.episodes[i])
      && r.episodes[i] == db.episodes[i].(audio := r.episodes[i].audio)
      && AudioOf(r, r.episodes[i]) == if i == u.episodeRow.value then db.files[audio] else AudioOf(db, db.episodes[i])
  {
    assert EpisodeLinked(db, db.episodes[i]);
  }

  lemma RepointLinked(db: Database, u: UploadOrder, audio: Id)
    requires Linked(db) && Prepared(db, u, audio) && u.episodeRow.Some?
    ensures Linked(WithEpisode(db, u, audio))
  {
    forall i | i in db.episodes
      ensures EpisodeLinked(WithEpisode(db, u, audio), WithEpisode(db, u, audio).episodes[i])
    {
      RepointedStays(db, u, audio, i);
    }
  }

  lemma RepointSourced(cat: Catalogue, db: Database, u: UploadOrder, audio: Id)
    requires Linked(db) && Sourced(cat, db) && Prepared(db, u, audio) && u.episodeRow.Some?
    ensures Sourced(cat, WithEpisode(db, u, audio))
  {
    var r := WithEpisode(db, u, audio);
    forall i | i in db.episodes ensures EpisodeSourced(cat, r, r.episodes[i]) {
      RepointedStays(db, u, audio, i);
      assert EpisodeSourced(cat, db, db.episodes[i]);
    }
  }

  /** The audio row of an upload has no source URL. */
  lemma RepointedUrl(cat: Catalogue, db: Database, u: UploadOrder, audio: Id, i: Id)
    requires Linked(db) && Sourced(cat, db) && Prepared(db, u, audio) && u.episodeRow.Some? && i in db.episodes
    ensures
      var r := WithEpisode(db, u, audio);
      && i in r.episodes && r.episodes[i] == db.episodes[i].(audio := r.episodes[i].audio)
      && AudioOf(r, r.episodes[i]).sourceUrl == AudioOf(db, db.episodes[i]).sourceUrl
      && (AudioOf(r, r.episodes[i]) != AudioOf(db, db.episodes[i]) ==> AudioOf(r, r.episodes[i]).sourceUrl == "")
  {
    RepointedStays(db, u, audio, i);
    assert EpisodeSourced(cat, db, db.episodes[i]) && EpisodeLinked(db, db.episodes[i]);
  }

  lemma RepointAgreed(cat: Catalogue, db: Database, u: UploadOrder, audio: Id)
    requires Linked(db) && Sourced(cat, db) && Agreed(db) && Prepared(db, u, audio) && u.episodeRow.Some?
    ensures Agreed(WithEpisode(db, u, audio))
  {
    var r := WithEpisode(db, u, audio);
    forall i, j | i in r.episodes && j in r.episodes
      ensures Agree(AudioOf(r, r.episodes[i]), AudioOf(r, r.episodes[j]))
    {
      RepointedUrl(cat, db, u, audio, i);
      RepointedUrl(cat, db, u, audio, j);
      assert Agree(AudioOf(db, db.episodes[i]), AudioOf(db, db.episodes[j]));
    }
  }

  lemma RepointShared(cat: Catalogue, db: Database, u: UploadOrder, audio: Id)
    requires Linked(db) && Sourced(cat, db) && Shared(db) && Prepared(db, u, audio) && u.episodeRow.Some?
    ensures Shared(WithEpisode(db, u, audio))
  {
    var r := WithEpisode(db, u, audio);
    forall i | i in r.episodes
      ensures r.episodes[i] == db.episodes[i].(audio := r.episodes[i].audio)
      ensures AudioOf(r, r.episodes[i]).sourceUrl == AudioOf(db, db.episodes[i]).sourceUrl
    {
      RepointedUrl(cat, db, u, audio, i);
    }
    UrlsShared(db, r);
  }

  lemma UrlsShared(db: Database, r: Database)
    requires Shared(db) && r.episodes.Keys == db.episodes.Keys
    requires forall i :: i in r.episodes ==> r.episodes[i] == db.episodes[i].(audio := r.episodes[i].audio)
    requires forall i :: i in r.episodes ==>
        AudioOf(r, r.episodes[i]).sourceUrl == AudioOf(db, db.episodes[i]).sourceUrl
    ensures Shared(r)
  {
  }

  lemma RepointSingle(db: Database, u: UploadOrder, audio: Id)
    requires Single(db) && u.episodeRow.Some? && u.episodeRow.value in db.episodes
    ensures Single(WithEpisode(db, u, audio))
  {
  }

  /** Repointing an uploaded episode at an upload with the same hash prefix keeps everything but playability. */
  lemma RepointStructured(cat: Catalogue, db: Database, u: UploadOrder, audio: Id)
    requires Structured(cat, db) && Prepared(db, u, audio) && u.episodeRow.Some?
    ensures Structured(cat, WithEpisode(db, u, audio))
  {
    RepointLinked(db, u, audio);
    RepointSourced(cat, db, u, audio);
    RepointShared(cat, db, u, audio);
    RepointSingle(db, u, audio);
    RepointAgreed(cat, db, u, audio);
  }

  ghost predicate NewUpload(cat: Catalogue, db: Database, e: Episode) {
    && EpisodeLinked(db, e) && EpisodeSourced(cat, db, e) && e.sourceType.Upload? && !e.status.Published?
    && AudioOf(db, e).sourceUrl == ""
    && forall i :: i in db.episodes && db.episodes[i].sourceId == e.sourceId ==>
         db.episodes[i].podcast != e.podcast && db.episodes[i].sourceType.Upload?
  }

  lemma InsertEpisodeLinked(cat: Catalogue, db: Database, e: Episode)
    requires Linked(db) && Sourced(cat, db) && NewUpload(cat, db, e)
    ensures Linked(InsertEpisode(db, e)) && Sourced(cat, InsertEpisode(db, e))
  {
    var r := InsertEpisode(db, e);
    forall i | i in r.episodes
      ensures i < r.nextId && EpisodeLinked(r, r.episodes[i]) && EpisodeSourced(cat, r, r.episodes[i])
    {
      if i in db.episodes && i != db.nextId {
        assert EpisodeLinked(db, db.episodes[i]) && EpisodeSourced(cat, db, db.episodes[i]);
      }
    }
  }

  lemma InsertEpisodeShared(cat: Catalogue, db: Database, e: Episode)
    requires Linked(db) && Shared(db) && Single(db) && NewUpload(cat, db, e)
    ensures Shared(InsertEpisode(db, e)) && Single(InsertEpisode(db, e))
  {
  }

  lemma InsertEpisodeAgreed(cat: Catalogue, db: Database, e: Episode)
    requires Agreed(db) && NewUpload(cat, db, e)
    ensures Agreed(InsertEpisode(db, e))
  {
  }

  lemma InsertEpisodePlays(cat: Catalogue, db: Database, e: Episode)
    requires Playable(db) && NewUpload(cat, db, e)
    ensures Playable(InsertEpisode(db, e))
  {
    var r := InsertEpisode(db, e);
    forall i | i in r.episodes && r.episodes[i].status.Published? ensures CanPlay(r, r.episodes[i]) {
      assert CanPlay(db, db.episodes[i]);
    }
  }

  lemma InsertEpisodeKeeps(cat: Catalogue, db: Database, e: Episode)
    requires Structured(cat, db) && NewUpload(cat, db, e)
    ensures Preserves(cat, db, InsertEpisode(db, e))
  {
    InsertEpisodeLinked(cat, db, e);
    InsertEpisodeShared(cat, db, e);
    InsertEpisodeAgreed(cat, db, e);
    if Playable(db) {
      InsertEpisodePlays(cat, db, e);
    }
  }

  lemma PreparedFits(cat: Catalogue, db: Database, u: UploadOrder, audio: Id, e: Episode)
    requires Sound(cat) && Structured(cat, db) && Prepared(db, u, audio) && u.episodeRow.None?
    requires e == Episode(UploadId(u.hash), Upload, u.podcast, Some(audio), u.imageRow, u.user, Some(""), Downloading,
        u.now, None)
    ensures NewUpload(cat, db, e)
  {
    forall i | i in db.episodes && db.episodes[i].sourceId == e.sourceId
      ensures db.episodes[i].podcast != e.podcast && db.episodes[i].sourceType.Upload?
    {
      assert EpisodeSourced(cat, db, db.episodes[i]);
      assert !IsUploadedEpisode(db.episodes[i], u);
    }
  }

  lemma WithEpisodeStructured(cat: Catalogue, db: Database, u: UploadOrder, audio: Id)
    requires Sound(cat) && Structured(cat, db) && Prepared(db, u, audio)
    ensures Structured(cat, WithEpisode(db, u, audio))
  {
    if u.episodeRow.Some? {
      RepointStructured(cat, db, u, audio);
    } else {
      var e :=
        Episode(UploadId(u.hash), Upload, u.podcast, Some(audio), u.imageRow, u.user, Some(""), Downloading, u.now,
            None);
      PreparedFits(cat, db, u, audio, e);
      InsertEpisodeKeeps(cat, db, e);
    }
  }

  lemma PrepareKeeps(cat: Catalogue, db: Database, u: UploadOrder)
    requires Sound(cat) && Structured(cat, db) && Answered(db, u) && RequestUploaded(db, u).Ok?
    ensures
      var (a, audio) := WithAudio(db, u);
      var c := WithCover(a, u);
      && Preserves(cat, db, c) && Prepared(c, u, audio) && c.episodes == db.episodes
      && (forall g :: g in db.files ==> g in c.files && c.files[g] == db.files[g])
      && c.files[audio].available == ChosenAvailable(db, u)
  {
    var (a, audio) := WithAudio(db, u);
    if u.audioRow.None? {
      var f := File(Audio, u.path.GetOr(""), u.size.GetOr(0), "", false, u.user, u.hash);
      forall g | g in db.files ensures !SameUpload(db.files[g], f) {
        assert !IsUploadedAudio(db.files[g], u.hash);
      }
      InsertFileKeeps(cat, db, f);
    }
    if u.cover.Some? && u.imageRow.None? && u.cover.value.path.GetOr("") != "" {
      InsertFileKeeps(cat, a, File(Image, u.cover.value.path.GetOr(""), u.cover.value.size, "", true, u.user,
          u.cover.value.hash.GetOr("")));
    }
  }

  /** Whatever the hashes, an upload request keeps the rows connected and in agreement. */
  lemma RequestUploadedStructured(cat: Catalogue, db: Database, u: UploadOrder)
    requires Sound(cat) && Structured(cat, db) && Answered(db, u) && RequestUploaded(db, u).Ok?
    ensures Structured(cat, RequestUploaded(db, u).value)
  {
    PrepareKeeps(cat, db, u);
    var (a, audio) := WithAudio(db, u);
    WithEpisodeStructured(cat, WithCover(a, u), u, audio);
  }

  /** From consistent rows it keeps all invariants exactly when it does not repoint a PUBLISHED episode at an
      audio row that is not available. */
  lemma RequestUploadedKeepsIff(cat: Catalogue, db: Database, u: UploadOrder)
    requires Sound(cat) && Consistent(cat, db) && Answered(db, u) && RequestUploaded(db, u).Ok?
    ensures Consistent(cat, RequestUploaded(db, u).value) <==> !Strands(db, u)
  {
    RequestUploadedStructured(cat, db, u);
    UploadPlaysIff(cat, db, u);
  }

  /** Episode `id` of `r` is the podcast's upload with this hash: its audio row carries the whole hash, all other
      episodes are as before, and a new one starts DOWNLOADING. */
  ghost predicate HoldsUpload(db: Database, u: UploadOrder, r: Database, id: Id) {
    && id in r.episodes && r.episodes == db.episodes[id := r.episodes[id]]
    && r.episodes[id].sourceId == UploadId(u.hash) && r.episodes[id].sourceType.Upload?
    && r.episodes[id].podcast == u.podcast && r.episodes[id].owner == u.user
    && AudioOf(r, r.episodes[id]).hash == u.hash && AudioOf(r, r.episodes[id]).kind == Audio
    && (id in db.episodes ==> r.episodes[id] == db.episodes[id].(audio := r.episodes[id].audio))
    && (id !in db.episodes ==>
          && r.episodes[id].status == Downloading && r.episodes[id].createdAt == u.now
          && r.episodes[id].publishedAt.None? && r.episodes[id].image == u.imageRow
          && r.episodes[id].watchUrl == Some(""))
  }

  /** The files of an upload: old rows are as before, the audio row found is used, or else one as described, and a cover
      that was not found has a row. */
  ghost predicate FilesOfUpload(db: Database, u: UploadOrder, r: Database, id: Id)
    requires id in r.episodes
  {
    && r.podcasts == db.podcasts && (forall f :: f in db.files ==> f in r.files && r.files[f] == db.files[f])
    && (forall f :: f in r.files && f !in db.files ==>
          Some(f) == r.episodes[id].audio || (u.cover.Some? && u.imageRow.None? && CoverRow(u, r.files[f])))
    && (u.audioRow.Some? ==> r.episodes[id].audio == u.audioRow)
    && (u.audioRow.None? ==>
          AudioOf(r, r.episodes[id]) == File(Audio, u.path.GetOr(""), u.size.GetOr(0), "", false, u.user, u.hash))
    && (u.cover.Some? && u.imageRow.None? && u.cover.value.path.GetOr("") != "" ==>
          exists f :: f in r.files && f !in db.files && CoverRow(u, r.files[f]))
  }

  predicate CoverRow(u: UploadOrder, f: File)
    requires u.cover.Some?
  {
    && f.kind.Image? && Some(f.path) == u.cover.value.path && f.size == u.cover.value.size && f.available
    && f.owner == u.user && f.hash == u.cover.value.hash.GetOr("") && f.sourceUrl == ""
  }

  /** An upload is accepted exactly when the podcast is the user's and the audio is known by hash or described. It
      leaves the podcast holding it, in the episode it had for it or in a new one. */
  lemma UploadedMeans(cat: Catalogue, db: Database, u: UploadOrder)
    requires Sound(cat) && Structured(cat, db) && Answered(db, u)
    ensures
      var known := exists f :: f in db.files && db.files[f].kind.Audio? && db.files[f].hash == u.hash;
      var described := u.path.GetOr("") != "" && u.size.Some?;
      var r := RequestUploaded(db, u);
      && (r.Ok? <==> u.podcast in db.podcasts && db.podcasts[u.podcast].owner == u.user && (known || described))
      && (r.Err? ==> r.error == NotFoundError)
      && (r.Ok? ==> exists id ::
            HoldsUpload(db, u, r.value, id) && FilesOfUpload(db, u, r.value, id)
                && (u.episodeRow.Some? ==> id in db.episodes))
  {
    UploadAcceptedIff(db, u);
    if RequestUploaded(db, u).Ok? {
      PrepareKeeps(cat, db, u);
      var (a, audio) := WithAudio(db, u);
      var c := WithCover(a, u);
      var id := u.episodeRow.GetOr(c.nextId);
      EpisodePlaced(c, u, audio);
      HeldInSame(c, db, u, RequestUploaded(db, u).value, id);
      FilesPlaced(db, u, id);
    }
  }

  /** The cover a new episode points at is an image of the user's with the cover's hash; it has none only if there is no
      such image. */
  lemma CoverIsOwn(db: Database, u: UploadOrder, hash: string)
    requires Answered(db, u) && hash != ""
    ensures u.imageRow.Some? ==> u.imageRow.value in db.files && db.files[u.imageRow.value].kind == Image
                                 && db.files[u.imageRow.value].owner == u.user && u.cover.Some?
                                 && u.cover.value.hash == Some(db.files[u.imageRow.value].hash)
    ensures u.imageRow.None? && u.cover.Some? && u.cover.value.hash == Some(hash) ==>
              forall f :: f in db.files && db.files[f].kind == Image && db.files[f].owner == u.user ==>
                db.files[f].hash != hash
  {
    if u.imageRow.None? && u.cover.Some? && u.cover.value.hash == Some(hash) {
      forall f | f in db.files && db.files[f].kind == Image && db.files[f].owner == u.user
        ensures db.files[f].hash != hash
      {
        assert !IsCoverOf(db.files[f], u.cover, u.user);
      }
    }
  }

  lemma UploadAcceptedIff(db: Database, u: UploadOrder)
    requires Answered(db, u)
    ensures
      var known := exists f :: f in db.files && db.files[f].kind.Audio? && db.files[f].hash == u.hash;
      var described := u.path.GetOr("") != "" && u.size.Some?;
      RequestUploaded(db, u).Ok?
      <==> u.podcast in db.podcasts && db.podcasts[u.podcast].owner == u.user && (known || described)
  {
    if u.audioRow.None? {
      forall f | f in db.files && db.files[f].kind.Audio? ensures db.files[f].hash != u.hash {
        assert !IsUploadedAudio(db.files[f], u.hash);
      }
    }
  }

  lemma FilesPlaced(db: Database, u: UploadOrder, id: Id)
    requires Linked(db) && Answered(db, u) && RequestUploaded(db, u).Ok?
    requires id in RequestUploaded(db, u).value.episodes
    requires id == u.episodeRow.GetOr(WithCover(WithAudio(db, u).0, u).nextId)
    ensures FilesOfUpload(db, u, RequestUploaded(db, u).value, id)
  {
    AudioPlaced(db, u);
    CoverPlaced(WithAudio(db, u).0, u);
    FilesUntouched(WithCover(WithAudio(db, u).0, u), u, WithAudio(db, u).1);
  }

  lemma AudioPlaced(db: Database, u: UploadOrder)
    requires Linked(db) && Answered(db, u)
    ensures
      var (a, audio) := WithAudio(db, u);
      && (forall f :: f in db.files ==> f in a.files && a.files[f] == db.files[f])
      && (forall f :: f in a.files ==> f < a.nextId) && audio in a.files && a.podcasts == db.podcasts
      && (forall f :: f in a.files && f !in db.files ==> f == audio)
      && (u.audioRow.Some? ==> audio == u.audioRow.value)
      && (u.audioRow.None? ==>
            a.files[audio] == File(Audio, u.path.GetOr(""), u.size.GetOr(0), "", false, u.user, u.hash))
  {
  }

  lemma CoverPlaced(a: Database, u: UploadOrder)
    requires forall f :: f in a.files ==> f < a.nextId
    ensures
      var c := WithCover(a, u);
      && (forall f :: f in a.files ==> f in c.files && c.files[f] == a.files[f]) && c.podcasts == a.podcasts
      && (forall f :: f in c.files && f !in a.files ==> u.cover.Some? && u.imageRow.None? && CoverRow(u, c.files[f]))
      && (u.cover.Some? && u.imageRow.None? && u.cover.value.path.GetOr("") != "" ==>
            a.nextId in c.files && a.nextId !in a.files && CoverRow(u, c.files[a.nextId]))
  {
  }

  lemma FilesUntouched(c: Database, u: UploadOrder, audio: Id)
    ensures
      var r := WithEpisode(c, u, audio);
      && r.files == c.files && r.podcasts == c.podcasts
      && (u.episodeRow.Some? && u.episodeRow.value in c.episodes ==>
          r.episodes[u.episodeRow.value].audio == Some(audio))
      && (u.episodeRow.None? ==> r.episodes[c.nextId].audio == Some(audio))
  {
  }

  lemma HeldInSame(c: Database, db: Database, u: UploadOrder, r: Database, id: Id)
    requires HoldsUpload(c, u, r, id) && c.episodes == db.episodes
    ensures HoldsUpload(db, u, r, id)
  {
  }

  lemma EpisodePlaced(c: Database, u: UploadOrder, audio: Id)
    requires Linked(c) && Prepared(c, u, audio)
    ensures HoldsUpload(c, u, WithEpisode(c, u, audio), u.episodeRow.GetOr(c.nextId))
    ensures u.episodeRow.Some? ==> WithEpisode(c, u, audio).episodes.Keys == c.episodes.Keys
  {
  }

  lemma UploadPlaysIff(cat: Catalogue, db: Database, u: UploadOrder)
    requires Sound(cat) && Consistent(cat, db) && Answered(db, u) && RequestUploaded(db, u).Ok?
    ensures Playable(RequestUploaded(db, u).value) <==> !Strands(db, u)
  {
    PrepareKeeps(cat, db, u);
    var (a, audio) := WithAudio(db, u);
    RepointPlays(WithCover(a, u), u, audio);
  }

  lemma RepointPlays(db: Database, u: UploadOrder, audio: Id)
    requires Linked(db) && Playable(db) && Prepared(db, u, audio)
    ensures
      var published := u.episodeRow.Some? && db.episodes[u.episodeRow.value].status == Published;
      Playable(WithEpisode(db, u, audio)) <==> !published || db.files[audio].available
  {
    var r := WithEpisode(db, u, audio);
    forall i | i in db.episodes && db.episodes[i].status.Published? && Some(i) != u.episodeRow
      ensures CanPlay(r, r.episodes[i])
    {
      assert CanPlay(db, db.episodes[i]);
    }
    if u.episodeRow.Some? && db.episodes[u.episodeRow.value].status.Published? {
      assert CanPlay(db, db.episodes[u.episodeRow.value]);
      assert CanPlay(r, r.episodes[u.episodeRow.value]) <==> db.files[audio].available;
    }
  }

  // -------- the other requests

  lemma RequestDownloadKeeps(cat: Catalogue, db: Database, user: Id, id: Id)
    requires Structured(cat, db)
    ensures RequestDownload(db, user, id).Ok? ==> Preserves(cat, db, RequestDownload(db, user, id).value)
  {
    if RequestDownload(db, user, id).Ok? {
      MarkKeeps(cat, db, id, Downloading);
    }
  }

  lemma RequestCancelKeeps(cat: Catalogue, db: Database, user: Id, id: Id)
    requires Structured(cat, db)
    ensures RequestCancel(db, user, id).Ok? ==> Preserves(cat, db, RequestCancel(db, user, id).value)
  {
    if RequestCancel(db, user, id).Ok? {
      MarkKeeps(cat, db, id, Canceling);
    }
  }

  lemma RequestDeleteKeeps(cat: Catalogue, db: Database, user: Id, id: Id)
    requires Structured(cat, db)
    ensures RequestDelete(db, user, id).Ok? ==> Preserves(cat, db, RequestDelete(db, user, id).value)
  {
    if RequestDelete(db, user, id).Ok? {
      SafeDeleteRemoves(db, id);
      RemovalKeeps(cat, db, {id}, SafeDelete(db, id).value);
    }
  }

  lemma RequestCreateKeeps(cat: Catalogue, db: Database, o: Order)
    requires Sound(cat) && Structured(cat, db) && Plausible(cat, db, o)
    ensures RequestCreate(db, o).Ok? ==> Preserves(cat, db, RequestCreate(db, o).value)
  {
    if o.podcast in db.podcasts && CreateEpisode(db, o).Ok? {
      CreateKeeps(cat, db, o);
      var (r, id) := CreateEpisode(db, o).value;
      MarkKeeps(cat, r, id, Downloading);
    }
  }
}
