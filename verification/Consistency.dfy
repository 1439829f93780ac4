/** What every transaction keeps true of the rows.

    Episodes are updated in bulk by source key, files by source URL and feeds by source id; these
    predicates are what makes the three keys meet. */
module Consistency {
  import opened Wrappers
  import opened Rows

  const UPLOAD_HASH_LENGTH := 11

  /** The source id given to an uploaded file with this content hash. */
  function UploadId(hash: string): string {
    "upl_" + if |hash| > UPLOAD_HASH_LENGTH then hash[..UPLOAD_HASH_LENGTH] else hash
  }

  /** The media world outside: which source a watch URL belongs to (None for every other text), and
      which kind of source an id belongs to. */
  datatype Catalogue = Catalogue(origin: string -> Option<string>, kindOf: string -> SourceType)

  ghost predicate Sound(cat: Catalogue) {
    cat.origin("") == None && forall h :: cat.kindOf(UploadId(h)) == Upload
  }

  /** Foreign keys point at rows of the right kind, and ids are below the sequence. */
  ghost predicate Linked(db: Database) {
    && (forall p :: p in db.podcasts ==>
          p < db.nextId && db.podcasts[p].rss in db.files && db.files[db.podcasts[p].rss].kind == Rss)
    && (forall f :: f in db.files ==> f < db.nextId)
    && (forall i :: i in db.episodes ==> i < db.nextId && EpisodeLinked(db, db.episodes[i]))
  }

  ghost predicate EpisodeLinked(db: Database, e: Episode) {
    && e.podcast in db.podcasts
    && e.audio.Some? && e.audio.value in db.files && db.files[e.audio.value].kind == Audio
    && (e.image.Some? ==> e.image.value in db.files && db.files[e.image.value].kind == Image)
    && (!e.sourceType.Upload? ==> e.image.Some?)
  }

  /** Only audio rows carry watch URLs, those of uploads carry none, and a content hash names one audio row. */
  ghost predicate FilesSourced(cat: Catalogue, files: map<Id, File>) {
    && (forall f :: f in files && files[f].kind != Audio ==> cat.origin(files[f].sourceUrl) == None)
    && (forall f :: f in files && files[f].kind == Audio && files[f].hash != "" ==> files[f].sourceUrl == "")
    && (forall f, g :: f in files && g in files && SameUpload(files[f], files[g]) ==> f == g)
  }

  /** Every audio row is traceable to the source of its episode: by watch URL, or by content hash for uploads. */
  ghost predicate Sourced(cat: Catalogue, db: Database) {
    FilesSourced(cat, db.files) && forall i :: i in db.episodes ==> EpisodeSourced(cat, db, db.episodes[i])
  }

  predicate SameUpload(f: File, g: File) {
    f.kind == Audio && g.kind == Audio && f.hash == g.hash && f.hash != ""
  }

  ghost predicate EpisodeSourced(cat: Catalogue, db: Database, e: Episode) {
    && e.sourceType == cat.kindOf(e.sourceId)
    && (!e.sourceType.Upload? ==> cat.origin(AudioOf(db, e).sourceUrl) == Some(e.sourceId))
    && (e.sourceType.Upload? ==>
          && AudioOf(db, e).hash != "" && e.sourceId == UploadId(AudioOf(db, e).hash)
          && e.podcast in db.podcasts && e.owner == db.podcasts[e.podcast].owner)
  }

  /** Episodes of one downloadable source share the source URL of their audio rows. */
  ghost predicate Shared(db: Database) {
    forall i, j :: i in db.episodes && j in db.episodes
      && db.episodes[i].sourceId == db.episodes[j].sourceId && !db.episodes[i].sourceType.Upload?
      ==> AudioOf(db, db.episodes[i]).sourceUrl == AudioOf(db, db.episodes[j]).sourceUrl
  }

  /** Audio rows that episodes use and that share a source URL agree on path and size. */
  ghost predicate Agreed(db: Database) {
    forall i, j :: i in db.episodes && j in db.episodes ==>
        Agree(AudioOf(db, db.episodes[i]), AudioOf(db, db.episodes[j]))
  }

  ghost predicate Agree(f: File, g: File) {
    f.sourceUrl == g.sourceUrl && f.sourceUrl != "" ==> f.path == g.path && f.size == g.size
  }

  /** A podcast holds at most one episode of a source. */
  ghost predicate Single(db: Database) {
    forall i, j :: i in db.episodes && j in db.episodes
      && db.episodes[i].podcast == db.episodes[j].podcast && db.episodes[i].sourceId == db.episodes[j].sourceId
      ==> i == j
  }

  /** A published episode has a publication time and an available audio row. */
  ghost predicate Playable(db: Database) {
    forall i :: i in db.episodes && db.episodes[i].status.Published? ==> CanPlay(db, db.episodes[i])
  }

  ghost predicate CanPlay(db: Database, e: Episode) {
    e.publishedAt.Some? && e.audio.Some? && e.audio.value in db.files && AudioOf(db, e).available
  }

  /** A published episode has a publication time. */
  ghost predicate Dated(db: Database) {
    forall i :: i in db.episodes && db.episodes[i].status.Published? ==> db.episodes[i].publishedAt.Some?
  }

  ghost predicate Traceable(cat: Catalogue, db: Database) {
    Linked(db) && Sourced(cat, db) && Shared(db) && Single(db)
  }

  ghost predicate Structured(cat: Catalogue, db: Database) {
    Traceable(cat, db) && Agreed(db)
  }

  ghost predicate Consistent(cat: Catalogue, db: Database) {
    Structured(cat, db) && Playable(db)
  }

  /** The rows of `b` are as well connected as those of `a`, and published episodes stay playable. */
  ghost predicate Preserves(cat: Catalogue, a: Database, b: Database) {
    Structured(cat, b) && (Playable(a) ==> Playable(b))
  }

  /** Same rows up to episode statuses and the stored path, size and availability of files. */
  ghost predicate SameShape(a: Database, b: Database) {
    && a.podcasts == b.podcasts && a.nextId == b.nextId
    && a.episodes.Keys == b.episodes.Keys && a.files.Keys == b.files.Keys
    && (forall i :: i in a.episodes ==> EpisodeShape(a.episodes[i], b.episodes[i]))
    && (forall f :: f in a.files ==> FileShape(a.files[f], b.files[f]))
  }

  ghost predicate EpisodeShape(d: Episode, e: Episode) {
    e == d.(status := e.status, publishedAt := e.publishedAt)
  }

  ghost predicate FileShape(f: File, g: File) {
    g == f.(path := g.path, size := g.size, available := g.available)
  }

  lemma ShapeTransitive(a: Database, b: Database, c: Database)
    requires SameShape(a, b) && SameShape(b, c)
    ensures SameShape(a, c)
  {
  }

  lemma ShapeKeepsLinked(a: Database, b: Database)
    requires SameShape(a, b) && Linked(a)
    ensures Linked(b)
  {
    forall i | i in b.episodes ensures EpisodeLinked(b, b.episodes[i]) {
      assert EpisodeLinked(a, a.episodes[i]) && EpisodeShape(a.episodes[i], b.episodes[i]);
    }
    assert forall f :: f in b.files ==> FileShape(a.files[f], b.files[f]);
  }

  lemma ShapeKeepsAudio(a: Database, b: Database, i: Id)
    requires SameShape(a, b) && i in a.episodes
    ensures FileShape(AudioOf(a, a.episodes[i]), AudioOf(b, b.episodes[i]))
  {
  }

  lemma ShapeKeepsSourced(cat: Catalogue, a: Database, b: Database)
    requires SameShape(a, b) && Sourced(cat, a)
    ensures Sourced(cat, b)
  {
    forall i | i in b.episodes ensures EpisodeSourced(cat, b, b.episodes[i]) {
      assert EpisodeSourced(cat, a, a.episodes[i]) && EpisodeShape(a.episodes[i], b.episodes[i]);
      ShapeKeepsAudio(a, b, i);
    }
    assert forall f :: f in b.files ==> FileShape(a.files[f], b.files[f]);
  }

  lemma ShapeKeepsShared(a: Database, b: Database)
    requires SameShape(a, b) && Shared(a) && Single(a)
    ensures Shared(b) && Single(b)
  {
    forall i | i in b.episodes
      ensures EpisodeShape(a.episodes[i], b.episodes[i])
      ensures AudioOf(b, b.episodes[i]).sourceUrl == AudioOf(a, a.episodes[i]).sourceUrl
    {
      ShapeKeepsAudio(a, b, i);
    }
  }

  lemma ShapeKeepsTraceable(cat: Catalogue, a: Database, b: Database)
    requires SameShape(a, b) && Traceable(cat, a)
    ensures Traceable(cat, b)
  {
    ShapeKeepsLinked(a, b);
    ShapeKeepsSourced(cat, a, b);
    ShapeKeepsShared(a, b);
  }

  /** The file key meets the episode key: an audio row carries the source URL of a downloadable
      episode exactly when its own episode has the same source id, and then the same source type. */
  lemma UrlKeyIsSourceKey(cat: Catalogue, db: Database, i: Id, j: Id)
    requires Sound(cat) && Traceable(cat, db)
    requires i in db.episodes && j in db.episodes && !db.episodes[i].sourceType.Upload?
    ensures AudioOf(db, db.episodes[j]).sourceUrl == AudioOf(db, db.episodes[i]).sourceUrl
            <==> db.episodes[j].sourceId == db.episodes[i].sourceId
    ensures db.episodes[j].sourceId == db.episodes[i].sourceId ==>
              db.episodes[j].sourceType == db.episodes[i].sourceType
  {
  }

  lemma PlayableIsDated(db: Database)
    requires Playable(db)
    ensures Dated(db)
  {
    forall i | i in db.episodes && db.episodes[i].status.Published? ensures db.episodes[i].publishedAt.Some? {
      assert CanPlay(db, db.episodes[i]);
    }
  }

  /** Agreement only looks at the audio rows. */
  lemma SameAudioAgrees(a: Database, b: Database)
    requires Agreed(a) && a.episodes.Keys == b.episodes.Keys
    requires forall i :: i in a.episodes ==> AudioOf(b, b.episodes[i]) == AudioOf(a, a.episodes[i])
    ensures Agreed(b)
  {
  }

  lemma SameFilesAgree(a: Database, b: Database)
    requires Agreed(a) && SameShape(a, b) && a.files == b.files
    ensures Agreed(b)
  {
  }

  lemma SetFamilyShape(db: Database, sourceId: string, sourceType: SourceType, status: Status, published: Option<Time>)
    ensures SameShape(db, SetFamily(db, sourceId, sourceType, status, published))
  {
  }

  lemma SetStatusShape(db: Database, id: Id, status: Status)
    ensures SameShape(db, SetStatus(db, id, status))
  {
  }

  /** A bulk file update treats all rows of one URL alike, so agreement survives it. */
  lemma SetFilesShape(db: Database, url: string, p: FilePatch)
    ensures
      var r := SetFiles(db, url, p);
      SameShape(db, r) && r.episodes == db.episodes
  {
  }

  lemma SetFilesAgreed(db: Database, url: string, p: FilePatch)
    requires Agreed(db)
    ensures Agreed(SetFiles(db, url, p))
  {
  }

  lemma SetFileShape(db: Database, f: Id, p: FilePatch)
    ensures
      var r := SetFile(db, f, p);
      SameShape(db, r) && r.episodes == db.episodes
  {
  }

  /** Updating one row keeps agreement when the row carries no source URL or is nobody's audio. */
  lemma SetFileAgreed(db: Database, f: Id, p: FilePatch)
    requires Linked(db) && Agreed(db)
    requires f in db.files && (db.files[f].kind == Audio ==> db.files[f].sourceUrl == "")
    ensures Agreed(SetFile(db, f, p))
  {
  }

  /** A new row keeps that if it carries no URL and no content hash that is taken. */
  lemma InsertedFilesSourced(cat: Catalogue, files: map<Id, File>, id: Id, f: File)
    requires FilesSourced(cat, files) && id !in files && f.sourceUrl == "" && cat.origin("") == None
    requires f.kind == Audio && f.hash != "" ==> forall g :: g in files ==> !SameUpload(files[g], f)
    ensures FilesSourced(cat, files[id := f])
  {
  }
}
