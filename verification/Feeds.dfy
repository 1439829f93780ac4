/** Rendering and uploading podcast feeds. */
module Feeds {
  import opened Wrappers
  import opened Rows
  import opened Queries
  import opened Naming
  import opened Consistency

  /** The rows, the audio objects in storage (key to size), and the uploaded feeds: for each podcast
      the episodes its feed lists, in order. */
  datatype State = State(db: Database, objects: map<string, nat>, feeds: map<Id, seq<Id>>)

  /** What the world answers during a feed run: the order in which rows are visited, the podcasts whose
      rendering raises, those whose upload is refused, and the sizes of the rendered files. */
  datatype FeedWorld = FeedWorld(
    scan: seq<Id>,
    podcastScan: seq<Id>,
    broken: set<Id>,
    refused: set<Id>,
    sizes: map<Id, nat>)

  predicate InFeed(e: Episode, p: Id) {
    e.podcast == p && e.status.Published? && e.publishedAt.Some?
  }

  /** The episodes a feed of podcast `p` is rendered from. */
  function FeedItems(episodes: map<Id, Episode>, scan: seq<Id>, p: Id): (items: seq<Id>)
    requires Distinct(scan)
    ensures Lists(episodes, scan, e => InFeed(e, p), items)
    ensures forall i :: i in items <==>
              && i in scan && i in episodes && episodes[i].podcast == p
              && episodes[i].status == Published && episodes[i].publishedAt.Some?
  {
    Select(episodes, scan, e => InFeed(e, p))
  }

  function FeedPatch(cfg: Settings, podcast: Podcast, size: nat): FilePatch {
    FilePatch(Some(Join(cfg.rssPrefix, podcast.publishId + ".xml")), Some(size), Some(true))
  }

  function FeedSize(w: FeedWorld, p: Id): nat {
    if p in w.sizes then w.sizes[p] else 0
  }

  /** `_generate` when rendering does not raise. */
  function GenerateOne(cfg: Settings, s: State, p: Id, w: FeedWorld): State
    requires p in s.db.podcasts && Distinct(w.scan)
  {
    if p in w.refused then s
    else
      s.(feeds := s.feeds[p := FeedItems(s.db.episodes, w.scan, p)],
         db := SetFile(s.db, s.db.podcasts[p].rss, FeedPatch(cfg, s.db.podcasts[p], FeedSize(w, p))))
  }

  /** `GenerateRSSTask.run` over the selected podcasts; false when a rendering raised. */
  function Generate(cfg: Settings, s: State, rows: seq<Id>, w: FeedWorld): (State, bool)
    requires forall p :: p in rows ==> p in s.db.podcasts
    requires Distinct(w.scan)
    decreases rows
  {
    if rows == [] then (s, true)
    else if rows[0] in w.broken then (s, false)
    else Generate(cfg, GenerateOne(cfg, s, rows[0], w), rows[1..], w)
  }

  /** The podcasts holding an episode of the source. */
  function Holders(episodes: map<Id, Episode>, sourceId: string): set<Id> {
    set i | i in episodes && episodes[i].sourceId == sourceId :: episodes[i].podcast
  }

  /** Those podcasts' rows, in the order the query yields them. */
  function Affected(db: Database, sourceId: string, w: FeedWorld): (rows: seq<Id>)
    ensures forall p :: p in rows ==> p in db.podcasts
    ensures forall p :: p in rows <==> p in w.podcastScan && p in db.podcasts && p in Holders(db.episodes, sourceId)
    ensures Distinct(w.podcastScan) ==> Distinct(rows)
  {
    Where(db.podcasts, w.podcastScan, Holders(db.episodes, sourceId))
  }

  /** `_update_all_rss`. */
  function RefreshFeeds(cfg: Settings, s: State, sourceId: string, w: FeedWorld): (State, bool)
    requires Distinct(w.scan)
  {
    Generate(cfg, s, Affected(s.db, sourceId, w), w)
  }

  /** Rows and objects that a feed run leaves alone: everything but the feeds' own file rows. */
  ghost predicate OnlyFeedRows(a: State, b: State) {
    && SameShape(a.db, b.db) && b.db.episodes == a.db.episodes && b.objects == a.objects
    && forall f :: f in a.db.files && a.db.files[f].kind != Rss ==> b.db.files[f] == a.db.files[f]
  }

  lemma GenerateOneTouches(cfg: Settings, s: State, p: Id, w: FeedWorld)
    requires p in s.db.podcasts && Distinct(w.scan) && Linked(s.db)
    ensures OnlyFeedRows(s, GenerateOne(cfg, s, p, w)) && Linked(GenerateOne(cfg, s, p, w).db)
  {
    if p !in w.refused {
      var row, patch := s.db.podcasts[p].rss, FeedPatch(cfg, s.db.podcasts[p], FeedSize(w, p));
      SetFileShape(s.db, row, patch);
      ShapeKeepsLinked(s.db, SetFile(s.db, row, patch));
    }
  }

  lemma OnlyFeedRowsOn(a: State, b: State, c: State)
    requires OnlyFeedRows(a, b) && OnlyFeedRows(b, c)
    ensures OnlyFeedRows(a, c)
  {
  }

  lemma {:induction false} GenerateTouches(cfg: Settings, s: State, rows: seq<Id>, w: FeedWorld)
    requires forall p :: p in rows ==> p in s.db.podcasts
    requires Distinct(w.scan) && Linked(s.db)
    ensures OnlyFeedRows(s, Generate(cfg, s, rows, w).0)
    decreases rows
  {
    if rows != [] && rows[0] !in w.broken {
      var t := GenerateOne(cfg, s, rows[0], w);
      GenerateOneTouches(cfg, s, rows[0], w);
      GenerateTouches(cfg, t, rows[1..], w);
      OnlyFeedRowsOn(s, t, Generate(cfg, t, rows[1..], w).0);
    }
  }

  lemma {:induction false} GenerateLeavesEpisodes(cfg: Settings, s: State, rows: seq<Id>, w: FeedWorld)
    requires forall p :: p in rows ==> p in s.db.podcasts
    requires Distinct(w.scan)
    ensures
      var r := Generate(cfg, s, rows, w).0;
      r.db.episodes == s.db.episodes && r.objects == s.objects
    decreases rows
  {
    if rows != [] && rows[0] !in w.broken {
      GenerateLeavesEpisodes(cfg, GenerateOne(cfg, s, rows[0], w), rows[1..], w);
    }
  }

  lemma {:induction false} GenerateSucceeds(cfg: Settings, s: State, rows: seq<Id>, w: FeedWorld)
    requires forall p :: p in rows ==> p in s.db.podcasts
    requires Distinct(w.scan)
    ensures Generate(cfg, s, rows, w).1 <==> forall p :: p in rows ==> p !in w.broken
    decreases rows
  {
    if rows != [] {
      assert rows == [rows[0]] + rows[1..];
      if rows[0] !in w.broken {
        GenerateSucceeds(cfg, GenerateOne(cfg, s, rows[0], w), rows[1..], w);
      }
    }
  }

  /** A complete feed run at once: the feeds whose upload is accepted list their published episodes,
      and the other feeds stay. */
  lemma {:induction false} GenerateFeeds(cfg: Settings, s: State, rows: seq<Id>, w: FeedWorld)
    requires forall p :: p in rows ==> p in s.db.podcasts
    requires Distinct(rows) && Distinct(w.scan)
    ensures
      var (r, ok) := Generate(cfg, s, rows, w);
      && (forall p :: p !in rows || p in w.refused ==> (p in r.feeds <==> p in s.feeds))
      && (forall p :: (p !in rows || p in w.refused) && p in s.feeds ==> r.feeds[p] == s.feeds[p])
      && (ok ==> forall p :: p in rows && p !in w.refused ==>
            p in r.feeds && r.feeds[p] == FeedItems(s.db.episodes, w.scan, p))
    decreases rows
  {
    if rows != [] && rows[0] !in w.broken {
      var t := GenerateOne(cfg, s, rows[0], w);
      assert t.db.episodes == s.db.episodes;
      assert rows == [rows[0]] + rows[1..] && rows[0] !in rows[1..];
      GenerateFeeds(cfg, t, rows[1..], w);
    }
  }
}
