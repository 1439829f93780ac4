/** `GenerateRSSTask`, step by step. */
module RssTask {
  import opened Wrappers
  import opened Rows
  import opened Queries
  import opened Naming
  import opened Consistency
  import opened Feeds
  import opened Downloading
  import opened Transactions
  import opened Repositories

  /** The codes of the podcasts handled so far. */
  ghost predicate IsResult(results: map<Id, Code>, done: seq<Id>, refused: set<Id>) {
    (forall p :: p in results <==> p in done) && forall p :: p in results ==> results[p] == CodeFor(p, refused)
  }

  function CodeFor(podcast: Id, refused: set<Id>): Code {
    if podcast in refused then ERROR else SUCCESS
  }

  lemma ResultsGrow(results: map<Id, Code>, podcasts: seq<Id>, k: nat, refused: set<Id>)
    requires k < |podcasts| && IsResult(results, podcasts[..k], refused)
    ensures IsResult(results[podcasts[k] := CodeFor(podcasts[k], refused)], podcasts[..k + 1], refused)
  {
  }

  /** The podcast's feed row, if there is one, records the uploaded feed under the podcast's own name. */
  ghost predicate FeedRowSays(cfg: Settings, db: Database, podcast: Id, size: nat)
    requires podcast in db.podcasts
  {
    var f := db.podcasts[podcast].rss;
    f in db.files ==>
      && db.files[f].path == Join(cfg.rssPrefix, db.podcasts[podcast].publishId + ".xml")
      && db.files[f].size == size && db.files[f].available
  }

  /** Rendering the next podcast first is what the rest of the run expects, unless it raises. */
  lemma GenerateStep(cfg: Settings, s: State, podcasts: seq<Id>, k: nat, w: FeedWorld)
    requires Distinct(w.scan) && k < |podcasts|
    requires forall p :: p in podcasts ==> p in s.db.podcasts
    ensures forall j :: 0 <= j <= |podcasts| ==> forall p :: p in podcasts[j..] ==> p in podcasts
    ensures podcasts[k] in s.db.podcasts
    ensures GenerateOne(cfg, s, podcasts[k], w).db.podcasts == s.db.podcasts
    ensures
      Generate(cfg, s, podcasts[k..], w)
      == if podcasts[k] in w.broken then (s, false)
         else Generate(cfg, GenerateOne(cfg, s, podcasts[k], w), podcasts[k + 1..], w)
  {
    assert podcasts[k..] == [podcasts[k]] + podcasts[k + 1..];
  }

  /** Some code is ERROR exactly when some upload was refused. */
  lemma WorstResult(results: map<Id, Code>, podcasts: seq<Id>, refused: set<Id>)
    requires IsResult(results, podcasts, refused)
    ensures (exists p :: p in results && results[p] == ERROR) <==> (exists p :: p in podcasts && p in refused)
  {
    if p :| p in podcasts && p in refused {
      assert p in results && results[p] == ERROR;
    }
  }

  class GenerateRssTask {
    const cfg: Settings
    const session: DbSession
    const files: FileRepository

    constructor (cfg: Settings, session: DbSession)
      ensures this.cfg == cfg && this.session == session && files.session == session && fresh(files)
    {
      this.cfg := cfg;
      this.session := session;
      this.files := new FileRepository(session);
    }

    /** The podcasts to render: those asked for, or all when none is named. */
    function Asked(podcastIds: seq<Id>): set<Id>
      reads session
    {
      if podcastIds == [] then session.rows.podcasts.Keys else set p | p in podcastIds
    }

    /** `run`; None when a rendering raised. */
    method Run(podcastIds: seq<Id>, w: FeedWorld) returns (code: Option<Code>)
      requires files.session == session && Distinct(w.scan)
      modifies session`rows, session.store`feeds
      ensures
        var asked := if podcastIds == [] then old(session.rows.podcasts).Keys else set p | p in podcastIds;
        var podcasts := Where(old(session.rows.podcasts), w.podcastScan, asked);
        && (session.View(), code.Some?) == Generate(cfg, old(session.View()), podcasts, w)
        && (code.Some? ==> code.value == if exists p :: p in podcasts && p in w.refused then ERROR else SUCCESS)
    {
      var podcasts := Where(session.rows.podcasts, w.podcastScan, Asked(podcastIds));
      var results: map<Id, Code> := map[];
      var k := 0;
      while k < |podcasts|
        invariant 0 <= k <= |podcasts|
        invariant forall p :: p in podcasts ==> p in session.rows.podcasts
        invariant forall p :: p in podcasts[k..] ==> p in podcasts
        invariant Generate(cfg, session.View(), podcasts[k..], w) == Generate(cfg, old(session.View()), podcasts, w)
        invariant IsResult(results, podcasts[..k], w.refused)
      {
        var podcast := podcasts[k];
        GenerateStep(cfg, session.View(), podcasts, k, w);
        if podcast in w.broken {
          return None;
        }
        var result := GeneratePodcast(podcast, w);
        ResultsGrow(results, podcasts, k, w.refused);
        results := results[podcast := result];
        k := k + 1;
      }
      assert podcasts[..|podcasts|] == podcasts && podcasts[|podcasts|..] == [];
      WorstResult(results, podcasts, w.refused);
      if exists p :: p in results && results[p] == ERROR {
        return Some(ERROR);
      }
      return Some(SUCCESS);
    }

    /** `_generate`, when the template renders: if the upload is accepted, the podcast's feed lists its PUBLISHED
        episodes
        and its feed row says where, and nothing else changes; if it is refused, nothing does. */
    method GeneratePodcast(podcast: Id, w: FeedWorld) returns (code: Code)
      requires files.session == session && podcast in session.rows.podcasts && Distinct(w.scan)
      modifies session`rows, session.store`feeds
      ensures session.View() == GenerateOne(cfg, old(session.View()), podcast, w)
      ensures code == CodeFor(podcast, w.refused)
      ensures session.rows.episodes == old(session.rows.episodes) && session.rows.podcasts == old(session.rows.podcasts)
      ensures session.rows.files - {old(session.rows.podcasts)[podcast].rss}
              == old(session.rows.files) - {old(session.rows.podcasts)[podcast].rss}
      ensures session.store.feeds - {podcast} == old(session.store.feeds) - {podcast}
      ensures code == ERROR ==> session.rows == old(session.rows) && session.store.feeds == old(session.store.feeds)
      ensures code == SUCCESS ==>
                && podcast in session.store.feeds
                && Lists(session.rows.episodes, w.scan, e => InFeed(e, podcast), session.store.feeds[podcast])
                && FeedRowSays(cfg, session.rows, podcast, if podcast in w.sizes then w.sizes[podcast] else 0)
    {
      var episodes := FeedItems(session.rows.episodes, w.scan, podcast);
      if podcast in w.refused {
        return ERROR;
      }
      session.store.feeds := session.store.feeds[podcast := episodes];
      var row := session.rows.podcasts[podcast];
      files.UpdateById(row.rss, FeedPatch(cfg, row, FeedSize(w, podcast)));
      return SUCCESS;
    }
  }
}
