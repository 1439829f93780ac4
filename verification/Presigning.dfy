/** Presigned links and their cache: what a served link is still good for. */
module Presigning {
  import opened Wrappers
  import opened Clock

  /** What the storage signs: an object key and the time of signing. It opens the object until
      `signedAt` plus the link lifetime. */
  datatype Link = Link(path: string, signedAt: Moment)

  datatype Entry = Entry(link: Link, cachedAt: Moment)

  datatype Config = Config(linkFor: nat, cacheFor: nat)

  datatype LinkError = CacheError

  predicate Opens(cfg: Config, link: Link, now: Moment) {
    now < link.signedAt + cfg.linkFor
  }

  /** What the cache answers: an entry is gone once its time to live has passed. */
  function Lookup(cfg: Config, cache: map<string, Entry>, path: string, now: Moment): Option<Link> {
    if path in cache && now < cache[path].cachedAt + cfg.cacheFor then Some(cache[path].link) else None
  }

  // -------- the cache over a run of overlapping requests

  /** The cache operations, as they reach the cache, whichever request they come from. */
  datatype Event =
    | Read(path: string, at: Moment)
    | Write(path: string, link: Link, at: Moment)
    | Evict(path: string, at: Moment)

  /** A time to live of zero is refused by the cache, so nothing is stored then. */
  function After(cfg: Config, cache: map<string, Entry>, e: Event): map<string, Entry> {
    match e
    case Read(_, _) => cache
    case Write(path, link, at) => if cfg.cacheFor > 0 then cache[path := Entry(link, at)] else cache
    case Evict(path, _) => cache - {path}
  }

  function CacheOf(cfg: Config, events: seq<Event>): map<string, Entry>
    decreases |events|
  {
    if events == [] then map[] else After(cfg, CacheOf(cfg, events[..|events| - 1]), events[|events| - 1])
  }

  /** Every write stores a link to its own path, signed before, with at most `delay` in between. */
  predicate Prompt(events: seq<Event>, delay: nat) {
    forall k :: 0 <= k < |events| && events[k].Write? ==>
      && events[k].link.path == events[k].path
      && events[k].link.signedAt <= events[k].at <= events[k].link.signedAt + delay
  }

  predicate Touches(e: Event, path: string) {
    !e.Read? && e.path == path
  }

  /** `k` is the write that the cache still holds for `path`. */
  predicate IsHeld(events: seq<Event>, path: string, k: nat) {
    && k < |events| && events[k].Write? && events[k].path == path
    && forall j :: k < j < |events| ==> !Touches(events[j], path)
  }

  /** The cache holds exactly the last write to a path, unless it was evicted since. */
  lemma {:induction false} CacheHoldsLastWrite(cfg: Config, events: seq<Event>, path: string)
    ensures path in CacheOf(cfg, events) <==> cfg.cacheFor > 0 && exists k: nat :: IsHeld(events, path, k)
    ensures forall k: nat :: IsHeld(events, path, k) && path in CacheOf(cfg, events) ==>
              CacheOf(cfg, events)[path] == Entry(events[k].link, events[k].at)
    decreases |events|
  {
    if events != [] {
      var n := |events| - 1;
      var before := events[..n];
      CacheHoldsLastWrite(cfg, before, path);
      if Touches(events[n], path) {
        assert events[n].Write? ==> IsHeld(events, path, n);
        assert forall k: nat :: IsHeld(events, path, k) ==> k == n;
      } else {
        forall k: nat ensures IsHeld(events, path, k) <==> IsHeld(before, path, k) {
          assert forall j :: 0 <= j < n ==> before[j] == events[j];
        }
      }
    }
  }

  /** The link last written to a path is served until its time to live has passed, unless it is evicted before; without
      such a write nothing is. */
  lemma HeldLinkIsServed(cfg: Config, events: seq<Event>, path: string, now: Moment)
    requires cfg.cacheFor > 0
    ensures forall k: nat :: IsHeld(events, path, k) ==>
              Lookup(cfg, CacheOf(cfg, events), path, now)
              == if now < events[k].at + cfg.cacheFor then Some(events[k].link) else None
    ensures (forall k: nat :: !IsHeld(events, path, k)) ==> Lookup(cfg, CacheOf(cfg, events), path, now) == None
  {
    CacheHoldsLastWrite(cfg, events, path);
  }

  /** Every link the cache serves, at any time in any run, was signed for the requested path, was stored
      by an earlier write of the run, and is still good for more than the link lifetime less the cache
      lifetime less the time that write took to store it. */
  lemma ServedLinkLasts(cfg: Config, events: seq<Event>, path: string, now: Moment, delay: nat)
    requires Prompt(events, delay) && Lookup(cfg, CacheOf(cfg, events), path, now).Some?
    ensures
      var link := Lookup(cfg, CacheOf(cfg, events), path, now).value;
      exists k: nat ::
        && IsHeld(events, path, k) && events[k].link == link && link.path == path
        && link.signedAt + cfg.linkFor - now > cfg.linkFor - cfg.cacheFor - (events[k].at - link.signedAt)
  {
    CacheHoldsLastWrite(cfg, events, path);
    var k: nat :| IsHeld(events, path, k);
    assert CacheOf(cfg, events)[path] == Entry(events[k].link, events[k].at);
  }

  /** No run with writes delayed by at most `delay` serves a link that no longer opens its object, exactly
      when cache lifetime and delay fit into the link lifetime. */
  lemma ServedLinksOpenIff(cfg: Config, delay: nat)
    requires cfg.cacheFor > 0
    ensures cfg.cacheFor + delay <= cfg.linkFor <==> NeverServesExpired(cfg, delay)
  {
    if cfg.cacheFor + delay <= cfg.linkFor {
      forall events: seq<Event>, path: string, now: Moment | Prompt(events, delay)
        ensures IsServedOpen(cfg, events, path, now)
      {
        if Lookup(cfg, CacheOf(cfg, events), path, now).Some? {
          ServedLinkLasts(cfg, events, path, now, delay);
        }
      }
    } else {
      var events := [Write("key", Link("key", 0), delay)];
      var now := delay + cfg.cacheFor - 1;
      assert events[..0] == [];
      assert CacheOf(cfg, events) == map["key" := Entry(Link("key", 0), delay)];
      assert Prompt(events, delay) && !IsServedOpen(cfg, events, "key", now);
    }
  }

  predicate IsServedOpen(cfg: Config, events: seq<Event>, path: string, now: Moment) {
    var served := Lookup(cfg, CacheOf(cfg, events), path, now);
    served.Some? ==> Opens(cfg, served.value, now)
  }

  ghost predicate NeverServesExpired(cfg: Config, delay: nat) {
    forall events: seq<Event>, path: string, now: Moment :: Prompt(events, delay) ==>
        IsServedOpen(cfg, events, path, now)
  }

  // -------- one request

  /** When the request reads the cache, signs, and writes the cache. */
  datatype LinkTimes = LinkTimes(read: Moment, sign: Moment, write: Moment)

  class LinkStore {
    const cfg: Config
    var cache: map<string, Entry>
    /** The cache operations so far. */
    ghost var events: seq<Event>

    constructor (cfg: Config)
      ensures this.cfg == cfg && cache == map[] && events == []
    {
      this.cfg := cfg;
      cache := map[];
      events := [];
    }

    ghost predicate Valid()
      reads this
    {
      cache == CacheOf(cfg, events)
    }

    /** `get_presigned_url`; `signed` says whether the storage answered. */
    method GetPresignedUrl(path: string, signed: bool, t: LinkTimes) returns (r: Result<Option<Link>, LinkError>)
      requires Valid() && t.read <= t.sign <= t.write
      modifies this`cache, this`events
      ensures Valid() && old(events) <= events
      ensures r == (
          var cached := Lookup(cfg, old(cache), path, t.read);
          if cached.Some? then Ok(cached)
          else if !signed then Ok(None)
          else if cfg.cacheFor == 0 then Err(CacheError)
          else Ok(Some(Link(path, t.sign))))
      ensures forall delay: nat :: Prompt(old(events), delay) && t.write - t.sign <= delay ==> Prompt(events, delay)
      ensures forall delay: nat :: Prompt(old(events), delay) && t.write - t.sign <= delay && r.Ok? && r.value.Some? ==>
                r.value.value.path == path
                && r.value.value.signedAt + cfg.linkFor - (if Lookup(cfg, old(cache), path, t.read).Some?
                                                              then t.read else t.write)
                   > cfg.linkFor - cfg.cacheFor - delay
    {
      var cached := Lookup(cfg, cache, path, t.read);
      events := Logged(cfg, events, cache, Read(path, t.read));
      if cached.Some? {
        ghost var before := old(events);
        forall delay: nat | Prompt(before, delay)
          ensures cached.value.path == path
          ensures cached.value.signedAt + cfg.linkFor - t.read > cfg.linkFor - cfg.cacheFor - delay
        {
          ServedLinkLasts(cfg, before, path, t.read, delay);
        }
        return Ok(cached);
      }
      if !signed {
        return Ok(None);
      }
      if cfg.cacheFor == 0 {
        return Err(CacheError);
      }
      var url := Link(path, t.sign);
      events := Logged(cfg, events, cache, Write(path, url, t.write));
      cache := cache[path := Entry(url, t.write)];
      return Ok(Some(url));
    }
  }

  /** The history with one more event, and the cache it leads to. */
  ghost function Logged(cfg: Config, events: seq<Event>, cache: map<string, Entry>, e: Event): (r: seq<Event>)
    requires cache == CacheOf(cfg, events)
    ensures r == events + [e] && CacheOf(cfg, r) == After(cfg, cache, e)
  {
    assert (events + [e])[..|events|] == events;
    events + [e]
  }
}
