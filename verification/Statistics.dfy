/** The two statistics queries: an outer join grouped by podcast, and an inner join over one podcast or
    all. Both are compared with sums over the set of episodes. */
module Statistics {
  import opened Wrappers
  import opened Rows
  import opened Queries
  import opened Consistency
  import opened Sums

  /** A row of a join: a podcast, and the episode and audio row joined to it, if any. */
  datatype Joined = Joined(podcast: Id, episode: Option<Id>, file: Option<Id>)

  /** Aggregates; sums of nothing are null. */
  datatype Totals = Totals(
    count: nat,
    duration: Option<int>,
    size: Option<int>,
    lastPublished: Option<Time>,
    lastCreated: Option<Time>)

  function JoinFile(db: Database, i: Id): Joined
    requires i in db.episodes
  {
    var e := db.episodes[i];
    Joined(e.podcast, Some(i), if e.audio.Some? && e.audio.value in db.files then e.audio else None)
  }

  /** The episodes that pass, with their audio rows, in the order visited. */
  function JoinedRows(db: Database, scan: seq<Id>, keep: Id -> bool): (rows: seq<Joined>)
    ensures forall r :: r in rows ==> r.episode.Some? && r.episode.value in db.episodes
  {
    if scan == [] then []
    else
      var rest := JoinedRows(db, scan[1..], keep);
      if scan[0] in db.episodes && keep(scan[0]) then [JoinFile(db, scan[0])] + rest else rest
  }

  predicate InPodcast(db: Database, p: Id, i: Id) {
    i in db.episodes && db.episodes[i].podcast == p
  }

  function Belonging(db: Database, p: Id): Id -> bool {
    (i: Id) => InPodcast(db, p, i)
  }

  /** Podcasts left-joined with episodes and files: a podcast without episodes gets one row of nulls. */
  function OuterJoin(db: Database, podcasts: seq<Id>, scan: seq<Id>): seq<Joined> {
    if podcasts == [] then []
    else
      var rows := JoinedRows(db, scan, Belonging(db, podcasts[0]));
      (if rows == [] then [Joined(podcasts[0], None, None)] else rows) + OuterJoin(db, podcasts[1..], scan)
  }

  function Group(rows: seq<Joined>, p: Id): seq<Joined> {
    if rows == [] then []
    else if rows[0].podcast == p then [rows[0]] + Group(rows[1..], p)
    else Group(rows[1..], p)
  }

  // -------- aggregate functions

  function CountRows(rows: seq<Joined>): nat {
    if rows == [] then 0 else (if rows[0].episode.Some? then 1 else 0) + CountRows(rows[1..])
  }

  function SumRows(rows: seq<Joined>, column: Joined -> Option<int>): Option<int> {
    if rows == [] then None
    else
      var rest := SumRows(rows[1..], column);
      if column(rows[0]).None? then rest else Some(column(rows[0]).value + rest.GetOr(0))
  }

  function MaxRows(rows: seq<Joined>, column: Joined -> Option<int>): Option<int> {
    if rows == [] then None
    else
      var rest := MaxRows(rows[1..], column);
      if column(rows[0]).None? then rest
      else if rest.None? || column(rows[0]).value >= rest.value then column(rows[0])
      else rest
  }

  // -------- columns

  function LengthColumn(db: Database, length: Id -> nat): Joined -> Option<int> {
    (r: Joined) => if r.episode.Some? then Some(length(r.episode.value) as int) else None
  }

  function SizeColumn(db: Database): Joined -> Option<int> {
    (r: Joined) => if r.file.Some? && r.file.value in db.files then Some(db.files[r.file.value].size as int) else None
  }

  function PublishedColumn(db: Database): Joined -> Option<int> {
    (r: Joined) => if r.episode.Some? && r.episode.value in db.episodes then db.episodes[r.episode.value].publishedAt
        else None
  }

  function CreatedColumn(db: Database): Joined -> Option<int> {
    (r: Joined) => if r.episode.Some? && r.episode.value in db.episodes then
        Some(db.episodes[r.episode.value].createdAt) else None
  }

  function Aggregate(db: Database, length: Id -> nat, rows: seq<Joined>): Totals {
    Totals(CountRows(rows), SumRows(rows, LengthColumn(db, length)), SumRows(rows, SizeColumn(db)),
           MaxRows(rows, PublishedColumn(db)), MaxRows(rows, CreatedColumn(db)))
  }

  /** `all_with_aggregations` without filters and paging, one podcast's entry: null sums become 0. */
  function PodcastTotals(db: Database, length: Id -> nat, podcasts: seq<Id>, scan: seq<Id>, p: Id): Totals {
    var t := Aggregate(db, length, Group(OuterJoin(db, podcasts, scan), p));
    t.(duration := Some(t.duration.GetOr(0)), size := Some(t.size.GetOr(0)))
  }

  predicate HasAudio(db: Database, i: Id) {
    i in db.episodes && db.episodes[i].audio.Some? && db.episodes[i].audio.value in db.files
  }

  predicate Selected(db: Database, podcast: Option<Id>, i: Id) {
    i in db.episodes && (podcast.GetOr(0) == 0 || db.episodes[i].podcast == podcast.value)
  }

  function Pooling(db: Database, podcast: Option<Id>): Id -> bool {
    (i: Id) => Selected(db, podcast, i) && HasAudio(db, i)
  }

  /** `get_aggregated`: an inner join with the files; no podcast, or podcast 0, means all. */
  function AggregatedTotals(db: Database, length: Id -> nat, scan: seq<Id>, podcast: Option<Id>): Totals {
    Aggregate(db, length, JoinedRows(db, scan, Pooling(db, podcast)))
  }

  // -------- folds over sets

  ghost function Passing(db: Database, scan: seq<Id>, keep: Id -> bool): set<Id> {
    set i | i in scan && i in db.episodes && keep(i)
  }

  lemma PassingStep(db: Database, scan: seq<Id>, keep: Id -> bool)
    requires scan != [] && Distinct(scan)
    ensures
      var rest := Passing(db, scan[1..], keep);
      && Distinct(scan[1..]) && scan[0] !in rest
      && Passing(db, scan, keep) == if scan[0] in db.episodes && keep(scan[0]) then rest + {scan[0]} else rest
  {
  }

  lemma {:induction false} RowsCount(db: Database, scan: seq<Id>, keep: Id -> bool)
    requires Distinct(scan)
    ensures CountRows(JoinedRows(db, scan, keep)) == |Passing(db, scan, keep)|
  {
    if scan != [] {
      PassingStep(db, scan, keep);
      RowsCount(db, scan[1..], keep);
    }
  }

  lemma {:induction false} RowsSum(db: Database, scan: seq<Id>, keep: Id -> bool, column: Joined -> Option<int>,
                                   f: Id -> int)
    requires Distinct(scan)
    requires forall i :: i in db.episodes ==> column(JoinFile(db, i)).GetOr(0) == f(i)
    ensures SumRows(JoinedRows(db, scan, keep), column).GetOr(0) == SumOver(Passing(db, scan, keep), f)
  {
    if scan != [] {
      PassingStep(db, scan, keep);
      RowsSum(db, scan[1..], keep, column, f);
      if scan[0] in db.episodes && keep(scan[0]) {
        SumAdds(Passing(db, scan[1..], keep), scan[0], f);
      }
    }
  }

  /** The greatest non-null value of the column among `ids`; null when there is none. */
  ghost predicate IsGreatest(ids: set<Id>, g: Id -> Option<int>, r: Option<int>) {
    && (r.None? ==> forall i :: i in ids ==> g(i).None?)
    && (r.Some? ==> exists i :: i in ids && g(i) == r)
    && (r.Some? ==> forall i :: i in ids && g(i).Some? ==> g(i).value <= r.value)
  }

  lemma {:induction false} RowsMax(db: Database, scan: seq<Id>, keep: Id -> bool, column: Joined -> Option<int>,
                                   g: Id -> Option<int>)
    requires Distinct(scan)
    requires forall i :: i in db.episodes ==> column(JoinFile(db, i)) == g(i)
    ensures IsGreatest(Passing(db, scan, keep), g, MaxRows(JoinedRows(db, scan, keep), column))
  {
    if scan != [] {
      PassingStep(db, scan, keep);
      RowsMax(db, scan[1..], keep, column, g);
      if scan[0] in db.episodes && keep(scan[0]) {
        GreatestAdds(Passing(db, scan[1..], keep), scan[0], g, MaxRows(JoinedRows(db, scan[1..], keep), column));
      }
    }
  }

  lemma GreatestAdds(ids: set<Id>, x: Id, g: Id -> Option<int>, r: Option<int>)
    requires IsGreatest(ids, g, r)
    ensures IsGreatest(ids + {x}, g, if g(x).None? then r else if r.None? || g(x).value >= r.value then g(x) else r)
  {
  }

  // -------- the group of a podcast

  lemma {:induction false} GroupAppends(a: seq<Joined>, b: seq<Joined>, p: Id)
    ensures Group(a + b, p) == Group(a, p) + Group(b, p)
  {
    if a == [] {
      assert a + b == b;
    } else {
      assert (a + b)[1..] == a[1..] + b;
      GroupAppends(a[1..], b, p);
    }
  }

  lemma {:induction false} GroupOfOne(rows: seq<Joined>, q: Id, p: Id)
    requires forall r :: r in rows ==> r.podcast == q
    ensures Group(rows, p) == if p == q then rows else []
  {
    if rows != [] {
      assert rows == [rows[0]] + rows[1..];
      GroupOfOne(rows[1..], q, p);
    }
  }

  lemma {:induction false} JoinedPodcast(db: Database, scan: seq<Id>, p: Id)
    ensures forall r :: r in JoinedRows(db, scan, Belonging(db, p)) ==> r.podcast == p
  {
    if scan != [] {
      JoinedPodcast(db, scan[1..], p);
    }
  }

  function OwnRows(db: Database, scan: seq<Id>, p: Id): seq<Joined> {
    JoinedRows(db, scan, Belonging(db, p))
  }

  /** Each podcast's group is its own rows, once: joining does not multiply them. */
  lemma {:induction false} GroupIsOwnRows(db: Database, podcasts: seq<Id>, scan: seq<Id>, p: Id)
    requires Distinct(podcasts)
    ensures Group(OuterJoin(db, podcasts, scan), p)
            == if p !in podcasts then [] else if OwnRows(db, scan, p) == [] then [Joined(p, None, None)]
                else OwnRows(db, scan, p)
  {
    if podcasts != [] {
      var q := podcasts[0];
      var own := OwnRows(db, scan, q);
      var rows := if own == [] then [Joined(q, None, None)] else own;
      assert podcasts == [q] + podcasts[1..];
      JoinedPodcast(db, scan, q);
      GroupOfOne(rows, q, p);
      GroupAppends(rows, OuterJoin(db, podcasts[1..], scan), p);
      GroupIsOwnRows(db, podcasts[1..], scan, p);
    }
  }

  // -------- the theorems

  ghost function EpisodesIn(db: Database, p: Id): set<Id> {
    set i | i in db.episodes && db.episodes[i].podcast == p
  }

  ghost function Pool(db: Database, podcast: Option<Id>): set<Id> {
    set i | i in db.episodes && db.episodes[i].audio.Some? && db.episodes[i].audio.value in db.files
            && (podcast.None? || podcast.value == 0 || db.episodes[i].podcast == podcast.value)
  }

  function Lengths(length: Id -> nat): Id -> int {
    (i: Id) => length(i) as int
  }

  function Sizes(db: Database): Id -> int {
    (i: Id) => if i in db.episodes then AudioOf(db, db.episodes[i]).size as int else 0
  }

  function Publications(db: Database): Id -> Option<int> {
    (i: Id) => if i in db.episodes then db.episodes[i].publishedAt else None
  }

  function Creations(db: Database): Id -> Option<int> {
    (i: Id) => if i in db.episodes then Some(db.episodes[i].createdAt) else None
  }

  /** `t` aggregates exactly the episodes `ids`, each counted once, with the size of its audio row. */
  ghost predicate Totalled(db: Database, length: Id -> nat, ids: set<Id>, t: Totals) {
    && t.count == |ids|
    && t.duration.GetOr(0) == SumOver(ids, Lengths(length))
    && t.size.GetOr(0) == SumOver(ids, Sizes(db))
    && IsGreatest(ids, Publications(db), t.lastPublished)
    && IsGreatest(ids, Creations(db), t.lastCreated)
  }

  lemma RowsTotalled(db: Database, length: Id -> nat, scan: seq<Id>, keep: Id -> bool)
    requires Distinct(scan)
    ensures Totalled(db, length, Passing(db, scan, keep), Aggregate(db, length, JoinedRows(db, scan, keep)))
  {
    RowsCount(db, scan, keep);
    RowsSum(db, scan, keep, LengthColumn(db, length), Lengths(length));
    RowsSum(db, scan, keep, SizeColumn(db), Sizes(db));
    RowsMax(db, scan, keep, PublishedColumn(db), Publications(db));
    RowsMax(db, scan, keep, CreatedColumn(db), Creations(db));
  }

  lemma NullRow(row: Joined, column: Joined -> Option<int>)
    requires column(row).None?
    ensures SumRows([row], column).None? && MaxRows([row], column).None?
  {
  }

  lemma NullsTotalled(db: Database, length: Id -> nat, p: Id)
    ensures Totalled(db, length, {}, Aggregate(db, length, [Joined(p, None, None)]))
  {
    var row := Joined(p, None, None);
    NullRow(row, LengthColumn(db, length));
    NullRow(row, SizeColumn(db));
    NullRow(row, PublishedColumn(db));
    NullRow(row, CreatedColumn(db));
    assert CountRows([row]) == 0;
  }

  /** The grouped outer join gives every podcast the totals of its own episodes, none counted twice, and
      zeros for a podcast without episodes. */
  lemma OuterJoinTotals(db: Database, length: Id -> nat, podcasts: seq<Id>, scan: seq<Id>, p: Id)
    requires Visits(podcasts, db.podcasts) && Visits(scan, db.episodes) && p in db.podcasts
    ensures Totalled(db, length, EpisodesIn(db, p), PodcastTotals(db, length, podcasts, scan, p))
    ensures PodcastTotals(db, length, podcasts, scan, p).duration.Some?
    ensures PodcastTotals(db, length, podcasts, scan, p).size.Some?
  {
    GroupIsOwnRows(db, podcasts, scan, p);
    var keep := Belonging(db, p);
    RowsTotalled(db, length, scan, keep);
    assert Passing(db, scan, keep) == EpisodesIn(db, p);
    if OwnRows(db, scan, p) == [] {
      RowsCount(db, scan, keep);
      NullsTotalled(db, length, p);
    }
  }

  lemma PoolPasses(db: Database, scan: seq<Id>, podcast: Option<Id>)
    requires Visits(scan, db.episodes)
    ensures Passing(db, scan, Pooling(db, podcast)) == Pool(db, podcast)
  {
  }

  /** The inner join totals the selected episodes that have an audio row. */
  lemma InnerJoinTotals(db: Database, length: Id -> nat, scan: seq<Id>, podcast: Option<Id>)
    requires Visits(scan, db.episodes)
    ensures Totalled(db, length, Pool(db, podcast), AggregatedTotals(db, length, scan, podcast))
  {
    RowsTotalled(db, length, scan, Pooling(db, podcast));
    PoolPasses(db, scan, podcast);
  }

  /** The two queries agree on total size for every podcast, and on the count exactly when every episode of
      the podcast has an audio row. */
  lemma QueriesAgree(db: Database, length: Id -> nat, podcasts: seq<Id>, scan: seq<Id>, scan2: seq<Id>, p: Id)
    requires Visits(podcasts, db.podcasts) && Visits(scan, db.episodes) && Visits(scan2, db.episodes)
    requires p in db.podcasts && p != 0
    ensures
      var outer, inner := PodcastTotals(db, length, podcasts, scan, p), AggregatedTotals(db, length, scan2, Some(p));
      && outer.size.GetOr(0) == inner.size.GetOr(0)
      && (outer.count == inner.count <==>
            forall i :: i in db.episodes && db.episodes[i].podcast == p ==>
              db.episodes[i].audio.Some? && db.episodes[i].audio.value in db.files)
  {
    OuterJoinTotals(db, length, podcasts, scan, p);
    InnerJoinTotals(db, length, scan2, Some(p));
    SizesAgree(db, p);
    CountsAgree(db, p);
  }

  lemma SizesAgree(db: Database, p: Id)
    requires p != 0
    ensures SumOver(EpisodesIn(db, p), Sizes(db)) == SumOver(Pool(db, Some(p)), Sizes(db))
  {
    forall i | i in EpisodesIn(db, p) && i !in Pool(db, Some(p)) ensures Sizes(db)(i) == 0 {
      assert !HasAudio(db, i);
    }
    SumSubset(Pool(db, Some(p)), EpisodesIn(db, p), Sizes(db));
  }

  lemma CountsAgree(db: Database, p: Id)
    requires p != 0
    ensures |EpisodesIn(db, p)| == |Pool(db, Some(p))|
            <==> forall i :: i in db.episodes && db.episodes[i].podcast == p ==>
                   db.episodes[i].audio.Some? && db.episodes[i].audio.value in db.files
  {
    var all, pool := EpisodesIn(db, p), Pool(db, Some(p));
    assert all == pool + (all - pool);
    assert |all| == |pool| + |all - pool|;
    if all - pool == {} {
      assert forall i :: i in db.episodes && db.episodes[i].podcast == p ==> i in pool;
    } else {
      var i :| i in all - pool;
      assert !HasAudio(db, i);
    }
  }

  /** The pools of the listed podcasts, together. */
  ghost function Pools(db: Database, podcasts: seq<Id>): set<Id> {
    set i | i in Pool(db, None) && db.episodes[i].podcast in podcasts
  }

  function CountSum(db: Database, length: Id -> nat, scan: seq<Id>, podcasts: seq<Id>): int {
    if podcasts == [] then 0
    else AggregatedTotals(db, length, scan, Some(podcasts[0])).count + CountSum(db, length, scan, podcasts[1..])
  }

  function SizeSum(db: Database, length: Id -> nat, scan: seq<Id>, podcasts: seq<Id>): int {
    if podcasts == [] then 0
    else AggregatedTotals(db, length, scan, Some(podcasts[0])).size.GetOr(0) + SizeSum(db, length, scan, podcasts[1..])
  }

  function DurationSum(db: Database, length: Id -> nat, scan: seq<Id>, podcasts: seq<Id>): int {
    if podcasts == [] then 0
    else
      AggregatedTotals(db, length, scan, Some(podcasts[0])).duration.GetOr(0)
      + DurationSum(db, length, scan, podcasts[1..])
  }

  lemma PoolsStep(db: Database, podcasts: seq<Id>)
    requires podcasts != [] && Distinct(podcasts) && 0 !in podcasts
    ensures
      var rest := Pools(db, podcasts[1..]);
      && Pools(db, podcasts) == Pool(db, Some(podcasts[0])) + rest && Pool(db, Some(podcasts[0])) !! rest
      && Distinct(podcasts[1..])
  {
  }

  lemma CountOfPool(db: Database, length: Id -> nat, scan: seq<Id>, podcast: Option<Id>)
    requires Visits(scan, db.episodes)
    ensures AggregatedTotals(db, length, scan, podcast).count == |Pool(db, podcast)|
  {
    InnerJoinTotals(db, length, scan, podcast);
  }

  lemma CountPools(db: Database, podcasts: seq<Id>)
    requires podcasts != [] && Distinct(podcasts) && 0 !in podcasts
    ensures Distinct(podcasts[1..]) && 0 !in podcasts[1..]
    ensures |Pools(db, podcasts)| == |Pool(db, Some(podcasts[0]))| + |Pools(db, podcasts[1..])|
  {
    PoolsStep(db, podcasts);
  }

  lemma {:induction false} CountOverPools(db: Database, length: Id -> nat, scan: seq<Id>, podcasts: seq<Id>)
    requires Visits(scan, db.episodes) && Distinct(podcasts) && 0 !in podcasts
    ensures CountSum(db, length, scan, podcasts) == |Pools(db, podcasts)|
  {
    if podcasts == [] {
      assert Pools(db, podcasts) == {};
    } else {
      CountPools(db, podcasts);
      CountOfPool(db, length, scan, Some(podcasts[0]));
      CountOverPools(db, length, scan, podcasts[1..]);
    }
  }

  lemma SizeOfPool(db: Database, length: Id -> nat, scan: seq<Id>, podcast: Option<Id>)
    requires Visits(scan, db.episodes)
    ensures AggregatedTotals(db, length, scan, podcast).size.GetOr(0) == SumOver(Pool(db, podcast), Sizes(db))
  {
    InnerJoinTotals(db, length, scan, podcast);
  }

  lemma DurationOfPool(db: Database, length: Id -> nat, scan: seq<Id>, podcast: Option<Id>)
    requires Visits(scan, db.episodes)
    ensures AggregatedTotals(db, length, scan, podcast).duration.GetOr(0) == SumOver(Pool(db, podcast), Lengths(length))
  {
    InnerJoinTotals(db, length, scan, podcast);
  }

  lemma AddPools(db: Database, podcasts: seq<Id>, f: Id -> int)
    requires podcasts != [] && Distinct(podcasts) && 0 !in podcasts
    ensures Distinct(podcasts[1..]) && 0 !in podcasts[1..]
    ensures SumOver(Pools(db, podcasts), f)
            == SumOver(Pool(db, Some(podcasts[0])), f) + SumOver(Pools(db, podcasts[1..]), f)
  {
    PoolsStep(db, podcasts);
    SumDisjoint(Pool(db, Some(podcasts[0])), Pools(db, podcasts[1..]), f);
  }

  lemma {:induction false} SizeOverPools(db: Database, length: Id -> nat, scan: seq<Id>, podcasts: seq<Id>)
    requires Visits(scan, db.episodes) && Distinct(podcasts) && 0 !in podcasts
    ensures SizeSum(db, length, scan, podcasts) == SumOver(Pools(db, podcasts), Sizes(db))
  {
    if podcasts == [] {
      assert Pools(db, podcasts) == {};
    } else {
      AddPools(db, podcasts, Sizes(db));
      SizeOfPool(db, length, scan, Some(podcasts[0]));
      SizeOverPools(db, length, scan, podcasts[1..]);
    }
  }

  lemma {:induction false} DurationOverPools(db: Database, length: Id -> nat, scan: seq<Id>, podcasts: seq<Id>)
    requires Visits(scan, db.episodes) && Distinct(podcasts) && 0 !in podcasts
    ensures DurationSum(db, length, scan, podcasts) == SumOver(Pools(db, podcasts), Lengths(length))
  {
    if podcasts == [] {
      assert Pools(db, podcasts) == {};
    } else {
      AddPools(db, podcasts, Lengths(length));
      DurationOfPool(db, length, scan, Some(podcasts[0]));
      DurationOverPools(db, length, scan, podcasts[1..]);
    }
  }

  /** Asked without a podcast, the query answers the sum of its answers for all podcasts. */
  lemma TotalIsSumOverPodcasts(db: Database, length: Id -> nat, podcasts: seq<Id>, scan: seq<Id>)
    requires Linked(db) && Visits(podcasts, db.podcasts) && Visits(scan, db.episodes) && 0 !in db.podcasts
    ensures
      var t := AggregatedTotals(db, length, scan, None);
      && t.count == CountSum(db, length, scan, podcasts)
      && t.size.GetOr(0) == SizeSum(db, length, scan, podcasts)
      && t.duration.GetOr(0) == DurationSum(db, length, scan, podcasts)
  {
    forall i | i in db.episodes ensures db.episodes[i].podcast in podcasts {
      assert EpisodeLinked(db, db.episodes[i]);
    }
    assert Pools(db, podcasts) == Pool(db, None);
    InnerJoinTotals(db, length, scan, None);
    CountOverPools(db, length, scan, podcasts);
    SizeOverPools(db, length, scan, podcasts);
    DurationOverPools(db, length, scan, podcasts);
  }
}
