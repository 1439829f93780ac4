/** `SELECT ... ORDER BY created_at DESC` over the episode table.

    The database promises nothing about the order of equal `created_at` values, so a query takes the
    order in which the rows happen to be visited (`scan`) as an argument: every tie order is the
    result for some scan. */
module Queries {
  import opened Rows

  ghost predicate Distinct<T>(xs: seq<T>) {
    forall i, j :: 0 <= i < j < |xs| ==> xs[i] != xs[j]
  }

  /** `scan` visits every row of the table once. */
  ghost predicate Visits<V>(scan: seq<Id>, table: map<Id, V>) {
    Distinct(scan) && forall i :: i in scan <==> i in table
  }

  ghost predicate NewestFirst(episodes: map<Id, Episode>, ids: seq<Id>)
    requires forall i :: i in ids ==> i in episodes
  {
    forall a, b :: 0 <= a < b < |ids| ==> episodes[ids[a]].createdAt >= episodes[ids[b]].createdAt
  }

  /** `ids` names the rows of `scan` that pass `keep`, each once, newest first. */
  ghost predicate Lists(episodes: map<Id, Episode>, scan: seq<Id>, keep: Episode -> bool, ids: seq<Id>) {
    && Distinct(ids)
    && (forall i :: i in ids <==> i in scan && i in episodes && keep(episodes[i]))
    && NewestFirst(episodes, ids)
  }

  function Select(episodes: map<Id, Episode>, scan: seq<Id>, keep: Episode -> bool): (ids: seq<Id>)
    requires Distinct(scan)
    ensures Lists(episodes, scan, keep, ids)
  {
    if scan == [] then []
    else
      assert Distinct(scan[1..]);
      var rest := Select(episodes, scan[1..], keep);
      assert scan == [scan[0]] + scan[1..];
      if scan[0] in episodes && keep(episodes[scan[0]]) then
        InsertLists(episodes, scan[0], rest);
        Insert(episodes, scan[0], rest)
      else rest
  }

  /** Places `x` in front of the first row that is not newer. */
  function Insert(episodes: map<Id, Episode>, x: Id, ids: seq<Id>): (r: seq<Id>)
    requires x in episodes
    requires forall i :: i in ids ==> i in episodes
    ensures forall i :: i in r <==> i == x || i in ids
  {
    if ids == [] then [x]
    else if episodes[ids[0]].createdAt > episodes[x].createdAt then [ids[0]] + Insert(episodes, x, ids[1..])
    else [x] + ids
  }

  lemma {:induction false} InsertLists(episodes: map<Id, Episode>, x: Id, ids: seq<Id>)
    requires x in episodes && x !in ids
    requires forall i :: i in ids ==> i in episodes
    requires Distinct(ids) && NewestFirst(episodes, ids)
    ensures Distinct(Insert(episodes, x, ids)) && NewestFirst(episodes, Insert(episodes, x, ids))
  {
    if ids != [] && episodes[ids[0]].createdAt > episodes[x].createdAt {
      var tail := ids[1..];
      forall i | i in tail ensures i in ids && i != ids[0] && episodes[ids[0]].createdAt >= episodes[i].createdAt {
        var k :| 0 <= k < |tail| && tail[k] == i;
        assert ids[k + 1] == i;
      }
      InsertLists(episodes, x, tail);
      PrependLists(episodes, ids[0], Insert(episodes, x, tail));
    } else {
      PrependLists(episodes, x, ids);
    }
  }

  lemma PrependLists(episodes: map<Id, Episode>, x: Id, ids: seq<Id>)
    requires x in episodes && x !in ids
    requires forall i :: i in ids ==> i in episodes
    requires ids != [] ==> episodes[x].createdAt >= episodes[ids[0]].createdAt
    requires Distinct(ids) && NewestFirst(episodes, ids)
    ensures Distinct([x] + ids) && NewestFirst(episodes, [x] + ids)
  {
  }

  /** The rows of a query that states no order: those of `scan` that pass `keep`, as visited. */
  function Where<V>(table: map<Id, V>, scan: seq<Id>, wanted: set<Id>): (ids: seq<Id>)
    ensures forall i :: i in ids <==> i in scan && i in table && i in wanted
    ensures Distinct(scan) ==> Distinct(ids)
  {
    if scan == [] then []
    else
      assert scan == [scan[0]] + scan[1..];
      var rest := Where(table, scan[1..], wanted);
      if scan[0] in table && scan[0] in wanted then [scan[0]] + rest else rest
  }
}
