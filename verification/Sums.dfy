/** Sums over finite sets of ids, independent of the order of summation. */
module Sums {
  import opened Rows

  function SumOver(ids: set<Id>, f: Id -> int): int
    decreases ids
  {
    if ids == {} then 0
    else
      LeastExists(ids);
      var x :| IsLeast(ids, x);
      f(x) + SumOver(ids - {x}, f)
  }

  predicate IsLeast(ids: set<Id>, x: Id) {
    x in ids && forall j :: j in ids ==> x <= j
  }

  lemma {:induction false} LeastExists(ids: set<Id>)
    requires ids != {}
    ensures exists x :: IsLeast(ids, x)
    ensures forall x, y :: IsLeast(ids, x) && IsLeast(ids, y) ==> x == y
    decreases ids
  {
    var x :| x in ids;
    var rest := ids - {x};
    assert ids == {x} + rest;
    if rest == {} {
      assert IsLeast(ids, x);
    } else {
      LeastExists(rest);
      var z :| IsLeast(rest, z);
      assert IsLeast(ids, if x <= z then x else z);
    }
  }

  /** Any element can be taken out first. */
  lemma {:induction false} SumTakes(ids: set<Id>, x: Id, f: Id -> int)
    requires x in ids
    ensures SumOver(ids, f) == f(x) + SumOver(ids - {x}, f)
    decreases ids
  {
    LeastExists(ids);
    var z :| IsLeast(ids, z);
    if z != x {
      SumTakes(ids - {z}, x, f);
      SumTakes(ids - {x}, z, f);
      assert ids - {z} - {x} == ids - {x} - {z};
    }
  }

  lemma SumAdds(ids: set<Id>, x: Id, f: Id -> int)
    requires x !in ids
    ensures SumOver(ids + {x}, f) == f(x) + SumOver(ids, f)
  {
    SumTakes(ids + {x}, x, f);
    assert ids + {x} - {x} == ids;
  }

  lemma {:induction false} SumDisjoint(a: set<Id>, b: set<Id>, f: Id -> int)
    requires a !! b
    ensures SumOver(a + b, f) == SumOver(a, f) + SumOver(b, f)
    decreases a
  {
    if a == {} {
      assert a + b == b;
    } else {
      var x :| x in a;
      SumDisjoint(a - {x}, b, f);
      SumTakes(a, x, f);
      SumTakes(a + b, x, f);
      assert a + b - {x} == (a - {x}) + b;
    }
  }

  lemma {:induction false} SumZero(a: set<Id>, f: Id -> int)
    requires forall i :: i in a ==> f(i) == 0
    ensures SumOver(a, f) == 0
    decreases a
  {
    if a != {} {
      var x :| x in a;
      SumTakes(a, x, f);
      SumZero(a - {x}, f);
    }
  }

  /** Elements that contribute nothing can be dropped. */
  lemma SumSubset(a: set<Id>, b: set<Id>, f: Id -> int)
    requires a <= b && forall i :: i in b && i !in a ==> f(i) == 0
    ensures SumOver(b, f) == SumOver(a, f)
  {
    SumDisjoint(a, b - a, f);
    SumZero(b - a, f);
    assert a + (b - a) == b;
  }
}
