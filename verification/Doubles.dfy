/** Integers as double-precision floats: which are exact, and to which one the others are rounded. The range of
    exponents is not bounded here. */
module Doubles {
  import opened Strings

  /** Two to the power of 53: up to it every integer is a double. */
  const EXACT := 9_007_199_254_740_992

  /** How many low bits of `n` do not fit into a significand of 53 bits. */
  function Excess(n: nat): nat {
    if n < EXACT then 0 else 1 + Excess(n / 2)
  }

  /** The multiple of `q` nearest to `n`, ties to the even multiple. */
  function Nearest(n: nat, q: nat): nat
    requires q > 0
  {
    var d, r := n / q, n % q;
    if 2 * r < q || (2 * r == q && d % 2 == 0) then d * q else (d + 1) * q
  }

  function NearestDouble(n: nat): nat {
    PowerPositive(2, Excess(n));
    Nearest(n, Power(2, Excess(n)))
  }

  /** The double nearest to an integer. */
  function Double(n: int): int {
    if n >= 0 then NearestDouble(n)
    else
      var m: int := NearestDouble(-n);
      -m
  }

  predicate IsDouble(n: int) {
    Double(n) == n
  }

  lemma {:induction false} PowerPositive(base: nat, e: nat)
    requires base > 0
    ensures Power(base, e) > 0
  {
    if e > 0 {
      PowerPositive(base, e - 1);
    }
  }

  lemma SmallIsDouble(n: int)
    requires -EXACT <= n <= EXACT
    ensures IsDouble(n)
  {
    var m := if n >= 0 then n else -n;
    if m == EXACT {
      assert Excess(m / 2) == 0;
      assert Power(2, 1) == 2 * Power(2, 0) == 2;
    } else {
      assert Power(2, 0) == 1;
    }
  }

  /** Multiples of sixteen are doubles sixteen times as far. */
  lemma SixteenthIsDouble(n: nat)
    requires n % 16 == 0 && n < 16 * EXACT
    ensures IsDouble(n)
  {
    ExcessAtMost(n, 4);
    var k := Excess(n);
    SmallPowers();
    assert k == 0 || k == 1 || k == 2 || k == 3 || k == 4;
  }

  lemma SmallPowers()
    ensures Power(2, 0) == 1 && Power(2, 1) == 2 && Power(2, 2) == 4 && Power(2, 3) == 8 && Power(2, 4) == 16
  {
    assert Power(2, 2) == 4;
    assert Power(2, 3) == 8;
  }

  lemma {:induction false} ExcessAtMost(n: nat, k: nat)
    requires n < EXACT * Power(2, k)
    ensures Excess(n) <= k
  {
    if n >= EXACT {
      assert Power(2, k) == 2 * Power(2, k - 1);
      ExcessAtMost(n / 2, k - 1);
    }
  }

  // -------- rounding twice

  /** The significand of `n`, cut off: what is left of it above the excess bits. */
  lemma {:induction false} SignificandFits(n: nat)
    ensures Power(2, Excess(n)) > 0 && n / Power(2, Excess(n)) < EXACT
    ensures n >= EXACT ==> n / Power(2, Excess(n)) >= EXACT / 2
  {
    if n < EXACT {
      assert Power(2, 0) == 1;
    } else {
      var k := Excess(n / 2);
      SignificandFits(n / 2);
      assert Power(2, Excess(n)) == 2 * Power(2, k);
      HalveTwice(n, Power(2, k));
      if n / 2 < EXACT {
        assert Power(2, 0) == 1;
      }
    }
  }

  lemma HalveTwice(n: nat, p: nat)
    requires p > 0
    ensures n / (2 * p) == n / 2 / p
  {
    var d, r := n / 2 / p, n / 2 % p;
    assert n / 2 == d * p + r;
    assert n == 2 * (d * p + r) + n % 2;
    DivideUnique(n, 2 * p, d, 2 * r + n % 2);
  }

  lemma DivideUnique(n: nat, q: nat, d: nat, r: nat)
    requires q > 0 && n == d * q + r && r < q
    ensures n / q == d && n % q == r
  {
    var e, t := n / q, n % q;
    assert n == e * q + t && 0 <= t < q;
    assert (d - e) * q == t - r;
    if d != e {
      MultipleIsFar(d - e, q);
      assert false;
    }
  }

  lemma MultipleIsFar(k: int, q: int)
    requires k != 0 && q > 0
    ensures k * q >= q || k * q <= -q
  {
    if k > 0 {
      assert (k - 1) * q >= 0;
    } else {
      assert (-k - 1) * q >= 0;
    }
  }

  /** A full significand with `k` zero bits behind it has exactly those as its excess. */
  lemma {:induction false} ExcessOfScaled(d: nat, k: nat)
    requires EXACT / 2 <= d < EXACT
    ensures Excess(d * Power(2, k)) == k
  {
    if k == 0 {
      assert Power(2, 0) == 1;
    } else {
      ExcessOfScaled(d, k - 1);
      var p := Power(2, k - 1);
      PowerPositive(2, k - 1);
      assert d * Power(2, k) == 2 * (d * p) && d * p >= d;
    }
  }

  lemma ScaledIsDouble(d: nat, k: nat)
    requires EXACT / 2 <= d < EXACT
    ensures NearestDouble(d * Power(2, k)) == d * Power(2, k)
  {
    ExcessOfScaled(d, k);
    PowerPositive(2, k);
    DivideUnique(d * Power(2, k), Power(2, k), d, 0);
  }

  /** The nearest double is a double. */
  lemma DoubleIsDouble(n: int)
    ensures IsDouble(Double(n))
  {
    NearestIsDouble(if n >= 0 then n else -n);
  }

  lemma NearestIsDouble(n: nat)
    ensures NearestDouble(NearestDouble(n)) == NearestDouble(n)
  {
    if n < EXACT {
      SmallIsDouble(n);
    } else {
      var k := Excess(n);
      var q := Power(2, k);
      SignificandFits(n);
      var d := n / q;
      if NearestDouble(n) == d * q {
        ScaledIsDouble(d, k);
      } else {
        assert NearestDouble(n) == (d + 1) * q;
        if d + 1 < EXACT {
          ScaledIsDouble(d + 1, k);
        } else {
          assert (d + 1) * q == EXACT / 2 * Power(2, k + 1);
          ScaledIsDouble(EXACT / 2, k + 1);
        }
      }
    }
  }

  lemma {:induction false} ExcessIs(n: nat, k: nat)
    requires EXACT / 2 * Power(2, k) <= n < EXACT * Power(2, k)
    ensures Excess(n) == k
  {
    if k > 0 {
      PowerPositive(2, k - 1);
      assert Power(2, k) == 2 * Power(2, k - 1);
      ExcessIs(n / 2, k - 1);
    }
  }

  lemma NearestMeans(n: int, q: int) returns (d: int)
    requires n >= 0 && q > 0
    ensures d >= 0 && Nearest(n, q) == d * q && -q <= 2 * (d * q - n) <= q
    ensures 2 * (d * q - n) == q || 2 * (n - d * q) == q ==> d % 2 == 0
  {
    var e, r := n / q, n % q;
    d := if 2 * r < q || (2 * r == q && e % 2 == 0) then e else e + 1;
    Product(n, q, e, r);
  }

  lemma Product(n: int, q: int, e: int, r: int)
    requires q > 0 && e == n / q && r == n % q
    ensures n == e * q + r && (e + 1) * q == e * q + q && 0 <= r < q
  {
  }

  /** A number of 53 and `k` more bits becomes the nearest multiple of two to the power of `k`, and of two equally near
      the even multiple. */
  lemma DoubleMeans(n: int, k: nat) returns (d: int)
    requires EXACT / 2 * Power(2, k) <= n < EXACT * Power(2, k)
    ensures Power(2, k) > 0 && Double(n) == d * Power(2, k) && Double(-n) == -Double(n)
    ensures -1 * Power(2, k) <= 2 * (Double(n) - n) <= Power(2, k)
    ensures 2 * (Double(n) - n) == Power(2, k) || 2 * (n - Double(n)) == Power(2, k) ==> d % 2 == 0
  {
    PowerPositive(2, k);
    ExcessIs(n, k);
    d := NearestMeans(n, Power(2, k));
  }
}
