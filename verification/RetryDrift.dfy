/**
 How far the picks of a retry chain drift when no key is live: every attempt
 starts one position further than the last, because its number is added to a
 pointer that has moved already (app/services/provider_manager.py,
 app/services/dispatch.py).

 The positions met before the last attempt are all different exactly for three
 keys and for a power of two.
 */
module RetryDrift {
  import opened KeyScheduler

  // The distance from the first pick to the `k`-th after it: 2 + 3 + ... + (k + 1).
  function Drift(k: nat): nat {
    if k == 0 then 0 else Drift(k - 1) + k + 1
  }

  // The first `n - 1` picks meet different positions.
  ghost predicate DriftMeetsOthers(n: nat)
    requires n > 0
  {
    forall i, j :: 0 <= i < j < n - 1 ==> Wrap(Drift(i), n) != Wrap(Drift(j), n)
  }

  predicate PowerOfTwo(n: nat) {
    n == 1 || (n > 0 && n % 2 == 0 && PowerOfTwo(n / 2))
  }

  // ---------------------------------------------------------------- remainders

  lemma {:induction false} SameRestGap(x: nat, y: nat, n: nat) returns (q: int)
    requires n > 0 && Wrap(x, n) == Wrap(y, n)
    ensures x - y == Rounds(q, n)
  {
    hide Rounds, Wrap;
    var a: int := RoundsAndRest(x, n);
    var b: int := RoundsAndRest(y, n);
    q := a - b;
    RoundsAdd(q, b, n);
  }

  lemma {:induction false} GapSameRest(x: nat, y: nat, n: nat, q: int)
    requires n > 0 && x - y == Rounds(q, n)
    ensures Wrap(x, n) == Wrap(y, n)
  {
    hide Rounds, Wrap;
    var b := RoundsAndRest(y, n);
    RoundsAdd(q, b, n);
    NotNegative(q + b, n, Wrap(y, n));
    WrapIsRest(x, n, q + b, Wrap(y, n));
  }

  lemma {:induction false} NotNegative(q: int, n: nat, r: nat)
    requires r < n && Rounds(q, n) + r >= 0
    ensures q >= 0
  {
    AtLeastARound(q, n);
  }

  // Where a walk starts makes no difference to which of its positions meet.
  lemma {:induction false} ShiftedMeetIff(start: nat, x: nat, y: nat, n: nat)
    requires n > 0
    ensures Wrap(start + x, n) == Wrap(start + y, n) <==> Wrap(x, n) == Wrap(y, n)
  {
    hide Rounds, Wrap;
    if Wrap(start + x, n) == Wrap(start + y, n) {
      var q := SameRestGap(start + x, start + y, n);
      GapSameRest(x, y, n, q);
    }
    if Wrap(x, n) == Wrap(y, n) {
      var q := SameRestGap(x, y, n);
      GapSameRest(start + x, start + y, n, q);
    }
  }

  // ---------------------------------------------------------------- products

  function Product(a: int, b: int): int {
    a * b
  }

  lemma {:induction false} ProductSum(a: int, b: int, c: int)
    ensures Product(a + b, c) == Product(a, c) + Product(b, c)
    ensures Product(c, a + b) == Product(c, a) + Product(c, b)
  {
  }

  lemma {:induction false} ProductSwap(a: int, b: int)
    ensures Product(a, b) == Product(b, a)
  {
  }

  lemma {:induction false} ProductOne(a: int)
    ensures Product(1, a) == a
  {
  }

  lemma {:induction false} ProductGrows(a: int, b: nat)
    ensures a <= 0 ==> Product(a, b) <= 0
    ensures a >= 1 ==> Product(a, b) >= b
    ensures a >= 3 ==> Product(a, b) >= 3 * b
  {
  }

  lemma {:induction false} TwiceRounds(q: int, n: nat)
    ensures Product(2 * n, q) == 2 * Rounds(q, n) == Product(q, 2 * n)
  {
  }

  // ---------------------------------------------------------------- the gap of two drifts

  lemma {:induction false} TwiceDrift(k: nat)
    ensures 2 * Drift(k) == k * (k + 3)
  {
    if k > 0 { TwiceDrift(k - 1); }
  }

  lemma {:induction false} DriftGap(i: nat, j: nat)
    ensures 2 * (Drift(i) - Drift(j)) == Product(i - j, i + j + 3)
  {
    TwiceDrift(i);
    TwiceDrift(j);
    hide Drift;
  }

  // ---------------------------------------------------------------- powers of two

  lemma {:induction false} OddTimes(x: nat, y: nat, half: int)
    requires x % 2 == 1 && Product(x, y) == 2 * half
    ensures y % 2 == 0 && Product(x, y / 2) == half
  {
    var a := x / 2;
    assert x == a + a + 1;
    hide Product;
    ProductSum(a, a, y);
    ProductSum(a + a, 1, y);
    ProductOne(y);
    var b := half - Product(a, y);
    assert y == b + b;
    ProductSum(b, b, x);
  }

  // A power of two that divides a product with an odd factor divides the other.
  lemma {:induction false} OddFactorDrops(n: nat, x: nat, y: nat, q: int) returns (r: int)
    requires PowerOfTwo(n) && x % 2 == 1 && Product(x, y) == Product(n, q)
    ensures y == Product(n, r)
    decreases n
  {
    hide Product;
    if n == 1 {
      r := y;
      ProductOne(y);
    } else {
      var m := n / 2;
      assert n == m + m;
      ProductSum(m, m, q);
      OddTimes(x, y, Product(m, q));
      r := OddFactorDrops(m, x, y / 2, q);
      ProductSum(m, m, r);
    }
  }

  lemma {:induction false} PowerMeetsOthers(n: nat, i: nat, j: nat)
    requires PowerOfTwo(n) && i < j < n - 1
    ensures Wrap(Drift(j), n) != Wrap(Drift(i), n)
  {
    hide Wrap, Drift, Rounds, Product;
    if Wrap(Drift(j), n) == Wrap(Drift(i), n) {
      var q := SameRestGap(Drift(j), Drift(i), n);
      DriftGap(j, i);
      TwiceRounds(q, n);
      NoSuchFactors(n, j - i, j + i + 3, q);
    }
  }

  lemma {:induction false} NoSuchFactors(n: nat, x: nat, y: nat, q: int)
    requires PowerOfTwo(n) && 0 < x < y < 2 * n && (x + y) % 2 == 1
    ensures Product(x, y) != Product(2 * n, q)
  {
    hide Product;
    if Product(x, y) == Product(2 * n, q) {
      ProductSwap(x, y);
      var r;
      if x % 2 == 1 {
        r := OddFactorDrops(2 * n, x, y, q);
      } else {
        r := OddFactorDrops(2 * n, y, x, q);
      }
      ProductSwap(2 * n, r);
      ProductGrows(r, 2 * n);
    }
  }

  // ---------------------------------------------------------------- other numbers

  lemma {:induction false} DoublePower(p: nat)
    requires PowerOfTwo(p)
    ensures PowerOfTwo(p + p)
  {
  }

  lemma {:induction false} OddPart(n: nat) returns (p: nat, q: nat)
    requires n > 0
    ensures n == Product(p, q) && q % 2 == 1 && p > 0
    ensures PowerOfTwo(p) && (q == 1 ==> p == n)
  {
    if n % 2 == 1 {
      p, q := 1, n;
    } else {
      var half;
      half, q := OddPart(n / 2);
      p := half + half;
      DoublePower(half);
      hide Product, PowerOfTwo;
      ProductSum(half, half, q);
    }
  }

  // Two factors of opposite parity, not too close, name two picks that meet.
  lemma {:induction false} FactorsMeet(n: nat, x: nat, y: nat, q: int)
    requires x > 0 && y >= x + 3 && (x + y) % 2 == 1 && x + y <= 2 * n - 1
    requires Product(x, y) == 2 * Rounds(q, n)
    ensures !DriftMeetsOthers(n)
  {
    hide Product, Drift, Wrap, Rounds;
    var i, j := (y - x - 3) / 2, (x + y - 3) / 2;
    assert j - i == x && i + j + 3 == y;
    DriftGap(j, i);
    GapSameRest(Drift(j), Drift(i), n, q);
    assert 0 <= i < j < n - 1;
  }

  lemma {:induction false} OthersMeet(n: nat)
    requires n > 0 && n != 3 && !PowerOfTwo(n)
    ensures !DriftMeetsOthers(n)
  {
    hide Product, DriftMeetsOthers, PowerOfTwo;
    var p, q := OddPart(n);
    assert q != 1;
    var e := p + p;
    ProductSum(p, p, q);
    ProductSwap(e, q);
    if e < q {
      FactorPairMeets(n, e, q);
    } else {
      FactorPairMeets(n, q, e);
    }
  }

  lemma {:induction false} FactorPairMeets(n: nat, x: nat, y: nat)
    requires n > 0 && n != 3 && 2 <= x < y && (x + y) % 2 == 1 && Product(x, y) == 2 * n
    ensures !DriftMeetsOthers(n)
  {
    RoundsAdd(0, 1, n);
    assert Product(2, 3) == 6;
    hide Product, Rounds, DriftMeetsOthers;
    if y >= x + 3 {
      FactorSum(x, y);
      FactorsMeet(n, x, y, 1);
    } else if x > 2 {
      NeighboursMeet(n, x, y);
    }
  }

  lemma {:induction false} FactorSum(x: nat, y: nat)
    requires x >= 2 && y >= 3
    ensures x + y <= Product(x, y) - 1
  {
    assert (x - 1) * (y - 1) >= 2;
  }

  // When the factors are neighbours, the complement of the larger one will do.
  lemma {:induction false} NeighboursMeet(n: nat, x: nat, y: nat)
    requires x >= 3 && y == x + 1 && Product(x, y) == 2 * n
    ensures !DriftMeetsOthers(n)
  {
    hide Product, Rounds, DriftMeetsOthers;
    ProductGrows(x, y);
    var z := 2 * n - y;
    ProductSum(y, z, x);
    TwiceRounds(x, n);
    RoundsAdd(x - 1, 1, n);
    RoundsAdd(0, 0, n);
    FactorsMeet(n, x, z, x - 1);
  }

  // The drifting picks meet different positions until the last attempt exactly
  // for three positions and for a power of two.
  lemma {:induction false} DriftMeetsOthersIff(n: nat)
    requires n > 0
    ensures DriftMeetsOthers(n) <==> n == 3 || PowerOfTwo(n)
  {
    if n == 3 {
      assert Drift(1) == 2 && Drift(0) == 0;
    } else if PowerOfTwo(n) {
      forall i, j | 0 <= i < j < n - 1 ensures Wrap(Drift(i), n) != Wrap(Drift(j), n) {
        PowerMeetsOthers(n, i, j);
      }
    } else {
      OthersMeet(n);
    }
  }
}
