/** The 2D work-group shape heuristic of `Kernel::getSquareWorkGroupSize2D`:
    given the device's preferred work-group size multiple n, pick a tile (x, y)
    with x * y == n that is as square as the divisors of n allow. */
module WorkGroup {
  import opened ClTypes

  predicate Divides(d: nat, n: nat) { d > 0 && n % d == 0 }

  predicate StrictlyIncreasing(s: seq<nat>)
  {
    forall i, j :: 0 <= i < j < |s| ==> s[i] < s[j]
  }

  /** What the core library's `Math::factorsOf(n)` returns: every divisor of n, ascending. */
  ghost predicate IsFactorList(f: seq<nat>, n: nat)
  {
    && StrictlyIncreasing(f)
    && (forall i :: 0 <= i < |f| ==> Divides(f[i], n))
    && (forall d: nat :: Divides(d, n) ==> d in f)
  }

  // ---------------------------------------------------------------------------
  // Arithmetic facts the proofs below rest on

  lemma MulMono(a: int, b: int, c: int)
    requires a <= b && c >= 0
    ensures a * c <= b * c
  {
  }

  lemma MulStrict(a: int, b: int, c: int)
    requires a < b && c > 0
    ensures a * c < b * c
  {
  }

  lemma DivModUnique(n: int, d: int, q: int, r: int)
    requires d > 0 && 0 <= r < d && n == d * q + r
    ensures n / d == q && n % d == r
  {
    var t := q - n / d;
    assert d * t == n % d - r by { assert n == d * (n / d) + n % d; }
    if t >= 1 { MulMono(1, t, d); assert false; }
    if t <= -1 { MulMono(t, -1, d); assert false; }
  }

  lemma DivisorAtMost(d: nat, n: nat)
    requires n >= 1 && Divides(d, n)
    ensures d <= n
  {
    if d > n { DivModUnique(n, d, 0, n); }
  }

  /** The cofactor n / d of a divisor d is a divisor too, and it leads back to d. */
  lemma Cofactor(d: nat, n: nat)
    requires n >= 1 && Divides(d, n)
    ensures Divides(n / d, n) && (n / d) * d == n && n / (n / d) == d
  {
    var q := n / d;
    assert n == d * q;
    DivModUnique(n, q, d, 0);
  }

  /** Taking cofactors reverses the order of divisors. */
  lemma CofactorAntitone(a: nat, b: nat, n: nat)
    requires n >= 1 && Divides(a, n) && Divides(b, n) && a < b
    ensures n / a > n / b
  {
    Cofactor(a, n);
    Cofactor(b, n);
    var qa, qb := n / a, n / b;
    if qa <= qb {
      MulStrict(a, b, qa);
      MulMono(qa, qb, b);
      assert false;
    }
  }

  lemma SquareMono(a: nat, b: nat)
    requires a <= b
    ensures a * a <= b * b
  {
    MulMono(a, b, a);
    MulMono(a, b, b);
  }

  // ---------------------------------------------------------------------------
  // Divisor lists

  /** The divisors of n that are at most k, ascending. */
  function DivisorsUpTo(n: nat, k: nat): (f: seq<nat>)
    ensures StrictlyIncreasing(f)
    ensures forall i :: 0 <= i < |f| ==> Divides(f[i], n) && f[i] <= k
    ensures forall d: nat :: Divides(d, n) && d <= k ==> d in f
  {
    if k == 0 then [] else DivisorsUpTo(n, k - 1) + (if n % k == 0 then [k] else [])
  }

  /** A reference implementation of `Math::factorsOf`. */
  function FactorsOf(n: nat): (f: seq<nat>)
    requires n >= 1
    ensures IsFactorList(f, n)
  {
    var f := DivisorsUpTo(n, n);
    assert forall d: nat :: Divides(d, n) ==> d in f by {
      forall d: nat | Divides(d, n) ensures d in f { DivisorAtMost(d, n); }
    }
    f
  }

  /** Two ascending lists with the same elements are the same list. */
  lemma {:induction false} AscendingUnique(f: seq<nat>, g: seq<nat>)
    requires StrictlyIncreasing(f) && StrictlyIncreasing(g)
    requires forall x :: x in f <==> x in g
    ensures f == g
    decreases |f|
  {
    assert |f| == 0 <==> |g| == 0 by {
      if |f| > 0 { assert f[0] in g; }
      if |g| > 0 { assert g[0] in f; }
    }
    if |f| > 0 {
      assert f[0] in f;
      assert g != [];
      assert g[0] in g;
      var i :| 0 <= i < |f| && f[i] == g[0];
      var j :| 0 <= j < |g| && g[j] == f[0];
      assert f[0] <= f[i];
      assert g[0] <= g[j];
      assert f[0] == g[0];
      forall x ensures x in f[1..] <==> x in g[1..] {
        if x in f[1..] {
          var a :| 1 <= a < |f| && f[a] == x;
          assert x in g;
          var b :| 0 <= b < |g| && g[b] == x;
          assert f[0] < f[a];
          assert g[1..][b - 1] == x;
        }
        if x in g[1..] {
          var b :| 1 <= b < |g| && g[b] == x;
          assert x in f;
          var a :| 0 <= a < |f| && f[a] == x;
          assert g[0] < g[b];
          assert f[1..][a - 1] == x;
        }
      }
      AscendingUnique(f[1..], g[1..]);
      assert f == [f[0]] + f[1..];
      assert g == [g[0]] + g[1..];
    }
  }

  function Quot(n: nat, d: nat): nat { if d > 0 then n / d else 0 }

  /** The cofactors of a divisor list, taken from the largest divisor down. */
  function Cofactors(f: seq<nat>, n: nat): (g: seq<nat>)
    ensures |g| == |f|
  {
    seq(|f|, m requires 0 <= m < |f| => Quot(n, f[|f| - 1 - m]))
  }

  lemma CofactorAt(f: seq<nat>, n: nat, m: nat)
    requires m < |f| && f[|f| - 1 - m] > 0
    ensures Cofactors(f, n)[m] == n / f[|f| - 1 - m]
  {
  }

  lemma CofactorsAscending(f: seq<nat>, n: nat)
    requires n >= 1 && IsFactorList(f, n)
    ensures StrictlyIncreasing(Cofactors(f, n))
  {
    var k, g := |f|, Cofactors(f, n);
    forall a, b | 0 <= a < b < k ensures g[a] < g[b] {
      assert f[k - 1 - b] < f[k - 1 - a];
      CofactorAt(f, n, a);
      CofactorAt(f, n, b);
      CofactorAntitone(f[k - 1 - b], f[k - 1 - a], n);
    }
  }

  lemma CofactorInList(f: seq<nat>, n: nat, m: nat)
    requires n >= 1 && IsFactorList(f, n) && m < |f|
    ensures Cofactors(f, n)[m] in f
  {
    CofactorAt(f, n, m);
    Cofactor(f[|f| - 1 - m], n);
  }

  lemma ListInCofactors(f: seq<nat>, n: nat, x: nat)
    requires n >= 1 && IsFactorList(f, n) && x in f
    ensures x in Cofactors(f, n)
  {
    Cofactor(x, n);
    var m :| 0 <= m < |f| && f[m] == n / x;
    CofactorAt(f, n, |f| - 1 - m);
    assert Cofactors(f, n)[|f| - 1 - m] == x;
  }

  lemma CofactorsSameElements(f: seq<nat>, n: nat)
    requires n >= 1 && IsFactorList(f, n)
    ensures forall x :: x in f <==> x in Cofactors(f, n)
  {
    var g := Cofactors(f, n);
    forall x ensures x in f <==> x in g {
      if x in g {
        var m :| 0 <= m < |g| && g[m] == x;
        CofactorInList(f, n, m);
      }
      if x in f {
        ListInCofactors(f, n, x);
      }
    }
  }

  /** The i-th smallest and the i-th largest divisor multiply to n. */
  lemma FactorPairing(f: seq<nat>, n: nat, i: nat)
    requires n >= 1 && IsFactorList(f, n) && i < |f|
    ensures f[i] * f[|f| - 1 - i] == n
  {
    CofactorsAscending(f, n);
    CofactorsSameElements(f, n);
    AscendingUnique(f, Cofactors(f, n));
    CofactorAt(f, n, i);
    Cofactor(f[|f| - 1 - i], n);
  }

  /** A number with an odd count of divisors is a perfect square. */
  lemma OddDivisorCountIsSquare(f: seq<nat>, n: nat)
    requires n >= 1 && IsFactorList(f, n) && |f| % 2 == 1
    ensures IsPerfectSquare(n)
  {
    var h := |f| / 2;
    FactorPairing(f, n, h);
    PerfectSquareOf(f[h], n);
  }

  /** With an even count 2h of divisors, the h-th and (h+1)-th divisors are the innermost pair. */
  lemma MiddleDivisorsInnermost(f: seq<nat>, n: nat, h: nat)
    requires n >= 1 && IsFactorList(f, n) && h >= 1 && |f| == 2 * h
    ensures IsInnermostPair(n, f[h - 1], f[h])
  {
    FactorPairing(f, n, h - 1);
    forall d: nat | Divides(d, n) ensures !(f[h - 1] < d < f[h]) {
      var j :| 0 <= j < |f| && f[j] == d;
      if j < h - 1 { assert f[j] < f[h - 1]; }
      if j > h { assert f[h] < f[j]; }
    }
  }

  // ---------------------------------------------------------------------------
  // Integer square root (the model of `(uint)sqrt((float)n)`)

  function FloorSqrt(n: nat): (r: nat)
    ensures r * r <= n < (r + 1) * (r + 1)
  {
    if n == 0 then 0
    else
      var s := FloorSqrt(n - 1);
      if (s + 1) * (s + 1) <= n then
        assert (s + 2) * (s + 2) == (s + 1) * (s + 1) + 2 * s + 3;
        s + 1
      else s
  }

  lemma FloorSqrtUnique(m: nat, n: nat)
    requires m * m <= n < (m + 1) * (m + 1)
    ensures FloorSqrt(n) == m
  {
    var r := FloorSqrt(n);
    if r < m { SquareMono(r + 1, m); }
    if r > m { SquareMono(m + 1, r); }
  }

  /** The test `sq * sq == n` of the source, with sq the integer square root. */
  predicate IsPerfectSquare(n: nat)
  {
    FloorSqrt(n) * FloorSqrt(n) == n
  }

  lemma PerfectSquareOf(m: nat, n: nat)
    requires m * m == n
    ensures IsPerfectSquare(n) && FloorSqrt(n) == m
  {
    assert (m + 1) * (m + 1) == m * m + 2 * m + 1;
    FloorSqrtUnique(m, n);
  }

  // ---------------------------------------------------------------------------
  // The specification of the heuristic

  /** x and y are the innermost factor pair of n: neighbouring divisors whose product is n. */
  ghost predicate IsInnermostPair(n: nat, x: nat, y: nat)
  {
    && Divides(x, n) && Divides(y, n)
    && x * y == n && x < y
    && forall d: nat :: Divides(d, n) ==> !(x < d < y)
  }

  /** The tile the heuristic must choose for n. */
  ghost predicate TileSpec(n: nat, x: nat, y: nat)
  {
    if n == 64 then x == 8 && y == 8
    else if n == 32 then x == 8 && y == 4
    else if IsPerfectSquare(n) then x == FloorSqrt(n) && y == FloorSqrt(n)
    else IsInnermostPair(n, x, y)
  }

  lemma SqrtBelowWidth(n: nat)
    requires n < TWO_32
    ensures FloorSqrt(n) < TWO_32
  {
    var r := FloorSqrt(n);
    if r >= TWO_32 { MulMono(1, r, r); }
  }

  /** A number that is not a perfect square is at least 2, so its divisor list holds 1 and n apart. */
  lemma NonSquareHasTwoDivisors(n: nat)
    requires !IsPerfectSquare(n)
    ensures n >= 2 && |FactorsOf(n)| >= 2
  {
    var f := FactorsOf(n);
    assert 1 in f && n in f;
    var a :| 0 <= a < |f| && f[a] == 1;
    var b :| 0 <= b < |f| && f[b] == n;
    assert a != b;
  }

  /** The two-pointer walk over the ascending divisors of n that ends
      `getSquareWorkGroupSize2D`: the last pair visited is the innermost one. */
  method InnermostRectangle(n: u32) returns (x: u32, y: u32)
    requires !IsPerfectSquare(n)
    ensures IsInnermostPair(n, x, y)
  {
    NonSquareHasTwoDivisors(n);
    var factors := FactorsOf(n);
    var start := 0;
    var end := |factors| - 1;
    var a: nat, b: nat := n, 1;
    while start < end
      invariant 0 <= start && start + end == |factors| - 1 && start <= end + 1
      invariant start == 0 ==> a == n && b == 1
      invariant start > 0 ==> a == factors[start - 1] && b == factors[end + 1]
    {
      a := factors[start];
      b := factors[end];
      start := start + 1;
      end := end - 1;
    }

    WalkEndsInnermost(factors, n, start, a, b);
    return a, b;
  }

  /** Where the walk stops: past the middle of an even-length list, on its two middle
      divisors, which are the innermost pair and at most n. */
  lemma WalkEndsInnermost(f: seq<nat>, n: nat, start: nat, a: nat, b: nat)
    requires !IsPerfectSquare(n) && f == FactorsOf(n) && |f| >= 2
    requires |f| <= 2 * start + 1 <= |f| + 1
    requires a == f[start - 1] && b == f[|f| - start]
    ensures IsInnermostPair(n, a, b) && a <= n && b <= n
  {
    NonSquareHasTwoDivisors(n);
    if |f| % 2 == 1 {
      OddDivisorCountIsSquare(f, n);
      assert false;
    }
    MiddleDivisorsInnermost(f, n, start);
    DivisorAtMost(a, n);
    DivisorAtMost(b, n);
  }

  /** `getSquareWorkGroupSize2D` on the value `multiple` that the kernel query returned. */
  method SquareWorkGroupSize2D(multiple: u64) returns (x: u32, y: u32)
    ensures TileSpec(multiple % TWO_32, x, y)
    ensures x * y == multiple % TWO_32
  {
    var n: u32 := ToU32(multiple);
    assert n == multiple % TWO_32;

    // 64: an 8 x 8 tile
    if n == 64 { return 8, 8; }

    // 32: an 8 x 4 tile
    if n == 32 { return 8, 4; }

    // a perfect square: the square tile
    SqrtBelowWidth(n);
    var sq: u32 := FloorSqrt(n);
    if sq * sq == n { return sq, sq; }

    // otherwise: the innermost factor pair
    x, y := InnermostRectangle(n);
  }

  // ---------------------------------------------------------------------------
  // Properties of the specification

  /** The innermost pair straddles the square root. */
  lemma InnermostStraddlesRoot(n: nat, x: nat, y: nat)
    requires IsInnermostPair(n, x, y)
    ensures x <= FloorSqrt(n) < y
  {
    var r := FloorSqrt(n);
    MulStrict(x, y, x);
    MulStrict(x, y, y);
    if x > r { SquareMono(r + 1, x); }
    if y <= r { SquareMono(y, r); }
  }

  /** A number has at most one innermost factor pair. */
  lemma InnermostUnique(n: nat, x1: nat, y1: nat, x2: nat, y2: nat)
    requires IsInnermostPair(n, x1, y1) && IsInnermostPair(n, x2, y2)
    ensures x1 == x2 && y1 == y2
  {
    if x1 < x2 {
      if y1 <= y2 { MulStrict(x1, x2, y1); MulMono(y1, y2, x2); }
    } else if x2 < x1 {
      if y2 <= y1 { MulStrict(x2, x1, y2); MulMono(y2, y1, x1); }
    } else if y1 < y2 {
      MulStrict(y1, y2, x1);
    } else if y2 < y1 {
      MulStrict(y2, y1, x1);
    }
  }

  /** The specification leaves no choice: it names exactly one tile for every n. */
  lemma TileSpecDeterministic(n: nat, x1: nat, y1: nat, x2: nat, y2: nat)
    requires TileSpec(n, x1, y1) && TileSpec(n, x2, y2)
    ensures x1 == x2 && y1 == y2
  {
    if n != 64 && n != 32 && !IsPerfectSquare(n) {
      InnermostUnique(n, x1, y1, x2, y2);
    }
  }

  /** The tiles the heuristic picks for a few sizes: the two special cases, squares and a rectangle. */
  lemma TileExamples(x: nat, y: nat)
    ensures TileSpec(64, x, y) ==> x == 8 && y == 8
    ensures TileSpec(32, x, y) ==> x == 8 && y == 4
    ensures TileSpec(36, x, y) ==> x == 6 && y == 6
    ensures TileSpec(0, x, y) ==> x == 0 && y == 0
    ensures TileSpec(1, x, y) ==> x == 1 && y == 1
    ensures TileSpec(30, x, y) ==> x == 5 && y == 6
  {
    PerfectSquareOf(6, 36);
    PerfectSquareOf(0, 0);
    PerfectSquareOf(1, 1);
    FloorSqrtUnique(5, 30);
    assert !IsPerfectSquare(30);
    assert IsInnermostPair(30, 5, 6);
    if TileSpec(30, x, y) {
      InnermostUnique(30, x, y, 5, 6);
    }
  }
}
