/** The positional text distance of the measurement script
    (scripts/ad-hoc/measure-website-first-research.ts): a metric on texts over any alphabet. */
module TextDelta {

  function Max(a: int, b: int): int { if a < b then b else a }

  function Min(a: int, b: int): int { if a < b then a else b }

  /** The positions below `n` at which both texts have the same code unit. */
  function Agreeing<T(==)>(a: seq<T>, b: seq<T>, n: nat): set<nat> {
    set i: nat | i < n && i < |a| && i < |b| && a[i] == b[i]
  }

  function Agreements<T(==)>(a: seq<T>, b: seq<T>): nat {
    |Agreeing(a, b, Min(|a|, |b|))|
  }

  function Longest<T>(a: seq<T>, b: seq<T>): nat {
    Max(Max(|a|, |b|), 1)
  }

  /** The share of positions, of the longer text, at which the two texts do not agree. */
  function Delta<T(==)>(a: seq<T>, b: seq<T>): real {
    if a == b then 0.0 else 1.0 - Agreements(a, b) as real / Longest(a, b) as real
  }

  lemma AgreeingStep<T>(a: seq<T>, b: seq<T>, n: nat)
    requires n < |a| && n < |b|
    ensures Agreeing(a, b, n + 1) == Agreeing(a, b, n) + (if a[n] == b[n] then {n} else {})
    ensures |Agreeing(a, b, n + 1)| == |Agreeing(a, b, n)| + (if a[n] == b[n] then 1 else 0)
  {
    assert Agreeing(a, b, n + 1) == Agreeing(a, b, n) + (if a[n] == b[n] then {n} else {});
  }

  method TextDelta<T(==)>(a: seq<T>, b: seq<T>) returns (delta: real)
    ensures a == b ==> delta == 0.0
    ensures a != b ==>
              delta == 1.0 - |set i: nat | i < |a| && i < |b| && a[i] == b[i]| as real / Max(Max(|a|, |b|), 1) as real
    ensures delta == Delta(a, b)
  {
    if a == b { return 0.0; }
    var max := Max(Max(|a|, |b|), 1);
    var same: nat := 0;
    var n := Min(|a|, |b|);
    assert Agreeing(a, b, 0) == {};
    for i: nat := 0 to n
      invariant same == |Agreeing(a, b, i)|
    {
      AgreeingStep(a, b, i);
      if a[i] == b[i] { same := same + 1; }
    }
    assert Agreeing(a, b, n) == set i: nat | i < |a| && i < |b| && a[i] == b[i];
    return 1.0 - same as real / max as real;
  }

  // ----- counting -----

  function Below(n: nat): (r: set<nat>)
    ensures |r| == n && forall i: nat :: i in r <==> i < n
  {
    if n == 0 then {} else Below(n - 1) + {n - 1}
  }

  lemma SubsetSize<T>(a: set<T>, b: set<T>)
    requires a <= b
    ensures |a| <= |b|
    ensures |a| == |b| ==> a == b
  {
    assert b == a + (b - a);
    assert |b| == |a| + |b - a|;
    assert |b - a| == 0 ==> b - a == {};
  }

  lemma AgreementsBound<T>(a: seq<T>, b: seq<T>)
    ensures Agreements(a, b) <= Min(|a|, |b|)
  {
    var n := Min(|a|, |b|);
    SubsetSize(Agreeing(a, b, n), Below(n));
  }

  /** Positions where both neighbours agree with the middle text are positions where they agree with
      each other; all the others are different positions of the middle text. */
  lemma AgreementsChain<T>(a: seq<T>, b: seq<T>, c: seq<T>)
    ensures Agreements(a, b) + Agreements(b, c) <= Agreements(a, c) + Min(|b|, Max(|a|, |c|))
  {
    var ab, bc := Agreeing(a, b, Min(|a|, |b|)), Agreeing(b, c, Min(|b|, |c|));
    var ac, all := Agreeing(a, c, Min(|a|, |c|)), Below(Min(|b|, Max(|a|, |c|)));
    SubsetSize(ab * bc, ac);
    SubsetSize(ab + bc, all);
    assert |ab| + |bc| == |ab + bc| + |ab * bc|;
  }

  // ----- a metric -----

  lemma DivideBound(x: real, y: real)
    requires 0.0 <= x <= y && 0.0 < y
    ensures 0.0 <= x / y <= 1.0
    ensures x / y == 1.0 <==> x == y
  {
    var q := x / y;
    assert q * y == x;
    assert q > 1.0 ==> q * y > y;
    assert q < 0.0 ==> q * y < 0.0;
    assert q == 1.0 ==> x == y;
    assert x == y ==> (q - 1.0) * y == 0.0;
  }

  lemma DeltaRange<T>(a: seq<T>, b: seq<T>)
    ensures 0.0 <= Delta(a, b) <= 1.0
  {
    AgreementsBound(a, b);
    DivideBound(Agreements(a, b) as real, Longest(a, b) as real);
  }

  lemma DeltaSymmetric<T>(a: seq<T>, b: seq<T>)
    ensures Delta(a, b) == Delta(b, a)
  {
    assert Agreeing(a, b, Min(|a|, |b|)) == Agreeing(b, a, Min(|b|, |a|));
  }

  lemma DeltaZero<T>(a: seq<T>, b: seq<T>)
    ensures Delta(a, b) == 0.0 <==> a == b
  {
    if a != b && Delta(a, b) == 0.0 {
      AgreementsBound(a, b);
      DivideBound(Agreements(a, b) as real, Longest(a, b) as real);
      var n := Min(|a|, |b|);
      assert n == |a| == |b|;
      SubsetSize(Agreeing(a, b, n), Below(n));
      forall i: nat | i < n ensures a[i] == b[i] {
        assert i in Below(n);
      }
    }
  }

  lemma Cancel(u: real, m: real)
    requires 0.0 < m && u * m <= 0.0
    ensures u <= 0.0
  {
    assert u > 0.0 ==> u * m > 0.0;
  }

  /** With a middle text of length n, not longer than the longer outer one. */
  lemma ShortMiddle(p: real, q: real, r: real, m: real, n: real)
    requires 0.0 <= q <= n <= m && 0.0 < n && p + q <= r + n
    ensures p / m + q / n <= 1.0 + r / m
  {
    var x, y, z := p / m, q / n, r / m;
    assert p == x * m && r == z * m && q == y * n;
    DivideBound(q, n);
    assert y * (m - n) <= 1.0 * (m - n);
    assert (x + y - 1.0 - z) * m == x * m + y * n + y * (m - n) - m - z * m;
    Cancel(x + y - 1.0 - z, m);
  }

  /** With a middle text of length n, longer than both outer ones. */
  lemma LongMiddle(p: real, q: real, r: real, m: real, n: real)
    requires 0.0 < m <= n && 0.0 <= r && p + q <= r + m
    ensures p / n + q / n <= 1.0 + r / m
  {
    var x, y, z := p / n, q / n, r / m;
    assert p == x * n && q == y * n && r == z * m;
    assert z < 0.0 ==> z * m < 0.0;
    assert z * (n - m) >= 0.0;
    assert (x + y - 1.0 - z) * n == x * n + y * n - n - z * m - z * (n - m);
    Cancel(x + y - 1.0 - z, n);
  }

  /** The two ratios of the triangle, with the shorter outer text last. */
  lemma RatiosChain<T>(a: seq<T>, b: seq<T>, c: seq<T>)
    requires |c| <= |a| && a != b && b != c && a != c
    ensures Agreements(a, b) as real / Longest(a, b) as real + Agreements(b, c) as real / Longest(b, c) as real
            <= 1.0 + Agreements(a, c) as real / Longest(a, c) as real
  {
    AgreementsChain(a, b, c);
    AgreementsBound(b, c);
    var p, q, r := Agreements(a, b) as real, Agreements(b, c) as real, Agreements(a, c) as real;
    if |b| <= |a| {
      ShortMiddle(p, q, r, Longest(a, c) as real, Longest(b, c) as real);
    } else {
      LongMiddle(p, q, r, Longest(a, c) as real, Longest(b, c) as real);
    }
  }

  /** The triangle inequality, for texts of any lengths. */
  lemma DeltaTriangle<T>(a: seq<T>, b: seq<T>, c: seq<T>)
    ensures Delta(a, c) <= Delta(a, b) + Delta(b, c)
  {
    DeltaRange(a, b);
    DeltaRange(b, c);
    if a != b && b != c && a != c {
      if |c| <= |a| {
        RatiosChain(a, b, c);
      } else {
        RatiosChain(c, b, a);
        DeltaSymmetric(a, b);
        DeltaSymmetric(b, c);
        DeltaSymmetric(a, c);
      }
    }
  }
}
