/**
 * Numeric: sums, maxima and scaling of real sequences, as the block
 * strength code computes them (`sum(...)`, `max(...)`, `v / max_strength`).
 * Floating point is modelled by exact reals.
 */
module Numeric {

  /** `sum(s)`, accumulated left to right. */
  function Sum(s: seq<real>): real
    decreases |s|
  {
    if s == [] then 0.0 else Sum(s[..|s| - 1]) + s[|s| - 1]
  }

  /** `abs(x)` */
  function Abs(x: real): (r: real)
    ensures r >= 0.0
    ensures r == x || r == -x
  {
    if x < 0.0 then -x else x
  }

  predicate AllNonNegative(s: seq<real>)
  {
    forall i | 0 <= i < |s| :: s[i] >= 0.0
  }

  /** `max(s)`: an element of `s` that no element exceeds. */
  function Max(s: seq<real>): (m: real)
    requires |s| > 0
    ensures m in s
    ensures forall i | 0 <= i < |s| :: s[i] <= m
    decreases |s|
  {
    if |s| == 1 then s[0]
    else
      var m := Max(s[..|s| - 1]);
      assert forall i | 0 <= i < |s| - 1 :: s[..|s| - 1][i] == s[i];
      if s[|s| - 1] > m then s[|s| - 1] else m
  }

  /** `[v / d for v in s]` */
  function DivideAll(s: seq<real>, d: real): (r: seq<real>)
    requires d != 0.0
    ensures |r| == |s|
  {
    seq(|s|, i requires 0 <= i < |s| => s[i] / d)
  }

  lemma {:induction false} SumAppend(s: seq<real>, x: real)
    ensures Sum(s + [x]) == Sum(s) + x
  {
    assert (s + [x])[..|s|] == s;
  }

  lemma {:induction false} SumConcat(a: seq<real>, b: seq<real>)
    ensures Sum(a + b) == Sum(a) + Sum(b)
    decreases |b|
  {
    if b != [] {
      var b' := b[..|b| - 1];
      assert a + b == (a + b') + [b[|b| - 1]];
      SumAppend(a + b', b[|b| - 1]);
      SumConcat(a, b');
    } else {
      assert a + b == a;
    }
  }

  lemma {:induction false} SumNonNegative(s: seq<real>)
    requires AllNonNegative(s)
    ensures Sum(s) >= 0.0
    decreases |s|
  {
    if s != [] {
      SumNonNegative(s[..|s| - 1]);
    }
  }

  /** A sum of non-negative terms is zero exactly when every term is zero. */
  lemma {:induction false} SumZeroIffAllZero(s: seq<real>)
    requires AllNonNegative(s)
    ensures Sum(s) == 0.0 <==> forall i | 0 <= i < |s| :: s[i] == 0.0
    decreases |s|
  {
    if s != [] {
      var p := s[..|s| - 1];
      SumZeroIffAllZero(p);
      SumNonNegative(p);
      assert forall i | 0 <= i < |p| :: p[i] == s[i];
    }
  }

  /** Each non-negative term is at most the sum. */
  lemma {:induction false} TermAtMostSum(s: seq<real>, k: nat)
    requires AllNonNegative(s) && k < |s|
    ensures s[k] <= Sum(s)
    decreases |s|
  {
    var p := s[..|s| - 1];
    if k < |s| - 1 {
      TermAtMostSum(p, k);
    }
    SumNonNegative(p);
  }

  /** A sum of `n` terms each at most `m` is at most `n * m`. */
  lemma {:induction false} SumAtMost(s: seq<real>, m: real)
    requires forall i | 0 <= i < |s| :: s[i] <= m
    ensures Sum(s) <= |s| as real * m
    decreases |s|
  {
    if s != [] {
      var p := s[..|s| - 1];
      assert forall i | 0 <= i < |p| :: p[i] == s[i];
      SumAtMost(p, m);
      assert |s| as real * m == |p| as real * m + m;
    }
  }

  /** Dividing every term by `d` divides the sum by `d`. */
  lemma {:induction false} SumDivideAll(s: seq<real>, d: real)
    requires d != 0.0
    ensures Sum(DivideAll(s, d)) == Sum(s) / d
    decreases |s|
  {
    if s != [] {
      var p := s[..|s| - 1];
      SumDivideAll(p, d);
      assert DivideAll(s, d)[..|s| - 1] == DivideAll(p, d);
    }
  }

  /** `[0.0] * n` */
  function Zeros(n: nat): (r: seq<real>)
    ensures |r| == n && forall i | 0 <= i < n :: r[i] == 0.0
  {
    seq(n, i => 0.0)
  }

  lemma {:induction false} SumZeros(n: nat)
    ensures Sum(Zeros(n)) == 0.0
    decreases n
  {
    if n > 0 {
      assert Zeros(n)[..n - 1] == Zeros(n - 1);
      SumZeros(n - 1);
    }
  }

  /**
   * Scaling by the maximum: when the maximum is positive, the largest
   * scaled entry is exactly 1 and none exceeds 1; non-negative entries
   * stay non-negative.
   */
  lemma ScaledByMax(s: seq<real>)
    requires |s| > 0 && Max(s) > 0.0
    ensures forall i | 0 <= i < |s| :: DivideAll(s, Max(s))[i] <= 1.0
    ensures 1.0 in DivideAll(s, Max(s))
    ensures AllNonNegative(s) ==> AllNonNegative(DivideAll(s, Max(s)))
  {
    var m := Max(s);
    ScaledAtMostOne(s, m);
    MaxScalesToOne(s, m);
    if AllNonNegative(s) {
      ScaledNonNegative(s, m);
    }
  }

  lemma ScaledAtMostOne(s: seq<real>, m: real)
    requires m > 0.0 && forall i | 0 <= i < |s| :: s[i] <= m
    ensures forall i | 0 <= i < |s| :: DivideAll(s, m)[i] <= 1.0
  {
    var r := DivideAll(s, m);
    forall i | 0 <= i < |s| ensures r[i] <= 1.0 {
      DivideAtMostOne(s[i], m);
    }
  }

  lemma MaxScalesToOne(s: seq<real>, m: real)
    requires m > 0.0 && m in s
    ensures 1.0 in DivideAll(s, m)
  {
    var k :| 0 <= k < |s| && s[k] == m;
    DivideSelf(m);
    assert DivideAll(s, m)[k] == 1.0;
  }

  lemma ScaledNonNegative(s: seq<real>, m: real)
    requires m > 0.0 && AllNonNegative(s)
    ensures AllNonNegative(DivideAll(s, m))
  {
    var r := DivideAll(s, m);
    forall i | 0 <= i < |s| ensures r[i] >= 0.0 {
      DivideNonNegative(s[i], m);
    }
  }

  lemma DivideSelf(m: real)
    requires m > 0.0
    ensures m / m == 1.0
  {
  }

  lemma DivideAtMostOne(x: real, m: real)
    requires m > 0.0 && x <= m
    ensures x / m <= 1.0
  {
    assert x / m * m == x;
  }

  lemma DivideNonNegative(x: real, m: real)
    requires m > 0.0 && x >= 0.0
    ensures x / m >= 0.0
  {
  }
}
