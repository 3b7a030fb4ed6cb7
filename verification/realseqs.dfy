/** Reductions over rows of reals: sums, weighted sums, extremes and the
    convex-combination bounds that the compositing and loss code rely on. */
module RealSeqs {

  // Sign facts about products, stated as implications so that callers can use
  // them without splitting cases.

  lemma MulNonNegative(a: real, b: real)
    ensures a >= 0.0 && b >= 0.0 ==> a * b >= 0.0
  {
  }

  lemma MulMonotone(a: real, b: real, c: real)
    ensures a <= b && c >= 0.0 ==> a * c <= b * c
  {
  }

  function Sum(s: seq<real>): real
  {
    if |s| == 0 then 0.0 else s[0] + Sum(s[1..])
  }

  /** `Σ_i w[i] * v[i]`, the reduction `einsum('s,s->')` performs on one row. */
  function Dot(w: seq<real>, v: seq<real>): real
    requires |w| == |v|
  {
    if |w| == 0 then 0.0 else w[0] * v[0] + Dot(w[1..], v[1..])
  }

  function Min(s: seq<real>): (m: real)
    requires |s| > 0
    ensures forall i :: 0 <= i < |s| ==> m <= s[i]
    ensures exists i :: 0 <= i < |s| && m == s[i]
  {
    if |s| == 1 then s[0]
    else
      var rest := Min(s[1..]);
      assert forall i :: 1 <= i < |s| ==> s[i] == s[1..][i - 1];
      if s[0] <= rest then s[0] else rest
  }

  function Max(s: seq<real>): (m: real)
    requires |s| > 0
    ensures forall i :: 0 <= i < |s| ==> s[i] <= m
    ensures exists i :: 0 <= i < |s| && m == s[i]
  {
    if |s| == 1 then s[0]
    else
      var rest := Max(s[1..]);
      assert forall i :: 1 <= i < |s| ==> s[i] == s[1..][i - 1];
      if s[0] >= rest then s[0] else rest
  }

  /** Every element divided by `d`. */
  function Divide(s: seq<real>, d: real): (r: seq<real>)
    requires d != 0.0
    ensures |r| == |s|
    ensures forall i :: 0 <= i < |s| ==> r[i] * d == s[i]
  {
    seq(|s|, i requires 0 <= i < |s| => s[i] / d)
  }

  ghost predicate NonNegative(s: seq<real>)
  {
    forall i :: 0 <= i < |s| ==> 0.0 <= s[i]
  }

  lemma {:induction false} SumNonNegative(s: seq<real>)
    requires NonNegative(s)
    ensures 0.0 <= Sum(s)
  {
    if |s| > 0 {
      SumNonNegative(s[1..]);
    }
  }

  lemma {:induction false} SumPositive(s: seq<real>)
    requires |s| > 0
    requires forall i :: 0 <= i < |s| ==> 0.0 < s[i]
    ensures 0.0 < Sum(s)
  {
    SumNonNegative(s[1..]);
  }

  /** Dividing every element by `d` divides the sum by `d`. */
  lemma {:induction false} SumDivide(s: seq<real>, d: real)
    requires d != 0.0
    ensures Sum(Divide(s, d)) * d == Sum(s)
  {
    if |s| > 0 {
      assert Divide(s, d)[1..] == Divide(s[1..], d);
      SumDivide(s[1..], d);
    }
  }

  /** With non-negative weights, a weighted sum of values bounded above by `m`
      is at most `m` times the total weight. */
  lemma {:induction false} DotAtMost(w: seq<real>, v: seq<real>, m: real)
    requires |w| == |v|
    requires NonNegative(w)
    requires forall i :: 0 <= i < |v| ==> v[i] <= m
    ensures Dot(w, v) <= m * Sum(w)
  {
    if |w| > 0 {
      DotAtMost(w[1..], v[1..], m);
      assert w[0] * v[0] <= w[0] * m by {
        assert 0.0 <= w[0] * (m - v[0]);
      }
    }
  }

  /** The lower-bound twin of `DotAtMost`. */
  lemma {:induction false} DotAtLeast(w: seq<real>, v: seq<real>, m: real)
    requires |w| == |v|
    requires NonNegative(w)
    requires forall i :: 0 <= i < |v| ==> m <= v[i]
    ensures m * Sum(w) <= Dot(w, v)
  {
    if |w| > 0 {
      DotAtLeast(w[1..], v[1..], m);
      assert w[0] * m <= w[0] * v[0] by {
        assert 0.0 <= w[0] * (v[0] - m);
      }
    }
  }

  /** A convex combination of a row lies between the row's extremes. */
  lemma ConvexCombinationBounds(w: seq<real>, v: seq<real>)
    requires |w| == |v| > 0
    requires NonNegative(w)
    requires Sum(w) == 1.0
    ensures Min(v) <= Dot(w, v) <= Max(v)
  {
    DotAtMost(w, v, Max(v));
    DotAtLeast(w, v, Min(v));
  }

  /** Uniform weights turn the weighted sum into the plain average. */
  lemma {:induction false} DotConstantWeights(w: seq<real>, v: seq<real>, c: real)
    requires |w| == |v|
    requires forall i :: 0 <= i < |w| ==> w[i] == c
    ensures Dot(w, v) == c * Sum(v)
  {
    if |w| > 0 {
      DotConstantWeights(w[1..], v[1..], c);
    }
  }

  /** A one-hot weight vector picks out the entry at its one. */
  lemma {:induction false} DotOneHot(w: seq<real>, v: seq<real>, i: nat)
    requires |w| == |v| && i < |w|
    requires forall k :: 0 <= k < |w| ==> w[k] == if k == i then 1.0 else 0.0
    ensures Dot(w, v) == v[i]
  {
    if i == 0 {
      DotConstantWeights(w[1..], v[1..], 0.0);
    } else {
      DotOneHot(w[1..], v[1..], i - 1);
    }
  }

  /** Uniform weights `q` with `q * n == 1` average the values. */
  lemma ConstantWeightsMean(w: seq<real>, v: seq<real>, q: real, n: real)
    requires |w| == |v|
    requires forall s :: 0 <= s < |w| ==> w[s] == q
    requires q * n == 1.0
    ensures Dot(w, v) * n == Sum(v)
  {
    DotConstantWeights(w, v, q);
    var d, total := Dot(w, v), Sum(v);
    ScaleBackTo(d, q, total, n);
  }

  lemma ScaleBackTo(d: real, q: real, s: real, n: real)
    requires d == q * s && q * n == 1.0
    ensures d * n == s
  {
    ScaleBack(q, s, n);
  }

  lemma ScaleBack(q: real, s: real, n: real)
    requires q * n == 1.0
    ensures q * s * n == s
  {
    assert q * s * n == (q * n) * s;
  }
}
