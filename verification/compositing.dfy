/** `compose_strokes` of `strokelib/strokes.py`, for one sample: the
    per-stroke alphas, colours and densities of a single point are reduced
    to one density and one colour. The rows of a batch are independent, so
    one row is the whole story; the shape checks of the backend path are in
    `StrokeShapes`. */
module Compositing {
  import opened Results
  import opened RealSeqs
  import StrokeShapes

  datatype Strategy = OverStrategy | MaxStrategy | MaxDensityWeighted | SoftmaxStrategy | SoftmaxDensityWeighted

  function StrategyName(s: Strategy): string
  {
    match s
    case OverStrategy => "over"
    case MaxStrategy => "max"
    case MaxDensityWeighted => "max_density_weighted"
    case SoftmaxStrategy => "softmax"
    case SoftmaxDensityWeighted => "softmax_density_weighted"
  }

  function ParseStrategy(name: string): (r: Option<Strategy>)
    ensures r.Some? ==> StrategyName(r.value) == name
  {
    if name == "over" then Some(OverStrategy)
    else if name == "max" then Some(MaxStrategy)
    else if name == "max_density_weighted" then Some(MaxDensityWeighted)
    else if name == "softmax" then Some(SoftmaxStrategy)
    else if name == "softmax_density_weighted" then Some(SoftmaxDensityWeighted)
    else None
  }

  /** Every strategy is selected by its own name. */
  lemma ParseStrategyName(s: Strategy)
    ensures ParseStrategy(StrategyName(s)) == Some(s)
  {
  }

  /** The softmax temperature is 0.05; its inverse is exactly 20 in binary
      floating point. */
  const InvTemp: real := 20.0

  datatype Composite = Composite(density: real, color: seq<real>)

  /** One sample's inputs: a stroke axis shared by alphas, colours and
      density parameters, and `channels` colour values per stroke. */
  predicate WellShaped(alphas: seq<real>, colors: seq<seq<real>>, densities: seq<real>, channels: nat)
  {
    && |alphas| == |colors| == |densities|
    && forall s :: 0 <= s < |colors| ==> |colors[s]| == channels
  }

  /** `alphas * density_params`: each stroke's alpha scaled by its density. */
  function Weighted(alphas: seq<real>, densities: seq<real>): (w: seq<real>)
    requires |alphas| == |densities|
    ensures |w| == |alphas|
    ensures forall s :: 0 <= s < |w| ==> w[s] == alphas[s] * densities[s]
  {
    seq(|alphas|, s requires 0 <= s < |alphas| => alphas[s] * densities[s])
  }

  function Scale(v: seq<real>, k: real): (r: seq<real>)
    ensures |r| == |v|
    ensures forall s :: 0 <= s < |r| ==> r[s] == v[s] * k
  {
    seq(|v|, s requires 0 <= s < |v| => v[s] * k)
  }

  /** Channel `c` of every stroke's colour. */
  function Column(colors: seq<seq<real>>, c: nat): (col: seq<real>)
    requires forall s :: 0 <= s < |colors| ==> c < |colors[s]|
    ensures |col| == |colors|
    ensures forall s :: 0 <= s < |col| ==> col[s] == colors[s][c]
  {
    seq(|colors|, s requires 0 <= s < |colors| => colors[s][c])
  }

  // ---------------------------------------------------------------------------
  // argmax

  /** `i` is where `torch.argmax` lands: a largest key, and the first one. */
  predicate IsFirstMax(keys: seq<real>, i: int)
  {
    && 0 <= i < |keys|
    && (forall j :: 0 <= j < |keys| ==> keys[j] <= keys[i])
    && (forall j :: 0 <= j < i ==> keys[j] < keys[i])
  }

  function ArgMax(keys: seq<real>): (i: nat)
    requires |keys| > 0
    ensures IsFirstMax(keys, i)
  {
    if |keys| == 1 then 0
    else
      var j := ArgMax(keys[..|keys| - 1]);
      if keys[j] < keys[|keys| - 1] then |keys| - 1 else j
  }

  /** The first maximum is a single index: argmax is determined by the keys. */
  lemma FirstMaxUnique(keys: seq<real>, i: int, j: int)
    requires IsFirstMax(keys, i) && IsFirstMax(keys, j)
    ensures i == j
  {
    assert keys[i] == keys[j];
  }

  /** The stroke chosen by a max strategy passes on its weighted density and
      its colour unchanged. */
  function Select(alphas: seq<real>, colors: seq<seq<real>>, densities: seq<real>, i: nat): Composite
    requires |alphas| == |colors| == |densities|
    requires i < |alphas|
  {
    Composite(alphas[i] * densities[i], colors[i])
  }

  // ---------------------------------------------------------------------------
  // softmax

  ghost predicate PositiveExp(exp: real -> real)
  {
    forall x :: 0.0 < exp(x)
  }

  ghost predicate MonotoneExp(exp: real -> real)
  {
    forall x, y :: x <= y ==> exp(x) <= exp(y)
  }

  lemma ExpPositiveAt(exp: real -> real, x: real)
    requires PositiveExp(exp)
    ensures 0.0 < exp(x)
  {
  }

  lemma ExpMonotoneAt(exp: real -> real, x: real, y: real)
    requires MonotoneExp(exp) && x <= y
    ensures exp(x) <= exp(y)
  {
  }

  function Exps(z: seq<real>, exp: real -> real): (e: seq<real>)
    ensures |e| == |z|
    ensures forall s :: 0 <= s < |e| ==> e[s] == exp(z[s])
  {
    seq(|z|, s requires 0 <= s < |z| => exp(z[s]))
  }

  lemma ExpsPositive(z: seq<real>, exp: real -> real)
    requires PositiveExp(exp)
    ensures forall s :: 0 <= s < |z| ==> 0.0 < Exps(z, exp)[s]
  {
    forall s | 0 <= s < |z|
      ensures 0.0 < Exps(z, exp)[s]
    {
      ExpPositiveAt(exp, z[s]);
    }
  }

  lemma QuotientPositive(a: real, q: real, d: real)
    requires 0.0 < d && q * d == a
    ensures 0.0 < a <==> 0.0 < q
  {
    MulNonNegative(-q, d);
  }

  lemma CancelFactor(a: real, b: real, d: real)
    requires 0.0 < d && a * d == b * d
    ensures a == b
  {
    QuotientPositive(a * d - b * d, a - b, d);
    QuotientPositive(b * d - a * d, b - a, d);
  }

  /** `torch.softmax` of `z`, with the exponential supplied. */
  function SoftmaxWeights(z: seq<real>, exp: real -> real): (w: seq<real>)
    requires PositiveExp(exp)
    ensures |w| == |z|
    ensures forall s :: 0 <= s < |w| ==> 0.0 < w[s]
    ensures |z| > 0 ==> Sum(w) == 1.0
  {
    if |z| == 0 then []
    else
      var e := Exps(z, exp);
      ExpsPositive(z, exp);
      SumPositive(e);
      var d := Sum(e);
      var w := Divide(e, d);
      SoftmaxWeightsProperties(e, d);
      w
  }

  lemma SoftmaxWeightsProperties(e: seq<real>, d: real)
    requires forall s :: 0 <= s < |e| ==> 0.0 < e[s]
    requires 0.0 < d && d == Sum(e)
    ensures forall s :: 0 <= s < |e| ==> 0.0 < Divide(e, d)[s]
    ensures Sum(Divide(e, d)) == 1.0
  {
    DividePositive(e, d);
    DivideBySum(e, d);
  }

  lemma DividePositive(e: seq<real>, d: real)
    requires forall s :: 0 <= s < |e| ==> 0.0 < e[s]
    requires 0.0 < d
    ensures forall s :: 0 <= s < |e| ==> 0.0 < Divide(e, d)[s]
  {
    forall s | 0 <= s < |e|
      ensures 0.0 < Divide(e, d)[s]
    {
      QuotientPositive(e[s], Divide(e, d)[s], d);
    }
  }

  lemma DivideBySum(e: seq<real>, d: real)
    requires d != 0.0 && d == Sum(e)
    ensures Sum(Divide(e, d)) == 1.0
  {
    SumDivide(e, d);
    UnitFactor(Sum(Divide(e, d)), d);
  }

  lemma UnitFactor(t: real, d: real)
    requires d != 0.0 && t * d == d
    ensures t == 1.0
  {
    assert (t - 1.0) * d == 0.0;
  }

  /** Softmax-weighted blend: the weighted density and every colour channel
      averaged with the weights. */
  function Blend(w: seq<real>, alphas: seq<real>, colors: seq<seq<real>>, densities: seq<real>, channels: nat)
    : (c: Composite)
    requires WellShaped(alphas, colors, densities, channels) && |w| == |alphas|
    ensures |c.color| == channels
    ensures c.density == Dot(w, Weighted(alphas, densities))
    ensures forall ch :: 0 <= ch < channels ==> c.color[ch] == Dot(w, Column(colors, ch))
  {
    Composite(Dot(w, Weighted(alphas, densities)),
              seq(channels, ch requires 0 <= ch < channels => Dot(w, Column(colors, ch))))
  }

  /** A blend whose weights all sit on one stroke is that stroke's
      selection: the softmax strategies and the max strategies return the
      same composite once the weights single out a stroke. */
  lemma BlendOneHot(w: seq<real>, alphas: seq<real>, colors: seq<seq<real>>, densities: seq<real>,
                    channels: nat, i: nat)
    requires WellShaped(alphas, colors, densities, channels) && |w| == |alphas| && i < |alphas|
    requires forall k :: 0 <= k < |w| ==> w[k] == if k == i then 1.0 else 0.0
    ensures Blend(w, alphas, colors, densities, channels) == Select(alphas, colors, densities, i)
  {
    var b := Blend(w, alphas, colors, densities, channels);
    DotOneHot(w, Weighted(alphas, densities), i);
    forall ch | 0 <= ch < channels
      ensures b.color[ch] == colors[i][ch]
    {
      DotOneHot(w, Column(colors, ch), i);
    }
  }

  // ---------------------------------------------------------------------------
  // compose_strokes

  datatype ComposeError =
    | UnknownComposition  // the final `assert 0` on an unrecognised name
    | EmptyStrokeAxis     // argmax over a stroke axis of length zero
    | OverEmptyReshape    // the backend's `-1` reshape of an empty stroke or colour axis

  /** The composite lies within what the strokes offer: its density between
      the smallest and largest weighted density, each colour channel between
      the strokes' smallest and largest value, and zero with no strokes. */
  ghost predicate WithinStrokes(c: Composite, alphas: seq<real>, colors: seq<seq<real>>,
                                densities: seq<real>, channels: nat)
    requires WellShaped(alphas, colors, densities, channels)
  {
    && |c.color| == channels
    && (|alphas| > 0 ==>
        && Min(Weighted(alphas, densities)) <= c.density <= Max(Weighted(alphas, densities))
        && forall ch :: 0 <= ch < channels ==>
             Min(Column(colors, ch)) <= c.color[ch] <= Max(Column(colors, ch)))
    && (|alphas| == 0 ==> c.density == 0.0 && forall ch :: 0 <= ch < channels ==> c.color[ch] == 0.0)
  }

  /** The reduction for one sample under the named strategy; the backend's
      "over" compositing is the parameter `over`, the exponential is `exp`. */
  function ComposeStrokes(name: string, alphas: seq<real>, colors: seq<seq<real>>, densities: seq<real>,
                          channels: nat, exp: real -> real,
                          over: (seq<real>, seq<seq<real>>, seq<real>) -> Composite)
    : (r: Result<Composite, ComposeError>)
    requires WellShaped(alphas, colors, densities, channels)
    requires PositiveExp(exp)
    ensures ParseStrategy(name).None? <==> r == Err(UnknownComposition)
    ensures r == Err(EmptyStrokeAxis) <==>
      ParseStrategy(name) in {Some(MaxStrategy), Some(MaxDensityWeighted)} && |alphas| == 0
    ensures r == Err(OverEmptyReshape) <==>
      ParseStrategy(name) == Some(OverStrategy) && (|alphas| == 0 || channels == 0)
    ensures r.Ok? <==>
      && ParseStrategy(name).Some?
      && (ParseStrategy(name) in {Some(MaxStrategy), Some(MaxDensityWeighted)} ==> |alphas| > 0)
      && (ParseStrategy(name) == Some(OverStrategy) ==> |alphas| > 0 && channels > 0)
    ensures ParseStrategy(name) == Some(MaxStrategy) && r.Ok? ==>
      exists i :: IsFirstMax(alphas, i) && r.value == Select(alphas, colors, densities, i)
    ensures ParseStrategy(name) == Some(MaxDensityWeighted) && r.Ok? ==>
      exists i :: IsFirstMax(Weighted(alphas, densities), i) && r.value == Select(alphas, colors, densities, i)
  {
    match ParseStrategy(name)
    case None => Err(UnknownComposition)
    case Some(OverStrategy) =>
      if |alphas| == 0 || channels == 0 then Err(OverEmptyReshape)
      else Ok(over(alphas, colors, densities))
    case Some(MaxStrategy) =>
      if |alphas| == 0 then Err(EmptyStrokeAxis)
      else
        Ok(Select(alphas, colors, densities, ArgMax(alphas)))
    case Some(MaxDensityWeighted) =>
      if |alphas| == 0 then Err(EmptyStrokeAxis)
      else
        Ok(Select(alphas, colors, densities, ArgMax(Weighted(alphas, densities))))
    case Some(SoftmaxStrategy) =>
      Ok(Blend(SoftmaxWeights(Scale(alphas, InvTemp), exp), alphas, colors, densities, channels))
    case Some(SoftmaxDensityWeighted) =>
      Ok(Blend(SoftmaxWeights(Scale(Weighted(alphas, densities), InvTemp), exp), alphas, colors, densities, channels))
  }

  /** For one sample point the "over" strategy succeeds exactly when the
      backend's shape checks accept one row of `|alphas|` strokes with
      `channels` colour channels. */
  lemma OverAgreesWithBackendShapes(alphas: seq<real>, colors: seq<seq<real>>, densities: seq<real>,
                                    channels: nat, exp: real -> real,
                                    over: (seq<real>, seq<seq<real>>, seq<real>) -> Composite)
    requires WellShaped(alphas, colors, densities, channels) && PositiveExp(exp)
    ensures ComposeStrokes("over", alphas, colors, densities, channels, exp, over).Ok? <==>
      StrokeShapes.ComposeForwardShapes([1, |alphas|], [1, |alphas|, channels], [|alphas|]).Ok?
  {
    var a: StrokeShapes.Shape := [1, |alphas|];
    var c: StrokeShapes.Shape := [1, |alphas|, channels];
    assert a[..|a| - 1] == [1] == c[..|c| - 2];
    assert StrokeShapes.Prod([1]) == 1 by {
      assert [1][..0] == [];
    }
  }

  /** No strokes, or strokes without colour channels, make the "over"
      strategy fail at the backend's reshape. */
  lemma ComposeOverRefusesEmpty(exp: real -> real, over: (seq<real>, seq<seq<real>>, seq<real>) -> Composite)
    requires PositiveExp(exp)
    ensures ComposeStrokes("over", [], [], [], 3, exp, over) == Err(OverEmptyReshape)
    ensures ComposeStrokes("over", [0.5], [[]], [1.0], 0, exp, over) == Err(OverEmptyReshape)
  {
  }

  /** Every strategy but the backend's "over" keeps the composite within
      the strokes: a max strategy copies one stroke, a softmax strategy takes
      a convex combination of them. */
  lemma ComposeWithinStrokes(name: string, alphas: seq<real>, colors: seq<seq<real>>, densities: seq<real>,
                             channels: nat, exp: real -> real,
                             over: (seq<real>, seq<seq<real>>, seq<real>) -> Composite)
    requires WellShaped(alphas, colors, densities, channels) && PositiveExp(exp)
    requires ParseStrategy(name).Some? && ParseStrategy(name) != Some(OverStrategy)
    ensures var r := ComposeStrokes(name, alphas, colors, densities, channels, exp, over);
      r.Ok? ==> WithinStrokes(r.value, alphas, colors, densities, channels)
  {
    match ParseStrategy(name)
    case Some(MaxStrategy) =>
      if |alphas| > 0 { SelectWithin(alphas, colors, densities, channels, ArgMax(alphas)); }
    case Some(MaxDensityWeighted) =>
      if |alphas| > 0 { SelectWithin(alphas, colors, densities, channels, ArgMax(Weighted(alphas, densities))); }
    case Some(SoftmaxStrategy) =>
      BlendWithin(SoftmaxWeights(Scale(alphas, InvTemp), exp), alphas, colors, densities, channels);
    case Some(SoftmaxDensityWeighted) =>
      BlendWithin(SoftmaxWeights(Scale(Weighted(alphas, densities), InvTemp), exp), alphas, colors, densities, channels);
  }

  lemma SelectWithin(alphas: seq<real>, colors: seq<seq<real>>, densities: seq<real>, channels: nat, i: nat)
    requires WellShaped(alphas, colors, densities, channels) && i < |alphas|
    ensures WithinStrokes(Select(alphas, colors, densities, i), alphas, colors, densities, channels)
  {
    var c := Select(alphas, colors, densities, i);
    var wd := Weighted(alphas, densities);
    assert c.density == wd[i];
    forall ch | 0 <= ch < channels
      ensures Min(Column(colors, ch)) <= c.color[ch] <= Max(Column(colors, ch))
    {
      assert c.color[ch] == Column(colors, ch)[i];
    }
  }

  lemma BlendWithin(w: seq<real>, alphas: seq<real>, colors: seq<seq<real>>, densities: seq<real>, channels: nat)
    requires WellShaped(alphas, colors, densities, channels) && |w| == |alphas|
    requires forall s :: 0 <= s < |w| ==> 0.0 < w[s]
    requires |w| > 0 ==> Sum(w) == 1.0
    ensures WithinStrokes(Blend(w, alphas, colors, densities, channels), alphas, colors, densities, channels)
  {
    var c := Blend(w, alphas, colors, densities, channels);
    if |alphas| > 0 {
      ConvexCombinationBounds(w, Weighted(alphas, densities));
      forall ch | 0 <= ch < channels
        ensures Min(Column(colors, ch)) <= c.color[ch] <= Max(Column(colors, ch))
      {
        ConvexCombinationBounds(w, Column(colors, ch));
      }
    } else {
      forall ch | 0 <= ch < channels
        ensures c.color[ch] == 0.0
      {
        assert Dot(w, Column(colors, ch)) == 0.0;
      }
    }
  }

  // ---------------------------------------------------------------------------
  // Relations between the strategies

  lemma MulStrict(a: real, b: real, d: real)
    requires a < b && 0.0 < d
    ensures a * d < b * d
  {
    QuotientPositive(b * d - a * d, b - a, d);
  }

  /** Scaling every key by the same positive factor keeps the first maximum. */
  lemma FirstMaxScaled(keys: seq<real>, scaled: seq<real>, d: real, i: int)
    requires 0.0 < d && |scaled| == |keys|
    requires forall s :: 0 <= s < |keys| ==> scaled[s] == keys[s] * d
    ensures IsFirstMax(keys, i) <==> IsFirstMax(scaled, i)
  {
    if 0 <= i < |keys| {
      forall j | 0 <= j < |keys|
        ensures keys[j] <= keys[i] <==> scaled[j] <= scaled[i]
        ensures keys[j] < keys[i] <==> scaled[j] < scaled[i]
      {
        if keys[j] < keys[i] { MulStrict(keys[j], keys[i], d); }
        else if keys[i] < keys[j] { MulStrict(keys[i], keys[j], d); }
      }
    }
  }

  /** With one shared positive density parameter, weighting by density
      changes nothing: "max_density_weighted" picks the stroke "max" picks. */
  lemma MaxDensityWeightedUniform(alphas: seq<real>, colors: seq<seq<real>>, densities: seq<real>,
                                  channels: nat, d: real, exp: real -> real,
                                  over: (seq<real>, seq<seq<real>>, seq<real>) -> Composite)
    requires WellShaped(alphas, colors, densities, channels) && PositiveExp(exp)
    requires 0.0 < d && forall s :: 0 <= s < |densities| ==> densities[s] == d
    ensures ComposeStrokes("max_density_weighted", alphas, colors, densities, channels, exp, over)
         == ComposeStrokes("max", alphas, colors, densities, channels, exp, over)
  {
    ParseStrategyName(MaxStrategy);
    ParseStrategyName(MaxDensityWeighted);
    if |alphas| > 0 {
      var wd := Weighted(alphas, densities);
      var j := ArgMax(wd);
      FirstMaxScaled(alphas, wd, d, j);
      FirstMaxUnique(alphas, ArgMax(alphas), j);
      ComposeMaxDensityWeightedSelects(alphas, colors, densities, channels, exp, over);
    }
  }

  lemma ComposeMaxDensityWeightedSelects(alphas: seq<real>, colors: seq<seq<real>>, densities: seq<real>,
                                         channels: nat, exp: real -> real,
                                         over: (seq<real>, seq<seq<real>>, seq<real>) -> Composite)
    requires WellShaped(alphas, colors, densities, channels) && PositiveExp(exp) && |alphas| > 0
    ensures ComposeStrokes("max_density_weighted", alphas, colors, densities, channels, exp, over)
         == Ok(Select(alphas, colors, densities, ArgMax(Weighted(alphas, densities))))
  {
    ParseStrategyName(MaxDensityWeighted);
  }

  /** With differing densities the two max strategies can disagree: alphas
      0.9 and 0.5 with densities 1 and 3 give density 0.9 under "max" and
      1.5 under "max_density_weighted". */
  lemma MaxStrategiesDiffer(exp: real -> real, over: (seq<real>, seq<seq<real>>, seq<real>) -> Composite)
    requires PositiveExp(exp)
    ensures ComposeStrokes("max", [0.9, 0.5], [[1.0], [0.0]], [1.0, 3.0], 1, exp, over)
         == Ok(Composite(0.9, [1.0]))
    ensures ComposeStrokes("max_density_weighted", [0.9, 0.5], [[1.0], [0.0]], [1.0, 3.0], 1, exp, over)
         == Ok(Composite(1.5, [0.0]))
  {
    var alphas, colors, densities := [0.9, 0.5], [[1.0], [0.0]], [1.0, 3.0];
    assert IsFirstMax(alphas, 0);
    FirstMaxUnique(alphas, 0, ArgMax(alphas));
    var wd := Weighted(alphas, densities);
    assert wd[0] == 0.9 && wd[1] == 1.5;
    assert IsFirstMax(wd, 1);
    FirstMaxUnique(wd, 1, ArgMax(wd));
  }

  lemma {:induction false} SumConstant(v: seq<real>, c: real)
    requires forall s :: 0 <= s < |v| ==> v[s] == c
    ensures Sum(v) == c * (|v| as real)
  {
    if |v| > 0 {
      SumConstant(v[1..], c);
    }
  }

  lemma QuotientMonotone(a: real, b: real, qa: real, qb: real, d: real)
    requires 0.0 < d && qa * d == a && qb * d == b && a <= b
    ensures qa <= qb
  {
    assert (qb - qa) * d == b - a;
  }

  lemma CancelPositive(x: real, e: real, n: real, d: real)
    requires 0.0 < e && d == e * n && x * d == e
    ensures x * n == 1.0
  {
    assert x * (e * n) == e;
    assert (x * n - 1.0) * e == 0.0;
  }

  /** The softmax weights are the exponentials over their total. */
  lemma SoftmaxWeightsUnfold(z: seq<real>, exp: real -> real)
    requires PositiveExp(exp) && |z| > 0
    ensures 0.0 < Sum(Exps(z, exp))
    ensures SoftmaxWeights(z, exp) == Divide(Exps(z, exp), Sum(Exps(z, exp)))
  {
    ExpsPositive(z, exp);
    SumPositive(Exps(z, exp));
  }

  /** Equal keys get equal weights, `1/n` each. */
  lemma {:induction false} SoftmaxEqualKeys(z: seq<real>, exp: real -> real, k: real)
    requires PositiveExp(exp) && |z| > 0
    requires forall s :: 0 <= s < |z| ==> z[s] == k
    ensures forall s :: 0 <= s < |z| ==> SoftmaxWeights(z, exp)[s] * (|z| as real) == 1.0
  {
    SoftmaxWeightsUnfold(z, exp);
    var e := Exps(z, exp);
    var w := SoftmaxWeights(z, exp);
    var big := exp(k);
    ExpPositiveAt(exp, k);
    SumConstant(e, big);
    forall s | 0 <= s < |z|
      ensures w[s] * (|z| as real) == 1.0
    {
      assert w[s] * Sum(e) == e[s];
      CancelPositive(w[s], big, |z| as real, Sum(e));
    }
  }

  lemma ComposeSoftmaxBlends(alphas: seq<real>, colors: seq<seq<real>>, densities: seq<real>,
                             channels: nat, exp: real -> real,
                             over: (seq<real>, seq<seq<real>>, seq<real>) -> Composite)
    requires WellShaped(alphas, colors, densities, channels) && PositiveExp(exp)
    ensures ComposeStrokes("softmax", alphas, colors, densities, channels, exp, over)
         == Ok(Blend(SoftmaxWeights(Scale(alphas, InvTemp), exp), alphas, colors, densities, channels))
  {
    ParseStrategyName(SoftmaxStrategy);
  }

  /** When every stroke has the same alpha, "softmax" weighs them equally:
      the density is the mean of the weighted densities. */
  lemma SoftmaxEqualAlphas(alphas: seq<real>, colors: seq<seq<real>>, densities: seq<real>,
                           channels: nat, a: real, exp: real -> real,
                           over: (seq<real>, seq<seq<real>>, seq<real>) -> Composite)
    requires WellShaped(alphas, colors, densities, channels) && PositiveExp(exp)
    requires forall s :: 0 <= s < |alphas| ==> alphas[s] == a
    ensures var r := ComposeStrokes("softmax", alphas, colors, densities, channels, exp, over);
      r.Ok? && r.value.density * (|alphas| as real) == Sum(Weighted(alphas, densities))
  {
    ComposeSoftmaxBlends(alphas, colors, densities, channels, exp, over);
    var z := Scale(alphas, InvTemp);
    if |alphas| > 0 {
      ScaleConstant(alphas, a, InvTemp);
      SoftmaxEqualKeys(z, exp, a * InvTemp);
      EqualWeightsMean(SoftmaxWeights(z, exp), Weighted(alphas, densities), |alphas| as real);
    }
  }

  lemma ScaleConstant(v: seq<real>, a: real, k: real)
    requires forall s :: 0 <= s < |v| ==> v[s] == a
    ensures forall s :: 0 <= s < |v| ==> Scale(v, k)[s] == a * k
  {
  }

  /** Weights of `1/n` each average the values. */
  lemma EqualWeightsMean(w: seq<real>, v: seq<real>, n: real)
    requires |w| == |v| > 0
    requires forall s :: 0 <= s < |w| ==> w[s] * n == 1.0
    ensures Dot(w, v) * n == Sum(v)
  {
    UnitWeightsEqual(w, n);
    ConstantWeightsMean(w, v, w[0], n);
  }

  lemma UnitWeightsEqual(w: seq<real>, n: real)
    requires |w| > 0
    requires forall s :: 0 <= s < |w| ==> w[s] * n == 1.0
    ensures forall s :: 0 <= s < |w| ==> w[s] == w[0]
    ensures w[0] * n == 1.0
  {
    forall s | 0 <= s < |w|
      ensures w[s] == w[0]
    {
      UnitFactorBoth(w[s], w[0], n);
    }
  }

  lemma UnitFactorBoth(x: real, y: real, n: real)
    requires x * n == 1.0 && y * n == 1.0
    ensures x == y
  {
    assert (x - y) * n == 0.0;
  }

  /** With a monotone exponential, a stroke with the larger softmax key gets
      at least the weight of one with a smaller key. */
  lemma SoftmaxFavoursLargerKeys(z: seq<real>, exp: real -> real, i: int, j: int)
    requires PositiveExp(exp) && MonotoneExp(exp)
    requires 0 <= i < |z| && 0 <= j < |z| && z[i] <= z[j]
    ensures SoftmaxWeights(z, exp)[i] <= SoftmaxWeights(z, exp)[j]
  {
    SoftmaxWeightAt(z, exp, i);
    SoftmaxWeightAt(z, exp, j);
    ExpMonotoneAt(exp, z[i], z[j]);
    var w := SoftmaxWeights(z, exp);
    QuotientMonotone(exp(z[i]), exp(z[j]), w[i], w[j], Sum(Exps(z, exp)));
  }

  /** One softmax weight times the total of the exponentials is that
      stroke's exponential. */
  lemma SoftmaxWeightAt(z: seq<real>, exp: real -> real, i: int)
    requires PositiveExp(exp) && 0 <= i < |z|
    ensures 0.0 < Sum(Exps(z, exp))
    ensures SoftmaxWeights(z, exp)[i] * Sum(Exps(z, exp)) == exp(z[i])
  {
    SoftmaxWeightsUnfold(z, exp);
  }

  /** In particular the stroke "max" picks carries the largest "softmax"
      weight. */
  lemma SoftmaxWeightOfArgMax(alphas: seq<real>, exp: real -> real, j: int)
    requires PositiveExp(exp) && MonotoneExp(exp)
    requires |alphas| > 0 && 0 <= j < |alphas|
    ensures var w := SoftmaxWeights(Scale(alphas, InvTemp), exp);
      w[j] <= w[ArgMax(alphas)]
  {
    var z := Scale(alphas, InvTemp);
    var i := ArgMax(alphas);
    MulMonotone(alphas[j], alphas[i], InvTemp);
    SoftmaxFavoursLargerKeys(z, exp, j, i);
  }
}
