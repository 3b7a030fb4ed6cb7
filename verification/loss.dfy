/** The photometric loss bookkeeping of `loss.py`: the per-element data loss
    chosen by name, the integrated distance between two line segments, the
    level weighting of the total data loss, and the asymmetric residual of
    the error-prediction loss. Tensors are flattened to sequences of reals;
    square root is a parameter. */
module Loss {
  import opened Results
  import opened RealSeqs

  function Abs(x: real): real { if x < 0.0 then -x else x }

  lemma SquareNonNegative(x: real)
    ensures 0.0 <= x * x
  {
    if x < 0.0 {
      MulNonNegative(-x, -x);
    } else {
      MulNonNegative(x, x);
    }
  }

  lemma AbsSquare(x: real)
    ensures Abs(x) * Abs(x) == x * x
  {
  }

  // ---------------------------------------------------------------------------
  // _get_data_loss

  datatype DataLossType = Mse | L1 | Charb | Huber

  function LossTypeName(t: DataLossType): string
  {
    match t
    case Mse => "mse"
    case L1 => "l1"
    case Charb => "charb"
    case Huber => "huber"
  }

  function ParseLossType(name: string): (r: Option<DataLossType>)
    ensures r.Some? ==> LossTypeName(r.value) == name
  {
    if name == "mse" then Some(Mse)
    else if name == "l1" then Some(L1)
    else if name == "charb" then Some(Charb)
    else if name == "huber" then Some(Huber)
    else None
  }

  lemma ParseLossTypeName(t: DataLossType)
    ensures ParseLossType(LossTypeName(t)) == Some(t)
  {
  }

  /** A square root on the non-negative reals. */
  ghost predicate ValidSqrt(sqrt: real -> real)
  {
    forall x :: 0.0 <= x ==> 0.0 <= sqrt(x) && sqrt(x) * sqrt(x) == x
  }

  lemma SqrtAt(sqrt: real -> real, x: real)
    requires ValidSqrt(sqrt) && 0.0 <= x
    ensures 0.0 <= sqrt(x) && sqrt(x) * sqrt(x) == x
  {
  }

  /** The loss of one residual `r`, from `r²` and `|r|` as the source has
      them: squared, absolute, Charbonnier with padding `p`, or Huber with
      threshold `delta`. */
  function ElementLoss(t: DataLossType, r: real, p: real, delta: real, sqrt: real -> real): real
  {
    match t
    case Mse => r * r
    case L1 => Abs(r)
    case Charb => sqrt(r * r + p * p)
    case Huber => if Abs(r) < delta then 0.5 * (r * r) else delta * (Abs(r) - 0.5 * delta)
  }

  /** Every data loss is even in the residual: over- and under-shooting by
      the same amount cost the same. */
  lemma ElementLossEven(t: DataLossType, r: real, p: real, delta: real, sqrt: real -> real)
    ensures ElementLoss(t, -r, p, delta, sqrt) == ElementLoss(t, r, p, delta, sqrt)
  {
    assert (-r) * (-r) == r * r;
  }

  /** Every data loss is non-negative, Huber for a positive threshold and
      Charbonnier for a genuine square root. */
  lemma ElementLossNonNegative(t: DataLossType, r: real, p: real, delta: real, sqrt: real -> real)
    requires t == Huber ==> 0.0 < delta
    requires t == Charb ==> ValidSqrt(sqrt)
    ensures 0.0 <= ElementLoss(t, r, p, delta, sqrt)
  {
    SquareNonNegative(r);
    match t
    case Mse =>
    case L1 =>
    case Charb =>
      SquareNonNegative(p);
      SqrtAt(sqrt, r * r + p * p);
    case Huber =>
      if delta <= Abs(r) {
        MulNonNegative(delta, Abs(r) - 0.5 * delta);
      }
  }

  /** The two Huber branches meet at `|r| = delta`: the loss is continuous
      there, with value `delta² / 2` from both sides. */
  lemma HuberContinuous(r: real, delta: real, p: real, sqrt: real -> real)
    requires Abs(r) == delta
    ensures ElementLoss(Huber, r, p, delta, sqrt) == 0.5 * (r * r)
    ensures ElementLoss(Huber, r, p, delta, sqrt) == delta * (Abs(r) - 0.5 * delta)
  {
    AbsSquare(r);
    assert delta * (Abs(r) - 0.5 * delta) == 0.5 * (delta * delta);
  }

  /** Huber never exceeds half the squared error; beyond the threshold it
      grows only linearly, by `delta` per unit of `|r|`. */
  lemma HuberBelowHalfSquare(r: real, delta: real, p: real, sqrt: real -> real)
    ensures ElementLoss(Huber, r, p, delta, sqrt) <= 0.5 * (r * r)
  {
    var a := Abs(r);
    AbsSquare(r);
    SquareNonNegative(a - delta);
    assert 0.5 * (a * a) - delta * (a - 0.5 * delta) == 0.5 * ((a - delta) * (a - delta));
  }

  /** With a zero residual, squared, absolute and Huber losses vanish, and
      the Charbonnier loss is the padding's magnitude. */
  lemma ElementLossAtZero(t: DataLossType, p: real, delta: real, sqrt: real -> real)
    requires t == Huber ==> 0.0 < delta
    requires t == Charb ==> ValidSqrt(sqrt)
    ensures t != Charb ==> ElementLoss(t, 0.0, p, delta, sqrt) == 0.0
    ensures t == Charb ==> ElementLoss(t, 0.0, p, delta, sqrt) == Abs(p)
  {
    if t == Charb {
      var s := sqrt(p * p);
      SquareNonNegative(p);
      SqrtAt(sqrt, p * p);
      AbsSquare(p);
      SameSquareRoot(s, Abs(p));
    }
  }

  /** Two non-negative reals with equal squares are equal. */
  lemma SameSquareRoot(a: real, b: real)
    requires 0.0 <= a && 0.0 <= b && a * a == b * b
    ensures a == b
  {
    assert (a - b) * (a + b) == 0.0;
    if a + b == 0.0 {
    } else {
      assert a - b == 0.0;
    }
  }

  datatype LossError =
    | UnknownLossType  // the assert on an unrecognised data_loss_type
    | NoLevels         // `data_losses[-1]` on an empty list of renderings

  /** `_get_data_loss` applied to one residual, selected by name. */
  function GetDataLoss(name: string, r: real, p: real, delta: real, sqrt: real -> real)
    : (res: Result<real, LossError>)
    ensures res.Err? <==> ParseLossType(name).None?
    ensures res.Err? ==> res.error == UnknownLossType
    ensures name == "mse" ==> res == Ok(r * r)
    ensures name == "l1" ==> res == Ok(Abs(r))
  {
    match ParseLossType(name)
    case None => Err(UnknownLossType)
    case Some(t) => Ok(ElementLoss(t, r, p, delta, sqrt))
  }

  // ---------------------------------------------------------------------------
  // segment_segment_integrated_distance

  datatype Vec3 = Vec3(x: real, y: real, z: real)

  /** The difference of two points; a point minus itself is the origin. */
  function Sub(a: Vec3, b: Vec3): (d: Vec3)
    ensures a == b ==> d == Zero
  {
    Vec3(a.x - b.x, a.y - b.y, a.z - b.z)
  }

  function DotV(a: Vec3, b: Vec3): real { a.x * b.x + a.y * b.y + a.z * b.z }

  const Zero: Vec3 := Vec3(0.0, 0.0, 0.0)

  /** The mean squared distance between corresponding points of two
      segments `a1 b1` and `a2 b2` as both are traversed uniformly: with
      `u = a1 - a2` and `v = b1 - b2`, the integral over `t` in `[0, 1]` of
      `|u + t (v - u)|²`, which is `(|u|² + |v|² + u·v) / 3`. */
  function IntegratedDistance(a1: Vec3, b1: Vec3, a2: Vec3, b2: Vec3): real
  {
    var u := Sub(a1, a2);
    var v := Sub(b1, b2);
    (DotV(u, u) + DotV(v, v) + DotV(u, v)) / 3.0
  }

  /** One coordinate's share of `|u|² + |v|² + u·v`:
      `a² + b² + ab = ((a + b)² + a² + b²) / 2`, so it is non-negative. */
  lemma CoordinateShare(a: real, b: real)
    ensures 0.0 <= a * a + b * b + a * b
  {
    SquareNonNegative(a + b);
    SquareNonNegative(a);
    SquareNonNegative(b);
    assert 2.0 * (a * a + b * b + a * b) == (a + b) * (a + b) + a * a + b * b;
  }

  lemma MulPositive(a: real, b: real)
    requires 0.0 < a && 0.0 < b
    ensures 0.0 < a * b
  {
  }

  lemma {:induction false} IntegratedDistanceNonNegative(a1: Vec3, b1: Vec3, a2: Vec3, b2: Vec3)
    ensures 0.0 <= IntegratedDistance(a1, b1, a2, b2)
  {
    var u, v := Sub(a1, a2), Sub(b1, b2);
    CoordinateShare(u.x, v.x);
    CoordinateShare(u.y, v.y);
    CoordinateShare(u.z, v.z);
  }

  /** Identical segments are at distance zero. */
  lemma IntegratedDistanceIdentical(a: Vec3, b: Vec3)
    ensures IntegratedDistance(a, b, a, b) == 0.0
  {
    assert Sub(a, a) == Zero && Sub(b, b) == Zero;
  }

  /** Swapping the two segments leaves the distance unchanged. */
  lemma {:induction false} IntegratedDistanceSwap(a1: Vec3, b1: Vec3, a2: Vec3, b2: Vec3)
    ensures IntegratedDistance(a2, b2, a1, b1) == IntegratedDistance(a1, b1, a2, b2)
  {
    var u, v := Sub(a1, a2), Sub(b1, b2);
    var u', v' := Sub(a2, a1), Sub(b2, b1);
    assert DotV(u', u') == DotV(u, u) by {
      assert u'.x * u'.x == u.x * u.x && u'.y * u'.y == u.y * u.y && u'.z * u'.z == u.z * u.z;
    }
    assert DotV(v', v') == DotV(v, v) by {
      assert v'.x * v'.x == v.x * v.x && v'.y * v'.y == v.y * v.y && v'.z * v'.z == v.z * v.z;
    }
    assert DotV(u', v') == DotV(u, v) by {
      assert u'.x * v'.x == u.x * v.x && u'.y * v'.y == u.y * v.y && u'.z * v'.z == u.z * v.z;
    }
  }

  /** Traversing both segments backwards leaves the distance unchanged. */
  lemma IntegratedDistanceReverse(a1: Vec3, b1: Vec3, a2: Vec3, b2: Vec3)
    ensures IntegratedDistance(b1, a1, b2, a2) == IntegratedDistance(a1, b1, a2, b2)
  {
    var u, v := Sub(a1, a2), Sub(b1, b2);
    assert DotV(v, u) == DotV(u, v);
  }

  // ---------------------------------------------------------------------------
  // compute_data_loss

  datatype DataLossConfig = DataLossConfig(
    lossType: string, charbPadding: real, huberDelta: real,
    coarseMult: real, dataMult: real, maskMult: real, sinkhornMult: real)

  function Losses(t: DataLossType, residuals: seq<real>, p: real, delta: real, sqrt: real -> real)
    : (ls: seq<real>)
    ensures |ls| == |residuals|
    ensures forall j :: 0 <= j < |ls| ==> ls[j] == ElementLoss(t, residuals[j], p, delta, sqrt)
  {
    seq(|residuals|, j requires 0 <= j < |residuals| => ElementLoss(t, residuals[j], p, delta, sqrt))
  }

  function Mean(s: seq<real>): real
    requires |s| > 0
  {
    Sum(s) / (|s| as real)
  }

  /** `data_loss.mean()` for one level's residuals. */
  function LevelLoss(cfg: DataLossConfig, t: DataLossType, residuals: seq<real>, sqrt: real -> real): real
    requires |residuals| > 0
  {
    Mean(Losses(t, residuals, cfg.charbPadding, cfg.huberDelta, sqrt))
  }

  ghost predicate NonEmptyLevels(levels: seq<seq<real>>)
  {
    forall l :: 0 <= l < |levels| ==> |levels[l]| > 0
  }

  function LevelLosses(cfg: DataLossConfig, t: DataLossType, levels: seq<seq<real>>, sqrt: real -> real)
    : (ls: seq<real>)
    requires NonEmptyLevels(levels)
    ensures |ls| == |levels|
    ensures forall l :: 0 <= l < |ls| ==> ls[l] == LevelLoss(cfg, t, levels[l], sqrt)
  {
    seq(|levels|, l requires 0 <= l < |levels| => LevelLoss(cfg, t, levels[l], sqrt))
  }

  /** The level-weighted total over the per-level losses: the
      coarse multiplier times the sum over every level but the last (only
      when that multiplier is positive, since otherwise the coarse levels are
      not evaluated at all), the data multiplier times the last level, and
      the mask and transport terms when their multipliers are positive and,
      for the mask, the batch carries alphas. */
  function TotalOf(cfg: DataLossConfig, levelLosses: seq<real>, maskLoss: Option<real>, sinkhorn: real): real
    requires |levelLosses| > 0
  {
    var n := |levelLosses|;
    var coarse := if 0.0 < cfg.coarseMult then cfg.coarseMult * Sum(levelLosses[..n - 1]) else 0.0;
    var maskTerm := if 0.0 < cfg.maskMult && maskLoss.Some? then cfg.maskMult * maskLoss.value else 0.0;
    var sinkhornTerm := if 0.0 < cfg.sinkhornMult then cfg.sinkhornMult * sinkhorn else 0.0;
    coarse + cfg.dataMult * levelLosses[n - 1] + maskTerm + sinkhornTerm
  }

  function MaskLoss(cfg: DataLossConfig, t: DataLossType, mask: Option<seq<real>>, sqrt: real -> real)
    : Option<real>
    requires mask.Some? ==> |mask.value| > 0
  {
    if mask.Some? then Some(LevelLoss(cfg, t, mask.value, sqrt)) else None
  }

  function DataLossTotal(cfg: DataLossConfig, t: DataLossType, levels: seq<seq<real>>,
                         mask: Option<seq<real>>, sinkhorn: real, sqrt: real -> real): real
    requires |levels| > 0 && NonEmptyLevels(levels)
    requires mask.Some? ==> |mask.value| > 0
  {
    TotalOf(cfg, LevelLosses(cfg, t, levels, sqrt), MaskLoss(cfg, t, mask, sqrt), sinkhorn)
  }

  /** The losses `compute_data_loss` collects after `i` levels. */
  function Collected(cfg: DataLossConfig, t: DataLossType, levels: seq<seq<real>>, i: nat, sqrt: real -> real)
    : seq<real>
    requires i <= |levels| && NonEmptyLevels(levels)
  {
    if 0.0 < cfg.coarseMult then LevelLosses(cfg, t, levels[..i], sqrt)
    else if i == |levels| && i > 0 then [LevelLoss(cfg, t, levels[i - 1], sqrt)]
    else []
  }

  /** `compute_data_loss`: the per-level losses are collected level by
      level, coarse levels only when the coarse multiplier is positive, and
      then combined. The residuals of each level (rendered minus ground-truth
      colour), the mask residuals when the batch has alphas, and the
      already-averaged transport loss of the final level are the inputs. */
  method ComputeDataLoss(cfg: DataLossConfig, levels: seq<seq<real>>, mask: Option<seq<real>>,
                         sinkhorn: real, sqrt: real -> real)
    returns (r: Result<real, LossError>)
    requires NonEmptyLevels(levels)
    requires mask.Some? ==> |mask.value| > 0
    ensures |levels| == 0 ==> r == Err(NoLevels)
    ensures 0 < |levels| && ParseLossType(cfg.lossType).None? ==> r == Err(UnknownLossType)
    ensures r.Ok? <==> 0 < |levels| && ParseLossType(cfg.lossType).Some?
    ensures r.Ok? ==> r.value == DataLossTotal(cfg, ParseLossType(cfg.lossType).value, levels, mask, sinkhorn, sqrt)
  {
    var kind := ParseLossType(cfg.lossType);
    if |levels| == 0 {
      return Err(NoLevels);
    }
    if kind.None? {
      return Err(UnknownLossType);
    }
    var t := kind.value;
    var dataLosses, maskLoss := CollectLosses(cfg, t, levels, mask, sqrt);
    CollectedAll(cfg, t, levels, sqrt);
    CombineMatchesTotal(cfg, LevelLosses(cfg, t, levels, sqrt), dataLosses, maskLoss, mask.Some?,
                        MaskLoss(cfg, t, mask, sqrt), sinkhorn);
    return Ok(Combine(cfg, dataLosses, maskLoss, mask.Some?, sinkhorn));
  }

  /** The closing arithmetic of `compute_data_loss` on the collected losses:
      the coarse multiplier times all but the last, the data multiplier
      times the last, then the mask and transport terms when enabled. */
  function Combine(cfg: DataLossConfig, dataLosses: seq<real>, maskLoss: real, hasMask: bool, sinkhorn: real): real
    requires |dataLosses| > 0
  {
    var n := |dataLosses|;
    var maskTerm := if 0.0 < cfg.maskMult && hasMask then cfg.maskMult * maskLoss else 0.0;
    var sinkhornTerm := if 0.0 < cfg.sinkhornMult then cfg.sinkhornMult * sinkhorn else 0.0;
    cfg.coarseMult * Sum(dataLosses[..n - 1]) + cfg.dataMult * dataLosses[n - 1] + maskTerm + sinkhornTerm
  }

  /** Combining what the loop collected gives the level-weighted total
      `TotalOf`: with the coarse multiplier off only the final loss is
      collected, and the empty coarse sum contributes nothing. */
  lemma CombineMatchesTotal(cfg: DataLossConfig, levelLosses: seq<real>, collected: seq<real>,
                            maskLoss: real, hasMask: bool, maskOpt: Option<real>, sinkhorn: real)
    requires |levelLosses| > 0
    requires 0.0 < cfg.coarseMult ==> collected == levelLosses
    requires cfg.coarseMult <= 0.0 ==> collected == [levelLosses[|levelLosses| - 1]]
    requires maskOpt.Some? == hasMask
    requires 0.0 < cfg.maskMult && hasMask ==> maskOpt == Some(maskLoss)
    ensures |collected| > 0
    ensures Combine(cfg, collected, maskLoss, hasMask, sinkhorn) == TotalOf(cfg, levelLosses, maskOpt, sinkhorn)
  {
    if cfg.coarseMult <= 0.0 {
      assert collected[..0] == [];
    }
  }

  /** The level loop of `compute_data_loss`: every level's loss when the
      coarse multiplier is positive, otherwise only the final one, and the
      mask loss, taken at the final level. */
  method CollectLosses(cfg: DataLossConfig, t: DataLossType, levels: seq<seq<real>>,
                       mask: Option<seq<real>>, sqrt: real -> real)
    returns (dataLosses: seq<real>, maskLoss: real)
    requires NonEmptyLevels(levels)
    requires mask.Some? ==> |mask.value| > 0
    ensures dataLosses == Collected(cfg, t, levels, |levels|, sqrt)
    ensures 0 < |levels| && 0.0 < cfg.maskMult && mask.Some? ==> maskLoss == LevelLoss(cfg, t, mask.value, sqrt)
  {
    dataLosses := [];
    maskLoss := 0.0;
    var i := 0;
    while i < |levels|
      invariant 0 <= i <= |levels|
      invariant dataLosses == Collected(cfg, t, levels, i, sqrt)
      invariant 0 < i == |levels| && 0.0 < cfg.maskMult && mask.Some? ==> maskLoss == LevelLoss(cfg, t, mask.value, sqrt)
    {
      var isFinal := i == |levels| - 1;
      if 0.0 < cfg.coarseMult || isFinal {
        dataLosses := dataLosses + [LevelLoss(cfg, t, levels[i], sqrt)];
      }
      if 0.0 < cfg.maskMult && mask.Some? && isFinal {
        maskLoss := LevelLoss(cfg, t, mask.value, sqrt);
      }
      CollectedStep(cfg, t, levels, i, sqrt);
      i := i + 1;
    }
  }

  lemma CollectedStep(cfg: DataLossConfig, t: DataLossType, levels: seq<seq<real>>, i: nat, sqrt: real -> real)
    requires i < |levels| && NonEmptyLevels(levels)
    ensures Collected(cfg, t, levels, i + 1, sqrt)
         == Collected(cfg, t, levels, i, sqrt)
            + (if 0.0 < cfg.coarseMult || i == |levels| - 1 then [LevelLoss(cfg, t, levels[i], sqrt)] else [])
  {
    assert levels[..i + 1] == levels[..i] + [levels[i]];
  }

  /** After the last level the loop holds every level's loss, or only the
      final one when the coarse multiplier is off. */
  lemma CollectedAll(cfg: DataLossConfig, t: DataLossType, levels: seq<seq<real>>, sqrt: real -> real)
    requires |levels| > 0 && NonEmptyLevels(levels)
    ensures 0.0 < cfg.coarseMult ==> Collected(cfg, t, levels, |levels|, sqrt) == LevelLosses(cfg, t, levels, sqrt)
    ensures cfg.coarseMult <= 0.0 ==>
      Collected(cfg, t, levels, |levels|, sqrt) == [LevelLosses(cfg, t, levels, sqrt)[|levels| - 1]]
  {
    assert levels[..|levels|] == levels;
  }

  /** With the coarse, mask and transport multipliers switched off, only the
      final level counts, whatever the coarse levels hold. */
  lemma FinalLevelOnly(cfg: DataLossConfig, t: DataLossType, levels: seq<seq<real>>,
                       mask: Option<seq<real>>, sinkhorn: real, sqrt: real -> real)
    requires |levels| > 0 && NonEmptyLevels(levels)
    requires mask.Some? ==> |mask.value| > 0
    requires cfg.coarseMult <= 0.0 && cfg.maskMult <= 0.0 && cfg.sinkhornMult <= 0.0
    ensures DataLossTotal(cfg, t, levels, mask, sinkhorn, sqrt)
         == cfg.dataMult * LevelLoss(cfg, t, levels[|levels| - 1], sqrt)
  {
  }

  /** With non-negative multipliers, a non-negative transport loss and a
      loss that is non-negative element by element, the total is
      non-negative. */
  lemma DataLossTotalNonNegative(cfg: DataLossConfig, t: DataLossType, levels: seq<seq<real>>,
                                 mask: Option<seq<real>>, sinkhorn: real, sqrt: real -> real)
    requires |levels| > 0 && NonEmptyLevels(levels)
    requires mask.Some? ==> |mask.value| > 0
    requires 0.0 <= cfg.dataMult && 0.0 <= sinkhorn
    requires t == Huber ==> 0.0 < cfg.huberDelta
    requires t == Charb ==> ValidSqrt(sqrt)
    ensures 0.0 <= DataLossTotal(cfg, t, levels, mask, sinkhorn, sqrt)
  {
    var ls := LevelLosses(cfg, t, levels, sqrt);
    forall l | 0 <= l < |ls|
      ensures 0.0 <= ls[l]
    {
      LevelLossNonNegative(cfg, t, levels[l], sqrt);
    }
    if mask.Some? {
      LevelLossNonNegative(cfg, t, mask.value, sqrt);
    }
    TotalOfNonNegative(cfg, ls, MaskLoss(cfg, t, mask, sqrt), sinkhorn);
  }

  lemma TotalOfNonNegative(cfg: DataLossConfig, levelLosses: seq<real>, maskLoss: Option<real>, sinkhorn: real)
    requires |levelLosses| > 0 && NonNegative(levelLosses)
    requires maskLoss.Some? ==> 0.0 <= maskLoss.value
    requires 0.0 <= cfg.dataMult && 0.0 <= sinkhorn
    ensures 0.0 <= TotalOf(cfg, levelLosses, maskLoss, sinkhorn)
  {
    var n := |levelLosses|;
    var coarse := levelLosses[..n - 1];
    assert NonNegative(coarse) by {
      forall l | 0 <= l < |coarse|
        ensures 0.0 <= coarse[l]
      {
        assert coarse[l] == levelLosses[l];
      }
    }
    SumNonNegative(coarse);
    MulNonNegative(cfg.coarseMult, Sum(coarse));
    MulNonNegative(cfg.dataMult, levelLosses[n - 1]);
    if maskLoss.Some? {
      MulNonNegative(cfg.maskMult, maskLoss.value);
    }
    MulNonNegative(cfg.sinkhornMult, sinkhorn);
  }

  lemma LevelLossNonNegative(cfg: DataLossConfig, t: DataLossType, residuals: seq<real>, sqrt: real -> real)
    requires |residuals| > 0
    requires t == Huber ==> 0.0 < cfg.huberDelta
    requires t == Charb ==> ValidSqrt(sqrt)
    ensures 0.0 <= LevelLoss(cfg, t, residuals, sqrt)
  {
    var ls := Losses(t, residuals, cfg.charbPadding, cfg.huberDelta, sqrt);
    forall j | 0 <= j < |ls|
      ensures 0.0 <= ls[j]
    {
      ElementLossNonNegative(t, residuals[j], cfg.charbPadding, cfg.huberDelta, sqrt);
    }
    SumNonNegative(ls);
    DivideNonNegative(Sum(ls), |ls| as real);
  }

  lemma DivideNonNegative(a: real, b: real)
    requires 0.0 <= a && 0.0 < b
    ensures 0.0 <= a / b
  {
  }

  // ---------------------------------------------------------------------------
  // error_loss

  function Clamp01(x: real): (c: real)
    ensures 0.0 <= c <= 1.0
    ensures 0.0 <= x <= 1.0 ==> c == x
  {
    if x < 0.0 then 0.0 else if 1.0 < x then 1.0 else x
  }

  /** The residual of the predicted error against the clamped squared colour
      error `target` (summed over channels): over-prediction is charged in
      full, under-prediction scaled by `lowerLambda`. */
  function ErrorResidual(error: real, target: real, lowerLambda: real): real
  {
    var e := error - Clamp01(target);
    if 0.0 < e then e else -lowerLambda * e
  }

  /** Over-predicting by `d` costs `d`; under-predicting by `d` costs
      `lowerLambda · d`. */
  lemma ErrorResidualAsymmetry(target: real, d: real, lowerLambda: real)
    requires 0.0 < d
    ensures ErrorResidual(Clamp01(target) + d, target, lowerLambda) == d
    ensures ErrorResidual(Clamp01(target) - d, target, lowerLambda) == lowerLambda * d
  {
  }

  lemma ErrorResidualNonNegative(error: real, target: real, lowerLambda: real)
    requires 0.0 <= lowerLambda
    ensures 0.0 <= ErrorResidual(error, target, lowerLambda)
  {
    MulNonNegative(lowerLambda, Clamp01(target) - error);
  }

  /** For a positive `lowerLambda` the residual vanishes exactly on a perfect
      prediction. */
  lemma ErrorResidualZero(error: real, target: real, lowerLambda: real)
    requires 0.0 < lowerLambda
    ensures ErrorResidual(error, target, lowerLambda) == 0.0 <==> error == Clamp01(target)
  {
    var e := error - Clamp01(target);
    if e < 0.0 {
      MulPositive(lowerLambda, -e);
    }
  }

  /** Sum of squares over one ray's colour channels. */
  function SquaredNorm(residual: seq<real>): real
  {
    if |residual| == 0 then 0.0 else residual[0] * residual[0] + SquaredNorm(residual[1..])
  }

  /** `error_loss`: the mean asymmetric residual over rays plus the mean
      regulariser `0.01·density + 0.1·mean(rgb)` over samples, scaled. */
  function ErrorLoss(errors: seq<real>, residuals: seq<seq<real>>, densities: seq<real>,
                     rgbMeans: seq<real>, lowerLambda: real, mult: real): real
    requires |errors| == |residuals| > 0
    requires |densities| == |rgbMeans| > 0
  {
    var res := seq(|errors|, k requires 0 <= k < |errors| =>
      ErrorResidual(errors[k], SquaredNorm(residuals[k]), lowerLambda));
    var reg := seq(|densities|, k requires 0 <= k < |densities| => 0.01 * densities[k] + 0.1 * rgbMeans[k]);
    mult * (Mean(res) + Mean(reg))
  }

  /** With non-negative multipliers and non-negative density and colour
      outputs, the error loss is non-negative. */
  lemma ErrorLossNonNegative(errors: seq<real>, residuals: seq<seq<real>>, densities: seq<real>,
                             rgbMeans: seq<real>, lowerLambda: real, mult: real)
    requires |errors| == |residuals| > 0
    requires |densities| == |rgbMeans| > 0
    requires 0.0 <= lowerLambda && 0.0 <= mult
    requires forall k :: 0 <= k < |densities| ==> 0.0 <= densities[k] && 0.0 <= rgbMeans[k]
    ensures 0.0 <= ErrorLoss(errors, residuals, densities, rgbMeans, lowerLambda, mult)
  {
    var res := seq(|errors|, k requires 0 <= k < |errors| =>
      ErrorResidual(errors[k], SquaredNorm(residuals[k]), lowerLambda));
    var reg := seq(|densities|, k requires 0 <= k < |densities| => 0.01 * densities[k] + 0.1 * rgbMeans[k]);
    forall k | 0 <= k < |res|
      ensures 0.0 <= res[k]
    {
      ErrorResidualNonNegative(errors[k], SquaredNorm(residuals[k]), lowerLambda);
    }
    SumNonNegative(res);
    SumNonNegative(reg);
    DivideNonNegative(Sum(res), |res| as real);
    DivideNonNegative(Sum(reg), |reg| as real);
    MulNonNegative(mult, Mean(res) + Mean(reg));
  }
}
