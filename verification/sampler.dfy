/** The initial-parameter samplers that `get_stroke` returns: `shape_sampler`
    for a stroke's shape vector and the colour model's sampler. Random draws
    and the values of `exp`, `sqrt`, `4 ** x`, `sin` and `cos` are parameters. */
module Sampler {
  import opened Results
  import opened Catalog
  import opened RealSeqs

  datatype InitType = Recon | GenBox | GenSphere

  function InitName(i: InitType): string
  {
    match i
    case Recon => "recon"
    case GenBox => "gen_box"
    case GenSphere => "gen_sphere"
  }

  function ParseInitType(name: string): (i: Option<InitType>)
    ensures i.Some? ==> InitName(i.value) == name
  {
    if name == "recon" then Some(Recon)
    else if name == "gen_box" then Some(GenBox)
    else if name == "gen_sphere" then Some(GenSphere)
    else None
  }

  lemma ParseInitName(i: InitType)
    ensures ParseInitType(InitName(i)) == Some(i)
  {
  }

  /** Values of the transcendental functions one sampler call evaluates. */
  datatype Transcendentals = Transcendentals(
    decay: real,       // exp(-stroke_step / 200)
    sqrt3: real,       // sqrt(3): the diagonal of the unit box
    boxShrink: real,   // 4 ** -scale_dist of the drawn point (gen_box only)
    sinPhi: real, cosPhi: real, sinTheta: real, cosTheta: real)  // gen_sphere angles

  /** What those functions guarantee: the decay of a non-negative step lies
      in (0, 1]; the root is the positive one; a point of the box lies within
      half its diagonal of the centre, so `scale_dist` is in [0, 1] and
      `4 ** -scale_dist` in [1/4, 1]; sines and cosines lie in [-1, 1]. */
  predicate ValidTranscendentals(e: Transcendentals)
  {
    && 0.0 < e.decay <= 1.0
    && 0.0 < e.sqrt3 && e.sqrt3 * e.sqrt3 == 3.0
    && 0.25 <= e.boxShrink <= 1.0
    && -1.0 <= e.sinPhi <= 1.0 && -1.0 <= e.cosPhi <= 1.0
    && -1.0 <= e.sinTheta <= 1.0 && -1.0 <= e.cosTheta <= 1.0
  }

  /** The uniform [0, 1) draws of one sampler call, grouped by where they go. */
  datatype Draws = Draws(coord: seq<real>, base: seq<real>, scale: seq<real>, rotation: seq<real>)

  predicate Unit(u: seq<real>)
  {
    forall i :: 0 <= i < |u| ==> 0.0 <= u[i] < 1.0
  }

  /** How many uniforms a family's base sampler consumes. */
  function BaseDrawCount(s: BaseSampler): nat
  {
    match s
    case NoBaseSampler => 0
    case Roundness => 1
    case TorusAngles => 2
    case CapsuleLength => 1
    case LineParams => 2
    case PrismHeight => 1
    case Spline(n, m) => 1 + 3 * n + m
  }

  predicate DrawsFit(f: ShapeFamily, d: Draws)
  {
    && |d.coord| == 3 && Unit(d.coord)
    && |d.base| == BaseDrawCount(f.sampler) && Unit(d.base)
    && |d.scale| == ScaleCount(f.singlescale, f.multiscale) && Unit(d.scale)
    && |d.rotation| == 3 * BoolCount(f.rotation) && Unit(d.rotation)
  }

  /** The scale window and the anchor point a regime computes. */
  datatype Regime = Regime(scaleMin: real, scaleMax: real, coord: seq<real>)

  function Box(lo: real, width: real, u: seq<real>): (c: seq<real>)
    ensures |c| == |u|
  {
    seq(|u|, i requires 0 <= i < |u| => lo + width * u[i])
  }

  function RegimeOf(init: InitType, e: Transcendentals, coordDraws: seq<real>,
                    errorCoord: Option<seq<real>>): Regime
  {
    match init
    case Recon => ReconRegime(e, coordDraws, errorCoord)
    case GenBox => GenBoxRegime(e, coordDraws)
    case GenSphere => GenSphereRegime(e)
  }

  /** The box is [-0.5, 0.5]^3; its diagonal sqrt(3) scales a window that
      narrows linearly with the decay; the anchor is the error coordinate
      when one is given. */
  function ReconRegime(e: Transcendentals, coordDraws: seq<real>, errorCoord: Option<seq<real>>): Regime
  {
    var coord := if errorCoord.Some? then errorCoord.value else Box(-0.5, 1.0, coordDraws);
    Regime((0.02 + 0.12 * e.decay) * e.sqrt3, (0.04 + 0.18 * e.decay) * e.sqrt3, coord)
  }

  /** The box is [-0.6, 0.6]^3 with diagonal 1.2 * sqrt(3); the window shrinks
      by `4 ** -scale_dist` away from the centre. */
  function GenBoxRegime(e: Transcendentals, coordDraws: seq<real>): Regime
  {
    var diag := 1.2 * e.sqrt3;
    Regime(0.05 * diag * e.boxShrink, 0.10 * diag * e.boxShrink, Box(-0.6, 1.2, coordDraws))
  }

  /** The anchor lies on the sphere of radius 1 - decay. */
  function GenSphereRegime(e: Transcendentals): Regime
  {
    var radius := 1.0 - e.decay;
    Regime(0.04 + 0.06 * e.decay, 0.06 + 0.09 * e.decay,
           [radius * e.sinPhi * e.cosTheta, radius * e.sinPhi * e.sinTheta, radius * e.cosPhi])
  }

  lemma RegimeCoordLength(init: InitType, e: Transcendentals, coordDraws: seq<real>,
                          errorCoord: Option<seq<real>>)
    requires |coordDraws| == 3
    requires errorCoord.Some? ==> |errorCoord.value| == 3
    ensures |RegimeOf(init, e, coordDraws, errorCoord).coord| == 3
  {
  }

  /** In every regime the scale window is non-empty. */
  lemma ScaleWindowNonEmpty(init: InitType, e: Transcendentals, coordDraws: seq<real>,
                            errorCoord: Option<seq<real>>)
    requires ValidTranscendentals(e)
    ensures RegimeOf(init, e, coordDraws, errorCoord).scaleMin < RegimeOf(init, e, coordDraws, errorCoord).scaleMax
  {
    match init
    case Recon =>
      MulNonNegative(e.decay, e.sqrt3);
      var q := e.decay * e.sqrt3;
      ReconWindowOrdered(e.decay, e.sqrt3, q);
    case GenBox =>
      MulNonNegative(e.sqrt3, e.boxShrink);
      var p := e.sqrt3 * e.boxShrink;
      assert 0.0 < p;
      BoxWindowOrdered(e.sqrt3, e.boxShrink, p);
    case GenSphere =>
  }

  lemma ReconWindowOrdered(d: real, s: real, q: real)
    requires q == d * s && 0.0 <= q && 0.0 < s
    ensures (0.02 + 0.12 * d) * s < (0.04 + 0.18 * d) * s
  {
    assert (0.02 + 0.12 * d) * s == 0.02 * s + 0.12 * q;
    assert (0.04 + 0.18 * d) * s == 0.04 * s + 0.18 * q;
  }

  lemma BoxWindowOrdered(s: real, k: real, p: real)
    requires p == s * k && 0.0 < p
    ensures 0.05 * (1.2 * s) * k < 0.10 * (1.2 * s) * k
  {
    assert 0.05 * (1.2 * s) * k == 0.06 * p;
    assert 0.10 * (1.2 * s) * k == 0.12 * p;
  }

  function Lerp(u: real, lo: real, hi: real): real
  {
    u * (hi - lo) + lo
  }

  /** The family's own base sampler. A spline draws one scale in the window,
      then each control point as the anchor plus a jitter of up to half that
      scale per axis, then each radius as 0.2 to 0.4 times the scale. */
  function BaseSample(s: BaseSampler, reg: Regime, u: seq<real>): seq<real>
    requires |u| == BaseDrawCount(s)
    requires s.Spline? ==> |reg.coord| == 3
  {
    match s
    case NoBaseSampler => []
    case Roundness => [0.8 * u[0]]
    case TorusAngles => [u[0], u[1]]
    case CapsuleLength => [u[0] + 0.25]
    case LineParams => [u[0] + 0.25, u[1] - 0.5]
    case PrismHeight => [u[0]]
    case Spline(n, m) =>
      var scale := Lerp(u[0], reg.scaleMin, reg.scaleMax);
      ControlPoints(n, reg.coord, u[1..1 + 3 * n], scale) + Radii(u[1 + 3 * n..], scale)
  }

  /** Control point `p`, axis `a` is the anchor's axis `a` plus a jitter. */
  function ControlPoints(n: nat, coord: seq<real>, u: seq<real>, scale: real): (r: seq<real>)
    requires |coord| == 3 && |u| == 3 * n
    ensures |r| == 3 * n
    ensures forall k :: 0 <= k < 3 * n ==> r[k] == coord[k % 3] + (u[k] - 0.5) * scale
  {
    seq(3 * n, k requires 0 <= k < 3 * n => coord[k % 3] + (u[k] - 0.5) * scale)
  }

  function Radii(u: seq<real>, scale: real): (r: seq<real>)
    ensures |r| == |u|
    ensures forall j :: 0 <= j < |u| ==> r[j] == (0.2 + 0.2 * u[j]) * scale
  {
    seq(|u|, j requires 0 <= j < |u| => (0.2 + 0.2 * u[j]) * scale)
  }

  function ScaleSample(reg: Regime, u: seq<real>): (v: seq<real>)
    ensures |v| == |u|
  {
    seq(|u|, i requires 0 <= i < |u| => Lerp(u[i], reg.scaleMin, reg.scaleMax))
  }

  function RotationSample(u: seq<real>): (v: seq<real>)
    ensures |v| == |u|
  {
    seq(|u|, i requires 0 <= i < |u| => (u[i] * 2.0 - 1.0) * Pi)
  }

  function TranslationSample(f: ShapeFamily, reg: Regime): seq<real>
  {
    if f.translation then reg.coord else []
  }

  /** Each base sampler emits exactly as many values as its family has base
      ranges; for the splines that is 3 * control points + radii: 11 or 14. */
  lemma BaseSampleLength(t: ShapeType, reg: Regime, u: seq<real>)
    requires |u| == BaseDrawCount(Family(t).sampler)
    requires |reg.coord| == 3
    ensures |BaseSample(Family(t).sampler, reg, u)| == |Family(t).baseRanges|
    ensures t in {QuadraticBezier, CubicBezier, CatmullRom} ==>
      |BaseSample(Family(t).sampler, reg, u)| == (if t == QuadraticBezier then 11 else 14)
  {
    BaseSampleCount(Family(t).sampler, reg, u);
    FamilyBaseCount(t);
  }

  /** How many values a base sampler emits: one per draw, except that a
      spline spends its first draw on the scale. */
  function BaseValueCount(s: BaseSampler): nat
  {
    if s.Spline? then 3 * s.controlPoints + s.radii else BaseDrawCount(s)
  }

  lemma BaseSampleCount(s: BaseSampler, reg: Regime, u: seq<real>)
    requires |u| == BaseDrawCount(s)
    requires s.Spline? ==> |reg.coord| == 3
    ensures |BaseSample(s, reg, u)| == BaseValueCount(s)
  {
  }

  lemma FamilyBaseCount(t: ShapeType)
    ensures BaseValueCount(Family(t).sampler) == |Family(t).baseRanges|
  {
  }

  datatype SamplerError = UnknownInitType(initType: string)

  /** One family's sample in a given regime: the base sampler's values, then
      the scale values, then the rotation angles, then the anchor point as
      the translation, each group present only when the family enables it. */
  function SampleFamily(f: ShapeFamily, reg: Regime, d: Draws): (r: seq<real>)
    requires DrawsFit(f, d) && |reg.coord| == 3
    ensures
      var nb := BaseValueCount(f.sampler);
      var ns := |ScaleRanges(f.singlescale, f.multiscale)|;
      var nr := |RotationRanges(f.rotation)|;
      && |r| == nb + |TransformRanges(f)|
      && r[..nb] == BaseSample(f.sampler, reg, d.base)
      && r[nb..nb + ns] == ScaleSample(reg, d.scale)
      && r[nb + ns..nb + ns + nr] == RotationSample(d.rotation)
      && r[nb + ns + nr..] == TranslationSample(f, reg)
  {
    BaseSampleCount(f.sampler, reg, d.base);
    TransformRangesLength(f);
    var b, sc, ro, tr := BaseSample(f.sampler, reg, d.base), ScaleSample(reg, d.scale),
                         RotationSample(d.rotation), TranslationSample(f, reg);
    ConcatFour(b, sc, ro, tr);
    b + sc + ro + tr
  }

  lemma ConcatFour(a: seq<real>, b: seq<real>, c: seq<real>, d: seq<real>)
    ensures var s := a + b + c + d;
      && s[..|a|] == a && s[|a|..|a| + |b|] == b
      && s[|a| + |b|..|a| + |b| + |c|] == c && s[|a| + |b| + |c|..] == d
  {
    var s := a + b + c + d;
    assert s[..|a|] == a;
    assert s[|a|..|a| + |b|] == b;
    assert s[|a| + |b|..|a| + |b| + |c|] == c;
    assert s[|a| + |b| + |c|..] == d;
  }

  /** `shape_sampler(stroke_step, error_coord)` for a looked-up stroke: the
      family's sample in the regime the initialisation name selects. An
      unknown regime name leaves the window undefined, which the source
      reports on first use. */
  function SampleShape(spec: StrokeSpec, e: Transcendentals, d: Draws, errorCoord: Option<seq<real>>)
    : (r: Result<seq<real>, SamplerError>)
    requires DrawsFit(Family(spec.shape), d)
    requires errorCoord.Some? ==> |errorCoord.value| == 3
    ensures r.Ok? <==> ParseInitType(spec.initType).Some?
    ensures r.Ok? ==> r.value == SampleFamily(Family(spec.shape),
                                              RegimeOf(ParseInitType(spec.initType).value, e, d.coord, errorCoord), d)
  {
    match ParseInitType(spec.initType)
    case None => Err(UnknownInitType(spec.initType))
    case Some(init) =>
      var reg := RegimeOf(init, e, d.coord, errorCoord);
      RegimeCoordLength(init, e, d.coord, errorCoord);
      Ok(SampleFamily(Family(spec.shape), reg, d))
  }

  /** The sampler and the intended lookup agree on the vector's length: the
      record a fresh `get_stroke` builds for a shape and colour (`SpecOf`)
      gets exactly `dim_shape` sampled values. */
  lemma SampleMatchesDimension(t: ShapeType, c: ColorType, initType: string,
                               e: Transcendentals, d: Draws, errorCoord: Option<seq<real>>)
    requires DrawsFit(Family(t), d)
    requires errorCoord.Some? ==> |errorCoord.value| == 3
    requires ParseInitType(initType).Some?
    ensures |SampleShape(SpecOf(t, c, initType), e, d, errorCoord).value| == SpecOf(t, c, initType).dimShape
  {
    FamilyBaseCount(t);
    TransformRangesLength(Family(t));
  }

  /** With the catalogue as written, the second lookup of a capable family
      reports a dimension the sampler no longer fills. */
  lemma SecondLookupOutgrowsSampler(shapeName: string, colorName: string, initType: string,
                                    e: Transcendentals, d: Draws, errorCoord: Option<seq<real>>)
    requires GetStroke(shapeName, colorName, initType).Ok?
    requires var f := Family(GetStroke(shapeName, colorName, initType).value.shape);
             f.translation || f.rotation || f.singlescale || f.multiscale
    requires DrawsFit(Family(GetStroke(shapeName, colorName, initType).value.shape), d)
    requires errorCoord.Some? ==> |errorCoord.value| == 3
    requires ParseInitType(initType).Some?
    ensures
      var first := GetStrokeAsWritten(InitialTable(), shapeName, colorName, initType);
      var second := GetStrokeAsWritten(first.value.1, shapeName, colorName, initType);
      && second.Ok?
      && |SampleShape(second.value.0, e, d, errorCoord).value| < second.value.0.dimShape
  {
    RepeatedLookupGrows(shapeName, colorName, initType);
    FirstLookupAgrees(shapeName, colorName, initType);
    var first := GetStrokeAsWritten(InitialTable(), shapeName, colorName, initType);
    var second := GetStrokeAsWritten(first.value.1, shapeName, colorName, initType);
    SampleLength(second.value.0, e, d, errorCoord);
    TransformRangesLength(Family(second.value.0.shape));
  }

  /** The sampler emits one value per base range and per transform range of
      the stroke's family. */
  lemma SampleLength(spec: StrokeSpec, e: Transcendentals, d: Draws, errorCoord: Option<seq<real>>)
    requires DrawsFit(Family(spec.shape), d)
    requires errorCoord.Some? ==> |errorCoord.value| == 3
    requires ParseInitType(spec.initType).Some?
    ensures |SampleShape(spec, e, d, errorCoord).value|
         == |Family(spec.shape).baseRanges| + |TransformRanges(Family(spec.shape))|
  {
    FamilyBaseCount(spec.shape);
  }

  // ---------------------------------------------------------------------------
  // Sampled values against the declared ranges

  predicate AllInRange(xs: seq<real>, rs: seq<Range>)
  {
    |xs| == |rs| && forall k :: 0 <= k < |xs| ==> InRange(xs[k], rs[k])
  }

  lemma AllInRangeConcat(xs1: seq<real>, rs1: seq<Range>, xs2: seq<real>, rs2: seq<Range>)
    requires AllInRange(xs1, rs1) && AllInRange(xs2, rs2)
    ensures AllInRange(xs1 + xs2, rs1 + rs2)
  {
    forall k | 0 <= k < |xs1 + xs2|
      ensures InRange((xs1 + xs2)[k], (rs1 + rs2)[k])
    {
      if k >= |xs1| {
        assert (xs1 + xs2)[k] == xs2[k - |xs1|];
        assert (rs1 + rs2)[k] == rs2[k - |rs1|];
      }
    }
  }

  predicate CoordWithin(reg: Regime, c: real)
  {
    |reg.coord| == 3 && forall i :: 0 <= i < 3 ==> -c <= reg.coord[i] <= c
  }

  /** The scale window lies inside `[lo, hi]`. */
  predicate WindowWithin(reg: Regime, lo: real, hi: real)
  {
    lo <= reg.scaleMin <= reg.scaleMax <= hi
  }

  lemma LerpWithin(u: real, lo: real, hi: real)
    requires 0.0 <= u < 1.0 && lo <= hi
    ensures lo <= Lerp(u, lo, hi) <= hi
  {
    MulNonNegative(u, hi - lo);
    MulNonNegative(1.0 - u, hi - lo);
  }

  lemma JitterWithin(u: real, s: real)
    requires 0.0 <= u < 1.0 && 0.0 <= s
    ensures -0.5 * s <= (u - 0.5) * s <= 0.5 * s
  {
    MulNonNegative(u, s);
    MulNonNegative(1.0 - u, s);
  }

  lemma RadiusWithin(u: real, s: real)
    requires 0.0 <= u < 1.0 && 0.0 <= s
    ensures 0.2 * s <= (0.2 + 0.2 * u) * s <= 0.4 * s
  {
    MulNonNegative(u, s);
    MulNonNegative(1.0 - u, s);
  }

  /** A spline's control points stay in [-1, 1] and its radii in
      [0.001, 0.2] when the anchor and the scale window leave room for the
      jitter. */
  lemma ControlPointsInRange(n: nat, coord: seq<real>, u: seq<real>, scale: real, c: real)
    requires |coord| == 3 && |u| == 3 * n && Unit(u)
    requires forall i :: 0 <= i < 3 ==> -c <= coord[i] <= c
    requires 0.0 <= scale && c + 0.5 * scale <= 1.0
    ensures AllInRange(ControlPoints(n, coord, u, scale), Repeat(Closed(-1.0, 1.0), 3 * n))
  {
    var points := ControlPoints(n, coord, u, scale);
    forall k | 0 <= k < 3 * n
      ensures InRange(points[k], Closed(-1.0, 1.0))
    {
      JitterWithin(u[k], scale);
      assert -c <= coord[k % 3] <= c;
    }
  }

  lemma RadiiInRange(u: seq<real>, scale: real)
    requires Unit(u)
    requires 0.005 <= scale <= 0.5
    ensures AllInRange(Radii(u, scale), Repeat(Closed(0.001, 0.2), |u|))
  {
    var radii := Radii(u, scale);
    forall j | 0 <= j < |u|
      ensures InRange(radii[j], Closed(0.001, 0.2))
    {
      RadiusWithin(u[j], scale);
    }
  }

  lemma SplineSampleInRange(n: nat, m: nat, reg: Regime, u: seq<real>, c: real)
    requires |u| == 1 + 3 * n + m && Unit(u)
    requires CoordWithin(reg, c) && WindowWithin(reg, 0.005, 0.5)
    requires c + 0.5 * reg.scaleMax <= 1.0
    ensures AllInRange(BaseSample(Spline(n, m), reg, u), SplineRanges(n, m))
  {
    var scale := Lerp(u[0], reg.scaleMin, reg.scaleMax);
    LerpWithin(u[0], reg.scaleMin, reg.scaleMax);
    var pu := u[1..1 + 3 * n];
    var ru := u[1 + 3 * n..];
    assert Unit(pu) && Unit(ru);
    ControlPointsInRange(n, reg.coord, pu, scale, c);
    RadiiInRange(ru, scale);
    AllInRangeConcat(ControlPoints(n, reg.coord, pu, scale), Repeat(Closed(-1.0, 1.0), 3 * n),
                     Radii(ru, scale), Repeat(Closed(0.001, 0.2), m));
  }

  lemma BaseSampleInRange(t: ShapeType, reg: Regime, u: seq<real>, c: real)
    requires |u| == BaseDrawCount(Family(t).sampler) && Unit(u)
    requires |reg.coord| == 3
    requires Family(t).sampler.Spline? ==>
      CoordWithin(reg, c) && WindowWithin(reg, 0.005, 0.5) && c + 0.5 * reg.scaleMax <= 1.0
    ensures AllInRange(BaseSample(Family(t).sampler, reg, u), Family(t).baseRanges)
  {
    match Family(t).sampler
    case Spline(n, m) => SplineSampleInRange(n, m, reg, u, c);
    case _ =>
  }

  lemma TransformSampleInRange(f: ShapeFamily, reg: Regime, d: Draws, c: real)
    requires DrawsFit(f, d)
    requires CoordWithin(reg, c) && c <= 1.0
    requires WindowWithin(reg, 0.01, 0.5)
    ensures AllInRange(ScaleSample(reg, d.scale), ScaleRanges(f.singlescale, f.multiscale))
    ensures AllInRange(RotationSample(d.rotation), RotationRanges(f.rotation))
    ensures AllInRange(TranslationSample(f, reg), TranslationRanges(f.translation))
  {
    var sv := ScaleSample(reg, d.scale);
    var sr := ScaleRanges(f.singlescale, f.multiscale);
    forall k | 0 <= k < |sv|
      ensures InRange(sv[k], sr[k])
    {
      LerpWithin(d.scale[k], reg.scaleMin, reg.scaleMax);
    }
    var rv := RotationSample(d.rotation);
    var rr := RotationRanges(f.rotation);
    forall k | 0 <= k < |rv|
      ensures InRange(rv[k], rr[k])
    {
      var w := d.rotation[k] * 2.0 - 1.0;
      MulNonNegative(1.0 - w, Pi);
      MulNonNegative(1.0 + w, Pi);
    }
  }

  lemma Sqrt3Bounds(s: real)
    requires 0.0 < s && s * s == 3.0
    ensures 1.7 < s < 1.75
  {
    MulMonotone(s, 1.7, s);
    MulMonotone(s, 1.7, 1.7);
    MulMonotone(1.75, s, s);
    MulMonotone(1.75, s, 1.75);
  }

  lemma ReconWindow(e: Transcendentals, coordDraws: seq<real>, errorCoord: Option<seq<real>>)
    requires ValidTranscendentals(e)
    requires |coordDraws| == 3 && Unit(coordDraws)
    requires errorCoord.Some? ==> |errorCoord.value| == 3
    requires errorCoord.Some? ==> forall i :: 0 <= i < 3 ==> -0.5 <= errorCoord.value[i] <= 0.5
    ensures var reg := ReconRegime(e, coordDraws, errorCoord);
      CoordWithin(reg, 0.5) && WindowWithin(reg, 0.034, 0.385)
  {
    Sqrt3Bounds(e.sqrt3);
    WindowArith(0.02 + 0.12 * e.decay, 0.04 + 0.18 * e.decay, e.sqrt3);
  }

  lemma WindowArith(a: real, b: real, s: real)
    requires 0.02 <= a <= b <= 0.22
    requires 1.7 < s < 1.75
    ensures 0.034 <= a * s <= b * s <= 0.385
  {
    MulMonotone(1.7, s, a);
    MulMonotone(s, 1.75, b);
    MulMonotone(a, b, s);
  }

  lemma GenBoxWindow(e: Transcendentals, coordDraws: seq<real>)
    requires ValidTranscendentals(e)
    requires |coordDraws| == 3 && Unit(coordDraws)
    ensures var reg := GenBoxRegime(e, coordDraws);
      CoordWithin(reg, 0.6) && WindowWithin(reg, 0.025, 0.21)
  {
    Sqrt3Bounds(e.sqrt3);
    ShrinkArith(e.sqrt3, e.boxShrink);
  }

  lemma ShrinkArith(s: real, k: real)
    requires 1.7 < s < 1.75 && 0.25 <= k <= 1.0
    ensures 0.025 <= 0.05 * (1.2 * s) * k <= 0.10 * (1.2 * s) * k <= 0.21
  {
    MulMonotone(1.7, s, k);
    MulMonotone(k, 1.0, s);
    assert 0.05 * (1.2 * s) * k == 0.06 * (s * k);
    assert 0.10 * (1.2 * s) * k == 0.12 * (s * k);
  }

  lemma GenSphereWindow(e: Transcendentals)
    requires ValidTranscendentals(e)
    ensures var reg := GenSphereRegime(e);
      CoordWithin(reg, 1.0 - e.decay) && WindowWithin(reg, 0.04, 0.15)
  {
    var r := 1.0 - e.decay;
    var reg := GenSphereRegime(e);
    TrigProductWithin(r, e.sinPhi, e.cosTheta, reg.coord[0]);
    TrigProductWithin(r, e.sinPhi, e.sinTheta, reg.coord[1]);
    TrigProductWithin(r, e.cosPhi, 1.0, reg.coord[2]);
  }

  lemma TrigProductWithin(r: real, a: real, b: real, x: real)
    requires 0.0 <= r && -1.0 <= a <= 1.0 && -1.0 <= b <= 1.0
    requires x == r * a * b
    ensures -r <= x <= r
  {
    var p := a * b;
    MulNonNegative(1.0 - a, 1.0 + b);
    MulNonNegative(1.0 + a, 1.0 - b);
    MulNonNegative(1.0 + a, 1.0 + b);
    MulNonNegative(1.0 - a, 1.0 - b);
    assert (1.0 - a) * (1.0 + b) == 1.0 + b - a - p;
    assert (1.0 + a) * (1.0 - b) == 1.0 - b + a - p;
    assert (1.0 + a) * (1.0 + b) == 1.0 + a + b + p;
    assert (1.0 - a) * (1.0 - b) == 1.0 - a - b + p;
    assert r * a * b == r * p;
    MulNonNegative(r, 1.0 - p);
    MulNonNegative(r, 1.0 + p);
  }

  /** Every sampled component lies in the range declared at its position, in
      the recon regime (with an error coordinate inside the recon box, if any)
      and the gen_box regime for every family, and in the gen_sphere regime for
      every family that is not a spline. */
  lemma {:induction false} SampleInRange(spec: StrokeSpec, e: Transcendentals, d: Draws,
                                        errorCoord: Option<seq<real>>)
    requires ValidTranscendentals(e)
    requires DrawsFit(Family(spec.shape), d)
    requires errorCoord.Some? ==> |errorCoord.value| == 3
    requires errorCoord.Some? ==> forall i :: 0 <= i < 3 ==> -0.5 <= errorCoord.value[i] <= 0.5
    requires || ParseInitType(spec.initType) == Some(Recon)
             || ParseInitType(spec.initType) == Some(GenBox)
             || (ParseInitType(spec.initType) == Some(GenSphere) && !Family(spec.shape).sampler.Spline?)
    ensures AllInRange(SampleShape(spec, e, d, errorCoord).value,
                       SpecOf(spec.shape, spec.color, spec.initType).shapeRanges)
  {
    var init := ParseInitType(spec.initType).value;
    var f := Family(spec.shape);
    var reg := RegimeOf(init, e, d.coord, errorCoord);
    var c: real;
    match init {
      case Recon => ReconWindow(e, d.coord, errorCoord); c := 0.5;
      case GenBox => GenBoxWindow(e, d.coord); c := 0.6;
      case GenSphere => GenSphereWindow(e); c := 1.0 - e.decay;
    }
    BaseSampleInRange(spec.shape, reg, d.base, c);
    TransformSampleInRange(f, reg, d, c);
    AllInRangeFour(BaseSample(f.sampler, reg, d.base), f.baseRanges,
                   ScaleSample(reg, d.scale), ScaleRanges(f.singlescale, f.multiscale),
                   RotationSample(d.rotation), RotationRanges(f.rotation),
                   TranslationSample(f, reg), TranslationRanges(f.translation));
    SpecRangesParts(spec.shape, spec.color, spec.initType);
    RegimeCoordLength(init, e, d.coord, errorCoord);
    assert SampleShape(spec, e, d, errorCoord).value == SampleFamily(f, reg, d);
  }

  /** A stroke's range list is the family's base ranges followed by the
      scale, rotation and translation ranges. */
  lemma SpecRangesParts(t: ShapeType, c: ColorType, initType: string)
    ensures
      var f := Family(t);
      SpecOf(t, c, initType).shapeRanges
        == f.baseRanges + ScaleRanges(f.singlescale, f.multiscale) + RotationRanges(f.rotation)
           + TranslationRanges(f.translation)
  {
    var f := Family(t);
    assert f.baseRanges + TransformRanges(f)
      == f.baseRanges + ScaleRanges(f.singlescale, f.multiscale) + RotationRanges(f.rotation)
         + TranslationRanges(f.translation);
  }

  lemma AllInRangeFour(x1: seq<real>, r1: seq<Range>, x2: seq<real>, r2: seq<Range>,
                       x3: seq<real>, r3: seq<Range>, x4: seq<real>, r4: seq<Range>)
    requires AllInRange(x1, r1) && AllInRange(x2, r2) && AllInRange(x3, r3) && AllInRange(x4, r4)
    ensures AllInRange(x1 + x2 + x3 + x4, r1 + r2 + r3 + r4)
  {
    AllInRangeConcat(x1, r1, x2, r2);
    AllInRangeConcat(x1 + x2, r1 + r2, x3, r3);
    AllInRangeConcat(x1 + x2 + x3, r1 + r2 + r3, x4, r4);
  }

  /** In the gen_sphere regime a late stroke's anchor sits near the unit
      sphere, and a spline's jitter can carry a control point past the
      (-1, 1) range: decay 0.01 puts the anchor at x = 0.99, and a jitter
      draw of 0.9 at the smallest scale 0.0406 moves it to 1.00624. */
  lemma SphereSplineLeavesRange(spec: StrokeSpec, e: Transcendentals, d: Draws)
    requires spec.shape == QuadraticBezier && spec.initType == "gen_sphere"
    requires ValidTranscendentals(e)
    requires e.decay == 0.01 && e.sinPhi == 1.0 && e.cosTheta == 1.0
    requires DrawsFit(Family(spec.shape), d)
    requires d.base[0] == 0.0 && d.base[1] == 0.9
    ensures !InRange(SampleShape(spec, e, d, None).value[0],
                     SpecOf(spec.shape, spec.color, spec.initType).shapeRanges[0])
  {
    var reg := GenSphereRegime(e);
    assert reg.coord[0] == 0.99;
    assert BaseSample(Spline(3, 2), reg, d.base)[0] == 0.99 + 0.4 * 0.0406;
  }

  // ---------------------------------------------------------------------------
  // Colour sampler

  /** The colour model's sampler: uniforms for RGB, uniforms shifted by -0.5
      for the six gradient terms, and standard-normal draws (any real) for the
      spherical-harmonic coefficients. */
  function SampleColor(c: ColorType, v: seq<real>): (r: seq<real>)
    requires |v| == |ColorRanges(c)|
    ensures |r| == |ColorRanges(c)|
  {
    match c
    case ConstantRgb => v
    case GradientRgb => seq(6, i requires 0 <= i < 6 => v[i] - 0.5) + v[6..]
    case ConstantSh2 => v
    case ConstantSh3 => v
  }

  lemma ColorSampleInRange(c: ColorType, v: seq<real>)
    requires |v| == |ColorRanges(c)|
    requires c.ConstantRgb? || c.GradientRgb? ==> Unit(v)
    ensures AllInRange(SampleColor(c, v), ColorRanges(c))
  {
    var r := SampleColor(c, v);
    var rs := ColorRanges(c);
    forall k | 0 <= k < |r|
      ensures InRange(r[k], rs[k])
    {
      if c.GradientRgb? && k >= 6 {
        assert rs[k] == Closed(0.0, 1.0);
      }
    }
  }
}
