/** The argument checks of the two autograd functions in
    `strokelib/strokes.py` (`_stroke_fn.forward` and
    `_compositing_fn.forward`), stated over tensor shapes, and the output
    shapes they hand back around the backend kernels. */
module StrokeShapes {
  import opened Results
  import opened Catalog

  /** A tensor shape: one extent per dimension. */
  type Shape = seq<nat>

  /** Python's `shape[:-k]`: every dimension but the last `k`, or none. */
  function DropLast(s: Shape, k: nat): (r: Shape)
    ensures |r| == if |s| >= k then |s| - k else 0
    ensures r == s[..|r|]
  {
    if |s| >= k then s[..|s| - k] else []
  }

  /** Number of elements of a tensor of this shape. */
  function Prod(s: Shape): nat
  {
    if |s| == 0 then 1 else Prod(s[..|s| - 1]) * s[|s| - 1]
  }

  lemma ProdAppend(s: Shape, k: nat)
    ensures Prod(s + [k]) == Prod(s) * k
  {
    assert (s + [k])[..|s|] == s;
  }

  /** A tensor is empty exactly when one of its dimensions has extent zero. */
  lemma {:induction false} ProdZero(s: Shape)
    ensures Prod(s) == 0 <==> exists k :: 0 <= k < |s| && s[k] == 0
  {
    if |s| > 0 {
      var init := s[..|s| - 1];
      ProdZero(init);
      if Prod(s) == 0 {
        if s[|s| - 1] != 0 {
          var k :| 0 <= k < |init| && init[k] == 0;
          assert s[k] == 0;
        }
      } else {
        forall k | 0 <= k < |s|
          ensures s[k] != 0
        {
          if k < |s| - 1 {
            assert s[k] == init[k];
          }
        }
      }
    }
  }

  // ---------------------------------------------------------------------------
  // _stroke_fn.forward

  /** Which assertion of the forward pass failed; a missing last dimension,
      an `IndexError` in the source, is reported with the check that reads it. */
  datatype StrokeArgError =
    | PointsNotTriples      // x must have shape [..., num_samples, 3]
    | ViewdirMismatch       // viewdir must have shape [..., 3]
    | ShapeParamsNotMatrix  // shape_params must be [num_strokes, num_shape_params]
    | ColorParamsNotMatrix  // color_params must be [num_strokes, num_color_params]
    | StrokeCountMismatch   // both parameter matrices must have num_strokes rows
    | ColorOutputReshape    // `reshape(*pre_shape, num_strokes, -1)` of an empty colour buffer

  datatype StrokeOutputShapes = StrokeOutputShapes(
    alpha: Shape, color: Shape, sdf: Option<Shape>, texcoord: Option<Shape>)

  predicate PointsOk(x: Shape) { |x| > 0 && x[|x| - 1] == 3 }

  predicate ViewdirOk(x: Shape, viewdir: Shape)
  {
    DropLast(viewdir, 1) == DropLast(x, 2) && |viewdir| > 0 && viewdir[|viewdir| - 1] == 3
  }

  /** The forward pass's checks, in source order, then the output shapes:
      `pre_shape` is `x`'s shape without its coordinate axis, alpha (and sdf)
      append the stroke axis, colour appends the stroke axis and the colour
      model's channels, texture coordinates append the stroke axis and 2. The
      sample radii are not checked. Once the checks pass, torch refuses to
      reshape the colour buffer with an inferred `-1` axis when the fixed
      axes `pre_shape + [num_strokes]` hold no element: with zero strokes or
      an empty `pre_shape` the call fails there. */
  function StrokeForwardShapes(x: Shape, viewdir: Shape, shapeParams: Shape, colorParams: Shape,
                               color: ColorType, noSdf: bool, returnTexcoord: bool)
    : (r: Result<StrokeOutputShapes, StrokeArgError>)
    ensures r.Ok? <==>
      && PointsOk(x) && ViewdirOk(x, viewdir)
      && |shapeParams| == 2 && |colorParams| == 2 && shapeParams[0] == colorParams[0]
      && Prod(x[..|x| - 1]) != 0 && shapeParams[0] != 0
    ensures !PointsOk(x) ==> r == Err(PointsNotTriples)
    ensures r == Err(ColorOutputReshape) <==>
      && PointsOk(x) && ViewdirOk(x, viewdir)
      && |shapeParams| == 2 && |colorParams| == 2 && shapeParams[0] == colorParams[0]
      && (Prod(x[..|x| - 1]) == 0 || shapeParams[0] == 0)
    ensures r.Ok? ==>
      var pre := x[..|x| - 1];
      var strokes := shapeParams[0];
      && r.value.alpha == pre + [strokes]
      && r.value.color == pre + [strokes, 3]
      && (r.value.sdf.Some? <==> !noSdf)
      && (r.value.sdf.Some? ==> r.value.sdf.value == r.value.alpha)
      && (r.value.texcoord.Some? <==> returnTexcoord)
      && (r.value.texcoord.Some? ==> r.value.texcoord.value == pre + [strokes, 2])
  {
    if !PointsOk(x) then Err(PointsNotTriples)
    else if !ViewdirOk(x, viewdir) then Err(ViewdirMismatch)
    else if |shapeParams| != 2 then Err(ShapeParamsNotMatrix)
    else if |colorParams| != 2 then Err(ColorParamsNotMatrix)
    else if shapeParams[0] != colorParams[0] then Err(StrokeCountMismatch)
    else if Prod(x[..|x| - 1]) * shapeParams[0] == 0 then Err(ColorOutputReshape)
    else
      var pre := x[..|x| - 1];
      var strokes := shapeParams[0];
      Ok(StrokeOutputShapes(
        pre + [strokes],
        pre + [strokes, ColorChannels(color)],
        if noSdf then None else Some(pre + [strokes]),
        if returnTexcoord then Some(pre + [strokes, 2]) else None))
  }

  /** The backend sees the samples flattened to `Prod(pre_shape)` rows: the
      alpha buffer it fills holds one value per (sample, stroke) pair, three
      coordinates of `x` for every alpha of a stroke. */
  lemma StrokeForwardFlattening(x: Shape, viewdir: Shape, shapeParams: Shape, colorParams: Shape,
                                color: ColorType, noSdf: bool, returnTexcoord: bool)
    requires StrokeForwardShapes(x, viewdir, shapeParams, colorParams, color, noSdf, returnTexcoord).Ok?
    ensures
      var alpha := StrokeForwardShapes(x, viewdir, shapeParams, colorParams, color, noSdf, returnTexcoord).value.alpha;
      && Prod(alpha) == Prod(x[..|x| - 1]) * shapeParams[0]
      && Prod(alpha) * 3 == Prod(x) * shapeParams[0]
  {
    var alpha := StrokeForwardShapes(x, viewdir, shapeParams, colorParams, color, noSdf, returnTexcoord).value.alpha;
    var pre := x[..|x| - 1];
    assert x == pre + [3];
    AppendAxisCounts(pre, shapeParams[0], 3);
  }

  /** Zero strokes, or zero samples, pass every assert and then fail at the
      colour reshape. */
  lemma StrokeForwardRefusesEmpty(color: ColorType)
    ensures StrokeForwardShapes([2, 3], [3], [0, 4], [0, 3], color, false, false) == Err(ColorOutputReshape)
    ensures StrokeForwardShapes([0, 3], [3], [5, 4], [5, 3], color, false, false) == Err(ColorOutputReshape)
  {
    assert [2, 3][..1] == [2] && [0, 3][..1] == [0];
    assert Prod([2]) == 2 && Prod([0]) == 0;
  }

  /** Appending a stroke axis of `k` to `pre` gives `k` values per point of
      a tensor `pre + [c]`, for `c` coordinates per point. */
  lemma AppendAxisCounts(pre: Shape, k: nat, c: nat)
    ensures Prod(pre + [k]) == Prod(pre) * k
    ensures Prod(pre + [k]) * c == Prod(pre + [c]) * k
  {
    ProdAppend(pre, k);
    ProdAppend(pre, c);
    var p := Prod(pre);
    assert p * k * c == p * c * k;
  }

  // ---------------------------------------------------------------------------
  // _compositing_fn.forward

  datatype ComposeArgError =
    | AlphasRank          // alphas must have shape [..., num_strokes]
    | ColorsRank          // colors must have shape [..., num_strokes, color_dim]
    | DensityRank         // density_params must have shape [num_strokes]
    | LeadingMismatch     // alphas and colors share every leading dimension
    | StrokeCountDiffers  // alphas, colors and density_params agree on num_strokes
    | AlphasReshape       // `alphas.reshape(-1, num_strokes)` with no strokes
    | ColorsReshape       // `colors.reshape(-1, num_strokes, color_dim)` with no channels
    | OutputReshape       // `color_output.reshape(*pre_shape, -1)` with an empty `pre_shape`

  /** The checks of the backend compositing path, in source order, and the
      shapes of the density and colour it returns: `pre_shape` and
      `pre_shape` followed by the colour channels. After the checks come the
      three reshapes with an inferred `-1` axis, each of which torch refuses
      when its fixed axes hold no element: no strokes, then no colour
      channels, then an empty `pre_shape`. */
  function ComposeForwardShapes(alphas: Shape, colors: Shape, densities: Shape)
    : (r: Result<(Shape, Shape), ComposeArgError>)
    ensures r.Ok? <==>
      && |alphas| >= 2 && |colors| >= 3 && |densities| == 1
      && alphas[..|alphas| - 1] == colors[..|colors| - 2]
      && alphas[|alphas| - 1] == colors[|colors| - 2] == densities[0]
      && densities[0] != 0 && colors[|colors| - 1] != 0 && Prod(alphas[..|alphas| - 1]) != 0
    ensures r.Err? && r.error in {AlphasReshape, ColorsReshape, OutputReshape} <==>
      && |alphas| >= 2 && |colors| >= 3 && |densities| == 1
      && alphas[..|alphas| - 1] == colors[..|colors| - 2]
      && alphas[|alphas| - 1] == colors[|colors| - 2] == densities[0]
      && (densities[0] == 0 || colors[|colors| - 1] == 0 || Prod(alphas[..|alphas| - 1]) == 0)
    ensures r.Ok? ==>
      && r.value.0 + [densities[0]] == alphas
      && r.value.1 == r.value.0 + [colors[|colors| - 1]]
  {
    if |alphas| < 2 then Err(AlphasRank)
    else if |colors| < 3 then Err(ColorsRank)
    else if |densities| != 1 then Err(DensityRank)
    else if alphas[..|alphas| - 1] != colors[..|colors| - 2] then Err(LeadingMismatch)
    else if !(alphas[|alphas| - 1] == colors[|colors| - 2] == densities[0]) then Err(StrokeCountDiffers)
    else if densities[0] == 0 then Err(AlphasReshape)
    else if colors[|colors| - 1] == 0 then Err(ColorsReshape)
    else if Prod(alphas[..|alphas| - 1]) == 0 then Err(OutputReshape)
    else
      var pre := alphas[..|alphas| - 1];
      Ok((pre, pre + [colors[|colors| - 1]]))
  }

  /** A stroke axis of 3 against 4 density parameters is refused before any
      reduction, whatever the leading dimensions. */
  lemma ComposeRejectsStrokeCountMismatch(pre: Shape, channels: nat)
    requires |pre| > 0
    ensures ComposeForwardShapes(pre + [3], pre + [3, channels], [4]) == Err(StrokeCountDiffers)
  {
    var alphas, colors := pre + [3], pre + [3, channels];
    assert alphas[..|alphas| - 1] == pre;
    assert colors[..|colors| - 2] == pre;
    assert alphas[|alphas| - 1] == 3 && colors[|colors| - 2] == 3;
  }

  /** A stroke axis of zero fails at the first reshape, an empty batch of
      samples at the last. */
  lemma ComposeForwardRefusesEmpty()
    ensures ComposeForwardShapes([2, 0], [2, 0, 3], [0]) == Err(AlphasReshape)
    ensures ComposeForwardShapes([2, 4], [2, 4, 0], [4]) == Err(ColorsReshape)
    ensures ComposeForwardShapes([0, 4], [0, 4, 3], [4]) == Err(OutputReshape)
  {
    assert [2, 0][..1] == [2] && [2, 0, 3][..1] == [2];
    assert [2, 4][..1] == [2] && [2, 4, 0][..1] == [2];
    assert [0, 4][..1] == [0] && [0, 4, 3][..1] == [0];
    assert Prod([0]) == 0;
  }

  /** Each of the `Prod(pre_shape)` rows the kernel reduces holds all strokes
      of one sample: the flattened alpha buffer has exactly one density output
      per row. */
  lemma ComposeForwardFlattening(alphas: Shape, colors: Shape, densities: Shape)
    requires ComposeForwardShapes(alphas, colors, densities).Ok?
    ensures
      var out := ComposeForwardShapes(alphas, colors, densities).value;
      && Prod(alphas) == Prod(out.0) * densities[0]
      && Prod(out.1) == Prod(out.0) * colors[|colors| - 1]
  {
    var out := ComposeForwardShapes(alphas, colors, densities).value;
    ProdAppend(out.0, densities[0]);
    ProdAppend(out.0, colors[|colors| - 1]);
  }
}
