# PaintNeSF stroke core, modelled in Dafny

PaintNeSF represents a scene as a set of parametric brush strokes. Each stroke is a signed-distance primitive with a colour model and a density. This project models the bookkeeping around those strokes in three places:

- `strokelib/strokes.py`:
  - the stroke catalogue: eighteen shape families over twelve base SDFs and four colour models;
  - the packed shape id;
  - `get_stroke` and its `shape_sampler` with the three initialisation regimes (`recon`, `gen_box`, `gen_sphere`);
  - the argument checks of the two autograd forward passes;
  - the five strategies of `compose_strokes`.
- `loss.py`:
  - the per-element data losses (`mse`, `l1`, `charb`, `huber`);
  - the integrated distance between two segments;
  - how `compute_data_loss` weighs the levels of a rendering;
  - the asymmetric residual of `error_loss`.
- `datasets.py`:
  - the per-process batch and patch sizes;
  - the pixels and cameras of a training batch;
  - the modulo train/test split of the LLFF, Tanks-and-Temples and DTU loaders;
  - the length a loader reports;
  - the zero-shot azimuths.

The files and their modules:

- `results.dfy` (`Results`): `Option` and `Result`.
- `realseqs.dfy` (`RealSeqs`): sums, dot products, minima and maxima of real sequences, and convex-combination bounds.
- `catalog.dfy` (`Catalog`): the catalogue tables, the shape id, and `get_stroke`. This includes the lookup exactly as written, which extends the catalogue's own lists (see Findings).
- `sampler.dfy` (`Sampler`): `shape_sampler` and the colour samplers.
- `stroke_shapes.dfy` (`StrokeShapes`): the asserts of `_stroke_fn.forward` and `_compositing_fn.forward`, over tensor shapes.
- `compositing.dfy` (`Compositing`): `compose_strokes` for one sample point.
- `loss.dfy` (`Loss`): the loss functions.
- `datasets.dfy` (`Datasets`): the dataset bookkeeping.

Several things are passed in as parameters, together with predicates stating what the model relies on:

- random draws: `torch.rand`, `np.random.randint` and `np.random.rand`;
- the transcendental values: `exp`, `sqrt`, `4 ** x`, `sin` and `cos`;
- the backend "over" compositing kernel.

Two behaviours of the code are modelled exactly as written:

- **`get_stroke` changes the catalogue.** It extends the catalogue's range lists in place, so a repeated lookup reports a larger dimension. This is the finding below.
- **`_stroke_fn.backward` with no gradient requested** returns twelve `None`s (strokes.py:193-194) rather than signalling an error.

## Model

| member | source | states |
|---|---|---|
| Catalog.BaseSdfAtIndex | source/strokelib/strokes.py:12-25 | the dispatch index of each base SDF names that SDF back: the index table is injective |
| Catalog.BaseSdfAt | source/strokelib/strokes.py:12-25 | exactly the indices 0..11 name a base SDF, each the inverse of `BaseSdfIndex` |
| Catalog.AllShapesComplete | source/strokelib/strokes.py:40-82 | the catalogue has an entry for every shape type |
| Catalog.FamilyScaleExclusive | source/strokelib/strokes.py:40-82 | no catalogue entry enables both single and per-axis scale |
| Catalog.InitialTable | source/strokelib/strokes.py:40-82 | the freshly built catalogue maps every shape to its own base ranges |
| Catalog.ParseShape | source/strokelib/strokes.py:239-240 | a shape name that is found is the name of the entry it finds; otherwise the lookup fails |
| Catalog.ParseShapeName | source/strokelib/strokes.py:40-82 | every catalogue name looks up its own entry (names and entries in bijection) |
| Catalog.ParseColor | source/strokelib/strokes.py:241 | a colour name that is found is the name of the model it finds |
| Catalog.ParseColorName | source/strokelib/strokes.py:84-90 | every colour model is found under its own name |
| Catalog.ColorChannels | source/strokelib/strokes.py:92 | every colour id renders 3 channels |
| Catalog.ColorDimensions | source/strokelib/strokes.py:84-90 | the colour models take 3, 12, 12 and 27 parameters |
| Catalog.MakeSdfId | source/strokelib/strokes.py:95-106 | the packed id carries the base index above bit 4 and the four capability flags in bits 0..3, and stays below 0xC0 |
| Catalog.DecodeMakeSdfId | source/strokelib/strokes.py:95-106 | decoding a packed id gives back the base SDF and the four flags |
| Catalog.MakeDecodedSdfId | source/strokelib/strokes.py:95-106 | every id that decodes is the packing of its decoding (the converse round trip) |
| Catalog.SdfIdInjective | source/strokelib/strokes.py:95-106 | distinct field combinations get distinct ids |
| Catalog.ScaleRangesAtMostOneGroup | source/strokelib/strokes.py:245-248 | one scale range, three, or none; single scale wins when both flags are set |
| Catalog.TransformRangesLength | source/strokelib/strokes.py:245-252 | the lookup appends 1 or 3 scale ranges, 3 rotation ranges and 3 translation ranges, as the flags say |
| Catalog.GetStroke | source/strokelib/strokes.py:239-313 | the intended lookup. An unknown shape fails first, then an unknown colour, and two recognised names always succeed. On success the names match the entry, the id decodes to the entry's base and flags, `dim_shape` is the length of the range list and equals base ranges plus transform ranges, the list starts with the base ranges, `dim_color` is the colour range count, and the record is `SpecOf` the parsed shape and colour |
| Catalog.GetStrokeAsWritten | source/strokelib/strokes.py:245-252 | the lookup as written. It stores the extended list back into the catalogue, and its `dim_shape` counts the stored list plus this call's appends. It fails exactly when the intended lookup fails |
| Catalog.FirstLookupAgrees | source/strokelib/strokes.py:245-252 | on a fresh catalogue, the lookup as written returns what the intended lookup returns |
| Catalog.RepeatedLookupGrows | source/strokelib/strokes.py:245-252 | a second lookup of the same shape reports the transform ranges twice. For any family with a flag set, that exceeds the true dimension |
| Catalog.SphereLookedUpTwice | source/strokelib/strokes.py:245-252 | `sphere` reports 4 shape parameters, then 8 |
| Sampler.ParseInitName | source/strokelib/strokes.py:257-291 | the three regime names select their regimes |
| Sampler.ParseInitType | source/strokelib/strokes.py:257-291 | a recognised regime name is the name of the regime it selects |
| Sampler.ScaleWindowNonEmpty | source/strokelib/strokes.py:257-291 | in every regime, `scale_min < scale_max` |
| Sampler.ReconWindow | source/strokelib/strokes.py:257-270 | recon anchors lie in [-0.5, 0.5]^3 and the scale window lies in [0.034, 0.385] |
| Sampler.GenBoxWindow | source/strokelib/strokes.py:272-279 | gen_box anchors lie in [-0.6, 0.6]^3 and the window lies in [0.025, 0.21] |
| Sampler.GenSphereWindow | source/strokelib/strokes.py:281-290 | gen_sphere anchors lie within `1 - decay` per axis and the window lies in [0.04, 0.15] |
| Sampler.BaseSampleLength | source/strokelib/strokes.py:27-81 | each base sampler emits one value per base range of its family. The three splines emit 11, 14 and 14 |
| Sampler.FamilyBaseCount | source/strokelib/strokes.py:40-82 | the sampler's value count matches the family's base range count, for every family |
| Sampler.SampleFamily | source/strokelib/strokes.py:292-307 | a sample has base length plus transform-range length, laid out as base values, scales, rotations, then the anchor as translation |
| Sampler.SampleShape | source/strokelib/strokes.py:254-307 | the sampler fails exactly for an unknown regime name, which leaves the scale window unbound. The values it returns otherwise are characterised by `Sampler.SampleLength` and `Sampler.SampleInRange` |
| Sampler.SampleLength | source/strokelib/strokes.py:292-307 | the sample has one value per base range and per transform range |
| Sampler.SampleMatchesDimension | source/strokelib/strokes.py:292-311 | for the record an intended lookup builds (`Catalog.GetStroke` returns `SpecOf` of the parsed shape and colour), the sampler's vector has exactly `dim_shape` values |
| Sampler.SecondLookupOutgrowsSampler | source/strokelib/strokes.py:245-311 | after a second lookup as written, a capable family's sampler emits fewer values than the reported `dim_shape` |
| Sampler.ControlPointsInRange | source/strokelib/strokes.py:30-34 | spline control points stay in [-1, 1] when the anchor leaves room for a half-scale jitter |
| Sampler.RadiiInRange | source/strokelib/strokes.py:35 | spline radii stay in [0.001, 0.2] for a scale in [0.005, 0.5] |
| Sampler.SplineSampleInRange | source/strokelib/strokes.py:27-38 | a spline's whole base sample lies in its declared ranges when the regime is tight enough |
| Sampler.TransformSampleInRange | source/strokelib/strokes.py:295-302 | scale, rotation and translation samples lie in the ranges the lookup appends |
| Sampler.SampleInRange | source/strokelib/strokes.py:254-307 | every sampled component lies in the range declared at its position. This holds for recon and gen_box for every family, and for gen_sphere for every non-spline family |
| Sampler.SphereSplineLeavesRange | source/strokelib/strokes.py:281-294 | gen_sphere with decay 0.01 puts a quadratic Bézier control point at 1.00624, outside its declared [-1, 1] |
| Sampler.SampleColor | source/strokelib/strokes.py:84-90 | each colour sampler emits one value per colour range |
| Sampler.ColorSampleInRange | source/strokelib/strokes.py:84-90 | colour samples lie in their declared ranges |
| StrokeShapes.StrokeForwardShapes | source/strokelib/strokes.py:146-183 | the forward pass is accepted exactly when all five asserts hold and there is at least one sample and one stroke, and a bad `x` is reported first. When the asserts hold but there are no samples or no strokes, the colour reshape with an inferred axis fails. Alpha and sdf have shape `pre_shape + [strokes]`, colour `pre_shape + [strokes, 3]` and texcoord `pre_shape + [strokes, 2]`. Sdf and texcoord are present exactly as their flags ask |
| StrokeShapes.ProdZero | source/strokelib/strokes.py:180 | a shape holds no element exactly when one of its extents is zero, the case in which torch cannot infer a `-1` axis |
| StrokeShapes.StrokeForwardRefusesEmpty | source/strokelib/strokes.py:146-180 | zero strokes (`[0, 4]` parameters) or zero samples (`x` of shape `[0, 3]`) pass every assert and fail at the colour reshape |
| StrokeShapes.StrokeForwardFlattening | source/strokelib/strokes.py:151-162 | the flattened alpha buffer holds one value per (sample, stroke) pair: three coordinates of `x` per alpha |
| StrokeShapes.ComposeForwardShapes | source/strokelib/strokes.py:321-346 | compositing is accepted exactly when all five asserts hold and the stroke axis, the colour axis and `pre_shape` are all non-empty. When the asserts hold, it fails in one of the three reshapes exactly when one of those is empty. The density has shape `pre_shape` and the colour `pre_shape + [color_dim]` |
| StrokeShapes.ComposeRejectsStrokeCountMismatch | source/strokelib/strokes.py:326-327 | 3 strokes against 4 density parameters are refused by the stroke-count check |
| StrokeShapes.ComposeForwardRefusesEmpty | source/strokelib/strokes.py:321-345 | no strokes fail at the alphas reshape, no colour channels at the colours reshape, and an empty `pre_shape` at the output reshape |
| StrokeShapes.ComposeForwardFlattening | source/strokelib/strokes.py:329-345 | the kernel sees one row per sample holding all its strokes, and returns one density and one colour per row |
| Compositing.ParseStrategy | source/strokelib/strokes.py:388-419 | a recognised strategy name is the name of the strategy it selects |
| Compositing.ParseStrategyName | source/strokelib/strokes.py:388-419 | every strategy is selected by its own name |
| Compositing.ArgMax | source/strokelib/strokes.py:391 | the index is a largest key, and the first one |
| Compositing.FirstMaxUnique | source/strokelib/strokes.py:391 | the first maximum is unique, so argmax is determined by the keys |
| Compositing.SoftmaxWeights | source/strokelib/strokes.py:405 | softmax weights are positive and sum to 1 |
| Compositing.BlendOneHot | source/strokelib/strokes.py:390-408 | weights that all sit on one stroke blend to exactly that stroke's selection, the composite a max strategy returns for it |
| Compositing.ComposeStrokes | source/strokelib/strokes.py:376-419 | only an unknown name gives `UnknownComposition`. An empty stroke axis fails for exactly the two max strategies. "over" fails at the backend's reshape exactly when there are no strokes or no colour channels, and every other recognised case succeeds. "max" returns the first-argmax stroke's alpha times density and its colour; "max_density_weighted" does the same for the argmax of alpha times density |
| Compositing.OverAgreesWithBackendShapes | source/strokelib/strokes.py:320-345 | for one sample point, "over" succeeds exactly when the backend's shape checks accept one row of that many strokes and colour channels |
| Compositing.ComposeWithinStrokes | source/strokelib/strokes.py:390-417 | for every strategy except "over", the density lies between the smallest and largest weighted stroke density and each colour channel between the strokes' extremes. With no strokes, softmax gives zeros |
| Compositing.SelectWithin | source/strokelib/strokes.py:390-402 | a selected stroke lies within the strokes' bounds |
| Compositing.BlendWithin | source/strokelib/strokes.py:403-417 | a blend with positive weights summing to one lies within the strokes' bounds |
| Compositing.FirstMaxScaled | source/strokelib/strokes.py:396-398 | scaling every key by one positive factor keeps the first argmax |
| Compositing.MaxDensityWeightedUniform | source/strokelib/strokes.py:390-402 | with one shared positive density, "max_density_weighted" equals "max" |
| Compositing.MaxStrategiesDiffer | source/strokelib/strokes.py:390-402 | with unequal densities the two max strategies give different composites (0.9 against 1.5) |
| Compositing.SoftmaxEqualKeys | source/strokelib/strokes.py:405 | equal keys get weight `1/n` each |
| Compositing.SoftmaxEqualAlphas | source/strokelib/strokes.py:403-409 | with equal alphas, "softmax" returns the mean weighted density |
| Compositing.SoftmaxFavoursLargerKeys | source/strokelib/strokes.py:405 | a larger key never gets a smaller softmax weight |
| Compositing.SoftmaxWeightOfArgMax | source/strokelib/strokes.py:390-405 | the stroke "max" picks carries the largest "softmax" weight |
| Loss.ParseLossType | source/loss.py:246-260 | a recognised loss name is the name of the loss it selects |
| Loss.ParseLossTypeName | source/loss.py:246-260 | every loss type is selected by its own name |
| Loss.GetDataLoss | source/loss.py:246-261 | an unknown type name fails, and only an unknown one. `mse` gives r², `l1` gives \|r\| |
| Loss.ElementLossEven | source/loss.py:246-258 | every data loss costs the same for `r` and `-r` |
| Loss.ElementLossNonNegative | source/loss.py:246-258 | every data loss is non-negative: Huber for a positive delta, Charbonnier for a genuine square root |
| Loss.ElementLossAtZero | source/loss.py:246-258 | a zero residual costs nothing under mse, l1 and huber. Under charb it costs the padding's magnitude |
| Loss.HuberContinuous | source/loss.py:256-258 | at \|r\| = delta the two Huber branches agree |
| Loss.HuberBelowHalfSquare | source/loss.py:256-258 | Huber never exceeds half the squared error |
| Loss.IntegratedDistanceNonNegative | source/loss.py:105-120 | the integrated segment distance is non-negative |
| Loss.IntegratedDistanceIdentical | source/loss.py:105-120 | identical segments are at distance zero |
| Loss.IntegratedDistanceSwap | source/loss.py:105-120 | swapping the two segments leaves the distance unchanged |
| Loss.IntegratedDistanceReverse | source/loss.py:105-120 | reversing both segments leaves the distance unchanged |
| Loss.ComputeDataLoss | source/loss.py:264-311 | no renderings fails, and so does an unknown loss type; nothing else fails. Otherwise the result is the level-weighted total: coarse multiplier times the coarse levels (when positive), data multiplier times the final level, plus the mask and transport terms when they are enabled |
| Loss.CollectLosses | source/loss.py:273-299 | the loop collects every level's loss when the coarse multiplier is positive, otherwise only the final level's. It also takes the mask loss at the final level |
| Loss.CollectedAll | source/loss.py:273-284 | after the loop the collected list is all level losses, or only the last one |
| Loss.CombineMatchesTotal | source/loss.py:301-308 | the closing arithmetic over the collected losses equals the level-weighted total |
| Loss.FinalLevelOnly | source/loss.py:301-308 | with the coarse, mask and transport multipliers off, only the final level counts |
| Loss.DataLossTotalNonNegative | source/loss.py:264-308 | non-negative multipliers and losses give a non-negative total |
| Loss.Clamp01 | source/loss.py:389 | the clamp lies in [0, 1] and leaves values in [0, 1] alone |
| Loss.ErrorResidualAsymmetry | source/loss.py:389-391 | over-predicting by `d` costs `d`; under-predicting by `d` costs `lowerLambda·d` |
| Loss.ErrorResidualNonNegative | source/loss.py:389-391 | for a non-negative `lowerLambda` the residual is non-negative |
| Loss.ErrorResidualZero | source/loss.py:389-391 | for a positive `lowerLambda` the residual is zero exactly on a perfect prediction |
| Loss.ErrorLossNonNegative | source/loss.py:382-398 | with non-negative multipliers, densities and colours, the error loss is non-negative |
| Datasets.FloorDiv | source/datasets.py:193 | Python's `//` is the floor of the quotient, for either sign of the divisor |
| Datasets.MakeBatcher | source/datasets.py:192-196 | no processes fails. Otherwise the patch side is `max(patch_size, 1)`, the batch is `batch_size // world_size`, and the constructor accepts exactly when patch² ≤ batch, raising the ValueError otherwise |
| Datasets.MakeBatcherValid | source/datasets.py:192-196 | accepted sizings are valid, and every valid sizing is accepted on one process |
| Datasets.ParseBatching | source/datasets.py:39-42 | a recognised batching value is the value of the method it selects |
| Datasets.ParseSplit | source/datasets.py:33-36 | a recognised split value is the value of the split it selects |
| Datasets.ParseEnumNames | source/datasets.py:33-42 | every batching method and split is found by its own value |
| Datasets.SetUpLoader | source/datasets.py:191-203 | the constructor's checks in order: the sizing fails first, then an unknown batching value, then an unknown split value, and it succeeds exactly when all three pass, with a valid sizing and the named method and split |
| Datasets.NumPatches | source/datasets.py:336 | at least one patch, and as many whole patches as fit in the batch |
| Datasets.PatchCoversSquare | source/datasets.py:343-347 | a patch is the `patch × patch` square of pixels at its origin on one camera: every ray lies in the square, every pixel of the square occurs, and no pixel occurs twice |
| Datasets.NextTrain | source/datasets.py:331-354 | `randint` fails exactly when the image is smaller than a patch or there are no cameras. Otherwise there is one patch per draw, with the per-patch camera or the single shared one |
| Datasets.NextTrainInImage | source/datasets.py:336-352 | every ray lies inside the image and names an existing camera, and the batch holds at most `batch_size` rays |
| Datasets.Select | source/datasets.py:505-516 | the mask keeps exactly the wanted indices below `n`, in increasing order |
| Datasets.SplitPartitions | source/datasets.py:505-517 | train and test are disjoint, cover `0..n-1`, are increasing, and their sizes add to `n` |
| Datasets.LlffIndices | source/datasets.py:504-518 | an index is selected exactly when it is in range and either held out (test), not held out (train), or the use-all flag is set |
| Datasets.UseAllSelectsRange | source/datasets.py:505-511 | a use-all flag selects `0, 1, …, n-1` |
| Datasets.FvsIndices | source/datasets.py:598-651 | with `render_path` on the test split no indices are selected. Otherwise the LLFF split on `llffhold` is used |
| Datasets.DtuIndices | source/datasets.py:654-725 | a `render_path` configuration is refused, and only that. Otherwise the DTU split is the LLFF split on `dtuhold` |
| Datasets.LlffHoldEightTest | source/datasets.py:509-513 | ten images with hold 8 test on images 0 and 8 |
| Datasets.LlffHoldEightTrain | source/datasets.py:509-513 | and train on images 1..7 and 9 |
| Datasets.TestLenIsHeldOutCount | source/datasets.py:261-265 | without `render_path`, the test loader's length is the number of multiples of `hold` below `n`, which is the ceiling of `n / hold`, or `n` for hold 0. The training length is 1000 |
| Datasets.HeldOutCount | source/datasets.py:509-513 | the held-out mask keeps the ceiling of `n / hold` indices, and all `n` for hold 0 |
| Datasets.WrapPhiRange | source/datasets.py:754-756 | within a turn of [0, 2π] the wrap lands in [0, 2π] and moves the angle by a whole turn or not at all |
| Datasets.DegreesRange | source/datasets.py:785-786 | [0, 2π] radians convert into [0, 360] degrees |
| Datasets.NormalizeAzimuthRange | source/datasets.py:834 | azimuths in [0, 360] map into (-180, 180], moving by 0 or -360 |
| Datasets.TrainAzimuthRange | source/datasets.py:754-834 | a training camera's azimuth lies in (-180, 180] for any phi range within one turn of [0, 2π] |
| Datasets.TestAzimuthRange | source/datasets.py:796-834 | each of the 100 test azimuths lies in (-180, 180], and the first is 0 |
| Datasets.ZeroshotSide | source/datasets.py:825 | `800 // factor` fails only for a zero factor, and is the floor quotient for a positive one |

## Left out

- **Backend kernels.** The SDF and colour kernels behind `_backend.stroke_forward`, `_backend.stroke_backward`, `compose_forward` and `compose_backward` are not modelled. Their numerics live in native code that is not part of this model. The "over" strategy of `compose_strokes` is therefore a function parameter.
- **Autograd.**
  - `_stroke_fn.backward` and `_compositing_fn.backward` are not modelled: gradient routing belongs to the kernels.
  - Saving tensors for the backward pass is not modelled either.
  - Dtype casts (`.float()`) are not modelled.
- **Floating point.** Real arithmetic stands in for float32/float64 throughout.
- **Transcendental values.** `torch.pi` and `math.pi` are the double nearest to π. The capped torus's angle bound `2 * torch.acos(torch.tensor(0.0))` is computed in float32, so it is the float32 nearest to π, written out as a constant. `exp`, `sqrt`, `4 ** x`, `sin` and `cos` enter as parameters, constrained only by the properties stated in `Sampler.ValidTranscendentals`, `Compositing.PositiveExp`/`MonotoneExp` and `Loss.ValidSqrt`.
- **Randomness.** Random draws are parameters constrained to their ranges. `randn` colour draws for the spherical-harmonic models are arbitrary reals.
- Sampler.SampleInRange: does not cover splines under `gen_sphere`, because there the claim is false (`Sampler.SphereSplineLeavesRange`).
- Sampler.SampleInRange: does not cover a `recon` error coordinate outside the [-0.5, 0.5]^3 box, which the sampler accepts unchecked.
- Compositing.ComposeStrokes: requires alphas, colours and densities to share the stroke axis, because the torch-only strategies have no check of their own. The checks of the backend path are `StrokeShapes.ComposeForwardShapes`.
- Compositing.ComposeStrokes: models one sample point, not a batch, because the batch rows are reduced independently.
- StrokeShapes.StrokeForwardShapes: the sample radius tensor is not checked, because the source does not check it either.
- Loss.ComputeDataLoss: requires every level's residual list to be non-empty, because the mean of an empty tensor is NaN, not an exception.
- Loss.ComputeDataLoss: takes the transport (sinkhorn) loss of the final level as an input, because `_get_sinkhorn_loss` is optimal transport on point clouds and is not part of this model.
- Loss.ComputeDataLoss: does not model the statistics dictionary, because it is diagnostic output only.
- Loss.IntegratedDistanceIdentical: the converse, that zero distance means identical segments, is not proved. The model states only non-negativity, vanishing on identical segments and the two symmetries.
- Loss.ErrorLossNonNegative: residuals are taken per ray, with the squared colour error already summed over channels. Tensor broadcasting is not modelled.
- **Other losses in `loss.py`** are not part of this model: interlevel, distortion, style, CLIP, diffusion and stroke regularisers.
- **Dataset I/O.** Image, pose and camera loading are not modelled. `camera_utils` and the ray construction of `_make_ray_batch` are not modelled either. `pixel_coordinates(p, p)` is taken to give the offsets `0..p-1` along each axis.
- Catalog.GetStrokeAsWritten: returns the extended list by value. The aliasing between the list a caller holds and the catalogue entry is described under Findings but not modelled, because only the catalogue's own growth affects later lookups.
- **Further errors in `datasets.py`:**
  - the FVS `factor` ValueError is not modelled: it concerns files on disk;
  - the zero-shot `render_path` ValueError is not modelled: it is a configuration guard outside the index bookkeeping.
- Datasets.TestLenIsHeldOutCount: with `render_path` on, the cameras are the render path's poses (datasets.py:229-233, 544), so the test length is that path's frame count, which is outside the model. The lemma states the held-out count only.
- Datasets.TestLenIsHeldOutCount: states the test count for a non-negative `hold` only. A negative `hold` selects the multiples of its magnitude, which the count does not cover.
- Datasets.FvsIndices: with `render_path` on, the test split's cameras come from a generated ellipse path, which is outside the model. That case is modelled as "no indices selected".

## Findings

| source | as written | input that shows it | evidently intended | confidence | as-written member | corrected member |
|---|---|---|---|---|---|---|
| source/strokelib/strokes.py:245-252 | `shape_param_ranges += ...` extends the list object stored in `_sdf_dict`, so every later `get_stroke` of the same shape appends its transform ranges again | `get_stroke('sphere', 'constant_rgb', 'recon')` twice: `dim_shape` is 4, then 8, while `shape_sampler` still returns 4 values. The list a caller received is that same object, so a later lookup also lengthens it, and the earlier caller's `dim_shape` no longer equals its list's length | each lookup builds a fresh list (`shape_param_ranges = shape_param_ranges + ...`), so `dim_shape` equals the sampler's length on every call | not executed | Catalog.RepeatedLookupGrows | Sampler.SampleMatchesDimension |
