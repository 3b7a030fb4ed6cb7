/** The index bookkeeping of `datasets.py`: the per-process batch and patch
    sizes and their constructor check, the pixel and camera indices a
    training batch draws, the modulo train/test split shared by the LLFF,
    Tanks-and-Temples and DTU loaders, the azimuth range of the zero-shot
    cameras, and the length a data loader reports. Random draws are
    parameters; image and pose loading is not modelled. */
module Datasets {
  import opened Results
  import opened RealSeqs
  import Catalog

  /** Python's `a // b`: the floor of the quotient, for either sign of `b`. */
  function FloorDiv(a: int, b: int): (q: int)
    requires b != 0
    ensures 0 < b ==> b * q <= a < b * q + b
    ensures b < 0 ==> b * q + b < a <= b * q
  {
    if 0 < b then a / b else (-a) / (-b)
  }

  // ---------------------------------------------------------------------------
  // Batch and patch sizes (the constructor)

  datatype ConfigError =
    | ZeroWorldSize              // `batch_size // world_size` with no processes
    | PatchTooLarge(patch: int, batch: int)  // the constructor's ValueError
    | ZeroFactor                 // `800 // factor` with a zero downsampling factor
    | DtuRenderPath              // the DTU loader refuses `render_path`
    | UnknownBatching(name: string)  // `BatchingMethod(config.batching)` on an unknown value
    | UnknownSplit(name: string)     // `DataSplit(split)` on an unknown value

  /** The two enumerations the constructor looks values up in. */
  datatype BatchingMethod = AllImages | SingleImage

  datatype DataSplit = Train | Test

  function BatchingName(m: BatchingMethod): string
  {
    match m
    case AllImages => "all_images"
    case SingleImage => "single_image"
  }

  function SplitName(s: DataSplit): string
  {
    match s
    case Train => "train"
    case Test => "test"
  }

  /** `BatchingMethod(value)`: a recognised value is its member's value. */
  function ParseBatching(name: string): (r: Option<BatchingMethod>)
    ensures r.Some? ==> BatchingName(r.value) == name
  {
    if name == "all_images" then Some(AllImages)
    else if name == "single_image" then Some(SingleImage)
    else None
  }

  /** `DataSplit(value)`: a recognised value is its member's value. */
  function ParseSplit(name: string): (r: Option<DataSplit>)
    ensures r.Some? ==> SplitName(r.value) == name
  {
    if name == "train" then Some(Train)
    else if name == "test" then Some(Test)
    else None
  }

  /** Every member of both enumerations is found by its own value. */
  lemma ParseEnumNames(m: BatchingMethod, s: DataSplit)
    ensures ParseBatching(BatchingName(m)) == Some(m)
    ensures ParseSplit(SplitName(s)) == Some(s)
  {
  }

  datatype Batcher = Batcher(patchSize: int, batchSize: int)

  /** The constructor's sizing: the patch side is at least 1, the batch is
      split evenly over the processes, and a patch must fit in one
      process's batch. */
  function MakeBatcher(patchSize: int, batchSize: int, worldSize: int): (r: Result<Batcher, ConfigError>)
    ensures worldSize == 0 <==> r == Err(ZeroWorldSize)
    ensures r.Ok? ==>
      && r.value.patchSize == (if patchSize < 1 then 1 else patchSize)
      && r.value.batchSize == FloorDiv(batchSize, worldSize)
      && 1 <= r.value.patchSize
      && r.value.patchSize * r.value.patchSize <= r.value.batchSize
    ensures r.Err? && r != Err(ZeroWorldSize) ==>
      var p := if patchSize < 1 then 1 else patchSize;
      r == Err(PatchTooLarge(p, FloorDiv(batchSize, worldSize))) && FloorDiv(batchSize, worldSize) < p * p
  {
    var p := if patchSize < 1 then 1 else patchSize;
    if worldSize == 0 then Err(ZeroWorldSize)
    else
      var b := FloorDiv(batchSize, worldSize);
      if p * p > b then Err(PatchTooLarge(p, b)) else Ok(Batcher(p, b))
  }

  predicate ValidBatcher(b: Batcher)
  {
    1 <= b.patchSize && b.patchSize * b.patchSize <= b.batchSize
  }

  /** Every batcher the constructor accepts is valid, and every valid
      sizing is accepted on one process. */
  lemma MakeBatcherValid(patchSize: int, batchSize: int, worldSize: int)
    ensures MakeBatcher(patchSize, batchSize, worldSize).Ok? ==>
      ValidBatcher(MakeBatcher(patchSize, batchSize, worldSize).value)
    ensures 1 <= patchSize && patchSize * patchSize <= batchSize ==>
      MakeBatcher(patchSize, batchSize, 1) == Ok(Batcher(patchSize, batchSize))
  {
  }

  /** What the constructor settles before loading: the sizing, the batching
      method and the split. */
  datatype LoaderSetup = LoaderSetup(batcher: Batcher, batching: BatchingMethod, split: DataSplit)

  /** The constructor's checks in source order: the sizing, then the
      batching value, then the split value. */
  function SetUpLoader(patchSize: int, batchSize: int, worldSize: int, batchingName: string, splitName: string)
    : (r: Result<LoaderSetup, ConfigError>)
    ensures r.Ok? <==>
      MakeBatcher(patchSize, batchSize, worldSize).Ok?
      && ParseBatching(batchingName).Some? && ParseSplit(splitName).Some?
    ensures MakeBatcher(patchSize, batchSize, worldSize).Err? ==>
      r == Err(MakeBatcher(patchSize, batchSize, worldSize).error)
    ensures MakeBatcher(patchSize, batchSize, worldSize).Ok? && ParseBatching(batchingName).None? ==>
      r == Err(UnknownBatching(batchingName))
    ensures MakeBatcher(patchSize, batchSize, worldSize).Ok? && ParseBatching(batchingName).Some?
            && ParseSplit(splitName).None? ==>
      r == Err(UnknownSplit(splitName))
    ensures r.Ok? ==>
      && ValidBatcher(r.value.batcher)
      && BatchingName(r.value.batching) == batchingName
      && SplitName(r.value.split) == splitName
  {
    match MakeBatcher(patchSize, batchSize, worldSize)
    case Err(e) => Err(e)
    case Ok(b) =>
      match ParseBatching(batchingName)
      case None => Err(UnknownBatching(batchingName))
      case Some(m) =>
        match ParseSplit(splitName)
        case None => Err(UnknownSplit(splitName))
        case Some(s) =>
          MakeBatcherValid(patchSize, batchSize, worldSize);
          Ok(LoaderSetup(b, m, s))
  }

  /** `batch_size // patch_size**2`: at least one patch, and as many whole
      patches as fit. */
  function NumPatches(b: Batcher): (n: int)
    requires ValidBatcher(b)
    ensures 1 <= n
    ensures n * (b.patchSize * b.patchSize) <= b.batchSize
    ensures b.batchSize < (n + 1) * (b.patchSize * b.patchSize)
  {
    var area := b.patchSize * b.patchSize;
    var n := FloorDiv(b.batchSize, area);
    assert area * n <= b.batchSize < area * n + area;
    assert 1 <= n by {
      if n < 1 { MulAtMostZero(area, n); }
    }
    n
  }

  lemma MulAtMostZero(a: int, n: int)
    requires 0 < a && n < 1
    ensures a * n <= 0
  {
  }

  // ---------------------------------------------------------------------------
  // _next_train

  datatype Ray = Ray(x: int, y: int, cam: int)

  datatype SampleError = EmptyDrawRange  // `randint(low, high)` with `high <= low`

  /** The random draws of one training batch: a patch origin per patch and a
      camera per patch (all images) or one camera (single image). */
  datatype TrainDraws = TrainDraws(xs: seq<int>, ys: seq<int>, cams: seq<int>)

  /** The draws are what `randint` can return: origins in
      `[0, width - patch]` and `[0, height - patch]`, cameras in
      `[0, n_examples)`, one per patch or a single one. */
  predicate DrawsInRange(b: Batcher, batching: BatchingMethod, width: int, height: int, nExamples: int,
                         d: TrainDraws)
    requires ValidBatcher(b)
  {
    var n := NumPatches(b);
    && |d.xs| == n && |d.ys| == n
    && |d.cams| == (if batching == AllImages then n else 1)
    && (forall p :: 0 <= p < n ==> 0 <= d.xs[p] <= width - b.patchSize)
    && (forall p :: 0 <= p < n ==> 0 <= d.ys[p] <= height - b.patchSize)
    && (forall c :: 0 <= c < |d.cams| ==> 0 <= d.cams[c] < nExamples)
  }

  /** One patch: rows `i` and columns `j` in `[0, patch)`, the offsets the
      pixel grid of a `patch × patch` image gives, added to the origin. */
  function Patch(origin: (int, int), patch: nat, cam: int): (rays: seq<seq<Ray>>)
    ensures |rays| == patch
    ensures forall i :: 0 <= i < patch ==> |rays[i]| == patch
    ensures forall i, j :: 0 <= i < patch && 0 <= j < patch ==>
      rays[i][j] == Ray(origin.0 + j, origin.1 + i, cam)
  {
    seq(patch, i requires 0 <= i < patch =>
      seq(patch, j requires 0 <= j < patch => Ray(origin.0 + j, origin.1 + i, cam)))
  }

  /** Some position of the patch holds pixel `(x, y)` of camera `cam`. */
  ghost predicate PatchHolds(rays: seq<seq<Ray>>, x: int, y: int, cam: int)
  {
    exists i, j :: 0 <= i < |rays| && 0 <= j < |rays[i]| && rays[i][j] == Ray(x, y, cam)
  }

  /** A patch is the `patch × patch` square of pixels at its origin, each
      pixel exactly once: every ray lies in the square on camera `cam`,
      every pixel of the square is some ray, and distinct positions hold
      distinct pixels. */
  lemma PatchCoversSquare(origin: (int, int), patch: nat, cam: int)
    ensures var rays := Patch(origin, patch, cam);
      forall i, j :: 0 <= i < patch && 0 <= j < patch ==>
        && origin.0 <= rays[i][j].x < origin.0 + patch
        && origin.1 <= rays[i][j].y < origin.1 + patch
        && rays[i][j].cam == cam
    ensures forall x, y :: origin.0 <= x < origin.0 + patch && origin.1 <= y < origin.1 + patch ==>
      PatchHolds(Patch(origin, patch, cam), x, y, cam)
    ensures var rays := Patch(origin, patch, cam);
      forall i, j, i', j' ::
        0 <= i < patch && 0 <= j < patch && 0 <= i' < patch && 0 <= j' < patch && rays[i][j] == rays[i'][j']
        ==> i == i' && j == j'
  {
    var rays := Patch(origin, patch, cam);
    forall x, y | origin.0 <= x < origin.0 + patch && origin.1 <= y < origin.1 + patch
      ensures PatchHolds(rays, x, y, cam)
    {
      var i, j := y - origin.1, x - origin.0;
      assert rays[i][j] == Ray(x, y, cam);
    }
  }

  /** `_next_train`: the rays of one training batch, patch by patch, or the
      `randint` error when the image is narrower or lower than a patch or
      there are no cameras. */
  function NextTrain(b: Batcher, batching: BatchingMethod, width: int, height: int, nExamples: int,
                     d: TrainDraws): (r: Result<seq<seq<seq<Ray>>>, SampleError>)
    requires ValidBatcher(b)
    requires width >= b.patchSize && height >= b.patchSize && nExamples > 0 ==>
      DrawsInRange(b, batching, width, height, nExamples, d)
    ensures r.Err? <==> width < b.patchSize || height < b.patchSize || nExamples <= 0
    ensures r.Ok? ==> |r.value| == NumPatches(b)
    ensures r.Ok? ==> forall p :: 0 <= p < |r.value| ==>
      r.value[p] == Patch((d.xs[p], d.ys[p]), b.patchSize, if batching == AllImages then d.cams[p] else d.cams[0])
  {
    var upper := b.patchSize - 1;
    if width - upper <= 0 || height - upper <= 0 || nExamples <= 0 then Err(EmptyDrawRange)
    else
      var n := NumPatches(b);
      Ok(seq(n, p requires 0 <= p < n =>
        Patch((d.xs[p], d.ys[p]), b.patchSize, if batching == AllImages then d.cams[p] else d.cams[0])))
  }

  /** Every ray of a training batch lies inside the image and names an
      existing camera, and the batch holds at most `batch_size` rays. */
  lemma {:induction false} NextTrainInImage(b: Batcher, batching: BatchingMethod, width: int, height: int,
                                            nExamples: int, d: TrainDraws)
    requires ValidBatcher(b)
    requires width >= b.patchSize && height >= b.patchSize && nExamples > 0
    requires DrawsInRange(b, batching, width, height, nExamples, d)
    ensures var r := NextTrain(b, batching, width, height, nExamples, d);
      && r.Ok?
      && (forall p, i, j :: 0 <= p < |r.value| && 0 <= i < b.patchSize && 0 <= j < b.patchSize ==>
            var ray := r.value[p][i][j];
            0 <= ray.x < width && 0 <= ray.y < height && 0 <= ray.cam < nExamples)
      && |r.value| * (b.patchSize * b.patchSize) <= b.batchSize
  {
    var r := NextTrain(b, batching, width, height, nExamples, d);
    forall p, i, j | 0 <= p < |r.value| && 0 <= i < b.patchSize && 0 <= j < b.patchSize
      ensures 0 <= r.value[p][i][j].x < width && 0 <= r.value[p][i][j].y < height
      ensures 0 <= r.value[p][i][j].cam < nExamples
    {
      var cam := if batching == AllImages then d.cams[p] else d.cams[0];
      assert r.value[p] == Patch((d.xs[p], d.ys[p]), b.patchSize, cam);
      assert r.value[p][i][j] == Ray(d.xs[p] + j, d.ys[p] + i, cam);
    }
  }

  // ---------------------------------------------------------------------------
  // The modulo split

  /** numpy's `i % hold == 0` on a non-negative index: `hold` divides `i`.
      With `hold` zero numpy yields 0 for the remainder, so every index
      counts as held out. */
  predicate HeldOut(i: nat, hold: int)
  {
    hold == 0 || i % hold == 0
  }

  function Range(n: nat): (r: seq<nat>)
    ensures |r| == n
    ensures forall k :: 0 <= k < n ==> r[k] == k
  {
    seq(n, k requires 0 <= k < n => k)
  }

  predicate StrictlyIncreasing(s: seq<nat>)
  {
    forall a, c :: 0 <= a < c < |s| ==> s[a] < s[c]
  }

  /** Which indices a split keeps: the held-out ones, the others, or all of
      them (a use-all flag). */
  datatype Selector = HeldOutOnly | OthersOnly | Everything

  predicate Wanted(i: nat, hold: int, sel: Selector)
  {
    match sel
    case HeldOutOnly => HeldOut(i, hold)
    case OthersOnly => !HeldOut(i, hold)
    case Everything => true
  }

  /** `all_indices[mask]`: the indices below `n` the selector keeps, in
      order. */
  function Select(n: nat, hold: int, sel: Selector): (r: seq<nat>)
    ensures forall i: nat :: i in r <==> i < n && Wanted(i, hold, sel)
    ensures StrictlyIncreasing(r)
    ensures |r| <= n
  {
    if n == 0 then []
    else
      var prefix := Select(n - 1, hold, sel);
      if Wanted(n - 1, hold, sel) then
        assert forall k :: 0 <= k < |prefix| ==> prefix[k] in prefix;
        prefix + [n - 1]
      else prefix
  }

  function TestIndices(n: nat, hold: int): seq<nat>
  {
    Select(n, hold, HeldOutOnly)
  }

  function TrainIndices(n: nat, hold: int): seq<nat>
  {
    Select(n, hold, OthersOnly)
  }

  /** The two halves of the split are disjoint, together cover every index,
      and are each in increasing order. */
  lemma SplitPartitions(n: nat, hold: int)
    ensures forall i: nat :: i < n ==> (i in TrainIndices(n, hold) <==> i !in TestIndices(n, hold))
    ensures forall i: nat :: i in TrainIndices(n, hold) || i in TestIndices(n, hold) ==> i < n
    ensures StrictlyIncreasing(TrainIndices(n, hold)) && StrictlyIncreasing(TestIndices(n, hold))
    ensures |TrainIndices(n, hold)| + |TestIndices(n, hold)| == n
  {
    SplitSizes(n, hold);
  }

  lemma {:induction false} SplitSizes(n: nat, hold: int)
    ensures |Select(n, hold, HeldOutOnly)| + |Select(n, hold, OthersOnly)| == n
  {
    if n > 0 {
      SplitSizes(n - 1, hold);
    }
  }

  /** The LLFF loader's selection: the held-out indices for test, the rest
      for training, unless a use-all flag hands that side every index. */
  function LlffIndices(n: nat, hold: int, useAllTrain: bool, useAllTest: bool, split: DataSplit)
    : (r: seq<nat>)
    ensures StrictlyIncreasing(r)
    ensures forall i: nat :: i in r <==>
      (i < n && (if split == Train then useAllTrain || !HeldOut(i, hold) else useAllTest || HeldOut(i, hold)))
  {
    match split
    case Train => if useAllTrain then Select(n, hold, Everything) else TrainIndices(n, hold)
    case Test => if useAllTest then Select(n, hold, Everything) else TestIndices(n, hold)
  }

  /** The use-all flags select every index, in order. */
  lemma UseAllSelectsRange(n: nat, hold: int)
    ensures Select(n, hold, Everything) == Range(n)
  {
    var s := Select(n, hold, Everything);
    EverythingSize(n, hold);
    forall k | 0 <= k < |s|
      ensures s[k] < n
    {
      assert s[k] in s;
    }
    IncreasingCoverIsRange(s, n);
  }

  lemma {:induction false} EverythingSize(n: nat, hold: int)
    ensures |Select(n, hold, Everything)| == n
  {
    if n > 0 {
      EverythingSize(n - 1, hold);
    }
  }

  /** An increasing sequence of `n` indices below `n` is `0, 1, …, n - 1`. */
  lemma IncreasingCoverIsRange(s: seq<nat>, n: nat)
    requires |s| == n && StrictlyIncreasing(s)
    requires forall k :: 0 <= k < |s| ==> s[k] < n
    ensures s == Range(n)
  {
    forall k | 0 <= k < n
      ensures s[k] == k
    {
      IncreasingLowerBound(s, k);
      IncreasingUpperBound(s, k, n);
    }
  }

  lemma {:induction false} IncreasingLowerBound(s: seq<nat>, k: nat)
    requires StrictlyIncreasing(s) && k < |s|
    ensures k <= s[k]
  {
    if k > 0 {
      IncreasingLowerBound(s, k - 1);
    }
  }

  lemma {:induction false} IncreasingUpperBound(s: seq<nat>, k: nat, n: nat)
    requires StrictlyIncreasing(s) && k < |s| == n
    requires forall m :: 0 <= m < |s| ==> s[m] < n
    ensures s[k] <= k
    decreases n - k
  {
    if k < n - 1 {
      IncreasingUpperBound(s, k + 1, n);
    }
  }

  /** The Tanks-and-Temples loader: with `render_path` on the test split the
      cameras come from the generated path and no indices are selected;
      otherwise the same modulo split on `llffhold`. */
  function FvsIndices(n: nat, llffhold: int, renderPath: bool, split: DataSplit): (r: Option<seq<nat>>)
    ensures r.None? <==> renderPath && split == Test
    ensures r.Some? ==> r.value == LlffIndices(n, llffhold, false, false, split)
  {
    if renderPath && split == Test then None
    else if split == Test then Some(TestIndices(n, llffhold))
    else Some(TrainIndices(n, llffhold))
  }

  /** The DTU loader: a `render_path` configuration is refused before any
      image is read; otherwise the modulo split on `dtuhold`. */
  function DtuIndices(n: nat, dtuhold: int, renderPath: bool, split: DataSplit)
    : (r: Result<seq<nat>, ConfigError>)
    ensures r.Err? <==> renderPath
    ensures r.Err? ==> r.error == DtuRenderPath
    ensures r.Ok? ==> r.value == LlffIndices(n, dtuhold, false, false, split)
  {
    if renderPath then Err(DtuRenderPath)
    else if split == Test then Ok(TestIndices(n, dtuhold))
    else Ok(TrainIndices(n, dtuhold))
  }

  /** One more index: the selection grows by that index exactly when the
      selector keeps it. */
  lemma SelectStep(n: nat, hold: int, sel: Selector)
    ensures Select(n + 1, hold, sel) ==
      if Wanted(n, hold, sel) then Select(n, hold, sel) + [n] else Select(n, hold, sel)
  {
  }

  lemma SelectLengthStep(n: nat, hold: int, sel: Selector)
    ensures |Select(n + 1, hold, sel)| == |Select(n, hold, sel)| + if Wanted(n, hold, sel) then 1 else 0
  {
    SelectStep(n, hold, sel);
  }

  /** In a ten-image scene with `llffhold = 8`, images 0 and 8 are held out
      for testing: every eighth image starting at the first. */
  lemma LlffHoldEightTest()
    ensures TestIndices(10, 8) == [0, 8]
  {
    HeldOutBeforeEight(8);
    SelectStep(8, 8, HeldOutOnly);
    SelectStep(9, 8, HeldOutOnly);
  }

  lemma {:induction false} HeldOutBeforeEight(k: nat)
    requires 1 <= k <= 8
    ensures Select(k, 8, HeldOutOnly) == [0]
  {
    if k == 1 {
      SelectStep(0, 8, HeldOutOnly);
    } else {
      HeldOutBeforeEight(k - 1);
      assert !Wanted(k - 1, 8, HeldOutOnly) by { NotMultipleOfEight(k - 1); }
      SelectStep(k - 1, 8, HeldOutOnly);
    }
  }

  lemma RangeFromOne()
    ensures Range(8)[1..] == [1, 2, 3, 4, 5, 6, 7]
  {
  }

  lemma NotMultipleOfEight(i: nat)
    requires 1 <= i < 8
    ensures !HeldOut(i, 8)
  {
  }

  /** The other eight images of that scene form the training split. */
  lemma LlffHoldEightTrain()
    ensures TrainIndices(10, 8) == [1, 2, 3, 4, 5, 6, 7, 9]
  {
    KeptBeforeEight(8);
    RangeFromOne();
    assert !Wanted(8, 8, OthersOnly) && Wanted(9, 8, OthersOnly);
    SelectStep(8, 8, OthersOnly);
    SelectStep(9, 8, OthersOnly);
  }

  lemma {:induction false} KeptBeforeEight(k: nat)
    requires 1 <= k <= 8
    ensures Select(k, 8, OthersOnly) == Range(k)[1..]
  {
    if k == 1 {
      SelectStep(0, 8, OthersOnly);
    } else {
      KeptBeforeEight(k - 1);
      assert Wanted(k - 1, 8, OthersOnly) by { NotMultipleOfEight(k - 1); }
      SelectStep(k - 1, 8, OthersOnly);
      assert Range(k)[1..] == Range(k - 1)[1..] + [k - 1];
    }
  }

  // ---------------------------------------------------------------------------
  // __len__

  /** `__len__`: a nominal 1000 batches per epoch when training, one item per
      camera otherwise. */
  function Len(split: DataSplit, nExamples: nat): nat
  {
    if split == Train then 1000 else nExamples
  }

  /** Without `render_path`, the test loader of a split dataset visits each
      held-out image exactly once, so its length is the number of multiples
      of `hold` below `n` (every image when `hold` is zero); training reports
      1000 whatever the split. */
  lemma TestLenIsHeldOutCount(n: nat, hold: int)
    ensures 0 < hold ==> Len(Test, |TestIndices(n, hold)|) == (n + hold - 1) / hold
    ensures hold == 0 ==> Len(Test, |TestIndices(n, hold)|) == n
    ensures Len(Train, |TrainIndices(n, hold)|) == 1000
  {
    if 0 <= hold {
      HeldOutCount(n, hold);
    }
  }

  /** How many indices below `n` the held-out mask keeps: the multiples of
      `h` (a ceiling quotient), or all of them for `h` zero. */
  lemma HeldOutCount(n: nat, h: nat)
    ensures |Select(n, h, HeldOutOnly)| == if h == 0 then n else (n + h - 1) / h
  {
    if h == 0 {
      HeldOutAllCount(n);
    } else {
      MultiplesCount(n, h);
    }
  }

  lemma {:induction false} HeldOutAllCount(n: nat)
    ensures |Select(n, 0, HeldOutOnly)| == n
  {
    if n > 0 {
      HeldOutAllCount(n - 1);
    }
  }

  /** The ceiling of `n / h`. */
  function CeilDiv(n: nat, h: nat): nat
    requires 0 < h
  {
    (n + h - 1) / h
  }

  lemma {:induction false} MultiplesCount(n: nat, h: nat)
    requires 0 < h
    ensures |Select(n, h, HeldOutOnly)| == CeilDiv(n, h)
  {
    if n > 0 {
      MultiplesCount(n - 1, h);
      SelectLengthStep(n - 1, h, HeldOutOnly);
      CeilingStep(n - 1, h);
    }
  }

  /** Counting one more index adds one to the ceiling quotient exactly when
      the index is a multiple of `h`. */
  lemma CeilingStep(m: nat, h: nat)
    requires 0 < h
    ensures CeilDiv(m + 1, h) == CeilDiv(m, h) + (if HeldOut(m, h) then 1 else 0)
  {
    var q, r := m / h, m % h;
    DivUnique(m + h, h, q + 1, r);
    if r == 0 {
      DivUnique(m + h - 1, h, q, h - 1);
    } else {
      DivUnique(m + h - 1, h, q + 1, r - 1);
    }
  }

  lemma DivUnique(a: int, h: int, q: int, r: int)
    requires 0 < h && 0 <= r < h && a == q * h + r
    ensures a / h == q
  {
    var q', r' := a / h, a % h;
    assert a == q' * h + r';
    var d := q - q';
    Distribute(q, q', h);
    assert d * h == r' - r;
    if 0 < d {
      MulAtLeast(d, h);
    } else if d < 0 {
      MulAtLeast(-d, h);
    }
  }

  lemma Distribute(q: int, q': int, h: int)
    ensures (q - q') * h == q * h - q' * h
  {
  }

  lemma MulAtLeast(k: int, h: int)
    requires 1 <= k && 0 < h
    ensures h <= k * h
  {
  }

  // ---------------------------------------------------------------------------
  // Zero-shot azimuths

  const TwoPi: real := 2.0 * Catalog.Pi

  /** The two in-place corrections of the drawn phis: one turn up if
      negative, then one turn down if past a full turn. */
  function WrapPhi(phi: real): real
  {
    var up := if phi < 0.0 then phi + TwoPi else phi;
    if up > TwoPi then up - TwoPi else up
  }

  /** Within one turn of `[0, 2π]` on either side the wrap lands in
      `[0, 2π]` and moves the angle by a whole number of turns. */
  lemma WrapPhiRange(phi: real)
    requires -TwoPi <= phi <= 2.0 * TwoPi
    ensures 0.0 <= WrapPhi(phi) <= TwoPi
    ensures WrapPhi(phi) - phi in {-TwoPi, 0.0, TwoPi}
  {
  }

  /** `np.rad2deg`. */
  function Degrees(rad: real): real
  {
    rad * 180.0 / Catalog.Pi
  }

  /** The azimuth correction: above 180 degrees, one turn down. */
  function NormalizeAzimuth(deg: real): real
  {
    if deg > 180.0 then deg - 360.0 else deg
  }

  lemma NormalizeAzimuthRange(deg: real)
    requires 0.0 <= deg <= 360.0
    ensures -180.0 < NormalizeAzimuth(deg) <= 180.0
    ensures NormalizeAzimuth(deg) - deg in {0.0, -360.0}
  {
  }

  /** The phi `_rand_poses` draws from `u` in `[0, 1)` over `[lo, hi]`
      (radians). */
  function DrawPhi(u: real, lo: real, hi: real): real
  {
    u * (hi - lo) + lo
  }

  /** A training camera's azimuth: drawn, wrapped, converted to degrees and
      corrected. For any phi range within one turn of `[0, 2π]` it lies in
      `(-180, 180]`. */
  function TrainAzimuth(u: real, lo: real, hi: real): real
  {
    NormalizeAzimuth(Degrees(WrapPhi(DrawPhi(u, lo, hi))))
  }

  lemma TrainAzimuthRange(u: real, lo: real, hi: real)
    requires 0.0 <= u < 1.0 && lo <= hi
    requires -TwoPi <= lo && hi <= 2.0 * TwoPi
    ensures -180.0 < TrainAzimuth(u, lo, hi) <= 180.0
  {
    var phi := DrawPhi(u, lo, hi);
    MulNonNegative(u, hi - lo);
    MulMonotone(u, 1.0, hi - lo);
    assert lo <= phi <= hi;
    WrapPhiRange(phi);
    DegreesRange(WrapPhi(phi));
    NormalizeAzimuthRange(Degrees(WrapPhi(phi)));
  }

  lemma DegreesRange(rad: real)
    requires 0.0 <= rad <= TwoPi
    ensures 0.0 <= Degrees(rad) <= 360.0
  {
  }

  /** A test camera's azimuth: the `k`-th of 100 evenly spaced phis over
      `[0, 2π]`, then the same conversion and correction. */
  function TestAzimuth(k: nat): real
    requires k < 100
  {
    NormalizeAzimuth(Degrees((k as real) * (TwoPi / 99.0)))
  }

  lemma TestAzimuthRange(k: nat)
    requires k < 100
    ensures -180.0 < TestAzimuth(k) <= 180.0
    ensures k == 0 ==> TestAzimuth(k) == 0.0
  {
    DegreesRange((k as real) * (TwoPi / 99.0));
    NormalizeAzimuthRange(Degrees((k as real) * (TwoPi / 99.0)));
  }

  /** The zero-shot image side: `800 // factor`. */
  function ZeroshotSide(factor: int): (r: Result<int, ConfigError>)
    ensures r.Err? <==> factor == 0
    ensures r.Err? ==> r.error == ZeroFactor
    ensures 0 < factor ==> r.Ok? && factor * r.value <= 800 < factor * r.value + factor
  {
    if factor == 0 then Err(ZeroFactor) else Ok(FloorDiv(800, factor))
  }
}
