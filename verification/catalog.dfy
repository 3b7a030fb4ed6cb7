/** The stroke primitive catalogue of `strokelib/strokes.py`: the base signed
    distance functions, the eighteen shape families built on them, the four
    colour models, the packed shape id, and the lookup that assembles a
    stroke's flat parameter-range list. */
module Catalog {
  import opened Results

  /** The double nearest to π, the value of `torch.pi` and `math.pi`. */
  const Pi: real := 3.141592653589793

  /** The capped torus's angle bound `2 * torch.acos(torch.tensor(0.0))`: a
      float32 computation, so the float32 nearest to π, written out as the
      double it widens to. */
  const TorusAngleMax: real := 3.1415927410125732

  // ---------------------------------------------------------------------------
  // Base signed distance functions

  datatype BaseSdf =
    | UnitSphere | UnitCube | UnitRoundCube | UnitCappedTorus | UnitCapsule | UnitLine
    | UnitTriprism | UnitOctahedron | UnitTetrahedron
    | QuadraticBezierSdf | CubicBezierSdf | CatmullRomSdf

  /** Position of a base SDF in the backend's dispatch table. */
  function BaseSdfIndex(b: BaseSdf): (i: bv32)
    ensures i < 12
  {
    match b
    case UnitSphere => 0
    case UnitCube => 1
    case UnitRoundCube => 2
    case UnitCappedTorus => 3
    case UnitCapsule => 4
    case UnitLine => 5
    case UnitTriprism => 6
    case UnitOctahedron => 7
    case UnitTetrahedron => 8
    case QuadraticBezierSdf => 9
    case CubicBezierSdf => 10
    case CatmullRomSdf => 11
  }

  /** The inverse of `BaseSdfIndex`: which base SDF sits at a dispatch index. */
  function BaseSdfAt(i: bv32): (b: Option<BaseSdf>)
    ensures b.Some? <==> i < 12
    ensures b.Some? ==> BaseSdfIndex(b.value) == i
  {
    if i == 0 then Some(UnitSphere)
    else if i == 1 then Some(UnitCube)
    else if i == 2 then Some(UnitRoundCube)
    else if i == 3 then Some(UnitCappedTorus)
    else if i == 4 then Some(UnitCapsule)
    else if i == 5 then Some(UnitLine)
    else if i == 6 then Some(UnitTriprism)
    else if i == 7 then Some(UnitOctahedron)
    else if i == 8 then Some(UnitTetrahedron)
    else if i == 9 then Some(QuadraticBezierSdf)
    else if i == 10 then Some(CubicBezierSdf)
    else if i == 11 then Some(CatmullRomSdf)
    else None
  }

  lemma BaseSdfAtIndex(b: BaseSdf)
    ensures BaseSdfAt(BaseSdfIndex(b)) == Some(b)
  {
    match b
    case UnitSphere =>
    case UnitCube =>
    case UnitRoundCube =>
    case UnitCappedTorus =>
    case UnitCapsule =>
    case UnitLine =>
    case UnitTriprism =>
    case UnitOctahedron =>
    case UnitTetrahedron =>
    case QuadraticBezierSdf =>
    case CubicBezierSdf =>
    case CatmullRomSdf =>
  }

  // ---------------------------------------------------------------------------
  // Parameter ranges

  /** One end of a parameter range; `None` in the source is `Unbounded`. */
  datatype Bound = Unbounded | Finite(v: real)

  datatype Range = Range(lo: Bound, hi: Bound)

  predicate InRange(x: real, r: Range)
  {
    (r.lo.Finite? ==> r.lo.v <= x) && (r.hi.Finite? ==> x <= r.hi.v)
  }

  function Closed(lo: real, hi: real): Range { Range(Finite(lo), Finite(hi)) }

  function AtLeast(lo: real): Range { Range(Finite(lo), Unbounded) }

  function Repeat(r: Range, n: nat): (rs: seq<Range>)
    ensures |rs| == n
    ensures forall i :: 0 <= i < n ==> rs[i] == r
  {
    seq(n, _ => r)
  }

  // ---------------------------------------------------------------------------
  // Shape families

  /** The initial-value closure a family carries for its own base parameters. */
  datatype BaseSampler =
    | NoBaseSampler
    | Roundness              // 0.8 * u
    | TorusAngles            // u0, u1
    | CapsuleLength          // u + 0.25
    | LineParams             // u0 + 0.25, u1 - 0.5
    | PrismHeight            // u
    | Spline(controlPoints: nat, radii: nat)

  datatype ShapeFamily = ShapeFamily(
    base: BaseSdf,
    baseRanges: seq<Range>,
    sampler: BaseSampler,
    translation: bool,
    rotation: bool,
    singlescale: bool,
    multiscale: bool)

  datatype ShapeType =
    | Sphere | Ellipsoid | AACube | Cube | AABB | OBB | RoundCube | RoundBox
    | CappedTorus | Capsule | SCapsule | Line | Triprism | Octahedron | Tetrahedron
    | QuadraticBezier | CubicBezier | CatmullRom

  const AllShapes: set<ShapeType> :=
    {Sphere, Ellipsoid, AACube, Cube, AABB, OBB, RoundCube, RoundBox,
     CappedTorus, Capsule, SCapsule, Line, Triprism, Octahedron, Tetrahedron,
     QuadraticBezier, CubicBezier, CatmullRom}

  lemma AllShapesComplete()
    ensures forall t: ShapeType :: t in AllShapes
  {
    forall t: ShapeType
      ensures t in AllShapes
    {
      match t
      case Sphere =>
      case Ellipsoid =>
      case AACube =>
      case Cube =>
      case AABB =>
      case OBB =>
      case RoundCube =>
      case RoundBox =>
      case CappedTorus =>
      case Capsule =>
      case SCapsule =>
      case Line =>
      case Triprism =>
      case Octahedron =>
      case Tetrahedron =>
      case QuadraticBezier =>
      case CubicBezier =>
      case CatmullRom =>
    }
  }

  /** The control-point ranges of a spline: three (-1, 1) coordinates per point,
      followed by one (0.001, 0.2) range per radius. */
  function SplineRanges(controlPoints: nat, radii: nat): seq<Range>
  {
    Repeat(Closed(-1.0, 1.0), 3 * controlPoints) + Repeat(Closed(0.001, 0.2), radii)
  }

  /** The catalogue entry of each shape type, as freshly constructed. */
  function Family(t: ShapeType): ShapeFamily
  {
    match t
    case Sphere => ShapeFamily(UnitSphere, [], NoBaseSampler, true, false, true, false)
    case Ellipsoid => ShapeFamily(UnitSphere, [], NoBaseSampler, true, true, false, true)
    case AACube => ShapeFamily(UnitCube, [], NoBaseSampler, true, false, true, false)
    case Cube => ShapeFamily(UnitCube, [], NoBaseSampler, true, true, true, false)
    case AABB => ShapeFamily(UnitCube, [], NoBaseSampler, true, false, false, true)
    case OBB => ShapeFamily(UnitCube, [], NoBaseSampler, true, true, false, true)
    case RoundCube => ShapeFamily(UnitRoundCube, [Closed(0.0, 1.0)], Roundness, true, true, true, false)
    case RoundBox => ShapeFamily(UnitRoundCube, [Closed(0.0, 1.0)], Roundness, true, true, false, true)
    case CappedTorus =>
      ShapeFamily(UnitCappedTorus, [Closed(0.0, TorusAngleMax), AtLeast(0.0)], TorusAngles, true, true, true, false)
    case Capsule => ShapeFamily(UnitCapsule, [AtLeast(0.25)], CapsuleLength, true, true, true, false)
    case SCapsule => ShapeFamily(UnitCapsule, [AtLeast(0.25)], CapsuleLength, true, true, false, true)
    case Line =>
      ShapeFamily(UnitLine, [AtLeast(0.25), Closed(-0.8, 0.8)], LineParams, true, true, true, false)
    case Triprism => ShapeFamily(UnitTriprism, [AtLeast(0.0)], PrismHeight, true, true, true, false)
    case Octahedron => ShapeFamily(UnitOctahedron, [], NoBaseSampler, true, true, true, false)
    case Tetrahedron => ShapeFamily(UnitTetrahedron, [], NoBaseSampler, true, true, true, false)
    case QuadraticBezier =>
      ShapeFamily(QuadraticBezierSdf, SplineRanges(3, 2), Spline(3, 2), false, false, false, false)
    case CubicBezier =>
      ShapeFamily(CubicBezierSdf, SplineRanges(4, 2), Spline(4, 2), false, false, false, false)
    case CatmullRom =>
      ShapeFamily(CatmullRomSdf, SplineRanges(4, 2), Spline(4, 2), false, false, false, false)
  }

  /** No catalogue entry asks for both a single and a per-axis scale. */
  lemma FamilyScaleExclusive(t: ShapeType)
    ensures !(Family(t).singlescale && Family(t).multiscale)
  {
    match t
    case Sphere =>
    case Ellipsoid =>
    case AACube =>
    case Cube =>
    case AABB =>
    case OBB =>
    case RoundCube =>
    case RoundBox =>
    case CappedTorus =>
    case Capsule =>
    case SCapsule =>
    case Line =>
    case Triprism =>
    case Octahedron =>
    case Tetrahedron =>
    case QuadraticBezier =>
    case CubicBezier =>
    case CatmullRom =>
  }

  function ShapeName(t: ShapeType): string
  {
    match t
    case Sphere => "sphere"
    case Ellipsoid => "ellipsoid"
    case AACube => "aacube"
    case Cube => "cube"
    case AABB => "aabb"
    case OBB => "obb"
    case RoundCube => "roundcube"
    case RoundBox => "roundbox"
    case CappedTorus => "cappedtorus"
    case Capsule => "capsule"
    case SCapsule => "scapsule"
    case Line => "line"
    case Triprism => "triprism"
    case Octahedron => "octahedron"
    case Tetrahedron => "tetrahedron"
    case QuadraticBezier => "quadratic_bezier"
    case CubicBezier => "cubic_bezier"
    case CatmullRom => "catmull_rom"
  }

  /** Dictionary lookup of a shape name; `None` is the source's `KeyError`. */
  function ParseShape(name: string): (t: Option<ShapeType>)
    ensures t.Some? ==> ShapeName(t.value) == name
  {
    if name == "sphere" then Some(Sphere)
    else if name == "ellipsoid" then Some(Ellipsoid)
    else if name == "aacube" then Some(AACube)
    else if name == "cube" then Some(Cube)
    else if name == "aabb" then Some(AABB)
    else if name == "obb" then Some(OBB)
    else if name == "roundcube" then Some(RoundCube)
    else if name == "roundbox" then Some(RoundBox)
    else if name == "cappedtorus" then Some(CappedTorus)
    else if name == "capsule" then Some(Capsule)
    else if name == "scapsule" then Some(SCapsule)
    else if name == "line" then Some(Line)
    else if name == "triprism" then Some(Triprism)
    else if name == "octahedron" then Some(Octahedron)
    else if name == "tetrahedron" then Some(Tetrahedron)
    else if name == "quadratic_bezier" then Some(QuadraticBezier)
    else if name == "cubic_bezier" then Some(CubicBezier)
    else if name == "catmull_rom" then Some(CatmullRom)
    else None
  }

  /** Every catalogue name finds its own entry. */
  lemma ParseShapeName(t: ShapeType)
    ensures ParseShape(ShapeName(t)) == Some(t)
  {
    match t
    case Sphere =>
    case Ellipsoid =>
    case AACube =>
    case Cube =>
    case AABB =>
    case OBB =>
    case RoundCube =>
    case RoundBox =>
    case CappedTorus =>
    case Capsule =>
    case SCapsule =>
    case Line =>
    case Triprism =>
    case Octahedron =>
    case Tetrahedron =>
    case QuadraticBezier =>
    case CubicBezier =>
    case CatmullRom =>
  }

  // ---------------------------------------------------------------------------
  // Colour models

  datatype ColorType = ConstantRgb | GradientRgb | ConstantSh2 | ConstantSh3

  function ColorName(c: ColorType): string
  {
    match c
    case ConstantRgb => "constant_rgb"
    case GradientRgb => "gradient_rgb"
    case ConstantSh2 => "constant_sh2"
    case ConstantSh3 => "constant_sh3"
  }

  function ParseColor(name: string): (c: Option<ColorType>)
    ensures c.Some? ==> ColorName(c.value) == name
  {
    if name == "constant_rgb" then Some(ConstantRgb)
    else if name == "gradient_rgb" then Some(GradientRgb)
    else if name == "constant_sh2" then Some(ConstantSh2)
    else if name == "constant_sh3" then Some(ConstantSh3)
    else None
  }

  lemma ParseColorName(c: ColorType)
    ensures ParseColor(ColorName(c)) == Some(c)
  {
  }

  /** The backend's colour-function id. */
  function ColorId(c: ColorType): (id: nat)
    ensures id < 4
  {
    match c
    case ConstantRgb => 0
    case GradientRgb => 1
    case ConstantSh2 => 2
    case ConstantSh3 => 3
  }

  /** Number of output colour channels per colour id (`_color_dim`): every
      colour model renders RGB. */
  const ColorChannelsById: seq<nat> := [3, 3, 3, 3]

  function ColorChannels(c: ColorType): (n: nat)
    ensures n == 3
  {
    ColorChannelsById[ColorId(c)]
  }

  function ColorRanges(c: ColorType): seq<Range>
  {
    match c
    case ConstantRgb => Repeat(Closed(0.0, 1.0), 3)
    case GradientRgb => Repeat(Closed(-1.0, 1.0), 6) + Repeat(Closed(0.0, 1.0), 6)
    case ConstantSh2 => Repeat(Range(Unbounded, Unbounded), 12)
    case ConstantSh3 => Repeat(Range(Unbounded, Unbounded), 27)
  }

  // ---------------------------------------------------------------------------
  // Packed shape id

  /** Packs a base SDF and the four capability bits into one id: the base
      index sits above bit 4, and bits 0..3 are translation, rotation,
      single scale and per-axis scale. */
  function MakeSdfId(base: BaseSdf, translation: bool, rotation: bool,
                     singlescale: bool, multiscale: bool): (id: bv32)
    ensures id >> 4 == BaseSdfIndex(base)
    ensures (id & 1 != 0) == translation
    ensures (id & 2 != 0) == rotation
    ensures (id & 4 != 0) == singlescale
    ensures (id & 8 != 0) == multiscale
    ensures id < 0xC0
  {
    var id0 := BaseSdfIndex(base) << 4;
    var id1 := if translation then id0 | 1 else id0;
    var id2 := if rotation then id1 | 2 else id1;
    var id3 := if singlescale then id2 | 4 else id2;
    if multiscale then id3 | 8 else id3
  }

  datatype SdfIdFields = SdfIdFields(
    base: BaseSdf, translation: bool, rotation: bool, singlescale: bool, multiscale: bool)

  /** What the backend reads back out of a shape id; `None` when the base index
      names no base SDF. */
  function DecodeSdfId(id: bv32): Option<SdfIdFields>
  {
    match BaseSdfAt(id >> 4)
    case None => None
    case Some(b) =>
      Some(SdfIdFields(b, id & 1 != 0, id & 2 != 0, id & 4 != 0, id & 8 != 0))
  }

  function MakeSdfIdOf(f: SdfIdFields): bv32
  {
    MakeSdfId(f.base, f.translation, f.rotation, f.singlescale, f.multiscale)
  }

  /** Decoding a packed id recovers exactly what was packed. */
  lemma DecodeMakeSdfId(f: SdfIdFields)
    ensures DecodeSdfId(MakeSdfIdOf(f)) == Some(f)
  {
    var id := MakeSdfIdOf(f);
    BaseSdfAtIndex(f.base);
  }

  /** Conversely, every id that decodes is the packing of what it decodes to, so
      the id and the five fields determine each other. */
  lemma MakeDecodedSdfId(id: bv32)
    requires DecodeSdfId(id).Some?
    ensures MakeSdfIdOf(DecodeSdfId(id).value) == id
  {
    var f := DecodeSdfId(id).value;
    var packed := MakeSdfIdOf(f);
    assert packed >> 4 == id >> 4;
    LowBitsAgree(packed, id);
    BitSplit(packed, id);
  }

  lemma LowBitsAgree(a: bv32, b: bv32)
    requires (a & 1 != 0) == (b & 1 != 0) && (a & 2 != 0) == (b & 2 != 0)
    requires (a & 4 != 0) == (b & 4 != 0) && (a & 8 != 0) == (b & 8 != 0)
    ensures a & 15 == b & 15
  {
  }

  lemma BitSplit(a: bv32, b: bv32)
    requires a >> 4 == b >> 4
    requires a & 15 == b & 15
    ensures a == b
  {
  }

  lemma SdfIdInjective(f: SdfIdFields, g: SdfIdFields)
    requires MakeSdfIdOf(f) == MakeSdfIdOf(g)
    ensures f == g
  {
    DecodeMakeSdfId(f);
    DecodeMakeSdfId(g);
  }

  // ---------------------------------------------------------------------------
  // Stroke lookup

  /** Scale ranges appended by the lookup: one for a single scale, three for a
      per-axis scale; the `elif` lets a single scale win when both are set. */
  function ScaleRanges(singlescale: bool, multiscale: bool): seq<Range>
  {
    if singlescale then [Closed(0.01, 0.5)]
    else if multiscale then Repeat(Closed(0.01, 0.5), 3)
    else []
  }

  function RotationRanges(rotation: bool): seq<Range>
  {
    if rotation then Repeat(Closed(-Pi, Pi), 3) else []
  }

  function TranslationRanges(translation: bool): seq<Range>
  {
    if translation then Repeat(Closed(-1.0, 1.0), 3) else []
  }

  /** Everything the lookup appends after the base ranges, in order. */
  function TransformRanges(f: ShapeFamily): seq<Range>
  {
    ScaleRanges(f.singlescale, f.multiscale) + RotationRanges(f.rotation)
      + TranslationRanges(f.translation)
  }

  function ScaleCount(singlescale: bool, multiscale: bool): nat
  {
    if singlescale then 1 else if multiscale then 3 else 0
  }

  /** At most one scale group is appended, even for flags no entry uses. */
  lemma ScaleRangesAtMostOneGroup(singlescale: bool, multiscale: bool)
    ensures |ScaleRanges(singlescale, multiscale)| == ScaleCount(singlescale, multiscale)
    ensures singlescale && multiscale ==> ScaleRanges(singlescale, multiscale) == ScaleRanges(true, false)
  {
  }

  function BoolCount(b: bool): nat { if b then 1 else 0 }

  lemma TransformRangesLength(f: ShapeFamily)
    ensures |TransformRanges(f)|
         == ScaleCount(f.singlescale, f.multiscale) + 3 * BoolCount(f.rotation) + 3 * BoolCount(f.translation)
  {
  }

  datatype CatalogError = UnknownShape(shapeName: string) | UnknownColor(colorName: string)

  /** What `get_stroke` hands back, apart from its closures: the sampler is
      `Sampler.SampleShape` applied to this record, the evaluation function is
      the backend bound to `sdfId` and `colorId`. */
  datatype StrokeSpec = StrokeSpec(
    shape: ShapeType,
    color: ColorType,
    initType: string,
    sdfId: bv32,
    colorId: nat,
    dimShape: nat,
    dimColor: nat,
    shapeRanges: seq<Range>,
    colorRanges: seq<Range>)

  function SpecOf(t: ShapeType, c: ColorType, initType: string): StrokeSpec
  {
    var f := Family(t);
    var ranges := f.baseRanges + TransformRanges(f);
    StrokeSpec(t, c, initType,
               MakeSdfId(f.base, f.translation, f.rotation, f.singlescale, f.multiscale),
               ColorId(c), |ranges|, |ColorRanges(c)|, ranges, ColorRanges(c))
  }

  /** `get_stroke` on a freshly built catalogue: the shape lookup fails first,
      then the colour lookup; the initialisation regime is only read when
      the sampler runs. */
  function GetStroke(shapeName: string, colorName: string, initType: string)
    : (r: Result<StrokeSpec, CatalogError>)
    ensures ParseShape(shapeName).None? ==> r == Err(UnknownShape(shapeName))
    ensures ParseShape(shapeName).Some? && ParseColor(colorName).None? ==> r == Err(UnknownColor(colorName))
    ensures ParseShape(shapeName).Some? && ParseColor(colorName).Some? ==> r.Ok?
    ensures r.Ok? ==>
      var f := Family(r.value.shape);
      && ShapeName(r.value.shape) == shapeName
      && ColorName(r.value.color) == colorName
      && DecodeSdfId(r.value.sdfId)
           == Some(SdfIdFields(f.base, f.translation, f.rotation, f.singlescale, f.multiscale))
      && r.value.dimShape == |r.value.shapeRanges|
      && r.value.dimShape
           == |f.baseRanges| + ScaleCount(f.singlescale, f.multiscale)
              + 3 * BoolCount(f.rotation) + 3 * BoolCount(f.translation)
      && r.value.shapeRanges[..|f.baseRanges|] == f.baseRanges
      && r.value.dimColor == |r.value.colorRanges|
    ensures r.Ok? ==> r.value == SpecOf(r.value.shape, r.value.color, initType)
  {
    match ParseShape(shapeName)
    case None => Err(UnknownShape(shapeName))
    case Some(t) =>
      match ParseColor(colorName)
      case None => Err(UnknownColor(colorName))
      case Some(c) =>
        var f := Family(t);
        DecodeMakeSdfId(SdfIdFields(f.base, f.translation, f.rotation, f.singlescale, f.multiscale));
        TransformRangesLength(f);
        Ok(SpecOf(t, c, initType))
  }

  /** The colour dimension of each model: 3, 12, 12 and 27 parameters, while
      every model renders 3 channels. */
  lemma ColorDimensions(c: ColorType)
    ensures |ColorRanges(c)| == (match c
                                 case ConstantRgb => 3
                                 case GradientRgb => 12
                                 case ConstantSh2 => 12
                                 case ConstantSh3 => 27)
  {
  }

  // ---------------------------------------------------------------------------
  // The lookup as written: it extends the catalogue's own list

  /** The range lists currently stored in the catalogue, per shape type. */
  type RangeTable = map<ShapeType, seq<Range>>

  function InitialTable(): (table: RangeTable)
    ensures forall t :: t in table && table[t] == BaseRanges(t)
  {
    AllShapesComplete();
    map t | t in AllShapes :: BaseRanges(t)
  }

  /** The ranges a family starts from, before any transform is appended. */
  function BaseRanges(t: ShapeType): seq<Range>
  {
    Family(t).baseRanges
  }

  /** `get_stroke` exactly as written: `shape_param_ranges += ...` extends the
      list object stored in the catalogue, so the new table keeps the appended
      ranges and the returned dimension counts every earlier lookup's
      additions too. */
  function GetStrokeAsWritten(table: RangeTable, shapeName: string, colorName: string, initType: string)
    : (r: Result<(StrokeSpec, RangeTable), CatalogError>)
    requires forall t :: t in table
    ensures r.Ok? ==>
      var t := r.value.0.shape;
      && ParseShape(shapeName) == Some(t)
      && r.value.1 == table[t := table[t] + TransformRanges(Family(t))]
      && r.value.0.dimShape == |table[t]| + |TransformRanges(Family(t))|
    ensures r.Err? <==> GetStroke(shapeName, colorName, initType).Err?
  {
    match ParseShape(shapeName)
    case None => Err(UnknownShape(shapeName))
    case Some(t) =>
      match ParseColor(colorName)
      case None => Err(UnknownColor(colorName))
      case Some(c) =>
        var f := Family(t);
        var ranges := table[t] + TransformRanges(f);
        var spec := StrokeSpec(t, c, initType,
                               MakeSdfId(f.base, f.translation, f.rotation, f.singlescale, f.multiscale),
                               ColorId(c), |ranges|, |ColorRanges(c)|, ranges, ColorRanges(c));
        Ok((spec, table[t := ranges]))
  }

  /** On an untouched catalogue the written lookup agrees with the intended one. */
  lemma FirstLookupAgrees(shapeName: string, colorName: string, initType: string)
    requires GetStroke(shapeName, colorName, initType).Ok?
    ensures GetStrokeAsWritten(InitialTable(), shapeName, colorName, initType).Ok?
    ensures GetStrokeAsWritten(InitialTable(), shapeName, colorName, initType).value.0
         == GetStroke(shapeName, colorName, initType).value
  {
  }

  /** A second lookup of the same shape reports a larger dimension than the
      first whenever the family has any capability bit, although the sampler
      still emits the first lookup's number of values. */
  lemma {:induction false} RepeatedLookupGrows(shapeName: string, colorName: string, initType: string)
    requires GetStroke(shapeName, colorName, initType).Ok?
    ensures
      var first := GetStrokeAsWritten(InitialTable(), shapeName, colorName, initType);
      var second := GetStrokeAsWritten(first.value.1, shapeName, colorName, initType);
      var f := Family(first.value.0.shape);
      && second.Ok?
      && second.value.0.dimShape == first.value.0.dimShape + |TransformRanges(f)|
      && ((f.translation || f.rotation || f.singlescale || f.multiscale)
            ==> second.value.0.dimShape > GetStroke(shapeName, colorName, initType).value.dimShape)
  {
    var first := GetStrokeAsWritten(InitialTable(), shapeName, colorName, initType);
    var t := first.value.0.shape;
    var table1 := first.value.1;
    assert table1[t] == Family(t).baseRanges + TransformRanges(Family(t));
    TransformRangesLength(Family(t));
  }

  /** The concrete case: `sphere` reports 4 shape parameters, then 8. */
  lemma SphereLookedUpTwice()
    ensures
      var first := GetStrokeAsWritten(InitialTable(), "sphere", "constant_rgb", "recon");
      && first.Ok? && first.value.0.dimShape == 4
      && var second := GetStrokeAsWritten(first.value.1, "sphere", "constant_rgb", "recon");
      && second.Ok? && second.value.0.dimShape == 8
  {
    RepeatedLookupGrows("sphere", "constant_rgb", "recon");
  }
}
