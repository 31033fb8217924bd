/**
 * Image-level helpers: the physical bounds sampled by an image, their
 * midpoint, and the construction of image metadata that subdivides a
 * physical region into a voxel grid of a requested spacing and direction.
 */
module BlockImage {
  import opened Wrappers
  import opened Geometry
  import opened Regions
  import opened ImageMeta
  import opened Transforms
  import opened Convert

  /**
   * get_sample_bounds: the physical bounds of the image's largest possible
   * region, voxel edges included, through `t` when given.
   */
  function GetSampleBounds(img: Image, t: Option<Transform>): (b: Box)
    ensures IsOrdered(b)
  {
    ImageToPhysicalRegion(img.largest, img, t)
  }

  /** get_physical_midpoint: the mean of the two sample bounds. */
  function GetPhysicalMidpoint(img: Image, t: Option<Transform>): (m: Point)
    ensures forall r :: 0 <= r < 3 ==> GetSampleBounds(img, t)[0][r] <= m[r] <= GetSampleBounds(img, t)[1][r]
  {
    Midpoint(GetSampleBounds(img, t))
  }

  // ---------------------------------------------------------------------
  // physical_region_to_itk_image
  // ---------------------------------------------------------------------

  /** numpy.isclose(spacing, 0) is false on every axis. */
  predicate SpacingAccepted(spacing: Point)
  {
    !IsCloseToZero(spacing[0]) && !IsCloseToZero(spacing[1]) && !IsCloseToZero(spacing[2])
  }

  /** Every row of the direction has a nonzero entry. */
  predicate RowsNonzero(d: Matrix3)
  {
    forall r :: 0 <= r < 3 ==> NonzeroCount(d[r][0], d[r][1], d[r][2]) >= 1
  }

  /**
   * The directions this model covers: a direction whose entries are in
   * {-1, 0, 1} and whose rows are all nonzero is a signed permutation.
   */
  predicate NoShear(d: Matrix3)
  {
    UnitEntries(d) && RowsNonzero(d) ==> SignedPermutation(d)
  }

  /** With entries in {-1, 0, 1} and nonzero spacing, a physical step is zero exactly when its row is. */
  lemma RowStepZero(d: Matrix3, spacing: Point, r: nat)
    requires UnitEntries(d) && r < 3
    requires spacing[0] != 0.0 && spacing[1] != 0.0 && spacing[2] != 0.0
    ensures PhysicalStep(d, spacing)[r] == 0.0 <==> NonzeroCount(d[r][0], d[r][1], d[r][2]) == 0
  {
    var v0 := StepEntry(d, spacing, r, 0);
    var v1 := StepEntry(d, spacing, r, 1);
    var v2 := StepEntry(d, spacing, r, 2);
    assert IsUnitEntry(d[r][0]) && IsUnitEntry(d[r][1]) && IsUnitEntry(d[r][2]);
    assert (v0 == 0.0 <==> d[r][0] == 0.0) && (v1 == 0.0 <==> d[r][1] == 0.0) && (v2 == 0.0 <==> d[r][2] == 0.0);
    assert RowStep(d, spacing, r) == StepEntry(d, spacing, r, ArgMaxAbs(v0, v1, v2));
  }

  /** Python's math.ceil when the grid may extend beyond the region, math.floor otherwise. */
  function GridCount(x: real, extendBeyond: bool): (n: int)
    ensures extendBeyond ==> x <= n as real < x + 1.0
    ensures !extendBeyond ==> x - 1.0 < n as real <= x
    ensures x >= 0.0 ==> n >= 0
  {
    if extendBeyond then Ceil(x) else Floor(x)
  }

  /** The length of the region along physical axis r. */
  function Span(region: Box, r: nat): (w: real)
    requires r < 3
    ensures w >= 0.0
  {
    Max(region[0][r], region[1][r]) - Min(region[0][r], region[1][r])
  }

  lemma NonnegativeQuotient(x: real, y: real)
    requires x >= 0.0 && y > 0.0
    ensures x / y >= 0.0
  {
  }

  /** The number of voxels of size |step| that the grid places along each physical axis. */
  function GridSize(region: Box, st: Point, extendBeyond: bool): (g: seq<nat>)
    requires forall r :: 0 <= r < 3 ==> st[r] != 0.0
    ensures |g| == 3
    ensures forall r :: 0 <= r < 3 ==> g[r] == GridCount(Span(region, r) / Abs(st[r]), extendBeyond)
  {
    seq(3, r requires 0 <= r < 3 =>
      NonnegativeQuotient(Span(region, r), Abs(st[r]));
      GridCount(Span(region, r) / Abs(st[r]), extendBeyond) as nat)
  }

  /** The grid's bounds, centred on the region: centre -/+ (grid / 2) * step. */
  function OutputRegion(center: Point, g: seq<nat>, st: Point): (out: Box)
    requires |g| == 3
    ensures forall r :: 0 <= r < 3 ==>
      out[0][r] == center[r] - (g[r] as real / 2.0) * st[r] && out[1][r] == center[r] + (g[r] as real / 2.0) * st[r]
  {
    [seq(3, r requires 0 <= r < 3 => center[r] - (g[r] as real / 2.0) * st[r]),
     seq(3, r requires 0 <= r < 3 => center[r] + (g[r] as real / 2.0) * st[r])]
  }

  /** The outer corner of voxel 0: the lower bound where the step is positive, the upper one elsewhere. */
  function VoxelZeroCorner(out: Box, st: Point): (corner: Point)
    ensures forall r :: 0 <= r < 3 ==>
      corner[r] == if st[r] > 0.0 then Min(out[0][r], out[1][r]) else Max(out[0][r], out[1][r])
  {
    seq(3, r requires 0 <= r < 3 => if st[r] > 0.0 then Min(out[0][r], out[1][r]) else Max(out[0][r], out[1][r]))
  }

  /**
   * inv(direction * diag(spacing)) applied to a physical offset: the
   * offset along physical axis Row(c) divided by its step.
   */
  function InverseStep(d: Matrix3, st: Point, v: Point): (x: Point)
    requires forall r :: 0 <= r < 3 ==> st[r] != 0.0
  {
    AxisAffineInverse(Zero, st, Rows(d), v)
  }

  /** InverseStep undoes the step matrix of a signed permutation. */
  lemma InverseStepIsInverse(d: Matrix3, st: Point, v: Point)
    requires SignedPermutation(d)
    requires forall r :: 0 <= r < 3 ==> st[r] != 0.0
    ensures AxisAffine(Zero, st, Cols(d), InverseStep(d, st, v)) == v
  {
    SignedPermutationPairing(d);
    AxisAffineAfterInverse(Zero, st, Cols(d), Rows(d), v);
  }

  /** Voxel 0's corner is the first bound of the output region, whatever the sign of the step. */
  lemma CornerAxis(center: real, s: real, g: nat)
    ensures var out0, out1 := center - (g as real / 2.0) * s, center + (g as real / 2.0) * s;
      (if s > 0.0 then Min(out0, out1) else Max(out0, out1)) == out0
  {
    var h := g as real / 2.0;
    if s > 0.0 {
      assert h * s >= 0.0;
    } else {
      assert h * (-s) >= 0.0;
    }
  }

  /** The size along an index axis solved from the output region is the grid count. */
  lemma SizeFromRegionAxis(center: real, s: real, g: nat)
    requires s != 0.0
    ensures ((center + (g as real / 2.0) * s) - (center - (g as real / 2.0) * s)) / s == g as real
  {
    var h := g as real / 2.0;
    assert (center + h * s) - (center - h * s) == g as real * s;
  }

  /** The grid bounds for a region: grid counts centred on the region's midpoint. */
  function GridRegion(region: Box, st: Point, extendBeyond: bool): (out: Box)
    requires forall r :: 0 <= r < 3 ==> st[r] != 0.0
  {
    OutputRegion(Midpoint(region), GridSize(region, st, extendBeyond), st)
  }

  /** The output size before int(): inv(direction * diag(spacing)) * (upper grid bound - voxel 0 corner). */
  function GridSizeReal(region: Box, st: Point, direction: Matrix3, extendBeyond: bool): (x: Point)
    requires forall r :: 0 <= r < 3 ==> st[r] != 0.0
  {
    var out := GridRegion(region, st, extendBeyond);
    InverseStep(direction, st, Sub(out[1], VoxelZeroCorner(out, st)))
  }

  /** Voxel 0's corner is the first grid bound on every physical axis. */
  lemma GridCornerAxis(region: Box, st: Point, extendBeyond: bool, r: nat)
    requires forall k :: 0 <= k < 3 ==> st[k] != 0.0
    requires r < 3
    ensures var out := GridRegion(region, st, extendBeyond); VoxelZeroCorner(out, st)[r] == out[0][r]
  {
    var g := GridSize(region, st, extendBeyond);
    var out := GridRegion(region, st, extendBeyond);
    var m, s, n := Midpoint(region)[r], st[r], g[r];
    assert out[0][r] == m - (n as real / 2.0) * s && out[1][r] == m + (n as real / 2.0) * s;
    CornerAxis(m, s, n);
  }

  /** The upper grid bound less the lower one is the grid count times the step. */
  lemma GridWidthAxis(region: Box, st: Point, extendBeyond: bool, r: nat)
    requires forall k :: 0 <= k < 3 ==> st[k] != 0.0
    requires r < 3
    ensures var out := GridRegion(region, st, extendBeyond);
      (out[1][r] - out[0][r]) / st[r] == GridSize(region, st, extendBeyond)[r] as real
  {
    var g := GridSize(region, st, extendBeyond);
    var out := GridRegion(region, st, extendBeyond);
    var m, s, n := Midpoint(region)[r], st[r], g[r];
    assert out[0][r] == m - (n as real / 2.0) * s && out[1][r] == m + (n as real / 2.0) * s;
    SizeFromRegionAxis(m, s, n);
  }

  /** Along index axis c the solved size is the grid count of physical axis Row(c). */
  lemma GridSizeRealAxis(region: Box, st: Point, direction: Matrix3, extendBeyond: bool, c: nat)
    requires forall r :: 0 <= r < 3 ==> st[r] != 0.0
    requires c < 3
    ensures GridSizeReal(region, st, direction, extendBeyond)[c]
      == GridSize(region, st, extendBeyond)[Row(direction, c)] as real
  {
    var out := GridRegion(region, st, extendBeyond);
    var r := Row(direction, c);
    assert Rows(direction)[c] == r;
    GridCornerAxis(region, st, extendBeyond, r);
    GridWidthAxis(region, st, extendBeyond, r);
    var hi, lo, s := out[1][r], out[0][r], st[r];
    assert GridSizeReal(region, st, direction, extendBeyond)[c] == ((hi - lo) - 0.0) / s;
  }

  /** int() of the solved size on every index axis. */
  function GridIndexSize(region: Box, st: Point, direction: Matrix3, extendBeyond: bool): (size: seq<nat>)
    requires forall r :: 0 <= r < 3 ==> st[r] != 0.0
    ensures |size| == 3
    ensures forall c :: 0 <= c < 3 ==> size[c] == GridSize(region, st, extendBeyond)[Row(direction, c)]
  {
    var x := GridSizeReal(region, st, direction, extendBeyond);
    var g := GridSize(region, st, extendBeyond);
    forall c | 0 <= c < 3
      ensures Row(direction, c) < 3 && x[c] == g[Row(direction, c)] as real && Trunc(x[c]) == g[Row(direction, c)]
    {
      GridSizeRealAxis(region, st, direction, extendBeyond, c);
      TruncOfWhole(g[Row(direction, c)]);
    }
    seq(3, c requires 0 <= c < 3 => Trunc(x[c]) as nat)
  }

  /** The image metadata physical_region_to_itk_image builds once its checks pass. */
  function GridImage(region: Box, spacing: Point, direction: Matrix3, extendBeyond: bool): (img: Image)
    requires SignedPermutation(direction)
    requires spacing[0] != 0.0 && spacing[1] != 0.0 && spacing[2] != 0.0
    ensures img.spacing == spacing && img.direction == direction && img.largest.index == [0, 0, 0]
    ensures img.largest.size == GridIndexSize(region, PhysicalStep(direction, spacing), direction, extendBeyond)
  {
    PhysicalStepAxis(direction, spacing, 0);
    PhysicalStepAxis(direction, spacing, 1);
    PhysicalStepAxis(direction, spacing, 2);
    var st := PhysicalStep(direction, spacing);
    var out := GridRegion(region, st, extendBeyond);
    var corner := VoxelZeroCorner(out, st);
    var origin := seq(3, r requires 0 <= r < 3 => corner[r] + 0.5 * st[r]);
    ImageMetadata(origin, spacing, direction, ImageRegion([0, 0, 0], GridIndexSize(region, st, direction, extendBeyond)))
  }

  /**
   * physical_region_to_itk_image: an AssertionError when a spacing is close
   * to zero, a direction entry is outside {-1, 0, 1} or a physical step is
   * zero; otherwise image metadata with the requested spacing and
   * direction, index 0 and, along each index axis, as many voxels as the
   * grid counts along the physical axis it follows.
   */
  function PhysicalRegionToItkImage(region: Box, spacing: Point, direction: Matrix3, extendBeyond: bool): (res: Result<Image>)
    requires NoShear(direction)
    ensures res.Err? <==> !SpacingAccepted(spacing) || !UnitEntries(direction) || !RowsNonzero(direction)
    ensures res.Err? ==> res.error.AssertionError?
    ensures res.Ok? ==> res.value.spacing == spacing && res.value.direction == direction
    ensures res.Ok? ==> res.value.largest.index == [0, 0, 0]
    ensures res.Ok? ==> SignedPermutation(direction) && res.value == GridImage(region, spacing, direction, extendBeyond)
  {
    if !SpacingAccepted(spacing) then Err(AssertionError("Invalid spacing"))
    else if !UnitEntries(direction) then Err(AssertionError("Invalid direction"))
    else
      var st := PhysicalStep(direction, spacing);
      RowStepZero(direction, spacing, 0);
      RowStepZero(direction, spacing, 1);
      RowStepZero(direction, spacing, 2);
      if st[0] == 0.0 || st[1] == 0.0 || st[2] == 0.0 then Err(AssertionError("Invalid physical step"))
      else
        assert SignedPermutation(direction);
        Ok(GridImage(region, spacing, direction, extendBeyond))
  }

  /**
   * Along the index axis that follows physical axis r, the grid image has
   * as many voxels as fit the region's span in steps of |step[r]|, rounded
   * up when the grid may extend beyond the region and down otherwise.
   */
  lemma GridImageSize(region: Box, spacing: Point, direction: Matrix3, extendBeyond: bool, r: nat)
    requires SignedPermutation(direction)
    requires spacing[0] != 0.0 && spacing[1] != 0.0 && spacing[2] != 0.0
    requires r < 3
    ensures GridImage(region, spacing, direction, extendBeyond).largest.size[Col(direction, r)]
      == GridCount(Span(region, r) / Abs(PhysicalStep(direction, spacing)[r]), extendBeyond)
  {
    PhysicalStepAxis(direction, spacing, 0);
    PhysicalStepAxis(direction, spacing, 1);
    PhysicalStepAxis(direction, spacing, 2);
    RowAxis(direction, r);
  }

  /** The physical coordinate o + s * v of continuous index v along an axis of origin o and step s. */
  function Edge(o: real, s: real, v: real): real
  {
    o + s * v
  }

  /** Half the width of n steps of size |s|. */
  function HalfWidth(n: int, s: real): real
  {
    n as real * Abs(s) / 2.0
  }

  /**
   * Sampling from the centre of voxel 0 to the outer edges of the first
   * and last voxel: the bounds are the centre -/+ half the grid's width.
   */
  lemma SampleAxis(m: real, s: real, g: nat, o: real)
    requires o == (m - (g as real / 2.0) * s) + 0.5 * s
    ensures Min(Edge(o, s, -0.5), Edge(o, s, g as real - 0.5)) == m - HalfWidth(g, s)
    ensures Max(Edge(o, s, -0.5), Edge(o, s, g as real - 0.5)) == m + HalfWidth(g, s)
  {
    assert Edge(o, s, -0.5) == m - (g as real / 2.0) * s;
    assert Edge(o, s, g as real - 0.5) == m + (g as real / 2.0) * s;
    if s >= 0.0 {
      MulNonnegative(g as real / 2.0, s);
    } else {
      MulNonnegative(g as real / 2.0, -s);
    }
  }

  /**
   * For an image whose largest region starts at index 0, the sample bounds
   * along physical axis r run between the physical points of continuous
   * indices -0.5 and size - 0.5 along the index axis r follows.
   */
  lemma ZeroIndexSampleBounds(img: Image, r: nat, o: real, s: real, n: nat)
    requires img.largest.index == [0, 0, 0] && r < 3
    requires o == img.origin[r] && s == Step(img)[r] && n == img.largest.size[Col(img.direction, r)]
    ensures GetSampleBounds(img, None)[0][r] == Min(Edge(o, s, -0.5), Edge(o, s, n as real - 0.5))
    ensures GetSampleBounds(img, None)[1][r] == Max(Edge(o, s, -0.5), Edge(o, s, n as real - 0.5))
  {
    var x := ZeroIndexEdges(img, r, n);
    SampledRowsAxis(img, x, GetSampleBounds(img, None), r, o, s, -0.5, n as real - 0.5);
  }

  /** Physical axis r of the normalized physical box `b` of two continuous indices, from their coordinates on the index axis r follows. */
  lemma SampledRowsAxis(img: Image, x: Box, b: Box, r: nat, o: real, s: real, v0: real, v1: real)
    requires r < 3 && o == img.origin[r] && s == Step(img)[r]
    requires Col(img.direction, r) < 3 && x[0][Col(img.direction, r)] == v0 && x[1][Col(img.direction, r)] == v1
    requires b == Normalize(IndexBoxToPhysical(img, x))
    ensures b[0][r] == Min(Edge(o, s, v0), Edge(o, s, v1))
    ensures b[1][r] == Max(Edge(o, s, v0), Edge(o, s, v1))
  {
    IndexToPhysicalAt(img, x[0], r, o, s, v0);
    IndexToPhysicalAt(img, x[1], r, o, s, v1);
  }

  /**
   * The continuous-index box an index-0 image samples: half a voxel below
   * index 0 to half a voxel below its size, along the index axis that
   * physical axis r follows.
   */
  lemma ZeroIndexEdges(img: Image, r: nat, n: nat) returns (x: Box)
    requires img.largest.index == [0, 0, 0] && r < 3
    requires n == img.largest.size[Col(img.direction, r)]
    ensures Col(img.direction, r) < 3
    ensures x[0][Col(img.direction, r)] == -0.5 && x[1][Col(img.direction, r)] == n as real - 0.5
    ensures GetSampleBounds(img, None) == Normalize(IndexBoxToPhysical(img, x))
  {
    RowAxis(img.direction, r);
    var b := ImageToBlockRegion(img.largest);
    NormalizeOrdered(b);
    x := ShiftBox(Normalize(b), -HalfVoxelStep);
  }

  /**
   * The continuous-index box any region of an image samples: half a voxel
   * below its index to half a voxel below its end, along the index axis
   * that physical axis r follows.
   */
  lemma RegionEdges(img: Image, region: ImageRegion, r: nat) returns (x: Box)
    requires region.WellFormed() && region.Dim() == 3 && r < 3
    ensures Col(img.direction, r) < 3
    ensures x[0][Col(img.direction, r)] == region.index[Col(img.direction, r)] as real - 0.5
    ensures x[1][Col(img.direction, r)] == region.End(Col(img.direction, r)) as real - 0.5
    ensures ImageToPhysicalRegion(region, img, None) == Normalize(IndexBoxToPhysical(img, x))
  {
    RowAxis(img.direction, r);
    var b := ImageToBlockRegion(region);
    NormalizeOrdered(b);
    x := ShiftBox(Normalize(b), -HalfVoxelStep);
  }

  /**
   * image_to_physical_region along physical axis r: the physical edges of
   * the region's first and last voxels, half a voxel out, in order.
   */
  lemma RegionPhysicalBounds(img: Image, region: ImageRegion, r: nat, o: real, s: real, lo: real, hi: real)
    requires region.WellFormed() && region.Dim() == 3 && r < 3
    requires o == img.origin[r] && s == Step(img)[r] && Col(img.direction, r) < 3
    requires lo == region.index[Col(img.direction, r)] as real - 0.5
    requires hi == region.End(Col(img.direction, r)) as real - 0.5
    ensures ImageToPhysicalRegion(region, img, None)[0][r] == Min(Edge(o, s, lo), Edge(o, s, hi))
    ensures ImageToPhysicalRegion(region, img, None)[1][r] == Max(Edge(o, s, lo), Edge(o, s, hi))
  {
    var x := RegionEdges(img, region, r);
    SampledRowsAxis(img, x, ImageToPhysicalRegion(region, img, None), r, o, s, lo, hi);
  }

  /** Physical coordinate r of a continuous index whose coordinate on the index axis r follows is v. */
  lemma IndexToPhysicalAt(img: Image, q: Point, r: nat, o: real, s: real, v: real)
    requires r < 3 && o == img.origin[r] && s == Step(img)[r]
    requires Col(img.direction, r) < 3 && q[Col(img.direction, r)] == v
    ensures IndexToPhysical(img, q)[r] == Edge(o, s, v)
  {
    var col := Cols(img.direction);
    AxisAffineAt(img.origin, Step(img), col, q, r, o, s, v);
  }

  /** The grid image's origin along physical axis r: voxel 0's corner moved half a step inward. */
  lemma GridImageOrigin(region: Box, spacing: Point, direction: Matrix3, extendBeyond: bool, r: nat, m: real, s: real, n: nat)
    requires SignedPermutation(direction)
    requires forall k :: 0 <= k < 3 ==> PhysicalStep(direction, spacing)[k] != 0.0
    requires spacing[0] != 0.0 && spacing[1] != 0.0 && spacing[2] != 0.0
    requires r < 3 && m == Midpoint(region)[r] && s == PhysicalStep(direction, spacing)[r]
    requires n == GridSize(region, PhysicalStep(direction, spacing), extendBeyond)[r]
    ensures GridImage(region, spacing, direction, extendBeyond).origin[r] == (m - (n as real / 2.0) * s) + 0.5 * s
  {
    var st := PhysicalStep(direction, spacing);
    var out := GridRegion(region, st, extendBeyond);
    GridCornerAxis(region, st, extendBeyond, r);
    assert out[0][r] == m - (n as real / 2.0) * s;
  }

  lemma PhysicalStepNonzero(direction: Matrix3, spacing: Point)
    requires SignedPermutation(direction)
    requires spacing[0] != 0.0 && spacing[1] != 0.0 && spacing[2] != 0.0
    ensures forall k :: 0 <= k < 3 ==> PhysicalStep(direction, spacing)[k] != 0.0
  {
    PhysicalStepAxis(direction, spacing, 0);
    PhysicalStepAxis(direction, spacing, 1);
    PhysicalStepAxis(direction, spacing, 2);
  }

  /**
   * The sample bounds of the grid image along physical axis r, whose step
   * is s and grid count n: the region's midpoint m -/+ n |s| / 2.
   */
  lemma GridImageSampleBounds(region: Box, spacing: Point, direction: Matrix3, extendBeyond: bool, r: nat, m: real, s: real, n: nat)
    requires SignedPermutation(direction)
    requires forall k :: 0 <= k < 3 ==> PhysicalStep(direction, spacing)[k] != 0.0
    requires spacing[0] != 0.0 && spacing[1] != 0.0 && spacing[2] != 0.0
    requires r < 3 && m == Midpoint(region)[r] && s == PhysicalStep(direction, spacing)[r]
    requires n == GridSize(region, PhysicalStep(direction, spacing), extendBeyond)[r]
    ensures GetSampleBounds(GridImage(region, spacing, direction, extendBeyond), None)[0][r] == m - HalfWidth(n, s)
    ensures GetSampleBounds(GridImage(region, spacing, direction, extendBeyond), None)[1][r] == m + HalfWidth(n, s)
  {
    var img := GridImage(region, spacing, direction, extendBeyond);
    GridImageSize(region, spacing, direction, extendBeyond, r);
    assert n == img.largest.size[Col(img.direction, r)];
    assert s == Step(img)[r];
    GridImageOrigin(region, spacing, direction, extendBeyond, r, m, s, n);
    CenteredSampleBounds(img, r, m, s, n);
  }

  /** An index-0 image of n voxels along axis r, centred on m, samples m -/+ n |step| / 2. */
  lemma CenteredSampleBounds(img: Image, r: nat, m: real, s: real, n: nat)
    requires img.largest.index == [0, 0, 0] && r < 3
    requires s == Step(img)[r] && n == img.largest.size[Col(img.direction, r)]
    requires img.origin[r] == (m - (n as real / 2.0) * s) + 0.5 * s
    ensures GetSampleBounds(img, None)[0][r] == m - HalfWidth(n, s)
    ensures GetSampleBounds(img, None)[1][r] == m + HalfWidth(n, s)
  {
    ZeroIndexSampleBounds(img, r, img.origin[r], s, n);
    SampleAxis(m, s, n, img.origin[r]);
  }

  /**
   * With extendBeyond the grid covers the region and overshoots each edge
   * by less than half a step; without it the grid lies inside the region
   * and falls short of each edge by less than half a step.
   */
  lemma GridImageCoversRegion(region: Box, spacing: Point, direction: Matrix3, extendBeyond: bool, r: nat)
    requires SignedPermutation(direction)
    requires spacing[0] != 0.0 && spacing[1] != 0.0 && spacing[2] != 0.0
    requires r < 3
    ensures var sb, half := GetSampleBounds(GridImage(region, spacing, direction, extendBeyond), None), Abs(spacing[Col(direction, r)]) / 2.0;
      extendBeyond ==>
        Min(region[0][r], region[1][r]) - half < sb[0][r] <= Min(region[0][r], region[1][r])
        && Max(region[0][r], region[1][r]) <= sb[1][r] < Max(region[0][r], region[1][r]) + half
    ensures var sb, half := GetSampleBounds(GridImage(region, spacing, direction, extendBeyond), None), Abs(spacing[Col(direction, r)]) / 2.0;
      !extendBeyond ==>
        Min(region[0][r], region[1][r]) <= sb[0][r] < Min(region[0][r], region[1][r]) + half
        && Max(region[0][r], region[1][r]) - half < sb[1][r] <= Max(region[0][r], region[1][r])
  {
    PhysicalStepNonzero(direction, spacing);
    PhysicalStepAxis(direction, spacing, r);
    GridImageSampleBounds(region, spacing, direction, extendBeyond, r,
      Midpoint(region)[r], PhysicalStep(direction, spacing)[r], GridSize(region, PhysicalStep(direction, spacing), extendBeyond)[r]);
    var sb := GetSampleBounds(GridImage(region, spacing, direction, extendBeyond), None);
    CoverAxis(region[0][r], region[1][r], Span(region, r), PhysicalStep(direction, spacing)[r],
      GridSize(region, PhysicalStep(direction, spacing), extendBeyond)[r], extendBeyond, Midpoint(region)[r], sb[0][r], sb[1][r]);
  }

  /**
   * Grid bounds centred on the midpoint of [a, b], g steps of width |s|
   * apart, where g rounds the span over |s|: they cover [a, b] within half a
   * step when rounded up and lie inside it within half a step otherwise.
   */
  lemma CoverAxis(a: real, b: real, span: real, s: real, g: int, extendBeyond: bool, m: real, lo: real, hi: real)
    requires s != 0.0 && m == (a + b) / 2.0 && span == Max(a, b) - Min(a, b)
    requires g == GridCount(span / Abs(s), extendBeyond)
    requires lo == m - HalfWidth(g, s) && hi == m + HalfWidth(g, s)
    ensures extendBeyond ==> Min(a, b) - Abs(s) / 2.0 < lo <= Min(a, b) && Max(a, b) <= hi < Max(a, b) + Abs(s) / 2.0
    ensures !extendBeyond ==> Min(a, b) <= lo < Min(a, b) + Abs(s) / 2.0 && Max(a, b) - Abs(s) / 2.0 < hi <= Max(a, b)
  {
    CountedWidth(span, Abs(s), g, extendBeyond);
  }

  /** A count of steps of width w rounded from span / w spans within one step of span. */
  lemma CountedWidth(span: real, w: real, g: int, extendBeyond: bool)
    requires w > 0.0
    requires g == GridCount(span / w, extendBeyond)
    ensures extendBeyond ==> span <= g as real * w < span + w
    ensures !extendBeyond ==> span - w < g as real * w <= span
  {
    var q := span / w;
    assert q * w == span;
    if extendBeyond {
      ScaledUp(q, g as real, w, span);
    } else {
      ScaledDown(q, g as real, w, span);
    }
  }

  /** A value rounded up from q = span / w, scaled back by w, overshoots span by less than w. */
  lemma ScaledUp(q: real, x: real, w: real, span: real)
    requires w > 0.0 && q * w == span && q <= x < q + 1.0
    ensures span <= x * w < span + w
  {
    assert span <= x * w by { MulNonnegative(x - q, w); }
    LessThanOneStepMore(q, x, w, span);
  }

  /** A value rounded down from q = span / w, scaled back by w, falls short of span by less than w. */
  lemma ScaledDown(q: real, x: real, w: real, span: real)
    requires w > 0.0 && q * w == span && q - 1.0 < x <= q
    ensures span - w < x * w <= span
  {
    assert x * w <= span by { MulNonnegative(q - x, w); }
    LessThanOneStepLess(q, x, w, span);
  }

  lemma LessThanOneStepMore(q: real, x: real, w: real, span: real)
    requires w > 0.0 && q * w == span && x < q + 1.0
    ensures x * w < span + w
  {
    MulPositive(q + 1.0 - x, w);
  }

  lemma LessThanOneStepLess(q: real, x: real, w: real, span: real)
    requires w > 0.0 && q * w == span && q - 1.0 < x
    ensures span - w < x * w
  {
    MulPositive(x - q + 1.0, w);
  }
}
