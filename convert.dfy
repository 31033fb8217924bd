/**
 * Conversions between voxel blocks (2x3 [lower, upper) bounds in ITK index
 * order), ITK image regions and axis-aligned physical bounding boxes, and
 * the mapping of a block from one image's voxel space to another's.
 */
module Convert {
  import opened Wrappers
  import opened Geometry
  import opened Regions
  import opened ImageMeta
  import opened Transforms

  /** Voxel centres sit half a voxel inside the [lower, upper) block bounds. */
  const HalfVoxelStep: real := 0.5

  const NumCorners: nat := 8

  // ---------------------------------------------------------------------
  // Bounding box of a transformed physical region
  // ---------------------------------------------------------------------

  /**
   * The row of the bounds matrix that corner `n` takes its coordinate along
   * `axis` from, in itertools.product order: the first axis varies slowest.
   */
  function CornerRow(n: nat, axis: nat): (row: nat)
    requires n < NumCorners && axis < 3
    ensures row < 2
  {
    if axis == 0 then n / 4 else if axis == 1 then (n / 2) % 2 else n % 2
  }

  /** Corner `n` of the box spanned by the two rows of `b`. */
  function Corner(b: Box, n: nat): (c: Point)
    requires n < NumCorners
    ensures forall a :: 0 <= a < 3 ==> c[a] == b[CornerRow(n, a)][a]
  {
    seq(3, a requires 0 <= a < 3 => b[CornerRow(n, a)][a])
  }

  /** The eight corners are exactly the eight vertices of the box, each once. */
  lemma CornersAreVertices(b: Box, i: nat, j: nat, k: nat)
    requires i < 2 && j < 2 && k < 2
    ensures 4 * i + 2 * j + k < NumCorners
    ensures Corner(b, 4 * i + 2 * j + k) == [b[i][0], b[j][1], b[k][2]]
  {
    var n := 4 * i + 2 * j + k;
    assert CornerRow(n, 0) == i && CornerRow(n, 1) == j && CornerRow(n, 2) == k;
  }

  /** The smallest coordinate along `a` among the points (numpy.min over axis 0). */
  function AxisMin(pts: seq<Point>, a: nat): (m: real)
    requires |pts| > 0 && a < 3
    ensures forall k :: 0 <= k < |pts| ==> m <= pts[k][a]
    ensures exists k :: 0 <= k < |pts| && m == pts[k][a]
    decreases |pts|
  {
    if |pts| == 1 then pts[0][a]
    else
      var m := AxisMin(pts[..|pts| - 1], a);
      assert forall k :: 0 <= k < |pts| - 1 ==> pts[..|pts| - 1][k] == pts[k];
      Min(m, pts[|pts| - 1][a])
  }

  /** The largest coordinate along `a` among the points (numpy.max over axis 0). */
  function AxisMax(pts: seq<Point>, a: nat): (m: real)
    requires |pts| > 0 && a < 3
    ensures forall k :: 0 <= k < |pts| ==> pts[k][a] <= m
    ensures exists k :: 0 <= k < |pts| && m == pts[k][a]
    decreases |pts|
  {
    if |pts| == 1 then pts[0][a]
    else
      var m := AxisMax(pts[..|pts| - 1], a);
      assert forall k :: 0 <= k < |pts| - 1 ==> pts[..|pts| - 1][k] == pts[k];
      Max(m, pts[|pts| - 1][a])
  }

  /** The tightest axis-aligned box holding every point. */
  function Bounds(pts: seq<Point>): (b: Box)
    requires |pts| > 0
    ensures IsOrdered(b)
    ensures forall k, a :: 0 <= k < |pts| && 0 <= a < 3 ==> b[0][a] <= pts[k][a] <= b[1][a]
    ensures forall a :: 0 <= a < 3 ==>
      (exists k :: 0 <= k < |pts| && b[0][a] == pts[k][a]) && (exists k :: 0 <= k < |pts| && b[1][a] == pts[k][a])
  {
    [seq(3, a requires 0 <= a < 3 => AxisMin(pts, a)), seq(3, a requires 0 <= a < 3 => AxisMax(pts, a))]
  }

  /** The eight corners of `b` mapped through `t`, in itertools.product order. */
  function TransformedCorners(b: Box, t: Transform): (pts: seq<Point>)
    ensures |pts| == NumCorners
    ensures forall n :: 0 <= n < NumCorners ==> pts[n] == Apply(t, Corner(b, n))
  {
    seq(NumCorners, n requires 0 <= n < NumCorners => Apply(t, Corner(b, n)))
  }

  /**
   * The box estimate_bounding_box computes: the smallest axis-aligned box
   * holding every transformed corner of `b`, each of its bounds attained by
   * some corner.
   */
  function BoundingBox(b: Box, t: Transform): (r: Box)
    ensures IsOrdered(r)
    ensures forall n, a :: 0 <= n < NumCorners && 0 <= a < 3 ==>
      r[0][a] <= TransformedCorners(b, t)[n][a] <= r[1][a]
    ensures forall a :: 0 <= a < 3 ==>
      (exists n :: 0 <= n < NumCorners && r[0][a] == TransformedCorners(b, t)[n][a])
      && (exists n :: 0 <= n < NumCorners && r[1][a] == TransformedCorners(b, t)[n][a])
  {
    var pts := TransformedCorners(b, t);
    var r := Bounds(pts);
    forall a | 0 <= a < 3
      ensures exists n :: 0 <= n < NumCorners && r[0][a] == pts[n][a]
      ensures exists n :: 0 <= n < NumCorners && r[1][a] == pts[n][a]
    {
      var n0 :| 0 <= n0 < |pts| && r[0][a] == pts[n0][a];
      var n1 :| 0 <= n1 < |pts| && r[1][a] == pts[n1][a];
      assert 0 <= n0 < NumCorners && r[0][a] == TransformedCorners(b, t)[n0][a];
      assert 0 <= n1 < NumCorners && r[1][a] == TransformedCorners(b, t)[n1][a];
    }
    r
  }

  /**
   * estimate_bounding_box: an AssertionError unless the region is 2x3;
   * otherwise the eight corners are transformed one by one into an 8x3
   * array whose per-axis minimum and maximum form the result.
   */
  method EstimateBoundingBox(region: seq<seq<real>>, t: Transform) returns (r: Result<Box>)
    ensures r.Err? <==> !Is2x3(region)
    ensures r.Err? ==> r.error.AssertionError?
    ensures r.Ok? ==> r.value == BoundingBox(AsBox(region), t)
  {
    if !Is2x3(region) {
      return Err(AssertionError("physical region must be a 2x3 array"));
    }
    var b := AsBox(region);
    var arr := new Point[NumCorners](_ => Zero);
    for n := 0 to NumCorners
      invariant forall m :: 0 <= m < n ==> arr[m] == Apply(t, Corner(b, m))
    {
      arr[n] := Apply(t, Corner(b, n));
    }
    assert arr[..] == TransformedCorners(b, t);
    return Ok(Bounds(arr[..]));
  }

  /**
   * The coordinate along `a` of translated corner `n`: the coordinate of
   * the row it takes along `a`, moved by the offset.
   */
  lemma TranslatedCorner(b: Box, offset: Point, n: nat, a: nat)
    requires n < NumCorners && a < 3
    ensures var v := Apply(Translation(offset), Corner(b, n))[a];
      v == b[0][a] + offset[a] || v == b[1][a] + offset[a]
    ensures n == 0 ==> Apply(Translation(offset), Corner(b, n))[a] == b[0][a] + offset[a]
    ensures n == 7 ==> Apply(Translation(offset), Corner(b, n))[a] == b[1][a] + offset[a]
  {
    var k := CornerRow(n, a);
    assert k == 0 || k == 1;
  }

  /** Along an axis where the points take only the values lo <= hi, both of them, the bounds are lo and hi. */
  lemma BoundsOfTwoValues(pts: seq<Point>, a: nat, lo: real, hi: real, i: nat, j: nat)
    requires |pts| > 0 && a < 3 && lo <= hi
    requires forall k :: 0 <= k < |pts| ==> pts[k][a] == lo || pts[k][a] == hi
    requires i < |pts| && pts[i][a] == lo && j < |pts| && pts[j][a] == hi
    ensures Bounds(pts)[0][a] == lo && Bounds(pts)[1][a] == hi
  {
  }

  lemma BoundingBoxOfTranslationAxis(b: Box, offset: Point, a: nat)
    requires a < 3
    ensures BoundingBox(b, Translation(offset))[0][a] == Min(b[0][a], b[1][a]) + offset[a]
    ensures BoundingBox(b, Translation(offset))[1][a] == Max(b[0][a], b[1][a]) + offset[a]
  {
    var pts := TransformedCorners(b, Translation(offset));
    var x, y := b[0][a] + offset[a], b[1][a] + offset[a];
    forall n | 0 <= n < NumCorners
      ensures pts[n][a] == x || pts[n][a] == y
    {
      TranslatedCorner(b, offset, n, a);
    }
    TranslatedCorner(b, offset, 0, a);
    TranslatedCorner(b, offset, 7, a);
    if x <= y {
      BoundsOfTwoValues(pts, a, x, y, 0, 7);
    } else {
      BoundsOfTwoValues(pts, a, y, x, 7, 0);
    }
  }

  /** Under a translation the estimate is exact: the normalized box moved by the offset. */
  lemma BoundingBoxOfTranslation(b: Box, offset: Point)
    ensures forall a :: 0 <= a < 3 ==>
      BoundingBox(b, Translation(offset))[0][a] == Min(b[0][a], b[1][a]) + offset[a]
      && BoundingBox(b, Translation(offset))[1][a] == Max(b[0][a], b[1][a]) + offset[a]
  {
    forall a | 0 <= a < 3 {
      BoundingBoxOfTranslationAxis(b, offset, a);
    }
  }

  // ---------------------------------------------------------------------
  // Voxel blocks and physical regions
  // ---------------------------------------------------------------------

  /** Moves both rows of a box by the same scalar. */
  function ShiftBox(b: Box, d: real): (r: Box)
    ensures forall a :: 0 <= a < 3 ==> r[0][a] == b[0][a] + d && r[1][a] == b[1][a] + d
  {
    [Shift(b[0], d), Shift(b[1], d)]
  }

  /** Every row of an index-space box mapped to physical space (numpy.apply_along_axis). */
  function IndexBoxToPhysical(img: Image, b: Box): (p: Box)
    ensures p[0] == IndexToPhysical(img, b[0]) && p[1] == IndexToPhysical(img, b[1])
  {
    [IndexToPhysical(img, b[0]), IndexToPhysical(img, b[1])]
  }

  /** Every row of a physical box mapped to a continuous index. */
  function PhysicalBoxToIndex(img: Image, p: Box): (b: Box)
    ensures b[0] == PhysicalToIndex(img, p[0]) && b[1] == PhysicalToIndex(img, p[1])
  {
    [PhysicalToIndex(img, p[0]), PhysicalToIndex(img, p[1])]
  }

  /**
   * block_to_physical_region on a 2x3 block: normalize the bounds, move
   * them half a voxel down to the outer voxel edges, map both rows to
   * physical space and take their per-axis bounds, or, given a transform,
   * the bounding box of the transformed corners.
   */
  function BlockToPhysicalBox(b: Box, img: Image, t: Option<Transform>): (p: Box)
    ensures IsOrdered(p)
  {
    var phys := IndexBoxToPhysical(img, ShiftBox(Normalize(b), -HalfVoxelStep));
    if t.None? then Normalize(phys) else BoundingBox(phys, t.value)
  }

  /** block_to_physical_region: an AssertionError unless the block is 2x3. */
  function BlockToPhysicalRegion(m: seq<seq<real>>, img: Image, t: Option<Transform>): (r: Result<Box>)
    ensures r.Err? <==> !Is2x3(m)
    ensures r.Err? ==> r.error.AssertionError?
    ensures r.Ok? ==> IsOrdered(r.value)
  {
    if !Is2x3(m) then Err(AssertionError("block region must be a 2x3 array"))
    else Ok(BlockToPhysicalBox(AsBox(m), img, t))
  }

  /**
   * physical_to_block_region on a 2x3 box: map both rows to continuous
   * indices, take their per-axis bounds and move them half a voxel up.
   */
  function PhysicalToBlockBox(p: Box, img: Image): (b: Box)
    ensures IsOrdered(b)
  {
    ShiftBox(Normalize(PhysicalBoxToIndex(img, p)), HalfVoxelStep)
  }

  /** physical_to_block_region: an AssertionError unless the region is 2x3. */
  function PhysicalToBlockRegion(m: seq<seq<real>>, img: Image): (r: Result<Box>)
    ensures r.Err? <==> !Is2x3(m)
    ensures r.Err? ==> r.error.AssertionError?
    ensures r.Ok? ==> IsOrdered(r.value)
  {
    if !Is2x3(m) then Err(AssertionError("physical region must be a 2x3 array"))
    else Ok(PhysicalToBlockBox(AsBox(m), img))
  }

  /**
   * Going from voxel space to physical space and back gives the normalized
   * block again, whatever flips and permutations the image direction has.
   */
  lemma BlockPhysicalRoundTrip(b: Box, img: Image)
    ensures PhysicalToBlockBox(BlockToPhysicalBox(b, img, None), img) == Normalize(b)
  {
    var n := Normalize(b);
    var s := ShiftBox(n, -HalfVoxelStep);
    var o, st, col, row := img.origin, Step(img), Cols(img.direction), Rows(img.direction);
    SignedPermutationPairing(img.direction);
    AxisAffineBoxRoundTrip(o, st, col, row, s[0], s[1]);
    var r := PhysicalToBlockBox(BlockToPhysicalBox(b, img, None), img);
    assert forall c :: 0 <= c < 3 ==> r[0][c] == n[0][c] && r[1][c] == n[1][c];
    assert r[0] == n[0];
    assert r[1] == n[1];
  }

  // ---------------------------------------------------------------------
  // Voxel blocks and ITK image regions
  // ---------------------------------------------------------------------

  /** Every bound of the block is a whole number. */
  predicate IsWholeBox(b: Box)
  {
    forall k, a :: 0 <= k < 2 && 0 <= a < 3 ==> b[k][a] == b[k][a].Floor as real
  }

  /**
   * block_to_image_region: the lower index is the truncated per-axis
   * minimum, the upper index the truncated per-axis maximum less one.
   */
  function BlockToImageRegion(b: Box): (r: ImageRegion)
    ensures r.WellFormed() && r.Dim() == 3
    ensures forall a :: 0 <= a < 3 ==>
      r.index[a] == Trunc(Min(b[0][a], b[1][a])) && r.End(a) == Trunc(Max(b[0][a], b[1][a]))
  {
    var lower := seq(3, a requires 0 <= a < 3 => Trunc(Min(b[0][a], b[1][a])));
    var upper := seq(3, a requires 0 <= a < 3 => Trunc(Max(b[0][a], b[1][a])) - 1);
    forall a | 0 <= a < 3
      ensures lower[a] <= upper[a] + 1
    {
      TruncMonotone(Min(b[0][a], b[1][a]), Max(b[0][a], b[1][a]));
    }
    WithUpperIndex(lower, upper)
  }

  /** image_to_block_region: rows [index, upper index + 1]. */
  function ImageToBlockRegion(r: ImageRegion): (b: Box)
    requires r.WellFormed() && r.Dim() == 3
    ensures IsOrdered(b) && IsWholeBox(b)
    ensures forall a :: 0 <= a < 3 ==> b[0][a] == r.index[a] as real && b[1][a] == r.End(a) as real
  {
    [seq(3, a requires 0 <= a < 3 => r.index[a] as real), seq(3, a requires 0 <= a < 3 => (r.UpperIndex(a) + 1) as real)]
  }

  /** An image region survives the trip through its bounds matrix. */
  lemma ImageBlockRoundTrip(r: ImageRegion)
    requires r.WellFormed() && r.Dim() == 3
    ensures BlockToImageRegion(ImageToBlockRegion(r)) == r
  {
    var q := BlockToImageRegion(ImageToBlockRegion(r));
    forall a | 0 <= a < 3
      ensures q.index[a] == r.index[a] && q.size[a] == r.size[a]
    {
      TruncOfWhole(r.index[a]);
      TruncOfWhole(r.End(a));
    }
    assert q.index == r.index;
    assert q.size == r.size;
  }

  /** A block with whole-number bounds survives the trip through an image region, normalized. */
  lemma BlockImageRoundTrip(b: Box)
    requires IsWholeBox(b)
    ensures ImageToBlockRegion(BlockToImageRegion(b)) == Normalize(b)
  {
    var q := ImageToBlockRegion(BlockToImageRegion(b));
    var n := Normalize(b);
    forall a | 0 <= a < 3
      ensures q[0][a] == n[0][a] && q[1][a] == n[1][a]
    {
      TruncOfWhole(b[0][a].Floor);
      TruncOfWhole(b[1][a].Floor);
    }
    assert q[0] == n[0];
    assert q[1] == n[1];
  }

  /** physical_to_image_region. */
  function PhysicalToImageRegion(p: Box, img: Image): (r: ImageRegion)
    ensures r.WellFormed() && r.Dim() == 3
  {
    BlockToImageRegion(PhysicalToBlockBox(p, img))
  }

  /** image_to_physical_region. */
  function ImageToPhysicalRegion(r: ImageRegion, img: Image, t: Option<Transform>): (p: Box)
    requires r.WellFormed() && r.Dim() == 3
    ensures IsOrdered(p)
  {
    BlockToPhysicalBox(ImageToBlockRegion(r), img, t)
  }

  /** An image region survives the trip to physical space and back. */
  lemma ImagePhysicalRoundTrip(r: ImageRegion, img: Image)
    requires r.WellFormed() && r.Dim() == 3
    ensures PhysicalToImageRegion(ImageToPhysicalRegion(r, img, None), img) == r
  {
    var b := ImageToBlockRegion(r);
    BlockPhysicalRoundTrip(b, img);
    NormalizeOrdered(b);
    ImageBlockRoundTrip(r);
  }

  // ---------------------------------------------------------------------
  // Block sizes
  // ---------------------------------------------------------------------

  function IntAbs(x: int): nat { if x < 0 then -x else x }

  /** numpy.abs(p - o). */
  function Magnitude(p: Point, o: Point): (m: Point)
    ensures forall i :: 0 <= i < 3 ==> m[i] == Abs(p[i] - o[i]) && m[i] >= 0.0
  {
    seq(3, i requires 0 <= i < 3 => Abs(p[i] - o[i]))
  }

  /**
   * block_to_physical_size: the block size truncated to whole voxels,
   * taken as an index, mapped to physical space and measured from the
   * image origin (both ends transformed when a transform is given).
   */
  function BlockToPhysicalSize(bs: Point, img: Image, t: Option<Transform>): (ps: Point)
    ensures forall i :: 0 <= i < 3 ==> ps[i] >= 0.0
  {
    var idx := seq(3, i requires 0 <= i < 3 => Trunc(bs[i]) as real);
    var p := IndexToPhysical(img, idx);
    if t.None? then Magnitude(p, img.origin) else Magnitude(Apply(t.value, p), Apply(t.value, img.origin))
  }

  /**
   * physical_to_block_size: the discrete index of origin + size, without
   * its sign.
   */
  function PhysicalToBlockSize(ps: Point, img: Image): (n: seq<nat>)
    ensures |n| == 3
    ensures forall c :: 0 <= c < 3 ==> n[c] == IntAbs(PhysicalToDiscreteIndex(img, Add(img.origin, ps))[c])
  {
    var idx := PhysicalToDiscreteIndex(img, Add(img.origin, ps));
    seq(3, c requires 0 <= c < 3 => IntAbs(idx[c]))
  }

  /** get_target_block_size. */
  function GetTargetBlockSize(bs: Point, src: Image, target: Image): (n: seq<nat>)
    ensures |n| == 3
  {
    PhysicalToBlockSize(BlockToPhysicalSize(bs, src, None), target)
  }

  /** The measured size of a whole step along one axis, solved back, is the step or its negation. */
  lemma SizeAxis(o: real, s: real, k: int)
    requires s != 0.0
    ensures RoundHalfUp(((o + Abs((o + s * k as real) - o)) - o) / s) == k
         || RoundHalfUp(((o + Abs((o + s * k as real) - o)) - o) / s) == -k
  {
    var d := (o + s * k as real) - o;
    assert d == s * k as real;
    var e := (o + Abs(d)) - o;
    assert e == Abs(d);
    if d >= 0.0 {
      assert e / s == k as real;
    } else {
      assert e == s * (-k) as real;
      assert e / s == (-k) as real;
    }
  }

  /**
   * Along index axis c, measuring a whole index k from the origin through
   * an AxisAffine map and solving back gives k or -k.
   */
  lemma AxisAffineSizeAxis(o: Point, st: Point, col: seq<nat>, row: seq<nat>, idx: Point, c: nat, k: int)
    requires AxisPairing(col, row)
    requires forall r :: 0 <= r < 3 ==> st[r] != 0.0
    requires c < 3 && idx[c] == k as real
    ensures var x := AxisAffineInverse(o, st, row, Add(o, Magnitude(AxisAffine(o, st, col, idx), o)));
      RoundHalfUp(x[c]) == k || RoundHalfUp(x[c]) == -k
  {
    var r := row[c];
    var a, s := o[r], st[r];
    var x := AxisAffineInverse(o, st, row, Add(o, Magnitude(AxisAffine(o, st, col, idx), o)));
    assert col[r] == c;
    assert x[c] == ((a + Abs((a + s * k as real) - a)) - a) / s;
    SizeAxis(a, s, k);
  }

  /**
   * Converting a block size to physical space and back within the same
   * image gives the truncated size along every axis, whatever the image's
   * spacing and direction.
   */
  lemma TargetBlockSizeSameImage(bs: Point, img: Image)
    ensures forall c :: 0 <= c < 3 ==> GetTargetBlockSize(bs, img, img)[c] == IntAbs(Trunc(bs[c]))
  {
    SignedPermutationPairing(img.direction);
    var idx := seq(3, i requires 0 <= i < 3 => Trunc(bs[i]) as real);
    forall c | 0 <= c < 3
      ensures GetTargetBlockSize(bs, img, img)[c] == IntAbs(Trunc(bs[c]))
    {
      AxisAffineSizeAxis(img.origin, Step(img), Cols(img.direction), Rows(img.direction), idx, c, Trunc(bs[c]));
    }
  }

  // ---------------------------------------------------------------------
  // Mapping a block between images
  // ---------------------------------------------------------------------

  /**
   * get_target_block_region: the block in `src` voxel space is taken to
   * physical space (through `t` when given) and into `target` voxel space;
   * with `crop` the result goes through an image region cropped to the
   * target's largest possible region.
   */
  function GetTargetBlockRegion(b: Box, src: Image, target: Image, t: Option<Transform>, crop: bool): (r: Box)
    ensures IsOrdered(r)
    ensures crop ==> IsWholeBox(r)
    ensures crop ==> var ir := BlockToImageRegion(r);
      Within(ir, target.largest) || !Overlaps(ir, target.largest)
  {
    var region := PhysicalToBlockBox(BlockToPhysicalBox(b, src, t), target);
    if !crop then region
    else
      var cropped := Crop(BlockToImageRegion(region), target.largest).0;
      ImageBlockRoundTrip(cropped);
      ImageToBlockRegion(cropped)
  }

  /** Mapping a block from an image into the same image, untransformed and uncropped, gives the normalized block. */
  lemma TargetBlockRegionSameImage(b: Box, img: Image)
    ensures GetTargetBlockRegion(b, img, img, None, false) == Normalize(b)
  {
    BlockPhysicalRoundTrip(b, img);
  }
}
