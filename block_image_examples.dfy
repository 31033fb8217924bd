/**
 * The grid-subdivision test cases of physical_region_to_itk_image: a
 * region that steps of the requested spacing divide exactly is covered by
 * exactly that many voxels, whether or not the grid may extend beyond it,
 * with voxel 0 centred half a step inside the lower bound.
 */
module BlockImageExamples {
  import opened Wrappers
  import opened Geometry
  import opened ImageMeta
  import opened Regions
  import opened Convert
  import opened BlockImage
  import opened TransformCollectionExamples

  /** n steps of k over the span, as a product the solver can match. */
  function Steps(n: nat, k: real): real
  {
    n as real * k
  }

  /** n steps of k, divided by k, are n. */
  lemma StepsOver(n: nat, k: real)
    requires k > 0.0
    ensures Steps(n, k) / k == n as real
  {
  }

  /** A span of n steps of k, centred at m, puts voxel 0's centre half a step past the lower bound. */
  lemma CentredOrigin(lo: real, k: real, n: nat, m: real)
    requires m == (lo + (lo + Steps(n, k))) / 2.0
    ensures (m - (n as real / 2.0) * k) + 0.5 * k == lo + k / 2.0
  {
  }

  /**
   * Along an axis whose bounds are n steps of k apart, an identity-direction
   * grid of spacing k has n voxels, rounded up or down alike, and its
   * origin is half a step inside the lower bound.
   */
  lemma EvenGridAxis(b: Box, s: Point, extendBeyond: bool, r: nat, lo: real, k: real, n: nat)
    requires k > 0.0 && s[0] == k && s[1] == k && s[2] == k && r < 3
    requires b[0][r] == lo && b[1][r] == lo + Steps(n, k)
    ensures GridImage(b, s, Identity, extendBeyond).largest.size[r] == n
    ensures GridImage(b, s, Identity, extendBeyond).origin[r] == lo + k / 2.0
  {
    assert Col(Identity, r) == r;
    PhysicalStepAxis(Identity, s, r);
    PhysicalStepNonzero(Identity, s);
    GridImageSize(b, s, Identity, extendBeyond, r);
    assert Span(b, r) == Steps(n, k);
    StepsOver(n, k);
    assert GridCount(n as real, extendBeyond) == n;
    var m := Midpoint(b)[r];
    CentredOrigin(lo, k, n, m);
    GridImageOrigin(b, s, Identity, extendBeyond, r, m, k, n);
  }

  /** The 10-voxel unit image samples from -0.5 to 9.5, ten unit steps, along every axis. */
  lemma TenVoxelBounds(img: Image, r: nat)
    requires img == UnitDomain(Zero, 10) && r < 3
    ensures GetSampleBounds(img, None)[0][r] == -0.5
    ensures GetSampleBounds(img, None)[1][r] == -0.5 + Steps(10, 1.0)
    ensures GetSampleBounds(img, None)[1][r] == -0.5 + Steps(5, 2.0)
  {
    UnitDomainGeometry(Zero, 10, Zero, r);
  }

  /**
   * A 10-voxel unit image resampled at scale 2 without extending beyond
   * its sample bounds: five voxels of spacing 2 per axis, the first
   * centred at 0.5.
   */
  lemma DownscaleExample(img: Image, s: Point, r: nat)
    requires img == UnitDomain(Zero, 10) && r < 3
    requires s[0] == 2.0 && s[1] == 2.0 && s[2] == 2.0
    ensures PhysicalRegionToItkImage(GetSampleBounds(img, None), s, img.direction, false).Ok?
    ensures var out := PhysicalRegionToItkImage(GetSampleBounds(img, None), s, img.direction, false).value;
      out.spacing == s && out.largest.size[r] == 5 && out.origin[r] == 0.5
  {
    TenVoxelBounds(img, r);
    EvenGridAxis(GetSampleBounds(img, None), s, false, r, -0.5, 2.0, 5);
  }

  /** The same image resampled at scale 1 keeps its size, origin and spacing. */
  lemma NoRescaleExample(img: Image, s: Point, r: nat)
    requires img == UnitDomain(Zero, 10) && r < 3
    requires s[0] == 1.0 && s[1] == 1.0 && s[2] == 1.0
    ensures PhysicalRegionToItkImage(GetSampleBounds(img, None), s, img.direction, false).Ok?
    ensures var out := PhysicalRegionToItkImage(GetSampleBounds(img, None), s, img.direction, false).value;
      out.spacing == img.spacing && out.largest.size[r] == img.largest.size[r] && out.origin[r] == img.origin[r]
  {
    assert img.spacing == s && img.largest.size[r] == 10 && img.origin[r] == 0.0;
    TenVoxelBounds(img, r);
    EvenGridAxis(GetSampleBounds(img, None), s, false, r, -0.5, 1.0, 10);
  }

  /** A unit image: origin 0, unit spacing, identity direction, over the given largest region. */
  function UnitImage(largest: ImageRegion): Image
    requires largest.WellFormed() && largest.Dim() == 3
  {
    ImageMetadata(Zero, [1.0, 1.0, 1.0], Identity, largest)
  }

  /**
   * In a unit image, a region from index i with n voxels on axis r covers
   * [i - 0.5, i + n - 0.5] physically.
   */
  lemma UnitRegionAxis(img: Image, region: ImageRegion, r: nat, i: int, n: nat)
    requires img.origin == Zero && img.spacing == [1.0, 1.0, 1.0] && img.direction == Identity
    requires region.WellFormed() && region.Dim() == 3 && r < 3
    requires region.index[r] == i && region.size[r] == n
    ensures ImageToPhysicalRegion(region, img, None)[0][r] == i as real - 0.5
    ensures ImageToPhysicalRegion(region, img, None)[1][r] == i as real + n as real - 0.5
  {
    assert Col(Identity, r) == r;
    PhysicalStepAxis(img.direction, img.spacing, r);
    RegionPhysicalBounds(img, region, r, 0.0, 1.0, i as real - 0.5, (i + n) as real - 0.5);
  }

  /**
   * The offset-image test: a unit image of 10 voxels from index 10, whose
   * physical region image_to_physical_region gives as 9.5 to 19.5 on each
   * axis, resampled at scale 2 without extension has spacing 2 and five
   * voxels per axis, the first centred at 10.5.
   */
  lemma OffsetDownscaleAxis(img: Image, s: Point, r: nat)
    requires img == UnitImage(ImageRegion([10, 10, 10], [10, 10, 10])) && r < 3
    requires s[0] == 2.0 && s[1] == 2.0 && s[2] == 2.0
    ensures ImageToPhysicalRegion(img.largest, img, None)[0][r] == 9.5
    ensures ImageToPhysicalRegion(img.largest, img, None)[1][r] == 19.5
    ensures PhysicalRegionToItkImage(ImageToPhysicalRegion(img.largest, img, None), s, img.direction, false).Ok?
    ensures var out := PhysicalRegionToItkImage(ImageToPhysicalRegion(img.largest, img, None), s, img.direction, false).value;
      out.spacing == s && out.largest.size[r] == 5 && out.origin[r] == 10.5
  {
    UnitRegionAxis(img, img.largest, r, 10, 10);
    EvenGridAxis(ImageToPhysicalRegion(img.largest, img, None), s, false, r, 9.5, 2.0, 5);
  }

  /**
   * The requested-region test: indices 1 to 10 of a 100-voxel unit image
   * lie inside it and sample [0.5, 10.5] on each axis; resampled at scale 2
   * without extension the grid has five voxels, the first centred at 1.5,
   * and its sample bounds are the requested region's physical bounds again.
   */
  lemma RequestedRegionAxis(img: Image, req: ImageRegion, s: Point, r: nat)
    requires img == UnitImage(ImageRegion([0, 0, 0], [100, 100, 100])) && r < 3
    requires req == ImageRegion([1, 1, 1], [10, 10, 10])
    requires s[0] == 2.0 && s[1] == 2.0 && s[2] == 2.0
    ensures IsInside(img.largest, req)
    ensures ImageToPhysicalRegion(req, img, None)[0][r] == 0.5
    ensures ImageToPhysicalRegion(req, img, None)[1][r] == 10.5
    ensures PhysicalRegionToItkImage(ImageToPhysicalRegion(req, img, None), s, img.direction, false).Ok?
    ensures var out := PhysicalRegionToItkImage(ImageToPhysicalRegion(req, img, None), s, img.direction, false).value;
      out.spacing == s && out.largest.size[r] == 5 && out.origin[r] == 1.5
      && GetSampleBounds(out, None)[0][r] == ImageToPhysicalRegion(req, img, None)[0][r]
      && GetSampleBounds(out, None)[1][r] == ImageToPhysicalRegion(req, img, None)[1][r]
  {
    CubeInside(img.largest, req, 0, 100, 1, 10);
    UnitRegionAxis(img, req, r, 1, 10);
    RescaledRegionAxis(ImageToPhysicalRegion(req, img, None), s, r);
  }

  /** A cube of n voxels from index i lies inside a cube of m voxels from index o when it is non-empty and within it. */
  lemma CubeInside(outer: ImageRegion, inner: ImageRegion, o: int, m: nat, i: int, n: nat)
    requires outer == ImageRegion([o, o, o], [m, m, m]) && inner == ImageRegion([i, i, i], [n, n, n])
    requires o <= i && 0 < n && i + n <= o + m
    ensures IsInside(outer, inner)
  {
    forall a | 0 <= a < 3
      ensures outer.index[a] <= inner.index[a] && inner.size[a] != 0 && inner.End(a) <= outer.End(a)
    {
      assert inner.End(a) == i + n && outer.End(a) == o + m;
    }
  }

  /**
   * A box spanning [0.5, 10.5] on axis r, gridded at spacing 2 under the
   * identity direction without extension: five voxels, the first centred
   * at 1.5, sampling [0.5, 10.5] again.
   */
  lemma RescaledRegionAxis(bounds: Box, s: Point, r: nat)
    requires r < 3 && bounds[0][r] == 0.5 && bounds[1][r] == 10.5
    requires s[0] == 2.0 && s[1] == 2.0 && s[2] == 2.0
    ensures PhysicalRegionToItkImage(bounds, s, Identity, false).Ok?
    ensures var out := PhysicalRegionToItkImage(bounds, s, Identity, false).value;
      out.spacing == s && out.largest.size[r] == 5 && out.origin[r] == 1.5
      && GetSampleBounds(out, None)[0][r] == 0.5 && GetSampleBounds(out, None)[1][r] == 10.5
  {
    EvenGridAxis(bounds, s, false, r, 0.5, 2.0, 5);
    PhysicalStepAxis(Identity, s, r);
    PhysicalStepNonzero(Identity, s);
    assert Col(Identity, r) == r;
    GridImageSampleBounds(bounds, s, Identity, false, r, Midpoint(bounds)[r], PhysicalStep(Identity, s)[r], 5);
    assert HalfWidth(5, 2.0) == 5.0;
  }

  /** A region 15 units across on axis r, gridded in steps of 2 with extension, takes 8 voxels and samples half a unit past each edge. */
  lemma ExtendedGridAxis(b: Box, s: Point, d: Matrix3, r: nat, lo: real)
    requires SignedPermutation(d) && r < 3
    requires s[0] == 2.0 && s[1] == 2.0 && s[2] == 2.0
    requires b[0][r] == lo && b[1][r] == lo + 15.0
    ensures Col(d, r) < 3 && GridImage(b, s, d, true).largest.size[Col(d, r)] == 8
    ensures GetSampleBounds(GridImage(b, s, d, true), None)[0][r] == lo - 0.5
    ensures GetSampleBounds(GridImage(b, s, d, true), None)[1][r] == lo + 15.5
  {
    ExtendedGridCount(b, s, d, r, lo);
    PhysicalStepAxis(d, s, r);
    PhysicalStepNonzero(d, s);
    var st := PhysicalStep(d, s)[r];
    assert Abs(st) == 2.0;
    GridImageSampleBounds(b, s, d, true, r, Midpoint(b)[r], st, 8);
    assert HalfWidth(8, st) == 8.0;
  }

  /** The voxel count of that grid along the index axis r follows: 7.5 steps, rounded up. */
  lemma ExtendedGridCount(b: Box, s: Point, d: Matrix3, r: nat, lo: real)
    requires SignedPermutation(d) && r < 3
    requires s[0] == 2.0 && s[1] == 2.0 && s[2] == 2.0
    requires b[0][r] == lo && b[1][r] == lo + 15.0
    ensures Col(d, r) < 3 && GridImage(b, s, d, true).largest.size[Col(d, r)] == 8
    ensures GridSize(b, PhysicalStep(d, s), true)[r] == 8
  {
    RowAxis(d, r);
    PhysicalStepAxis(d, s, r);
    PhysicalStepNonzero(d, s);
    var st := PhysicalStep(d, s)[r];
    assert Abs(st) == 2.0;
    GridImageSize(b, s, d, true, r);
    assert Span(b, r) / Abs(st) == 7.5;
    assert GridCount(7.5, true) == 8;
  }

  /** The rotated direction of the direction test: I to Y, J to -Z, K to -X. */
  const Rotated: Matrix3 := [[0.0, 0.0, -1.0], [1.0, 0.0, 0.0], [0.0, -1.0, 0.0]]

  /**
   * In the rotated 100-voxel unit image, indices 25 to 39 on the index axis
   * physical axis r follows cover 15 units: [-39.5, -24.5] on the X and Z
   * axes, whose steps are -1, and [24.5, 39.5] on the Y axis.
   */
  lemma RotatedRegionAxis(img: Image, req: ImageRegion, r: nat)
    requires img == ImageMetadata(Zero, [1.0, 1.0, 1.0], Rotated, ImageRegion([0, 0, 0], [100, 100, 100]))
    requires req == ImageRegion([25, 25, 25], [15, 15, 15]) && r < 3
    ensures ImageToPhysicalRegion(req, img, None)[0][r] == (if r == 1 then 24.5 else -39.5)
    ensures ImageToPhysicalRegion(req, img, None)[1][r] == (if r == 1 then 39.5 else -24.5)
  {
    assert Col(Rotated, 0) == 2 && Col(Rotated, 1) == 0 && Col(Rotated, 2) == 1;
    PhysicalStepAxis(img.direction, img.spacing, r);
    var st := if r == 1 then 1.0 else -1.0;
    assert Step(img)[r] == st;
    RegionPhysicalBounds(img, req, r, 0.0, st, 24.5, 39.5);
  }

  /**
   * The direction test: in a 100-voxel unit image with the rotated
   * direction, index 25 lies at (-25, 25, -25), and the region of 15
   * voxels from index 25 lies inside the image and covers
   * [-39.5, -24.5] x [24.5, 39.5] x [-39.5, -24.5]. Gridded at spacing 2
   * under the same direction with extension, it takes 8 voxels on every
   * axis, with origin (-25, 25, -25), sampling
   * [-40, -24] x [24, 40] x [-40, -24].
   */
  lemma RotatedGridExample(img: Image, req: ImageRegion, s: Point)
    requires img == ImageMetadata(Zero, [1.0, 1.0, 1.0], Rotated, ImageRegion([0, 0, 0], [100, 100, 100]))
    requires req == ImageRegion([25, 25, 25], [15, 15, 15])
    requires s[0] == 2.0 && s[1] == 2.0 && s[2] == 2.0
    ensures IndexToPhysical(img, [25.0, 25.0, 25.0]) == [-25.0, 25.0, -25.0]
    ensures IsInside(img.largest, req)
    ensures ImageToPhysicalRegion(req, img, None) == [[-39.5, 24.5, -39.5], [-24.5, 39.5, -24.5]]
    ensures PhysicalRegionToItkImage(ImageToPhysicalRegion(req, img, None), s, Rotated, true).Ok?
    ensures var out := PhysicalRegionToItkImage(ImageToPhysicalRegion(req, img, None), s, Rotated, true).value;
      out.direction == img.direction && out.spacing == s && out.largest.size == [8, 8, 8]
      && out.origin == [-25.0, 25.0, -25.0]
      && GetSampleBounds(out, None) == [[-40.0, 24.0, -40.0], [-24.0, 40.0, -24.0]]
  {
    RotatedRegionExample(img, req);
    RotatedGrid(ImageToPhysicalRegion(req, img, None), s);
  }

  /** The region half of the direction test: the index point, the containment and the physical box. */
  lemma RotatedRegionExample(img: Image, req: ImageRegion)
    requires img == ImageMetadata(Zero, [1.0, 1.0, 1.0], Rotated, ImageRegion([0, 0, 0], [100, 100, 100]))
    requires req == ImageRegion([25, 25, 25], [15, 15, 15])
    ensures IndexToPhysical(img, [25.0, 25.0, 25.0]) == [-25.0, 25.0, -25.0]
    ensures IsInside(img.largest, req)
    ensures ImageToPhysicalRegion(req, img, None) == [[-39.5, 24.5, -39.5], [-24.5, 39.5, -24.5]]
  {
    RotatedIndex(img);
    CubeInside(img.largest, req, 0, 100, 25, 15);
    RotatedRegionAxis(img, req, 0);
    RotatedRegionAxis(img, req, 1);
    RotatedRegionAxis(img, req, 2);
    BoxOfCorners(ImageToPhysicalRegion(req, img, None), [-39.5, 24.5, -39.5], [-24.5, 39.5, -24.5]);
  }

  /**
   * The grid half of the direction test: the box
   * [-39.5, -24.5] x [24.5, 39.5] x [-39.5, -24.5] under the rotated
   * direction at spacing 2, extended, takes 8 voxels per axis from origin
   * (-25, 25, -25) and samples [-40, -24] x [24, 40] x [-40, -24].
   */
  lemma RotatedGrid(b: Box, s: Point)
    requires b == [[-39.5, 24.5, -39.5], [-24.5, 39.5, -24.5]]
    requires s[0] == 2.0 && s[1] == 2.0 && s[2] == 2.0
    ensures PhysicalRegionToItkImage(b, s, Rotated, true).Ok?
    ensures var out := PhysicalRegionToItkImage(b, s, Rotated, true).value;
      out.direction == Rotated && out.spacing == s && out.largest.size == [8, 8, 8]
      && out.origin == [-25.0, 25.0, -25.0]
      && GetSampleBounds(out, None) == [[-40.0, 24.0, -40.0], [-24.0, 40.0, -24.0]]
  {
    RotatedGridShape(b, s);
    RotatedGridBounds(b, s);
  }

  /** The size and origin of the rotated grid. */
  lemma RotatedGridShape(b: Box, s: Point)
    requires b == [[-39.5, 24.5, -39.5], [-24.5, 39.5, -24.5]]
    requires s[0] == 2.0 && s[1] == 2.0 && s[2] == 2.0
    ensures PhysicalRegionToItkImage(b, s, Rotated, true).Ok?
    ensures var out := GridImage(b, s, Rotated, true);
      out.direction == Rotated && out.spacing == s && out.largest.size == [8, 8, 8]
      && out.origin == [-25.0, 25.0, -25.0]
  {
    assert SignedPermutation(Rotated);
    assert Col(Rotated, 0) == 2 && Col(Rotated, 1) == 0 && Col(Rotated, 2) == 1;
    ExtendedGridCount(b, s, Rotated, 0, -39.5);
    ExtendedGridCount(b, s, Rotated, 1, 24.5);
    ExtendedGridCount(b, s, Rotated, 2, -39.5);
    RotatedOrigin(b, s, 0, -32.0, -2.0);
    RotatedOrigin(b, s, 1, 32.0, 2.0);
    RotatedOrigin(b, s, 2, -32.0, -2.0);
  }

  /** The sample bounds of the rotated grid. */
  lemma RotatedGridBounds(b: Box, s: Point)
    requires b == [[-39.5, 24.5, -39.5], [-24.5, 39.5, -24.5]]
    requires s[0] == 2.0 && s[1] == 2.0 && s[2] == 2.0
    ensures GetSampleBounds(GridImage(b, s, Rotated, true), None) == [[-40.0, 24.0, -40.0], [-24.0, 40.0, -24.0]]
  {
    assert SignedPermutation(Rotated);
    ExtendedGridAxis(b, s, Rotated, 0, -39.5);
    ExtendedGridAxis(b, s, Rotated, 1, 24.5);
    ExtendedGridAxis(b, s, Rotated, 2, -39.5);
    BoxOfCorners(GetSampleBounds(GridImage(b, s, Rotated, true), None), [-40.0, 24.0, -40.0], [-24.0, 40.0, -24.0]);
  }

  /** A box is its two corners, compared coordinate by coordinate. */
  lemma BoxOfCorners(g: Box, lo: Point, hi: Point)
    requires g[0][0] == lo[0] && g[0][1] == lo[1] && g[0][2] == lo[2]
    requires g[1][0] == hi[0] && g[1][1] == hi[1] && g[1][2] == hi[2]
    ensures g == [lo, hi]
  {
    assert g[0] == lo && g[1] == hi;
  }

  /** Index 25 on every axis of the rotated unit image lies at (-25, 25, -25). */
  lemma RotatedIndex(img: Image)
    requires img == ImageMetadata(Zero, [1.0, 1.0, 1.0], Rotated, ImageRegion([0, 0, 0], [100, 100, 100]))
    ensures IndexToPhysical(img, [25.0, 25.0, 25.0]) == [-25.0, 25.0, -25.0]
  {
    assert Col(Rotated, 0) == 2 && Col(Rotated, 1) == 0 && Col(Rotated, 2) == 1;
    var q := [25.0, 25.0, 25.0];
    forall r | 0 <= r < 3
      ensures IndexToPhysical(img, q)[r] == [-25.0, 25.0, -25.0][r]
    {
      PhysicalStepAxis(img.direction, img.spacing, r);
      IndexToPhysicalAt(img, q, r, 0.0, Step(img)[r], 25.0);
    }
  }

  /**
   * The origin of the extended rotated grid on axis r: 8 voxels of signed
   * step st centred on the box midpoint m put voxel 0 at m - 3.5 st.
   */
  lemma RotatedOrigin(b: Box, s: Point, r: nat, m: real, st: real)
    requires s[0] == 2.0 && s[1] == 2.0 && s[2] == 2.0 && r < 3
    requires b == [[-39.5, 24.5, -39.5], [-24.5, 39.5, -24.5]]
    requires m == Midpoint(b)[r] && st == PhysicalStep(Rotated, s)[r]
    ensures GridImage(b, s, Rotated, true).origin[r] == m - 3.5 * st
  {
    assert SignedPermutation(Rotated);
    assert Col(Rotated, 0) == 2 && Col(Rotated, 1) == 0 && Col(Rotated, 2) == 1;
    PhysicalStepNonzero(Rotated, s);
    ExtendedGridCount(b, s, Rotated, r, b[0][r]);
    GridImageOrigin(b, s, Rotated, true, r, m, st, 8);
  }
}
