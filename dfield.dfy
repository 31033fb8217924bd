/**
 * Sampling a transform collection into a displacement field: a vector
 * image laid over the reference image's initially-transformed bounds,
 * holding at every voxel the distance the collection moves that voxel's
 * physical point.
 */
module DisplacementFields {
  import opened Wrappers
  import opened Geometry
  import opened Regions
  import opened ImageMeta
  import opened Transforms
  import opened Convert
  import opened BlockImage
  import opened NdIndex
  import opened TransformCollections

  /** A grid position of a three-axis image as a continuous index. */
  function IndexPoint(idx: seq<nat>): (x: Point)
    requires |idx| == 3
    ensures forall a :: 0 <= a < 3 ==> x[a] == idx[a] as real
  {
    seq(3, a requires 0 <= a < 3 => idx[a] as real)
  }

  /** TransformIndexToPhysicalPoint on a whole-number index. */
  function VoxelPoint(img: Image, idx: seq<nat>): Point
    requires |idx| == 3
  {
    IndexToPhysical(img, IndexPoint(idx))
  }

  /**
   * An itk.Image of three-component double vectors whose buffered region
   * starts at index 0: its metadata and its pixel buffer, one vector per
   * voxel, stored at the voxel's row-major position in the grid.
   */
  class VectorImage {
    const meta: Image
    const buffer: array<Point>

    /** The buffer holds exactly one vector per voxel. */
    predicate Valid()
    {
      buffer.Length == Product(meta.largest.size)
    }

    /** Allocate: a buffer of one (unspecified) vector per voxel. */
    constructor (m: Image)
      ensures meta == m && Valid() && fresh(buffer)
    {
      meta := m;
      buffer := new Point[Product(m.largest.size)];
    }

    /** FillBuffer: every voxel holds `v`. */
    method FillBuffer(v: Point)
      modifies buffer
      ensures forall k :: 0 <= k < buffer.Length ==> buffer[k] == v
    {
      var k := 0;
      while k < buffer.Length
        invariant 0 <= k <= buffer.Length
        invariant forall j :: 0 <= j < k ==> buffer[j] == v
      {
        buffer[k] := v;
        k := k + 1;
      }
    }

    /** SetPixel: the voxel at `idx` holds `v` and no other voxel changes. */
    method SetPixel(idx: seq<nat>, v: Point)
      requires Valid() && InGrid(idx, meta.largest.size)
      modifies buffer
      ensures Ravel(idx, meta.largest.size) < buffer.Length
      ensures buffer[..] == old(buffer[..])[Ravel(idx, meta.largest.size) := v]
    {
      RavelInRange(idx, meta.largest.size);
      buffer[Ravel(idx, meta.largest.size)] := v;
    }
  }

  /** itk.DisplacementFieldTransform: the transform that owns a displacement field. */
  datatype DisplacementFieldTransform = DisplacementFieldTransform(field: VectorImage)

  /** Every voxel of `field` holds the displacement `c` gives the voxel's physical point. */
  predicate SampledFrom(field: VectorImage, c: TransformCollection)
    requires field.Valid()
    reads c, field.buffer
  {
    forall k :: 0 <= k < field.buffer.Length ==>
      field.buffer[k] == Displacement(c, VoxelPoint(field.meta, Unravel(k, field.meta.largest.size)))
  }

  /**
   * What the collection moves the point `p` by: the transformed point less
   * `p`, or the zero vector when the collection cannot map `p`.
   */
  function Displacement(c: TransformCollection, p: Point): (d: Point)
    reads c
    ensures c.TransformPoint(p).Ok? ==> Add(p, d) == c.TransformPoint(p).value
    ensures c.TransformPoint(p).Err? ==> d == Zero
  {
    EntriesDisplacement(c.entries, c.blend, p)
  }

  /** The displacement of `p` under a collection holding `entries` and blending by `blend`. */
  function EntriesDisplacement(entries: seq<TransformEntry>, blend: BlendMethod, p: Point): (d: Point)
    ensures |Contributors(entries, p)| > 0 ==> Add(p, d) == Blend(blend, p, Contributors(entries, p))
    ensures |Contributors(entries, p)| == 0 ==> d == Zero
  {
    var cs := Contributors(entries, p);
    if |cs| == 0 then Zero
    else
      var q := Blend(blend, p, cs);
      assert Add(p, Sub(q, p)) == q;
      Sub(q, p)
  }

  /** Reference spacing times scale factor on every axis. */
  function ScaledSpacing(spacing: Point, scaleFactors: Point): (s: Point)
    ensures forall a :: 0 <= a < 3 ==> s[a] == spacing[a] * scaleFactors[a]
  {
    seq(3, a requires 0 <= a < 3 => spacing[a] * scaleFactors[a])
  }

  /** The reference's largest region in physical space, through the initial transform. */
  function InitialBounds(reference: Image, initial: Transform): (b: Box)
    ensures IsOrdered(b)
  {
    ImageToPhysicalRegion(reference.largest, reference, Some(initial))
  }

  /**
   * The output field's metadata: a grid with the scaled spacing and the
   * reference's direction, extended beyond the reference's initially
   * transformed bounds; an AssertionError when a scaled spacing is close
   * to zero.
   */
  function FieldGrid(reference: Image, initial: Transform, scaleFactors: Point): (r: Result<Image>)
    ensures r.Err? <==> !SpacingAccepted(ScaledSpacing(reference.spacing, scaleFactors))
    ensures r.Err? ==> r.error.AssertionError?
    ensures r.Ok? ==> r.value.spacing == ScaledSpacing(reference.spacing, scaleFactors)
    ensures r.Ok? ==> r.value.direction == reference.direction && r.value.largest.index == [0, 0, 0]
    ensures r.Ok? ==> r.value == GridImage(InitialBounds(reference, initial), ScaledSpacing(reference.spacing, scaleFactors), reference.direction, true)
  {
    RowsOfPermutation(reference.direction);
    PhysicalRegionToItkImage(InitialBounds(reference, initial), ScaledSpacing(reference.spacing, scaleFactors), reference.direction, true)
  }

  /** A signed permutation has entries in {-1, 0, 1} and no zero row. */
  lemma RowsOfPermutation(d: Matrix3)
    requires SignedPermutation(d)
    ensures UnitEntries(d) && RowsNonzero(d) && NoShear(d)
  {
  }

  /**
   * collection_to_deformation_field_transform: lays the output grid over
   * the reference, fills it with the zero vector, then stores at every
   * voxel, in numpy.ndindex order, the collection's displacement of the
   * voxel's physical point; a voxel the collection cannot map keeps the
   * zero vector. The result owns the filled field.
   */
  method CollectionToDeformationFieldTransform(c: TransformCollection, reference: Image, initial: Transform, scaleFactors: Point)
    returns (res: Result<DisplacementFieldTransform>)
    ensures res.Err? <==> FieldGrid(reference, initial, scaleFactors).Err?
    ensures res.Err? ==> res.error.AssertionError?
    ensures res.Ok? ==> fresh(res.value.field) && fresh(res.value.field.buffer) && res.value.field.Valid()
    ensures res.Ok? ==> res.value.field.meta == FieldGrid(reference, initial, scaleFactors).value
    ensures res.Ok? ==> SampledFrom(res.value.field, c)
  {
    var grid := FieldGrid(reference, initial, scaleFactors);
    if grid.Err? {
      return Err(grid.error);
    }
    var field := new VectorImage(grid.value);
    field.FillBuffer(Zero);
    SampleInto(c, field);
    return Ok(DisplacementFieldTransform(field));
  }

  /**
   * The sampling loop: visits every voxel of a zero-filled field in
   * numpy.ndindex order and stores the collection's displacement of its
   * physical point, leaving the zero vector where the collection cannot
   * map the point.
   */
  method SampleInto(c: TransformCollection, field: VectorImage)
    requires field.Valid()
    requires forall k :: 0 <= k < field.buffer.Length ==> field.buffer[k] == Zero
    modifies field.buffer
    ensures forall k :: 0 <= k < field.buffer.Length ==>
      field.buffer[k] == Displacement(c, VoxelPoint(field.meta, Unravel(k, field.meta.largest.size)))
  {
    var n := field.buffer.Length;
    ghost var entries, blend := c.entries, c.blend;
    var k := 0;
    while k < n
      invariant 0 <= k <= n && n == field.buffer.Length
      invariant forall j :: 0 <= j < k ==>
        field.buffer[j] == EntriesDisplacement(entries, blend, VoxelPoint(field.meta, Unravel(j, field.meta.largest.size)))
      invariant forall j :: k <= j < n ==> field.buffer[j] == Zero
    {
      SampleVoxel(c, field, k);
      k := k + 1;
    }
  }

  /**
   * One step of the sampling loop: voxel `k` of a field still holding zero
   * there takes the displacement of its physical point, if the collection
   * maps that point; no other voxel changes.
   */
  method SampleVoxel(c: TransformCollection, field: VectorImage, k: nat)
    requires field.Valid() && k < field.buffer.Length && field.buffer[k] == Zero
    modifies field.buffer
    ensures field.buffer[..] == old(field.buffer[..])[k := EntriesDisplacement(c.entries, c.blend, VoxelPoint(field.meta, Unravel(k, field.meta.largest.size)))]
  {
    var size := field.meta.largest.size;
    var idx := Unravel(k, size);
    var p := VoxelPoint(field.meta, idx);
    var q := c.TransformPoint(p);
    RavelUnravel(k, size);
    if q.Ok? {
      field.SetPixel(idx, Sub(q.value, p));
    } else {
      assert old(field.buffer[..])[k := Zero] == old(field.buffer[..]);
    }
  }

  /** An unbounded translation by `offset` displaces every point by exactly `offset`. */
  lemma UnboundedTranslationDisplacement(c: TransformCollection, offset: Point, p: Point)
    requires c.entries == [TransformEntry(Translation(offset), None)]
    ensures Displacement(c, p) == offset
  {
    var e := TransformEntry(Translation(offset), None);
    assert [e][..0] == [];
    assert Contributors(c.entries, p) == [e];
    BlendSingle(c.blend, p, e);
    assert Sub(Add(p, offset), p) == offset;
  }

  /** A point outside every entry's domain is displaced by nothing. */
  lemma OutsideAllDomainsDisplacement(c: TransformCollection, p: Point)
    requires forall i :: 0 <= i < |c.entries| ==> !Contributes(c.entries[i], p)
    ensures Displacement(c, p) == Zero
  {
  }

  /** Along each physical axis the field's grid covers the initially transformed reference bounds, overshooting by less than half a scaled step. */
  lemma FieldGridCoversReference(reference: Image, initial: Transform, scaleFactors: Point, r: nat)
    requires FieldGrid(reference, initial, scaleFactors).Ok? && r < 3
    ensures var b, sb := InitialBounds(reference, initial), GetSampleBounds(FieldGrid(reference, initial, scaleFactors).value, None);
      var half := Abs(ScaledSpacing(reference.spacing, scaleFactors)[Col(reference.direction, r)]) / 2.0;
      b[0][r] - half < sb[0][r] <= b[0][r] && b[1][r] <= sb[1][r] < b[1][r] + half
  {
    var s := ScaledSpacing(reference.spacing, scaleFactors);
    assert s[0] != 0.0 && s[1] != 0.0 && s[2] != 0.0;
    GridImageCoversRegion(InitialBounds(reference, initial), s, reference.direction, true, r);
  }
}
