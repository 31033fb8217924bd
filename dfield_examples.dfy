/**
 * The displacement-field test case: a 10x10x10 unit-spacing reference
 * sampled at scale factor 2 under the identity initial translation gives
 * a 5x5x5 field, and an unbounded translation fills it with its offset.
 */
module DisplacementFieldExamples {
  import opened Wrappers
  import opened Geometry
  import opened Regions
  import opened ImageMeta
  import opened Transforms
  import opened Convert
  import opened BlockImage
  import opened NdIndex
  import opened TransformCollections
  import opened TransformCollectionExamples
  import opened DisplacementFields

  /** Under a zero translation the initial bounds of an image are its own sample bounds. */
  lemma InitialBoundsOfZeroTranslation(reference: Image, initial: Transform, a: nat)
    requires initial == Translation(Zero) && a < 3
    ensures InitialBounds(reference, initial)[0][a] == GetSampleBounds(reference, None)[0][a]
    ensures InitialBounds(reference, initial)[1][a] == GetSampleBounds(reference, None)[1][a]
  {
    var phys := IndexBoxToPhysical(reference, ShiftBox(Normalize(ImageToBlockRegion(reference.largest)), -HalfVoxelStep));
    BoundingBoxOfTranslationAxis(phys, Zero, a);
  }

  /** The 10-voxel unit reference spans ten units along every axis. */
  lemma ReferenceSpan(reference: Image, initial: Transform, a: nat)
    requires reference == UnitDomain(Zero, 10) && initial == Translation(Zero) && a < 3
    ensures Span(InitialBounds(reference, initial), a) == 10.0
  {
    InitialBoundsOfZeroTranslation(reference, initial, a);
    UnitDomainGeometry(Zero, 10, Zero, a);
  }

  /** A grid of steps of 2 over a span of ten units has five voxels along that axis. */
  lemma GridOfTenInStepsOfTwo(b: Box, s: Point, r: nat)
    requires s[0] == 2.0 && s[1] == 2.0 && s[2] == 2.0 && r < 3 && Span(b, r) == 10.0
    ensures GridImage(b, s, Identity, true).largest.size[r] == 5
  {
    assert Col(Identity, r) == r;
    PhysicalStepAxis(Identity, s, r);
    GridImageSize(b, s, Identity, true, r);
    assert Span(b, r) / Abs(PhysicalStep(Identity, s)[r]) == 5.0;
  }

  /** Scale factor 2 on a unit spacing halves the voxel count along an axis: ten units in steps of 2. */
  lemma ScaledAxisSize(reference: Image, initial: Transform, scaleFactors: Point, r: nat)
    requires reference == UnitDomain(Zero, 10) && initial == Translation(Zero) && r < 3
    requires scaleFactors == [2.0, 2.0, 2.0]
    ensures FieldGrid(reference, initial, scaleFactors).Ok?
    ensures FieldGrid(reference, initial, scaleFactors).value.largest.size[r] == 5
  {
    var s := ScaledSpacing(reference.spacing, scaleFactors);
    assert s[0] == 2.0 && s[1] == 2.0 && s[2] == 2.0;
    ReferenceSpan(reference, initial, r);
    GridOfTenInStepsOfTwo(InitialBounds(reference, initial), s, r);
  }

  /** The test's output field has five voxels along every axis. */
  lemma FieldSizeExample(reference: Image, initial: Transform, scaleFactors: Point)
    requires reference == UnitDomain(Zero, 10) && initial == Translation(Zero)
    requires scaleFactors == [2.0, 2.0, 2.0]
    ensures FieldGrid(reference, initial, scaleFactors).Ok?
    ensures FieldGrid(reference, initial, scaleFactors).value.largest.size == [5, 5, 5]
  {
    ScaledAxisSize(reference, initial, scaleFactors, 0);
    ScaledAxisSize(reference, initial, scaleFactors, 1);
    ScaledAxisSize(reference, initial, scaleFactors, 2);
  }

  /** Every voxel of a field sampled from one unbounded translation holds the translation's offset. */
  lemma ConstantFieldExample(c: TransformCollection, t: DisplacementFieldTransform, offset: Point)
    requires c.entries == [TransformEntry(Translation(offset), None)]
    requires t.field.Valid() && SampledFrom(t.field, c)
    ensures forall k :: 0 <= k < t.field.buffer.Length ==> t.field.buffer[k] == offset
  {
    forall k | 0 <= k < t.field.buffer.Length
      ensures t.field.buffer[k] == offset
    {
      UnboundedTranslationDisplacement(c, offset, VoxelPoint(t.field.meta, Unravel(k, t.field.meta.largest.size)));
    }
  }
}
