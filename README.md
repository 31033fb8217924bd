# itk-dreg core, modelled in Dafny

itk-dreg registers two large 3-D images block by block. It splits the
fixed image into a grid of chunks, and for each chunk it computes a padded
voxel region in the fixed image. It maps that region into the moving image
through an initial transform, and calls a pluggable pairwise registration
method on the two sub-images. It then fuses the per-block transforms into
one transform: either a collection of domain-bounded transforms blended by
distance to the domain edge, or a displacement field sampled from that
collection.

This project models the parts of that pipeline that do not touch voxel
data:

- the voxel / physical region arithmetic (`block/convert.py`) and the
  voxel-grid sizing over a physical box (`block/image.py`);
- the records exchanged between scheduler and methods
  (`base/image_block_interface.py`);
- the per-block region and guard logic, the block enumeration and the
  status grid (`register.py`);
- the transform collection and its two blend methods
  (`reduce_dfield/transform_collection.py`);
- the rasterisation of a collection into a displacement field
  (`reduce_dfield/transform.py`) and the reduction methods
  (`reduce_dfield/dreg.py`);
- composite flattening, stage selection and the initial translation
  (`elastix/util.py`).

## Modelling conventions

- Coordinates are exact reals (`real`), and a point is a sequence of three
  of them. A `Box` holds two rows (lower, upper) in ITK axis order. Python
  `int()` is truncation toward zero (`Geometry.Trunc`). ITK's
  round-half-up is `ImageMeta.RoundHalfUp`. `np.isclose(x, 0)` is
  `|x| <= 1e-8`.
- An image is its metadata: origin, spacing, direction and largest region.
  The direction is a signed permutation matrix, so index-to-physical
  conversions are exact and invertible.
- `itk.ImageRegion` is `Regions.ImageRegion` (index and size). `Crop`,
  `IsInside` and `GetUpperIndex` follow ITK's documented C++ behaviour.
  ITK's `ImageRegion.h` is not part of this model.
- A transform is `Translation(offset)`, a `Generic` transform given by its
  class name and point map, or a `Composite`. A composite applies its
  members last-to-first, as ITK's CompositeTransform does.
- Python exceptions are `Result` errors tagged with the exception class:
  `AssertionError`, `ValueError`, `TypeError`, `AttributeError` or
  `IndexError`.
- Code that updates state in place is modelled in place:
  - `TransformCollection` is a class whose `entries` field `Push` appends to;
  - the displacement field is a class over an `array` that `FillBuffer` and
    `SetPixel` write;
  - the sampling, status-grid, gathering, bounding-box, selection and
    flattening loops are methods with loop invariants, each proved against
    a specification function.
- Where the code and its documentation disagree, the model follows the
  code:
  - `BlockInfo.chunk_index`'s docstring (`image_block_interface.py:40-47`)
    says the 7th chunk of a 2x2x2 grid is (1,0,0).
    `iterate_block_info` enumerates with `numpy.ndindex`, which gives
    (1,1,1) at position 7 and (1,0,0) at position 4.
    `NdIndex.ChunkOrderExample` proves the code's order.
  - `register_subimage` evaluates `overlap_factors or [0] * block_info.ndim`
    (`register.py:249`) before its `if not block_info` guard. So a missing
    block header raises AttributeError unless overlap factors are given,
    and only then reaches the logged FAILURE default.
    `Register.RegisterSubimage` states exactly that.
- `_physical_distance_from_edge` multiplies the pixel distance along index
  axis `i` by the physical step along physical axis `i`. The model keeps
  that pairing as written; it only matters for a permuted direction.

## Model

| member | source | states |
|---|---|---|
| NdIndex.Unravel | src/itk_dreg/register.py:193-197 | the `numpy.ndindex` position of linear index k lies inside the grid |
| NdIndex.RavelInRange | src/itk_dreg/register.py:193-197 | the row-major linear index of a grid cell is below the number of cells |
| NdIndex.UnravelRavel | src/itk_dreg/register.py:193-197 | unravelling the linear index of a cell gives the cell back |
| NdIndex.RavelUnravel | src/itk_dreg/register.py:193-197 | ravelling the k-th cell of the enumeration gives k back |
| NdIndex.UnravelInjective | src/itk_dreg/register.py:193-197 | distinct positions of the enumeration name distinct cells |
| NdIndex.NdIndexSeq | src/itk_dreg/register.py:193-197 | `numpy.ndindex(*shape)` lists exactly Product(shape) cells, the k-th being the row-major cell k |
| NdIndex.NdIndexComplete | src/itk_dreg/register.py:193-197 | every cell of the grid occurs in the enumeration, at its row-major position |
| NdIndex.ChunkOrderExample | src/itk_dreg/base/image_block_interface.py:40-47 | in a 2x2x2 grid chunk 0 is (0,0,0), chunk 1 is (0,0,1), chunk 4 is (1,0,0) and chunk 7 is (1,1,1) |
| Regions.WithUpperIndex | src/itk_dreg/block/convert.py:250-253 | `SetIndex` then `SetUpperIndex` gives a region with that index whose upper index is the requested one on every axis |
| Regions.Crop | src/itk_dreg/block/convert.py:366 | ITK Crop: reports overlap; with overlap the result is the per-axis intersection, holding exactly the voxels in both regions; without overlap the region is unchanged |
| Regions.CropInside | src/itk_dreg/register.py:287-289 | cropping a region already inside the bound changes nothing and reports overlap |
| Regions.CroppedIsInside | src/itk_dreg/register.py:287-289 | after an overlapping crop with no empty axis, the bound's IsInside accepts the result |
| Regions.CropKeepsWithin | src/itk_dreg/register.py:287 | a non-empty region within both the region and the bound makes the two overlap, so Crop succeeds, and the cropped region still holds it |
| Regions.CropIdempotent | src/itk_dreg/block/convert.py:363-367 | cropping a second time to the same bound changes nothing |
| Transforms.ApplyAllAppend | src/itk_dreg/elastix/util.py:143-148 | applying a concatenated member list is applying the second list, then the first |
| Transforms.TranslationMoves | src/itk_dreg/elastix/util.py:32-36 | a translation adds its offset on every axis |
| ImageMeta.RowAxis | src/itk_dreg/block/convert.py:192-195 | each row of a signed-permutation direction has one non-zero entry, +1 or -1, in the column `Col` names |
| ImageMeta.ColAxis | src/itk_dreg/block/convert.py:228-231 | each column of a signed-permutation direction is non-zero only in the row `Row` names, and Row and Col are inverse |
| ImageMeta.PhysicalStep | src/itk_dreg/block/image.py:157-166 | the physical step of each physical axis is the per-row step of `direction @ diag(spacing)` |
| ImageMeta.PhysicalStepAxis | src/itk_dreg/block/image.py:157-166 | for a signed permutation, the physical step of axis r is ±spacing of the index axis that maps to r, never zero |
| ImageMeta.RoundHalfUp | src/itk_dreg/block/convert.py:159 | ITK's index rounding lands within half a unit of its argument |
| ImageMeta.PhysicalToDiscreteIndex | src/itk_dreg/block/convert.py:159 | TransformPhysicalPointToIndex rounds each continuous index coordinate half up |
| ImageMeta.IndexToPhysicalIsMatrixProduct | src/itk_dreg/block/convert.py:192-195 | TransformContinuousIndexToPhysicalPoint is origin + (direction · diag(spacing)) · index |
| ImageMeta.PhysicalToIndexIsInverseMatrix | src/itk_dreg/block/convert.py:228-231 | TransformPhysicalPointToContinuousIndex is diag(1/spacing) · directionᵀ · (p − origin) |
| ImageMeta.IndexToPhysicalToIndex | src/itk_dreg/block/convert.py:228-231 | physical-to-index undoes index-to-physical exactly |
| ImageMeta.PhysicalToIndexToPhysical | src/itk_dreg/block/convert.py:192-195 | index-to-physical undoes physical-to-index exactly |
| Convert.CornersAreVertices | src/itk_dreg/block/convert.py:103-107 | corner 4i+2j+k of the product enumeration takes row i on axis 0, row j on axis 1 and row k on axis 2 |
| Convert.Bounds | src/itk_dreg/block/convert.py:111 | per-axis min and max of the points: every point lies between them, each bound is attained by some point, and lower <= upper |
| Convert.BoundingBox | src/itk_dreg/block/convert.py:103-111 | the tightest axis-aligned box around the 8 transformed corners: all corners inside, each bound attained by a corner |
| Convert.EstimateBoundingBox | src/itk_dreg/block/convert.py:76-111 | AssertionError exactly when the region is not 2x3; otherwise the loop over the 8 corners yields the BoundingBox |
| Convert.BoundingBoxOfTranslation | src/itk_dreg/block/convert.py:103-111 | under a translation the estimated box is the normalised input box shifted by the offset |
| Convert.BoundingBoxOfTranslationAxis | src/itk_dreg/block/convert.py:103-111 | one axis of the translated bounding box: min and max of the input rows plus the offset |
| Convert.BlockToPhysicalRegion | src/itk_dreg/block/convert.py:163-208 | AssertionError exactly when the input is not 2x3; otherwise an ordered physical box, with or without a transform |
| Convert.PhysicalToBlockRegion | src/itk_dreg/block/convert.py:211-237 | AssertionError exactly when the input is not 2x3; otherwise an ordered voxel box |
| Convert.BlockPhysicalRoundTrip | src/itk_dreg/block/convert.py:183-199 | without a transform, physical_to_block_region(block_to_physical_region(R)) is R with its rows normalised: the −0.5 and +0.5 cancel exactly |
| Convert.BlockToImageRegion | src/itk_dreg/block/convert.py:240-254 | index is the truncated per-axis minimum row, and the region ends at the truncated per-axis maximum row |
| Convert.ImageToBlockRegion | src/itk_dreg/block/convert.py:257-267 | rows are the region's index and upper index + 1: an ordered box of whole numbers |
| Convert.ImageBlockRoundTrip | src/itk_dreg/block/convert.py:248-267 | block_to_image_region(image_to_block_region(R)) == R for every 3-D region |
| Convert.BlockImageRoundTrip | src/itk_dreg/block/convert.py:248-267 | image_to_block_region(block_to_image_region(B)) is B with normalised rows, for whole-number bounds |
| Convert.PhysicalToImageRegion | src/itk_dreg/block/convert.py:270-284 | always a well-formed 3-D region |
| Convert.ImageToPhysicalRegion | src/itk_dreg/block/convert.py:287-305 | always an ordered physical box |
| Convert.ImagePhysicalRoundTrip | src/itk_dreg/block/convert.py:270-305 | physical_to_image_region(image_to_physical_region(R)) == R without a transform |
| Convert.BlockToPhysicalSize | src/itk_dreg/block/convert.py:114-145 | every component of the physical size is non-negative (an absolute difference) |
| Convert.PhysicalToBlockSize | src/itk_dreg/block/convert.py:148-160 | each component is the absolute rounded index of origin + size |
| Convert.TargetBlockSizeSameImage | src/itk_dreg/block/convert.py:308-326 | mapping a block size into the same image gives back its truncated magnitude on every axis |
| Convert.GetTargetBlockRegion | src/itk_dreg/block/convert.py:329-369 | an ordered box; with crop_to_target it is whole-numbered, and its image region lies inside the target's largest region or misses it entirely |
| Convert.TargetBlockRegionSameImage | src/itk_dreg/block/convert.py:354-361 | without transform or crop, mapping a block into its own image returns it normalised |
| BlockImage.GetSampleBounds | src/itk_dreg/block/image.py:21-51 | the image's largest region in physical space, as an ordered box |
| BlockImage.GetPhysicalMidpoint | src/itk_dreg/block/image.py:54-67 | the midpoint lies within the sample bounds on every axis |
| BlockImage.RowStepZero | src/itk_dreg/block/image.py:157-166 | a physical step is zero exactly when its direction row is all zeros |
| BlockImage.GridCount | src/itk_dreg/block/image.py:168-173 | ceil when extending beyond the region (n >= x > n − 1), floor otherwise (n <= x < n + 1) |
| BlockImage.GridSize | src/itk_dreg/block/image.py:168-173 | per physical axis, the voxel count is GridCount of span / |step| |
| BlockImage.GridImage | src/itk_dreg/block/image.py:175-202 | the output grid keeps the requested spacing and direction, starts at index 0, and its size on index axis c is the count of the physical axis c maps to |
| BlockImage.PhysicalRegionToItkImage | src/itk_dreg/block/image.py:100-203 | AssertionError exactly when a spacing is close to zero, a direction entry is outside {−1, 0, 1} or a direction row is zero; otherwise the grid image |
| BlockImage.GridImageSize | src/itk_dreg/block/image.py:168-173 | along physical axis r, the output has GridCount(span / |step|) voxels on the matching index axis |
| BlockImage.RegionEdges | src/itk_dreg/block/convert.py:183-203 | any region's continuous-index box runs from half a voxel below its index to half a voxel below its end, and image_to_physical_region is that box mapped through the image and ordered |
| BlockImage.RegionPhysicalBounds | src/itk_dreg/block/convert.py:287-305 | on physical axis r, image_to_physical_region gives the smaller and the larger of the physical edges of the region's two half-voxel bounds |
| BlockImage.ZeroIndexSampleBounds | src/itk_dreg/block/image.py:47-51 | an index-0 image samples from half a step before voxel 0 to half a step past its last voxel |
| BlockImage.GridImageOrigin | src/itk_dreg/block/image.py:175-191 | the origin is the grid's voxel-0 corner, on a grid centred on the region's midpoint, plus half a step |
| BlockImage.GridImageSampleBounds | src/itk_dreg/block/image.py:175-202 | the output samples exactly midpoint ± n·|step|/2 on each axis: the grid is centred on the input box |
| BlockImage.CenteredSampleBounds | src/itk_dreg/block/image.py:183-191 | an index-0 image with a centred origin samples midpoint ± n·|step|/2 |
| BlockImage.GridImageCoversRegion | src/itk_dreg/block/image.py:135-143 | with extend_beyond the grid covers the region, overshooting each side by less than half a step; without it the grid lies inside the region, falling short by less than half a step |
| BlockImageExamples.EvenGridAxis | src/itk_dreg/block/image.py:168-191 | a span of exactly n steps gives n voxels, rounded either way, with the origin half a step inside the lower bound |
| BlockImageExamples.DownscaleExample | src/test/itk_dreg/test_dreg_block_subdivide.py:46-69 | a 10-voxel unit image at scale 2 without extension gives spacing 2, 5 voxels and origin 0.5 |
| BlockImageExamples.NoRescaleExample | src/test/itk_dreg/test_dreg_block_subdivide.py:23-44 | at scale 1 the output keeps the input's spacing, size and origin |
| BlockImageExamples.UnitRegionAxis | src/test/itk_dreg/test_dreg_block_subdivide.py:87-90 | in a unit image, the region of n voxels from index i covers [i − 0.5, i + n − 0.5] on that axis |
| BlockImageExamples.OffsetDownscaleAxis | src/test/itk_dreg/test_dreg_block_subdivide.py:71-100 | the 10-voxel unit image at index 10 has physical region [9.5, 19.5] on each axis; at scale 2 without extension the output has spacing 2, 5 voxels and origin 10.5 |
| BlockImageExamples.CubeInside | src/test/itk_dreg/test_dreg_block_subdivide.py:110-111 | a non-empty cube of voxels within another lies inside it |
| BlockImageExamples.RequestedRegionAxis | src/test/itk_dreg/test_dreg_block_subdivide.py:103-136 | the region of 10 voxels from index 1 lies inside the 100-voxel unit image and has physical region [0.5, 10.5]; at scale 2 the output has spacing 2, 5 voxels and origin 1.5, and its sample bounds are the region's physical region |
| BlockImageExamples.RescaledRegionAxis | src/test/itk_dreg/test_dreg_block_subdivide.py:117-136 | a box [0.5, 10.5] gridded at spacing 2 without extension has 5 voxels from origin 1.5 and samples [0.5, 10.5] |
| BlockImageExamples.ExtendedGridAxis | src/test/itk_dreg/test_dreg_block_subdivide.py:139-184 | a 15-unit span in steps of 2 with extension gives 8 voxels, sampling half a unit past each edge |
| BlockImageExamples.RotatedGridExample | src/test/itk_dreg/test_dreg_block_subdivide.py:139-184 | in the rotated 100-voxel image, index 25 maps to (−25, 25, −25), and the region of 15 voxels from index 25 is inside it with physical region [[−39.5, 24.5, −39.5], [−24.5, 39.5, −24.5]]; gridded at spacing 2 with extension the output keeps the direction, has spacing 2, size 8x8x8, origin (−25, 25, −25) and sample bounds [[−40, 24, −40], [−24, 40, −24]] |
| BlockImageExamples.RotatedRegionExample | src/test/itk_dreg/test_dreg_block_subdivide.py:143-153 | the region half of the direction test: the index point, the containment and the physical region |
| BlockImageExamples.RotatedRegionAxis | src/test/itk_dreg/test_dreg_block_subdivide.py:151-153 | per axis, the rotated region covers [−39.5, −24.5] on X and Z and [24.5, 39.5] on Y |
| BlockImageExamples.RotatedIndex | src/test/itk_dreg/test_dreg_block_subdivide.py:143-147 | index (25, 25, 25) of the rotated image lies at (−25, 25, −25) |
| BlockImageExamples.RotatedGrid | src/test/itk_dreg/test_dreg_block_subdivide.py:155-184 | the grid half of the direction test: size 8x8x8, origin (−25, 25, −25), spacing 2, the rotated direction and sample bounds [[−40, 24, −40], [−24, 40, −24]] |
| BlockImageExamples.RotatedGridShape | src/test/itk_dreg/test_dreg_block_subdivide.py:159-181 | the rotated grid's direction, spacing, size 8x8x8 and origin (−25, 25, −25) |
| BlockImageExamples.RotatedGridBounds | src/test/itk_dreg/test_dreg_block_subdivide.py:183-184 | the rotated grid samples [[−40, 24, −40], [−24, 40, −24]] |
| BlockImageExamples.RotatedOrigin | src/test/itk_dreg/test_dreg_block_subdivide.py:159-180 | 8 voxels of signed step st centred on midpoint m put voxel 0 at m − 3.5·st |
| BlockInterface.StatusCode | src/itk_dreg/base/image_block_interface.py:17-28 | `int(status)` is 0 exactly for SUCCESS and 1 for FAILURE |
| BlockInterface.StatusFromCode | src/itk_dreg/base/image_block_interface.py:17-28 | `BlockRegStatus(n)` succeeds exactly for 0 and 1, otherwise ValueError |
| BlockInterface.StatusCodeRoundTrip | src/itk_dreg/base/image_block_interface.py:17-28 | looking a status up by its code returns it, and every accepted code is its status's code |
| BlockInterface.BlockInfo.Shape | src/itk_dreg/register.py:270-277 | one voxel extent per slice |
| BlockInterface.NewBlockPairResult | src/itk_dreg/base/image_block_interface.py:77-111 | a result is built exactly when its invariants hold: domain iff transform, inverse only with a forward transform, inverse domain iff inverse, no empty domain, a transform on SUCCESS; otherwise ValueError |
| BlockInterface.FailureResult | test/itk_dreg/test_block_interface.py:10-17 | the all-absent FAILURE result is valid |
| BlockInterface.FailureNeedsNothing | test/itk_dreg/test_block_interface.py:10-17 | a FAILURE result with all four optional fields absent is accepted |
| BlockInterface.MissingDomainRefused | test/itk_dreg/test_block_interface.py:33-40 | a forward transform without its domain is refused with ValueError |
| BlockInterface.EmptyDomainRefused | test/itk_dreg/test_block_interface.py:50-57 | a forward domain with a zero-size axis is refused |
| BlockInterface.MissingInverseDomainRefused | test/itk_dreg/test_block_interface.py:83-91 | an inverse transform without its domain is refused |
| BlockInterface.EmptyInverseDomainRefused | test/itk_dreg/test_block_interface.py:103-112 | an inverse domain with a zero-size axis is refused |
| BlockInterface.CompleteResultAccepted | test/itk_dreg/test_block_interface.py:18-31 | a transform with a non-empty domain, with or without a complete inverse pair, is accepted |
| Register.NumBlocks | src/itk_dreg/register.py:193-197 | dask's `numblocks`: one count per axis, the number of chunks along it |
| Register.SlicesAbut | src/itk_dreg/register.py:193-197 | the slices of consecutive chunks along an axis abut, start at 0 and end at the axis length |
| Register.IterateBlockInfo | src/itk_dreg/register.py:182-197 | one block per grid cell, the k-th carrying the k-th `numpy.ndindex` chunk index |
| Register.IteratedBlockOfCell | src/itk_dreg/register.py:182-197 | each chunk index occurs exactly once, at its row-major position, and that block's shape is the chunk sizes it names |
| Register.IteratedBlocksWellFormed | src/itk_dreg/register.py:182-197 | every block of a 3-D array has three forward slices |
| Register.HalfOverlap | src/itk_dreg/register.py:270-273 | `math.ceil(len * factor * 0.5)`: the least integer not below the half overlap |
| Register.Padding | src/itk_dreg/register.py:270-273 | one ceiling per axis of `zip(shape, factors)`, so as many as the shorter list |
| Register.PaddingExample | src/itk_dreg/register.py:99-104 | 100 voxels at overlap 0.1 pad 5 voxels on each side |
| Register.Broadcast | src/itk_dreg/register.py:278-284 | numpy broadcasting of the padding against the 3-axis shape: a 1-element list repeats, a 3-element list is kept, anything else is ValueError |
| Register.BlockRegion | src/itk_dreg/register.py:274-277 | the unpadded region is the block's slices, flipped into ITK order |
| Register.PaddedRegion | src/itk_dreg/register.py:270-284 | ValueError unless the factors broadcast; OverflowError when a padded size would be negative, since ITK sizes are unsigned; otherwise exactly that case fails, and each ITK axis starts its padding earlier and ends it later than the block region |
| Register.BroadcastPaddingAxis | src/itk_dreg/register.py:270-284 | the broadcast padding of each axis is the ceiling for that axis, never negative for non-negative factors |
| Register.NonNegativePaddingFits | src/itk_dreg/register.py:270-284 | with non-negative factors, padding fails only when the factors do not broadcast |
| Register.NegativePaddingExample | src/itk_dreg/register.py:270-273 | a negative factor gives negative padding: −0.1 on 100 voxels pads by −5, and −2.0 pads by −100, leaving a negative size |
| Register.PaddedHoldsBlock | src/itk_dreg/register.py:278-284 | with non-negative factors the padded region contains the block region |
| Register.NoOverlapNoPadding | src/itk_dreg/register.py:249 | with the default zero overlap the padded region is the block region |
| Register.FixedBlockImage | src/itk_dreg/register.py:300-311 | the extracted fixed block keeps the fixed image's geometry, with the padded region as its largest region |
| Register.TargetRegion | src/itk_dreg/register.py:327-348 | the moving block region is well formed and lies inside the moving image or misses it entirely |
| Register.Outcome | src/itk_dreg/register.py:400-425 | a returned BlockPairRegistrationResult is passed through unchanged; a raised exception or another return type gives the default |
| Register.Plan | src/itk_dreg/register.py:270-378 | the regions handed to the method: an error exactly when padding fails, and padding's error; the fixed requested region is the block region; the moving buffered region lies inside the moving image or misses it |
| Register.RegisterSubimage | src/itk_dreg/register.py:200-425 | no header: AttributeError unless overlap is given, else the default; otherwise the method is called exactly when the padded fixed region is inside, the moving region is inside and the moving block has signal, and its outcome is returned; every other guard returns the default |
| Register.RegisterBlock | src/itk_dreg/register.py:270-425 | after the header check: the error of padding, or else the method is called exactly when Plan's regions pass the inside and signal guards, with those regions, and its outcome is returned; otherwise the default |
| Register.PlanKeepsBlock | src/itk_dreg/register.py:287-294 | for a block inside the fixed image, the cropped padded region holds the block and lies inside the fixed image |
| Register.RequestedWithinBuffered | src/itk_dreg/register.py:376-378 | the moving requested region lies inside the moving buffered region, or is left uncropped when the two do not overlap |
| Register.StatusCells | src/itk_dreg/register.py:448-457 | the grid after writing the first n statuses: Product(shape) cells, or IndexError |
| Register.StatusErrorPersists | src/itk_dreg/register.py:448-457 | once a write fails, later writes do not recover |
| Register.ComposeBlockStatusOutput | src/itk_dreg/register.py:428-457 | the loop over `zip(locs, results)` returns the status grid StatusCells describes, or its IndexError |
| Register.UnnamedCellZero | src/itk_dreg/register.py:448 | a cell no block names stays 0 |
| Register.NamedCellStatus | src/itk_dreg/register.py:449-451 | a cell holds the status code of the last block that names it |
| Register.AddressesCell | src/itk_dreg/register.py:451 | indexing by the j-th enumerated chunk index addresses cell k exactly when j == k |
| Register.IteratedStatusOk | src/itk_dreg/register.py:448-457 | writing statuses at the enumerated chunk indices never fails |
| Register.ScheduledStatusGrid | src/itk_dreg/register.py:448-457 | over the enumerated blocks, cell k holds the status code of result k |
| Register.ScheduleRegistration | src/itk_dreg/register.py:118-129 | ValueError exactly for a dimension other than 2 or 3; a given chunk size is kept, else 256 per axis; a given overlap list is kept, a missing or empty one becomes one zero per axis; the blocks are the ones `iterate_block_info` enumerates |
| Register.RegistrationStatusShape | src/itk_dreg/base/image_block_interface.py:143-150 | the result's status grid has exactly the chunk grid's shape, cell k holding result k's code |
| Register.AllSucceededAllZero | src/test/itk_dreg/test_scheduler.py:121-125 | when every block succeeds, every status cell is 0 |
| TransformCollections.BoundsContainsInclusive | src/itk_dreg/reduce_dfield/transform_collection.py:66-78 | containment ignores the row order and includes both bounds |
| TransformCollections.Filter | src/itk_dreg/reduce_dfield/transform_collection.py:284-290 | the kept entries all pass the test, and there are no more of them than the input |
| TransformCollections.FilterEmpty | src/itk_dreg/reduce_dfield/transform_collection.py:284-295 | the filter keeps nothing exactly when no entry passes |
| TransformCollections.FilterAppend | src/itk_dreg/reduce_dfield/transform_collection.py:284-290 | the filter keeps list order: filtering a concatenation concatenates the filterings |
| TransformCollections.Contributors | src/itk_dreg/reduce_dfield/transform_collection.py:284-290 | every selected entry is unbounded or contains the point |
| TransformCollections.ContributorsEmpty | src/itk_dreg/reduce_dfield/transform_collection.py:284-295 | nothing is selected exactly when no entry covers the point |
| TransformCollections.ContributorsAppend | src/itk_dreg/reduce_dfield/transform_collection.py:284-290 | selection follows entry order: pushing entries appends their selections |
| TransformCollections.SimpleMeanWithin | src/itk_dreg/reduce_dfield/transform_collection.py:80-102 | the simple mean lies within any per-axis bounds of the candidates |
| TransformCollections.WeightedAverageWithin | src/itk_dreg/reduce_dfield/transform_collection.py:147 | a positively weighted average lies within any per-axis bounds of its points |
| TransformCollections.PixelDistanceFromEdge | src/itk_dreg/reduce_dfield/transform_collection.py:187-217 | per axis, the lower or upper distance, whichever has the smaller magnitude, preferring the lower one on a tie |
| TransformCollections.PixelDistanceInside | src/itk_dreg/reduce_dfield/transform_collection.py:202-217 | inside the sampled extent the distance is between 0 and half the axis size |
| TransformCollections.PhysicalDistanceFromEdge | src/itk_dreg/reduce_dfield/transform_collection.py:149-185 | the smallest axis distance, non-negative, at the first axis that attains it |
| TransformCollections.Weight | src/itk_dreg/reduce_dfield/transform_collection.py:126-133 | an unbounded entry weighs 1e-9; a bounded one at most its distance on every axis; never negative |
| TransformCollections.InteriorWeight | src/itk_dreg/reduce_dfield/transform_collection.py:145 | a weight close to zero becomes 1e-9, any other is kept |
| TransformCollections.Weights | src/itk_dreg/reduce_dfield/transform_collection.py:126-147 | one positive weight per candidate, in order |
| TransformCollections.DistanceWeightedWithin | src/itk_dreg/reduce_dfield/transform_collection.py:104-147 | the distance-weighted mean lies within any per-axis bounds of the candidates |
| TransformCollections.BlendWithin | src/itk_dreg/reduce_dfield/transform_collection.py:80-147 | either blend lies within any per-axis bounds of the candidates |
| TransformCollections.BlendSingle | src/itk_dreg/reduce_dfield/transform_collection.py:80-147 | either blend of a single candidate is that candidate's transformed point |
| TransformCollections.TransformCollection.constructor | src/itk_dreg/reduce_dfield/transform_collection.py:239-260 | starts with the given entries, or none, and the given blend, distance-weighted by default |
| TransformCollections.TransformCollection.Transforms | src/itk_dreg/reduce_dfield/transform_collection.py:56-59 | the entries' transforms, in entry order |
| TransformCollections.TransformCollection.Domains | src/itk_dreg/reduce_dfield/transform_collection.py:61-64 | the entries' domains, in entry order |
| TransformCollections.TransformCollection.Push | src/itk_dreg/reduce_dfield/transform_collection.py:262-270 | appends the entry, leaving earlier entries and the blend unchanged |
| TransformCollections.TransformCollection.TransformPoint | src/itk_dreg/reduce_dfield/transform_collection.py:272-305 | ValueError exactly when no entry covers the point; otherwise the blend of the covering entries |
| TransformCollections.TransformPointWithin | src/itk_dreg/reduce_dfield/transform_collection.py:272-296 | a mapped point lies within any per-axis bounds of the covering entries' outputs |
| TransformCollectionExamples.UnitDomainGeometry | test/reduce_dfield/test_transform_collection.py:33-57 | a unit-spacing domain of n voxels at origin o samples [o − 0.5, o + n − 0.5] on each axis |
| TransformCollectionExamples.UnitDomainContains | test/reduce_dfield/test_transform_collection.py:33-57 | an entry over that domain covers exactly the points in those bounds |
| TransformCollectionExamples.UnitAxisDistance | src/itk_dreg/reduce_dfield/transform_collection.py:202-217 | in a unit domain, the lower distance is p − o + 0.5 and the upper n minus that |
| TransformCollectionExamples.UnboundedTranslation | test/reduce_dfield/test_transform_collection.py:15-31 | a single unbounded translation moves every point by its offset |
| TransformCollectionExamples.UnboundedNeverFails | src/itk_dreg/reduce_dfield/transform_collection.py:287-288 | a collection holding an unbounded entry maps every point |
| TransformCollectionExamples.WeightIsSmallestAxisDistance | src/itk_dreg/reduce_dfield/transform_collection.py:179-185 | a bounded entry's weight is the least of its three axis distances |
| TransformCollectionExamples.TransformPointPair | src/itk_dreg/reduce_dfield/transform_collection.py:284-295 | with two entries the result blends whichever cover the point, or fails when neither does |
| TransformCollectionExamples.TwoDomainsPoint | test/reduce_dfield/test_transform_collection.py:59-84 | for the two-domain fixture, the covering entries are decided by the unit-domain bounds |
| TransformCollectionExamples.SimpleMeanOverlapExample | test/reduce_dfield/test_transform_collection.py:59-80 | with simple mean, (1,1,1) maps to (2.5,2.5,2.5) |
| TransformCollectionExamples.SimpleMeanSingleExample | test/reduce_dfield/test_transform_collection.py:59-80 | with simple mean, (0,0,0), inside one domain only, maps to (1,1,1) |
| TransformCollectionExamples.SimpleMeanSecondOnlyExample | test/reduce_dfield/test_transform_collection.py:59-77 | with simple mean, (2.4,2.4,2.4), inside the second domain only, maps to (4.4,4.4,4.4) |
| TransformCollectionExamples.BoundedTransformExample | test/reduce_dfield/test_transform_collection.py:33-57 | one translation by 1 over the one-voxel domain at (1,1,1): (0,0,0) is refused and (1,1,1) maps to (2,2,2) |
| TransformCollectionExamples.OutsideAllDomainsExample | test/reduce_dfield/test_transform_collection.py:82-84 | (−1,−1,−1), outside both domains, is refused |
| TransformCollectionExamples.FixtureWeightsAtOnes | test/reduce_dfield/test_transform_collection.py:111 | at (1,1,1) the two fixture weights are 1.5 and 0.5 |
| TransformCollectionExamples.FixtureWeightsAtMixed | test/reduce_dfield/test_transform_collection.py:114 | at (1,2,3) both fixture weights are 0.5 |
| TransformCollectionExamples.FixtureWeightsAtTwos | test/reduce_dfield/test_transform_collection.py:112 | at (2,2,2) both fixture weights are 1.5 |
| TransformCollectionExamples.FixtureWeightsAtThrees | test/reduce_dfield/test_transform_collection.py:113 | at (3,3,3) the fixture weights are 0.5 and 1.5 |
| TransformCollectionExamples.TwoDomainsWeightedPoint | src/itk_dreg/reduce_dfield/transform_collection.py:104-147 | inside both fixture domains, weights v and w move the point by (v + 2w)/(v + w) on each axis |
| TransformCollectionExamples.FixtureWeightedMean | src/itk_dreg/reduce_dfield/transform_collection.py:104-147 | the weighted mean of translations by 1 and 2 with weights v and w is p + (v + 2w)/(v + w) |
| TransformCollectionExamples.DistanceWeightedInBoth | test/reduce_dfield/test_transform_collection.py:86-114 | under distance weighting, a point both 4-voxel domains hold is mapped to the distance-weighted mean of the two entries |
| TransformCollectionExamples.DistanceWeightedExample | test/reduce_dfield/test_transform_collection.py:111 | distance-weighted, the blend at (1,1,1) and the collection's image of (1,1,1) are (2.25,2.25,2.25) |
| TransformCollectionExamples.DistanceWeightedCentreExample | test/reduce_dfield/test_transform_collection.py:112 | distance-weighted, the blend at (2,2,2) and the collection's image of (2,2,2) are (3.5,3.5,3.5) |
| TransformCollectionExamples.DistanceWeightedFarExample | test/reduce_dfield/test_transform_collection.py:113 | distance-weighted, the blend at (3,3,3) and the collection's image of (3,3,3) are (4.75,4.75,4.75) |
| TransformCollectionExamples.DistanceWeightedSingleExample | test/reduce_dfield/test_transform_collection.py:103 | distance-weighted, (0,0,0), in the first domain only, maps to (1,1,1) |
| TransformCollectionExamples.DistanceWeightedSecondOnlyExample | test/reduce_dfield/test_transform_collection.py:104 | distance-weighted, (4.4,4.4,4.4), in the second domain only, maps to (6.4,6.4,6.4) |
| TransformCollectionExamples.DistanceWeightedMixedExample | test/reduce_dfield/test_transform_collection.py:114 | distance-weighted, the blend at (1,2,3) and the collection's image of (1,2,3) are (2.5,3.5,4.5) |
| DisplacementFields.IndexPoint | src/itk_dreg/reduce_dfield/transform.py:84-86 | a whole-number voxel index as a continuous index, axis by axis |
| DisplacementFields.VectorImage.constructor | src/itk_dreg/reduce_dfield/transform.py:71 | Allocate: one buffer slot per voxel of the given grid |
| DisplacementFields.VectorImage.FillBuffer | src/itk_dreg/reduce_dfield/transform.py:72 | every voxel holds the fill vector |
| DisplacementFields.VectorImage.SetPixel | src/itk_dreg/reduce_dfield/transform.py:87-90 | the voxel's row-major slot holds the vector and no other slot changes |
| DisplacementFields.Displacement | src/itk_dreg/reduce_dfield/transform.py:84-93 | p plus the displacement is the collection's image of p; the zero vector when the collection refuses p |
| DisplacementFields.ScaledSpacing | src/itk_dreg/reduce_dfield/transform.py:55-70 | reference spacing times scale factor on each axis |
| DisplacementFields.InitialBounds | src/itk_dreg/reduce_dfield/transform.py:55-70 | the reference's largest region through the initial transform, as an ordered box |
| DisplacementFields.FieldGrid | src/itk_dreg/reduce_dfield/transform.py:55-70 | the output grid has the scaled spacing, the reference's direction and index 0, extended over the initial bounds; AssertionError exactly when a scaled spacing is near zero |
| DisplacementFields.CollectionToDeformationFieldTransform | src/itk_dreg/reduce_dfield/transform.py:23-99 | a fresh field over FieldGrid in which every voxel holds the collection's displacement of its physical point, zero where the collection refuses it |
| DisplacementFields.SampleInto | src/itk_dreg/reduce_dfield/transform.py:81-93 | the sampling loop turns a zero-filled field into one holding each voxel's displacement |
| DisplacementFields.UnboundedTranslationDisplacement | src/test/reduce_dfield/test_reduce_dfield.py:22-49 | a single unbounded translation displaces every point by its offset |
| DisplacementFields.FieldGridCoversReference | src/itk_dreg/reduce_dfield/transform.py:55-70 | on each axis the field covers the initial bounds, overshooting by less than half a scaled step |
| DisplacementFieldExamples.InitialBoundsOfZeroTranslation | src/itk_dreg/reduce_dfield/transform.py:55-70 | under a zero translation the initial bounds are the reference's sample bounds |
| DisplacementFieldExamples.ReferenceSpan | src/test/reduce_dfield/test_reduce_dfield.py:22-49 | the 10-voxel unit reference spans 10 units on each axis |
| DisplacementFieldExamples.ScaledAxisSize | src/test/reduce_dfield/test_reduce_dfield.py:22-49 | at scale 2 the field has 5 voxels on each axis |
| DisplacementFieldExamples.FieldSizeExample | src/test/reduce_dfield/test_reduce_dfield.py:22-49 | the test's field is 5x5x5 |
| DisplacementFieldExamples.ConstantFieldExample | src/test/reduce_dfield/test_reduce_dfield.py:22-49 | a field sampled from one unbounded translation holds its offset at every voxel |
| Reduce.EntryOf | src/itk_dreg/reduce_dfield/dreg.py:118-126 | a block's entry carries the block's transform and its own transform domain |
| Reduce.EntriesOf | src/itk_dreg/reduce_dfield/dreg.py:116-128 | one entry per result, in order |
| Reduce.SuccessEntriesAreSelected | src/itk_dreg/reduce_dfield/dreg.py:116-128 | the gathered entries are exactly the entries of the SUCCESS results, in input order |
| Reduce.SuccessEntriesEmpty | src/itk_dreg/reduce_dfield/dreg.py:130-131 | nothing is gathered exactly when no block succeeded |
| Reduce.CollectSuccessful | src/itk_dreg/reduce_dfield/dreg.py:113-128 | a new distance-weighted collection holding the SUCCESS entries; TypeError exactly when a successful result has no transform |
| Reduce.AllDomainsPresent | src/itk_dreg/reduce_dfield/dreg.py:133-141 | the domain regions are computed without error exactly when every gathered entry carries a domain |
| Reduce.ReduceToDeformationFieldTransform | src/itk_dreg/reduce_dfield/dreg.py:101-145 | TypeError on a successful result without transform; ValueError when none succeeded; AttributeError for a gathered entry without domain; otherwise the field over FieldGrid at scale [10,10,10] by default, sampled from the gathered collection |
| Reduce.ReduceToDisplacementFieldMethod | src/itk_dreg/reduce_dfield/dreg.py:38-61 | the same field at scale [1,1,1] by default, with no inverse transform |
| Reduce.TransformCollectionReduceResultsMethod | src/itk_dreg/reduce_dfield/dreg.py:148-170 | the gathered distance-weighted collection, possibly empty, without error and without inverse |
| ElastixUtil.ComputeInitialTranslation | src/itk_dreg/elastix/util.py:18-38 | always a translation |
| ElastixUtil.InitialTranslationMatchesMidpoints | src/itk_dreg/elastix/util.py:32-36 | the initial translation carries the target's physical midpoint onto the source's |
| ElastixUtil.Requested | src/itk_dreg/elastix/util.py:70-80 | at most one member per type |
| ElastixUtil.RequestedLength | src/itk_dreg/elastix/util.py:70-80 | one member per non-None type |
| ElastixUtil.RequestedAt | src/itk_dreg/elastix/util.py:70-80 | the transform at index i is the member after the requested types before i, so order and index alignment are kept |
| ElastixUtil.GetElxItkTransforms | src/itk_dreg/elastix/util.py:41-85 | ValueError exactly when the counts differ; None exactly when a requested cast fails; otherwise the composite of the requested transforms in order |
| ElastixUtil.FlattenRecursiveLeaves | src/itk_dreg/elastix/util.py:131-148 | the flattening holds no composite, one element per leaf |
| ElastixUtil.FlattenAllLeaves | src/itk_dreg/elastix/util.py:143-148 | flattening a member list holds no composite, one element per leaf |
| ElastixUtil.FlattenAllAppend | src/itk_dreg/elastix/util.py:143-148 | members are flattened left to right: flattening a concatenation concatenates the flattenings |
| ElastixUtil.FlattenRecursiveApplies | src/itk_dreg/elastix/util.py:131-148 | the flattened list maps points exactly as the transform does |
| ElastixUtil.FlattenAllApplies | src/itk_dreg/elastix/util.py:143-148 | a flattened member list maps points as the member list does |
| ElastixUtil.FlattenAllOfLeaves | src/itk_dreg/elastix/util.py:143-148 | a list without composites flattens to itself |
| ElastixUtil.FlattenCompositeTransform | src/itk_dreg/elastix/util.py:108-128 | a new composite holding the recursive flattening in order |
| ElastixUtil.FlattenedComposite | src/itk_dreg/elastix/util.py:112-122 | the result has no composite member, one member per leaf, maps points as the input does, wraps a non-composite input alone, and flattening again changes nothing |

## Left out

- Dask graph construction and execution in `register_images`
  (`register.py:137-179`), the file readers and writers of `itk.py`, and the
  rechunking wrapper `block/dask.py`. Chunk sizes along each axis are a
  parameter (`chunks`), as dask would compute them.
- Reading voxels: a reader is replaced by its image metadata. The "any
  non-zero voxel" test of `register_subimage` (`register.py:392-395`) is a
  predicate parameter `hasSignal`.
- The pairwise registration method is a function parameter returning a
  `MethodOutcome`. The RuntimeError re-raised around the signal test is
  not modelled.
- The Elastix backend (`elastix/register.py`, `elastix/serialize.py`) and
  `get_elx_parameter_maps`, which only copy opaque Elastix parameter
  objects.
- `get_elx_itk_transforms`: the Elastix-to-ITK conversion itself is a
  parameter (the already converted transforms). The cast is modelled as
  an exact class-name match. RuntimeErrors from conversion are not
  modelled.
- `reduce_dfield/matrix_transform.py` and
  `EulerConsensusReduceResultsMethod`: quaternion averaging in SciPy.
- Floating point: all arithmetic is exact. The float32 cast in
  `arr_to_continuous_index` (`convert.py:67`) and the float32 points of
  the displacement loop are not modelled. `arr_to_continuous_index` itself
  is the identity on 3-vectors here.
- Image directions that are not signed permutations, and images of
  dimension other than 3 in the region arithmetic.
  - The region converters hard-code 3 axes.
  - `register_images` accepts 2-D images, and only its dimension check is
    modelled for them.
- `block_to_itk_image` (`block/image.py:70-97`): it builds an ITK image
  around a NumPy buffer.
- Logging:
  - the warnings of `get_sample_bounds` and `register_subimage`;
  - the log of negative weights in `blend_distance_weighted_mean`;
  - the physical-domain list that `reduce_to_deformation_field_transform`
    logs. Only its AttributeError on a missing domain is kept.
- The random debug sampling in the displacement loop (`transform.py:82`).
- The unused `default_transform` of
  `reduce_to_deformation_field_transform` (`dreg.py:111`).
- `_validate_entry` checks only that a transform is present (TypeError).
  The check that a domain is an `itk.Image`, and the KeyError the tests
  expect for a list given as a domain, cannot arise: domains are typed.
- User-supplied blend callables: only the two built-in blend methods are
  modelled.
- The displacement buffer stores voxel k at the row-major (`numpy.ndindex`)
  position of its index, not at ITK's x-fastest offset. Interpolation by
  `DisplacementFieldTransform` is not modelled.
- Scale-factor lists not of length 3, and an explicit `None` passed as
  `grid_scale_factors` to `ReduceToDisplacementFieldMethod`.
- BlockInterface.BlockInfo.Shape: its contract gives only one extent per
  slice. That each extent is `stop − start` is its definition, which
  `Register.IteratedBlockOfCell` uses to state that the enumerated block
  has the chunk sizes it names.
- Convert.BlockToPhysicalSize: its contract states only that the size is
  non-negative. The exact value is tied to the inverse conversion by
  `Convert.TargetBlockSizeSameImage`.
- BlockImage.GetSampleBounds: its contract states only that the box is
  ordered. Its value for grid images is given by
  `BlockImage.ZeroIndexSampleBounds` and `BlockImage.GridImageSampleBounds`.
- DisplacementFields.OutsideAllDomainsDisplacement: it holds without
  proof work, so it is not listed in the table. A point outside every
  domain gets the zero vector.
- TransformCollections.TransformCollection.constructor and
  TransformCollections.TransformCollection.Push: the entries are a `seq`
  value, so the constructor copies the caller's list. The source keeps the
  caller's list object and `push` appends to it
  (`transform_collection.py:252`, `:260`, `:270`), so the caller sees the
  pushed entries. That aliasing is not modelled. `dreg.py:113-115` passes
  no list, so there the two agree.
- Register.PaddedRegion: the OverflowError for a negative padded size
  stands for the error ITK's Python wrapping raises when a negative value
  is given as an unsigned region size. That wrapping is not part of this
  model; only the kind of error is kept.
- BlockImage.PhysicalRegionToItkImage: it requires that a direction which
  passes the two checks be a signed permutation. A sheared direction with
  entries in {−1, 0, 1}, such as a row (1, 1, 0), is outside the model,
  because the grid it builds is not axis-aligned.
