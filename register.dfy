/**
 * The block scheduler: enumerating the blocks of the fixed image, the
 * region arithmetic and early-exit guards around each block's
 * registration, and the grid of status codes returned with the result.
 */
module Register {
  import opened Wrappers
  import opened Geometry
  import opened Regions
  import opened ImageMeta
  import opened Transforms
  import opened NdIndex
  import opened Convert
  import opened BlockInterface

  // ---------------------------------------------------------------------
  // Enumerating blocks
  // ---------------------------------------------------------------------

  /** Number of chunks along each axis of a chunked array (dask's `numblocks`). */
  function NumBlocks(chunks: seq<seq<nat>>): (n: seq<nat>)
    ensures |n| == |chunks|
    ensures forall a :: 0 <= a < |chunks| ==> n[a] == |chunks[a]|
  {
    seq(|chunks|, a requires 0 <= a < |chunks| => |chunks[a]|)
  }

  /** Sum of a list of chunk lengths. */
  function Sum(xs: seq<nat>): nat
  {
    if |xs| == 0 then 0 else Sum(xs[..|xs| - 1]) + xs[|xs| - 1]
  }

  /** The slice of chunk `i` along an axis whose chunk lengths are `sizes`. */
  function SliceAt(sizes: seq<nat>, i: nat): (s: Slice)
    requires i < |sizes|
  {
    Slice(Sum(sizes[..i]), Sum(sizes[..i]) + sizes[i])
  }

  /** Chunk `i` ends where chunk `i + 1` starts, and the last chunk ends at the axis length. */
  lemma SlicesAbut(sizes: seq<nat>, i: nat)
    requires i < |sizes|
    ensures i + 1 < |sizes| ==> SliceAt(sizes, i).stop == SliceAt(sizes, i + 1).start
    ensures i + 1 == |sizes| ==> SliceAt(sizes, i).stop == Sum(sizes)
    ensures 0 <= SliceAt(sizes, i).start <= SliceAt(sizes, i).stop
  {
    assert sizes[..i + 1][..i] == sizes[..i];
    assert sizes[..|sizes|] == sizes;
  }

  /** The voxel slices of the block at chunk position `idx` (dask's slices_from_chunks). */
  function BlockSlices(chunks: seq<seq<nat>>, idx: seq<nat>): (s: seq<Slice>)
    requires InGrid(idx, NumBlocks(chunks))
    ensures |s| == |chunks|
  {
    seq(|chunks|, a requires 0 <= a < |chunks| => SliceAt(chunks[a], idx[a]))
  }

  /**
   * The block headers of a chunked array: the chunk positions of
   * numpy.ndindex over the chunk counts, zipped with their slices.
   */
  function IterateBlockInfo(chunks: seq<seq<nat>>): (blocks: seq<BlockInfo>)
    ensures |blocks| == Product(NumBlocks(chunks))
    ensures forall k :: 0 <= k < |blocks| ==> blocks[k].chunkIndex == NdIndexSeq(NumBlocks(chunks))[k]
  {
    var cells := NdIndexSeq(NumBlocks(chunks));
    seq(|cells|, k requires 0 <= k < |cells| => BlockInfo(cells[k], BlockSlices(chunks, cells[k])))
  }

  /**
   * Every chunk of the grid has exactly one header, at its row-major
   * position, and its extent along each axis is that chunk's length.
   */
  lemma IteratedBlockOfCell(chunks: seq<seq<nat>>, idx: seq<nat>)
    requires InGrid(idx, NumBlocks(chunks))
    ensures Ravel(idx, NumBlocks(chunks)) < |IterateBlockInfo(chunks)|
    ensures IterateBlockInfo(chunks)[Ravel(idx, NumBlocks(chunks))].chunkIndex == idx
    ensures forall k :: 0 <= k < |IterateBlockInfo(chunks)| && IterateBlockInfo(chunks)[k].chunkIndex == idx ==>
      k == Ravel(idx, NumBlocks(chunks))
    ensures forall a :: 0 <= a < |chunks| ==>
      IterateBlockInfo(chunks)[Ravel(idx, NumBlocks(chunks))].Shape()[a] == chunks[a][idx[a]]
  {
    var shape := NumBlocks(chunks);
    NdIndexComplete(idx, shape);
    forall k | 0 <= k < |IterateBlockInfo(chunks)| && IterateBlockInfo(chunks)[k].chunkIndex == idx
      ensures k == Ravel(idx, shape)
    {
      if k != Ravel(idx, shape) {
        UnravelInjective(k, Ravel(idx, shape), shape);
      }
    }
  }

  /** Three-axis chunking gives well-formed three-axis headers. */
  lemma IteratedBlocksWellFormed(chunks: seq<seq<nat>>, k: nat)
    requires |chunks| == 3 && k < |IterateBlockInfo(chunks)|
    ensures IterateBlockInfo(chunks)[k].WellFormed3()
  {
    var b := IterateBlockInfo(chunks)[k];
    forall a | 0 <= a < 3
      ensures b.arraySlice[a].start <= b.arraySlice[a].stop
    {
      SlicesAbut(chunks[a], b.chunkIndex[a]);
    }
  }

  // ---------------------------------------------------------------------
  // Overlap padding
  // ---------------------------------------------------------------------

  /** A Python list argument that is neither None nor empty. */
  predicate Truthy<T>(xs: Option<seq<T>>)
  {
    xs.Some? && |xs.value| > 0
  }

  function Zeros(n: nat): (z: seq<real>)
    ensures |z| == n && forall i :: 0 <= i < n ==> z[i] == 0.0
  {
    seq(n, _ => 0.0)
  }

  /** `overlap_factors or [0] * ndim`. */
  function OverlapFactors(overlap: Option<seq<real>>, ndim: nat): (f: seq<real>)
    ensures Truthy(overlap) ==> f == overlap.value
    ensures !Truthy(overlap) ==> f == Zeros(ndim) && NonNegative(f)
  {
    if Truthy(overlap) then overlap.value else Zeros(ndim)
  }

  predicate NonNegative(xs: seq<real>)
  {
    forall i :: 0 <= i < |xs| ==> xs[i] >= 0.0
  }

  /** Voxels of padding on each side of an axis of `len` voxels: `ceil(len * factor * 0.5)`. */
  function HalfOverlap(len: int, factor: real): (n: int)
    ensures n as real - 1.0 < len as real * factor * 0.5 <= n as real
  {
    Ceil(len as real * factor * 0.5)
  }

  /** Padding of a non-negative length by a non-negative factor is non-negative. */
  lemma HalfOverlapNonNegative(len: int, factor: real)
    requires len >= 0 && factor >= 0.0
    ensures HalfOverlap(len, factor) >= 0
  {
    MulNonnegative(len as real, factor);
  }

  /**
   * Padding per axis, over the axes the shape and the factors share (zip
   * stops at the shorter list): on each, the smallest integer at least
   * half the overlap length.
   */
  function Padding(shape: seq<int>, factors: seq<real>): (p: seq<int>)
    ensures |p| == IMin(|shape|, |factors|)
    ensures forall i :: 0 <= i < |p| ==>
      p[i] as real - 1.0 < shape[i] as real * factors[i] * 0.5 <= p[i] as real
  {
    var n := IMin(|shape|, |factors|);
    seq(n, i requires 0 <= i < n => HalfOverlap(shape[i], factors[i]))
  }

  /** A 100-voxel axis with overlap factor 0.1 is padded by 5 voxels on each side. */
  lemma PaddingExample()
    ensures Padding([100], [0.1]) == [5]
  {
    assert 100 as real * 0.1 * 0.5 == 5.0;
  }

  /**
   * numpy broadcasting of the padding list against a length-`n` index
   * list: equal lengths pair up, a single value applies to every axis,
   * anything else raises ValueError.
   */
  function Broadcast(p: seq<int>, n: nat): (r: Result<seq<int>>)
    ensures r.Ok? <==> |p| == n || |p| == 1
    ensures r.Err? ==> r.error.ValueError?
    ensures r.Ok? ==> |r.value| == n && forall a :: 0 <= a < n ==> r.value[a] == p[if |p| == 1 then 0 else a]
  {
    if |p| == n then Ok(p)
    else if |p| == 1 then Ok(seq(n, _ => p[0]))
    else Err(ValueError("operands could not be broadcast together"))
  }

  /** The block's own region in ITK axis order: start and shape reversed. */
  function BlockRegion(bi: BlockInfo): (r: ImageRegion)
    requires bi.WellFormed3()
    ensures r.WellFormed() && r.Dim() == 3
    ensures forall a :: 0 <= a < 3 ==>
      r.index[a] == bi.arraySlice[2 - a].start && r.End(a) == bi.arraySlice[2 - a].stop
  {
    var shape := bi.Shape();
    ImageRegion(seq(3, a requires 0 <= a < 3 => bi.arraySlice[2 - a].start),
                seq(3, a requires 0 <= a < 3 => shape[2 - a] as nat))
  }

  /**
   * The padding applied to NumPy-order axis `j` once broadcast: with a
   * single overlap factor, zip pairs it with the first axis only, and
   * that axis's padding is applied to every axis.
   */
  function AxisPadding(bi: BlockInfo, factors: seq<real>, j: nat): int
    requires bi.WellFormed3() && j < 3 && (|factors| == 1 || |factors| >= 3)
  {
    var i := if |factors| == 1 then 0 else j;
    HalfOverlap(bi.Shape()[i], factors[i])
  }

  /** The padding broadcasts against the three axes: one factor for all, or one per axis. */
  predicate Broadcastable(factors: seq<real>)
  {
    |factors| == 1 || |factors| >= 3
  }

  /** Every axis keeps a non-negative voxel count once grown (or shrunk) by its padding on both sides. */
  predicate PaddingFits(bi: BlockInfo, factors: seq<real>)
    requires bi.WellFormed3() && Broadcastable(factors)
  {
    forall j :: 0 <= j < 3 ==> bi.Shape()[j] + 2 * AxisPadding(bi, factors, j) >= 0
  }

  /**
   * The block region grown on both sides of every axis by that axis's
   * padding, in ITK axis order. ValueError when the padding does not
   * broadcast against the three axes. A negative factor pads negatively,
   * shrinking the region; OverflowError when that leaves an axis a
   * negative size, which an ITK region size (unsigned) cannot hold.
   */
  function PaddedRegion(bi: BlockInfo, factors: seq<real>): (r: Result<ImageRegion>)
    requires bi.WellFormed3()
    ensures r.Ok? <==> Broadcastable(factors) && PaddingFits(bi, factors)
    ensures !Broadcastable(factors) ==> r.Err? && r.error.ValueError?
    ensures Broadcastable(factors) && !PaddingFits(bi, factors) ==> r.Err? && r.error.OverflowError?
    ensures r.Ok? ==> r.value.WellFormed() && r.value.Dim() == 3
    ensures r.Ok? ==> forall a :: 0 <= a < 3 ==>
      r.value.index[a] == BlockRegion(bi).index[a] - AxisPadding(bi, factors, 2 - a)
      && r.value.End(a) == BlockRegion(bi).End(a) + AxisPadding(bi, factors, 2 - a)
  {
    var shape := bi.Shape();
    var pad := Padding(shape, factors);
    var b := Broadcast(pad, 3);
    if b.Err? then Err(b.error)
    else
      var p := b.value;
      assert forall j :: 0 <= j < 3 ==> p[j] == AxisPadding(bi, factors, j) by {
        forall j | 0 <= j < 3
          ensures p[j] == AxisPadding(bi, factors, j)
        {
          BroadcastPaddingAxis(bi, factors, j);
        }
      }
      if exists j :: 0 <= j < 3 && shape[j] + 2 * p[j] < 0 then Err(OverflowError("can't convert negative value to unsigned int"))
      else Ok(GrownRegion(bi, p))
  }

  /** The block region grown by p[2 - a] on both sides of ITK axis a. */
  function GrownRegion(bi: BlockInfo, p: seq<int>): (r: ImageRegion)
    requires bi.WellFormed3() && |p| == 3 && forall j :: 0 <= j < 3 ==> bi.Shape()[j] + 2 * p[j] >= 0
    ensures r.WellFormed() && r.Dim() == 3
    ensures forall a :: 0 <= a < 3 ==>
      r.index[a] == BlockRegion(bi).index[a] - p[2 - a] && r.End(a) == BlockRegion(bi).End(a) + p[2 - a]
  {
    var shape := bi.Shape();
    ImageRegion(seq(3, a requires 0 <= a < 3 => bi.arraySlice[2 - a].start - p[2 - a]),
                seq(3, a requires 0 <= a < 3 => (shape[2 - a] + 2 * p[2 - a]) as nat))
  }

  /** The broadcast padding of axis `j` is that axis's padding, non-negative when the factors are. */
  lemma BroadcastPaddingAxis(bi: BlockInfo, factors: seq<real>, j: nat)
    requires bi.WellFormed3() && j < 3 && Broadcastable(factors)
    ensures Broadcast(Padding(bi.Shape(), factors), 3).Ok?
    ensures Broadcast(Padding(bi.Shape(), factors), 3).value[j] == AxisPadding(bi, factors, j)
    ensures NonNegative(factors) ==> AxisPadding(bi, factors, j) >= 0
  {
    var shape := bi.Shape();
    var pad := Padding(shape, factors);
    var i := if |pad| == 1 then 0 else j;
    assert Broadcast(pad, 3).value[j] == pad[i] == HalfOverlap(shape[i], factors[i]);
    if NonNegative(factors) {
      HalfOverlapNonNegative(shape[i], factors[i]);
    }
  }

  /** Non-negative factors always fit: with them, only a failed broadcast is an error. */
  lemma NonNegativePaddingFits(bi: BlockInfo, factors: seq<real>)
    requires bi.WellFormed3() && NonNegative(factors)
    ensures PaddedRegion(bi, factors).Ok? <==> Broadcastable(factors)
  {
    if Broadcastable(factors) {
      forall j | 0 <= j < 3
        ensures bi.Shape()[j] + 2 * AxisPadding(bi, factors, j) >= 0
      {
        BroadcastPaddingAxis(bi, factors, j);
      }
    }
  }

  /**
   * A 100-voxel axis at overlap factor -0.1 pads by -5 voxels on each
   * side, and at -2.0 by -100, which no region of 100 voxels survives.
   */
  lemma NegativePaddingExample()
    ensures Padding([100], [-0.1]) == [-5]
    ensures Padding([100], [-2.0]) == [-100] && 100 + 2 * -100 < 0
  {
    assert 100 as real * -0.1 * 0.5 == -5.0;
    assert 100 as real * -2.0 * 0.5 == -100.0;
  }

  /** With non-negative factors the padded region holds the block region. */
  lemma PaddedHoldsBlock(bi: BlockInfo, factors: seq<real>)
    requires bi.WellFormed3() && NonNegative(factors)
    requires PaddedRegion(bi, factors).Ok?
    ensures Within(BlockRegion(bi), PaddedRegion(bi, factors).value)
  {
    forall j | 0 <= j < 3
      ensures AxisPadding(bi, factors, j) >= 0
    {
      BroadcastPaddingAxis(bi, factors, j);
    }
  }

  /** Without overlap factors the padded region is the block region itself. */
  lemma NoOverlapNoPadding(bi: BlockInfo)
    requires bi.WellFormed3()
    ensures PaddedRegion(bi, OverlapFactors(None, bi.NDim())) == Ok(BlockRegion(bi))
  {
    var factors := OverlapFactors(None, bi.NDim());
    var r := PaddedRegion(bi, factors).value;
    var b := BlockRegion(bi);
    forall a | 0 <= a < 3
      ensures r.index[a] == b.index[a] && r.size[a] == b.size[a]
    {
      var q := AxisPadding(bi, factors, 2 - a);
      assert factors[2 - a] == 0.0;
      assert bi.Shape()[2 - a] as real * 0.0 * 0.5 == 0.0;
      assert q == 0;
    }
    assert r.index == b.index && r.size == b.size;
  }

  // ---------------------------------------------------------------------
  // Registering one block
  // ---------------------------------------------------------------------

  /** The image the registration method sees: the fixed image's grid restricted to the region read. */
  function FixedBlockImage(fixed: Image, buffered: ImageRegion): (img: Image)
    requires buffered.WellFormed() && buffered.Dim() == 3
    ensures img.origin == fixed.origin && img.spacing == fixed.spacing && img.direction == fixed.direction
    ensures img.largest == buffered
  {
    ImageMetadata(fixed.origin, fixed.spacing, fixed.direction, buffered)
  }

  /**
   * A region of the fixed block mapped through the initial transform into
   * the moving image's voxel grid and cropped to it: it ends up inside
   * the moving image or, when disjoint from it, outside altogether.
   */
  function TargetRegion(region: ImageRegion, src: Image, target: Image, t: Transform): (r: ImageRegion)
    requires region.WellFormed() && region.Dim() == 3
    ensures r.WellFormed() && r.Dim() == 3
    ensures Within(r, target.largest) || !Overlaps(r, target.largest)
  {
    BlockToImageRegion(GetTargetBlockRegion(ImageToBlockRegion(region), src, target, Some(t), true))
  }

  /** The regions handed to the registration method. */
  datatype RegistrationCall = RegistrationCall(
    fixedBuffered: ImageRegion,
    fixedRequested: ImageRegion,
    movingBuffered: ImageRegion,
    movingRequested: ImageRegion)
  {
    predicate WellFormed3()
    {
      fixedBuffered.WellFormed() && fixedBuffered.Dim() == 3
      && fixedRequested.WellFormed() && fixedRequested.Dim() == 3
      && movingBuffered.WellFormed() && movingBuffered.Dim() == 3
      && movingRequested.WellFormed() && movingRequested.Dim() == 3
    }
  }

  /** What the registration method did: returned a result record, returned something else, or raised. */
  datatype MethodOutcome = Returned(result: BlockPairRegistrationResult) | ReturnedOther | Raised

  /** `default_result or` the FAILURE result with no fields. */
  function Fallback(defaultResult: Option<BlockPairRegistrationResult>): BlockPairRegistrationResult
  {
    if defaultResult.Some? then defaultResult.value else FailureResult()
  }

  /** The method's own result when it returned one; the fallback for anything else. */
  function Outcome(o: MethodOutcome, fallback: BlockPairRegistrationResult): (r: BlockPairRegistrationResult)
    ensures o.Returned? ==> r == o.result
    ensures !o.Returned? ==> r == fallback
  {
    match o
    case Returned(result) => result
    case _ => fallback
  }

  /**
   * The regions a block's registration works on: the padded region
   * cropped to the fixed image, the block region, and both mapped into
   * the moving image, the unpadded one cropped to the padded one.
   */
  function Plan(bi: BlockInfo, factors: seq<real>, fixed: Image, moving: Image, initial: Transform): (r: Result<RegistrationCall>)
    requires bi.WellFormed3()
    ensures r.Ok? <==> PaddedRegion(bi, factors).Ok?
    ensures r.Err? ==> r.error == PaddedRegion(bi, factors).error
    ensures r.Ok? ==> r.value.WellFormed3() && r.value.fixedRequested == BlockRegion(bi)
    ensures r.Ok? ==> Within(r.value.movingBuffered, moving.largest) || !Overlaps(r.value.movingBuffered, moving.largest)
  {
    var padded :- PaddedRegion(bi, factors);
    var fixedBuffered := Crop(padded, fixed.largest).0;
    var fixedBlock := FixedBlockImage(fixed, fixedBuffered);
    var movingBuffered := TargetRegion(fixedBuffered, fixedBlock, moving, initial);
    var movingRequested := Crop(TargetRegion(BlockRegion(bi), fixedBlock, moving, initial), movingBuffered).0;
    Ok(RegistrationCall(fixedBuffered, BlockRegion(bi), movingBuffered, movingRequested))
  }

  /**
   * The guards a block passes before its registration runs: the cropped
   * padded region is inside the fixed image, the mapped padded region is
   * inside the moving image, and the moving voxels read hold some signal.
   */
  predicate Admitted(c: RegistrationCall, fixed: Image, moving: Image, hasSignal: ImageRegion -> bool)
    requires c.WellFormed3()
  {
    IsInside(fixed.largest, c.fixedBuffered) && IsInside(moving.largest, c.movingBuffered) && hasSignal(c.movingBuffered)
  }

  /**
   * Registers one block. Readers are metadata only: `hasSignal` stands for
   * the test for a non-zero moving voxel and `register` for the
   * registration method. Every guard that fails, and every failure of
   * the method, yields the fallback result; `call` is the call made.
   */
  method RegisterSubimage(blockInfo: Option<BlockInfo>, overlap: Option<seq<real>>, fixed: Image, moving: Image,
                          initial: Transform, defaultResult: Option<BlockPairRegistrationResult>,
                          hasSignal: ImageRegion -> bool, register: RegistrationCall -> MethodOutcome)
    returns (res: Result<BlockPairRegistrationResult>, call: Option<RegistrationCall>)
    requires blockInfo.Some? ==> blockInfo.value.WellFormed3()
    ensures blockInfo.None? ==> call.None? && (res.Ok? <==> Truthy(overlap))
    ensures blockInfo.None? && res.Err? ==> res.error.AttributeError?
    ensures blockInfo.Some? ==>
      var p := Plan(blockInfo.value, OverlapFactors(overlap, 3), fixed, moving, initial);
      (p.Err? ==> call.None? && res == Err(p.error))
      && (call.Some? <==> p.Ok? && Admitted(p.value, fixed, moving, hasSignal))
      && (call.Some? ==> call.value == p.value)
    ensures call.Some? ==> res == Ok(Outcome(register(call.value), Fallback(defaultResult)))
    ensures call.None? && res.Ok? ==> res.value == Fallback(defaultResult)
  {
    var fallback := Fallback(defaultResult);
    call := None;
    if blockInfo.None? {
      if Truthy(overlap) {
        res := Ok(fallback);
      } else {
        res := Err(AttributeError("'NoneType' object has no attribute 'ndim'"));
      }
      return;
    }
    res, call := RegisterBlock(blockInfo.value, OverlapFactors(overlap, 3), fixed, moving, initial, defaultResult, hasSignal, register);
  }

  /**
   * The part of RegisterSubimage after the header check: padding, then the
   * guards of Admitted in order, then the method. Its result is decided by
   * Plan.
   */
  method RegisterBlock(bi: BlockInfo, factors: seq<real>, fixed: Image, moving: Image,
                       initial: Transform, defaultResult: Option<BlockPairRegistrationResult>,
                       hasSignal: ImageRegion -> bool, register: RegistrationCall -> MethodOutcome)
    returns (res: Result<BlockPairRegistrationResult>, call: Option<RegistrationCall>)
    requires bi.WellFormed3()
    ensures var p := Plan(bi, factors, fixed, moving, initial);
      (p.Err? ==> call.None? && res == Err(p.error))
      && (call.Some? <==> p.Ok? && Admitted(p.value, fixed, moving, hasSignal))
      && (call.Some? ==> call.value == p.value)
    ensures call.Some? ==> res == Ok(Outcome(register(call.value), Fallback(defaultResult)))
    ensures call.None? && res.Ok? ==> res.value == Fallback(defaultResult)
  {
    var fallback := Fallback(defaultResult);
    call := None;
    var padded := PaddedRegion(bi, factors);
    if padded.Err? {
      res := Err(padded.error);
      return;
    }
    var fixedBuffered := padded.value;
    fixedBuffered := Crop(fixedBuffered, fixed.largest).0;
    ghost var plan := Plan(bi, factors, fixed, moving, initial);
    assert plan.Ok? && plan.value.fixedBuffered == fixedBuffered;
    if !IsInside(fixed.largest, fixedBuffered) {
      res := Ok(fallback);
      return;
    }
    var fixedRequested := BlockRegion(bi);
    var fixedBlock := FixedBlockImage(fixed, fixedBuffered);
    var movingRequested := TargetRegion(fixedRequested, fixedBlock, moving, initial);
    var movingBuffered := TargetRegion(fixedBuffered, fixedBlock, moving, initial);
    assert plan.value.movingBuffered == movingBuffered;
    if !IsInside(moving.largest, movingBuffered) {
      res := Ok(fallback);
      return;
    }
    movingRequested := Crop(movingRequested, movingBuffered).0;
    if !hasSignal(movingBuffered) {
      res := Ok(fallback);
      return;
    }
    assert plan.value == RegistrationCall(fixedBuffered, fixedRequested, movingBuffered, movingRequested);
    call := Some(RegistrationCall(fixedBuffered, fixedRequested, movingBuffered, movingRequested));
    res := Ok(Outcome(register(call.value), fallback));
  }

  /**
   * When the block region is inside the fixed image, cropping the padded
   * region keeps the whole block: registration reads every voxel of its
   * block.
   */
  lemma PlanKeepsBlock(bi: BlockInfo, factors: seq<real>, fixed: Image, moving: Image, initial: Transform)
    requires bi.WellFormed3() && NonNegative(factors)
    requires Plan(bi, factors, fixed, moving, initial).Ok?
    requires IsInside(fixed.largest, BlockRegion(bi))
    ensures Within(BlockRegion(bi), Plan(bi, factors, fixed, moving, initial).value.fixedBuffered)
    ensures Within(Plan(bi, factors, fixed, moving, initial).value.fixedBuffered, fixed.largest)
  {
    var b := BlockRegion(bi);
    var padded := PaddedRegion(bi, factors).value;
    PaddedHoldsBlock(bi, factors);
    CropKeepsWithin(padded, fixed.largest, b);
    var cropped := Crop(padded, fixed.largest);
    assert Within(cropped.0, fixed.largest);
    assert Plan(bi, factors, fixed, moving, initial).value.fixedBuffered == cropped.0;
  }

  /**
   * The moving region requested for registration lies inside the region
   * read, unless the two are disjoint, in which case Crop leaves the
   * requested region where the transform put it.
   */
  lemma RequestedWithinBuffered(bi: BlockInfo, factors: seq<real>, fixed: Image, moving: Image, initial: Transform)
    requires bi.WellFormed3()
    requires Plan(bi, factors, fixed, moving, initial).Ok?
    ensures var c := Plan(bi, factors, fixed, moving, initial).value;
      var fixedBlock := FixedBlockImage(fixed, c.fixedBuffered);
      var mapped := TargetRegion(BlockRegion(bi), fixedBlock, moving, initial);
      (Overlaps(mapped, c.movingBuffered) && Within(c.movingRequested, c.movingBuffered))
      || (!Overlaps(mapped, c.movingBuffered) && c.movingRequested == mapped)
  {
  }

  // ---------------------------------------------------------------------
  // The status grid
  // ---------------------------------------------------------------------

  /**
   * numpy's `arr[idx] = v` for a tuple index `idx`: the cells whose
   * leading coordinates are `idx` (a whole slab when `idx` is short).
   */
  predicate Addresses(idx: seq<nat>, cell: seq<nat>)
  {
    |idx| <= |cell| && cell[..|idx|] == idx
  }

  /** A tuple index numpy accepts for an array of this shape; any other raises IndexError. */
  predicate IndexFits(idx: seq<nat>, shape: seq<nat>)
  {
    |idx| <= |shape| && forall a :: 0 <= a < |idx| ==> idx[a] < shape[a]
  }

  /** The row-major cells after `arr[idx] = code`. */
  function WriteCells(cells: seq<nat>, shape: seq<nat>, idx: seq<nat>, code: nat): (r: seq<nat>)
    requires |cells| == Product(shape)
    ensures |r| == |cells|
  {
    seq(|cells|, k requires 0 <= k < |cells| => if Addresses(idx, Unravel(k, shape)) then code else cells[k])
  }

  /**
   * The status grid after the first `n` (block, result) pairs have been
   * written into a zero grid, or the IndexError the first bad chunk
   * index raises.
   */
  function StatusCells(shape: seq<nat>, locs: seq<BlockInfo>, results: seq<BlockPairRegistrationResult>, n: nat): (r: Result<seq<nat>>)
    requires n <= |locs| && n <= |results|
    ensures r.Ok? ==> |r.value| == Product(shape)
    ensures r.Err? ==> r.error.IndexError?
  {
    if n == 0 then Ok(seq(Product(shape), _ => 0))
    else
      var prev :- StatusCells(shape, locs, results, n - 1);
      if !IndexFits(locs[n - 1].chunkIndex, shape) then Err(IndexError("index out of bounds"))
      else Ok(WriteCells(prev, shape, locs[n - 1].chunkIndex, StatusCode(results[n - 1].status)))
  }

  /** Once a write has failed, later pairs change nothing. */
  lemma {:induction false} StatusErrorPersists(shape: seq<nat>, locs: seq<BlockInfo>, results: seq<BlockPairRegistrationResult>, m: nat, n: nat)
    requires m <= n <= |locs| && n <= |results|
    requires StatusCells(shape, locs, results, m).Err?
    ensures StatusCells(shape, locs, results, n) == StatusCells(shape, locs, results, m)
    decreases n - m
  {
    if m < n {
      StatusErrorPersists(shape, locs, results, m, n - 1);
    }
  }

  /**
   * Writes the status code of each result at its block's chunk index into
   * a zero grid shaped like the chunk grid, pairing blocks and results in
   * order as zip does.
   */
  method ComposeBlockStatusOutput(shape: seq<nat>, locs: seq<BlockInfo>, results: seq<BlockPairRegistrationResult>)
    returns (r: Result<StatusGrid>)
    ensures var c := StatusCells(shape, locs, results, IMin(|locs|, |results|));
      (r.Ok? <==> c.Ok?) && (r.Ok? ==> r.value == StatusGrid(shape, c.value)) && (r.Err? ==> r.error == c.error)
  {
    var n := IMin(|locs|, |results|);
    var grid := new nat[Product(shape)](_ => 0);
    var i := 0;
    assert grid[..] == seq(Product(shape), _ => 0);
    while i < n
      invariant 0 <= i <= n
      invariant StatusCells(shape, locs, results, i) == Ok(grid[..])
    {
      var idx := locs[i].chunkIndex;
      if !IndexFits(idx, shape) {
        StatusErrorPersists(shape, locs, results, i + 1, n);
        return Err(IndexError("index out of bounds"));
      }
      var code := StatusCode(results[i].status);
      ghost var before := grid[..];
      var k := 0;
      while k < grid.Length
        invariant 0 <= k <= grid.Length
        invariant forall j :: 0 <= j < k ==> grid[j] == WriteCells(before, shape, idx, code)[j]
        invariant forall j :: k <= j < grid.Length ==> grid[j] == before[j]
      {
        if Addresses(idx, Unravel(k, shape)) {
          grid[k] := code;
        }
        k := k + 1;
      }
      assert grid[..] == WriteCells(before, shape, idx, code);
      i := i + 1;
    }
    return Ok(StatusGrid(shape, grid[..]));
  }

  /** A cell no chunk index addresses keeps the zero it started with. */
  lemma {:induction false} UnnamedCellZero(shape: seq<nat>, locs: seq<BlockInfo>, results: seq<BlockPairRegistrationResult>, n: nat, k: nat)
    requires n <= |locs| && n <= |results| && k < Product(shape)
    requires StatusCells(shape, locs, results, n).Ok?
    requires forall i :: 0 <= i < n ==> !Addresses(locs[i].chunkIndex, Unravel(k, shape))
    ensures StatusCells(shape, locs, results, n).value[k] == 0
  {
    if n > 0 {
      UnnamedCellZero(shape, locs, results, n - 1, k);
    }
  }

  /** A cell holds the status code of the last result whose chunk index addresses it. */
  lemma {:induction false} NamedCellStatus(shape: seq<nat>, locs: seq<BlockInfo>, results: seq<BlockPairRegistrationResult>, n: nat, i: nat, k: nat)
    requires i < n <= |locs| && n <= |results| && k < Product(shape)
    requires StatusCells(shape, locs, results, n).Ok?
    requires Addresses(locs[i].chunkIndex, Unravel(k, shape))
    requires forall j :: i < j < n ==> !Addresses(locs[j].chunkIndex, Unravel(k, shape))
    ensures StatusCells(shape, locs, results, n).value[k] == StatusCode(results[i].status)
  {
    if i < n - 1 {
      NamedCellStatus(shape, locs, results, n - 1, i, k);
    }
  }

  /** A full-length index addresses exactly its own cell. */
  lemma AddressesCell(shape: seq<nat>, j: nat, k: nat)
    requires j < Product(shape) && k < Product(shape)
    ensures Addresses(Unravel(j, shape), Unravel(k, shape)) <==> j == k
  {
    if j != k {
      UnravelInjective(j, k, shape);
      assert Unravel(k, shape)[..|shape|] == Unravel(k, shape);
    }
  }

  /** Every chunk position of the grid is a valid numpy index. */
  lemma {:induction false} IteratedStatusOk(chunks: seq<seq<nat>>, results: seq<BlockPairRegistrationResult>, n: nat)
    requires n <= |results| && n <= |IterateBlockInfo(chunks)|
    ensures StatusCells(NumBlocks(chunks), IterateBlockInfo(chunks), results, n).Ok?
  {
    if n > 0 {
      IteratedStatusOk(chunks, results, n - 1);
    }
  }

  /**
   * For the blocks the scheduler enumerates, paired with one result each,
   * the status grid has the chunk grid's shape and cell `k` holds the
   * status code of result `k`.
   */
  lemma ScheduledStatusGrid(chunks: seq<seq<nat>>, results: seq<BlockPairRegistrationResult>)
    requires |results| == |IterateBlockInfo(chunks)|
    ensures var c := StatusCells(NumBlocks(chunks), IterateBlockInfo(chunks), results, |results|);
      c.Ok? && |c.value| == Product(NumBlocks(chunks))
      && forall k :: 0 <= k < |c.value| ==> c.value[k] == StatusCode(results[k].status)
  {
    var shape := NumBlocks(chunks);
    var locs := IterateBlockInfo(chunks);
    var n := |results|;
    IteratedStatusOk(chunks, results, n);
    forall k | 0 <= k < n
      ensures StatusCells(shape, locs, results, n).value[k] == StatusCode(results[k].status)
    {
      AddressesCell(shape, k, k);
      forall j | k < j < n
        ensures !Addresses(locs[j].chunkIndex, Unravel(k, shape))
      {
        AddressesCell(shape, j, k);
      }
      NamedCellStatus(shape, locs, results, n, k, k);
    }
  }

  /** The final result: the reduced transforms beside the status grid. */
  function ComposeOutput<T>(reduced: RegistrationTransformResult<T>, status: StatusGrid): RegistrationResult<T>
  {
    RegistrationResult(reduced, status)
  }

  // ---------------------------------------------------------------------
  // Scheduling a registration
  // ---------------------------------------------------------------------

  /** What `register_images` settles before building its task graph. */
  datatype Schedule = Schedule(chunkSize: seq<nat>, overlap: seq<real>, blocks: seq<BlockInfo>)

  /**
   * The argument checks and defaults of `register_images` for an image of
   * dimension `dim` whose chunked array has chunk lengths `chunks`: one
   * registration task per block follows.
   */
  function ScheduleRegistration(dim: nat, chunkSize: Option<seq<nat>>, overlap: Option<seq<real>>, chunks: seq<seq<nat>>): (r: Result<Schedule>)
    ensures r.Err? <==> dim != 2 && dim != 3
    ensures r.Err? ==> r.error.ValueError?
    ensures r.Ok? && Truthy(chunkSize) ==> r.value.chunkSize == chunkSize.value
    ensures r.Ok? && !Truthy(chunkSize) ==> |r.value.chunkSize| == dim && forall a :: 0 <= a < dim ==> r.value.chunkSize[a] == 256
    ensures r.Ok? && Truthy(overlap) ==> r.value.overlap == overlap.value
    ensures r.Ok? && !Truthy(overlap) ==>
      |r.value.overlap| == |chunks| && forall a :: 0 <= a < |chunks| ==> r.value.overlap[a] == 0.0
    ensures r.Ok? ==> r.value.blocks == IterateBlockInfo(chunks)
  {
    if dim != 2 && dim != 3 then Err(ValueError("registration is supported for 2-D and 3-D images only"))
    else
      var size := if Truthy(chunkSize) then chunkSize.value else seq(dim, _ => 256);
      Ok(Schedule(size, OverlapFactors(overlap, |chunks|), IterateBlockInfo(chunks)))
  }

  /**
   * A completed registration of an image chunked as `chunks`, with one
   * result per block, reports a status grid shaped like the chunk grid
   * whose cells are the blocks' status codes in row-major order.
   */
  lemma RegistrationStatusShape<T>(chunks: seq<seq<nat>>, reduced: RegistrationTransformResult<T>,
                                  results: seq<BlockPairRegistrationResult>)
    requires |results| == |IterateBlockInfo(chunks)|
    ensures var c := StatusCells(NumBlocks(chunks), IterateBlockInfo(chunks), results, |results|);
      c.Ok? && var out := ComposeOutput(reduced, StatusGrid(NumBlocks(chunks), c.value));
      out.status.WellFormed() && out.status.shape == NumBlocks(chunks)
      && forall k :: 0 <= k < |out.status.cells| ==> out.status.cells[k] == StatusCode(results[k].status)
  {
    ScheduledStatusGrid(chunks, results);
  }

  /** When every block succeeds the status grid is all zeros. */
  lemma AllSucceededAllZero(chunks: seq<seq<nat>>, results: seq<BlockPairRegistrationResult>)
    requires |results| == |IterateBlockInfo(chunks)|
    requires forall k :: 0 <= k < |results| ==> results[k].status == SUCCESS
    ensures var c := StatusCells(NumBlocks(chunks), IterateBlockInfo(chunks), results, |results|);
      c.Ok? && forall k :: 0 <= k < |c.value| ==> c.value[k] == 0
  {
    ScheduledStatusGrid(chunks, results);
  }
}
