/**
 * The records the block scheduler exchanges with the per-block
 * registration methods and with the reduction step: status codes, block
 * headers, per-block results and the final registration result.
 */
module BlockInterface {
  import opened Wrappers
  import opened Regions
  import opened ImageMeta
  import opened Transforms
  import opened NdIndex

  /** Outcome of registering one block pair (an integer enumeration). */
  datatype BlockRegStatus = SUCCESS | FAILURE

  /** `int(status)`: SUCCESS is 0 and FAILURE is 1. */
  function StatusCode(s: BlockRegStatus): (n: nat)
    ensures n <= 1
    ensures n == 0 <==> s == SUCCESS
  {
    if s == SUCCESS then 0 else 1
  }

  /** `BlockRegStatus(n)`: the member with value `n`, or ValueError. */
  function StatusFromCode(n: int): (r: Result<BlockRegStatus>)
    ensures r.Ok? <==> n == 0 || n == 1
    ensures r.Err? ==> r.error.ValueError?
  {
    if n == 0 then Ok(SUCCESS)
    else if n == 1 then Ok(FAILURE)
    else Err(ValueError("not a valid BlockRegStatus"))
  }

  /** Looking a status up by its value gives it back, and every valid value names its status. */
  lemma StatusCodeRoundTrip(s: BlockRegStatus, n: int)
    ensures StatusFromCode(StatusCode(s)) == Ok(s)
    ensures StatusFromCode(n).Ok? ==> StatusCode(StatusFromCode(n).value) == n
  {
  }

  /** A Python `slice(start, stop)` with no step, as dask builds them. */
  datatype Slice = Slice(start: int, stop: int)

  /**
   * Where a block sits in the parent volume: its position in the chunk
   * grid and its voxel slices, both in NumPy (slowest axis first) order.
   */
  datatype BlockInfo = BlockInfo(chunkIndex: seq<nat>, arraySlice: seq<Slice>)
  {
    /** Number of axes: the length of the chunk index. */
    function NDim(): nat { |chunkIndex| }

    /** Voxel extent of the block along each axis: stop - start of its slice. */
    function Shape(): (s: seq<int>)
      ensures |s| == |arraySlice|
    {
      seq(|arraySlice|, a requires 0 <= a < |arraySlice| => arraySlice[a].stop - arraySlice[a].start)
    }

    /** A three-axis block whose slices run forwards. */
    predicate WellFormed3()
    {
      |chunkIndex| == 3 && |arraySlice| == 3
      && forall a :: 0 <= a < 3 ==> arraySlice[a].start <= arraySlice[a].stop
    }
  }

  /** A transform domain with no voxel along some axis. */
  predicate EmptyDomain(d: Image)
  {
    exists a :: 0 <= a < 3 && d.largest.size[a] == 0
  }

  /** Result of registering one fixed block against its moving block. */
  datatype BlockPairRegistrationResult = BlockPairRegistrationResult(
    transform: Option<Transform>,
    transformDomain: Option<Image>,
    invTransform: Option<Transform>,
    invTransformDomain: Option<Image>,
    status: BlockRegStatus)
  {
    /**
     * The invariants the record's documentation demands: a forward domain
     * exactly when there is a forward transform, an inverse only beside a
     * forward transform, an inverse domain exactly when there is an
     * inverse, no empty domain, and a forward transform on SUCCESS.
     */
    predicate Valid()
    {
      (transformDomain.Some? <==> transform.Some?)
      && (invTransform.Some? ==> transform.Some?)
      && (invTransformDomain.Some? <==> invTransform.Some?)
      && (transformDomain.Some? ==> !EmptyDomain(transformDomain.value))
      && (invTransformDomain.Some? ==> !EmptyDomain(invTransformDomain.value))
      && (status == SUCCESS ==> transform.Some?)
    }
  }

  /**
   * Building a result with its invariants checked: the record, or
   * ValueError when a field is missing or a domain is empty.
   */
  function NewBlockPairResult(status: BlockRegStatus, transform: Option<Transform>, transformDomain: Option<Image>,
                              invTransform: Option<Transform>, invTransformDomain: Option<Image>): (r: Result<BlockPairRegistrationResult>)
    ensures r.Ok? <==> BlockPairRegistrationResult(transform, transformDomain, invTransform, invTransformDomain, status).Valid()
    ensures r.Ok? ==> r.value == BlockPairRegistrationResult(transform, transformDomain, invTransform, invTransformDomain, status)
    ensures r.Err? ==> r.error.ValueError?
  {
    if transform.Some? != transformDomain.Some? then
      Err(ValueError("transform_domain must be given exactly when transform is"))
    else if status == SUCCESS && transform.None? then
      Err(ValueError("a successful result needs a forward transform"))
    else if invTransform.Some? && transform.None? then
      Err(ValueError("inv_transform needs a forward transform"))
    else if invTransform.Some? != invTransformDomain.Some? then
      Err(ValueError("inv_transform_domain must be given exactly when inv_transform is"))
    else if transformDomain.Some? && EmptyDomain(transformDomain.value) then
      Err(ValueError("transform_domain is empty"))
    else if invTransformDomain.Some? && EmptyDomain(invTransformDomain.value) then
      Err(ValueError("inv_transform_domain is empty"))
    else
      Ok(BlockPairRegistrationResult(transform, transformDomain, invTransform, invTransformDomain, status))
  }

  /** The FAILURE result with every optional field absent. */
  function FailureResult(): (r: BlockPairRegistrationResult)
    ensures r.Valid() && r.status == FAILURE
    ensures r.transform.None? && r.transformDomain.None? && r.invTransform.None? && r.invTransformDomain.None?
  {
    BlockPairRegistrationResult(None, None, None, None, FAILURE)
  }

  /** A FAILURE result needs none of the optional fields. */
  lemma FailureNeedsNothing()
    ensures NewBlockPairResult(FAILURE, None, None, None, None) == Ok(FailureResult())
  {
  }

  /** A forward transform without its domain is refused with ValueError. */
  lemma MissingDomainRefused(s: BlockRegStatus, t: Transform)
    ensures NewBlockPairResult(s, Some(t), None, None, None).Err?
    ensures NewBlockPairResult(s, Some(t), None, None, None).error.ValueError?
  {
  }

  /** An inverse transform without its domain is refused with ValueError. */
  lemma MissingInverseDomainRefused(s: BlockRegStatus, t: Transform, d: Image, u: Transform)
    ensures NewBlockPairResult(s, Some(t), Some(d), Some(u), None).Err?
  {
  }

  /** A forward domain with no voxels is refused with ValueError. */
  lemma EmptyDomainRefused(s: BlockRegStatus, t: Transform, d: Image)
    requires EmptyDomain(d)
    ensures NewBlockPairResult(s, Some(t), Some(d), None, None).Err?
  {
  }

  /** An inverse domain with no voxels is refused with ValueError. */
  lemma EmptyInverseDomainRefused(s: BlockRegStatus, t: Transform, d: Image, u: Transform, e: Image)
    requires EmptyDomain(e)
    ensures NewBlockPairResult(s, Some(t), Some(d), Some(u), Some(e)).Err?
  {
  }

  /** A forward transform with a non-empty domain, with or without an inverse pair, is accepted. */
  lemma CompleteResultAccepted(s: BlockRegStatus, t: Transform, d: Image, u: Transform, e: Image)
    requires !EmptyDomain(d) && !EmptyDomain(e)
    ensures NewBlockPairResult(s, Some(t), Some(d), None, None).Ok?
    ensures NewBlockPairResult(s, Some(t), Some(d), Some(u), Some(e)).Ok?
  {
  }

  /** A block header paired with the result of registering that block. */
  datatype LocatedBlockResult = LocatedBlockResult(fixedInfo: BlockInfo, result: BlockPairRegistrationResult)

  /** The forward and optional inverse transform built from all blocks. */
  datatype RegistrationTransformResult<T> = RegistrationTransformResult(transform: T, invTransform: Option<T>)

  /** An N-dimensional array of status codes, flattened in row-major order. */
  datatype StatusGrid = StatusGrid(shape: seq<nat>, cells: seq<nat>)
  {
    predicate WellFormed() { |cells| == Product(shape) }
  }

  /** The overall result: the fused transforms and one status per chunk of the grid. */
  datatype RegistrationResult<T> = RegistrationResult(transforms: RegistrationTransformResult<T>, status: StatusGrid)
}
