/**
 * The reduction step of the displacement-field backend: gather the
 * successful block results into a distance-weighted transform collection
 * and, for the forward transform, sample that collection into a
 * displacement field over the fixed image.
 */
module Reduce {
  import opened Wrappers
  import opened Geometry
  import opened ImageMeta
  import opened Transforms
  import opened BlockInterface
  import opened TransformCollections
  import opened DisplacementFields

  /** The block registered successfully. */
  predicate IsSuccess(x: LocatedBlockResult)
  {
    x.result.status == SUCCESS
  }

  /** The successful-result test as a filter argument. */
  function SuccessTest(): LocatedBlockResult -> bool
  {
    x => IsSuccess(x)
  }

  /**
   * Pushing the block's entry is accepted: the block failed, or it carries
   * a forward transform (the collection refuses an entry whose transform
   * is not an ITK transform with TypeError).
   */
  predicate Pushable(x: LocatedBlockResult)
  {
    x.result.status != SUCCESS || x.result.transform.Some?
  }

  /** The collection entry built from a block result: its transform over its transform domain. */
  function EntryOf(x: LocatedBlockResult): (e: TransformEntry)
    requires x.result.transform.Some?
    ensures e.transform == x.result.transform.value && e.domain == x.result.transformDomain
  {
    TransformEntry(x.result.transform.value, x.result.transformDomain)
  }

  /** The entries of a run of successful results, one per result, in order. */
  function EntriesOf(xs: seq<LocatedBlockResult>): (es: seq<TransformEntry>)
    requires forall i :: 0 <= i < |xs| ==> xs[i].result.transform.Some?
    ensures |es| == |xs|
    ensures forall i :: 0 <= i < |xs| ==> es[i] == EntryOf(xs[i])
  {
    seq(|xs|, i requires 0 <= i < |xs| => EntryOf(xs[i]))
  }

  /** What the gathering loop pushes after visiting the results in order: the entry of every successful result. */
  function SuccessEntries(results: seq<LocatedBlockResult>): (es: seq<TransformEntry>)
    requires forall i :: 0 <= i < |results| ==> Pushable(results[i])
    ensures |es| <= |results|
  {
    if |results| == 0 then []
    else
      var last := results[|results| - 1];
      assert Pushable(last);
      SuccessEntries(results[..|results| - 1]) + (if IsSuccess(last) then [EntryOf(last)] else [])
  }

  /** The successful results, in input order, each carry a forward transform. */
  lemma SuccessfulHaveTransforms(results: seq<LocatedBlockResult>)
    requires forall i :: 0 <= i < |results| ==> Pushable(results[i])
    ensures forall i :: 0 <= i < |Filter(results, SuccessTest())| ==> Filter(results, SuccessTest())[i].result.transform.Some?
  {
    FilterKeeps(results, SuccessTest(), (x: LocatedBlockResult) => x.result.transform.Some?);
  }

  /**
   * The gathered entries are exactly the entries of the successful
   * results, selected in input order: no failed block is pushed, no
   * successful one is dropped, and each keeps its own transform domain.
   */
  lemma {:induction false} SuccessEntriesAreSelected(results: seq<LocatedBlockResult>)
    requires forall i :: 0 <= i < |results| ==> Pushable(results[i])
    ensures forall i :: 0 <= i < |Filter(results, SuccessTest())| ==> Filter(results, SuccessTest())[i].result.transform.Some?
    ensures SuccessEntries(results) == EntriesOf(Filter(results, SuccessTest()))
  {
    SuccessfulHaveTransforms(results);
    if |results| > 0 {
      var init := results[..|results| - 1];
      SuccessEntriesAreSelected(init);
    }
  }

  /** Nothing is gathered exactly when no block succeeded. */
  lemma SuccessEntriesEmpty(results: seq<LocatedBlockResult>)
    requires forall i :: 0 <= i < |results| ==> Pushable(results[i])
    ensures |SuccessEntries(results)| == 0 <==> forall i :: 0 <= i < |results| ==> !IsSuccess(results[i])
  {
    SuccessEntriesAreSelected(results);
    FilterEmpty(results, SuccessTest());
  }

  /**
   * The gathering loop: a new distance-weighted collection, and a push of
   * every successful result's transform and transform domain in input
   * order; TypeError when a successful result has no transform to push.
   */
  method CollectSuccessful(results: seq<LocatedBlockResult>) returns (r: Result<TransformCollection>)
    ensures r.Err? <==> !(forall i :: 0 <= i < |results| ==> Pushable(results[i]))
    ensures r.Err? ==> r.error.TypeError?
    ensures r.Ok? ==> fresh(r.value) && r.value.blend == DistanceWeightedMean
    ensures r.Ok? ==> r.value.entries == SuccessEntries(results)
  {
    var c := new TransformCollection(None, Some(DistanceWeightedMean));
    for i := 0 to |results|
      invariant forall j :: 0 <= j < i ==> Pushable(results[j])
      invariant fresh(c) && c.blend == DistanceWeightedMean
      invariant c.entries == SuccessEntries(results[..i])
    {
      var x := results[i];
      assert results[..i + 1][..i] == results[..i];
      if IsSuccess(x) {
        if x.result.transform.None? {
          return Err(TypeError("Bad entry transform type"));
        }
        c.Push(EntryOf(x));
      }
    }
    assert results[..|results|] == results;
    return Ok(c);
  }

  /** Every entry carries a transform domain. */
  predicate AllBounded(es: seq<TransformEntry>)
  {
    forall i :: 0 <= i < |es| ==> es[i].domain.Some?
  }

  /**
   * The domain check: the physical regions of the gathered domains are
   * computed for the log, which fails on the first entry without one.
   */
  method AllDomainsPresent(es: seq<TransformEntry>) returns (ok: bool)
    ensures ok <==> AllBounded(es)
  {
    var i := 0;
    while i < |es|
      invariant 0 <= i <= |es|
      invariant forall j :: 0 <= j < i ==> es[j].domain.Some?
    {
      if es[i].domain.None? {
        return false;
      }
      i := i + 1;
    }
    return true;
  }

  /**
   * What the reduction yields once every result is pushable, with grid
   * scale factors `scale`: ValueError when no block succeeded,
   * AttributeError when a gathered entry has no domain, and otherwise
   * the field over FieldGrid, or its AssertionError.
   */
  predicate ReduceOutcome(results: seq<LocatedBlockResult>, reference: Image, initial: Transform, scale: Point,
                          res: Result<DisplacementFieldTransform>)
    requires forall i :: 0 <= i < |results| ==> Pushable(results[i])
  {
    var es := SuccessEntries(results);
    && ((forall i :: 0 <= i < |results| ==> !IsSuccess(results[i])) ==> res.Err? && res.error.ValueError?)
    && (|es| > 0 && !AllBounded(es) ==> res.Err? && res.error.AttributeError?)
    && (|es| > 0 && AllBounded(es) ==> (res.Err? <==> FieldGrid(reference, initial, scale).Err?))
    && (res.Ok? ==> |es| > 0 && AllBounded(es) && res.value.field.meta == FieldGrid(reference, initial, scale).value)
  }

  /** The grid scale factors given, or `default` when none are. */
  function ScaleOr(scaleFactors: Option<Point>, default: Point): (s: Point)
    ensures scaleFactors.Some? ==> s == scaleFactors.value
    ensures scaleFactors.None? ==> s == default
  {
    if scaleFactors.Some? then scaleFactors.value else default
  }

  /**
   * reduce_to_deformation_field_transform: gather the successful results;
   * ValueError when none succeeded; AttributeError when a gathered entry
   * has no transform domain (the domains' physical regions are computed
   * for the log); then the displacement field sampled over the reference
   * at the given scale factors, [10, 10, 10] when none are given.
   * `collection` is the collection the field was sampled from.
   */
  method ReduceToDeformationFieldTransform(results: seq<LocatedBlockResult>, reference: Image, initial: Transform,
                                           scaleFactors: Option<Point>)
    returns (res: Result<DisplacementFieldTransform>, ghost collection: TransformCollection?)
    ensures !(forall i :: 0 <= i < |results| ==> Pushable(results[i])) ==> res.Err? && res.error.TypeError?
    ensures (forall i :: 0 <= i < |results| ==> Pushable(results[i])) ==>
      ReduceOutcome(results, reference, initial, ScaleOr(scaleFactors, [10.0, 10.0, 10.0]), res)
    ensures res.Ok? ==> collection != null && fresh(collection) && collection.blend == DistanceWeightedMean
    ensures res.Ok? ==> collection.entries == SuccessEntries(results) && fresh(res.value.field.buffer) && res.value.field.Valid()
    ensures res.Ok? ==> SampledFrom(res.value.field, collection)
  {
    collection := null;
    var gathered := CollectSuccessful(results);
    if gathered.Err? {
      return Err(gathered.error), collection;
    }
    var c := gathered.value;
    collection := c;
    SuccessEntriesEmpty(results);
    if |c.entries| == 0 {
      return Err(ValueError("Failed to compose at least one transform for sampling")), collection;
    }
    var bounded := AllDomainsPresent(c.entries);
    if !bounded {
      return Err(AttributeError("'NoneType' object has no attribute 'GetLargestPossibleRegion'")), collection;
    }
    var scale := ScaleOr(scaleFactors, [10.0, 10.0, 10.0]);
    res := CollectionToDeformationFieldTransform(c, reference, initial, scale);
  }

  /**
   * ReduceToDisplacementFieldMethod: the forward transform is the sampled
   * displacement field at the given grid scale factors, [1, 1, 1] when
   * none are given; there is no inverse transform.
   */
  method ReduceToDisplacementFieldMethod(results: seq<LocatedBlockResult>, reference: Image, initial: Transform,
                                         scaleFactors: Option<Point>)
    returns (res: Result<RegistrationTransformResult<DisplacementFieldTransform>>, ghost collection: TransformCollection?)
    ensures !(forall i :: 0 <= i < |results| ==> Pushable(results[i])) ==> res.Err? && res.error.TypeError?
    ensures (forall i :: 0 <= i < |results| ==> Pushable(results[i])) ==>
      ReduceOutcome(results, reference, initial, ScaleOr(scaleFactors, [1.0, 1.0, 1.0]), Forward(res))
    ensures res.Ok? ==> res.value.invTransform.None?
    ensures res.Ok? ==> collection != null && fresh(collection) && collection.entries == SuccessEntries(results)
    ensures res.Ok? ==> collection.blend == DistanceWeightedMean && res.value.transform.field.Valid()
    ensures res.Ok? ==> SampledFrom(res.value.transform.field, collection)
  {
    var scale := ScaleOr(scaleFactors, [1.0, 1.0, 1.0]);
    var forward;
    forward, collection := ReduceToDeformationFieldTransform(results, reference, initial, Some(scale));
    if forward.Err? {
      return Err(forward.error), collection;
    }
    return Ok(RegistrationTransformResult(forward.value, None)), collection;
  }

  /** The forward transform of a registration result, or its error. */
  function Forward(r: Result<RegistrationTransformResult<DisplacementFieldTransform>>): (f: Result<DisplacementFieldTransform>)
    ensures r.Ok? <==> f.Ok?
    ensures r.Ok? ==> f.value == r.value.transform
    ensures r.Err? ==> f.error == r.error
  {
    if r.Ok? then Ok(r.value.transform) else Err(r.error)
  }

  /**
   * TransformCollectionReduceResultsMethod: the gathered distance-weighted
   * collection itself, possibly empty, with no inverse transform.
   */
  method TransformCollectionReduceResultsMethod(results: seq<LocatedBlockResult>)
    returns (res: Result<RegistrationTransformResult<TransformCollection>>)
    ensures res.Err? <==> !(forall i :: 0 <= i < |results| ==> Pushable(results[i]))
    ensures res.Err? ==> res.error.TypeError?
    ensures res.Ok? ==> fresh(res.value.transform) && res.value.invTransform.None?
    ensures res.Ok? ==> res.value.transform.entries == SuccessEntries(results)
    ensures res.Ok? ==> res.value.transform.blend == DistanceWeightedMean
  {
    var gathered := CollectSuccessful(results);
    if gathered.Err? {
      return Err(gathered.error);
    }
    return Ok(RegistrationTransformResult(gathered.value, None));
  }
}
