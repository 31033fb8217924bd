/**
 * Helpers of the Elastix backend: the initial centre-to-centre
 * translation, the conversion of Elastix results into a composite of
 * typed ITK transforms, and the flattening of nested composites.
 */
module ElastixUtil {
  import opened Wrappers
  import opened Geometry
  import opened ImageMeta
  import opened Transforms
  import opened BlockImage

  /** compute_initial_translation: a translation by source midpoint less target midpoint. */
  function ComputeInitialTranslation(source: Image, target: Image): (t: Transform)
    ensures t.Translation?
  {
    Translation(Sub(GetPhysicalMidpoint(source, None), GetPhysicalMidpoint(target, None)))
  }

  /** The initial translation carries the target's physical midpoint onto the source's. */
  lemma InitialTranslationMatchesMidpoints(source: Image, target: Image)
    ensures Apply(ComputeInitialTranslation(source, target), GetPhysicalMidpoint(target, None)) == GetPhysicalMidpoint(source, None)
  {
    var m, n := GetPhysicalMidpoint(source, None), GetPhysicalMidpoint(target, None);
    assert Add(n, Sub(m, n)) == m;
  }

  // ---------------------------------------------------------------------
  // get_elx_itk_transforms
  // ---------------------------------------------------------------------

  /**
   * itk_transform_type.cast: succeeds exactly when the transform is of the
   * requested class.
   */
  predicate CastSucceeds(t: Transform, typeName: string)
  {
    TypeName(t) == typeName
  }

  /** Every requested (non-None) type matches the transform at its index. */
  predicate AllCastsSucceed(converted: seq<Transform>, types: seq<Option<string>>)
    requires |converted| == |types|
  {
    forall i :: 0 <= i < |types| && types[i].Some? ==> CastSucceeds(converted[i], types[i].value)
  }

  /** The composite's members: the transforms whose type is requested, in order. */
  function Requested(converted: seq<Transform>, types: seq<Option<string>>): (ms: seq<Transform>)
    requires |converted| == |types|
    ensures |ms| <= |types|
  {
    if |types| == 0 then []
    else
      var n := |types| - 1;
      Requested(converted[..n], types[..n]) + (if types[n].Some? then [converted[n]] else [])
  }

  /** How many types are requested (not None). */
  function RequestedCount(types: seq<Option<string>>): nat
  {
    if |types| == 0 then 0 else RequestedCount(types[..|types| - 1]) + (if types[|types| - 1].Some? then 1 else 0)
  }

  /** The position among the members of the transform at index i: the requested types before it. */
  lemma {:induction false} RequestedAt(converted: seq<Transform>, types: seq<Option<string>>, i: nat)
    requires |converted| == |types| && i < |types| && types[i].Some?
    ensures |Requested(converted, types)| == RequestedCount(types)
    ensures RequestedCount(types[..i]) < |Requested(converted, types)|
    ensures Requested(converted, types)[RequestedCount(types[..i])] == converted[i]
  {
    var n := |types| - 1;
    assert converted[..n][..n] == converted[..n] && types[..n][..n] == types[..n];
    RequestedLength(converted, types);
    if i < n {
      assert types[..n][..i] == types[..i];
      RequestedAt(converted[..n], types[..n], i);
    } else {
      RequestedLength(converted[..n], types[..n]);
    }
  }

  /** One member per requested type. */
  lemma {:induction false} RequestedLength(converted: seq<Transform>, types: seq<Option<string>>)
    requires |converted| == |types|
    ensures |Requested(converted, types)| == RequestedCount(types)
  {
    if |types| > 0 {
      var n := |types| - 1;
      RequestedLength(converted[..n], types[..n]);
    }
  }

  /**
   * get_elx_itk_transforms, given the registration's transforms already
   * converted to ITK: ValueError when their number differs from the
   * number of types; otherwise, skipping None types, each transform cast to
   * the type at its index and added to a new composite in order; None (no
   * composite) when a cast fails.
   */
  method GetElxItkTransforms(converted: seq<Transform>, types: seq<Option<string>>) returns (r: Result<Option<Transform>>)
    ensures r.Err? <==> |converted| != |types|
    ensures r.Err? ==> r.error.ValueError?
    ensures r.Ok? ==> (r.value.None? <==> !AllCastsSucceed(converted, types))
    ensures r.Ok? && r.value.Some? ==> r.value.value == Composite(Requested(converted, types))
  {
    if |converted| != |types| {
      return Err(ValueError("Elastix to ITK Transform conversion failed"));
    }
    var members: seq<Transform> := [];
    for i := 0 to |types|
      invariant forall j :: 0 <= j < i && types[j].Some? ==> CastSucceeds(converted[j], types[j].value)
      invariant members == Requested(converted[..i], types[..i])
    {
      assert converted[..i + 1][..i] == converted[..i] && types[..i + 1][..i] == types[..i];
      if types[i].None? {
        continue;
      }
      if !CastSucceeds(converted[i], types[i].value) {
        return Ok(None);
      }
      members := members + [converted[i]];
    }
    assert converted[..|types|] == converted && types[..|types|] == types;
    return Ok(Some(Composite(members)));
  }

  // ---------------------------------------------------------------------
  // flatten_composite_transform
  // ---------------------------------------------------------------------

  /** Not an itk.CompositeTransform. */
  predicate IsLeaf(t: Transform) { !t.Composite? }

  /**
   * _flatten_composite_transform_recursive: a non-composite transform is
   * its own list; a composite is the flattening of its members, first to
   * last, concatenated.
   */
  function FlattenRecursive(t: Transform): (ls: seq<Transform>)
    decreases t, 1
  {
    match t
    case Composite(members) => FlattenAll(members)
    case _ => [t]
  }

  /** The flattenings of a member list, concatenated in member order. */
  function FlattenAll(ts: seq<Transform>): (ls: seq<Transform>)
    decreases ts, 0
  {
    if |ts| == 0 then [] else FlattenAll(ts[..|ts| - 1]) + FlattenRecursive(ts[|ts| - 1])
  }

  /** The number of non-composite transforms reached from `t`. */
  function LeafCount(t: Transform): nat
    decreases t, 1
  {
    match t
    case Composite(members) => LeafCountAll(members)
    case _ => 1
  }

  function LeafCountAll(ts: seq<Transform>): nat
    decreases ts, 0
  {
    if |ts| == 0 then 0 else LeafCountAll(ts[..|ts| - 1]) + LeafCount(ts[|ts| - 1])
  }

  /** The flattening holds no composite, one member per leaf. */
  lemma {:induction false} FlattenRecursiveLeaves(t: Transform)
    ensures forall i :: 0 <= i < |FlattenRecursive(t)| ==> IsLeaf(FlattenRecursive(t)[i])
    ensures |FlattenRecursive(t)| == LeafCount(t)
    decreases t, 1
  {
    if t.Composite? {
      FlattenAllLeaves(t.members);
    }
  }

  lemma {:induction false} FlattenAllLeaves(ts: seq<Transform>)
    ensures forall i :: 0 <= i < |FlattenAll(ts)| ==> IsLeaf(FlattenAll(ts)[i])
    ensures |FlattenAll(ts)| == LeafCountAll(ts)
    decreases ts, 0
  {
    if |ts| > 0 {
      var init, last := ts[..|ts| - 1], ts[|ts| - 1];
      FlattenAllLeaves(init);
      FlattenRecursiveLeaves(last);
      var a, b := FlattenAll(init), FlattenRecursive(last);
      assert forall i :: 0 <= i < |a + b| ==> (a + b)[i] == (if i < |a| then a[i] else b[i - |a|]);
    }
  }

  /** Members are flattened left to right: the flattening of a concatenation is the concatenation of the flattenings. */
  lemma {:induction false} FlattenAllAppend(a: seq<Transform>, b: seq<Transform>)
    ensures FlattenAll(a + b) == FlattenAll(a) + FlattenAll(b)
    decreases |b|
  {
    if |b| == 0 {
      assert a + b == a;
    } else {
      var n := |b| - 1;
      assert (a + b)[..|a + b| - 1] == a + b[..n];
      FlattenAllAppend(a, b[..n]);
    }
  }

  /** A flattening applies points exactly as the transform it came from. */
  lemma {:induction false} FlattenRecursiveApplies(t: Transform, p: Point)
    ensures ApplyAll(FlattenRecursive(t), p) == Apply(t, p)
    decreases t, 1
  {
    if t.Composite? {
      FlattenAllApplies(t.members, p);
    } else {
      assert [t][..0] == [];
    }
  }

  lemma {:induction false} FlattenAllApplies(ts: seq<Transform>, p: Point)
    ensures ApplyAll(FlattenAll(ts), p) == ApplyAll(ts, p)
    decreases ts, 0
  {
    if |ts| > 0 {
      var init, last := ts[..|ts| - 1], ts[|ts| - 1];
      ApplyAllAppend(FlattenAll(init), FlattenRecursive(last), p);
      FlattenRecursiveApplies(last, p);
      FlattenAllApplies(init, Apply(last, p));
    }
  }

  /** A list of non-composite transforms flattens to itself. */
  lemma {:induction false} FlattenAllOfLeaves(ts: seq<Transform>)
    requires forall i :: 0 <= i < |ts| ==> IsLeaf(ts[i])
    ensures FlattenAll(ts) == ts
  {
    if |ts| > 0 {
      var init := ts[..|ts| - 1];
      FlattenAllOfLeaves(init);
    }
  }

  /**
   * flatten_composite_transform: the recursive flattening appended, in
   * order, to a new composite.
   */
  method FlattenCompositeTransform(t: Transform) returns (out: Transform)
    ensures out == Composite(FlattenRecursive(t))
  {
    var inner := FlattenRecursive(t);
    var members: seq<Transform> := [];
    for i := 0 to |inner|
      invariant members == inner[..i]
    {
      members := members + [inner[i]];
    }
    assert inner[..|inner|] == inner;
    return Composite(members);
  }

  /**
   * What flatten_composite_transform promises: a one-level composite with
   * no composite member, one member per leaf, applying points as the
   * input does; a non-composite input becomes a one-member composite; and
   * flattening again changes nothing.
   */
  lemma FlattenedComposite(t: Transform, p: Point)
    ensures forall i :: 0 <= i < |FlattenRecursive(t)| ==> IsLeaf(FlattenRecursive(t)[i])
    ensures |FlattenRecursive(t)| == LeafCount(t)
    ensures Apply(Composite(FlattenRecursive(t)), p) == Apply(t, p)
    ensures IsLeaf(t) ==> FlattenRecursive(t) == [t]
    ensures FlattenRecursive(Composite(FlattenRecursive(t))) == FlattenRecursive(t)
  {
    FlattenRecursiveLeaves(t);
    FlattenRecursiveApplies(t, p);
    FlattenAllOfLeaves(FlattenRecursive(t));
  }
}
