/**
 * ITK spatial transforms as values: a translation, any other transform
 * given by its class name and its point map, and ITK's CompositeTransform.
 */
module Transforms {
  import opened Geometry

  datatype Transform =
    | Translation(offset: Point)
      /** Any non-composite ITK transform: its class name and the map it applies to points. */
    | Generic(kind: string, fn: Point -> Point)
      /** itk.CompositeTransform: members in the order they were added. */
    | Composite(members: seq<Transform>)

  /** The transform's class name, as ITK's cast checks it. */
  function TypeName(t: Transform): string
  {
    match t
    case Translation(_) => "TranslationTransform"
    case Generic(kind, _) => kind
    case Composite(_) => "CompositeTransform"
  }

  /** TransformPoint. */
  function Apply(t: Transform, p: Point): Point
    decreases t, 1
  {
    match t
    case Translation(offset) => Add(p, offset)
    case Generic(_, f) => f(p)
    case Composite(members) => ApplyAll(members, p)
  }

  /**
   * A CompositeTransform applies its members in reverse order of addition:
   * the last member added is applied to the point first.
   */
  function ApplyAll(ts: seq<Transform>, p: Point): Point
    decreases ts, 0
  {
    if |ts| == 0 then p else ApplyAll(ts[..|ts| - 1], Apply(ts[|ts| - 1], p))
  }

  /** Composing two member lists is applying the later list first. */
  lemma {:induction false} ApplyAllAppend(a: seq<Transform>, b: seq<Transform>, p: Point)
    ensures ApplyAll(a + b, p) == ApplyAll(a, ApplyAll(b, p))
    decreases |b|
  {
    if |b| == 0 {
      assert a + b == a;
    } else {
      var last := b[|b| - 1];
      assert (a + b)[..|a + b| - 1] == a + b[..|b| - 1];
      ApplyAllAppend(a, b[..|b| - 1], Apply(last, p));
    }
  }

  /** A new itk.TranslationTransform, translated by `offset`, moves every point by `offset`. */
  lemma TranslationMoves(offset: Point, p: Point)
    ensures forall i :: 0 <= i < 3 ==> Apply(Translation(offset), p)[i] == p[i] + offset[i]
  {
  }
}
