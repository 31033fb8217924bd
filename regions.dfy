/**
 * ITK's ImageRegion: a start index and a size per axis, with the
 * semantics of its Crop and IsInside members.
 */
module Regions {
  /** An N-dimensional ITK image region; `size` is unsigned in ITK. */
  datatype ImageRegion = ImageRegion(index: seq<int>, size: seq<nat>)
  {
    predicate WellFormed() { |index| == |size| }

    function Dim(): nat { |index| }

    /** ITK's GetUpperIndex along one axis: the last index inside the region. */
    function UpperIndex(a: nat): int
      requires WellFormed() && a < Dim()
    {
      index[a] + size[a] - 1
    }

    /** One past the last index along axis `a`. */
    function End(a: nat): int
      requires WellFormed() && a < Dim()
    {
      index[a] + size[a]
    }

    /** The discrete index `p` lies in the region. */
    predicate Contains(p: seq<int>)
      requires WellFormed()
    {
      |p| == Dim() && forall a :: 0 <= a < Dim() ==> index[a] <= p[a] < End(a)
    }
  }

  /**
   * A region built by ITK's SetIndex followed by SetUpperIndex: the size
   * along each axis is upper - index + 1.
   */
  function WithUpperIndex(index: seq<int>, upper: seq<int>): (r: ImageRegion)
    requires |index| == |upper|
    requires forall a :: 0 <= a < |index| ==> index[a] <= upper[a] + 1
    ensures r.WellFormed() && r.Dim() == |index| && r.index == index
    ensures forall a :: 0 <= a < |index| ==> r.UpperIndex(a) == upper[a]
  {
    ImageRegion(index, seq(|index|, a requires 0 <= a < |index| => (upper[a] - index[a] + 1) as nat))
  }

  function IMin(a: int, b: int): int { if a <= b then a else b }

  function IMax(a: int, b: int): int { if a <= b then b else a }

  predicate SameDim(r: ImageRegion, s: ImageRegion)
  {
    r.WellFormed() && s.WellFormed() && r.Dim() == s.Dim()
  }

  /** The two regions share a slab along every axis: the test Crop makes before it crops. */
  predicate Overlaps(r: ImageRegion, bound: ImageRegion)
    requires SameDim(r, bound)
  {
    forall a :: 0 <= a < r.Dim() ==> r.index[a] < bound.End(a) && bound.index[a] < r.End(a)
  }

  /** `inner`'s extent lies within `outer`'s extent on every axis (an empty `inner` included). */
  predicate Within(inner: ImageRegion, outer: ImageRegion)
    requires SameDim(inner, outer)
  {
    forall a :: 0 <= a < inner.Dim() ==> outer.index[a] <= inner.index[a] && inner.End(a) <= outer.End(a)
  }

  /**
   * ITK's `outer.IsInside(inner)`: `inner` is non-empty on every axis and
   * lies within `outer`.
   */
  predicate IsInside(outer: ImageRegion, inner: ImageRegion)
    requires SameDim(inner, outer)
  {
    forall a :: 0 <= a < inner.Dim() ==>
      outer.index[a] <= inner.index[a] && inner.size[a] != 0 && inner.End(a) <= outer.End(a)
  }

  /**
   * ITK's `region.Crop(bound)`: when the regions overlap on every axis the
   * region becomes their intersection and the call answers true; otherwise
   * the region is left as it was and the call answers false.
   */
  function Crop(region: ImageRegion, bound: ImageRegion): (res: (ImageRegion, bool))
    requires SameDim(region, bound)
    ensures SameDim(res.0, region)
    ensures res.1 == Overlaps(region, bound)
    ensures !res.1 ==> res.0 == region
    ensures res.1 ==> Within(res.0, bound) && Within(res.0, region)
    ensures res.1 ==> forall a :: 0 <= a < region.Dim() ==>
      res.0.index[a] == IMax(region.index[a], bound.index[a]) && res.0.End(a) == IMin(region.End(a), bound.End(a))
    ensures res.1 ==> forall p :: res.0.Contains(p) <==> region.Contains(p) && bound.Contains(p)
  {
    if !Overlaps(region, bound) then (region, false)
    else
      var n := region.Dim();
      var lo := seq(n, a requires 0 <= a < n => IMax(region.index[a], bound.index[a]));
      var size := seq(n, a requires 0 <= a < n =>
        (IMin(region.End(a), bound.End(a)) - IMax(region.index[a], bound.index[a])) as nat);
      var cropped := ImageRegion(lo, size);
      assert forall a :: 0 <= a < n ==> cropped.End(a) == IMin(region.End(a), bound.End(a));
      (cropped, true)
  }

  /** A region inside the bound is left unchanged by Crop. */
  lemma CropInside(region: ImageRegion, bound: ImageRegion)
    requires SameDim(region, bound)
    requires IsInside(bound, region)
    ensures Crop(region, bound) == (region, true)
  {
    var c := Crop(region, bound).0;
    assert Overlaps(region, bound);
    assert c.index == region.index;
    assert c.size == region.size;
  }

  /** Whatever lies within both the region and the bound lies within the cropped region. */
  lemma CropKeepsWithin(region: ImageRegion, bound: ImageRegion, inner: ImageRegion)
    requires SameDim(region, bound) && SameDim(inner, region)
    requires Within(inner, region) && Within(inner, bound)
    requires forall a :: 0 <= a < inner.Dim() ==> inner.size[a] != 0
    ensures Crop(region, bound).1 && Within(inner, Crop(region, bound).0)
  {
    assert Overlaps(region, bound) by {
      forall a | 0 <= a < region.Dim()
        ensures region.index[a] < bound.End(a) && bound.index[a] < region.End(a)
      {
        assert inner.size[a] != 0;
      }
    }
  }

  /** A cropped region that is non-empty on every axis satisfies IsInside. */
  lemma CroppedIsInside(region: ImageRegion, bound: ImageRegion)
    requires SameDim(region, bound)
    requires Crop(region, bound).1
    requires forall a :: 0 <= a < region.Dim() ==> Crop(region, bound).0.size[a] != 0
    ensures IsInside(bound, Crop(region, bound).0)
  {
  }

  /** Cropping twice to the same bound is cropping once. */
  lemma {:induction false} CropIdempotent(region: ImageRegion, bound: ImageRegion)
    requires SameDim(region, bound)
    ensures Crop(Crop(region, bound).0, bound).0 == Crop(region, bound).0
  {
    var (c, ok) := Crop(region, bound);
    if ok && Overlaps(c, bound) {
      var (d, _) := Crop(c, bound);
      assert d.index == c.index;
      assert d.size == c.size;
    }
  }
}
