/**
 * A piecewise transform built from per-block transforms, each valid over
 * an optional domain: the entries whose domains contain a point each map
 * it, and the candidates are blended into one output point.
 */
module TransformCollections {
  import opened Wrappers
  import opened Geometry
  import opened Regions
  import opened ImageMeta
  import opened Transforms
  import opened BlockImage

  /** A transform and the image whose sample bounds it is valid over; None means valid everywhere. */
  datatype TransformEntry = TransformEntry(transform: Transform, domain: Option<Image>)

  /** The two blending methods the collection offers. */
  datatype BlendMethod = SimpleMean | DistanceWeightedMean

  /** Weight given to unbounded entries and to points on a domain's edge. */
  const MinWeight: real := 0.000000001

  // ---------------------------------------------------------------------
  // Selecting contributors
  // ---------------------------------------------------------------------

  /** `_bounds_contains`: the point lies between the per-axis min and max of the two rows, bounds included. */
  predicate BoundsContains(bounds: Box, p: Point)
  {
    forall a :: 0 <= a < 3 ==> Min(bounds[0][a], bounds[1][a]) <= p[a] && p[a] <= Max(bounds[0][a], bounds[1][a])
  }

  /**
   * Containment does not depend on which row holds which corner, and
   * both corners are contained: the test is inclusive at both bounds.
   */
  lemma BoundsContainsInclusive(bounds: Box, p: Point)
    ensures BoundsContains(bounds, p) <==> BoundsContains(Normalize(bounds), p)
    ensures BoundsContains(bounds, p) <==> BoundsContains([bounds[1], bounds[0]], p)
    ensures BoundsContains(bounds, bounds[0]) && BoundsContains(bounds, bounds[1])
  {
  }

  /** The entry may map `p`: it is unbounded or its domain's sample bounds contain `p`. */
  predicate Contributes(e: TransformEntry, p: Point)
  {
    e.domain.None? || BoundsContains(GetSampleBounds(e.domain.value, None), p)
  }

  /** The elements of `xs` that `keep` accepts, in order. */
  function Filter<T>(xs: seq<T>, keep: T -> bool): (ys: seq<T>)
    ensures |ys| <= |xs|
    ensures forall i :: 0 <= i < |ys| ==> keep(ys[i])
  {
    if |xs| == 0 then []
    else
      var rest := Filter(xs[..|xs| - 1], keep);
      if keep(xs[|xs| - 1]) then rest + [xs[|xs| - 1]] else rest
  }

  /** Nothing is kept exactly when nothing is accepted. */
  lemma {:induction false} FilterEmpty<T>(xs: seq<T>, keep: T -> bool)
    ensures |Filter(xs, keep)| == 0 <==> forall i :: 0 <= i < |xs| ==> !keep(xs[i])
  {
    if |xs| > 0 {
      var init := xs[..|xs| - 1];
      FilterEmpty(init, keep);
      assert forall i :: 0 <= i < |init| ==> init[i] == xs[i];
    }
  }

  /** A property every accepted element has, every kept element has. */
  lemma {:induction false} FilterKeeps<T>(xs: seq<T>, keep: T -> bool, q: T -> bool)
    requires forall i :: 0 <= i < |xs| && keep(xs[i]) ==> q(xs[i])
    ensures forall i :: 0 <= i < |Filter(xs, keep)| ==> q(Filter(xs, keep)[i])
  {
    if |xs| > 0 {
      var n := |xs| - 1;
      var init := xs[..n];
      assert forall i :: 0 <= i < |init| ==> init[i] == xs[i];
      FilterKeeps(init, keep, q);
    }
  }

  /** Filtering a concatenation filters each part, keeping the order. */
  lemma {:induction false} FilterAppend<T>(a: seq<T>, b: seq<T>, keep: T -> bool)
    ensures Filter(a + b, keep) == Filter(a, keep) + Filter(b, keep)
    decreases |b|
  {
    if |b| == 0 {
      assert a + b == a;
    } else {
      var n := |b| - 1;
      assert (a + b)[..|a + b| - 1] == a + b[..n];
      assert (a + b)[|a + b| - 1] == b[n];
      FilterAppend(a, b[..n], keep);
    }
  }

  /** The contribution test at `p`, as a function of the entry. */
  function ContributesAt(p: Point): TransformEntry -> bool
  {
    e => Contributes(e, p)
  }

  /** The entries that may map `p`, in collection order. */
  function Contributors(entries: seq<TransformEntry>, p: Point): (cs: seq<TransformEntry>)
    ensures |cs| <= |entries|
    ensures forall i :: 0 <= i < |cs| ==> Contributes(cs[i], p)
  {
    Filter(entries, ContributesAt(p))
  }

  /** No entry is selected exactly when no entry may map `p`. */
  lemma ContributorsEmpty(entries: seq<TransformEntry>, p: Point)
    ensures |Contributors(entries, p)| == 0 <==> forall i :: 0 <= i < |entries| ==> !Contributes(entries[i], p)
  {
    FilterEmpty(entries, ContributesAt(p));
  }

  /** Bounds every contributing entry's image of `p` respects are respected by every selected one. */
  lemma ContributorsBounded(entries: seq<TransformEntry>, p: Point, a: nat, lo: real, hi: real)
    requires a < 3
    requires forall i :: 0 <= i < |entries| && Contributes(entries[i], p) ==> lo <= Apply(entries[i].transform, p)[a] <= hi
    ensures forall i :: 0 <= i < |Contributors(entries, p)| ==> lo <= Apply(Contributors(entries, p)[i].transform, p)[a] <= hi
  {
    var q := (e: TransformEntry) => lo <= Apply(e.transform, p)[a] <= hi;
    FilterKeeps(entries, ContributesAt(p), q);
  }

  /** Selecting from a concatenation selects from each part, keeping the order. */
  lemma ContributorsAppend(a: seq<TransformEntry>, b: seq<TransformEntry>, p: Point)
    ensures Contributors(a + b, p) == Contributors(a, p) + Contributors(b, p)
  {
    FilterAppend(a, b, ContributesAt(p));
  }

  // ---------------------------------------------------------------------
  // Blending
  // ---------------------------------------------------------------------

  /** Each contributor's image of `p`. */
  function Candidates(p: Point, cs: seq<TransformEntry>): (pts: seq<Point>)
    ensures |pts| == |cs|
    ensures forall i :: 0 <= i < |cs| ==> pts[i] == Apply(cs[i].transform, p)
  {
    seq(|cs|, i requires 0 <= i < |cs| => Apply(cs[i].transform, p))
  }

  function SumPoints(pts: seq<Point>): Point
  {
    if |pts| == 0 then Zero else Add(SumPoints(pts[..|pts| - 1]), pts[|pts| - 1])
  }

  /** `blend_simple_mean`: the unweighted mean of the candidates. */
  function BlendSimpleMean(p: Point, cs: seq<TransformEntry>): Point
    requires |cs| > 0
  {
    Scale(1.0 / |cs| as real, SumPoints(Candidates(p, cs)))
  }

  /** Bounds on one coordinate of a sum of points bounded on that coordinate. */
  lemma {:induction false} SumPointsBounds(pts: seq<Point>, a: nat, lo: real, hi: real)
    requires a < 3
    requires forall i :: 0 <= i < |pts| ==> lo <= pts[i][a] <= hi
    ensures |pts| as real * lo <= SumPoints(pts)[a] <= |pts| as real * hi
  {
    if |pts| > 0 {
      var init := pts[..|pts| - 1];
      SumPointsBounds(init, a, lo, hi);
      var s, x := SumPoints(init)[a], pts[|pts| - 1][a];
      assert SumPoints(pts)[a] == s + x;
      assert (|pts| as real) * lo == (|init| as real) * lo + lo;
      assert (|pts| as real) * hi == (|init| as real) * hi + hi;
    }
  }

  /** `s` lies between `n` times `lo` and `n` times `hi`. */
  predicate ScaledWithin(s: real, n: real, lo: real, hi: real)
  {
    n * lo <= s <= n * hi
  }

  /** A quotient by a positive count stays between bounds its numerator respects. */
  lemma DivideBounds(s: real, n: real, lo: real, hi: real)
    requires n > 0.0 && ScaledWithin(s, n, lo, hi)
    ensures lo <= 1.0 / n * s <= hi
  {
    assert 1.0 / n * s - lo == (s - n * lo) / n;
    assert hi - 1.0 / n * s == (n * hi - s) / n;
  }

  /** The simple mean lies between any bounds all candidates respect, coordinate by coordinate. */
  lemma SimpleMeanWithin(p: Point, cs: seq<TransformEntry>, a: nat, lo: real, hi: real)
    requires |cs| > 0 && a < 3
    requires forall i :: 0 <= i < |cs| ==> lo <= Apply(cs[i].transform, p)[a] <= hi
    ensures lo <= BlendSimpleMean(p, cs)[a] <= hi
  {
    var pts := Candidates(p, cs);
    assert forall i :: 0 <= i < |pts| ==> lo <= pts[i][a] <= hi;
    SumPointsBounds(pts, a, lo, hi);
    var n, s := |cs| as real, SumPoints(pts)[a];
    DivideBounds(s, n, lo, hi);
    assert BlendSimpleMean(p, cs)[a] == 1.0 / n * s;
  }

  /** Sum of the weights. */
  function SumReals(ws: seq<real>): real
  {
    if |ws| == 0 then 0.0 else SumReals(ws[..|ws| - 1]) + ws[|ws| - 1]
  }

  /** Sum of the points scaled by their weights. */
  function WeightedSum(pts: seq<Point>, ws: seq<real>): Point
    requires |pts| == |ws|
  {
    if |pts| == 0 then Zero
    else Add(WeightedSum(pts[..|pts| - 1], ws[..|ws| - 1]), Scale(ws[|ws| - 1], pts[|pts| - 1]))
  }

  /** The sum of positive weights is positive. */
  lemma {:induction false} SumRealsPositive(ws: seq<real>)
    requires |ws| > 0 && forall i :: 0 <= i < |ws| ==> ws[i] > 0.0
    ensures SumReals(ws) > 0.0
  {
    if |ws| > 1 {
      SumRealsPositive(ws[..|ws| - 1]);
    }
  }

  /** Adding one positively weighted term keeps a weighted sum between the scaled bounds. */
  lemma WeightedStep(s: real, t: real, w: real, x: real, lo: real, hi: real, total: real, sum: real)
    requires w > 0.0 && lo <= x <= hi && ScaledWithin(s, t, lo, hi)
    requires total == s + w * x && sum == t + w
    ensures ScaledWithin(total, sum, lo, hi)
  {
    MulNonnegative(w, x - lo);
    MulNonnegative(w, hi - x);
  }

  /** One coordinate of a weighted sum: the sum without the last point, plus the last point's weighted coordinate. */
  lemma WeightedSumLast(pts: seq<Point>, ws: seq<real>, a: nat)
    requires |pts| == |ws| && |ws| > 0 && a < 3
    ensures WeightedSum(pts, ws)[a] == WeightedSum(pts[..|pts| - 1], ws[..|ws| - 1])[a] + ws[|ws| - 1] * pts[|pts| - 1][a]
  {
  }

  /** Bounds on one coordinate of a positively weighted sum. */
  lemma {:induction false} WeightedSumBounds(pts: seq<Point>, ws: seq<real>, a: nat, lo: real, hi: real)
    requires |pts| == |ws| && a < 3
    requires forall i :: 0 <= i < |ws| ==> ws[i] > 0.0
    requires forall i :: 0 <= i < |pts| ==> lo <= pts[i][a] <= hi
    ensures ScaledWithin(WeightedSum(pts, ws)[a], SumReals(ws), lo, hi)
  {
    if |pts| > 0 {
      var n := |pts| - 1;
      var ip, iw := pts[..n], ws[..n];
      assert forall i :: 0 <= i < |iw| ==> iw[i] == ws[i];
      assert forall i :: 0 <= i < |ip| ==> ip[i] == pts[i];
      WeightedSumBounds(ip, iw, a, lo, hi);
      WeightedSumLast(pts, ws, a);
      var s, w, x, t := WeightedSum(ip, iw)[a], ws[n], pts[n][a], SumReals(iw);
      WeightedStep(s, t, w, x, lo, hi, WeightedSum(pts, ws)[a], SumReals(ws));
    } else {
      assert WeightedSum(pts, ws)[a] == 0.0 && SumReals(ws) == 0.0;
    }
  }

  /** numpy.average with positive weights. */
  function WeightedAverage(pts: seq<Point>, ws: seq<real>): Point
    requires |pts| == |ws| && |ws| > 0
    requires forall i :: 0 <= i < |ws| ==> ws[i] > 0.0
  {
    SumRealsPositive(ws);
    Scale(1.0 / SumReals(ws), WeightedSum(pts, ws))
  }

  /** A positively weighted average lies between any bounds all points respect. */
  lemma WeightedAverageWithin(pts: seq<Point>, ws: seq<real>, a: nat, lo: real, hi: real)
    requires |pts| == |ws| && |ws| > 0 && a < 3
    requires forall i :: 0 <= i < |ws| ==> ws[i] > 0.0
    requires forall i :: 0 <= i < |pts| ==> lo <= pts[i][a] <= hi
    ensures lo <= WeightedAverage(pts, ws)[a] <= hi
  {
    SumRealsPositive(ws);
    WeightedSumBounds(pts, ws, a, lo, hi);
    DivideBounds(WeightedSum(pts, ws)[a], SumReals(ws), lo, hi);
  }

  // ---------------------------------------------------------------------
  // Distance to a domain's edge
  // ---------------------------------------------------------------------

  /** Continuous-index distance from `p` to the lower edge of the domain along index axis `a`. */
  function LowerDistance(p: Point, domain: Image, a: nat): real
    requires a < 3
  {
    PhysicalToIndex(domain, p)[a] - (domain.largest.index[a] as real - 0.5)
  }

  /** Continuous-index distance from `p` to the upper edge along index axis `a`. */
  function UpperDistance(p: Point, domain: Image, a: nat): real
    requires a < 3
  {
    domain.largest.size[a] as real - LowerDistance(p, domain, a)
  }

  /**
   * `_pixel_distance_from_edge`: along each index axis, whichever of the
   * signed distances to the lower and upper edge has the smaller
   * magnitude, the lower one on ties.
   */
  function PixelDistanceFromEdge(p: Point, domain: Image): (d: Point)
    ensures forall a :: 0 <= a < 3 ==>
      (d[a] == LowerDistance(p, domain, a) || d[a] == UpperDistance(p, domain, a))
      && Abs(d[a]) <= Abs(LowerDistance(p, domain, a)) && Abs(d[a]) <= Abs(UpperDistance(p, domain, a))
      && (Abs(LowerDistance(p, domain, a)) <= Abs(UpperDistance(p, domain, a)) ==> d[a] == LowerDistance(p, domain, a))
  {
    seq(3, a requires 0 <= a < 3 =>
      if Abs(UpperDistance(p, domain, a)) < Abs(LowerDistance(p, domain, a)) then UpperDistance(p, domain, a)
      else LowerDistance(p, domain, a))
  }

  /**
   * A point whose continuous index lies within the domain's voxels, edges
   * included, is at a non-negative distance of at most half the size.
   */
  lemma PixelDistanceInside(p: Point, domain: Image, a: nat)
    requires a < 3
    requires domain.largest.index[a] as real - 0.5 <= PhysicalToIndex(domain, p)[a]
    requires PhysicalToIndex(domain, p)[a] <= (domain.largest.index[a] + domain.largest.size[a]) as real - 0.5
    ensures 0.0 <= PixelDistanceFromEdge(p, domain)[a] <= domain.largest.size[a] as real / 2.0
  {
  }

  /** Index of the first smallest of three values (numpy.argmin). */
  function ArgMin3(x: real, y: real, z: real): (k: nat)
    ensures k < 3
  {
    if x <= y && x <= z then 0 else if y <= z then 1 else 2
  }

  /** Physical length of the pixel distance along axis `a`: its magnitude times the physical step's. */
  function AxisPhysicalDistance(p: Point, domain: Image, a: nat): real
    requires a < 3
  {
    Abs(PixelDistanceFromEdge(p, domain)[a] * Step(domain)[a])
  }

  /**
   * `_physical_distance_from_edge`: the smallest physical axis distance
   * and the first axis that attains it.
   */
  function PhysicalDistanceFromEdge(p: Point, domain: Image): (r: (real, nat))
    ensures r.1 < 3 && r.0 == AxisPhysicalDistance(p, domain, r.1) && r.0 >= 0.0
    ensures forall a :: 0 <= a < 3 ==> r.0 <= AxisPhysicalDistance(p, domain, a)
    ensures forall a :: 0 <= a < r.1 ==> r.0 < AxisPhysicalDistance(p, domain, a)
  {
    var d0, d1, d2 := AxisPhysicalDistance(p, domain, 0), AxisPhysicalDistance(p, domain, 1), AxisPhysicalDistance(p, domain, 2);
    var k := ArgMin3(d0, d1, d2);
    (if k == 0 then d0 else if k == 1 then d1 else d2, k)
  }

  /** An entry's weight at `p`: its distance to the domain edge, or MinWeight when unbounded. */
  function Weight(e: TransformEntry, p: Point): (w: real)
    ensures w >= 0.0
    ensures e.domain.None? ==> w == MinWeight
    ensures e.domain.Some? ==> forall a :: 0 <= a < 3 ==> w <= AxisPhysicalDistance(p, e.domain.value, a)
  {
    if e.domain.Some? then PhysicalDistanceFromEdge(p, e.domain.value).0 else MinWeight
  }

  /** A weight numpy.isclose calls zero becomes MinWeight, so that edge points still count. */
  function InteriorWeight(w: real): (r: real)
    requires w >= 0.0
    ensures r >= MinWeight
    ensures IsCloseToZero(w) ==> r == MinWeight
    ensures !IsCloseToZero(w) ==> r == w
  {
    if IsCloseToZero(w) then MinWeight else w
  }

  /** The blending weights of the contributors at `p`. */
  function Weights(p: Point, cs: seq<TransformEntry>): (ws: seq<real>)
    ensures |ws| == |cs|
    ensures forall i :: 0 <= i < |cs| ==> ws[i] == InteriorWeight(Weight(cs[i], p)) && ws[i] > 0.0
  {
    seq(|cs|, i requires 0 <= i < |cs| => InteriorWeight(Weight(cs[i], p)))
  }

  /** `blend_distance_weighted_mean`: the candidates averaged with the contributors' weights. */
  function BlendDistanceWeightedMean(p: Point, cs: seq<TransformEntry>): Point
    requires |cs| > 0
  {
    WeightedAverage(Candidates(p, cs), Weights(p, cs))
  }

  /** The distance-weighted mean lies between any bounds all candidates respect. */
  lemma DistanceWeightedWithin(p: Point, cs: seq<TransformEntry>, a: nat, lo: real, hi: real)
    requires |cs| > 0 && a < 3
    requires forall i :: 0 <= i < |cs| ==> lo <= Apply(cs[i].transform, p)[a] <= hi
    ensures lo <= BlendDistanceWeightedMean(p, cs)[a] <= hi
  {
    WeightedAverageWithin(Candidates(p, cs), Weights(p, cs), a, lo, hi);
  }

  function Blend(bm: BlendMethod, p: Point, cs: seq<TransformEntry>): Point
    requires |cs| > 0
  {
    match bm
    case SimpleMean => BlendSimpleMean(p, cs)
    case DistanceWeightedMean => BlendDistanceWeightedMean(p, cs)
  }

  /** Either blend lies within any bounds all candidates respect; agreeing candidates give their common point. */
  lemma BlendWithin(bm: BlendMethod, p: Point, cs: seq<TransformEntry>, a: nat, lo: real, hi: real)
    requires |cs| > 0 && a < 3
    requires forall i :: 0 <= i < |cs| ==> lo <= Apply(cs[i].transform, p)[a] <= hi
    ensures lo <= Blend(bm, p, cs)[a] <= hi
  {
    if bm == SimpleMean {
      SimpleMeanWithin(p, cs, a, lo, hi);
    } else {
      DistanceWeightedWithin(p, cs, a, lo, hi);
    }
  }

  /** The average of one positively weighted point is that point. */
  lemma WeightedAverageSingle(q: Point, w: real)
    requires w > 0.0
    ensures WeightedAverage([q], [w]) == q
  {
    assert [q][..0] == [] && [w][..0] == [];
    assert SumReals([w]) == 0.0 + w;
    assert WeightedSum([q], [w]) == Add(Zero, Scale(w, q));
    var r := WeightedAverage([q], [w]);
    forall a | 0 <= a < 3
      ensures r[a] == q[a]
    {
      assert r[a] == 1.0 / (0.0 + w) * (0.0 + w * q[a]);
    }
  }

  /** A lone contributor's image comes out of either blend unchanged. */
  lemma BlendSingle(bm: BlendMethod, p: Point, e: TransformEntry)
    ensures Blend(bm, p, [e]) == Apply(e.transform, p)
  {
    var q := Apply(e.transform, p);
    assert Candidates(p, [e]) == [q];
    if bm == SimpleMean {
      assert [q][..0] == [];
      assert SumPoints([q]) == Add(Zero, q);
      assert Blend(bm, p, [e]) == Scale(1.0 / 1.0, Add(Zero, q));
    } else {
      var w := Weights(p, [e])[0];
      assert Weights(p, [e]) == [w];
      WeightedAverageSingle(q, w);
    }
  }

  // ---------------------------------------------------------------------
  // The collection
  // ---------------------------------------------------------------------

  /** An append-only list of entries and the blending method applied to overlapping ones. */
  class TransformCollection {
    var entries: seq<TransformEntry>
    var blend: BlendMethod

    /** An empty or given entry list; distance-weighted blending unless another method is given. */
    constructor(initial: Option<seq<TransformEntry>>, blendMethod: Option<BlendMethod>)
      ensures entries == (if initial.Some? then initial.value else [])
      ensures blend == (if blendMethod.Some? then blendMethod.value else DistanceWeightedMean)
    {
      entries := if initial.Some? then initial.value else [];
      blend := if blendMethod.Some? then blendMethod.value else DistanceWeightedMean;
    }

    /** The transforms of the entries, in order. */
    function Transforms(): (ts: seq<Transform>)
      reads this
      ensures |ts| == |entries|
      ensures forall i :: 0 <= i < |entries| ==> ts[i] == entries[i].transform
    {
      var es := entries;
      seq(|es|, i requires 0 <= i < |es| => es[i].transform)
    }

    /** The domains of the entries, in order. */
    function Domains(): (ds: seq<Option<Image>>)
      reads this
      ensures |ds| == |entries|
      ensures forall i :: 0 <= i < |entries| ==> ds[i] == entries[i].domain
    {
      var es := entries;
      seq(|es|, i requires 0 <= i < |es| => es[i].domain)
    }

    /** Appends an entry; earlier entries and the blending method stay as they were. */
    method Push(e: TransformEntry)
      modifies this
      ensures entries == old(entries) + [e]
      ensures blend == old(blend)
    {
      entries := entries + [e];
    }

    /**
     * `transform_point`: the blend of the contributors' images of `p`, or
     * ValueError when no entry may map `p`.
     */
    function TransformPoint(p: Point): (r: Result<Point>)
      reads this
      ensures r.Err? <==> forall i :: 0 <= i < |entries| ==> !Contributes(entries[i], p)
      ensures r.Err? ==> r.error.ValueError?
      ensures r.Ok? ==> |Contributors(entries, p)| > 0 && r.value == Blend(blend, p, Contributors(entries, p))
    {
      var cs := Contributors(entries, p);
      ContributorsEmpty(entries, p);
      if |cs| == 0 then Err(ValueError("no candidates found: the point lies outside all transform domains"))
      else Ok(Blend(blend, p, cs))
    }
  }

  /**
   * The collection's output lies, coordinate by coordinate, within any
   * bounds the images of `p` under all contributing entries respect.
   */
  lemma TransformPointWithin(c: TransformCollection, p: Point, a: nat, lo: real, hi: real)
    requires a < 3
    requires forall i :: 0 <= i < |c.entries| && Contributes(c.entries[i], p) ==> lo <= Apply(c.entries[i].transform, p)[a] <= hi
    ensures c.TransformPoint(p).Ok? ==> lo <= c.TransformPoint(p).value[a] <= hi
  {
    if c.TransformPoint(p).Ok? {
      ContributorsBounded(c.entries, p, a, lo, hi);
      BlendWithin(c.blend, p, Contributors(c.entries, p), a, lo, hi);
    }
  }
}
