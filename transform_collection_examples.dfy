/**
 * The behaviour the collection's test suite pins down, stated for any
 * collection holding the same entries: translations over unit-spacing
 * domains, blended by the simple and by the distance-weighted mean.
 */
module TransformCollectionExamples {
  import opened Wrappers
  import opened Geometry
  import opened Regions
  import opened ImageMeta
  import opened Transforms
  import opened BlockImage
  import opened TransformCollections

  /** An image with identity direction, unit spacing and start index 0, `n` voxels per axis, at `o`. */
  function UnitDomain(o: Point, n: nat): Image
  {
    ImageMetadata(o, [1.0, 1.0, 1.0], Identity, ImageRegion([0, 0, 0], [n, n, n]))
  }

  /**
   * The geometry of a unit domain: samples reach half a voxel past the
   * origin and past the last voxel, and continuous indices are offsets
   * from the origin.
   */
  lemma UnitDomainGeometry(o: Point, n: nat, p: Point, a: nat)
    requires a < 3
    ensures Step(UnitDomain(o, n))[a] == 1.0
    ensures GetSampleBounds(UnitDomain(o, n), None)[0][a] == o[a] - 0.5
    ensures GetSampleBounds(UnitDomain(o, n), None)[1][a] == o[a] + n as real - 0.5
    ensures PhysicalToIndex(UnitDomain(o, n), p)[a] == p[a] - o[a]
  {
    var d := UnitDomain(o, n);
    assert Col(Identity, a) == a && Row(Identity, a) == a;
    PhysicalStepAxis(d.direction, d.spacing, a);
    ZeroIndexSampleBounds(d, a, o[a], 1.0, n);
  }

  /** A point lies in a unit domain's sample bounds exactly when every coordinate is within half a voxel of it. */
  lemma UnitDomainContains(t: Transform, o: Point, n: nat, p: Point)
    ensures Contributes(TransformEntry(t, Some(UnitDomain(o, n))), p)
      <==> forall a :: 0 <= a < 3 ==> o[a] - 0.5 <= p[a] <= o[a] + n as real - 0.5
  {
    UnitDomainGeometry(o, n, p, 0);
    UnitDomainGeometry(o, n, p, 1);
    UnitDomainGeometry(o, n, p, 2);
  }

  /** In a unit domain the physical distance along an axis is the pixel distance's magnitude. */
  lemma UnitAxisDistance(o: Point, n: nat, p: Point, a: nat)
    requires a < 3
    ensures LowerDistance(p, UnitDomain(o, n), a) == p[a] - o[a] + 0.5
    ensures UpperDistance(p, UnitDomain(o, n), a) == n as real - (p[a] - o[a] + 0.5)
    ensures AxisPhysicalDistance(p, UnitDomain(o, n), a) == Abs(PixelDistanceFromEdge(p, UnitDomain(o, n))[a])
  {
    UnitDomainGeometry(o, n, p, a);
  }

  /** Filtering two elements keeps the accepted ones in order. */
  lemma FilterPair<T>(x: T, y: T, keep: T -> bool)
    ensures Filter([x, y], keep) == (if keep(x) then [x] else []) + (if keep(y) then [y] else [])
  {
    assert [x, y][..1] == [x];
    assert [x][..0] == [];
  }

  /** The contributors among two entries. */
  lemma ContributorsPair(e: TransformEntry, f: TransformEntry, p: Point)
    ensures Contributors([e, f], p) == (if Contributes(e, p) then [e] else []) + (if Contributes(f, p) then [f] else [])
  {
    FilterPair(e, f, ContributesAt(p));
  }

  /** One unbounded translation maps every point by its offset, whichever blend is chosen. */
  lemma UnboundedTranslation(c: TransformCollection, offset: Point, p: Point)
    requires c.entries == [TransformEntry(Translation(offset), None)]
    ensures c.TransformPoint(p) == Ok(Add(p, offset))
  {
    var e := TransformEntry(Translation(offset), None);
    assert [e][..0] == [];
    assert Contributors(c.entries, p) == [e];
    BlendSingle(c.blend, p, e);
  }

  /** An unbounded entry maps every point, so the collection never reports a point outside all domains. */
  lemma UnboundedNeverFails(c: TransformCollection, i: nat, p: Point)
    requires i < |c.entries| && c.entries[i].domain.None?
    ensures c.TransformPoint(p).Ok?
  {
    assert Contributes(c.entries[i], p);
  }

  /** The smallest of three values. */
  function Min3(x: real, y: real, z: real): real
  {
    Min(Min(x, y), z)
  }

  /** A bounded entry's raw weight is its smallest axis distance. */
  lemma WeightIsSmallestAxisDistance(e: TransformEntry, p: Point)
    requires e.domain.Some?
    ensures Weight(e, p) == Min3(AxisPhysicalDistance(p, e.domain.value, 0),
                                 AxisPhysicalDistance(p, e.domain.value, 1),
                                 AxisPhysicalDistance(p, e.domain.value, 2))
  {
  }

  /** The simple mean of two contributors' images. */
  lemma SimpleMeanOfTwo(p: Point, e: TransformEntry, f: TransformEntry)
    ensures BlendSimpleMean(p, [e, f]) == Scale(1.0 / 2.0, Add(Add(Zero, Apply(e.transform, p)), Apply(f.transform, p)))
  {
    var x, y := Apply(e.transform, p), Apply(f.transform, p);
    assert Candidates(p, [e, f]) == [x, y];
    assert [x, y][..1] == [x];
    assert [x][..0] == [];
    assert SumPoints([x]) == Add(Zero, x);
    assert SumPoints([x, y]) == Add(Add(Zero, x), y);
    assert |[e, f]| as real == 2.0;
  }

  /** The weighted mean of two contributors' images. */
  lemma WeightedMeanOfTwo(p: Point, e: TransformEntry, f: TransformEntry, v: real, w: real)
    requires v == InteriorWeight(Weight(e, p)) && w == InteriorWeight(Weight(f, p))
    ensures BlendDistanceWeightedMean(p, [e, f])
      == Scale(1.0 / (0.0 + v + w), Add(Add(Zero, Scale(v, Apply(e.transform, p))), Scale(w, Apply(f.transform, p))))
  {
    var x, y := Apply(e.transform, p), Apply(f.transform, p);
    assert Candidates(p, [e, f]) == [x, y];
    assert Weights(p, [e, f]) == [v, w];
    WeightedAverageOfTwo(x, y, v, w);
  }

  /** The weighted average of two points. */
  lemma WeightedAverageOfTwo(x: Point, y: Point, v: real, w: real)
    requires v > 0.0 && w > 0.0
    ensures WeightedAverage([x, y], [v, w]) == Scale(1.0 / (0.0 + v + w), Add(Add(Zero, Scale(v, x)), Scale(w, y)))
  {
    assert [x, y][..1] == [x];
    assert [x][..0] == [];
    assert [v, w][..1] == [v];
    assert [v][..0] == [];
    assert SumReals([v]) == 0.0 + v;
    assert SumReals([v, w]) == 0.0 + v + w;
    assert WeightedSum([x], [v]) == Add(Zero, Scale(v, x));
    assert WeightedSum([x, y], [v, w]) == Add(Add(Zero, Scale(v, x)), Scale(w, y));
  }

  /** Two translations, by 1 and by 2 on every axis, over `n`-voxel unit domains at `o0` and at `o1`. */
  function TwoDomains(o0: Point, o1: Point, n: nat): seq<TransformEntry>
  {
    [TransformEntry(Translation([1.0, 1.0, 1.0]), Some(UnitDomain(o0, n))),
     TransformEntry(Translation([2.0, 2.0, 2.0]), Some(UnitDomain(o1, n)))]
  }

  /** The origins the fixture places its two domains at: 0 and 1 on every axis. */
  predicate FixtureOrigins(o0: Point, o1: Point)
  {
    o0 == [0.0, 0.0, 0.0] && o1 == [1.0, 1.0, 1.0]
  }

  /** The point lies within half a voxel of the unit domain at `o` with `n` voxels per axis. */
  predicate InUnitDomain(o: Point, n: nat, p: Point)
  {
    forall a :: 0 <= a < 3 ==> o[a] - 0.5 <= p[a] <= o[a] + n as real - 0.5
  }

  /** A two-entry collection at `p`, by which entries may map `p`. */
  lemma TransformPointPair(c: TransformCollection, e: TransformEntry, f: TransformEntry, p: Point)
    requires c.entries == [e, f]
    ensures Contributes(e, p) && Contributes(f, p) ==>
      c.TransformPoint(p) == Ok(Blend(c.blend, p, [e, f]))
    ensures Contributes(e, p) && !Contributes(f, p) ==>
      c.TransformPoint(p) == Ok(Blend(c.blend, p, [e]))
    ensures !Contributes(e, p) && Contributes(f, p) ==>
      c.TransformPoint(p) == Ok(Blend(c.blend, p, [f]))
    ensures !Contributes(e, p) && !Contributes(f, p) ==> c.TransformPoint(p).Err?
  {
    ContributorsPair(e, f, p);
    if Contributes(e, p) {
      if Contributes(f, p) {
        assert [e] + [f] == [e, f];
        assert Contributors(c.entries, p) == [e, f];
      } else {
        assert [e] + [] == [e];
        assert Contributors(c.entries, p) == [e];
      }
    } else if Contributes(f, p) {
      assert [] + [f] == [f];
      assert Contributors(c.entries, p) == [f];
    }
  }

  /** What the two-domain fixture does at `p`, decided by which domains hold `p`. */
  lemma TwoDomainsPoint(c: TransformCollection, o0: Point, o1: Point, n: nat, p: Point)
    requires c.entries == TwoDomains(o0, o1, n)
    ensures InUnitDomain(o0, n, p) && InUnitDomain(o1, n, p) ==>
      c.TransformPoint(p) == Ok(Blend(c.blend, p, c.entries))
    ensures InUnitDomain(o0, n, p) && !InUnitDomain(o1, n, p) ==>
      c.TransformPoint(p) == Ok(Blend(c.blend, p, [c.entries[0]]))
    ensures !InUnitDomain(o0, n, p) && InUnitDomain(o1, n, p) ==>
      c.TransformPoint(p) == Ok(Blend(c.blend, p, [c.entries[1]]))
    ensures !InUnitDomain(o0, n, p) && !InUnitDomain(o1, n, p) ==> c.TransformPoint(p).Err?
  {
    TwoDomainsContain(o0, o1, n, p);
    var e, f := c.entries[0], c.entries[1];
    assert c.entries == [e, f];
    TransformPointPair(c, e, f, p);
  }

  /** Each fixture entry may map `p` exactly when its unit domain holds `p`. */
  lemma TwoDomainsContain(o0: Point, o1: Point, n: nat, p: Point)
    ensures |TwoDomains(o0, o1, n)| == 2
    ensures Contributes(TwoDomains(o0, o1, n)[0], p) <==> InUnitDomain(o0, n, p)
    ensures Contributes(TwoDomains(o0, o1, n)[1], p) <==> InUnitDomain(o1, n, p)
  {
    UnitDomainContains(Translation([1.0, 1.0, 1.0]), o0, n, p);
    UnitDomainContains(Translation([2.0, 2.0, 2.0]), o1, n, p);
  }

  /** Points agreeing on every coordinate are equal. */
  lemma SamePoint(r: Point, q: Point)
    requires r[0] == q[0] && r[1] == q[1] && r[2] == q[2]
    ensures r == q
  {
  }

  /** Translations by 1 and by 2 averaged evenly move every coordinate by 1.5. */
  lemma SimpleMeanOfFixture(p: Point, e: TransformEntry, f: TransformEntry, r: Point)
    requires e.transform == Translation([1.0, 1.0, 1.0]) && f.transform == Translation([2.0, 2.0, 2.0])
    requires r == BlendSimpleMean(p, [e, f])
    ensures forall a :: 0 <= a < 3 ==> r[a] == p[a] + 1.5
  {
    SimpleMeanOfTwo(p, e, f);
    assert Apply(e.transform, p) == Add(p, [1.0, 1.0, 1.0]) && Apply(f.transform, p) == Add(p, [2.0, 2.0, 2.0]);
  }

  /** Translations by 1 and by 2 weighted `v` and `w` move every coordinate by (v + 2w) / (v + w). */
  lemma WeightedMeanOfFixture(p: Point, e: TransformEntry, f: TransformEntry, v: real, w: real, r: Point)
    requires e.transform == Translation([1.0, 1.0, 1.0]) && f.transform == Translation([2.0, 2.0, 2.0])
    requires v == InteriorWeight(Weight(e, p)) && w == InteriorWeight(Weight(f, p))
    requires r == BlendDistanceWeightedMean(p, [e, f])
    ensures r == Scale(1.0 / (0.0 + v + w), Add(Add(Zero, Scale(v, Add(p, [1.0, 1.0, 1.0]))), Scale(w, Add(p, [2.0, 2.0, 2.0]))))
  {
    WeightedMeanOfTwo(p, e, f, v, w);
  }

  /** Where 2-voxel domains overlap, the simple mean splits the difference: (1,1,1) goes to (2.5,2.5,2.5). */
  lemma SimpleMeanOverlapExample(c: TransformCollection, p: Point, o0: Point, o1: Point)
    requires FixtureOrigins(o0, o1) && c.entries == TwoDomains(o0, o1, 2) && c.blend == SimpleMean && p == [1.0, 1.0, 1.0]
    ensures c.TransformPoint(p).Ok? && c.TransformPoint(p).value == [2.5, 2.5, 2.5]
  {
    assert InUnitDomain(o0, 2, p) && InUnitDomain(o1, 2, p);
    TwoDomainsPoint(c, o0, o1, 2, p);
    var e, f := c.entries[0], c.entries[1];
    assert c.entries == [e, f];
    var r := c.TransformPoint(p).value;
    SimpleMeanOfFixture(p, e, f, r);
    assert r[0] == 2.5 && r[1] == 2.5 && r[2] == 2.5;
    SamePoint(r, [2.5, 2.5, 2.5]);
  }

  /** Where only the first domain holds the point, its transform alone applies: (0,0,0) goes to (1,1,1). */
  lemma SimpleMeanSingleExample(c: TransformCollection, p: Point, o0: Point, o1: Point)
    requires FixtureOrigins(o0, o1) && c.entries == TwoDomains(o0, o1, 2) && c.blend == SimpleMean && p == [0.0, 0.0, 0.0]
    ensures c.TransformPoint(p).Ok? && c.TransformPoint(p).value == [1.0, 1.0, 1.0]
  {
    assert InUnitDomain(o0, 2, p);
    assert !(o1[0] - 0.5 <= p[0]);
    TwoDomainsPoint(c, o0, o1, 2, p);
    var r := c.TransformPoint(p).value;
    BlendSingle(c.blend, p, c.entries[0]);
    assert c.entries[0].transform == Translation([1.0, 1.0, 1.0]);
    assert r[0] == 1.0 && r[1] == 1.0 && r[2] == 1.0;
    SamePoint(r, [1.0, 1.0, 1.0]);
  }

  /** Where only the second 2-voxel domain holds the point its transform alone applies: (2.4,2.4,2.4) goes to (4.4,4.4,4.4). */
  lemma SimpleMeanSecondOnlyExample(c: TransformCollection, p: Point, o0: Point, o1: Point)
    requires FixtureOrigins(o0, o1) && c.entries == TwoDomains(o0, o1, 2) && c.blend == SimpleMean && p == [2.4, 2.4, 2.4]
    ensures c.TransformPoint(p).Ok? && c.TransformPoint(p).value == [4.4, 4.4, 4.4]
  {
    assert InUnitDomain(o1, 2, p);
    assert !(p[0] <= o0[0] + 2.0 - 0.5);
    TwoDomainsPoint(c, o0, o1, 2, p);
    var r := c.TransformPoint(p).value;
    BlendSingle(c.blend, p, c.entries[1]);
    assert c.entries[1].transform == Translation([2.0, 2.0, 2.0]);
    assert r[0] == 4.4 && r[1] == 4.4 && r[2] == 4.4;
    SamePoint(r, [4.4, 4.4, 4.4]);
  }

  /**
   * One entry translating by 1 over the one-voxel unit domain at (1,1,1):
   * the collection refuses (0,0,0) and maps (1,1,1) to (2,2,2).
   */
  lemma BoundedTransformExample(c: TransformCollection, e: TransformEntry)
    requires e == TransformEntry(Translation([1.0, 1.0, 1.0]), Some(UnitDomain([1.0, 1.0, 1.0], 1)))
    requires c.entries == [e] && c.blend == SimpleMean
    ensures c.TransformPoint([0.0, 0.0, 0.0]).Err?
    ensures c.TransformPoint([1.0, 1.0, 1.0]).Ok? && c.TransformPoint([1.0, 1.0, 1.0]).value == [2.0, 2.0, 2.0]
  {
    var o: Point := [1.0, 1.0, 1.0];
    UnitDomainContains(e.transform, o, 1, [0.0, 0.0, 0.0]);
    UnitDomainContains(e.transform, o, 1, o);
    assert Contributors(c.entries, o) == [e];
    BlendSingle(c.blend, o, e);
    var r := Apply(e.transform, o);
    assert r[0] == 2.0 && r[1] == 2.0 && r[2] == 2.0;
    SamePoint(r, [2.0, 2.0, 2.0]);
  }

  /** A point outside both domains is refused: (-1,-1,-1) gives ValueError. */
  lemma OutsideAllDomainsExample(c: TransformCollection, n: nat, p: Point, o0: Point, o1: Point)
    requires FixtureOrigins(o0, o1) && c.entries == TwoDomains(o0, o1, n) && p == [-1.0, -1.0, -1.0]
    ensures c.TransformPoint(p).Err?
  {
    assert !(o0[0] - 0.5 <= p[0]) && !(o1[0] - 0.5 <= p[0]);
    TwoDomainsPoint(c, o0, o1, n, p);
  }

  /** In a unit domain the pixel distance along an axis is the nearer of the two signed edge offsets. */
  lemma UnitPixelDistance(o: Point, n: nat, p: Point, a: nat, lower: real, upper: real)
    requires a < 3 && lower == p[a] - o[a] + 0.5 && upper == n as real - lower
    ensures PixelDistanceFromEdge(p, UnitDomain(o, n))[a] == if Abs(upper) < Abs(lower) then upper else lower
  {
    UnitAxisDistance(o, n, p, a);
  }

  /** A unit-domain entry's weight is its smallest axis pixel distance in magnitude. */
  lemma UnitEntryWeight(t: Transform, o: Point, n: nat, p: Point, d0: real, d1: real, d2: real)
    requires d0 == PixelDistanceFromEdge(p, UnitDomain(o, n))[0]
    requires d1 == PixelDistanceFromEdge(p, UnitDomain(o, n))[1]
    requires d2 == PixelDistanceFromEdge(p, UnitDomain(o, n))[2]
    ensures Weight(TransformEntry(t, Some(UnitDomain(o, n))), p) == Min3(Abs(d0), Abs(d1), Abs(d2))
  {
    UnitAxisDistance(o, n, p, 0);
    UnitAxisDistance(o, n, p, 1);
    UnitAxisDistance(o, n, p, 2);
    WeightIsSmallestAxisDistance(TransformEntry(t, Some(UnitDomain(o, n))), p);
  }

  /** Translations by 1 and 2 weighted `v` and `w` move each coordinate by k = (v + 2w) / (v + w). */
  lemma FixtureWeightedArithmetic(p: Point, v: real, w: real, k: real, r: Point)
    requires v > 0.0 && w > 0.0 && k * (v + w) == v + 2.0 * w
    requires r == Scale(1.0 / (0.0 + v + w), Add(Add(Zero, Scale(v, Add(p, [1.0, 1.0, 1.0]))), Scale(w, Add(p, [2.0, 2.0, 2.0]))))
    ensures r == Add(p, [k, k, k])
  {
    forall a | 0 <= a < 3
      ensures r[a] == p[a] + k
    {
      FixtureMeanAxis(p, v, w, r, a);
      WeightedMeanStep(v, w, p[a], k);
    }
    SamePoint(r, Add(p, [k, k, k]));
  }

  /** The mean of x + 1 and x + 2 under weights `v` and `w`. */
  function FixtureMean(v: real, w: real, x: real): real
    requires v > 0.0 && w > 0.0
  {
    1.0 / (0.0 + v + w) * (0.0 + v * (x + 1.0) + w * (x + 2.0))
  }

  /** Coordinate a of the blended fixture point is the weighted mean of its two translated coordinates. */
  lemma FixtureMeanAxis(p: Point, v: real, w: real, r: Point, a: nat)
    requires a < 3 && v > 0.0 && w > 0.0
    requires r == Scale(1.0 / (0.0 + v + w), Add(Add(Zero, Scale(v, Add(p, [1.0, 1.0, 1.0]))), Scale(w, Add(p, [2.0, 2.0, 2.0]))))
    ensures r[a] == FixtureMean(v, w, p[a])
  {
    var x := p[a];
    var sum := Add(Add(Zero, Scale(v, Add(p, [1.0, 1.0, 1.0]))), Scale(w, Add(p, [2.0, 2.0, 2.0])));
    assert Add(p, [1.0, 1.0, 1.0])[a] == x + 1.0 && Add(p, [2.0, 2.0, 2.0])[a] == x + 2.0;
    assert sum[a] == 0.0 + v * (x + 1.0) + w * (x + 2.0);
  }

  /** The scalar step: weights `v`, `w` on x + 1 and x + 2 average to x + k. */
  lemma WeightedMeanStep(v: real, w: real, x: real, k: real)
    requires v > 0.0 && w > 0.0 && k * (v + w) == v + 2.0 * w
    ensures FixtureMean(v, w, x) == x + k
  {
    var t := v + w;
    assert 0.0 + v * (x + 1.0) + w * (x + 2.0) == t * x + (v + 2.0 * w);
    assert t * x + (v + 2.0 * w) == t * (x + k);
    assert 1.0 / t * (t * (x + k)) == x + k;
  }

  /** The distance weights of the fixture's two entries at `p` are `v` and `w`. */
  predicate FixtureWeights(o0: Point, o1: Point, n: nat, p: Point, v: real, w: real)
  {
    v == InteriorWeight(Weight(TwoDomains(o0, o1, n)[0], p)) && w == InteriorWeight(Weight(TwoDomains(o0, o1, n)[1], p))
  }

  /** The fixture's weights at (1,1,1): 1.5 in the domain at 0 and 0.5 in the domain at 1. */
  lemma FixtureWeightsAtOnes(o0: Point, o1: Point, p: Point)
    requires FixtureOrigins(o0, o1) && p == [1.0, 1.0, 1.0]
    ensures FixtureWeights(o0, o1, 4, p, 1.5, 0.5)
  {
    var t0, t1 := TwoDomains(o0, o1, 4)[0].transform, TwoDomains(o0, o1, 4)[1].transform;
    forall a | 0 <= a < 3
      ensures PixelDistanceFromEdge(p, UnitDomain(o0, 4))[a] == 1.5
      ensures PixelDistanceFromEdge(p, UnitDomain(o1, 4))[a] == 0.5
    {
      UnitPixelDistance(o0, 4, p, a, 1.5, 2.5);
      UnitPixelDistance(o1, 4, p, a, 0.5, 3.5);
    }
    UnitEntryWeight(t0, o0, 4, p, 1.5, 1.5, 1.5);
    UnitEntryWeight(t1, o1, 4, p, 0.5, 0.5, 0.5);
  }

  /** The fixture's weights at (1,2,3): 0.5 in both domains. */
  lemma FixtureWeightsAtMixed(o0: Point, o1: Point, p: Point)
    requires FixtureOrigins(o0, o1) && p == [1.0, 2.0, 3.0]
    ensures FixtureWeights(o0, o1, 4, p, 0.5, 0.5)
  {
    var t0, t1 := TwoDomains(o0, o1, 4)[0].transform, TwoDomains(o0, o1, 4)[1].transform;
    UnitPixelDistance(o0, 4, p, 0, 1.5, 2.5);
    UnitPixelDistance(o0, 4, p, 1, 2.5, 1.5);
    UnitPixelDistance(o0, 4, p, 2, 3.5, 0.5);
    UnitPixelDistance(o1, 4, p, 0, 0.5, 3.5);
    UnitPixelDistance(o1, 4, p, 1, 1.5, 2.5);
    UnitPixelDistance(o1, 4, p, 2, 2.5, 1.5);
    UnitEntryWeight(t0, o0, 4, p, 1.5, 1.5, 0.5);
    UnitEntryWeight(t1, o1, 4, p, 0.5, 1.5, 1.5);
  }

  /**
   * Where both fixture domains hold `p`, distance weighting moves every
   * coordinate by k = (v + 2w) / (v + w), v and w being the entries' weights.
   */
  lemma TwoDomainsWeightedPoint(c: TransformCollection, o0: Point, o1: Point, n: nat, p: Point, v: real, w: real, k: real)
    requires c.entries == TwoDomains(o0, o1, n) && c.blend == DistanceWeightedMean
    requires InUnitDomain(o0, n, p) && InUnitDomain(o1, n, p) && FixtureWeights(o0, o1, n, p, v, w)
    requires k * (v + w) == v + 2.0 * w
    ensures c.TransformPoint(p) == Ok(Add(p, [k, k, k]))
  {
    TwoDomainsPoint(c, o0, o1, n, p);
    var e, f := c.entries[0], c.entries[1];
    assert c.entries == [e, f];
    var r := c.TransformPoint(p).value;
    WeightedMeanOfFixture(p, e, f, v, w, r);
    FixtureWeightedArithmetic(p, v, w, k, r);
  }

  /** The points the distance-weighted tests probe lie in both 4-voxel domains. */
  lemma WeightedProbesInBothDomains(o0: Point, o1: Point, p: Point)
    requires FixtureOrigins(o0, o1)
    requires p == [1.0, 1.0, 1.0] || p == [2.0, 2.0, 2.0] || p == [3.0, 3.0, 3.0] || p == [1.0, 2.0, 3.0]
    ensures InUnitDomain(o0, 4, p) && InUnitDomain(o1, 4, p)
  {
  }

  /** Translations by 1 and 2 over the fixture, weighted `v` and `w`, move every coordinate by k = (v + 2w) / (v + w): p goes to q. */
  lemma FixtureWeightedMean(o0: Point, o1: Point, n: nat, p: Point, v: real, w: real, k: real, q: Point)
    requires FixtureWeights(o0, o1, n, p, v, w)
    requires k * (v + w) == v + 2.0 * w
    requires q[0] == p[0] + k && q[1] == p[1] + k && q[2] == p[2] + k
    ensures BlendDistanceWeightedMean(p, TwoDomains(o0, o1, n)) == q
  {
    var e, f := TwoDomains(o0, o1, n)[0], TwoDomains(o0, o1, n)[1];
    assert TwoDomains(o0, o1, n) == [e, f];
    var r := BlendDistanceWeightedMean(p, [e, f]);
    WeightedMeanOfFixture(p, e, f, v, w, r);
    FixtureWeightedArithmetic(p, v, w, k, r);
    SamePoint(Add(p, [k, k, k]), q);
  }

  /**
   * Distance weighting over 4-voxel domains: at (1,1,1) the first domain's
   * edge is 1.5 away and the second's 0.5, so both domains hold the point
   * and the blend is (2.25,2.25,2.25).
   */
  lemma DistanceWeightedExample(c: TransformCollection, p: Point, o0: Point, o1: Point)
    requires FixtureOrigins(o0, o1) && c.entries == TwoDomains(o0, o1, 4) && c.blend == DistanceWeightedMean && p == [1.0, 1.0, 1.0]
    ensures BlendDistanceWeightedMean(p, TwoDomains(o0, o1, 4)) == [2.25, 2.25, 2.25]
    ensures c.TransformPoint(p).Ok? && c.TransformPoint(p).value == [2.25, 2.25, 2.25]
  {
    FixtureWeightsAtOnes(o0, o1, p);
    FixtureWeightedMean(o0, o1, 4, p, 1.5, 0.5, 1.25, [2.25, 2.25, 2.25]);
    WeightedProbesInBothDomains(o0, o1, p);
    DistanceWeightedInBoth(c, o0, o1, p);
  }

  /** The fixture's weights at (2,2,2): 1.5 in both domains. */
  lemma FixtureWeightsAtTwos(o0: Point, o1: Point, p: Point)
    requires FixtureOrigins(o0, o1) && p == [2.0, 2.0, 2.0]
    ensures FixtureWeights(o0, o1, 4, p, 1.5, 1.5)
  {
    var t0, t1 := TwoDomains(o0, o1, 4)[0].transform, TwoDomains(o0, o1, 4)[1].transform;
    forall a | 0 <= a < 3
      ensures PixelDistanceFromEdge(p, UnitDomain(o0, 4))[a] == 1.5
      ensures PixelDistanceFromEdge(p, UnitDomain(o1, 4))[a] == 1.5
    {
      UnitPixelDistance(o0, 4, p, a, 2.5, 1.5);
      UnitPixelDistance(o1, 4, p, a, 1.5, 2.5);
    }
    UnitEntryWeight(t0, o0, 4, p, 1.5, 1.5, 1.5);
    UnitEntryWeight(t1, o1, 4, p, 1.5, 1.5, 1.5);
  }

  /** The fixture's weights at (3,3,3): 0.5 in the domain at 0 and 1.5 in the domain at 1. */
  lemma FixtureWeightsAtThrees(o0: Point, o1: Point, p: Point)
    requires FixtureOrigins(o0, o1) && p == [3.0, 3.0, 3.0]
    ensures FixtureWeights(o0, o1, 4, p, 0.5, 1.5)
  {
    var t0, t1 := TwoDomains(o0, o1, 4)[0].transform, TwoDomains(o0, o1, 4)[1].transform;
    forall a | 0 <= a < 3
      ensures PixelDistanceFromEdge(p, UnitDomain(o0, 4))[a] == 0.5
      ensures PixelDistanceFromEdge(p, UnitDomain(o1, 4))[a] == 1.5
    {
      UnitPixelDistance(o0, 4, p, a, 3.5, 0.5);
      UnitPixelDistance(o1, 4, p, a, 2.5, 1.5);
    }
    UnitEntryWeight(t0, o0, 4, p, 0.5, 0.5, 0.5);
    UnitEntryWeight(t1, o1, 4, p, 1.5, 1.5, 1.5);
  }

  /** At (2,2,2) both edges are 1.5 away, so the translations are averaged evenly: (3.5,3.5,3.5). */
  lemma DistanceWeightedCentreExample(c: TransformCollection, p: Point, o0: Point, o1: Point)
    requires FixtureOrigins(o0, o1) && c.entries == TwoDomains(o0, o1, 4) && c.blend == DistanceWeightedMean && p == [2.0, 2.0, 2.0]
    ensures BlendDistanceWeightedMean(p, TwoDomains(o0, o1, 4)) == [3.5, 3.5, 3.5]
    ensures c.TransformPoint(p).Ok? && c.TransformPoint(p).value == [3.5, 3.5, 3.5]
  {
    var q: Point := [3.5, 3.5, 3.5];
    FixtureWeightsAtTwos(o0, o1, p);
    FixtureWeightedMean(o0, o1, 4, p, 1.5, 1.5, 1.5, q);
    WeightedProbesInBothDomains(o0, o1, p);
    DistanceWeightedInBoth(c, o0, o1, p);
  }

  /** At (3,3,3) the second domain's edge is farther, so its translation weighs three times as much: (4.75,4.75,4.75). */
  lemma DistanceWeightedFarExample(c: TransformCollection, p: Point, o0: Point, o1: Point)
    requires FixtureOrigins(o0, o1) && c.entries == TwoDomains(o0, o1, 4) && c.blend == DistanceWeightedMean && p == [3.0, 3.0, 3.0]
    ensures BlendDistanceWeightedMean(p, TwoDomains(o0, o1, 4)) == [4.75, 4.75, 4.75]
    ensures c.TransformPoint(p).Ok? && c.TransformPoint(p).value == [4.75, 4.75, 4.75]
  {
    var q: Point := [4.75, 4.75, 4.75];
    FixtureWeightsAtThrees(o0, o1, p);
    FixtureWeightedMean(o0, o1, 4, p, 0.5, 1.5, 1.75, q);
    WeightedProbesInBothDomains(o0, o1, p);
    DistanceWeightedInBoth(c, o0, o1, p);
  }

  /** A lone translation by 1 moves the origin to (1,1,1), whatever the blend. */
  lemma LoneUnitTranslation(bm: BlendMethod, p: Point, e: TransformEntry)
    requires e.transform == Translation([1.0, 1.0, 1.0]) && p == [0.0, 0.0, 0.0]
    ensures Blend(bm, p, [e]) == [1.0, 1.0, 1.0]
  {
    BlendSingle(bm, p, e);
    var r := Apply(e.transform, p);
    assert r[0] == 1.0 && r[1] == 1.0 && r[2] == 1.0;
    SamePoint(r, [1.0, 1.0, 1.0]);
  }

  /** Under distance weighting, where only the first 4-voxel domain holds the point its transform alone applies: (0,0,0) goes to (1,1,1). */
  lemma DistanceWeightedSingleExample(c: TransformCollection, p: Point, o0: Point, o1: Point)
    requires FixtureOrigins(o0, o1) && c.entries == TwoDomains(o0, o1, 4) && c.blend == DistanceWeightedMean && p == [0.0, 0.0, 0.0]
    ensures c.TransformPoint(p).Ok? && c.TransformPoint(p).value == [1.0, 1.0, 1.0]
  {
    assert InUnitDomain(o0, 4, p);
    assert !(o1[0] - 0.5 <= p[0]);
    TwoDomainsPoint(c, o0, o1, 4, p);
    LoneUnitTranslation(c.blend, p, c.entries[0]);
  }

  /** A lone translation by 2 moves (4.4,4.4,4.4) to (6.4,6.4,6.4), whatever the blend. */
  lemma LoneDoubleTranslation(bm: BlendMethod, p: Point, e: TransformEntry)
    requires e.transform == Translation([2.0, 2.0, 2.0]) && p == [4.4, 4.4, 4.4]
    ensures Blend(bm, p, [e]) == [6.4, 6.4, 6.4]
  {
    BlendSingle(bm, p, e);
    var r := Apply(e.transform, p);
    assert r[0] == 6.4 && r[1] == 6.4 && r[2] == 6.4;
    SamePoint(r, [6.4, 6.4, 6.4]);
  }

  /** Where only the second 4-voxel domain holds the point its transform alone applies: (4.4,4.4,4.4) goes to (6.4,6.4,6.4). */
  lemma DistanceWeightedSecondOnlyExample(c: TransformCollection, p: Point, o0: Point, o1: Point)
    requires FixtureOrigins(o0, o1) && c.entries == TwoDomains(o0, o1, 4) && c.blend == DistanceWeightedMean && p == [4.4, 4.4, 4.4]
    ensures c.TransformPoint(p).Ok? && c.TransformPoint(p).value == [6.4, 6.4, 6.4]
  {
    assert InUnitDomain(o1, 4, p);
    assert !(p[0] <= o0[0] + 4.0 - 0.5);
    TwoDomainsPoint(c, o0, o1, 4, p);
    LoneDoubleTranslation(c.blend, p, c.entries[1]);
  }

  /**
   * Distance weighting along each axis separately: at (1,2,3) both domains
   * are 0.5 from an edge, so the two translations are averaged evenly.
   */
  lemma DistanceWeightedMixedExample(c: TransformCollection, p: Point, o0: Point, o1: Point)
    requires FixtureOrigins(o0, o1) && c.entries == TwoDomains(o0, o1, 4) && c.blend == DistanceWeightedMean && p == [1.0, 2.0, 3.0]
    ensures BlendDistanceWeightedMean(p, TwoDomains(o0, o1, 4)) == [2.5, 3.5, 4.5]
    ensures c.TransformPoint(p).Ok? && c.TransformPoint(p).value == [2.5, 3.5, 4.5]
  {
    FixtureWeightsAtMixed(o0, o1, p);
    FixtureWeightedMean(o0, o1, 4, p, 0.5, 0.5, 1.5, [2.5, 3.5, 4.5]);
    WeightedProbesInBothDomains(o0, o1, p);
    DistanceWeightedInBoth(c, o0, o1, p);
  }

  /** Under distance weighting, a point both 4-voxel domains hold goes to the distance-weighted mean of the fixture. */
  lemma DistanceWeightedInBoth(c: TransformCollection, o0: Point, o1: Point, p: Point)
    requires c.entries == TwoDomains(o0, o1, 4) && c.blend == DistanceWeightedMean
    requires InUnitDomain(o0, 4, p) && InUnitDomain(o1, 4, p)
    ensures c.TransformPoint(p) == Ok(BlendDistanceWeightedMean(p, TwoDomains(o0, o1, 4)))
  {
    TwoDomainsPoint(c, o0, o1, 4, p);
  }
}
