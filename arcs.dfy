/**
 * The arrow arcs: the sweep each arc spans, the rings its outline is drawn
 * between, and the radial duplication of one outline into `arrowCount` copies.
 * The outline itself (its lines and arcs) is opaque here: an outline is the
 * shape parameters it was built from plus the angle it has been rotated by.
 */
module Arcs {
  import opened Angles
  import opened Geometry

  /** Degrees spanned by one arc: its share of the circle less the gap. */
  function Sweep(gapRatio: real, arrowCount: int): real
    requires arrowCount != 0
  {
    (1.0 - gapRatio) * (360.0 / arrowCount as real)
  }

  /** One slot of the circle, `360 / arrowCount` degrees: an arc followed by its gap. */
  function Slot(arrowCount: int): real
    requires arrowCount != 0
  {
    360.0 / arrowCount as real
  }

  /** Arc and gap together fill the slot; a gap ratio in (0, 1] keeps the arc inside it. */
  lemma SweepBounds(gapRatio: real, arrowCount: int)
    requires arrowCount != 0
    ensures Sweep(gapRatio, arrowCount) + gapRatio * Slot(arrowCount) == Slot(arrowCount)
    ensures arrowCount >= 1 && 0.0 < gapRatio <= 1.0 ==>
              0.0 <= Sweep(gapRatio, arrowCount) < Slot(arrowCount)
    ensures arrowCount >= 1 && 0.0 <= gapRatio < 1.0 ==> 0.0 < Sweep(gapRatio, arrowCount)
  {
    var s := Slot(arrowCount);
    assert Sweep(gapRatio, arrowCount) == s - gapRatio * s;
    if arrowCount >= 1 {
      assert s > 0.0;
      if 0.0 < gapRatio <= 1.0 {
        assert gapRatio * s > 0.0;
        assert gapRatio * s <= s;
      }
      if 0.0 <= gapRatio < 1.0 {
        assert gapRatio * s < s;
      }
    }
  }

  /** The gap ratio that yields a given sweep. */
  function GapRatio(sweep: real, arrowCount: int): real
    requires arrowCount != 0
  {
    1.0 - sweep * arrowCount as real / 360.0
  }

  /** Sweep and gap ratio determine each other for a fixed arrow count. */
  lemma SweepGapRoundTrip(gapRatio: real, sweep: real, arrowCount: int)
    requires arrowCount != 0
    ensures GapRatio(Sweep(gapRatio, arrowCount), arrowCount) == gapRatio
    ensures Sweep(GapRatio(sweep, arrowCount), arrowCount) == sweep
  {
    var n := arrowCount as real;
    assert (1.0 - gapRatio) * (360.0 / n) * n == (1.0 - gapRatio) * 360.0;
    assert sweep * n / 360.0 * (360.0 / n) == sweep;
  }

  /** The parameters one outline is built from. */
  datatype ArcShape = ArcShape(sweep: real, thicknessRatio: real, arrowWidthRatio: real,
                               arrowLengthRatio: real, barbIndentRatio: real)

  /** A closed outline: the shape it was built as, turned by `rotation` degrees about the origin. */
  datatype Outline = Outline(shape: ArcShape, rotation: real)

  /** The authoritative outline, as built in normalised coordinates (not turned). */
  function BaseOutline(shape: ArcShape): Outline {
    Outline(shape, 0.0)
  }

  /** `QTransform().rotate(degrees).map(o)`: the outline turned about the origin. */
  function Rotate(o: Outline, degrees: real): Outline {
    Outline(o.shape, o.rotation + degrees)
  }

  /** The angle copy `k` is turned by: `k * 360 / arrowCount`. */
  function RotationAngle(k: int, arrowCount: int): real
    requires arrowCount != 0
  {
    k as real * 360.0 / arrowCount as real
  }

  /** How many outlines the duplication produces: the base plus one per `range(1, arrowCount)`. */
  function CopyCount(arrowCount: int): nat {
    if arrowCount >= 1 then arrowCount else 1
  }

  /** The first `k` entries of the outline list: entry `i` is the base turned by `i * 360 / arrowCount`. */
  function CopiesUpTo(base: Outline, arrowCount: int, k: nat): seq<Outline>
    requires arrowCount != 0
  {
    if k == 0 then [] else CopiesUpTo(base, arrowCount, k - 1) + [Rotate(base, RotationAngle(k - 1, arrowCount))]
  }

  /** The full outline list: the base and its `arrowCount - 1` turned copies. */
  function RadialCopies(base: Outline, arrowCount: int): seq<Outline>
    requires arrowCount != 0
  {
    CopiesUpTo(base, arrowCount, CopyCount(arrowCount))
  }

  /** Entry `i` of the first `k` is the base turned by the `i`-th rotation angle. */
  lemma {:induction false} CopiesUpToEntries(base: Outline, arrowCount: int, k: nat)
    requires arrowCount != 0
    ensures |CopiesUpTo(base, arrowCount, k)| == k
    ensures forall i :: 0 <= i < k ==> CopiesUpTo(base, arrowCount, k)[i] == Rotate(base, RotationAngle(i, arrowCount))
  {
    if k > 0 {
      CopiesUpToEntries(base, arrowCount, k - 1);
    }
  }

  /**
   * The list holds exactly `arrowCount` outlines (one for a non-positive count),
   * the first is the base outline itself and every one has the base's shape.
   */
  lemma RadialCopiesShape(shape: ArcShape, arrowCount: int)
    requires arrowCount != 0
    ensures var ps := RadialCopies(BaseOutline(shape), arrowCount);
      |ps| == (if arrowCount >= 1 then arrowCount else 1) &&
      ps[0] == BaseOutline(shape) &&
      (arrowCount <= 1 ==> ps == [BaseOutline(shape)]) &&
      forall k :: 0 <= k < |ps| ==> ps[k].shape == shape && ps[k].rotation == k as real * Slot(arrowCount)
  {
    var ps := RadialCopies(BaseOutline(shape), arrowCount);
    CopiesUpToEntries(BaseOutline(shape), arrowCount, CopyCount(arrowCount));
    assert ps[0].rotation == 0.0 + 0.0 * 360.0 / arrowCount as real;
    forall k | 0 <= k < |ps|
      ensures ps[k].rotation == k as real * Slot(arrowCount)
    {
      assert ps[k].rotation == 0.0 + k as real * 360.0 / arrowCount as real;
    }
  }

  /** With at least one arrow the copies' angles rise in equal steps of one slot inside one turn. */
  lemma RotationsWithinTurn(arrowCount: int, k: int)
    requires arrowCount >= 1 && 0 <= k < arrowCount
    ensures 0.0 <= RotationAngle(k, arrowCount) < 360.0
    ensures RotationAngle(k + 1, arrowCount) == RotationAngle(k, arrowCount) + Slot(arrowCount)
  {
    var n := arrowCount as real;
    assert k as real < n;
    assert k as real * 360.0 < n * 360.0;
    assert RotationAngle(k, arrowCount) < n * 360.0 / n;
    assert (k + 1) as real * 360.0 / n == k as real * 360.0 / n + 360.0 / n;
  }

  /**
   * Radial symmetry: turning the whole pattern by one slot carries copy `k`
   * onto copy `(k + 1) % arrowCount`, the last one wrapping round to the first.
   */
  lemma RadialSymmetry(arrowCount: int, k: int)
    requires arrowCount >= 1 && 0 <= k < arrowCount
    ensures Mod360(RotationAngle(k, arrowCount) + Slot(arrowCount))
         == RotationAngle((k + 1) % arrowCount, arrowCount)
  {
    if k + 1 < arrowCount {
      NextCopy(arrowCount, k);
      assert (k + 1) % arrowCount == k + 1;
    } else {
      LastCopyWraps(arrowCount);
      assert (k + 1) % arrowCount == 0;
    }
  }

  /** Below the last copy, one slot on from copy `k` is copy `k + 1`, already inside the turn. */
  lemma NextCopy(arrowCount: int, k: int)
    requires arrowCount >= 1 && 0 <= k && k + 1 < arrowCount
    ensures Mod360(RotationAngle(k, arrowCount) + Slot(arrowCount)) == RotationAngle(k + 1, arrowCount)
  {
    RotationsWithinTurn(arrowCount, k);
    RotationsWithinTurn(arrowCount, k + 1);
    Mod360Identity(RotationAngle(k + 1, arrowCount));
  }

  /** One slot on from the last copy is a whole turn, which reduces to copy 0. */
  lemma LastCopyWraps(arrowCount: int)
    requires arrowCount >= 1
    ensures Mod360(RotationAngle(arrowCount - 1, arrowCount) + Slot(arrowCount)) == RotationAngle(0, arrowCount)
  {
    RotationsWithinTurn(arrowCount, arrowCount - 1);
    FullTurn(arrowCount);
    assert RotationAngle(0, arrowCount) == 0.0;
    Mod360Unique(360.0, 0.0);
  }

  /** Copy number `arrowCount` would sit a whole turn round. */
  lemma FullTurn(arrowCount: int)
    requires arrowCount >= 1
    ensures RotationAngle(arrowCount, arrowCount) == 360.0
  {
    var n := arrowCount as real;
    assert n * 360.0 / n == 360.0;
  }

  /** Outer ring: the normalised square less the barb extension on every side. */
  function OuterRing(arrowWidthRatio: real): Rect {
    Shrink(NormRect, arrowWidthRatio * NormWidth)
  }

  /** Mid ring: the outer ring less half the body thickness; the arrow tip sits on its right edge. */
  function MidRing(thicknessRatio: real, arrowWidthRatio: real): Rect {
    Shrink(OuterRing(arrowWidthRatio), 0.5 * (NormWidth * thicknessRatio))
  }

  /** Inner ring: the outer ring less the full body thickness. */
  function InnerRing(thicknessRatio: real, arrowWidthRatio: real): Rect {
    Shrink(OuterRing(arrowWidthRatio), NormWidth * thicknessRatio)
  }

  /**
   * The rings stay centred at the origin, each inset from the outer ring by the
   * stated margin; for a non-negative thickness they nest, inner inside mid
   * inside outer.
   */
  lemma RingsNested(thicknessRatio: real, arrowWidthRatio: real)
    ensures OuterRing(arrowWidthRatio).Right() == 500.0 - 1000.0 * arrowWidthRatio
    ensures MidRing(thicknessRatio, arrowWidthRatio).Right()
         == 500.0 - 1000.0 * arrowWidthRatio - 500.0 * thicknessRatio
    ensures InnerRing(thicknessRatio, arrowWidthRatio).Right()
         == 500.0 - 1000.0 * arrowWidthRatio - 1000.0 * thicknessRatio
    ensures OuterRing(arrowWidthRatio).x == -OuterRing(arrowWidthRatio).Right()
    ensures OuterRing(arrowWidthRatio).y == -OuterRing(arrowWidthRatio).Bottom()
    ensures MidRing(thicknessRatio, arrowWidthRatio).x == -MidRing(thicknessRatio, arrowWidthRatio).Right()
    ensures MidRing(thicknessRatio, arrowWidthRatio).y == -MidRing(thicknessRatio, arrowWidthRatio).Bottom()
    ensures InnerRing(thicknessRatio, arrowWidthRatio).x == -InnerRing(thicknessRatio, arrowWidthRatio).Right()
    ensures InnerRing(thicknessRatio, arrowWidthRatio).y == -InnerRing(thicknessRatio, arrowWidthRatio).Bottom()
    ensures 0.0 <= thicknessRatio ==>
      InnerRing(thicknessRatio, arrowWidthRatio).Right() <= MidRing(thicknessRatio, arrowWidthRatio).Right()
        <= OuterRing(arrowWidthRatio).Right()
    ensures 0.0 <= thicknessRatio ==>
      InnerRing(thicknessRatio, arrowWidthRatio).Bottom() <= MidRing(thicknessRatio, arrowWidthRatio).Bottom()
        <= OuterRing(arrowWidthRatio).Bottom()
  {
  }

  /**
   * The angle, in degrees, at which the arc starts: `degrees(atan2(-r * tan(radians(t)), r))`
   * for the tip on a ring of right edge `r` turned `t` degrees. The trigonometry
   * is not evaluated; the angle is kept as the term it is computed from.
   */
  datatype StartAngle = TipStartAngle(ringRight: real, tipDegrees: real)

  /** The start angle for the current ratios: the tip sits on the mid ring, `sweep * arrowLengthRatio` degrees round. */
  function ArcStartAngle(sweep: real, thicknessRatio: real, arrowWidthRatio: real, arrowLengthRatio: real): StartAngle {
    TipStartAngle(MidRing(thicknessRatio, arrowWidthRatio).Right(), sweep * arrowLengthRatio)
  }
}
