/** The fixed three-dimensional bounding box `Aabb3<F>`, whose comparisons use the derived
    (lexicographic) order of `Vec3`. */
module AabbD3 {
  import opened VecD3
  import AabbGeneric

  /** A box with corners `min` and `max`; a value that is copied on use. */
  datatype Aabb3 = Aabb3(min: Vec3, max: Vec3) {

    static function New(min: Vec3, max: Vec3): Aabb3 {
      Aabb3(min, max)
    }

    /** `is_right`: `max > min` in the lexicographic order. */
    predicate IsRight() {
      max.Gt(min)
    }

    /** The box with `min` and `max` swapped. */
    function Inverted(): Aabb3 {
      Aabb3(max, min)
    }

    /** `is_inside` as written: `min > p && p > max` in the lexicographic order. */
    predicate IsInside(p: Vec3) {
      min.Gt(p) && p.Gt(max)
    }

    /** `is_outside`: the negation of `is_inside`. */
    predicate IsOutside(p: Vec3) {
      !IsInside(p)
    }

    /** Per-axis containment `min <= p <= max`, which is what `is_inside` evidently means and what
        the generic box's `is_inside` computes. */
    predicate ContainsPoint(p: Vec3) {
      min.x <= p.x <= max.x && min.y <= p.y <= max.y && min.z <= p.z <= max.z
    }

    /** `center`: the reversed `lerp` from `min` towards `max` at one half. */
    function Center(): Vec3 {
      min.Lerp(max, 1.0 / (1.0 + 1.0))
    }

    /** `corners`: `min` plus the extent `max - min` masked by the bits of the corner's index. */
    function Corners(): seq<Vec3> {
      var d := max.Sub(min);
      [ min,
        min.Add(Vec3(d.x, 0.0, 0.0)),
        min.Add(Vec3(0.0, d.y, 0.0)),
        min.Add(Vec3(d.x, d.y, 0.0)),
        min.Add(Vec3(0.0, 0.0, d.z)),
        min.Add(Vec3(d.x, 0.0, d.z)),
        min.Add(Vec3(0.0, d.y, d.z)),
        min.Add(Vec3(d.x, d.y, d.z)) ]
    }

    /** `volume`: the cuboid volume of the diagonal `max - min`. */
    function Volume(): real {
      max.Sub(min).CuboidVolume()
    }

    /** The same box seen as a generic box over three-component vectors. */
    function AsGeneric(): AabbGeneric.Aabb {
      AabbGeneric.Aabb([min.x, min.y, min.z], [max.x, max.y, max.z])
    }
  }

  /** A `&mut Aabb3` place, for the in-place `invert`. */
  class MutAabb3 {
    var min: Vec3
    var max: Vec3

    function Value(): Aabb3
      reads this
    {
      Aabb3(min, max)
    }

    constructor (b: Aabb3)
      ensures Value() == b
    {
      min, max := b.min, b.max;
    }

    /** `invert`: swaps the two corners in place. */
    method Invert()
      modifies this
      ensures min == old(max) && max == old(min)
      ensures Value() == old(Value()).Inverted()
    {
      min, max := max, min;
    }
  }

  /** `x` of the corner with index `k` */
  function CornerX(b: Aabb3, k: nat): real {
    if k % 2 == 1 then b.max.x else b.min.x
  }

  function CornerY(b: Aabb3, k: nat): real {
    if (k / 2) % 2 == 1 then b.max.y else b.min.y
  }

  function CornerZ(b: Aabb3, k: nat): real {
    if (k / 4) % 2 == 1 then b.max.z else b.min.z
  }

  /** `is_right` is the strict lexicographic comparison of `max` with `min` over `(x, y, z)`. */
  lemma IsRightIsLexicographic(b: Aabb3)
    ensures b.IsRight() <==>
      b.max.x > b.min.x || (b.max.x == b.min.x && (b.max.y > b.min.y || (b.max.y == b.min.y && b.max.z > b.min.z)))
  {
    GtIsLexicographic(b.max, b.min);
  }

  /** A right box is no longer right once inverted, and inverting twice gives the box back. */
  lemma InvertedProperties(b: Aabb3)
    ensures b.Inverted().min == b.max && b.Inverted().max == b.min
    ensures b.Inverted().Inverted() == b
    ensures b.IsRight() ==> !b.Inverted().IsRight()
  {
    GtStrictTotalOrder(b.max, b.min, b.min);
  }

  /** As written, `is_inside` can hold only for a box that is not right: then `min > max`. */
  lemma IsInsideOnlyWhenNotRight(b: Aabb3, p: Vec3)
    requires b.IsInside(p)
    ensures b.min.Gt(b.max)
    ensures !b.IsRight()
  {
    GtStrictTotalOrder(b.min, p, b.max);
    GtStrictTotalOrder(b.min, b.max, b.min);
  }

  /** Consequently every point is outside a right box. */
  lemma RightBoxHasEveryPointOutside(b: Aabb3, p: Vec3)
    requires b.IsRight()
    ensures b.IsOutside(p)
  {
    if b.IsInside(p) {
      IsInsideOnlyWhenNotRight(b, p);
      assert false;
    }
  }

  /** The box from `(0,0,0)` to `(2,2,2)` is right and contains `(1,1,1)` on every axis, yet
      `is_inside` rejects that point. */
  lemma IsInsideMissesInteriorPoint()
    ensures Aabb3(Vec3(0.0, 0.0, 0.0), Vec3(2.0, 2.0, 2.0)).IsRight()
    ensures Aabb3(Vec3(0.0, 0.0, 0.0), Vec3(2.0, 2.0, 2.0)).ContainsPoint(Vec3(1.0, 1.0, 1.0))
    ensures !Aabb3(Vec3(0.0, 0.0, 0.0), Vec3(2.0, 2.0, 2.0)).IsInside(Vec3(1.0, 1.0, 1.0))
  {
  }

  /** The per-axis containment is the generic box's `is_inside` with `SIZE == 3`, and a box
      ordered on every axis contains all eight of its corners and its center. */
  lemma ContainsPointIsGenericContains(b: Aabb3, p: Vec3)
    ensures b.AsGeneric().Fits(3)
    ensures b.ContainsPoint(p) <==> b.AsGeneric().Contains(3, [p.x, p.y, p.z])
    ensures b.AsGeneric().Right(3) ==> b.ContainsPoint(b.min) && b.ContainsPoint(b.max)
    ensures b.AsGeneric().Right(3) ==> forall k :: 0 <= k < 8 ==> b.ContainsPoint(b.Corners()[k])
    ensures b.AsGeneric().Right(3) ==> b.ContainsPoint(b.Center())
  {
    var g, q := b.AsGeneric(), [p.x, p.y, p.z];
    if b.ContainsPoint(p) {
      forall i | 0 <= i < 3
        ensures g.min[i] <= q[i] <= g.max[i]
      {
        if i == 0 { } else if i == 1 { } else { }
      }
    }
    if g.Contains(3, q) {
      assert g.min[0] <= q[0] <= g.max[0];
      assert g.min[1] <= q[1] <= g.max[1];
      assert g.min[2] <= q[2] <= g.max[2];
    }
    if g.Right(3) {
      assert g.min[0] <= g.max[0] && g.min[1] <= g.max[1] && g.min[2] <= g.max[2];
      CenterIsMidpoint(b);
      CornersInBinaryOrder(b);
    }
  }

  /** The center is the componentwise midpoint; for `(1,1,1)`–`(2,2,2)` it is `(1.5, 1.5, 1.5)`. */
  lemma CenterIsMidpoint(b: Aabb3)
    ensures b.Center() == Vec3((b.min.x + b.max.x) / 2.0, (b.min.y + b.max.y) / 2.0, (b.min.z + b.max.z) / 2.0)
    ensures Aabb3(Vec3(1.0, 1.0, 1.0), Vec3(2.0, 2.0, 2.0)).Center() == Vec3(1.5, 1.5, 1.5)
  {
  }

  /** The volume is the product of the three extents. */
  lemma VolumeIsProductOfExtents(b: Aabb3)
    ensures b.Volume() == (b.max.x - b.min.x) * (b.max.y - b.min.y) * (b.max.z - b.min.z)
  {
    var d := b.max.Sub(b.min);
    assert d == Vec3(b.max.x - b.min.x, b.max.y - b.min.y, b.max.z - b.min.z);
  }

  /** The box from `(1,1,1)` to `(2,2,2)` has volume `1`. */
  lemma UnitCubeVolume()
    ensures Aabb3(Vec3(1.0, 1.0, 1.0), Vec3(2.0, 2.0, 2.0)).Volume() == 1.0
  {
    var b := Aabb3(Vec3(1.0, 1.0, 1.0), Vec3(2.0, 2.0, 2.0));
    assert b.max.Sub(b.min) == Vec3(1.0, 1.0, 1.0);
  }

  /** There are eight corners in binary-counting order: corner `k` takes `x` from `max` exactly
      when bit 0 of `k` is set, `y` when bit 1 is, and `z` when bit 2 is.  So the first corner is
      `min` and the last is `max`. */
  lemma CornersInBinaryOrder(b: Aabb3)
    ensures |b.Corners()| == 8
    ensures forall k :: 0 <= k < 8 ==> b.Corners()[k] == Vec3(CornerX(b, k), CornerY(b, k), CornerZ(b, k))
    ensures b.Corners()[0] == b.min && b.Corners()[7] == b.max
  {
    var c := b.Corners();
    forall k | 0 <= k < 8
      ensures c[k] == Vec3(CornerX(b, k), CornerY(b, k), CornerZ(b, k))
    {
      if k == 0 { } else if k == 1 { } else if k == 2 { } else if k == 3 { }
      else if k == 4 { } else if k == 5 { } else if k == 6 { } else { }
    }
  }
}
