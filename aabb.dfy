/** The generic axis-aligned bounding box `Aabb<F, V>` over any `Vector` type.

    A `Vector` is read through two things only: its type-level constant `SIZE` (which defaults to
    zero) and `get(i)`.  Here a vector is a `seq<real>` and `SIZE` is the parameter `size`; the
    callers' side of the trait's contract is that `get(i)` is defined for every `i < SIZE`, which
    is the precondition `Fits(size)`. */
module AabbGeneric {

  /** A box with corners `min` and `max`; a value that is cloned on use. */
  datatype Aabb = Aabb(min: seq<real>, max: seq<real>) {

    static function New(min: seq<real>, max: seq<real>): Aabb {
      Aabb(min, max)
    }

    /** Both corners have a component for every axis below `size`. */
    predicate Fits(size: nat) {
      size <= |min| && size <= |max|
    }

    /** The box with `min` and `max` swapped. */
    function Inverted(): Aabb {
      Aabb(max, min)
    }

    /** Specification of `is_right`: no axis has `min` above `max`. */
    predicate Right(size: nat)
      requires Fits(size)
    {
      forall i :: 0 <= i < size ==> min[i] <= max[i]
    }

    /** Specification of `is_inside`: on every axis `p` lies between `min` and `max`. */
    predicate Contains(size: nat, p: seq<real>)
      requires Fits(size) && size <= |p|
    {
      forall i :: 0 <= i < size ==> min[i] <= p[i] <= max[i]
    }

    /** `is_right`: scans the axes and stops at the first one whose `min` exceeds its `max`. */
    method IsRight(size: nat) returns (r: bool)
      requires Fits(size)
      ensures r <==> Right(size)
    {
      var i := 0;
      while i < size
        invariant 0 <= i <= size
        invariant forall j :: 0 <= j < i ==> min[j] <= max[j]
      {
        if min[i] > max[i] {
          return false;
        }
        i := i + 1;
      }
      return true;
    }

    /** `is_inside`: scans the axes and stops at the first one where `p` is outside. */
    method IsInside(size: nat, p: seq<real>) returns (r: bool)
      requires Fits(size) && size <= |p|
      ensures r <==> Contains(size, p)
    {
      var i := 0;
      while i < size
        invariant 0 <= i <= size
        invariant forall j :: 0 <= j < i ==> min[j] <= p[j] <= max[j]
      {
        if !(min[i] <= p[i] && p[i] <= max[i]) {
          return false;
        }
        i := i + 1;
      }
      return true;
    }
  }

  /** A `&mut Aabb` place, for the in-place `invert`. */
  class MutAabb {
    var min: seq<real>
    var max: seq<real>

    function Value(): Aabb
      reads this
    {
      Aabb(min, max)
    }

    constructor (b: Aabb)
      ensures Value() == b
    {
      min, max := b.min, b.max;
    }

    /** `invert`: swaps the two corners in place. */
    method Invert()
      modifies this
      ensures min == old(max) && max == old(min)
      ensures Value() == old(Value()).Inverted()
    {
      min, max := max, min;
    }
  }

  /** `inverted` swaps the corners, and doing it twice gives the box back. */
  lemma InvertedInvolution(b: Aabb)
    ensures b.Inverted().min == b.max && b.Inverted().max == b.min
    ensures b.Inverted().Inverted() == b
  {
  }

  /** A box that contains any point is right. */
  lemma ContainsImpliesRight(b: Aabb, size: nat, p: seq<real>)
    requires b.Fits(size) && size <= |p|
    requires b.Contains(size, p)
    ensures b.Right(size)
  {
    forall i | 0 <= i < size
      ensures b.min[i] <= b.max[i]
    {
      assert b.min[i] <= p[i] <= b.max[i];
    }
  }

  /** A box whose `min` lies strictly below its `max` on some axis is not right once inverted. */
  lemma InvertedNotRight(b: Aabb, size: nat, k: nat)
    requires b.Fits(size) && k < size
    requires b.min[k] < b.max[k]
    ensures !b.Inverted().Right(size)
  {
    assert b.Inverted().min[k] > b.Inverted().max[k];
  }

  /** With the trait's default `SIZE` of zero there is no axis to check: every box is right and
      contains every point. */
  lemma SizeZeroIsVacuous(b: Aabb, p: seq<real>)
    ensures b.Fits(0)
    ensures b.Right(0) && b.Contains(0, p)
  {
  }
}
