/**
 * The semi-open interval `[start, end)` and its algebra: normalising constructor, containment,
 * emptiness, intersection, hull union, the case-split difference, and the derived lexicographic
 * order. The bounds are `f64` in the source; they are exact reals here.
 */
module Segments {

  /** The fields are public in the source, so a value need not be normalised. */
  datatype Segment = Segment(start: real, end: real)

  function Max(a: real, b: real): real {
    if a >= b then a else b
  }

  function Min(a: real, b: real): real {
    if a <= b then a else b
  }

  /** Normalised: `start <= end`, as every segment built by `New` is. */
  predicate Valid(s: Segment) {
    s.start <= s.end
  }

  /** Reference semantics: the points `x` with `start <= x < end`. */
  ghost predicate Covers(s: Segment, x: real) {
    s.start <= x < s.end
  }

  /** The segment between `a` and `b`, whichever is given first. */
  function New(a: real, b: real): (s: Segment)
    ensures Valid(s)
    ensures (s.start == a && s.end == b) || (s.start == b && s.end == a)
  {
    if a > b then Segment(b, a) else Segment(a, b)
  }

  lemma NewSymmetric(a: real, b: real)
    ensures New(a, b) == New(b, a)
  {
  }

  /** A normalised segment is rebuilt unchanged from its own bounds. */
  lemma NewOfValid(s: Segment)
    requires Valid(s)
    ensures New(Start(s), End(s)) == s
  {
  }

  /** `start()`: the lower bound of a normalised segment. */
  function Start(s: Segment): (x: real)
    ensures Valid(s) ==> x <= s.end
  {
    s.start
  }

  /** `end()`: the upper bound of a normalised segment. */
  function End(s: Segment): (x: real)
    ensures Valid(s) ==> s.start <= x
  {
    s.end
  }

  /** `contains`: both bounds of `other` lie within those of `s`, so `s` is normalised if `other` is. */
  predicate Contains(s: Segment, other: Segment)
    ensures Contains(s, other) && Valid(other) ==> Valid(s)
  {
    s.start <= other.start && other.end <= s.end
  }

  /** `is_empty`: an empty segment is normalised, and every normalised segment it contains is empty too. */
  predicate IsEmpty(s: Segment)
    ensures IsEmpty(s) ==> Valid(s)
    ensures IsEmpty(s) ==> forall t :: Valid(t) && Contains(s, t) ==> t.start == t.end
  {
    s.start == s.end
  }

  /** A normalised segment is empty exactly when it covers no point. */
  lemma IsEmptyCoversNothing(s: Segment)
    requires Valid(s)
    ensures IsEmpty(s) <==> forall x :: !Covers(s, x)
  {
    if !IsEmpty(s) {
      assert Covers(s, s.start);
    }
  }

  /** Containment is reflexive, the empty segment included. */
  lemma ContainsReflexive(s: Segment)
    ensures Contains(s, s)
  {
  }

  /** For a non-empty `other`, containment is inclusion of the covered points. */
  lemma ContainsIffCoversSubset(s: Segment, other: Segment)
    requires Valid(other) && !IsEmpty(other)
    ensures Contains(s, other) <==> forall x :: Covers(other, x) ==> Covers(s, x)
  {
    if forall x :: Covers(other, x) ==> Covers(s, x) {
      assert Covers(other, other.start);
      if s.end < other.end {
        var x := Max(other.start, (s.end + other.end) / 2.0);
        assert Covers(other, x);
      }
    }
  }

  /** Containment is transitive. */
  lemma ContainsTransitive(a: Segment, b: Segment, c: Segment)
    requires Contains(a, b) && Contains(b, c)
    ensures Contains(a, c)
  {
  }

  /** `self & rhs`: the overlap, or the empty segment at the larger start when there is none. */
  function Intersect(s: Segment, rhs: Segment): (r: Segment)
    ensures Valid(r)
    ensures Max(s.start, rhs.start) < Min(s.end, rhs.end) ==>
              r == Segment(Max(s.start, rhs.start), Min(s.end, rhs.end))
    ensures Max(s.start, rhs.start) >= Min(s.end, rhs.end) ==>
              r == Segment(Max(s.start, rhs.start), Max(s.start, rhs.start))
  {
    var start := Max(s.start, rhs.start);
    var end := Min(s.end, rhs.end);
    if start >= end then New(start, start) else New(start, end)
  }

  lemma IntersectCommutative(s: Segment, t: Segment)
    ensures Intersect(s, t) == Intersect(t, s)
  {
  }

  /** The intersection covers exactly the points both operands cover. */
  lemma IntersectCovers(s: Segment, t: Segment, x: real)
    ensures Covers(Intersect(s, t), x) <==> Covers(s, x) && Covers(t, x)
  {
  }

  /** A non-empty intersection lies inside both operands. */
  lemma IntersectContained(s: Segment, t: Segment)
    requires !IsEmpty(Intersect(s, t))
    ensures Contains(s, Intersect(s, t)) && Contains(t, Intersect(s, t))
  {
  }

  /** `self | rhs`: the hull from the smaller start to the larger end, even for disjoint operands. */
  function Union(s: Segment, rhs: Segment): (r: Segment)
    ensures Valid(s) && Valid(rhs) ==> Contains(r, s) && Contains(r, rhs)
  {
    New(Min(s.start, rhs.start), Max(s.end, rhs.end))
  }

  lemma UnionCommutative(s: Segment, t: Segment)
    ensures Union(s, t) == Union(t, s)
  {
  }

  /** The union is the smallest segment that contains both normalised operands. */
  lemma UnionSmallest(s: Segment, t: Segment, h: Segment)
    requires Valid(s) && Valid(t)
    requires Contains(h, s) && Contains(h, t)
    ensures Contains(h, Union(s, t))
  {
  }

  /** The union covers the gap between disjoint operands, so it is not their set union. */
  lemma UnionFillsGap()
    ensures Union(New(0.0, 5.0), New(10.0, 15.0)) == New(0.0, 15.0)
    ensures Covers(Union(New(0.0, 5.0), New(10.0, 15.0)), 7.0)
    ensures !Covers(New(0.0, 5.0), 7.0) && !Covers(New(10.0, 15.0), 7.0)
  {
  }

  /**
   * `self - rhs`: the part of `self` that `rhs` does not cover, by a five-way case split.
   * A cut strictly inside `self` keeps only the left part, and an `rhs` that starts with `self`
   * and ends inside it falls through to the empty segment at `self.start`.
   */
  function Difference(s: Segment, rhs: Segment): (r: Segment)
    ensures s.end <= rhs.start || rhs.end <= s.start ==> r == s
    ensures !(s.end <= rhs.start || rhs.end <= s.start) && rhs.start <= s.start && s.end <= rhs.end ==>
              r == Segment(s.start, s.start)
    ensures !(s.end <= rhs.start || rhs.end <= s.start) && !(rhs.start <= s.start && s.end <= rhs.end) ==>
              if s.start < rhs.start && rhs.start < s.end then r == Segment(s.start, rhs.start)
              else if rhs.start < s.start && s.start < rhs.end && rhs.end < s.end then r == Segment(rhs.end, s.end)
              else r == Segment(s.start, s.start)
    ensures Valid(s) ==> Contains(s, r)
  {
    if s.end <= rhs.start || rhs.end <= s.start then
      s
    else if rhs.start <= s.start && s.end <= rhs.end then
      New(s.start, s.start)
    else if s.start < rhs.start && rhs.start < s.end then
      New(s.start, rhs.start)
    else if rhs.start < s.start && s.start < rhs.end && rhs.end < s.end then
      New(rhs.end, s.end)
    else
      New(s.start, s.start)
  }

  /** Every point the difference covers is in `self` and outside `rhs`. */
  lemma DifferenceSound(s: Segment, rhs: Segment, x: real)
    requires Valid(s) && Valid(rhs)
    requires Covers(Difference(s, rhs), x)
    ensures Covers(s, x) && !Covers(rhs, x)
  {
  }

  /**
   * Unless `rhs` starts at or after `self.start` and ends before `self.end`, the difference is
   * exact: it covers precisely the points of `self` outside `rhs`.
   */
  lemma DifferenceExact(s: Segment, rhs: Segment, x: real)
    requires Valid(s) && Valid(rhs)
    requires !(s.start <= rhs.start && rhs.end < s.end)
    ensures Covers(Difference(s, rhs), x) <==> Covers(s, x) && !Covers(rhs, x)
  {
  }

  /** A cut strictly inside `self` keeps the left part and loses the right part. */
  lemma DifferenceInteriorKeepsLeft(s: Segment, rhs: Segment)
    requires Valid(rhs) && s.start < rhs.start && rhs.end < s.end
    ensures Difference(s, rhs) == Segment(s.start, rhs.start)
    ensures Covers(s, rhs.end) && !Covers(rhs, rhs.end) && !Covers(Difference(s, rhs), rhs.end)
  {
  }

  /** An `rhs` sharing `self.start` and ending inside `self` leaves nothing, though `[rhs.end, self.end)` remains. */
  lemma DifferenceSharedStartIsEmpty(s: Segment, rhs: Segment)
    requires rhs.start == s.start && s.start < rhs.end && rhs.end < s.end
    ensures Difference(s, rhs) == Segment(s.start, s.start)
    ensures IsEmpty(Difference(s, rhs))
    ensures Covers(s, rhs.end) && !Covers(rhs, rhs.end)
  {
  }

  /** The derived `<`: by `start`, then by `end`; it never relates a segment to itself. */
  predicate Less(s: Segment, t: Segment)
    ensures Less(s, t) ==> s.start <= t.start && s != t
  {
    s.start < t.start || (s.start == t.start && s.end < t.end)
  }

  /** The derived `<=`: `<` or equal, which over exact reals is the negation of `>`. */
  predicate LessEq(s: Segment, t: Segment)
    ensures LessEq(s, t) <==> !Less(t, s)
  {
    Less(s, t) || s == t
  }

  /** `<` is a strict total order on segments, and `<=` is `<` or the derived equality of both bounds. */
  lemma LessIsStrictTotalOrder(s: Segment, t: Segment, u: Segment)
    ensures !Less(s, s)
    ensures Less(s, t) && Less(t, u) ==> Less(s, u)
    ensures s == t || Less(s, t) || Less(t, s)
    ensures !(Less(s, t) && Less(t, s))
    ensures LessEq(s, t) <==> !Less(t, s)
    ensures s == t <==> s.start == t.start && s.end == t.end
  {
  }
}
