/** The image view that sizes itself to a fixed width-over-height ratio.

    One dimension is authoritative and kept as measured; the other is derived
    from the ratio and truncated. Which one is kept is chosen by the
    `constraintBy` field: width, height, or, resolved at the first
    measurement and then fixed, the smaller or the larger of the two. */
module ConstraintImageView {
  import opened Wrappers
  import opened RatioAttribute

  /** The values of `constraintBy` (the `constraint_by` attribute). Any other
      integer is possible too; it is treated like "height". */
  const ConstraintByWidth: int := 0
  const ConstraintByHeight: int := 1
  const ConstraintBySmaller: int := 2
  const ConstraintByLarger: int := 3

  /** The axis a measurement pass uses, given the current `constraintBy` and
      the measured dimensions: "smaller" and "larger" become width or height
      by comparing the two, ties going to height; every other value stays. */
  function ResolveAxis(constraintBy: int, measuredWidth: nat, measuredHeight: nat): (axis: int)
    ensures 0 <= constraintBy <= 3 ==> axis == ConstraintByWidth || axis == ConstraintByHeight
    ensures constraintBy != ConstraintBySmaller && constraintBy != ConstraintByLarger ==> axis == constraintBy
    ensures constraintBy == ConstraintBySmaller ==>
              (axis == ConstraintByWidth <==> measuredWidth < measuredHeight)
    ensures constraintBy == ConstraintByLarger ==>
              (axis == ConstraintByWidth <==> measuredWidth > measuredHeight)
    // a resolved axis is never one that resolution rewrites again
    ensures axis != ConstraintBySmaller && axis != ConstraintByLarger
  {
    if constraintBy == ConstraintBySmaller then
      if measuredWidth < measuredHeight then ConstraintByWidth else ConstraintByHeight
    else if constraintBy == ConstraintByLarger then
      if measuredWidth > measuredHeight then ConstraintByWidth else ConstraintByHeight
    else
      constraintBy
  }

  /** q is the truncated quotient of x by y: q * y <= x < (q + 1) * y. */
  lemma FloorQuotient(x: nat, y: nat, q: nat)
    requires y > 0 && q == x / y
    ensures q * y <= x < (q + 1) * y
  {
    assert x == q * y + x % y;
  }

  /** The part of the ratio a pass divides by is non-zero: the numerator by
      width (width / ratio), the denominator on any other axis (the ratio
      num / den itself). The other part may be zero. */
  predicate DivisorNonZero(axis: int, ratio: Ratio) {
    if axis == ConstraintByWidth then ratio.num > 0 else ratio.den > 0
  }

  /** The pair (width, height) a measurement pass reports for a resolved
      axis: by width, the measured width and width / ratio truncated; on any
      other axis, height * ratio truncated and the measured height. */
  function MeasuredSize(axis: int, ratio: Ratio, measuredWidth: nat, measuredHeight: nat): (size: (nat, nat))
    requires DivisorNonZero(axis, ratio)
    ensures axis == ConstraintByWidth ==>
              size.0 == measuredWidth &&
              size.1 * ratio.num <= measuredWidth * ratio.den < (size.1 + 1) * ratio.num
    ensures axis != ConstraintByWidth ==>
              size.1 == measuredHeight &&
              size.0 * ratio.den <= measuredHeight * ratio.num < (size.0 + 1) * ratio.den
  {
    if axis == ConstraintByWidth then
      var scaled: nat := measuredWidth * ratio.den;
      FloorQuotient(scaled, ratio.num, scaled / ratio.num);
      (measuredWidth, scaled / ratio.num)
    else
      var scaled: nat := measuredHeight * ratio.num;
      FloorQuotient(scaled, ratio.den, scaled / ratio.den);
      (scaled / ratio.den, measuredHeight)
  }

  /** Resolution happens once: whatever the dimensions of a later pass, a
      resolved axis stays as it is. */
  lemma ResolveIsSticky(constraintBy: int, w1: nat, h1: nat, w2: nat, h2: nat)
    ensures ResolveAxis(ResolveAxis(constraintBy, w1, h1), w2, h2) == ResolveAxis(constraintBy, w1, h1)
  {
  }

  /** If q * n <= k * n < (q + 1) * n with n > 0, then q == k. */
  lemma {:induction false} CancelFactor(q: nat, k: nat, n: nat)
    requires n > 0
    requires q * n <= k * n < (q + 1) * n
    ensures q == k
  {
    if q > k {
      MultiplyMonotone(k + 1, q, n);
    }
  }

  lemma {:induction false} MultiplyMonotone(a: nat, b: nat, n: nat)
    requires a <= b
    ensures a * n <= b * n
  {
    assert b * n == a * n + (b - a) * n;
  }

  /** With a ratio of 1 (for one, the default) the view is a square whose side
      is the authoritative dimension. */
  lemma SquareWhenRatioIsOne(axis: int, ratio: Ratio, measuredWidth: nat, measuredHeight: nat)
    requires ratio.num > 0 && ratio.num == ratio.den
    ensures var side := if axis == ConstraintByWidth then measuredWidth else measuredHeight;
            MeasuredSize(axis, ratio, measuredWidth, measuredHeight) == (side, side)
  {
    var size := MeasuredSize(axis, ratio, measuredWidth, measuredHeight);
    if axis == ConstraintByWidth {
      CancelFactor(size.1, measuredWidth, ratio.num);
    } else {
      CancelFactor(size.0, measuredHeight, ratio.num);
    }
  }

  /** "Smaller" keeps the smaller measured dimension (height on a tie), and
      derives the other from the ratio. */
  lemma SmallerKeepsShorterSide(ratio: Ratio, measuredWidth: nat, measuredHeight: nat)
    requires DivisorNonZero(ResolveAxis(ConstraintBySmaller, measuredWidth, measuredHeight), ratio)
    ensures var size := MeasuredSize(ResolveAxis(ConstraintBySmaller, measuredWidth, measuredHeight),
                                     ratio, measuredWidth, measuredHeight);
            if measuredWidth < measuredHeight then size.0 == measuredWidth
            else size.1 == measuredHeight
  {
  }

  /** "Larger" keeps the larger measured dimension (height on a tie). */
  lemma LargerKeepsLongerSide(ratio: Ratio, measuredWidth: nat, measuredHeight: nat)
    requires DivisorNonZero(ResolveAxis(ConstraintByLarger, measuredWidth, measuredHeight), ratio)
    ensures var size := MeasuredSize(ResolveAxis(ConstraintByLarger, measuredWidth, measuredHeight),
                                     ratio, measuredWidth, measuredHeight);
            if measuredWidth > measuredHeight then size.0 == measuredWidth
            else size.1 == measuredHeight
  {
  }

  /** Two worked passes: (200, 500) by width with ratio 2 gives (200, 100);
      (300, 100) by "smaller" with ratio 1 gives (100, 100). */
  lemma MeasureExamples()
    ensures MeasuredSize(ResolveAxis(ConstraintByWidth, 200, 500), Ratio(2, 1), 200, 500) == (200, 100)
    ensures ResolveAxis(ConstraintBySmaller, 300, 100) == ConstraintByHeight
    ensures MeasuredSize(ResolveAxis(ConstraintBySmaller, 300, 100), Ratio(1, 1), 300, 100) == (100, 100)
  {
  }

  /** A zero denominator ("16:0") is harmless by width: the height is
      width / Infinity, that is 0, whatever the width and the numerator. */
  lemma ZeroDenominatorByWidth(num: nat, measuredWidth: nat, measuredHeight: nat)
    requires num > 0
    ensures MeasuredSize(ConstraintByWidth, Ratio(num, 0), measuredWidth, measuredHeight) == (measuredWidth, 0)
  {
  }

  /** The view: its two configuration fields, read from the layout
      attributes when it is created; `constraintBy` is rewritten by the first
      measurement when it says "smaller" or "larger". */
  class ConstraintImageView {
    var constraintBy: int
    var constraintRatio: Ratio

    /** Reads `constraint_by` (default: width) and `constraint_ratio` (kept at
        1 when absent, blank or not of the form digits:digits). */
    constructor (constraintByAttribute: Option<int>, ratioAttribute: Option<string>)
      ensures constraintBy == constraintByAttribute.GetOr(ConstraintByWidth)
      ensures constraintByAttribute.None? ==> constraintBy == ConstraintByWidth
      ensures constraintRatio == ConfiguredRatio(ratioAttribute)
      ensures ratioAttribute.None? ==> constraintRatio == DefaultRatio
    {
      constraintBy := constraintByAttribute.GetOr(ConstraintByWidth);
      constraintRatio := DefaultRatio;
      if ratioAttribute.Some? && !IsBlank(ratioAttribute.value) {
        var parsed := ParseRatio(ratioAttribute.value);
        if parsed.Some? {
          constraintRatio := parsed.value;
        }
      }
    }

    /** One measurement pass over the host's measured width and height:
        resolves "smaller" or "larger" in place, then reports the size that
        keeps the authoritative dimension and derives the other. */
    method Measure(measuredWidth: nat, measuredHeight: nat) returns (width: nat, height: nat)
      requires DivisorNonZero(ResolveAxis(constraintBy, measuredWidth, measuredHeight), constraintRatio)
      modifies this`constraintBy
      ensures constraintBy == ResolveAxis(old(constraintBy), measuredWidth, measuredHeight)
      ensures (width, height) == MeasuredSize(constraintBy, constraintRatio, measuredWidth, measuredHeight)
    {
      if constraintBy == ConstraintBySmaller {
        constraintBy := if measuredWidth < measuredHeight then ConstraintByWidth else ConstraintByHeight;
      }
      if constraintBy == ConstraintByLarger {
        constraintBy := if measuredWidth > measuredHeight then ConstraintByWidth else ConstraintByHeight;
      }
      var ratio := constraintRatio;
      if constraintBy == ConstraintByWidth {
        var scaled: nat := measuredWidth * ratio.den;
        width, height := measuredWidth, scaled / ratio.num;
      } else {
        var scaled: nat := measuredHeight * ratio.num;
        width, height := scaled / ratio.den, measuredHeight;
      }
    }
  }

  /** Two passes in a row over the same view: the second pass keeps the axis
      the first one chose, whatever it measures, and that axis is width or
      height whenever the view started from one of the four values. */
  method MeasureTwice(view: ConstraintImageView, w1: nat, h1: nat, w2: nat, h2: nat)
    returns (first: int, second: int)
    requires DivisorNonZero(ResolveAxis(view.constraintBy, w1, h1), view.constraintRatio)
    modifies view`constraintBy
    ensures first == ResolveAxis(old(view.constraintBy), w1, h1)
    ensures second == first && view.constraintBy == first
    ensures 0 <= old(view.constraintBy) <= 3 ==> first == ConstraintByWidth || first == ConstraintByHeight
  {
    var _, _ := view.Measure(w1, h1);
    first := view.constraintBy;
    var _, _ := view.Measure(w2, h2);
    second := view.constraintBy;
  }
}
