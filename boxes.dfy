/** Bounding boxes and label rows, and the `box_candidates` filter
    (exps/data/tal_flip_mosaicdetection.py:14-26). Box coordinates are reals, so the
    arithmetic is exact. */
module Boxes {

  /** Columns 0-3 of a label row: corners (x1, y1) and (x2, y2) in pixels. */
  datatype Box = Box(x1: real, y1: real, x2: real, y2: real) {

    function Width(): real { x2 - x1 }

    function Height(): real { y2 - y1 }

    /** `0 <= x1 <= x2 <= w` and `0 <= y1 <= y2 <= h`. */
    predicate OrderedWithin(w: real, h: real) {
      0.0 <= x1 <= x2 <= w && 0.0 <= y1 <= y2 <= h
    }
  }

  /** One row of a label array: the box columns and the columns after them (the class
      and anything else the dataset stores). */
  datatype Label = Label(box: Box, extra: seq<real>)

  /** The epsilon `box_candidates` adds to its denominators. */
  const EPS: real := 1.0e-16

  function RealMax(a: real, b: real): real { if a >= b then a else b }

  /** `numpy.clip(v, lo, hi)`, which is `minimum(maximum(v, lo), hi)`. */
  function Clip(v: real, lo: real, hi: real): (r: real)
    ensures lo <= hi ==> lo <= r <= hi
    ensures lo <= v <= hi ==> r == v
    ensures v <= lo <= hi ==> r == lo
    ensures lo <= hi <= v ==> r == hi
  {
    var m := if v >= lo then v else lo;
    if m <= hi then m else hi
  }

  /** `num / den > thr` under IEEE division, for a positive `num`: a zero denominator
      gives +infinity, which exceeds every finite threshold. */
  function QuotientAbove(num: real, den: real, thr: real): (above: bool)
    requires num > 0.0
    ensures den > 0.0 ==> (above <==> num > thr * den)
    ensures den < 0.0 ==> (above <==> num < thr * den)
    ensures den == 0.0 ==> above
  {
    if den == 0.0 then true
    else
      var q := num / den;
      assert q * den == num;
      q > thr
  }

  /** `box_candidates(box1, box2, wh_thr, ar_thr, area_thr)` for one column: `before`
      is the box before the augmentation, `after` the box after it. */
  function BoxCandidate(before: Box, after: Box, whThr: real, arThr: real, areaThr: real): (keep: bool)
    requires 0.0 <= whThr
    // the four tests of :22-25, both directions, without division
    ensures var w2, h2 := after.Width(), after.Height();
            var den := before.Width() * before.Height() + EPS;
            keep <==> && w2 > whThr && h2 > whThr
                      && (den == 0.0 || (den > 0.0 && w2 * h2 > areaThr * den) || (den < 0.0 && w2 * h2 < areaThr * den))
                      && w2 < arThr * (h2 + EPS) && h2 < arThr * (w2 + EPS)
  {
    var w1, h1 := before.Width(), before.Height();
    var w2, h2 := after.Width(), after.Height();
    if w2 > whThr && h2 > whThr then
      assert w2 * h2 > 0.0;
      QuotientAbove(w2 * h2, w1 * h1 + EPS, areaThr) && AspectBelow(w2, h2, arThr)
    else
      false
  }

  /** `maximum(w / (h + eps), h / (w + eps)) < thr` for positive sides, stated without division. */
  function AspectBelow(w: real, h: real, thr: real): (below: bool)
    requires w > 0.0 && h > 0.0
    ensures below <==> w < thr * (h + EPS) && h < thr * (w + EPS)
  {
    var a, b := w / (h + EPS), h / (w + EPS);
    assert a * (h + EPS) == w;
    assert b * (w + EPS) == h;
    RealMax(a, b) < thr
  }
}
