/** The label part of `random_perspective` (exps/data/tal_flip_mosaicdetection.py:29-117):
    every box's four corners are mapped through the transform `M`, replaced by their
    bounding box, clipped to the output image and kept only if `box_candidates` holds.
    How `M` is drawn and the image warp itself are outside the model. */
module Perspective {
  import opened Boxes
  import opened Masks

  /** The top two rows of `M` (`x' = a*x + b*y + c`, `y' = d*x + e*y + f`). Every factor
      of `M` built at :44-71 has last row (0, 0, 1), so the perspective branch at :98-99
      divides by 1 and the affine map is the whole story. */
  datatype Affine = Affine(a: real, b: real, c: real, d: real, e: real, f: real) {

    function MapX(x: real, y: real): real { a * x + b * y + c }

    function MapY(x: real, y: real): real { d * x + e * y + f }
  }

  function Min4(p: real, q: real, r: real, s: real): real {
    var m := if p <= q then p else q;
    var n := if r <= s then r else s;
    if m <= n then m else n
  }

  function Max4(p: real, q: real, r: real, s: real): real {
    var m := if p >= q then p else q;
    var n := if r >= s then r else s;
    if m >= n then m else n
  }

  /** The axis-aligned box around the images of the corners (x1,y1), (x2,y2), (x1,y2), (x2,y1). */
  function WarpBox(m: Affine, b: Box): (r: Box)
    ensures r.x1 <= r.x2 && r.y1 <= r.y2
    ensures r.x1 <= m.MapX(b.x1, b.y1) <= r.x2 && r.x1 <= m.MapX(b.x2, b.y2) <= r.x2
    ensures r.x1 <= m.MapX(b.x1, b.y2) <= r.x2 && r.x1 <= m.MapX(b.x2, b.y1) <= r.x2
    ensures r.y1 <= m.MapY(b.x1, b.y1) <= r.y2 && r.y1 <= m.MapY(b.x2, b.y2) <= r.y2
    ensures r.y1 <= m.MapY(b.x1, b.y2) <= r.y2 && r.y1 <= m.MapY(b.x2, b.y1) <= r.y2
    // and it is the tightest such box: every side is attained by a corner
    ensures r.x1 in {m.MapX(b.x1, b.y1), m.MapX(b.x2, b.y2), m.MapX(b.x1, b.y2), m.MapX(b.x2, b.y1)}
    ensures r.x2 in {m.MapX(b.x1, b.y1), m.MapX(b.x2, b.y2), m.MapX(b.x1, b.y2), m.MapX(b.x2, b.y1)}
    ensures r.y1 in {m.MapY(b.x1, b.y1), m.MapY(b.x2, b.y2), m.MapY(b.x1, b.y2), m.MapY(b.x2, b.y1)}
    ensures r.y2 in {m.MapY(b.x1, b.y1), m.MapY(b.x2, b.y2), m.MapY(b.x1, b.y2), m.MapY(b.x2, b.y1)}
  {
    Box(Min4(m.MapX(b.x1, b.y1), m.MapX(b.x2, b.y2), m.MapX(b.x1, b.y2), m.MapX(b.x2, b.y1)),
        Min4(m.MapY(b.x1, b.y1), m.MapY(b.x2, b.y2), m.MapY(b.x1, b.y2), m.MapY(b.x2, b.y1)),
        Max4(m.MapX(b.x1, b.y1), m.MapX(b.x2, b.y2), m.MapX(b.x1, b.y2), m.MapX(b.x2, b.y1)),
        Max4(m.MapY(b.x1, b.y1), m.MapY(b.x2, b.y2), m.MapY(b.x1, b.y2), m.MapY(b.x2, b.y1)))
  }

  /** `xy[:, [0, 2]].clip(0, width)` and `xy[:, [1, 3]].clip(0, height)` for one box. */
  function ClipBox(b: Box, width: real, height: real): (r: Box)
    requires 0.0 <= width && 0.0 <= height
    ensures b.x1 <= b.x2 && b.y1 <= b.y2 ==> r.OrderedWithin(width, height)
    ensures b.OrderedWithin(width, height) ==> r == b
  {
    Box(Clip(b.x1, 0.0, width), Clip(b.y1, 0.0, height), Clip(b.x2, 0.0, width), Clip(b.y2, 0.0, height))
  }

  /** `targets[:, :4].T * s`: the box before the warp, at the warp's scale. */
  function ScaleBox(b: Box, s: real): Box {
    Box(b.x1 * s, b.y1 * s, b.x2 * s, b.y2 * s)
  }

  /** The clipped, warped box of every target (the array `xy` after :109-110). */
  function WarpedBoxes(targets: seq<Label>, m: Affine, width: int, height: int): (xy: seq<Box>)
    requires 0 <= width && 0 <= height
    ensures |xy| == |targets|
    ensures forall k :: 0 <= k < |xy| ==> xy[k].OrderedWithin(width as real, height as real)
  {
    seq(|targets|, k requires 0 <= k < |targets| => ClipBox(WarpBox(m, targets[k].box), width as real, height as real))
  }

  /** The mask `i` computed at :113, with the default thresholds of `box_candidates`. */
  function CandidateMask(targets: seq<Label>, m: Affine, s: real, width: int, height: int): (keep: seq<bool>)
    requires 0 <= width && 0 <= height
    ensures |keep| == |targets|
  {
    var xy := WarpedBoxes(targets, m, width, height);
    seq(|targets|, k requires 0 <= k < |targets| => BoxCandidate(ScaleBox(targets[k].box, s), xy[k], 2.0, 20.0, 0.2))
  }

  /** The targets `random_perspective` returns (:90-117) for the transform `m`, the scale
      `s` drawn for it and the output size `width x height`. */
  function RandomPerspectiveTargets(targets: seq<Label>, m: Affine, s: real, width: int, height: int): (r: seq<Label>)
    requires 0 <= width && 0 <= height
    ensures |r| == CountTrue(CandidateMask(targets, m, s, width, height)) <= |targets|
    ensures forall k :: 0 <= k < |r| ==>
              r[k].box.OrderedWithin(width as real, height as real)
              && r[k].box.Width() > 2.0 && r[k].box.Height() > 2.0
  {
    if |targets| == 0 then targets
    else
      var xy := WarpedBoxes(targets, m, width, height);
      var keep := CandidateMask(targets, m, s, width, height);
      var kept := Mask(targets, keep);
      var boxes := Mask(xy, keep);
      MaskSelects(xy, keep);
      seq(|kept|, k requires 0 <= k < |kept| => Label(boxes[k], kept[k].extra))
  }

  /** The rows kept are exactly the targets, in order, whose warped box passes
      `box_candidates`, each with its warped box and its other columns unchanged. */
  lemma RandomPerspectiveSelects(targets: seq<Label>, m: Affine, s: real, width: int, height: int)
    requires 0 <= width && 0 <= height
    ensures var r := RandomPerspectiveTargets(targets, m, s, width, height);
            var idx := TrueIndices(CandidateMask(targets, m, s, width, height));
            |r| == |idx|
            && forall k :: 0 <= k < |idx| ==>
                 idx[k] < |targets|
                 && r[k] == Label(WarpedBoxes(targets, m, width, height)[idx[k]], targets[idx[k]].extra)
  {
    var keep := CandidateMask(targets, m, s, width, height);
    MaskSelects(targets, keep);
    MaskSelects(WarpedBoxes(targets, m, width, height), keep);
  }

  /** A target whose clipped, warped box is at most 2 pixels wide or high is dropped. */
  lemma ThinBoxesDropped(targets: seq<Label>, m: Affine, s: real, width: int, height: int, i: int)
    requires 0 <= width && 0 <= height && 0 <= i < |targets|
    requires WarpedBoxes(targets, m, width, height)[i].Width() <= 2.0
             || WarpedBoxes(targets, m, width, height)[i].Height() <= 2.0
    ensures i !in TrueIndices(CandidateMask(targets, m, s, width, height))
  {
  }

  /** The output size `img.shape + 2 * border` (:40-41) for a mosaic canvas of side
      `2 * d` and `border = -d // 2` (:364, :374): `d` rounded down to an even number. */
  function WarpedExtent(d: nat): (n: int)
    ensures n == d - d % 2
    ensures 0 <= n <= d
  {
    var border: int := (0 - d) / 2;
    2 * d + 2 * border
  }
}
