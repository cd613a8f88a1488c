/** `MosaicDetection.mixup` (exps/data/tal_flip_mosaicdetection.py:476-560): a second
    sample is letterboxed onto a grey canvas, optionally flipped, padded, cropped at a
    random offset, and its boxes that survive `box_candidates` are appended to the
    original labels. The drawing of the sample, the resizes and the 0.5/0.5 blend are
    outside the model; what they produce enters as parameters. */
module Mixup {
  import opened Geometry
  import opened Boxes
  import opened Masks
  import opened Canvas

  // ---------------------------------------------------------------- pixels

  /** `cp_img = np.ones(input_dim) * 114` and `cp_img[:rh, :rw] = resized_img` (:495-509),
      where `resized` is the letterboxed second image. */
  method CopyCanvas(inputH: nat, inputW: nat, resized: Image) returns (cp: array2<int>)
    requires resized.WellFormed() && resized.height <= inputH && resized.width <= inputW
    ensures fresh(cp) && cp.Length0 == inputH && cp.Length1 == inputW
    ensures forall y, x :: 0 <= y < inputH && 0 <= x < inputW ==>
              cp[y, x] == if y < resized.height && x < resized.width then resized.At(y, x) else FILL
  {
    cp := NewCanvas(inputH, inputW, FILL);
    var whole := Rect(0, 0, resized.width, resized.height);
    Paste(cp, whole, resized, whole);
  }

  /** `padded_img = np.zeros((max(oh, th), max(ow, tw)))` and `padded_img[:oh, :ow] = cp_img`
      (:520-525), where `cpImg` is the jittered (and possibly flipped) copy canvas. */
  method PadCanvas(cpImg: Image, targetH: nat, targetW: nat) returns (padded: array2<int>)
    requires cpImg.WellFormed()
    ensures fresh(padded)
    ensures padded.Length0 == Max(cpImg.height, targetH) && padded.Length1 == Max(cpImg.width, targetW)
    ensures forall y, x :: 0 <= y < padded.Length0 && 0 <= x < padded.Length1 ==>
              padded[y, x] == if y < cpImg.height && x < cpImg.width then cpImg.At(y, x) else 0
  {
    padded := NewCanvas(Max(cpImg.height, targetH), Max(cpImg.width, targetW), 0);
    var whole := Rect(0, 0, cpImg.width, cpImg.height);
    Paste(padded, whole, cpImg, whole);
  }

  /** The crop offset along one axis (:527-531): 0 when the padded image is no larger than
      the target, otherwise the value `draw` of `random.randint(0, padded - target - 1)`. */
  function CropOffset(originDim: nat, targetDim: nat, draw: int): (off: int)
    requires Max(originDim, targetDim) > targetDim ==> 0 <= draw <= Max(originDim, targetDim) - targetDim - 1
    // the crop window [off, off + target) lies inside the padded image
    ensures 0 <= off && off + targetDim <= Max(originDim, targetDim)
    // randint's upper bound keeps the window off the last row or column
    ensures Max(originDim, targetDim) > targetDim ==> off + targetDim < Max(originDim, targetDim)
    ensures Max(originDim, targetDim) == targetDim ==> off == 0
  {
    var padded := Max(originDim, targetDim);
    if padded > targetDim then draw else 0
  }

  // ---------------------------------------------------------------- boxes

  /** The horizontal flip of one box in an image `w` wide (:539-542): columns 0 and 2
      become `w - x2` and `w - x1`. */
  function FlipBox(b: Box, w: real): (r: Box)
    ensures r.Width() == b.Width() && r.y1 == b.y1 && r.y2 == b.y2
    ensures b.x1 <= b.x2 ==> r.x1 <= r.x2
    // flipping the result again gives `b` back
    ensures w - r.x2 == b.x1 && w - r.x1 == b.x2
  {
    Box(w - b.x2, b.y1, w - b.x1, b.y2)
  }

  /** Moving one box into the crop window and clipping it to the target (:543-549). */
  function CropBox(b: Box, xOffset: int, yOffset: int, targetW: nat, targetH: nat): (r: Box)
    ensures b.x1 <= b.x2 && b.y1 <= b.y2 ==> r.OrderedWithin(targetW as real, targetH as real)
    ensures 0.0 <= b.x1 - xOffset as real <= b.x2 - xOffset as real && b.x2 - xOffset as real <= targetW as real ==> r.Width() == b.Width()
  {
    Box(Clip(b.x1 - xOffset as real, 0.0, targetW as real), Clip(b.y1 - yOffset as real, 0.0, targetH as real),
        Clip(b.x2 - xOffset as real, 0.0, targetW as real), Clip(b.y2 - yOffset as real, 0.0, targetH as real))
  }

  /** `cp_labels[k, 4:5]`: the class column of a row, or nothing if the row has no fifth column. */
  function ClassColumn(l: Label): (c: seq<real>)
    ensures c == if |l.extra| == 0 then [] else [l.extra[0]]
  {
    l.extra[..Min(1, |l.extra|)]
  }

  /** What `mixup` draws and what the code outside the model hands it: the label rows of
      the second sample, its boxes as `adjust_box_anns` returns them, the coin `FLIP`, the
      size of the jittered copy canvas and the two `random.randint` draws. */
  datatype MixupDraw = MixupDraw(cpLabels: seq<Label>, adjusted: seq<Box>, flip: bool,
                                 originH: nat, originW: nat, yDraw: int, xDraw: int) {

    predicate Valid(targetH: nat, targetW: nat) {
      && |adjusted| == |cpLabels|
      && (Max(originH, targetH) > targetH ==> 0 <= yDraw <= Max(originH, targetH) - targetH - 1)
      && (Max(originW, targetW) > targetW ==> 0 <= xDraw <= Max(originW, targetW) - targetW - 1)
    }
  }

  /** The flip of the jittered copy canvas (:517-518) and the padding (:520-525), driven by
      the same coin `FLIP` that flips the boxes in `OriginBoxes`. */
  method PadMixupCanvas(jittered: Image, d: MixupDraw, targetH: nat, targetW: nat) returns (padded: array2<int>)
    requires jittered.WellFormed() && jittered.height == d.originH && jittered.width == d.originW
    ensures fresh(padded)
    ensures padded.Length0 == Max(d.originH, targetH) && padded.Length1 == Max(d.originW, targetW)
    ensures forall y, x :: 0 <= y < padded.Length0 && 0 <= x < padded.Length1 ==>
              padded[y, x] == if y < d.originH && x < d.originW
                              then (if d.flip then jittered.At(y, d.originW - 1 - x) else jittered.At(y, x))
                              else 0
  {
    var cpImg := if d.flip then FlipImage(jittered) else jittered;
    padded := PadCanvas(cpImg, targetH, targetW);
  }

  /** `cp_bboxes_origin_np` after the optional flip. */
  function OriginBoxes(d: MixupDraw): (r: seq<Box>)
    ensures |r| == |d.adjusted|
    // with FLIP, flipping each box back gives the adjusted box; without it nothing moves
    ensures d.flip ==> forall k :: 0 <= k < |r| ==> FlipBox(r[k], d.originW as real) == d.adjusted[k]
    ensures !d.flip ==> r == d.adjusted
    // a box that `adjust_box_anns` left inside the copy canvas stays inside with its size
    ensures forall k :: 0 <= k < |r| && d.adjusted[k].OrderedWithin(d.originW as real, d.originH as real) ==>
              r[k].OrderedWithin(d.originW as real, d.originH as real)
              && r[k].Width() == d.adjusted[k].Width() && r[k].Height() == d.adjusted[k].Height()
  {
    seq(|d.adjusted|, k requires 0 <= k < |d.adjusted| =>
      if d.flip then FlipBox(d.adjusted[k], d.originW as real) else d.adjusted[k])
  }

  /** `cp_bboxes_transformed_np`: every origin box moved into the crop window and clipped. */
  function TransformedBoxes(d: MixupDraw, targetH: nat, targetW: nat): (r: seq<Box>)
    requires d.Valid(targetH, targetW)
    ensures |r| == |d.adjusted|
  {
    var origin := OriginBoxes(d);
    var xOffset := CropOffset(d.originW, targetW, d.xDraw);
    var yOffset := CropOffset(d.originH, targetH, d.yDraw);
    seq(|origin|, k requires 0 <= k < |origin| => CropBox(origin[k], xOffset, yOffset, targetW, targetH))
  }

  /** `keep_list = box_candidates(origin.T, transformed.T, 5)` (:550). */
  function MixupKeep(d: MixupDraw, targetH: nat, targetW: nat): (keep: seq<bool>)
    requires d.Valid(targetH, targetW)
    ensures |keep| == |d.cpLabels|
  {
    var origin := OriginBoxes(d);
    var transformed := TransformedBoxes(d, targetH, targetW);
    seq(|origin|, k requires 0 <= k < |origin| => BoxCandidate(origin[k], transformed[k], 5.0, 20.0, 0.2))
  }

  /** `np.hstack((box_labels, cls_labels))` (:553-555): the kept cropped boxes with their class column. */
  function KeptRows(d: MixupDraw, targetH: nat, targetW: nat): (r: seq<Label>)
    requires d.Valid(targetH, targetW)
    ensures |r| == CountTrue(MixupKeep(d, targetH, targetW))
  {
    var keep := MixupKeep(d, targetH, targetW);
    var boxLabels := Mask(TransformedBoxes(d, targetH, targetW), keep);
    var clsLabels := Mask(d.cpLabels, keep);
    seq(|boxLabels|, k requires 0 <= k < |boxLabels| => Label(boxLabels[k], ClassColumn(clsLabels[k])))
  }

  /** The rows `mixup` adds lie in the target, are more than 5 pixels wide and high and
      carry at most the class column. */
  lemma KeptRowsInside(d: MixupDraw, targetH: nat, targetW: nat)
    requires d.Valid(targetH, targetW)
    ensures forall k :: 0 <= k < |KeptRows(d, targetH, targetW)| ==>
              var l := KeptRows(d, targetH, targetW)[k];
              l.box.OrderedWithin(targetW as real, targetH as real)
              && l.box.Width() > 5.0 && l.box.Height() > 5.0
              && |l.extra| <= 1
  {
    var keep := MixupKeep(d, targetH, targetW);
    var transformed := TransformedBoxes(d, targetH, targetW);
    var rows := KeptRows(d, targetH, targetW);
    var idx := TrueIndices(keep);
    MaskSelects(transformed, keep);
    forall k | 0 <= k < |rows|
      ensures rows[k].box.OrderedWithin(targetW as real, targetH as real)
              && rows[k].box.Width() > 5.0 && rows[k].box.Height() > 5.0
              && |rows[k].extra| <= 1
    {
      var j := idx[k];
      assert keep[j];
      assert rows[k].box == transformed[j];
    }
  }

  /** `r` keeps the rows of `prefix` in front, and every row after them lies in the
      `targetH x targetW` image and is more than 5 pixels wide and high. */
  predicate AppendsInside(prefix: seq<Label>, r: seq<Label>, targetH: nat, targetW: nat) {
    && |prefix| <= |r| && r[..|prefix|] == prefix
    && forall k :: |prefix| <= k < |r| ==>
         r[k].box.OrderedWithin(targetW as real, targetH as real)
         && r[k].box.Width() > 5.0 && r[k].box.Height() > 5.0
  }

  /** Appending inside the target twice is appending inside the target. */
  lemma AppendsInsideTwice(a: seq<Label>, b: seq<Label>, c: seq<Label>, targetH: nat, targetW: nat)
    requires AppendsInside(a, b, targetH, targetW) && AppendsInside(b, c, targetH, targetW)
    ensures AppendsInside(a, c, targetH, targetW)
  {
    assert c[..|a|] == c[..|b|][..|a|];
  }

  /** The label array `mixup` returns for the original labels and the draw `d`, on a
      target image of `targetH x targetW` (:527-560). */
  function MixupLabels(originLabels: seq<Label>, d: MixupDraw, targetH: nat, targetW: nat): (r: seq<Label>)
    requires d.Valid(targetH, targetW)
    ensures |r| == |originLabels| + CountTrue(MixupKeep(d, targetH, targetW))
    ensures CountTrue(MixupKeep(d, targetH, targetW)) == 0 ==> r == originLabels
    ensures AppendsInside(originLabels, r, targetH, targetW)
    ensures forall k :: |originLabels| <= k < |r| ==> |r[k].extra| <= 1
  {
    var keep := MixupKeep(d, targetH, targetW);
    if CountTrue(keep) >= 1 then
      var added := KeptRows(d, targetH, targetW);
      KeptRowsInside(d, targetH, targetW);
      assert (originLabels + added)[..|originLabels|] == originLabels;
      originLabels + added
    else
      originLabels
  }

  /** The rows appended are exactly the copied boxes, in order, that survive
      `box_candidates(…, 5)`, each as its cropped box and its class column. */
  lemma MixupSelects(originLabels: seq<Label>, d: MixupDraw, targetH: nat, targetW: nat)
    requires d.Valid(targetH, targetW)
    ensures var r := MixupLabels(originLabels, d, targetH, targetW);
            var idx := TrueIndices(MixupKeep(d, targetH, targetW));
            |r| == |originLabels| + |idx|
            && forall k :: 0 <= k < |idx| ==>
                 idx[k] < |d.cpLabels|
                 && r[|originLabels| + k] == Label(TransformedBoxes(d, targetH, targetW)[idx[k]], ClassColumn(d.cpLabels[idx[k]]))
  {
    var keep := MixupKeep(d, targetH, targetW);
    MaskSelects(TransformedBoxes(d, targetH, targetW), keep);
    MaskSelects(d.cpLabels, keep);
    var r := MixupLabels(originLabels, d, targetH, targetW);
    if CountTrue(keep) >= 1 {
      assert r[|originLabels|..] == KeptRows(d, targetH, targetW);
    }
  }
}
