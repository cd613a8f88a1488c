/** The label flow of the mosaic branch of `MosaicDetection.__getitem__` after the
    mosaic loop (exps/data/tal_flip_mosaicdetection.py:356-385): each label array goes
    through its own `random_perspective`, then up to two mixups. As in the code, the
    second mixup is guarded by the support labels (:384) but mixes into the primary
    image and labels (:385), so the support labels never gain rows. */
module GetItem {
  import opened Boxes
  import opened Perspective
  import opened Mixup

  /** The two mixup calls (:382-385). `coin1` and `coin2` are the outcomes of
      `random.random() < self.mixup_prob`; `d1` and `d2` what each call draws. */
  function MixupCalls(labels1: seq<Label>, labels2: seq<Label>, enableMixup: bool,
                      coin1: bool, d1: MixupDraw, coin2: bool, d2: MixupDraw,
                      targetH: nat, targetW: nat): (r: (seq<Label>, seq<Label>))
    requires d1.Valid(targetH, targetW) && d2.Valid(targetH, targetW)
    ensures r.1 == labels2
    ensures AppendsInside(labels1, r.0, targetH, targetW)
    ensures !enableMixup ==> r.0 == labels1
  {
    var first := if enableMixup && |labels1| != 0 && coin1 then MixupLabels(labels1, d1, targetH, targetW) else labels1;
    var second := if enableMixup && |labels2| != 0 && coin2 then MixupLabels(first, d2, targetH, targetW) else first;
    assert AppendsInside(labels1, first, targetH, targetW) by {
      if first == labels1 { assert labels1[..|labels1|] == labels1; }
    }
    assert AppendsInside(first, second, targetH, targetW) by {
      if second == first { assert first[..|first|] == first; }
    }
    AppendsInsideTwice(labels1, first, second, targetH, targetW);
    (second, labels2)
  }

  /** The two label arrays handed to `preproc` (:386), from the two mosaic label arrays,
      the transform and scale each `random_perspective` call draws, and the mixup draws. */
  function MosaicBranchLabels(mosaicLabels1: seq<Label>, mosaicLabels2: seq<Label>, inputH: nat, inputW: nat,
                              m1: Affine, s1: real, m2: Affine, s2: real, enableMixup: bool,
                              coin1: bool, d1: MixupDraw, coin2: bool, d2: MixupDraw): (r: (seq<Label>, seq<Label>))
    requires d1.Valid(WarpedExtent(inputH), WarpedExtent(inputW)) && d2.Valid(WarpedExtent(inputH), WarpedExtent(inputW))
    // every box handed on lies inside the warped image and is more than 2 pixels wide and high
    ensures forall k :: 0 <= k < |r.0| ==>
              r.0[k].box.OrderedWithin(WarpedExtent(inputW) as real, WarpedExtent(inputH) as real)
              && r.0[k].box.Width() > 2.0 && r.0[k].box.Height() > 2.0
    ensures forall k :: 0 <= k < |r.1| ==>
              r.1[k].box.OrderedWithin(WarpedExtent(inputW) as real, WarpedExtent(inputH) as real)
              && r.1[k].box.Width() > 2.0 && r.1[k].box.Height() > 2.0
    // the warp only drops rows, and the support labels gain none
    ensures |r.1| <= |mosaicLabels2|
    ensures !enableMixup ==> |r.0| <= |mosaicLabels1|
  {
    var height, width := WarpedExtent(inputH), WarpedExtent(inputW);
    var warped1 := RandomPerspectiveTargets(mosaicLabels1, m1, s1, width, height);
    var warped2 := RandomPerspectiveTargets(mosaicLabels2, m2, s2, width, height);
    var r := MixupCalls(warped1, warped2, enableMixup, coin1, d1, coin2, d2, height, width);
    assert forall k :: 0 <= k < |warped1| ==> r.0[k] == warped1[k];
    r
  }
}
