/** The mosaic branch of `MosaicDetection.__getitem__` up to the warp
    (exps/data/tal_flip_mosaicdetection.py:266-355): four resized tiles are pasted around
    the centre `(xc, yc)` of two `2*input_h x 2*input_w` canvases, and their label rows are
    shifted into canvas coordinates, concatenated and clipped to the canvas.

    As in the code, the second canvas is filled from the primary tiles with the primary
    tiles' placement (:315-319), and the support labels are shifted with the primary
    tile's scale and offset (:336-339). */
module Mosaic {
  import opened Geometry
  import opened Boxes
  import opened Canvas
  import opened MosaicCoordinate

  // ---------------------------------------------------------------- labels

  /** `labels[:, 0:4] = scale * labels[:, 0:4] + (padw, padh, padw, padh)` (:329-339). */
  function ShiftLabels(ls: seq<Label>, scale: real, padw: int, padh: int): (r: seq<Label>)
    ensures |r| == |ls|
    ensures forall k :: 0 <= k < |r| ==> r[k].extra == ls[k].extra
    // widths and heights scale by `scale`
    ensures forall k :: 0 <= k < |r| ==>
              r[k].box.Width() == scale * ls[k].box.Width() && r[k].box.Height() == scale * ls[k].box.Height()
    // undoing the offset gives the scaled corner, in the tile's resized coordinates
    ensures forall k :: 0 <= k < |r| ==>
              r[k].box.x1 - padw as real == scale * ls[k].box.x1 && r[k].box.y1 - padh as real == scale * ls[k].box.y1
  {
    seq(|ls|, k requires 0 <= k < |ls| =>
      var b := ls[k].box;
      Label(Box(scale * b.x1 + padw as real, scale * b.y1 + padh as real,
                scale * b.x2 + padw as real, scale * b.y2 + padh as real),
            ls[k].extra))
  }

  /** The number of rows of all sources together. */
  function LabelCount(lss: seq<seq<Label>>): nat {
    if |lss| == 0 then 0 else LabelCount(lss[..|lss| - 1]) + |lss[|lss| - 1]|
  }

  /** `np.concatenate(lss, 0)`: the rows of all sources, source after source. */
  function Concat(lss: seq<seq<Label>>): (r: seq<Label>)
    ensures |r| == LabelCount(lss)
  {
    if |lss| == 0 then [] else Concat(lss[..|lss| - 1]) + lss[|lss| - 1]
  }

  /** `np.clip(labels[:, c], 0, 2 * input_w or 2 * input_h, out=labels[:, c])` for c = 0..3
      (:346-355). */
  function ClipLabels(ls: seq<Label>, inputH: nat, inputW: nat): (r: seq<Label>)
    ensures |r| == |ls|
    ensures forall k :: 0 <= k < |r| ==>
              r[k].extra == ls[k].extra
              && 0.0 <= r[k].box.x1 <= (2 * inputW) as real && 0.0 <= r[k].box.x2 <= (2 * inputW) as real
              && 0.0 <= r[k].box.y1 <= (2 * inputH) as real && 0.0 <= r[k].box.y2 <= (2 * inputH) as real
    // a row already inside the canvas is kept as it is
    ensures forall k :: 0 <= k < |ls| && ls[k].box.OrderedWithin((2 * inputW) as real, (2 * inputH) as real) ==> r[k] == ls[k]
  {
    var xMax, yMax := (2 * inputW) as real, (2 * inputH) as real;
    seq(|ls|, k requires 0 <= k < |ls| =>
      var b := ls[k].box;
      Label(Box(Clip(b.x1, 0.0, xMax), Clip(b.y1, 0.0, yMax), Clip(b.x2, 0.0, xMax), Clip(b.y2, 0.0, yMax)),
            ls[k].extra))
  }

  /** What the caller of the loop guarantees: four well-formed tiles and a centre on the canvas. */
  predicate MosaicInputs(tiles: seq<Image>, xc: int, yc: int, inputH: nat, inputW: nat) {
    && |tiles| == 4
    && 0 <= xc <= 2 * inputW && 0 <= yc <= 2 * inputH
    && forall q :: 0 <= q < 4 ==> tiles[q].WellFormed()
  }

  /** The placement `get_mosaic_coordinate` gives tile `q` (:312-317). */
  function TilePlacement(tiles: seq<Image>, xc: int, yc: int, inputH: nat, inputW: nat, q: int): (p: Placement)
    requires MosaicInputs(tiles, xc, yc, inputH, inputW) && 0 <= q < 4
    ensures p.large.Within(2 * inputW, 2 * inputH) && p.small.Within(tiles[q].width, tiles[q].height)
    ensures p.large.SameShape(p.small)
  {
    GetMosaicCoordinate(q, xc, yc, tiles[q].width, tiles[q].height, inputH, inputW)
  }

  /** The label rows of every source after the shift, with the primary tile's scale and offset. */
  function ShiftedSources(labels: seq<seq<Label>>, scales: seq<real>, tiles: seq<Image>,
                          xc: int, yc: int, inputH: nat, inputW: nat): (r: seq<seq<Label>>)
    requires MosaicInputs(tiles, xc, yc, inputH, inputW) && |labels| == 4 && |scales| == 4
    ensures |r| == 4
  {
    seq(4, q requires 0 <= q < 4 =>
      var p := TilePlacement(tiles, xc, yc, inputH, inputW, q);
      ShiftLabels(labels[q], scales[q], p.PadW(), p.PadH()))
  }

  /** Two label lists with the same length and the same non-box columns row by row. */
  predicate SameExtras(a: seq<Label>, b: seq<Label>) {
    |a| == |b| && forall k :: 0 <= k < |a| ==> a[k].extra == b[k].extra
  }

  /** The mosaic label array after the concatenation and the clip (:344-355). */
  function MosaicLabels(labels: seq<seq<Label>>, scales: seq<real>, tiles: seq<Image>,
                        xc: int, yc: int, inputH: nat, inputW: nat): (r: seq<Label>)
    requires MosaicInputs(tiles, xc, yc, inputH, inputW) && |labels| == 4 && |scales| == 4
    ensures |r| == |labels[0]| + |labels[1]| + |labels[2]| + |labels[3]|
    ensures SameExtras(r, Concat(labels))
    ensures forall k :: 0 <= k < |r| ==>
              0.0 <= r[k].box.x1 <= (2 * inputW) as real && 0.0 <= r[k].box.x2 <= (2 * inputW) as real
              && 0.0 <= r[k].box.y1 <= (2 * inputH) as real && 0.0 <= r[k].box.y2 <= (2 * inputH) as real
  {
    var shifted := ShiftedSources(labels, scales, tiles, xc, yc, inputH, inputW);
    ConcatSameExtras(shifted, labels);
    LabelCountFour(labels);
    LabelCountFour(shifted);
    ClipLabels(Concat(shifted), inputH, inputW)
  }

  /** The rows of four sources number the sum of their counts. */
  lemma LabelCountFour(lss: seq<seq<Label>>)
    requires |lss| == 4
    ensures LabelCount(lss) == |lss[0]| + |lss[1]| + |lss[2]| + |lss[3]|
  {
    assert lss[..3][..2] == lss[..2] && lss[..2][..1] == lss[..1] && lss[..1][..0] == [];
    assert LabelCount(lss[..1]) == |lss[0]|;
    assert LabelCount(lss[..2]) == |lss[0]| + |lss[1]|;
    assert LabelCount(lss[..3]) == |lss[0]| + |lss[1]| + |lss[2]|;
  }

  /** Concatenating row lists with matching non-box columns keeps them matching. */
  lemma {:induction false} ConcatSameExtras(a: seq<seq<Label>>, b: seq<seq<Label>>)
    requires |a| == |b| && forall q :: 0 <= q < |a| ==> SameExtras(a[q], b[q])
    ensures SameExtras(Concat(a), Concat(b))
  {
    if |a| > 0 {
      var n := |a| - 1;
      ConcatSameExtras(a[..n], b[..n]);
      var ca, cb := Concat(a[..n]), Concat(b[..n]);
      assert Concat(a) == ca + a[n] && Concat(b) == cb + b[n];
      forall k | 0 <= k < |Concat(a)|
        ensures Concat(a)[k].extra == Concat(b)[k].extra
      {
        if k >= |ca| {
          assert Concat(a)[k] == a[n][k - |ca|] && Concat(b)[k] == b[n][k - |cb|];
        }
      }
    }
  }

  /** Clipping a second time changes nothing. */
  lemma ClipLabelsIdempotent(ls: seq<Label>, inputH: nat, inputW: nat)
    ensures ClipLabels(ClipLabels(ls, inputH, inputW), inputH, inputW) == ClipLabels(ls, inputH, inputW)
  {
  }

  // ---------------------------------------------------------------- pixels

  /** Canvas cell `(y, x)` after the first `k` tiles are pasted onto a canvas filled with 114. */
  function Composite(tiles: seq<Image>, xc: int, yc: int, inputH: nat, inputW: nat, k: nat, x: int, y: int): int
    requires MosaicInputs(tiles, xc, yc, inputH, inputW) && k <= 4
  {
    if k == 0 then FILL
    else
      var p := TilePlacement(tiles, xc, yc, inputH, inputW, k - 1);
      if p.large.Contains(x, y) then SourcePixel(tiles[k - 1], p.large, p.small, y, x)
      else Composite(tiles, xc, yc, inputH, inputW, k - 1, x, y)
  }

  /** Inside tile `q`'s destination rectangle, the canvas holds tile `q`'s pixel: no other
      tile overwrites it. */
  lemma {:induction false} CompositeInTile(tiles: seq<Image>, xc: int, yc: int, inputH: nat, inputW: nat,
                                           k: nat, q: int, x: int, y: int)
    requires MosaicInputs(tiles, xc, yc, inputH, inputW) && 0 <= q < k <= 4
    requires TilePlacement(tiles, xc, yc, inputH, inputW, q).large.Contains(x, y)
    ensures var p := TilePlacement(tiles, xc, yc, inputH, inputW, q);
            Composite(tiles, xc, yc, inputH, inputW, k, x, y) == SourcePixel(tiles[q], p.large, p.small, y, x)
  {
    if q < k - 1 {
      CompositeInTile(tiles, xc, yc, inputH, inputW, k - 1, q, x, y);
    }
  }

  /** Outside every destination rectangle, the canvas keeps its fill value. */
  lemma {:induction false} CompositeOutside(tiles: seq<Image>, xc: int, yc: int, inputH: nat, inputW: nat,
                                            k: nat, x: int, y: int)
    requires MosaicInputs(tiles, xc, yc, inputH, inputW) && k <= 4
    requires forall q :: 0 <= q < k ==> !TilePlacement(tiles, xc, yc, inputH, inputW, q).large.Contains(x, y)
    ensures Composite(tiles, xc, yc, inputH, inputW, k, x, y) == FILL
  {
    if k > 0 {
      CompositeOutside(tiles, xc, yc, inputH, inputW, k - 1, x, y);
    }
  }

  /** Labels follow pixels: the shift `(padw, padh)` applied to tile `q`'s label rows is the
      offset at which its copied pixels land, so the canvas cell a shifted tile point
      names holds that tile point's pixel. */
  lemma LabelsFollowPixels(tiles: seq<Image>, xc: int, yc: int, inputH: nat, inputW: nat, q: int, tx: int, ty: int)
    requires MosaicInputs(tiles, xc, yc, inputH, inputW) && 0 <= q < 4
    requires TilePlacement(tiles, xc, yc, inputH, inputW, q).small.Contains(tx, ty)
    ensures var p := TilePlacement(tiles, xc, yc, inputH, inputW, q);
            && p.large.Contains(tx + p.PadW(), ty + p.PadH())
            && Composite(tiles, xc, yc, inputH, inputW, 4, tx + p.PadW(), ty + p.PadH()) == tiles[q].At(ty, tx)
  {
    var p := TilePlacement(tiles, xc, yc, inputH, inputW, q);
    CompositeInTile(tiles, xc, yc, inputH, inputW, 4, q, tx + p.PadW(), ty + p.PadH());
  }

  /** A label of tile `q` whose scaled top-left corner is the tile pixel `(tx, ty)` ends up,
      after the shift, on the canvas cell that holds that pixel. */
  lemma ShiftedCornerOnPixel(labels: seq<seq<Label>>, scales: seq<real>, tiles: seq<Image>,
                             xc: int, yc: int, inputH: nat, inputW: nat, q: int, k: int, tx: int, ty: int)
    requires MosaicInputs(tiles, xc, yc, inputH, inputW) && |labels| == 4 && |scales| == 4
    requires 0 <= q < 4 && 0 <= k < |labels[q]|
    requires scales[q] * labels[q][k].box.x1 == tx as real && scales[q] * labels[q][k].box.y1 == ty as real
    requires TilePlacement(tiles, xc, yc, inputH, inputW, q).small.Contains(tx, ty)
    ensures var p := TilePlacement(tiles, xc, yc, inputH, inputW, q);
            var corner := ShiftedSources(labels, scales, tiles, xc, yc, inputH, inputW)[q][k].box;
            && corner.x1 == (tx + p.PadW()) as real && corner.y1 == (ty + p.PadH()) as real
            && Composite(tiles, xc, yc, inputH, inputW, 4, tx + p.PadW(), ty + p.PadH()) == tiles[q].At(ty, tx)
  {
    LabelsFollowPixels(tiles, xc, yc, inputH, inputW, q, tx, ty);
  }

  // ---------------------------------------------------------------- the loop

  /** The `for` loop of :278-341 and the concatenation and clip of :344-355, for the tiles
      after resizing (`tiles[q]` is `img` of iteration `q`), their label rows, the support
      label rows and the primary scales. */
  method BuildMosaic(inputH: nat, inputW: nat, xc: int, yc: int, tiles: seq<Image>,
                     labels: seq<seq<Label>>, supportLabels: seq<seq<Label>>, scales: seq<real>)
    returns (canvas1: array2<int>, canvas2: array2<int>, labels1: seq<Label>, labels2: seq<Label>)
    requires MosaicInputs(tiles, xc, yc, inputH, inputW)
    requires |labels| == 4 && |supportLabels| == 4 && |scales| == 4
    ensures fresh(canvas1) && fresh(canvas2) && canvas1 != canvas2
    ensures canvas1.Length0 == canvas2.Length0 == 2 * inputH && canvas1.Length1 == canvas2.Length1 == 2 * inputW
    ensures forall y, x :: 0 <= y < 2 * inputH && 0 <= x < 2 * inputW ==>
              canvas1[y, x] == Composite(tiles, xc, yc, inputH, inputW, 4, x, y) && canvas2[y, x] == canvas1[y, x]
    ensures labels1 == MosaicLabels(labels, scales, tiles, xc, yc, inputH, inputW)
    ensures labels2 == MosaicLabels(supportLabels, scales, tiles, xc, yc, inputH, inputW)
  {
    canvas1 := NewCanvas(2 * inputH, 2 * inputW, FILL);
    canvas2 := NewCanvas(2 * inputH, 2 * inputW, FILL);
    var acc1: seq<seq<Label>> := [];
    var acc2: seq<seq<Label>> := [];
    for i := 0 to 4
      invariant canvas1.Length0 == canvas2.Length0 == 2 * inputH && canvas1.Length1 == canvas2.Length1 == 2 * inputW
      invariant forall y, x :: 0 <= y < 2 * inputH && 0 <= x < 2 * inputW ==>
                  canvas1[y, x] == Composite(tiles, xc, yc, inputH, inputW, i, x, y) && canvas2[y, x] == canvas1[y, x]
      invariant acc1 == ShiftedSources(labels, scales, tiles, xc, yc, inputH, inputW)[..i]
      invariant acc2 == ShiftedSources(supportLabels, scales, tiles, xc, yc, inputH, inputW)[..i]
    {
      var tile := tiles[i];
      var p := GetMosaicCoordinate(i, xc, yc, tile.width, tile.height, inputH, inputW);
      var p1 := GetMosaicCoordinate(i, xc, yc, tile.width, tile.height, inputH, inputW);
      Paste(canvas1, p.large, tile, p.small);
      Paste(canvas2, p1.large, tile, p1.small);
      var padw, padh := p.PadW(), p.PadH();
      acc1 := acc1 + [ShiftLabels(labels[i], scales[i], padw, padh)];
      acc2 := acc2 + [ShiftLabels(supportLabels[i], scales[i], padw, padh)];
    }
    assert acc1 == ShiftedSources(labels, scales, tiles, xc, yc, inputH, inputW);
    assert acc2 == ShiftedSources(supportLabels, scales, tiles, xc, yc, inputH, inputW);
    labels1 := ClipLabels(Concat(acc1), inputH, inputW);
    labels2 := ClipLabels(Concat(acc2), inputH, inputW);
  }
}
