/** `get_mosaic_coordinate` (exps/data/tal_flip_mosaicdetection.py:119-137): where tile
    number `index` of a mosaic goes on the `2*input_h x 2*input_w` canvas, and which part
    of the tile is copied there. Quadrant 0 is top left, 1 top right, 2 bottom left and
    3 bottom right of the mosaic centre `(xc, yc)`. */
module MosaicCoordinate {
  import opened Geometry

  /** The destination rectangle on the canvas (`large`, the code's `l_` coordinates) and
      the source rectangle inside the tile (`small`, the code's `s_` coordinates). */
  datatype Placement = Placement(large: Rect, small: Rect) {

    /** `padw = l_x1 - s_x1`: a tile column plus `PadW()` is a canvas column. */
    function PadW(): int { large.x1 - small.x1 }

    /** `padh = l_y1 - s_y1`: a tile row plus `PadH()` is a canvas row. */
    function PadH(): int { large.y1 - small.y1 }
  }

  /** What the caller guarantees: the centre lies on the canvas and the tile sizes are
      sizes. The caller's centre is drawn in `[input/2, 3*input/2]` and its tiles are at
      most `input_h x input_w`, which is more than enough. */
  predicate CentreOnCanvas(xc: int, yc: int, w: int, h: int, inputH: int, inputW: int) {
    0 <= xc <= 2 * inputW && 0 <= yc <= 2 * inputH && 0 <= w && 0 <= h
  }

  /** The result of `get_mosaic_coordinate(mosaic_image, index, xc, yc, w, h, input_h,
      input_w)`; the canvas argument is not used by the code and is left out. The code
      raises for an index outside 0..3; its only caller passes 0..3. */
  function GetMosaicCoordinate(index: int, xc: int, yc: int, w: int, h: int, inputH: int, inputW: int): (p: Placement)
    requires 0 <= index <= 3
    // the offset does not depend on the clamping
    ensures p.PadW() == (if index == 0 || index == 2 then xc - w else xc)
    ensures p.PadH() == (if index == 0 || index == 1 then yc - h else yc)
    // the tile is placed in its own quadrant of the centre
    ensures (if index == 0 || index == 2 then p.large.x2 == xc else p.large.x1 == xc)
    ensures (if index == 0 || index == 1 then p.large.y2 == yc else p.large.y1 == yc)
    // the slice copy is well shaped and in bounds on both sides
    ensures CentreOnCanvas(xc, yc, w, h, inputH, inputW) ==>
              && p.large.Within(2 * inputW, 2 * inputH)
              && p.small.Within(w, h)
              && p.large.SameShape(p.small)
  {
    if index == 0 then
      var large := Rect(Max(xc - w, 0), Max(yc - h, 0), xc, yc);
      Placement(large, Rect(w - large.Width(), h - large.Height(), w, h))
    else if index == 1 then
      var large := Rect(xc, Max(yc - h, 0), Min(xc + w, inputW * 2), yc);
      Placement(large, Rect(0, h - large.Height(), Min(w, large.Width()), h))
    else if index == 2 then
      var large := Rect(Max(xc - w, 0), yc, xc, Min(inputH * 2, yc + h));
      Placement(large, Rect(w - large.Width(), 0, w, Min(large.Height(), h)))
    else
      var large := Rect(xc, yc, Min(xc + w, inputW * 2), Min(inputH * 2, yc + h));
      Placement(large, Rect(0, 0, Min(w, large.Width()), Min(large.Height(), h)))
  }
}
