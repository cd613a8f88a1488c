/** The in-place pixel writes of the mosaic and mixup code: filling a fresh canvas, and the
    slice copy `canvas[l_y1:l_y2, l_x1:l_x2] = tile[s_y1:s_y2, s_x1:s_x2]`
    (exps/data/tal_flip_mosaicdetection.py:308-309, :318-319, :496-509, :522-525), plus
    the horizontal flip of an image (:517-518). A canvas is an `array2<int>` indexed
    `[row, column]`; one channel stands for all three. */
module Canvas {
  import opened Geometry

  /** The grey value the mosaic and mixup canvases start with. */
  const FILL: int := 114

  /** `np.full((rows, cols), value)` (also `np.ones(...) * 114` and `np.zeros(...)`). */
  method NewCanvas(rows: nat, cols: nat, value: int) returns (canvas: array2<int>)
    ensures fresh(canvas)
    ensures canvas.Length0 == rows && canvas.Length1 == cols
    ensures forall y, x :: 0 <= y < rows && 0 <= x < cols ==> canvas[y, x] == value
  {
    canvas := new int[rows, cols]((y, x) => value);
  }

  /** The tile pixel that the slice copy puts at canvas cell `(y, x)` of `large`. */
  function SourcePixel(tile: Image, large: Rect, small: Rect, y: int, x: int): int
    requires tile.WellFormed() && small.Within(tile.width, tile.height) && large.SameShape(small)
    requires large.Contains(x, y)
  {
    tile.At(y - large.y1 + small.y1, x - large.x1 + small.x1)
  }

  /** The numpy slice assignment `canvas[large] = tile[small]`. numpy demands equal shapes;
      both callers also keep every bound inside its image, so no slice bound is clamped
      or wraps around. */
  method Paste(canvas: array2<int>, large: Rect, tile: Image, small: Rect)
    requires tile.WellFormed()
    requires large.Within(canvas.Length1, canvas.Length0) && small.Within(tile.width, tile.height)
    requires large.SameShape(small)
    modifies canvas
    ensures forall y, x :: 0 <= y < canvas.Length0 && 0 <= x < canvas.Length1 ==>
              canvas[y, x] == if large.Contains(x, y) then SourcePixel(tile, large, small, y, x) else old(canvas[y, x])
  {
    var y := large.y1;
    while y < large.y2
      invariant large.y1 <= y <= large.y2
      invariant forall r, c :: 0 <= r < canvas.Length0 && 0 <= c < canvas.Length1 ==>
                  canvas[r, c] == if large.Contains(c, r) && r < y then SourcePixel(tile, large, small, r, c) else old(canvas[r, c])
    {
      var x := large.x1;
      while x < large.x2
        invariant large.x1 <= x <= large.x2
        invariant forall r, c :: 0 <= r < canvas.Length0 && 0 <= c < canvas.Length1 ==>
                    canvas[r, c] == if large.Contains(c, r) && (r < y || (r == y && c < x))
                                    then SourcePixel(tile, large, small, r, c) else old(canvas[r, c])
      {
        canvas[y, x] := tile.At(y - large.y1 + small.y1, x - large.x1 + small.x1);
        x := x + 1;
      }
      y := y + 1;
    }
  }

  /** `img[:, ::-1]`: every row reversed. */
  function FlipImage(img: Image): (r: Image)
    requires img.WellFormed()
    ensures r.WellFormed() && r.height == img.height && r.width == img.width
    ensures forall y, x :: 0 <= y < img.height && 0 <= x < img.width ==> r.At(y, x) == img.At(y, img.width - 1 - x)
  {
    Image(img.height, img.width,
          seq(img.height, y requires 0 <= y < img.height =>
            seq(img.width, x requires 0 <= x < img.width => img.rows[y][img.width - 1 - x])))
  }

  /** Flipping twice gives the image back. */
  lemma FlipImageTwice(img: Image)
    requires img.WellFormed()
    ensures FlipImage(FlipImage(img)) == img
  {
    var f := FlipImage(FlipImage(img));
    forall y | 0 <= y < img.height
      ensures f.rows[y] == img.rows[y]
    {
      assert forall x :: 0 <= x < img.width ==> f.At(y, x) == img.At(y, x);
    }
  }
}
