/** Integer pixel geometry shared by the mosaic and mixup code: rectangles given by
    half-open slice bounds and single-channel images held as values. */
module Geometry {

  function Min(a: int, b: int): int { if a <= b then a else b }

  function Max(a: int, b: int): int { if a >= b then a else b }

  /** The slice `[y1:y2, x1:x2]` of an image: columns x1 <= x < x2, rows y1 <= y < y2. */
  datatype Rect = Rect(x1: int, y1: int, x2: int, y2: int) {

    function Width(): int { x2 - x1 }

    function Height(): int { y2 - y1 }

    predicate Contains(x: int, y: int) { x1 <= x < x2 && y1 <= y < y2 }

    /** The slice bounds are ordered and lie inside a `h x w` image. */
    predicate Within(w: int, h: int) { 0 <= x1 <= x2 <= w && 0 <= y1 <= y2 <= h }

    predicate SameShape(other: Rect) { Width() == other.Width() && Height() == other.Height() }
  }

  /** A `height x width` single-channel image, row-major (`rows[y][x]`). An image produced
      by an operation outside the model (a resize, a warp) enters the model as such a value. */
  datatype Image = Image(height: nat, width: nat, rows: seq<seq<int>>) {

    predicate WellFormed() {
      |rows| == height && forall y :: 0 <= y < |rows| ==> |rows[y]| == width
    }

    function At(y: int, x: int): int
      requires WellFormed() && 0 <= y < height && 0 <= x < width
    {
      rows[y][x]
    }
  }
}
