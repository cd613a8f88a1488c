# Mosaic and mixup bookkeeping of StreamYOLO's `MosaicDetection`

This project models the integer and coordinate bookkeeping of the mosaic/mixup
augmentation in `exps/data/tal_flip_mosaicdetection.py`:

- where each of the four tiles of a mosaic goes on the `2*input_h x 2*input_w` canvas and
  which part of the tile is copied (`get_mosaic_coordinate`);
- the in-place pixel copies onto the grey (114) canvases, as a method on `array2<int>`;
- the shift, concatenation and clipping of the label rows of the four tiles;
- the box remap of `random_perspective`: corners through the affine transform, bounding
  box, clip, and the `box_candidates` filter;
- the box side of `mixup`: horizontal flip, crop offset, clip, filter and the append of
  the surviving rows to the original labels;
- the label flow of the mosaic branch of `__getitem__` from the mosaic loop to `preproc`.

Box coordinates are `real`, so the arithmetic is exact; pixel and canvas geometry is `int`.
Images produced by code outside the model (resizes, warps) enter as values of
`Geometry.Image`; the canvases the code fills in place are `array2<int>`. numpy's
vectorised column updates on label arrays are modelled as functions on `seq<Label>`,
where a `Label` is the box (columns 0-3) plus the remaining columns (`extra`, the class
first). Boolean-mask indexing `a[mask]` is `Masks.Mask`.

The code is modelled as written, including three quirks:

- The second mosaic canvas is pasted from the primary tile `img` with the primary tile's
  placement (lines 315-319), so `BuildMosaic` proves the two canvases equal cell by cell.
  The resized support image is never pasted.
- The support labels are shifted with the primary tile's `scale`, `padw` and `padh`
  (lines 336-339), so both label arrays come from the same function `MosaicLabels`.
- The second mixup call is guarded by the support labels but mixes into the primary image
  and labels (lines 384-385), so `MixupCalls` proves the support labels never gain rows.

Two facts that follow from the code:

- The warped output is `d - d % 2` pixels on a side for an input side `d`. The canvas is
  `2*d` and the border is `-d // 2`, which is floor division.
- No perspective matrix is built in this file. Every factor of `M` therefore has last row
  (0, 0, 1), and the perspective branch (line 99) divides by 1. The affine map covers both
  branches.

## Model

| member | source | states |
|---|---|---|
| MosaicCoordinate.GetMosaicCoordinate | exps/data/tal_flip_mosaicdetection.py:119-137 | For a centre on the canvas, the destination rectangle lies in `[0, 2*input_w] x [0, 2*input_h]`. The source rectangle lies in `[0, w] x [0, h]`. Both are ordered and have the same width and height. `padw` is `xc - w` for quadrants 0 and 2 and `xc` for 1 and 3; `padh` is `yc - h` for 0 and 1 and `yc` for 2 and 3, whatever the clamping. Each tile stays in its own quadrant of the centre. |
| Canvas.NewCanvas | exps/data/tal_flip_mosaicdetection.py:308-309 | A fresh canvas of the requested size with every cell equal to the fill value. |
| Canvas.Paste | exps/data/tal_flip_mosaicdetection.py:318-319 | The slice copy: every cell inside the destination rectangle holds the tile pixel at `(row - padh, col - padw)`. Every other cell is unchanged. |
| Canvas.FlipImage | exps/data/tal_flip_mosaicdetection.py:517-518 | `img[:, ::-1]`: same size, pixel `(y, x)` is the input's `(y, w-1-x)`. |
| Canvas.FlipImageTwice | exps/data/tal_flip_mosaicdetection.py:517-518 | Flipping an image twice gives it back. |
| Boxes.Clip | exps/data/tal_flip_mosaicdetection.py:109-110 | `numpy.clip`: the result lies in `[lo, hi]`, a value already inside is kept, and values outside go to the nearer bound. |
| Boxes.QuotientAbove | exps/data/tal_flip_mosaicdetection.py:24 | The area-ratio test `num / den > thr` is stated without division, for both signs of the denominator. |
| Boxes.AspectBelow | exps/data/tal_flip_mosaicdetection.py:20 | The aspect-ratio test `max(w/(h+eps), h/(w+eps)) < thr` is stated without division. |
| Boxes.BoxCandidate | exps/data/tal_flip_mosaicdetection.py:14-26 | A box is kept if and only if it passes all four tests, stated without division. It must be wider and higher than `wh_thr`. The area ratio against the scaled original must exceed `area_thr`, with a zero denominator counting as `+inf`. Both side ratios must be below `ar_thr`. |
| Masks.CountTrue | exps/data/tal_flip_mosaicdetection.py:552 | `mask.sum()` is at most the mask's length. |
| Masks.Mask | exps/data/tal_flip_mosaicdetection.py:114 | `xs[mask]` has as many elements as the mask has true entries. |
| Masks.TrueIndices | exps/data/tal_flip_mosaicdetection.py:114 | The true positions of a mask are increasing and in range, and they are exactly the positions whose entry is true. |
| Masks.MaskSelects | exps/data/tal_flip_mosaicdetection.py:114-115 | `xs[mask]` is, in order, the elements at the mask's true positions. |
| Perspective.WarpBox | exps/data/tal_flip_mosaicdetection.py:92-106 | The new box is ordered and contains the images of all four corners under `M`. Each of its sides is attained by one of those images, so it is their min/max. |
| Perspective.ClipBox | exps/data/tal_flip_mosaicdetection.py:108-110 | An ordered box clipped to `[0,width] x [0,height]` is ordered and lies inside. A box already inside is unchanged. |
| Perspective.WarpedBoxes | exps/data/tal_flip_mosaicdetection.py:89-110 | One warped, clipped box per target, each ordered and inside the output image. |
| Perspective.CandidateMask | exps/data/tal_flip_mosaicdetection.py:113 | One filter entry per target. |
| Perspective.RandomPerspectiveTargets | exps/data/tal_flip_mosaicdetection.py:89-117 | The row count is the number of candidates and never grows. Every output box satisfies `0 <= x1 <= x2 <= width` and `0 <= y1 <= y2 <= height`, and is more than 2 pixels wide and high. |
| Perspective.RandomPerspectiveSelects | exps/data/tal_flip_mosaicdetection.py:113-115 | The output rows are the input rows, in order, for which `box_candidates` holds. Each has its warped box and its other columns carried over. |
| Perspective.ThinBoxesDropped | exps/data/tal_flip_mosaicdetection.py:22-23 | A target whose clipped warped box is at most 2 pixels wide or high is dropped. |
| Perspective.WarpedExtent | exps/data/tal_flip_mosaicdetection.py:40-41 | The output side for a mosaic canvas of side `2*d` with border `-d // 2` is `d` rounded down to an even number. |
| Mosaic.ShiftLabels | exps/data/tal_flip_mosaicdetection.py:326-339 | The shift keeps the row count and every non-box column. Widths and heights scale by `scale`, and the top-left corner minus `(padw, padh)` is the scaled original corner. |
| Mosaic.Concat | exps/data/tal_flip_mosaicdetection.py:345 | The concatenation has as many rows as all sources together. |
| Mosaic.ClipLabels | exps/data/tal_flip_mosaicdetection.py:346-355 | The row count and non-box columns are kept. Every x lies in `[0, 2*input_w]` and every y in `[0, 2*input_h]`. A row already inside the canvas is unchanged. |
| Mosaic.ClipLabelsIdempotent | exps/data/tal_flip_mosaicdetection.py:346-355 | Clipping a second time changes nothing. |
| Mosaic.TilePlacement | exps/data/tal_flip_mosaicdetection.py:312-317 | The placement of tile `q` is in bounds on both sides, and both rectangles have the same shape. |
| Mosaic.ShiftedSources | exps/data/tal_flip_mosaicdetection.py:320-341 | One shifted label list per quadrant. |
| Mosaic.LabelCountFour | exps/data/tal_flip_mosaicdetection.py:345 | Four sources have as many rows as the sum of their counts. |
| Mosaic.ConcatSameExtras | exps/data/tal_flip_mosaicdetection.py:345 | If the sources agree on their non-box columns, so do their concatenations. |
| Mosaic.MosaicLabels | exps/data/tal_flip_mosaicdetection.py:320-355 | The mosaic label count equals the sum of the four sources' counts. Every coordinate is clipped to the canvas. The non-box columns are those of the concatenated sources, unchanged. |
| Mosaic.CompositeInTile | exps/data/tal_flip_mosaicdetection.py:318 | Inside tile `q`'s destination rectangle, the canvas holds tile `q`'s pixel, because no other tile overwrites it. |
| Mosaic.CompositeOutside | exps/data/tal_flip_mosaicdetection.py:308-318 | Outside every destination rectangle the canvas keeps 114. |
| Mosaic.LabelsFollowPixels | exps/data/tal_flip_mosaicdetection.py:318-320 | A tile point shifted by `(padw, padh)` lands in the tile's destination rectangle. That canvas cell holds the tile point's pixel. |
| Mosaic.ShiftedCornerOnPixel | exps/data/tal_flip_mosaicdetection.py:318-332 | A label whose scaled top-left corner is tile pixel `(tx, ty)` is shifted onto the canvas cell `(tx + padw, ty + padh)`, which holds that pixel. |
| Mosaic.BuildMosaic | exps/data/tal_flip_mosaicdetection.py:266-355 | The mosaic loop produces two fresh `2*input_h x 2*input_w` canvases with the composite of the four tiles on 114, equal cell by cell. The two label arrays are `MosaicLabels` of the labels and of the support labels. |
| Mixup.CopyCanvas | exps/data/tal_flip_mosaicdetection.py:495-509 | The copy canvas has the letterboxed image in its top-left corner and 114 elsewhere. |
| Mixup.PadCanvas | exps/data/tal_flip_mosaicdetection.py:520-525 | The padded image has size `max(origin, target)` per axis, the copy canvas in its top-left corner and 0 elsewhere. |
| Mixup.CropOffset | exps/data/tal_flip_mosaicdetection.py:527-534 | The crop window `[off, off + target)` lies inside the padded image. It never reaches the last row or column when the padded image is larger. The offset is 0 when the padded image is not larger. |
| Mixup.PadMixupCanvas | exps/data/tal_flip_mosaicdetection.py:517-525 | The padded image holds the jittered copy canvas in its top-left corner, mirrored exactly when `FLIP` is drawn (the same coin that flips the boxes), and 0 elsewhere. |
| Mixup.FlipBox | exps/data/tal_flip_mosaicdetection.py:539-542 | The flip maps `(x1, x2)` to `(W - x2, W - x1)`. It keeps the width, keeps `x1 <= x2` and leaves y untouched. Flipping the result again gives the box back. |
| Mixup.CropBox | exps/data/tal_flip_mosaicdetection.py:543-549 | An ordered box moved into the crop window and clipped is ordered and inside the target. A box wholly inside the window keeps its width. |
| Mixup.ClassColumn | exps/data/tal_flip_mosaicdetection.py:553 | `cp_labels[k, 4:5]` is the fifth column, or nothing if there is none. |
| Mixup.OriginBoxes | exps/data/tal_flip_mosaicdetection.py:536-542 | With `FLIP`, flipping each box back gives the adjusted box; without it the boxes are the adjusted ones. A box inside the copy canvas stays inside with the same width and height. |
| Mixup.TransformedBoxes | exps/data/tal_flip_mosaicdetection.py:543-549 | One cropped box per copied box. |
| Mixup.MixupKeep | exps/data/tal_flip_mosaicdetection.py:550 | One filter entry per copied row. |
| Mixup.KeptRows | exps/data/tal_flip_mosaicdetection.py:553-555 | There are as many new rows as kept boxes. |
| Mixup.KeptRowsInside | exps/data/tal_flip_mosaicdetection.py:553-555 | Every new row lies in the target, is more than 5 pixels wide and high, and carries at most the class column. |
| Mixup.MixupLabels | exps/data/tal_flip_mosaicdetection.py:527-560 | If no copied box survives `box_candidates(..., 5)`, the original labels come back unchanged. Otherwise the original rows are a prefix of the result, and the row count grows by exactly the number kept. The new rows lie inside the target. |
| Mixup.MixupSelects | exps/data/tal_flip_mosaicdetection.py:550-556 | The appended rows are, in order, the copied rows that survive the filter. Each has its cropped box and its class column. |
| GetItem.MixupCalls | exps/data/tal_flip_mosaicdetection.py:382-385 | The support labels come out of the mixup stage unchanged. The primary labels are a prefix of the result and equal to it when mixup is off. Added rows lie inside the target. |
| GetItem.MosaicBranchLabels | exps/data/tal_flip_mosaicdetection.py:356-386 | Every box handed to `preproc` lies inside the warped image and is more than 2 pixels wide and high. The support labels only lose rows. |

## Left out

- Image resizing, warping and rotation-matrix construction (`cv2.resize`, `cv2.warpAffine`, `cv2.warpPerspective`, `cv2.getRotationMatrix2D`): foreign image operations. Their results enter as `Image` values, sizes or the matrix `M`.
- How `M` is built from the drawn angle, scale, shear and translation (lines 44-71): floating-point trigonometry. `M` is a parameter, given by its top two rows.
- Random draws (`random.uniform`, `random.randint`, `random.random`): the drawn values are parameters, with the `randint` ranges as preconditions.
- Dataset access (`pull_item`, `input_dim`), `preproc`, `adjust_box_anns` from `yolox.utils` and the `Dataset.mosaic_getitem` decorator: yolox code that is not part of this model. `adjust_box_anns`'s output is a parameter (`MixupDraw.adjusted`).
- The rejection loop of `mixup` (lines 480-484): whether it ends depends on the dataset's contents.
- The non-mosaic branch of `__getitem__` (lines 392-396): it only calls the dataset and `preproc`.
- Pixel blending and the uint8 truncation of `mixup` (lines 557-558): floating-point pixel arithmetic. The cropped view `padded_cropped_img` is only used there; its window is covered by `CropOffset`.
- Colour channels: a canvas holds one value per cell, standing for all three channels.
- The image side of `random_perspective` (lines 79-87) and the perspective division (line 99), which divides by 1 here.
- Float rounding: box coordinates are exact reals. The `1e-16` epsilon of `box_candidates` is kept as a real constant, and a zero denominator counts as `+inf`.
- numpy's shape checks: the column-count check of `np.concatenate`/`np.vstack`, and the clamping or wrap-around of slice bounds outside the image. The callers never reach the latter, as `GetMosaicCoordinate` proves.
- Canvas.Paste: requires in-range slice bounds of equal shape, rather than modelling numpy's clamping and its broadcast error.
- BuildMosaic: the canvases are allocated before the loop rather than in its first iteration. The channel count taken from the first tile is not modelled.
- The commented-out `__getitem__` variants (lines 183-258, 399-475): dead code.
