/** `bbox2mask` of diffengine/datasets/transforms/loading.py: an
    (height, width, 1) uint8 array of zeros with the box's slice set to 1.

    The rows from top to top + h and the columns from left to left + w are
    a numpy slice, and their bounds follow numpy's normalisation: a negative
    bound counts from the end, and every bound is then clipped to the
    dimension. */
module Mask {
  import opened Errors
  import opened Bbox

  newtype uint8 = x: int | 0 <= x < 256

  /** The index a slice bound `i` denotes on a dimension of length n. */
  function SliceBound(i: int, n: nat): (r: nat)
    ensures r <= n
    ensures 0 <= i <= n ==> r == i
    ensures i < 0 && 0 <= i + n ==> r == i + n
    ensures i + n < 0 ==> r == 0
    ensures n < i ==> r == n
  {
    if i < 0 then (if i + n < 0 then 0 else i + n)
    else if i > n then n
    else i
  }

  /** Whether cell (y, x) lies in the assigned slice. */
  predicate Covered(height: nat, width: nat, b: Box, y: int, x: int) {
    && SliceBound(b.top, height) <= y < SliceBound(b.top + b.h, height)
    && SliceBound(b.left, width) <= x < SliceBound(b.left + b.w, width)
  }

  /** The value bbox2mask leaves at cell (y, x, 0). */
  function MaskValue(height: nat, width: nat, b: Box, y: int, x: int): (r: uint8)
    ensures r == 0 || r == 1
    ensures r == 1 <==> Covered(height, width, b, y, x)
  {
    if Covered(height, width, b, y, x) then 1 else 0
  }

  /** For a box with non-negative corners the mask is 1 exactly on the box
      clipped to the image, and 0 elsewhere. */
  lemma MaskIsClippedBox(height: nat, width: nat, b: Box, y: int, x: int)
    requires 0 <= b.top && 0 <= b.left && 0 <= b.h && 0 <= b.w
    requires 0 <= y < height && 0 <= x < width
    ensures MaskValue(height, width, b, y, x) == 0 || MaskValue(height, width, b, y, x) == 1
    ensures MaskValue(height, width, b, y, x) == 1 <==>
              b.top <= y < b.top + b.h && b.left <= x < b.left + b.w
  {
  }

  /** Allocates a zero mask of the image's size and sets the box's slice
      to 1, one cell at a time. */
  method Bbox2Mask(height: nat, width: nat, b: Box) returns (mask: array3<uint8>)
    ensures fresh(mask)
    ensures mask.Length0 == height && mask.Length1 == width && mask.Length2 == 1
    ensures forall y, x :: 0 <= y < height && 0 <= x < width ==>
              mask[y, x, 0] == MaskValue(height, width, b, y, x)
  {
    mask := new uint8[height, width, 1]((y, x, c) => 0);
    var y0, y1 := SliceBound(b.top, height), SliceBound(b.top + b.h, height);
    var x0, x1 := SliceBound(b.left, width), SliceBound(b.left + b.w, width);
    var y := y0;
    while y < y1
      invariant y == y0 || y0 <= y <= y1
      invariant forall i, j :: 0 <= i < height && 0 <= j < width ==>
                  mask[i, j, 0] == if y0 <= i < y && x0 <= j < x1 then 1 else 0
    {
      var x := x0;
      while x < x1
        invariant x == x0 || x0 <= x <= x1
        invariant forall i, j :: 0 <= i < height && 0 <= j < width ==>
                    mask[i, j, 0] == if (y0 <= i < y && x0 <= j < x1) || (i == y && x0 <= j < x) then 1 else 0
      {
        mask[y, x, 0] := 1;
        x := x + 1;
      }
      y := y + 1;
    }
  }

  /** Sum of row y of the mask over its first k columns. */
  function RowSum(height: nat, width: nat, b: Box, y: int, k: nat): nat {
    if k == 0 then 0 else RowSum(height, width, b, y, k - 1) + MaskValue(height, width, b, y, k - 1) as nat
  }

  /** Sum of the mask over its first k rows. */
  function GridSum(height: nat, width: nat, b: Box, k: nat): nat {
    if k == 0 then 0 else GridSum(height, width, b, k - 1) + RowSum(height, width, b, k - 1, width)
  }


  /** Number of indices of [0, k) inside [lo, hi). */
  function CountIn(lo: int, hi: int, k: nat): nat {
    if k == 0 then 0 else CountIn(lo, hi, k - 1) + (if lo <= k - 1 < hi then 1 else 0)
  }

  /** Length of [lo, hi), or 0 if it is empty. */
  function Span(lo: int, hi: int): nat {
    if lo <= hi then hi - lo else 0
  }

  /** Counting from a non-negative lower bound gives the length of the
      range cut off at k. */
  lemma {:induction false} CountInSpan(lo: nat, hi: int, k: nat)
    ensures CountIn(lo, hi, k) == Span(lo, if hi < k then hi else k)
  {
    if k > 0 {
      CountInSpan(lo, hi, k - 1);
    }
  }

  lemma {:induction false} RowSumCount(height: nat, width: nat, b: Box, y: int, k: nat)
    ensures RowSum(height, width, b, y, k) ==
              if SliceBound(b.top, height) <= y < SliceBound(b.top + b.h, height)
              then CountIn(SliceBound(b.left, width), SliceBound(b.left + b.w, width), k) else 0
  {
    if k > 0 {
      RowSumCount(height, width, b, y, k - 1);
    }
  }

  lemma {:induction false} GridSumCount(height: nat, width: nat, b: Box, k: nat)
    ensures GridSum(height, width, b, k) ==
              CountIn(SliceBound(b.top, height), SliceBound(b.top + b.h, height), k) *
              CountIn(SliceBound(b.left, width), SliceBound(b.left + b.w, width), width)
  {
    if k > 0 {
      GridSumCount(height, width, b, k - 1);
      RowSumCount(height, width, b, k - 1, width);
    }
  }

  /** The number of ones in the mask: the area of the slice rectangle
      after numpy's bound normalisation. */
  function MaskSum(height: nat, width: nat, b: Box): (r: nat)
    ensures r == Span(SliceBound(b.top, height), SliceBound(b.top + b.h, height)) *
                 Span(SliceBound(b.left, width), SliceBound(b.left + b.w, width))
  {
    GridSumCount(height, width, b, height);
    CountInSpan(SliceBound(b.top, height), SliceBound(b.top + b.h, height), height);
    CountInSpan(SliceBound(b.left, width), SliceBound(b.left + b.w, width), width);
    GridSum(height, width, b, height)
  }

  /** For a box drawn by random_bbox with non-negative margins, the mask has
      exactly h * w ones. */
  lemma RandomBboxMaskSum(imgH: nat, imgW: nat, p: Params, d: Draws)
    requires DrawsFit(imgH, imgW, p, d)
    requires RandomBboxOf(imgH, imgW, p, d).Ok?
    requires p.margin.h >= 0 && p.margin.w >= 0
    ensures var b := RandomBboxOf(imgH, imgW, p, d).value;
            MaskSum(imgH, imgW, b) == b.h * b.w
  {
    var b := RandomBboxOf(imgH, imgW, p, d).value;
    WithinMargins(imgH, imgW, p, d);
    SizeBounds(imgH, imgW, p, d);
  }

  /** With a negative margin random_bbox may return a negative top; numpy then
      reads the slice bound from the end and the mask loses the box. */
  lemma NegativeMarginLosesBox()
    ensures var p := Params(Pair(4, 4), Pair(0, 0), Pair(-2, -2));
            var d := Draws(-1, 0, 0, 0);
            && DrawsFit(10, 10, p, d)
            && RandomBboxOf(10, 10, p, d) == Ok(Box(-1, 0, 4, 4))
            && MaskSum(10, 10, Box(-1, 0, 4, 4)) == 0
  {
  }
}
