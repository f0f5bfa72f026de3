/** `GridSpacingItemDecoration.kt`: the offsets a grid cell gets so that
    every gap in a row, the outer two included, is one spacing wide. */
module GridSpacing {
  import opened KotlinInt

  /** `RecyclerView.NO_POSITION`. */
  const NoPosition := -1

  /** `android.graphics.Rect`, whose four fields the decoration assigns. */
  class Rect {
    var left: int
    var top: int
    var right: int
    var bottom: int

    constructor (left: int, top: int, right: int, bottom: int)
      ensures this.left == left && this.top == top && this.right == right && this.bottom == bottom
    {
      this.left, this.top, this.right, this.bottom := left, top, right, bottom;
    }
  }

  /** The left offset of a cell in `column`. */
  function LeftOffset(column: int, spanCount: int, spacing: int): int
    requires spanCount > 0
  {
    spacing - TDiv(column * spacing, spanCount)
  }

  /** The right offset of a cell in `column`. */
  function RightOffset(column: int, spanCount: int, spacing: int): int
    requires spanCount > 0
  {
    TDiv((column + 1) * spacing, spanCount)
  }

  /** Multiplying by the divisor and dividing again gives the number back. */
  lemma TDivOfMultiple(k: int, d: int)
    requires d > 0
    ensures TDiv(d * k, d) == k
  {
    if k >= 0 {
      DivUnique(d * k, d, k, 0);
    } else {
      DivUnique(d * -k, d, -k, 0);
      assert -(d * k) == d * -k;
    }
  }

  /** A non-negative quotient is below `k + 1` when the dividend is at
      most `k` times the divisor. */
  lemma DivAtMost(a: int, b: int, k: int)
    requires 0 <= a <= k * b && b > 0 && k >= 0
    ensures a / b <= k
  {
    var q := a / b;
    assert q * b <= a;
    assert (q - k) * b == q * b - k * b;
    if q > k {
      MulAtLeast(q - k, b);
    }
  }

  /** The outer edges of a row get a full spacing: the first column on
      its left, the last column on its right. */
  lemma OuterEdgesFull(spanCount: int, spacing: int)
    requires spanCount > 0
    ensures LeftOffset(0, spanCount, spacing) == spacing
    ensures RightOffset(spanCount - 1, spanCount, spacing) == spacing
  {
    TDivOfMultiple(spacing, spanCount);
  }

  /** Two neighbouring columns share exactly one spacing between them. */
  lemma AdjacentColumnsShareSpacing(column: int, spanCount: int, spacing: int)
    requires spanCount > 0
    ensures RightOffset(column, spanCount, spacing) + LeftOffset(column + 1, spanCount, spacing) == spacing
  {
  }

  /** With a non-negative spacing, each offset of a real column lies
      between zero and one spacing. */
  lemma OffsetsBounded(column: int, spanCount: int, spacing: int)
    requires spanCount > 0 && 0 <= column < spanCount && spacing >= 0
    ensures 0 <= LeftOffset(column, spanCount, spacing) <= spacing
    ensures 0 <= RightOffset(column, spanCount, spacing) <= spacing
  {
    MulMono(0, column, spacing);
    MulMono(column, spanCount, spacing);
    MulMono(column + 1, spanCount, spacing);
    DivAtMost(column * spacing, spanCount, spacing);
    DivAtMost((column + 1) * spacing, spanCount, spacing);
  }

  class GridSpacingItemDecoration {
    const spanCount: int
    const spacingPx: int

    constructor (spanCount: int, spacingPx: int)
      requires spanCount > 0
      ensures this.spanCount == spanCount && this.spacingPx == spacingPx
    {
      this.spanCount, this.spacingPx := spanCount, spacingPx;
    }

    /** `getItemOffsets` for the cell at adapter `position`: nothing for
        `NoPosition`; otherwise left, right and bottom are set, and top only
        for a cell of the first row. */
    method GetItemOffsets(outRect: Rect, position: int)
      requires spanCount > 0
      modifies outRect
      ensures position == NoPosition ==>
                outRect.left == old(outRect.left) && outRect.top == old(outRect.top) &&
                outRect.right == old(outRect.right) && outRect.bottom == old(outRect.bottom)
      ensures position != NoPosition ==>
                outRect.left == LeftOffset(TRem(position, spanCount), spanCount, spacingPx) &&
                outRect.right == RightOffset(TRem(position, spanCount), spanCount, spacingPx) &&
                outRect.top == (if position < spanCount then spacingPx else old(outRect.top)) &&
                outRect.bottom == spacingPx
    {
      if position == NoPosition {
        return;
      }
      var column := TRem(position, spanCount);
      outRect.left := spacingPx - TDiv(column * spacingPx, spanCount);
      outRect.right := TDiv((column + 1) * spacingPx, spanCount);
      if position < spanCount {
        outRect.top := spacingPx;
      }
      outRect.bottom := spacingPx;
    }
  }

  /** The column of a real adapter position is in range, so the bounds of
      `OffsetsBounded` apply to every cell the decoration lays out. */
  lemma ColumnInRange(position: int, spanCount: int)
    requires position >= 0 && spanCount > 0
    ensures 0 <= TRem(position, spanCount) < spanCount
    ensures position < spanCount ==> TRem(position, spanCount) == position
  {
    if position < spanCount {
      DivUnique(position, spanCount, 0, position);
    }
  }
}
