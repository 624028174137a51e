/**
 * The pixel-art scaler (Scale2x / Scale3x, the EPX family). The source image sits in a buffer
 * with a one-pixel border on each side and one extra row at the bottom; for each source pixel E
 * the 3×3 window
 *
 *     A B C
 *     D E F
 *     G H I
 *
 * decides a factor×factor block of target pixels. Buffers are flat, row after row.
 */
module Scale2x {

  /** The 3×3 neighbourhood of a source pixel E. */
  datatype Window = Window(A: int, B: int, C: int, D: int, E: int, F: int, G: int, H: int, I: int)

  /** The 2×2 block of the factor-2 rule, row-major: top-left, top-right, bottom-left,
      bottom-right. When B == H or D == F the block is flat. */
  function Scale2Pixels(w: Window): (p: seq<int>)
    ensures |p| == 4
    ensures w.B == w.H || w.D == w.F ==> p == [w.E, w.E, w.E, w.E]
  {
    if w.B != w.H && w.D != w.F then
      [if w.D == w.B then w.D else w.E,
       if w.B == w.F then w.F else w.E,
       if w.D == w.H then w.D else w.E,
       if w.H == w.F then w.F else w.E]
    else
      [w.E, w.E, w.E, w.E]
  }

  /** The 3×3 block of the factor-3 rule, row-major. The centre is always E. */
  function Scale3Pixels(w: Window): (p: seq<int>)
    ensures |p| == 9 && p[4] == w.E
    ensures w.B == w.H || w.D == w.F ==> p == [w.E, w.E, w.E, w.E, w.E, w.E, w.E, w.E, w.E]
  {
    var A, B, C, D, E, F, G, H, I := w.A, w.B, w.C, w.D, w.E, w.F, w.G, w.H, w.I;
    if B != H && D != F then
      [if D == B then D else E,
       if (D == B && E != C) || (B == F && E != A) then B else E,
       if B == F then F else E,
       if (D == B && E != G) || (D == H && E != A) then D else E,
       E,
       if (B == F && E != I) || (H == F && E != C) then F else E,
       if D == H then D else E,
       if (D == H && E != I) || (H == F && E != G) then H else E,
       if H == F then F else E]
    else
      [E, E, E, E, E, E, E, E, E]
  }

  /** The block of a scale factor: the factor-2 rule for 2, the factor-3 rule otherwise. */
  function Kernel(factor: int, w: Window): (p: seq<int>)
    ensures |p| == if factor == 2 then 4 else 9
  {
    if factor == 2 then Scale2Pixels(w) else Scale3Pixels(w)
  }

  /** Cell (i, j) of the block, i the column and j the line within it. */
  function KernelAt(factor: int, w: Window, i: int, j: int): int
    requires 0 <= i < factor && 0 <= j < factor && (factor == 2 || factor == 3)
  {
    Kernel(factor, w)[if factor == 2 then 2 * j + i else 3 * j + i]
  }

  /** The factor-2 rule as it is usually published, one independent test per output pixel. */
  function Scale2Reference(w: Window): seq<int> {
    var B, D, E, F, H := w.B, w.D, w.E, w.F, w.H;
    [if D == B && B != F && D != H then D else E,
     if B == F && B != D && F != H then F else E,
     if D == H && D != B && H != F then D else E,
     if H == F && D != H && B != F then F else E]
  }

  /** The factor-3 rule as it is usually published, one independent test per output pixel. */
  function Scale3Reference(w: Window): seq<int> {
    var A, B, C, D, E, F, G, H, I := w.A, w.B, w.C, w.D, w.E, w.F, w.G, w.H, w.I;
    [if D == B && B != F && D != H then D else E,
     if (D == B && B != F && D != H && E != C) || (B == F && B != D && F != H && E != A) then B else E,
     if B == F && B != D && F != H then F else E,
     if (D == B && B != F && D != H && E != G) || (D == H && D != B && H != F && E != A) then D else E,
     E,
     if (B == F && B != D && F != H && E != I) || (H == F && D != H && B != F && E != C) then F else E,
     if D == H && D != B && H != F then D else E,
     if (D == H && D != B && H != F && E != I) || (H == F && D != H && B != F && E != G) then H else E,
     if H == F && D != H && B != F then F else E]
  }

  /** Hoisting the shared guard B != H && D != F out of the per-pixel tests changes nothing. */
  lemma Scale2MatchesReference(w: Window)
    ensures Scale2Pixels(w) == Scale2Reference(w)
  {
  }

  lemma Scale3MatchesReference(w: Window)
    ensures Scale3Pixels(w) == Scale3Reference(w)
  {
  }

  /** Every output pixel, for either factor, is E or one of its edge neighbours B, D, F, H:
      the corners A, C, G, I only take part in the tests. */
  lemma OutputsAreEdgeNeighbours(factor: int, w: Window)
    ensures forall k :: 0 <= k < |Kernel(factor, w)| ==>
      Kernel(factor, w)[k] in {w.E, w.B, w.D, w.F, w.H}
  {
  }

  /** A uniform window scales to a uniform block. */
  lemma UniformWindowUniformBlock(factor: int, w: Window)
    requires w.A == w.B == w.C == w.D == w.E == w.F == w.G == w.H == w.I
    ensures forall k :: 0 <= k < |Kernel(factor, w)| ==> Kernel(factor, w)[k] == w.E
  {
  }

  // ---------------------------------------------------------------- buffer layout

  /** a · b for a >= 0, by repeated addition (0 for a < 0). Index arithmetic goes through it so
      that the solver unfolds products one step at a time; MulIsProduct connects it to *. */
  function Mul(a: int, b: int): int
    decreases a
  {
    if a <= 0 then 0 else Mul(a - 1, b) + b
  }

  lemma {:induction false} MulIsProduct(a: int, b: int)
    requires a >= 0
    ensures Mul(a, b) == a * b
    decreases a
  {
    if a > 0 {
      MulIsProduct(a - 1, b);
    }
  }

  /** Index of bordered column col, row row in the source buffer (width + 2 pixels a line). */
  function SourceIndex(width: int, col: int, row: int): int {
    Mul(row, width + 2) + col
  }

  /** Index of pixel (i, j) of the output block of source pixel (x, y): the block's line j
      is target line y · factor + j, each target line holding width · factor pixels. */
  function OutIndex(width: int, factor: int, x: int, y: int, i: int, j: int): int {
    Mul(Mul(y, factor) + j, Mul(width, factor)) + Mul(x, factor) + i
  }

  lemma OutIndexProduct(width: int, factor: int, x: int, y: int, i: int, j: int)
    requires width >= 0 && factor >= 0 && x >= 0 && y >= 0 && j >= 0
    ensures OutIndex(width, factor, x, y, i, j) == (y * factor + j) * (width * factor) + x * factor + i
  {
    MulIsProduct(y, factor);
    MulIsProduct(x, factor);
    MulIsProduct(width, factor);
    MulIsProduct(y * factor + j, width * factor);
  }

  lemma {:induction false} MulMonotone(a: int, b: int, c: int)
    requires 0 <= a <= b && 0 <= c
    ensures 0 <= Mul(a, c) <= Mul(b, c)
    decreases b
  {
    if a < b {
      MulMonotone(a, b - 1, c);
    } else if a > 0 {
      MulMonotone(a - 1, a - 1, c);
    }
  }

  lemma MulLe(a: int, b: int, c: int)
    requires 0 <= a <= b && 0 <= c
    ensures a * c <= b * c
  {
  }

  /** Line-major order: an earlier target line ends before a later one starts. */
  lemma {:induction false} LineBefore(r1: int, c1: int, r2: int, c2: int, w: int)
    requires 0 <= r1 < r2 && 0 <= c1 < w && 0 <= c2
    ensures r1 * w + c1 < r2 * w + c2
  {
    MulLe(r1 + 1, r2, w);
  }

  /** Positions in lines of w, counted through Mul: an earlier line ends before a later one
      starts, so a position has a unique line and column. */
  lemma MulLineUnique(r1: int, c1: int, r2: int, c2: int, w: int)
    requires 0 <= r1 && 0 <= r2 && 0 <= c1 < w && 0 <= c2 < w
    requires Mul(r1, w) + c1 == Mul(r2, w) + c2
    ensures r1 == r2 && c1 == c2
  {
    if r1 < r2 {
      MulMonotone(r1 + 1, r2, w);
    } else if r2 < r1 {
      MulMonotone(r2 + 1, r1, w);
    }
  }

  /** A column inside the block of x stays left of the line's end. */
  lemma MulColumnBound(x: int, i: int, width: int, factor: int)
    requires 0 <= x < width && 0 <= i < factor
    ensures 0 <= Mul(x, factor) + i < Mul(width, factor)
  {
    MulMonotone(x + 1, width, factor);
    MulMonotone(0, x, factor);
  }

  /** Output blocks of different source pixels, or different cells of one block, never share a
      target index. */
  lemma OutIndexInjective(width: int, factor: int, x1: int, y1: int, i1: int, j1: int,
                          x2: int, y2: int, i2: int, j2: int)
    requires factor >= 1
    requires 0 <= x1 < width && 0 <= y1 && 0 <= i1 < factor && 0 <= j1 < factor
    requires 0 <= x2 < width && 0 <= y2 && 0 <= i2 < factor && 0 <= j2 < factor
    requires OutIndex(width, factor, x1, y1, i1, j1) == OutIndex(width, factor, x2, y2, i2, j2)
    ensures x1 == x2 && y1 == y2 && i1 == i2 && j1 == j2
  {
    MulColumnBound(x1, i1, width, factor);
    MulColumnBound(x2, i2, width, factor);
    MulMonotone(0, y1, factor);
    MulMonotone(0, y2, factor);
    MulLineUnique(Mul(y1, factor) + j1, Mul(x1, factor) + i1, Mul(y2, factor) + j2, Mul(x2, factor) + i2,
                  Mul(width, factor));
    MulLineUnique(y1, j1, y2, j2, factor);
    MulLineUnique(x1, i1, x2, i2, factor);
  }

  /** Consecutive lines of a block are width · factor apart. */
  lemma LineStep(width: int, factor: int, x: int, y: int, j: int)
    requires width >= 0 && factor >= 0 && x >= 0 && y >= 0 && j >= 0
    ensures OutIndex(width, factor, x, y, 0, j + 1) == OutIndex(width, factor, x, y, 0, j) + width * factor
  {
    MulIsProduct(width, factor);
    MulIsProduct(y, factor);
    assert Mul(y, factor) + j + 1 > 0;
  }

  /** The first target line of source row y starts at y · width · factor². */
  lemma RowStartProduct(width: int, factor: int, y: int)
    requires width >= 0 && factor >= 0 && y >= 0
    ensures OutIndex(width, factor, 0, y, 0, 0) == y * width * (factor * factor)
  {
    OutIndexProduct(width, factor, 0, y, 0, 0);
    assert (y * factor) * (width * factor) == y * width * (factor * factor);
  }

  /** Every block cell lands inside the width·factor × height·factor target. */
  lemma {:induction false} OutIndexInRange(width: int, height: int, factor: int, x: int, y: int, i: int, j: int)
    requires factor >= 1
    requires 0 <= x < width && 0 <= y < height && 0 <= i < factor && 0 <= j < factor
    ensures 0 <= OutIndex(width, factor, x, y, i, j) < width * factor * (height * factor)
  {
    var w := width * factor;
    var r, c := y * factor + j, x * factor + i;
    MulLe(0, y, factor);
    MulLe(0, x, factor);
    LineBefore(x, i, width, 0, factor);
    LineBefore(y, j, height, 0, factor);
    MulLe(0, r, w);
    LineBefore(r, c, height * factor, 0, w);
    OutIndexProduct(width, factor, x, y, i, j);
    assert width * factor * (height * factor) == (height * factor) * w;
  }

  /** Every target index is the cell of some block: together with OutIndexInjective, one pass
      writes each target pixel exactly once. */
  lemma {:induction false} OutIndexOnto(width: int, height: int, factor: int, k: int)
    requires factor >= 1 && width >= 1 && height >= 1
    requires 0 <= k < width * factor * (height * factor)
    ensures exists x, y, i, j ::
      0 <= x < width && 0 <= y < height && 0 <= i < factor && 0 <= j < factor &&
      k == OutIndex(width, factor, x, y, i, j)
  {
    var w := width * factor;
    MulLe(1, width, factor);
    var r, c := LineColumn(k, w);
    assert r < height * factor by {
      if r >= height * factor {
        MulLe(height * factor, r, w);
      }
    }
    var y, j := LineColumn(r, factor);
    var x, i := LineColumn(c, factor);
    assert y < height by {
      if y >= height {
        MulLe(height, y, factor);
      }
    }
    assert x < width by {
      if x >= width {
        MulLe(width, x, factor);
      }
    }
    OutIndexProduct(width, factor, x, y, i, j);
  }

  /** The line and column of a position in lines of w. */
  lemma LineColumn(k: int, w: int) returns (r: int, c: int)
    requires k >= 0 && w >= 1
    ensures k == r * w + c && 0 <= r && 0 <= c < w
  {
    r, c := k / w, k % w;
  }

  /** The scaler with its two buffers. */
  class Scale2x {
    const width: int
    const height: int
    const factor: int
    /** (width + 2) × (height + 3): the image at offset (1, 1), a border around it and one
        spare row at the bottom, so that every window and every look-ahead read is in range. */
    const sourcePixels: array<int>
    /** (width · factor) × (height · factor). */
    const targetPixels: array<int>

    ghost predicate Valid() {
      width >= 1 && height >= 1 && (factor == 2 || factor == 3)
      && sourcePixels.Length == (width + 2) * (height + 3)
      && targetPixels.Length == width * factor * (height * factor)
      && sourcePixels != targetPixels
    }

    /** Allocates the bordered source buffer and the target buffer for images of the given
        size; the factor is 2 or 3. */
    constructor (width: int, height: int, factor: int)
      requires width >= 1 && height >= 1 && (factor == 2 || factor == 3)
      ensures Valid() && fresh(sourcePixels) && fresh(targetPixels)
      ensures this.width == width && this.height == height && this.factor == factor
      ensures sourcePixels.Length == (width + 2) * (height + 3)
      ensures targetPixels.Length == width * factor * (height * factor)
    {
      this.width := width;
      this.height := height;
      this.factor := factor;
      MulLe(1, width + 2, height + 3);
      MulLe(1, width * factor, height * factor) by {
        MulLe(1, width, factor);
        MulLe(1, height, factor);
      }
      this.sourcePixels := new int[(width + 2) * (height + 3)];
      this.targetPixels := new int[width * factor * (height * factor)];
    }

    /** The window of source pixel (x, y): bordered columns x..x+2, rows y..y+2. */
    function WindowAt(x: int, y: int): Window
      requires Valid() && 0 <= x < width && 0 <= y < height
      reads sourcePixels
    {
      SourceInRange();
      var s := sourcePixels;
      Window(s[SourceIndex(width, x, y)], s[SourceIndex(width, x + 1, y)], s[SourceIndex(width, x + 2, y)],
             s[SourceIndex(width, x, y + 1)], s[SourceIndex(width, x + 1, y + 1)], s[SourceIndex(width, x + 2, y + 1)],
             s[SourceIndex(width, x, y + 2)], s[SourceIndex(width, x + 1, y + 2)], s[SourceIndex(width, x + 2, y + 2)])
    }

    /** Cell (i, j) of the target block of source pixel (x, y). */
    function TargetAt(x: int, y: int, i: int, j: int): int
      requires Valid() && 0 <= x < width && 0 <= y < height && 0 <= i < factor && 0 <= j < factor
      reads targetPixels
    {
      OutIndexInRange(width, height, factor, x, y, i, j);
      targetPixels[OutIndex(width, factor, x, y, i, j)]
    }

    /** Every read of the scale loop is inside the source buffer: rows 0..height+1 and
        columns 0..width+2, the furthest being (y + 3) · (width + 2), in the spare row. */
    lemma SourceInRange()
      requires Valid()
      ensures forall col, row :: 0 <= col <= width + 2 && 0 <= row <= height + 1 ==>
        0 <= SourceIndex(width, col, row) < sourcePixels.Length
    {
      MulIsProduct(height + 3, width + 2);
      assert Mul(height + 3, width + 2) == Mul(height + 1, width + 2) + 2 * (width + 2);
      forall col, row | 0 <= col <= width + 2 && 0 <= row <= height + 1
        ensures 0 <= SourceIndex(width, col, row) < sourcePixels.Length
      {
        MulMonotone(row, height + 1, width + 2);
      }
    }

    /** scale: for every source pixel, writes the block its window selects. The drawing of the
        image into the bordered buffer precedes this and is not part of it. */
    method Scale()
      requires Valid()
      modifies targetPixels
      ensures forall x, y, i, j :: 0 <= x < width && 0 <= y < height && 0 <= i < factor && 0 <= j < factor ==>
        TargetAt(x, y, i, j) == KernelAt(factor, WindowAt(x, y), i, j)
    {
      var y := 0;
      while y < height
        invariant 0 <= y <= height
        invariant forall x', y', i, j ::
          0 <= x' < width && 0 <= y' < y && 0 <= i < factor && 0 <= j < factor ==>
            TargetAt(x', y', i, j) == KernelAt(factor, WindowAt(x', y'), i, j)
      {
        ScaleRow(y);
        y := y + 1;
      }
    }

    /** Cell (i, j) of the block of source pixel (x, y) in a copy s of the target buffer. */
    ghost function TargetOf(s: seq<int>, x: int, y: int, i: int, j: int): int
      requires Valid() && |s| == targetPixels.Length
      requires 0 <= x < width && 0 <= y < height && 0 <= i < factor && 0 <= j < factor
    {
      OutIndexInRange(width, height, factor, x, y, i, j);
      s[OutIndex(width, factor, x, y, i, j)]
    }

    /** The blocks of columns 0..x-1 of source row y hold what the kernel selects. */
    ghost predicate RowDone(x: int, y: int)
      requires Valid() && 0 <= x <= width && 0 <= y < height
      reads sourcePixels, targetPixels
    {
      forall x', i, j :: 0 <= x' < x && 0 <= i < factor && 0 <= j < factor ==>
        TargetAt(x', y, i, j) == KernelAt(factor, WindowAt(x', y), i, j)
    }

    /** Every block outside source row y is as in the copy before. */
    ghost predicate OtherRowsAs(y: int, before: seq<int>)
      requires Valid() && 0 <= y < height
      reads targetPixels
    {
      |before| == targetPixels.Length &&
      forall x', y', i, j ::
        0 <= x' < width && 0 <= y' < height && y' != y && 0 <= i < factor && 0 <= j < factor ==>
          TargetAt(x', y', i, j) == TargetOf(before, x', y', i, j)
    }

    /** One source row of scale: the row's blocks are written, every other block is kept. */
    method ScaleRow(y: int)
      requires Valid() && 0 <= y < height
      modifies targetPixels
      ensures forall x, i, j :: 0 <= x < width && 0 <= i < factor && 0 <= j < factor ==>
        TargetAt(x, y, i, j) == KernelAt(factor, WindowAt(x, y), i, j)
      ensures forall x', y', i, j ::
        0 <= x' < width && 0 <= y' < height && y' != y && 0 <= i < factor && 0 <= j < factor ==>
          TargetAt(x', y', i, j) == old(TargetAt(x', y', i, j))
    {
      var tp0, tp1, tp2 := TargetLines(y);
      var sp0, sp1, sp2 := SourceLines(y);
      ColumnInRange(0, y);
      ColumnInRange(1, y);
      ColumnInRange(2, y);
      var A := sourcePixels[sp0];
      sp0 := sp0 + 1;
      var B := sourcePixels[sp0];
      sp0 := sp0 + 1;
      var C := sourcePixels[sp0];
      var D := sourcePixels[sp1];
      sp1 := sp1 + 1;
      var E := sourcePixels[sp1];
      sp1 := sp1 + 1;
      var F := sourcePixels[sp1];
      var G := sourcePixels[sp2];
      sp2 := sp2 + 1;
      var H := sourcePixels[sp2];
      sp2 := sp2 + 1;
      var I := sourcePixels[sp2];
      ghost var before := targetPixels[..];
      SnapshotAgrees(y);
      var x := 0;
      while x < width
        invariant 0 <= x <= width
        invariant sp0 == SourceIndex(width, x + 2, y) && sp1 == SourceIndex(width, x + 2, y + 1)
          && sp2 == SourceIndex(width, x + 2, y + 2)
        invariant x < width ==> Window(A, B, C, D, E, F, G, H, I) == WindowAt(x, y)
        invariant tp0 == OutIndex(width, factor, x, y, 0, 0) - 1
        invariant tp1 == OutIndex(width, factor, x, y, 0, 1) - 1
        invariant factor == 3 ==> tp2 == OutIndex(width, factor, x, y, 0, 2) - 1
        invariant RowDone(x, y) && OtherRowsAs(y, before)
      {
        BlockStep(x, y);
        tp0, tp1, tp2 := ScalePixel(x, y, Window(A, B, C, D, E, F, G, H, I), tp0, tp1, tp2, before);
        A, B := B, C;
        D, E := E, F;
        G, H := H, I;
        // Resample the rightmost column of the window.
        ColumnInRange(x + 3, y);
        sp0 := sp0 + 1;
        C := sourcePixels[sp0];
        sp1 := sp1 + 1;
        F := sourcePixels[sp1];
        sp2 := sp2 + 1;
        I := sourcePixels[sp2];
        if x + 1 < width {
          WindowSlide(x, y);
        }
        x := x + 1;
      }
    }

    /** Bordered column col of rows y..y+2 lies inside the source buffer, one line apart. */
    lemma ColumnInRange(col: int, y: int)
      requires Valid() && 0 <= col <= width + 2 && 0 <= y < height
      ensures 0 <= SourceIndex(width, col, y) && SourceIndex(width, col, y + 2) < sourcePixels.Length
      ensures SourceIndex(width, col, y + 1) == SourceIndex(width, col, y) + width + 2
      ensures SourceIndex(width, col, y + 2) == SourceIndex(width, col, y + 1) + width + 2
    {
      SourceInRange();
    }

    /** A copy of the target buffer agrees with it on every block. */
    lemma SnapshotAgrees(y: int)
      requires Valid() && 0 <= y < height
      ensures OtherRowsAs(y, targetPixels[..])
    {
      forall x', y', i, j | 0 <= x' < width && 0 <= y' < height && 0 <= i < factor && 0 <= j < factor
        ensures TargetAt(x', y', i, j) == TargetOf(targetPixels[..], x', y', i, j)
      {
        OutIndexInRange(width, height, factor, x', y', i, j);
      }
    }

    /** Moving one column right shifts the window left and brings in bordered column x + 3. */
    lemma WindowSlide(x: int, y: int)
      requires Valid() && 0 <= x < width - 1 && 0 <= y < height
      ensures 0 <= SourceIndex(width, x + 3, y) && SourceIndex(width, x + 3, y + 2) < sourcePixels.Length
      ensures SourceIndex(width, x + 3, y + 1) == SourceIndex(width, x + 3, y) + width + 2
      ensures SourceIndex(width, x + 3, y + 2) == SourceIndex(width, x + 3, y + 1) + width + 2
      ensures var w := WindowAt(x, y);
        WindowAt(x + 1, y) == Window(w.B, w.C, sourcePixels[SourceIndex(width, x + 3, y)],
                                     w.E, w.F, sourcePixels[SourceIndex(width, x + 3, y + 1)],
                                     w.H, w.I, sourcePixels[SourceIndex(width, x + 3, y + 2)])
    {
      SourceInRange();
    }

    /** The row set-up of scale's target pointers: each sits one before the first cell of its
        line, the lines of row y starting at y · width · factor², width · factor apart. */
    method TargetLines(y: int) returns (tp0: int, tp1: int, tp2: int)
      requires Valid() && 0 <= y < height
      ensures tp0 == OutIndex(width, factor, 0, y, 0, 0) - 1
      ensures tp1 == OutIndex(width, factor, 0, y, 0, 1) - 1
      ensures factor == 3 ==> tp2 == OutIndex(width, factor, 0, y, 0, 2) - 1
    {
      RowStart(y);
      if factor == 2 {
        tp0 := y * width * 4 - 1;
        tp1 := tp0 + width * 2;
        tp2 := 0;
      } else {
        tp0 := y * width * 9 - 1;
        tp1 := tp0 + width * 3;
        tp2 := tp1 + width * 3;
      }
      LineStep(width, factor, 0, y, 0);
      LineStep(width, factor, 0, y, 1);
    }

    /** The row set-up of scale's source pointers: the starts of bordered rows y, y + 1 and
        y + 2. */
    method SourceLines(y: int) returns (sp0: int, sp1: int, sp2: int)
      requires Valid() && 0 <= y < height
      ensures sp0 == SourceIndex(width, 0, y)
      ensures sp1 == SourceIndex(width, 0, y + 1)
      ensures sp2 == SourceIndex(width, 0, y + 2)
    {
      RowStart(y);
      var line := width + 2;
      sp0, sp1, sp2 := y * line, (y + 1) * line, (y + 2) * line;
    }

    /** The body of scale's column loop: writes the block of (x, y) through the pre-incremented
        line pointers and leaves every other block alone. */
    method ScalePixel(x: int, y: int, w: Window, tp0: int, tp1: int, tp2: int, ghost before: seq<int>)
      returns (np0: int, np1: int, np2: int)
      requires Valid() && 0 <= x < width && 0 <= y < height
      requires w == WindowAt(x, y) && RowDone(x, y) && OtherRowsAs(y, before)
      requires tp0 == OutIndex(width, factor, x, y, 0, 0) - 1
      requires tp1 == OutIndex(width, factor, x, y, 0, 1) - 1
      requires factor == 3 ==> tp2 == OutIndex(width, factor, x, y, 0, 2) - 1
      modifies targetPixels
      ensures np0 == tp0 + factor && np1 == tp1 + factor
      ensures np2 == if factor == 3 then tp2 + factor else tp2
      ensures RowDone(x + 1, y) && OtherRowsAs(y, before)
    {
      BlockApart(x, y);
      BlockDisjoint(x, y);
      if factor == 2 {
        np0, np1 := Scale2Block(x, y, w, tp0, tp1);
        np2 := tp2;
      } else {
        np0, np1, np2 := Scale3Block(x, y, w, tp0, tp1, tp2);
      }
    }

    /** The factor-2 branch of the column loop. */
    method Scale2Block(x: int, y: int, w: Window, tp0: int, tp1: int) returns (np0: int, np1: int)
      requires Valid() && factor == 2 && 0 <= x < width && 0 <= y < height
      requires tp0 == OutIndex(width, factor, x, y, 0, 0) - 1
      requires tp1 == OutIndex(width, factor, x, y, 0, 1) - 1
      modifies targetPixels
      ensures np0 == tp0 + 2 && np1 == tp1 + 2
      ensures forall i, j :: 0 <= i < 2 && 0 <= j < 2 ==> TargetAt(x, y, i, j) == Scale2Pixels(w)[2 * j + i]
      ensures forall x', y', i, j ::
        0 <= x' < width && 0 <= y' < height && (x' != x || y' != y) && 0 <= i < 2 && 0 <= j < 2 ==>
          TargetAt(x', y', i, j) == old(TargetAt(x', y', i, j))
    {
      BlockApart(x, y);
      BlockDisjoint(x, y);
      var B, D, E, F, H := w.B, w.D, w.E, w.F, w.H;
      np0, np1 := tp0, tp1;
      if B != H && D != F {
        np0 := np0 + 1;
        targetPixels[np0] := if D == B then D else E;
        np0 := np0 + 1;
        targetPixels[np0] := if B == F then F else E;
        np1 := np1 + 1;
        targetPixels[np1] := if D == H then D else E;
        np1 := np1 + 1;
        targetPixels[np1] := if H == F then F else E;
      } else {
        // Java's a[++p] = a[++p] = E stores into the later index first.
        np0 := np0 + 2;
        targetPixels[np0] := E;
        targetPixels[np0 - 1] := E;
        np1 := np1 + 2;
        targetPixels[np1] := E;
        targetPixels[np1 - 1] := E;
      }
      forall i, j | 0 <= i < 2 && 0 <= j < 2
        ensures TargetAt(x, y, i, j) == Scale2Pixels(w)[2 * j + i]
      {
        assert (i == 0 || i == 1) && (j == 0 || j == 1);
      }
    }

    /** The factor-3 branch of the column loop: three runs of three cells, one per line. */
    method Scale3Block(x: int, y: int, w: Window, tp0: int, tp1: int, tp2: int)
      returns (np0: int, np1: int, np2: int)
      requires Valid() && factor == 3 && 0 <= x < width && 0 <= y < height
      requires tp0 == OutIndex(width, factor, x, y, 0, 0) - 1
      requires tp1 == OutIndex(width, factor, x, y, 0, 1) - 1
      requires tp2 == OutIndex(width, factor, x, y, 0, 2) - 1
      modifies targetPixels
      ensures np0 == tp0 + 3 && np1 == tp1 + 3 && np2 == tp2 + 3
      ensures forall i, j :: 0 <= i < 3 && 0 <= j < 3 ==> TargetAt(x, y, i, j) == Scale3Pixels(w)[3 * j + i]
      ensures forall x', y', i, j ::
        0 <= x' < width && 0 <= y' < height && (x' != x || y' != y) && 0 <= i < 3 && 0 <= j < 3 ==>
          TargetAt(x', y', i, j) == old(TargetAt(x', y', i, j))
    {
      var A, B, C, D, E, F, G, H, I := w.A, w.B, w.C, w.D, w.E, w.F, w.G, w.H, w.I;
      if B != H && D != F {
        np0 := Scale3Line(x, y, 0, tp0,
          if D == B then D else E,
          if (D == B && E != C) || (B == F && E != A) then B else E,
          if B == F then F else E);
        np1 := Scale3Line(x, y, 1, tp1,
          if (D == B && E != G) || (D == H && E != A) then D else E,
          E,
          if (B == F && E != I) || (H == F && E != C) then F else E);
        np2 := Scale3Line(x, y, 2, tp2,
          if D == H then D else E,
          if (D == H && E != I) || (H == F && E != G) then H else E,
          if H == F then F else E);
      } else {
        // a[++p] = a[++p] = a[++p] = E: the same three cells, all E.
        np0 := Scale3Line(x, y, 0, tp0, E, E, E);
        np1 := Scale3Line(x, y, 1, tp1, E, E, E);
        np2 := Scale3Line(x, y, 2, tp2, E, E, E);
      }
      forall i, j | 0 <= i < 3 && 0 <= j < 3
        ensures TargetAt(x, y, i, j) == Scale3Pixels(w)[3 * j + i]
      {
        assert (i == 0 || i == 1 || i == 2) && (j == 0 || j == 1 || j == 2);
      }
    }

    /** Writes v0, v1, v2 at ++tp three times: cells 0..2 of line j of the block of (x, y). */
    method Scale3Line(x: int, y: int, j: int, tp: int, v0: int, v1: int, v2: int) returns (np: int)
      requires Valid() && factor == 3 && 0 <= x < width && 0 <= y < height && 0 <= j < 3
      requires tp == OutIndex(width, factor, x, y, 0, j) - 1
      modifies targetPixels
      ensures np == tp + 3
      ensures TargetAt(x, y, 0, j) == v0 && TargetAt(x, y, 1, j) == v1 && TargetAt(x, y, 2, j) == v2
      ensures forall x', y', i, j' ::
        0 <= x' < width && 0 <= y' < height && (x' != x || y' != y || j' != j) && 0 <= i < 3 && 0 <= j' < 3 ==>
          TargetAt(x', y', i, j') == old(TargetAt(x', y', i, j'))
    {
      BlockApart(x, y);
      BlockDisjoint(x, y);
      np := tp + 1;
      targetPixels[np] := v0;
      np := np + 1;
      targetPixels[np] := v1;
      np := np + 1;
      targetPixels[np] := v2;
    }

    /** Where the pointers of row y start: the first target line of the row is y · width ·
        factor², the next ones follow width · factor apart, and the three source lines start at
        rows y, y + 1 and y + 2 of the bordered buffer. */
    lemma RowStart(y: int)
      requires Valid() && 0 <= y < height
      ensures factor == 2 ==> OutIndex(width, factor, 0, y, 0, 0) == y * width * 4
      ensures factor == 3 ==> OutIndex(width, factor, 0, y, 0, 0) == y * width * 9
      ensures SourceIndex(width, 0, y) == y * (width + 2)
      ensures SourceIndex(width, 0, y + 1) == (y + 1) * (width + 2)
      ensures SourceIndex(width, 0, y + 2) == (y + 2) * (width + 2)
    {
      if factor == 2 {
        RowStartProduct(width, 2, y);
      } else {
        RowStartProduct(width, 3, y);
      }
      MulIsProduct(y, width + 2);
      MulIsProduct(y + 1, width + 2);
      MulIsProduct(y + 2, width + 2);
    }

    /** Moving one source column right moves each target line pointer by factor. */
    lemma BlockStep(x: int, y: int)
      requires Valid() && 0 <= x < width && 0 <= y < height
      ensures OutIndex(width, factor, x + 1, y, 0, 0) == OutIndex(width, factor, x, y, 0, 0) + factor
      ensures OutIndex(width, factor, x + 1, y, 0, 1) == OutIndex(width, factor, x, y, 0, 1) + factor
      ensures OutIndex(width, factor, x + 1, y, 0, 2) == OutIndex(width, factor, x, y, 0, 2) + factor
    {
    }

    /** The block of (x, y) occupies factor runs of factor cells, width · factor apart, inside
        the target. */
    lemma BlockApart(x: int, y: int)
      requires Valid() && 0 <= x < width && 0 <= y < height
      ensures 0 <= OutIndex(width, factor, x, y, 0, 0)
      ensures OutIndex(width, factor, x, y, 0, 1) == OutIndex(width, factor, x, y, 0, 0) + width * factor
      ensures OutIndex(width, factor, x, y, 0, 2) == OutIndex(width, factor, x, y, 0, 1) + width * factor
      ensures width * factor >= factor
      ensures OutIndex(width, factor, x, y, 0, factor - 1) + factor <= targetPixels.Length
    {
      OutIndexInRange(width, height, factor, x, y, 0, 0);
      OutIndexInRange(width, height, factor, x, y, factor - 1, factor - 1);
      LineStep(width, factor, x, y, 0);
      LineStep(width, factor, x, y, 1);
      MulLe(1, width, factor);
    }

    /** No cell of another block falls in the runs of the block of (x, y). */
    lemma BlockDisjoint(x: int, y: int)
      requires Valid() && 0 <= x < width && 0 <= y < height
      ensures forall x', y', i', j', j ::
        0 <= x' < width && 0 <= y' < height && 0 <= i' < factor && 0 <= j' < factor &&
        0 <= j < factor && (x' != x || y' != y) ==>
          !(OutIndex(width, factor, x, y, 0, j) <= OutIndex(width, factor, x', y', i', j') <
            OutIndex(width, factor, x, y, 0, j) + factor)
    {
      forall x', y', i', j', j |
        0 <= x' < width && 0 <= y' < height && 0 <= i' < factor && 0 <= j' < factor &&
        0 <= j < factor && (x' != x || y' != y)
        ensures !(OutIndex(width, factor, x, y, 0, j) <= OutIndex(width, factor, x', y', i', j') <
                  OutIndex(width, factor, x, y, 0, j) + factor)
      {
        var t := OutIndex(width, factor, x', y', i', j');
        var base := OutIndex(width, factor, x, y, 0, j);
        if base <= t < base + factor {
          assert t == OutIndex(width, factor, x, y, t - base, j);
          OutIndexInjective(width, factor, x', y', i', j', x, y, t - base, j);
        }
      }
    }
  }
}
