/**
 * The wall autotiler of the level generator. fixWalls reduces the tile grid to a corner map
 * (a corner is solid when the four tiles around it are all plain ground), and blockify picks,
 * for each tile, a wall-sheet tile from the 2×2 corner sample at its top-left corner.
 *
 * Grids are indexed [x][y] (column, then row), as the level's map is.
 */
module Autotile {

  import opened ZoneOdds

  const GROUND := 1 + 9 * 16

  /** A 2×2 sample of the corner map: tl = b[0][0], tr = b[1][0], bl = b[0][1], br = b[1][1]. */
  datatype Sample = Sample(tl: bool, tr: bool, bl: bool, br: bool)

  /** What blockify does with one tile: keep the old tile, or put a sheet tile. */
  datatype WallTile = Keep | Put(code: int)

  /** Offset into the tile sheet: the castle and underground wall sets sit 8 and 12 columns
      to the right of the overground one. */
  function SheetOffset(levelType: int): (to: int)
    ensures to == 0 || to == 8 || to == 12
    ensures to == 8 <==> levelType == TYPE_CASTLE
    ensures to == 12 <==> levelType == TYPE_UNDERGROUND
  {
    if levelType == TYPE_CASTLE then 4 * 2
    else if levelType == TYPE_UNDERGROUND then 4 * 3
    else 0
  }

  /** The classification chain of blockify, in the order the source tests its cases. */
  function Classify(s: Sample, to: int): WallTile {
    if s.tl == s.tr && s.bl == s.br then
      if s.tl == s.bl then
        (if s.tl then Put(1 + 9 * 16 + to) else Keep)
      else if s.tl then Put(1 + 10 * 16 + to)
      else Put(1 + 8 * 16 + to)
    else if s.tl == s.bl && s.tr == s.br then
      if s.tl then Put(2 + 9 * 16 + to) else Put(0 + 9 * 16 + to)
    else if s.tl == s.br && s.bl == s.tr then
      Put(1 + 9 * 16 + to)
    else if s.tl == s.tr then
      if s.tl then
        (if s.bl then Put(3 + 10 * 16 + to) else Put(3 + 11 * 16 + to))
      else
        (if s.bl then Put(2 + 8 * 16 + to) else Put(0 + 8 * 16 + to))
    else if s.bl == s.br then
      if s.bl then
        (if s.tl then Put(3 + 9 * 16 + to) else Put(3 + 8 * 16 + to))
      else
        (if s.tl then Put(2 + 10 * 16 + to) else Put(0 + 10 * 16 + to))
    else
      Put(0 + 1 * 16 + to)
  }

  /** The sample reaches the last branch of the chain only when every earlier test fails. */
  predicate FallsThrough(s: Sample) {
    !(s.tl == s.tr && s.bl == s.br) && !(s.tl == s.bl && s.tr == s.br)
    && !(s.tl == s.br && s.bl == s.tr) && s.tl != s.tr && s.bl != s.br
  }

  /** The classification is total: no sample reaches the final branch, so its tile
      (0 + 1 * 16 + to) is never produced. */
  lemma NoSampleFallsThrough(s: Sample, to: int)
    ensures !FallsThrough(s)
    ensures Classify(s, to) != Put(0 + 1 * 16 + to)
  {
  }

  /** Index of a sample in the 16-entry reference table: tl, tr, bl, br as bits 3..0. */
  function SampleIndex(s: Sample): (i: nat)
    ensures i < 16
  {
    (if s.tl then 8 else 0) + (if s.tr then 4 else 0) + (if s.bl then 2 else 0) + (if s.br then 1 else 0)
  }

  /** Reference table of the wall sheet, written independently of the chain: for each pattern,
      the sheet column and row of its tile (-1 for "keep the old tile"). */
  const WallColumn: seq<int> := [-1, 0, 2, 1, 0, 0, 1, 3, 2, 1, 2, 3, 1, 3, 3, 1]
  const WallRow: seq<int> :=    [-1, 8, 8, 8, 10, 9, 9, 8, 10, 9, 9, 9, 10, 11, 10, 9]

  /** The chain agrees with the reference table on all sixteen patterns. */
  lemma ClassifyMatchesTable(s: Sample, to: int)
    ensures var i := SampleIndex(s);
      Classify(s, to) == if i == 0 then Keep else Put(WallColumn[i] + WallRow[i] * 16 + to)
  {
  }

  /** Only the all-empty sample keeps the old tile; every other sample picks a tile of the
      4×4 wall block of the sheet (columns 0..3, rows 8..11, shifted by the offset). */
  lemma ClassifyKeepsOnlyEmpty(s: Sample, to: int)
    ensures Classify(s, to) == Keep <==> (!s.tl && !s.tr && !s.bl && !s.br)
    ensures Classify(s, to).Put? ==>
      var k := Classify(s, to).code - to; 8 * 16 <= k < 12 * 16 && k % 16 < 4
  {
    ClassifyMatchesTable(s, to);
    var i := SampleIndex(s);
    if i != 0 {
      assert 0 <= WallColumn[i] < 4 && 8 <= WallRow[i] < 12;
    }
  }

  /** A grid with w columns of h tiles each. */
  predicate IsGrid(g: seq<seq<int>>, w: int, h: int) {
    w >= 1 && h >= 1 && |g| == w && forall x :: 0 <= x < w ==> |g[x]| == h
  }

  function Clip(v: int, hi: int): int {
    if v < 0 then 0 else if v > hi then hi else v
  }

  /** The level's capped read: both coordinates clamped into the grid. */
  function Capped(g: seq<seq<int>>, w: int, h: int, x: int, y: int): int
    requires IsGrid(g, w, h)
  {
    g[Clip(x, w - 1)][Clip(y, h - 1)]
  }

  /** Entry (x, y) of fixWalls' corner map: the four tiles (x-1..x, y-1..y) are plain ground. */
  predicate CornerSolid(g: seq<seq<int>>, w: int, h: int, x: int, y: int)
    requires IsGrid(g, w, h)
  {
    Capped(g, w, h, x - 1, y - 1) == GROUND && Capped(g, w, h, x, y - 1) == GROUND
    && Capped(g, w, h, x - 1, y) == GROUND && Capped(g, w, h, x, y) == GROUND
  }

  /** The 2×2 sample of the (w+1)×(h+1) corner map at (x, y), clamped to the corner map. */
  function SampleAt(g: seq<seq<int>>, w: int, h: int, x: int, y: int): Sample
    requires IsGrid(g, w, h)
  {
    Sample(CornerSolid(g, w, h, Clip(x, w), Clip(y, h)),
           CornerSolid(g, w, h, Clip(x + 1, w), Clip(y, h)),
           CornerSolid(g, w, h, Clip(x, w), Clip(y + 1, h)),
           CornerSolid(g, w, h, Clip(x + 1, w), Clip(y + 1, h)))
  }

  function Apply(old_tile: int, t: WallTile): int {
    match t
    case Keep => old_tile
    case Put(c) => c
  }

  /** The tile at (x, y) after autotiling the grid g. */
  function Blockified(g: seq<seq<int>>, w: int, h: int, to: int, x: int, y: int): int
    requires IsGrid(g, w, h) && 0 <= x < w && 0 <= y < h
  {
    Apply(g[x][y], Classify(SampleAt(g, w, h, x, y), to))
  }

  /** A tile whose 3×3 neighbourhood (clamped to the grid) is plain ground stays a solid
      interior tile: it becomes the ground tile of the level's sheet. */
  lemma SolidInteriorStaysGround(g: seq<seq<int>>, w: int, h: int, to: int, x: int, y: int)
    requires IsGrid(g, w, h) && 0 <= x < w && 0 <= y < h
    requires forall i, j :: x - 1 <= i <= x + 1 && y - 1 <= j <= y + 1 ==> Capped(g, w, h, i, j) == GROUND
    ensures Blockified(g, w, h, to, x, y) == GROUND + to
  {
    forall cx, cy | x <= cx <= x + 1 && y <= cy <= y + 1
      ensures CornerSolid(g, w, h, cx, cy)
    {
      assert Capped(g, w, h, cx - 1, cy - 1) == GROUND;
      assert Capped(g, w, h, cx, cy - 1) == GROUND;
      assert Capped(g, w, h, cx - 1, cy) == GROUND;
    }
    assert Clip(x + 1, w) == x + 1 && Clip(y + 1, h) == y + 1;
    var s := SampleAt(g, w, h, x, y);
    assert s.tl && s.tr && s.bl && s.br;
  }

  /** A tile whose 3×3 neighbourhood holds no plain ground keeps its old value. */
  lemma NoGroundKeepsTile(g: seq<seq<int>>, w: int, h: int, to: int, x: int, y: int)
    requires IsGrid(g, w, h) && 0 <= x < w && 0 <= y < h
    requires forall i, j :: x - 1 <= i <= x + 1 && y - 1 <= j <= y + 1 ==> Capped(g, w, h, i, j) != GROUND
    ensures Blockified(g, w, h, to, x, y) == g[x][y]
  {
    forall cx, cy | x <= cx <= x + 1 && y <= cy <= y + 1
      ensures !CornerSolid(g, w, h, cx, cy)
    {
      assert Capped(g, w, h, cx, cy) != GROUND;
    }
    assert Clip(x + 1, w) == x + 1 && Clip(y + 1, h) == y + 1;
    var s := SampleAt(g, w, h, x, y);
    assert !s.tl && !s.tr && !s.bl && !s.br;
  }
}
