/**
 * Tile queries of an agent over its receptive field. The field is a grid of tile kinds
 * indexed [row][column]; (mapX, mapY) are field coordinates with (0, 0) at the top-left,
 * and relative coordinates are offsets from Mario's cell (egoCol, egoRow).
 */
module Tiles {

  import opened TileKinds

  /** The field may be absent (not yet observed). */
  datatype TileField = NoField | Field(rows: seq<seq<Tile>>)

  /** What the queries need to know about Mario: his cell in the field and his pixel offset
      inside that cell. */
  datatype Ego = Ego(egoCol: int, egoRow: int, inTileX: int, inTileY: int)

  /** The bounds test reads the width from row 0, so every row must have that width. */
  predicate Rectangular(f: TileField) {
    f.Field? ==> forall r :: 0 <= r < |f.rows| ==> |f.rows[r]| == |f.rows[0]|
  }

  predicate InField(f: TileField, mapX: int, mapY: int) {
    f.Field? && 0 <= mapY < |f.rows| && 0 <= mapX < |f.rows[0]|
  }

  /** getTile: the stored tile inside the field, NOTHING for an absent field or outside. */
  function GetTile(f: TileField, mapX: int, mapY: int): (t: Tile)
    requires Rectangular(f)
    ensures InField(f, mapX, mapY) ==> t == f.rows[mapY][mapX]
    ensures !InField(f, mapX, mapY) ==> t == NOTHING
  {
    if f.NoField? then NOTHING
    else if mapY < 0 || mapY >= |f.rows| || mapX < 0 || mapX >= |f.rows[0]| then NOTHING
    else f.rows[mapY][mapX]
  }

  /** tile: the field lookup at Mario's cell shifted by (relMapX, relMapY). */
  function TileAt(f: TileField, mario: Ego, relMapX: int, relMapY: int): Tile
    requires Rectangular(f)
  {
    GetTile(f, mario.egoCol + relMapX, mario.egoRow + relMapY)
  }

  function EmptyTile(f: TileField, mario: Ego, relMapX: int, relMapY: int): bool
    requires Rectangular(f)
  {
    TileAt(f, mario, relMapX, relMapY) == NOTHING
  }

  function AnyTile(f: TileField, mario: Ego, relMapX: int, relMapY: int): bool
    requires Rectangular(f)
  {
    !EmptyTile(f, mario, relMapX, relMapY)
  }

  /** The switch of brick: bricks, flower pots, cannons and impassable borders. */
  predicate IsBrickKind(t: Tile) {
    match t
    case BORDER_CANNOT_PASS_THROUGH => true
    case BREAKABLE_BRICK => true
    case CANNON_MUZZLE => true
    case CANNON_TRUNK => true
    case FLOWER_POT => true
    case FLOWER_POT_OR_CANNON => true
    case QUESTION_BRICK => true
    case _ => false
  }

  function Brick(f: TileField, mario: Ego, relMapX: int, relMapY: int): bool
    requires Rectangular(f)
  {
    IsBrickKind(TileAt(f, mario, relMapX, relMapY))
  }

  /** The relative queries read the field at Mario's cell plus the offset; an empty tile is
      exactly an absent or out-of-field position or a stored NOTHING, and anyTile is its
      negation. */
  lemma RelativeLookup(f: TileField, mario: Ego, relMapX: int, relMapY: int)
    requires Rectangular(f)
    ensures var x, y := mario.egoCol + relMapX, mario.egoRow + relMapY;
      && TileAt(f, mario, relMapX, relMapY) == (if InField(f, x, y) then f.rows[y][x] else NOTHING)
      && (EmptyTile(f, mario, relMapX, relMapY) <==> !InField(f, x, y) || f.rows[y][x] == NOTHING)
      && AnyTile(f, mario, relMapX, relMapY) != EmptyTile(f, mario, relMapX, relMapY)
  {
  }

  /** brick holds for exactly seven kinds, none of them NOTHING, so a position outside the
      field (or with no field at all) is never a brick. */
  lemma BrickKinds(f: TileField, mario: Ego, relMapX: int, relMapY: int)
    requires Rectangular(f)
    ensures Brick(f, mario, relMapX, relMapY) ==> AnyTile(f, mario, relMapX, relMapY)
    ensures !InField(f, mario.egoCol + relMapX, mario.egoRow + relMapY) ==> !Brick(f, mario, relMapX, relMapY)
    ensures forall t: Tile :: IsBrickKind(t) <==>
      t in {BORDER_CANNOT_PASS_THROUGH, BREAKABLE_BRICK, CANNON_MUZZLE, CANNON_TRUNK,
            FLOWER_POT, FLOWER_POT_OR_CANNON, QUESTION_BRICK}
  {
  }

  // ---------------------------------------------------------------- brickIn

  /** Any brick in column x, rows y..yEnd (the inner loop). */
  function BrickInColumn(f: TileField, mario: Ego, x: int, y: int, yEnd: int): (b: bool)
    requires Rectangular(f)
    ensures b <==> exists j :: y <= j <= yEnd && Brick(f, mario, x, j)
    decreases yEnd - y
  {
    if y > yEnd then false
    else if Brick(f, mario, x, y) then true
    else BrickInColumn(f, mario, x, y + 1, yEnd)
  }

  /** Any brick in columns x..xEnd, rows yStart..yEnd (the outer loop). */
  function BrickInBox(f: TileField, mario: Ego, x: int, xEnd: int, yStart: int, yEnd: int): (b: bool)
    requires Rectangular(f)
    ensures b <==> exists i, j :: x <= i <= xEnd && yStart <= j <= yEnd && Brick(f, mario, i, j)
    decreases xEnd - x
  {
    if x > xEnd then false
    else if BrickInColumn(f, mario, x, yStart, yEnd) then true
    else BrickInBox(f, mario, x + 1, xEnd, yStart, yEnd)
  }

  /** The tile row or column holding a pixel offset from Mario's cell: floor division by
      the tile size 16 (Dafny's division rounds down for a positive divisor). */
  function TileOf(pixel: int, inTile: int): (c: int)
    ensures 16 * c <= pixel + inTile < 16 * c + 16
  {
    (pixel + inTile) / 16
  }

  /** brickIn: is there a brick in any tile that the pixel box (x1, y1)..(x2, y2), relative
      to Mario, overlaps? */
  function BrickIn(f: TileField, mario: Ego, x1: int, y1: int, x2: int, y2: int): (b: bool)
    requires Rectangular(f)
    ensures b <==> exists i, j ::
      TileOf(x1, mario.inTileX) <= i <= TileOf(x2, mario.inTileX)
      && TileOf(y1, mario.inTileY) <= j <= TileOf(y2, mario.inTileY)
      && Brick(f, mario, i, j)
  {
    BrickInBox(f, mario, TileOf(x1, mario.inTileX), TileOf(x2, mario.inTileX),
               TileOf(y1, mario.inTileY), TileOf(y2, mario.inTileY))
  }

  /** A box whose corners are given in the wrong order covers no tile. */
  lemma InvertedBoxHasNoBrick(f: TileField, mario: Ego, x1: int, y1: int, x2: int, y2: int)
    requires Rectangular(f)
    requires x2 + 16 <= x1 || y2 + 16 <= y1
    ensures !BrickIn(f, mario, x1, y1, x2, y2)
  {
  }

  /** A brick in a tile that the box overlaps is found. */
  lemma BrickInFindsOverlap(f: TileField, mario: Ego, x1: int, y1: int, x2: int, y2: int, px: int, py: int)
    requires Rectangular(f)
    requires x1 <= px <= x2 && y1 <= py <= y2
    requires Brick(f, mario, TileOf(px, mario.inTileX), TileOf(py, mario.inTileY))
    ensures BrickIn(f, mario, x1, y1, x2, y2)
  {
    TileOfMonotone(x1, px, mario.inTileX);
    TileOfMonotone(px, x2, mario.inTileX);
    TileOfMonotone(y1, py, mario.inTileY);
    TileOfMonotone(py, y2, mario.inTileY);
  }

  lemma TileOfMonotone(p: int, q: int, inTile: int)
    requires p <= q
    ensures TileOf(p, inTile) <= TileOf(q, inTile)
  {
  }
}
