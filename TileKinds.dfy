/**
 * The generalised tile kinds an agent sees in its receptive field: each kind has a short
 * debug label, a numeric code and the list of generalisation levels (z-levels) at which it
 * is reported.
 */
module TileKinds {

  /** The kinds, in declaration order. */
  datatype Tile =
    | CANNON_MUZZLE
    | CANNON_TRUNK
    | COIN_ANIM
    | BREAKABLE_BRICK
    | QUESTION_BRICK
    | BRICK
    | FLOWER_POT
    | BORDER_CANNOT_PASS_THROUGH
    | BORDER_HILL
    | FLOWER_POT_OR_CANNON
    | LADDER
    | TOP_OF_LADDER
    | PRINCESS
    | NOTHING
    | SOMETHING

  /** The constructor data of a kind: debug label, code and z-levels. */
  datatype TileData = TileData(debug: string, code: int, zLevels: seq<int>)

  function Data(t: Tile): TileData {
    match t
    case CANNON_MUZZLE => TileData("CM", -82, [0])
    case CANNON_TRUNK => TileData("CT", -80, [0])
    case COIN_ANIM => TileData("C", 2, [0, 1, 2])
    case BREAKABLE_BRICK => TileData("BB", -20, [0])
    case QUESTION_BRICK => TileData("BQ", -22, [0])
    case BRICK => TileData("B", -24, [1])
    case FLOWER_POT => TileData("FP", -90, [0])
    case BORDER_CANNOT_PASS_THROUGH => TileData("BI", -60, [0, 1, 2])
    case BORDER_HILL => TileData("BH", -62, [0, 1])
    case FLOWER_POT_OR_CANNON => TileData("PC", -85, [1])
    case LADDER => TileData("L", 61, [0, 1])
    case TOP_OF_LADDER => TileData("TL", 61, [0, 1])
    case PRINCESS => TileData("P", 5, [1, 2])
    case NOTHING => TileData("", 0, [2])
    case SOMETHING => TileData("S", 1, [2])
  }

  function Code(t: Tile): int {
    Data(t).code
  }

  function ZLevels(t: Tile): seq<int> {
    Data(t).zLevels
  }

  function Debug(t: Tile): string {
    Data(t).debug
  }

  /** The membership loop over a z-level list: true at the first equal entry. */
  function Member(z: int, levels: seq<int>): (b: bool)
    ensures b <==> z in levels
  {
    if levels == [] then false
    else if z == levels[0] then true
    else Member(z, levels[1..])
  }

  /** isZLevel: the kind is reported at level z exactly when z is in its constructor list. */
  function IsZLevel(t: Tile, z: int): (b: bool)
    ensures b <==> z in ZLevels(t)
  {
    Member(z, ZLevels(t))
  }

  /** Every kind is reported at some level, and all levels lie in 0..2. */
  lemma ZLevelsWellFormed(t: Tile)
    ensures |ZLevels(t)| >= 1
    ensures forall z :: IsZLevel(t, z) ==> 0 <= z <= 2
  {
  }

  /** NOTHING has code 0 and is reported only at level 2. */
  lemma NothingOnlyAtLevelTwo()
    ensures Code(NOTHING) == 0
    ensures forall z :: IsZLevel(NOTHING, z) <==> z == 2
  {
  }

  /** Codes do not identify kinds: the ladder and its top share code 61, and that is the
      only clash. */
  lemma CodesCollideOnlyOnLadders(s: Tile, t: Tile)
    requires s != t && Code(s) == Code(t)
    ensures {s, t} == {LADDER, TOP_OF_LADDER}
  {
  }

  lemma LadderCodesCollide()
    ensures LADDER != TOP_OF_LADDER && Code(LADDER) == Code(TOP_OF_LADDER) == 61
  {
  }

  /** Coins and impassable borders are reported at every level. */
  lemma CoinsAndBordersAtEveryLevel(z: int)
    requires 0 <= z <= 2
    ensures IsZLevel(COIN_ANIM, z) && IsZLevel(BORDER_CANNOT_PASS_THROUGH, z)
  {
  }
}
