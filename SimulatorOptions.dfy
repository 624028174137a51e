/**
 * The receptive-field display modes and the lookup of a mode from a numeric code, as used
 * when cycling through the modes.
 */
module SimulatorOptions {

  import opened JavaInt

  datatype ReceptiveFieldMode = NONE | GRID | GRID_TILES | GRID_ENTITIES

  /** The modes in declaration order, as values() lists them. */
  const Values: seq<ReceptiveFieldMode> := [NONE, GRID, GRID_TILES, GRID_ENTITIES]

  function Code(m: ReceptiveFieldMode): int {
    match m
    case NONE => 0
    case GRID => 1
    case GRID_TILES => 2
    case GRID_ENTITIES => 3
  }

  /** The loop over values(): the first mode from index i whose code is c. */
  function FindCode(c: int, i: nat): (r: Option<ReceptiveFieldMode>)
    requires i <= |Values|
    ensures r.Some? ==> Code(r.value) == c
    ensures r.None? <==> forall j :: i <= j < |Values| ==> Code(Values[j]) != c
    decreases |Values| - i
  {
    if i == |Values| then None
    else if Code(Values[i]) == c then Some(Values[i])
    else FindCode(c, i + 1)
  }

  /** getForCode: the code is reduced by Java's remainder by the number of modes, which
      keeps the sign of a negative code; None stands for the null returned when no mode
      has the reduced code. */
  function GetForCode(code: int): (r: Option<ReceptiveFieldMode>)
    ensures r.Some? ==> Code(r.value) == Rem(code, |Values|)
    ensures r.None? <==> Rem(code, |Values|) < 0
  {
    FindCode(Rem(code, |Values|), 0)
  }

  /** The codes are 0..3, one per mode, and every mode is listed. */
  lemma CodesDistinct(m: ReceptiveFieldMode, n: ReceptiveFieldMode)
    ensures 0 <= Code(m) < |Values| && Values[Code(m)] == m
    ensures m != n ==> Code(m) != Code(n)
  {
  }

  /** A non-negative code selects the mode whose code is its remainder by 4. */
  lemma NonNegativeCode(c: int)
    requires c >= 0
    ensures GetForCode(c).Some? && Code(GetForCode(c).value) == c % 4
  {
  }

  /** A negative code that is not a multiple of 4 selects no mode; a negative multiple of 4
      selects NONE. */
  lemma NegativeCode(c: int)
    requires c < 0
    ensures c % 4 != 0 ==> GetForCode(c).None?
    ensures c % 4 == 0 ==> GetForCode(c) == Some(NONE)
  {
    assert Rem(c, 4) == -((-c) % 4);
  }

  /** The mode after m when cycling: NONE, GRID, GRID_TILES, GRID_ENTITIES, then NONE. */
  function Next(m: ReceptiveFieldMode): ReceptiveFieldMode {
    match m
    case NONE => GRID
    case GRID => GRID_TILES
    case GRID_TILES => GRID_ENTITIES
    case GRID_ENTITIES => NONE
  }

  /** Looking up the code after a mode's own gives the next mode in the cycle. */
  lemma CycleThroughModes(m: ReceptiveFieldMode)
    ensures GetForCode(Code(m) + 1) == Some(Next(m))
  {
    NonNegativeCode(Code(m) + 1);
  }
}
