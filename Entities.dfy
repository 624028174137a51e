/**
 * Entity queries of an agent over its receptive field. Each field cell holds the list of
 * entities (enemies, shells, fireballs, items) standing on it; the queries look at one cell,
 * given in field coordinates (mapX, mapY) or relative to Mario's cell.
 */
module Entities {

  import opened Tiles

  /** The classification an entity kind carries; a lower threat level is more dangerous. */
  datatype EntityKind = EntityKind(threatLevel: int, dangerous: bool, squishy: bool,
                                   shootable: bool, collectible: bool)

  /** The type reported for a cell: NOTHING, or the named type of one of its entities. */
  datatype EntityType = NOTHING | Type(name: string, kind: EntityKind)

  datatype Entity = Entity(name: string, kind: EntityKind, dTX: int, dTY: int)

  function TypeOf(e: Entity): EntityType {
    Type(e.name, e.kind)
  }

  /** The field: per row, per column, the list of entities. It may be absent. */
  datatype EntityField = NoField | Field(cells: seq<seq<seq<Entity>>>)

  predicate Rectangular(cells: seq<seq<seq<Entity>>>) {
    forall r :: 0 <= r < |cells| ==> |cells[r]| == |cells[0]|
  }

  predicate InRange(cells: seq<seq<seq<Entity>>>, mapX: int, mapY: int) {
    0 <= mapY < |cells| && 0 <= mapX < |cells[0]|
  }

  // ---------------------------------------------------------------- cell lookup

  /** getAllAt (engine copy): the stored list in range, an empty list outside. The engine copy
      does not test for an absent field, so it takes the grid itself. */
  function GetAllAt(cells: seq<seq<seq<Entity>>>, mapX: int, mapY: int): (es: seq<Entity>)
    requires Rectangular(cells)
    ensures InRange(cells, mapX, mapY) ==> es == cells[mapY][mapX]
    ensures !InRange(cells, mapX, mapY) ==> es == []
  {
    if mapY < 0 || mapY >= |cells| || mapX < 0 || mapX >= |cells[0]| then []
    else cells[mapY][mapX]
  }

  /** getEntities (agent-module copy): like getAllAt, and an absent field gives an empty list. */
  function GetEntities(f: EntityField, mapX: int, mapY: int): (es: seq<Entity>)
    requires f.Field? ==> Rectangular(f.cells)
    ensures f.NoField? ==> es == []
    ensures f.Field? ==> es == GetAllAt(f.cells, mapX, mapY)
  {
    if f.NoField? then []
    else if mapY < 0 || mapY >= |f.cells| || mapX < 0 || mapX >= |f.cells[0]| then []
    else f.cells[mapY][mapX]
  }

  /** allAt / entities: the lookup at Mario's cell shifted by (relMapX, relMapY). */
  function AllAt(cells: seq<seq<seq<Entity>>>, mario: Ego, relMapX: int, relMapY: int): seq<Entity>
    requires Rectangular(cells)
  {
    GetAllAt(cells, mario.egoCol + relMapX, mario.egoRow + relMapY)
  }

  // ---------------------------------------------------------------- most dangerous type

  /** The search loop of getEntityType from position i, with k the index of the entity kept
      so far: a later entity replaces it only when its threat level is strictly lower. */
  function MostDangerousFrom(es: seq<Entity>, i: nat, k: nat): (r: nat)
    requires k < |es| && i <= |es| && k <= i
    requires forall j :: 0 <= j < i ==> es[k].kind.threatLevel <= es[j].kind.threatLevel
    requires forall j :: 0 <= j < k ==> es[j].kind.threatLevel > es[k].kind.threatLevel
    ensures r < |es|
    ensures forall j :: 0 <= j < |es| ==> es[r].kind.threatLevel <= es[j].kind.threatLevel
    ensures forall j :: 0 <= j < r ==> es[j].kind.threatLevel > es[r].kind.threatLevel
    decreases |es| - i
  {
    if i == |es| then k
    else if es[k].kind.threatLevel > es[i].kind.threatLevel then MostDangerousFrom(es, i + 1, i)
    else MostDangerousFrom(es, i + 1, k)
  }

  /** The type getEntityType reports for a cell's list. */
  function MostDangerous(es: seq<Entity>): (t: EntityType)
    ensures es == [] <==> t == NOTHING
    ensures es != [] ==> exists k :: 0 <= k < |es| && t == TypeOf(es[k]) && EarliestMinimal(es, k)
  {
    if |es| > 0 then
      var k := MostDangerousFrom(es, 0, 0);
      assert EarliestMinimal(es, k);
      TypeOf(es[k])
    else NOTHING
  }

  /** Entity k has the lowest threat level of the list, and every entity before it has a
      strictly higher one. */
  predicate EarliestMinimal(es: seq<Entity>, k: int) {
    0 <= k < |es|
    && (forall j :: 0 <= j < |es| ==> es[k].kind.threatLevel <= es[j].kind.threatLevel)
    && (forall j :: 0 <= j < k ==> es[j].kind.threatLevel > es[k].kind.threatLevel)
  }

  /** getEntityType (both copies; neither tests for an absent field). */
  function GetEntityType(cells: seq<seq<seq<Entity>>>, mapX: int, mapY: int): (t: EntityType)
    requires Rectangular(cells)
    ensures !InRange(cells, mapX, mapY) ==> t == NOTHING
    ensures InRange(cells, mapX, mapY) ==> t == MostDangerous(cells[mapY][mapX])
  {
    if mapY < 0 || mapY >= |cells| || mapX < 0 || mapX >= |cells[0]| then NOTHING
    else MostDangerous(cells[mapY][mapX])
  }

  /** entityType: relative to Mario. */
  function EntityTypeAt(cells: seq<seq<seq<Entity>>>, mario: Ego, relMapX: int, relMapY: int): EntityType
    requires Rectangular(cells)
  {
    GetEntityType(cells, mario.egoCol + relMapX, mario.egoRow + relMapY)
  }

  /** The earliest-minimal entity is unique, so the reported type is determined by the list. */
  lemma EarliestMinimalUnique(es: seq<Entity>, k1: int, k2: int)
    requires EarliestMinimal(es, k1) && EarliestMinimal(es, k2)
    ensures k1 == k2
  {
    assert es[k1].kind.threatLevel == es[k2].kind.threatLevel;
  }

  /** The relative query reports NOTHING exactly for an empty or out-of-range cell, and
      otherwise the type of the first entity of lowest threat level there. */
  lemma EntityTypeAtIsMostDangerous(cells: seq<seq<seq<Entity>>>, mario: Ego, relMapX: int, relMapY: int)
    requires Rectangular(cells)
    ensures var es := AllAt(cells, mario, relMapX, relMapY);
      && (EntityTypeAt(cells, mario, relMapX, relMapY) == NOTHING <==> es == [])
      && (es != [] ==> (exists k :: EarliestMinimal(es, k)
                          && EntityTypeAt(cells, mario, relMapX, relMapY) == TypeOf(es[k])))
  {
  }

  // ---------------------------------------------------------------- cell predicates

  /** anything / nothing. */
  predicate Anything(es: seq<Entity>) {
    |es| > 0
  }

  predicate Nothing(es: seq<Entity>) {
    |es| == 0
  }

  /** danger: the loop returns true at the first dangerous entity. */
  function Danger(es: seq<Entity>): (b: bool)
    ensures b <==> exists i :: 0 <= i < |es| && es[i].kind.dangerous
  {
    if Nothing(es) then false
    else if es[0].kind.dangerous then true
    else Danger(es[1..])
  }

  /** The squishy loop from the flag `found`: it stops with false at a dangerous entity that
      cannot be squished, and otherwise raises the flag at every squishable one. */
  function SquishyFrom(es: seq<Entity>, found: bool): (b: bool)
    ensures b <==> (found || exists i :: 0 <= i < |es| && es[i].kind.squishy)
                   && forall i :: 0 <= i < |es| ==> !(!es[i].kind.squishy && es[i].kind.dangerous)
  {
    if es == [] then found
    else if !es[0].kind.squishy && es[0].kind.dangerous then false
    else SquishyFrom(es[1..], found || es[0].kind.squishy)
  }

  function Squishy(es: seq<Entity>): (b: bool)
    ensures b <==> (exists i :: 0 <= i < |es| && es[i].kind.squishy)
                   && forall i :: 0 <= i < |es| ==> es[i].kind.squishy || !es[i].kind.dangerous
  {
    if Nothing(es) then false else SquishyFrom(es, false)
  }

  /** The shootable loop from the flag `seen`: false at the first entity that cannot be
      shot, otherwise the flag is raised by every entity. */
  function ShootableFrom(es: seq<Entity>, seen: bool): (b: bool)
    ensures b <==> (seen || |es| > 0) && forall i :: 0 <= i < |es| ==> es[i].kind.shootable
  {
    if es == [] then seen
    else if !es[0].kind.shootable then false
    else ShootableFrom(es[1..], true)
  }

  function Shootable(es: seq<Entity>): (b: bool)
    ensures b <==> |es| > 0 && forall i :: 0 <= i < |es| ==> es[i].kind.shootable
  {
    if Nothing(es) then false else ShootableFrom(es, false)
  }

  function AnyCollectible(es: seq<Entity>): (b: bool)
    ensures b <==> exists i :: 0 <= i < |es| && es[i].kind.collectible
  {
    if es == [] then false
    else if es[0].kind.collectible then true
    else AnyCollectible(es[1..])
  }

  /** collectible: something collectible and nothing dangerous. */
  function Collectible(es: seq<Entity>): (b: bool)
    ensures b <==> (exists i :: 0 <= i < |es| && es[i].kind.collectible)
                   && forall i :: 0 <= i < |es| ==> !es[i].kind.dangerous
  {
    if Nothing(es) then false
    else if Danger(es) then false
    else AnyCollectible(es)
  }

  /** Only an occupied cell can satisfy any of the four predicates; danger excludes
      collectible, and a cell that is squishy has nothing dangerous that resists squishing. */
  lemma PredicatesNeedAnEntity(es: seq<Entity>)
    ensures Danger(es) || Squishy(es) || Shootable(es) || Collectible(es) ==> Anything(es)
    ensures Danger(es) ==> !Collectible(es)
    ensures Anything(es) != Nothing(es)
  {
  }

  /** Out of range, every relative query sees an empty cell and answers false. */
  lemma OutOfRangeIsEmpty(cells: seq<seq<seq<Entity>>>, mario: Ego, relMapX: int, relMapY: int)
    requires Rectangular(cells)
    requires !InRange(cells, mario.egoCol + relMapX, mario.egoRow + relMapY)
    ensures var es := AllAt(cells, mario, relMapX, relMapY);
      Nothing(es) && !Danger(es) && !Squishy(es) && !Shootable(es) && !Collectible(es)
  {
  }

  /** The agent-module lookup agrees with the engine one on a present field. */
  lemma LookupsAgree(f: EntityField, mario: Ego, relMapX: int, relMapY: int)
    requires f.Field? && Rectangular(f.cells)
    ensures GetEntities(f, mario.egoCol + relMapX, mario.egoRow + relMapY) == AllAt(f.cells, mario, relMapX, relMapY)
  {
  }
}
