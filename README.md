# MarioAI core, modelled in Dafny

This project models the core of the MarioAI platform-game benchmark. The Java system
generates Mario levels procedurally, lets agents query the tiles and creatures around
Mario, scales sprites, and keeps tournament statistics. Each part below is written in the
form the Java code has. Imperative Java code becomes classes, arrays and methods with loop
invariants. Read-only queries become functions.

- **Level generator** (`LevelGenerator.dfy`, `ZoneOdds.dfy`, `Autotile.dfy`).
  - The generator fills a tile grid zone by zone. It draws a zone kind from a cumulative
    odds table, admits the kind behind the level's budget counters, and runs that kind's
    builder: straight, platform, tubes, gap, cannons or dead-end.
  - It scatters creatures, lays the exit tail and the cave ceiling, autotiles the walls and
    places the princess.
  - `java.util.Random` and the creature generator are finite draw lists read through a
    cursor. `nextInt(n)` returns the next draw reduced into `[0, n)`, and 0 once the list is
    used up. Every property therefore holds for every sequence of draws.
  - The grid is a 2-D array, and the budget counters are a record.
- **Scale2x** (`Scale2x.dfy`). The pixel-art scaler fills a flat target buffer from a
  bordered source buffer through a sliding 3×3 window, for factor 2 or 3.
- **Receptive-field queries** (`TileKinds.dfy`, `Tiles.dfy`, `Entities.dfy`). The engine
  copy and the agent-module copy of the tile and entity queries are modelled together. The
  agent-module copy differs only in testing for an absent field.
- **Tournament bookkeeping** (`Evaluation.dfy`, `EvaluationReport.dfy`, `Tournament.dfy`,
  `RunsGenerator.dfy`).
  - The two `getResult` status maps.
  - The report formatting: `spaceFormat`, the percentages, and CSV header and line
    alignment.
  - The `EvaluationInfos` counters.
  - `MarioConfig` option parsing.
  - Seed and configuration generation.
- **Input and options** (`Input.dfy`, `SimulatorOptions.dfy`). The pressed-key set, and the
  receptive-field mode lookup.
- **Java semantics** (`JavaInt.dfy`). Java integer semantics are spelled out: 32-bit range
  and wrap-around, truncating `/`, sign-keeping `%`, `Integer.toString` and
  `Integer.parseInt`.

Two facts about the code are easy to misread, and the model states them as the code has
them:

- **Budgets.** Only platforms, gaps, dead-ends and decorative blocks are gated by their
  budgets. The gate `blocksCount > totalBlocks` in `buildBlocks` lets the count reach its
  budget. Tubes, cannons, coins (question blocks add up to 9 at once) and hidden blocks
  are never capped. `Grows` states exactly what the code keeps.
- **Order of the final passes.** The exit coordinates and the ground tail are fixed
  before the ceiling pass and the autotiler. Only the princess is placed after
  autotiling.

## Model

| member | source | states |
|---|---|---|
| ZoneOdds.RawWeights | src/engine/level/LevelGenerator.java:143-151 | six weights: straight 20; platforms 1 on overground levels and 0 elsewhere; cannons -10 + 5·difficulty |
| ZoneOdds.Cumulative | src/engine/level/LevelGenerator.java:153-159 | the prefix table has one entry per zone kind |
| ZoneOdds.SumClampedNonNegative | src/engine/level/LevelGenerator.java:155-157 | the sum of weights clamped at zero is never negative |
| ZoneOdds.CumulativeShape | src/engine/level/LevelGenerator.java:153-159 | entry 0 is 0; each entry is the previous plus the previous clamped weight; the table is non-decreasing and within [0, total]; the total is the last entry plus the last weight |
| ZoneOdds.GeneratorTotalAtLeast20 | src/engine/level/LevelGenerator.java:153-163 | totalOdds equals the clamped sum and is at least 20, so the `totalOdds <= 0` fallback never runs |
| ZoneOdds.PickIsLastNotAbove | src/engine/level/LevelGenerator.java:243-249 | the lookup returns the last index whose entry is ≤ t |
| ZoneOdds.PickSelectsBucket | src/engine/level/LevelGenerator.java:243-249 | for t in [0, total), the chosen kind k has Cumulative[k] ≤ t < Cumulative[k] + weight k |
| ZoneOdds.BucketSelectsKind | src/engine/level/LevelGenerator.java:243-249 | conversely, a t inside kind k's bucket selects k |
| ZoneOdds.ZeroWeightNeverPicked | src/engine/level/LevelGenerator.java:243-249 | a kind whose clamped weight is 0 is never chosen |
| ZoneOdds.NoCannonsAtLowDifficulty | src/engine/level/LevelGenerator.java:147-156 | at difficulty ≤ 2 no draw picks cannons |
| ZoneOdds.NoPlatformsOffOverground | src/engine/level/LevelGenerator.java:150-151 | off overground levels no draw picks platforms |
| ZoneOdds.ZeroDrawIsStraight | src/engine/level/LevelGenerator.java:243-249 | draw 0 always picks a straight zone |
| Autotile.SheetOffset | src/engine/level/LevelGenerator.java:955-959 | the offset is 8 exactly for castles, 12 exactly for underground levels, and 0 otherwise |
| Autotile.NoSampleFallsThrough | src/engine/level/LevelGenerator.java:980-1032 | every 2×2 sample is caught before the final else, which is therefore unreachable |
| Autotile.ClassifyMatchesTable | src/engine/level/LevelGenerator.java:980-1032 | the classification chain agrees with an independent 16-entry table indexed by the sample bits |
| Autotile.ClassifyKeepsOnlyEmpty | src/engine/level/LevelGenerator.java:980-986 | the old tile is kept exactly when all four corners are empty; otherwise the code put is in the offset wall sheet |
| Autotile.SolidInteriorStaysGround | src/engine/level/LevelGenerator.java:936-1001 | a tile whose 3×3 neighbourhood is all ground becomes plain ground in the level's sheet |
| Autotile.NoGroundKeepsTile | src/engine/level/LevelGenerator.java:936-986 | a tile with no ground around it keeps its old code |
| LevelGenerator.Reset | src/engine/level/LevelGenerator.java:141 | counters.reset() zeroes every count and keeps every budget |
| LevelGenerator.SlabTile | src/engine/level/LevelGenerator.java:630-650 | an empty cell gets a platform tile (top row on the slab's top line); earlier top corners become joins; other tiles are kept |
| LevelGenerator.LevelGenerator.constructor | src/engine/level/LevelGenerator.java:133-138 | a blank level; a height below 15 is raised to 15 |
| LevelGenerator.LevelGenerator.FillWeights | src/engine/level/LevelGenerator.java:143-151 | the odds array holds the raw weights |
| LevelGenerator.LevelGenerator.BuildOdds | src/engine/level/LevelGenerator.java:143-163 | odds becomes the cumulative table of the clamped weights, and totalOdds ≥ 20 |
| LevelGenerator.LevelGenerator.PickZone | src/engine/level/LevelGenerator.java:243-249 | the kind is the inverse-CDF choice, inside its bucket of the weight table |
| LevelGenerator.LevelGenerator.AddEnemy | src/engine/level/LevelGenerator.java:335-349 | at most one creature is added; a counted creature stands at an in-range cell; no other template changes |
| LevelGenerator.LevelGenerator.ScatterCreatures | src/engine/level/LevelGenerator.java:296-304 | at most difficulty + 1 creatures, all in column x; only the creature count changes |
| LevelGenerator.LevelGenerator.BuildCeiling | src/engine/level/LevelGenerator.java:312-333 | nothing for length < 2; otherwise ground over length to length + 2 columns (the overrun quirk), only in rows 0-2 |
| LevelGenerator.LevelGenerator.BuildLadder | src/engine/level/LevelGenerator.java:445-458 | a ladder of height ≥ 4, capped by maxHeight, is drawn with its top tile, or nothing is drawn |
| LevelGenerator.LevelGenerator.BuildCoins | src/engine/level/LevelGenerator.java:901-916 | coins go only into empty cells two rows above the line, inside the margins; the coin count stops at its budget |
| LevelGenerator.LevelGenerator.CanBuildBlocks | src/engine/level/LevelGenerator.java:788-794 | true exactly for hidden blocks or while blocksCount < totalBlocks |
| LevelGenerator.LevelGenerator.QuestionBlock | src/engine/level/LevelGenerator.java:830-851 | one question block at (x, floor); coins rise by at most 9; the only data write is the multi-coin block's count, negated, at (x, floor), equal to minus the coin increase; a rise of 2 or more always leaves that block and its count |
| LevelGenerator.LevelGenerator.BrickBlock | src/engine/level/LevelGenerator.java:857-867 | a power-up or coin brick only on an empty cell; coins rise by at most 1 |
| LevelGenerator.LevelGenerator.HiddenBlock | src/engine/level/LevelGenerator.java:816-823 | either nothing, or one hidden block at (x, floor - 4) counting one hidden block and one coin |
| LevelGenerator.LevelGenerator.VisibleBlock | src/engine/level/LevelGenerator.java:825-877 | only (x, floor) changes; counters grow within the gates, and only the decoration counts change; data changes only at a multi-coin block there, to a value in -9..-1 |
| LevelGenerator.LevelGenerator.BlockColumn | src/engine/level/LevelGenerator.java:815-881 | one column of a block row: counters grow within the gates, only decoration counts change, writes stay in the span; data changes only at a multi-coin block on the line, to -9..-1 |
| LevelGenerator.LevelGenerator.BuildBlocks | src/engine/level/LevelGenerator.java:796-899 | blocksCount never passes its budget; over budget it returns false and changes nothing; tile and data writes stay in [x0, x1) above the floor, data only to -9..-1 |
| LevelGenerator.LevelGenerator.Decorate | src/engine/level/LevelGenerator.java:918-934 | does nothing for floor < 1; otherwise only decoration counts change and writes stay in the span above the floor, data only to -9..-1 |
| LevelGenerator.LevelGenerator.FillGround | src/engine/level/LevelGenerator.java:775-777 | exactly the rectangle becomes ground |
| LevelGenerator.LevelGenerator.BuildStraight | src/engine/level/LevelGenerator.java:752-786 | length is maxLength on a bounded floor, otherwise min(draw, maxLength) with the draw in 10..14 (safe) or 2..9; the floor is vfloor or one of the 4 bottom rows; ground fills below it |
| LevelGenerator.LevelGenerator.PlatformSlab | src/engine/level/LevelGenerator.java:630-650 | every cell of the slab rectangle becomes its SlabTile; nothing else changes |
| LevelGenerator.LevelGenerator.PlatformLevel | src/engine/level/LevelGenerator.java:619-652 | a pass that stops without decorating has used a draw (so the loop ends); ground from fl down is kept; writes stay within one column of the zone |
| LevelGenerator.LevelGenerator.BuildPlatform | src/engine/level/LevelGenerator.java:591-656 | length = min(draw in 10..19, maxLength); with a base, ground fills under the floor; existing ground is kept |
| LevelGenerator.LevelGenerator.TubeColumn | src/engine/level/LevelGenerator.java:717-739 | the column's exact new contents: ground, tube top (10/11) and body (26/27); a top in the left column counts one tube |
| LevelGenerator.LevelGenerator.NextTube | src/engine/level/LevelGenerator.java:694-705 | the next tube lies 3-6 columns on, and its height respects maxHeight - 1 |
| LevelGenerator.LevelGenerator.PlaceFlower | src/engine/level/LevelGenerator.java:710-715 | at most one flower, only if flowers are enabled, placed at the tube top |
| LevelGenerator.LevelGenerator.TubeRun | src/engine/level/LevelGenerator.java:693-740 | ground under the whole run; writes and flowers stay in the run |
| LevelGenerator.LevelGenerator.TubeStart | src/engine/level/LevelGenerator.java:661-685 | length = min(draw in 5..14, maxLength); floor is vfloor or one of the 4 bottom rows |
| LevelGenerator.LevelGenerator.BuildTubes | src/engine/level/LevelGenerator.java:658-747 | the length bound and the floor; ground below the floor; only tube, creature and decoration counts change |
| LevelGenerator.LevelGenerator.CannonColumn | src/engine/level/LevelGenerator.java:560-581 | the column's exact new contents: ground, then barrel / base / pole while cannonsCount ≤ totalCannons |
| LevelGenerator.LevelGenerator.CannonTop | src/engine/level/LevelGenerator.java:544-558 | the barrel is at most 3 rows above the floor and within the height cap, which only ever shrinks |
| LevelGenerator.LevelGenerator.CannonRun | src/engine/level/LevelGenerator.java:534-582 | ground under the run; cannonsCount rises by at most the run length |
| LevelGenerator.LevelGenerator.CannonStart | src/engine/level/LevelGenerator.java:517-526 | length = min(draw in 2..11, maxLength); floor is vfloor or one of the 4 bottom rows |
| LevelGenerator.LevelGenerator.BuildCannons | src/engine/level/LevelGenerator.java:514-589 | the length bound and the floor; ground below the floor; only cannon and decoration counts change |
| LevelGenerator.LevelGenerator.GapColumn | src/engine/level/LevelGenerator.java:489-505 | the column's exact new contents: ground from the floor, stairs where StairAt holds |
| LevelGenerator.LevelGenerator.BuildGap | src/engine/level/LevelGenerator.java:460-512 | gs is 2 + the first draw mod 5; gl is 10 exactly when the second draw (mod difficulty + 1) plus difficulty exceeds 7, else 3 (the `?:` precedence quirk), so 3 at difficulty ≤ 3 and 10 at ≥ 8; length = min(2gs + gl, maxLength); banks are ground |
| LevelGenerator.LevelGenerator.BuildKind | src/engine/level/LevelGenerator.java:253-291 | length ≥ 1 exactly when the gate admits the kind; a refused kind changes nothing; platform, dead-end and gap counts rise by one per admitted call |
| LevelGenerator.LevelGenerator.BuildZone | src/engine/level/LevelGenerator.java:242-310 | the kind is the inverse-CDF choice; the draw cursor advances; the gate and count facts of BuildKind; counters grow within the gates |
| LevelGenerator.LevelGenerator.DeadEndLead | src/engine/level/LevelGenerator.java:355-371 | the lead is 7..14 (not capped by maxLength); its floor is one of rows height-3, height-2; separatorY is in [3, floor - 6] |
| LevelGenerator.LevelGenerator.DeadEndLane | src/engine/level/LevelGenerator.java:404-414 | a lane fills exactly max(depth, 0) columns and never builds a platform or another dead-end |
| LevelGenerator.LevelGenerator.BuildDeadEnds | src/engine/level/LevelGenerator.java:354-443 | depth bounds, the returned length, and the wall ground above or below the separator; no nested platform or dead-end |
| LevelGenerator.LevelGenerator.CountGround | src/engine/level/LevelGenerator.java:940-947 | the number of ground tiles around a corner is 0..4, and 4 exactly when the corner is solid |
| LevelGenerator.LevelGenerator.Count2 | src/engine/level/LevelGenerator.java:941-946 | the number of ground tiles among two vertically adjacent tiles |
| LevelGenerator.LevelGenerator.Blockify | src/engine/level/LevelGenerator.java:953-1035 | every tile becomes the classification of its clamped corner sample, with the sheet offset |
| LevelGenerator.LevelGenerator.FixWalls | src/engine/level/LevelGenerator.java:936-951 | every tile becomes Blockified of the grid as it was before the pass (the corner map is complete before any rewrite) |
| LevelGenerator.LevelGenerator.FinalCeiling | src/engine/level/LevelGenerator.java:212-227 | only row 0 is written (quirk kept); columns 0 and > 4 are ground there |
| LevelGenerator.LevelGenerator.SetPrincess | src/engine/level/LevelGenerator.java:237-240 | the goal tile 15 + 15·16 and the princess template go at (x, y); nothing else changes |
| LevelGenerator.LevelGenerator.LayZones | src/engine/level/LevelGenerator.java:172-183 | the zone loop ends with currentLength ≥ length - 10; the first floor is one of the 4 bottom rows |
| LevelGenerator.LevelGenerator.LayExit | src/engine/level/LevelGenerator.java:185-227 | exit defaults (length - 1, floor - 1); the tail is ground from the floor down; the ceiling pass for caves |
| LevelGenerator.LevelGenerator.CreateLevel | src/engine/level/LevelGenerator.java:120-235 | the whole generation: counters grow from reset within the gates; the exit defaults; the tail is ground before autotiling; every tile but the exit is the autotiled pre-wall grid; the exit holds the princess tile and goal; every block-data value is 0 or a negated coin count 1..9 |
| Scale2x.Scale2Pixels | src/engine/graphics/Scale2x.java:119-130 | four pixels; all E when B == H or D == F |
| Scale2x.Scale3Pixels | src/engine/graphics/Scale2x.java:132-150 | nine pixels; the centre is always E; all E when B == H or D == F |
| Scale2x.Kernel | src/engine/graphics/Scale2x.java:119-150 | four pixels for factor 2, nine for factor 3 |
| Scale2x.Scale2MatchesReference | src/engine/graphics/Scale2x.java:120-125 | the factor-2 rule equals the TL/TR/BL/BR reference (D==B ? D : E, …) |
| Scale2x.Scale3MatchesReference | src/engine/graphics/Scale2x.java:134-144 | the factor-3 rule equals an independent nine-cell reference |
| Scale2x.OutputsAreEdgeNeighbours | src/engine/graphics/Scale2x.java:119-150 | every output is E, B, D, F or H; the corners only take part in the tests |
| Scale2x.UniformWindowUniformBlock | src/engine/graphics/Scale2x.java:119-150 | a uniform window scales to a uniform block |
| Scale2x.OutIndexInjective | src/engine/graphics/Scale2x.java:97-105 | no two (pixel, cell) pairs share a target index |
| Scale2x.OutIndexInRange | src/engine/graphics/Scale2x.java:97-105 | every target index is inside the (width·factor) × (height·factor) buffer |
| Scale2x.OutIndexOnto | src/engine/graphics/Scale2x.java:97-105 | every target index is written by some pixel and cell, so one call covers the whole buffer |
| Scale2x.Scale2x.constructor | src/engine/graphics/Scale2x.java:55-70 | the source buffer is (width + 2) × (height + 3) and the target buffer (width·factor) × (height·factor) |
| Scale2x.Scale2x.SourceInRange | src/engine/graphics/Scale2x.java:108-115 | every read of columns 0..width+2 and rows 0..height+1 is inside the source buffer, thanks to the spare row |
| Scale2x.Scale2x.Scale | src/engine/graphics/Scale2x.java:85-161 | every cell of every block holds the kernel of its pixel's window |
| Scale2x.Scale2x.ScaleRow | src/engine/graphics/Scale2x.java:92-161 | row y's blocks hold their kernels; other rows are untouched |
| Scale2x.Scale2x.ColumnInRange | src/engine/graphics/Scale2x.java:108-115 | the three source pointers of a column are in range, one line apart |
| Scale2x.Scale2x.WindowSlide | src/engine/graphics/Scale2x.java:152-159 | after the shift and the three reads, the window is that of the next column |
| Scale2x.Scale2x.TargetLines | src/engine/graphics/Scale2x.java:97-105 | the target pointers start one before lines y·factor + j of the output |
| Scale2x.Scale2x.SourceLines | src/engine/graphics/Scale2x.java:108-110 | the source pointers start at rows y, y + 1, y + 2 |
| Scale2x.Scale2x.ScalePixel | src/engine/graphics/Scale2x.java:119-150 | each pointer advances by factor; the pixel's block is done; other rows are unchanged |
| Scale2x.Scale2x.Scale2Block | src/engine/graphics/Scale2x.java:119-130 | the 2×2 block holds Scale2Pixels; nothing else changes |
| Scale2x.Scale2x.Scale3Block | src/engine/graphics/Scale2x.java:132-150 | the 3×3 block holds Scale3Pixels; nothing else changes |
| Scale2x.Scale2x.Scale3Line | src/engine/graphics/Scale2x.java:134-149 | one line of three writes lands in the block's line j |
| Scale2x.Scale2x.RowStart | src/engine/graphics/Scale2x.java:97-110 | the pointer formulas y·width·4, y·width·9 and y·(width + 2) are the block indices |
| Scale2x.Scale2x.BlockDisjoint | src/engine/graphics/Scale2x.java:117-150 | the writes of one pixel hit no other pixel's block |
| TileKinds.Member | MarioAI4J/src/ch/idsia/benchmark/mario/engine/generalization/Tile.java:162-167 | the membership loop holds exactly when z is in the list |
| TileKinds.IsZLevel | MarioAI4J/src/ch/idsia/benchmark/mario/engine/generalization/Tile.java:162-167 | isZLevel(z) holds exactly when z is among the kind's constructor z-levels |
| TileKinds.ZLevelsWellFormed | MarioAI4J/src/ch/idsia/benchmark/mario/engine/generalization/Tile.java:9-140 | every kind has at least one z-level, and all lie in 0..2 |
| TileKinds.NothingOnlyAtLevelTwo | MarioAI4J/src/ch/idsia/benchmark/mario/engine/generalization/Tile.java:133 | NOTHING has code 0 and z-level 2 only |
| TileKinds.CodesCollideOnlyOnLadders | MarioAI4J/src/ch/idsia/benchmark/mario/engine/generalization/Tile.java:9-140 | two distinct kinds share a code only if they are LADDER and TOP_OF_LADDER |
| TileKinds.LadderCodesCollide | MarioAI4J/src/ch/idsia/benchmark/mario/engine/generalization/Tile.java:106-115 | LADDER and TOP_OF_LADDER share code 61 |
| TileKinds.CoinsAndBordersAtEveryLevel | MarioAI4J/src/ch/idsia/benchmark/mario/engine/generalization/Tile.java:23-82 | COIN_ANIM and BORDER_CANNOT_PASS_THROUGH are at every z-level 0-2 |
| Tiles.GetTile | src/engine/core/Tiles.java:30-34 | NOTHING for an absent field or out-of-field coordinates, the stored tile otherwise; the agent-module copy (MarioAI4J/src/ch/idsia/agents/controllers/modules/Tiles.java lines 32-36) behaves the same |
| Tiles.RelativeLookup | src/engine/core/Tiles.java:37-49 | tile reads Mario's cell plus the offset; emptyTile exactly on NOTHING; anyTile is its negation; the agent-module copy (MarioAI4J/src/ch/idsia/agents/controllers/modules/Tiles.java lines 39-51) behaves the same |
| Tiles.BrickKinds | src/engine/core/Tiles.java:52-67 | brick holds exactly for the seven listed kinds, so it implies anyTile and fails outside the field; the agent-module copy (MarioAI4J/src/ch/idsia/agents/controllers/modules/Tiles.java lines 54-69) behaves the same |
| Tiles.BrickInColumn | src/engine/core/Tiles.java:78-80 | the inner loop finds a brick exactly when one is in the column range |
| Tiles.BrickInBox | src/engine/core/Tiles.java:77-82 | the nested loop finds a brick exactly when one is in the box |
| Tiles.TileOf | src/engine/core/Tiles.java:72-75 | Math.floor of the offset over 16: the tile whose 16 pixels contain the point |
| Tiles.BrickIn | src/engine/core/Tiles.java:71-83 | true exactly when some tile of the floor-divided box is a brick |
| Tiles.InvertedBoxHasNoBrick | src/engine/core/Tiles.java:71-83 | a box whose end lies a whole tile before its start gives false |
| Tiles.BrickInFindsOverlap | src/engine/core/Tiles.java:71-83 | a brick under any pixel of the box is found |
| Tiles.TileOfMonotone | src/engine/core/Tiles.java:72-75 | the tile index is monotone in the pixel offset |
| Entities.GetAllAt | src/engine/core/Entities.java:67-71 | the stored list in range, an empty list outside |
| Entities.GetEntities | MarioAI4J/src/ch/idsia/agents/controllers/modules/Entities.java:68-72 | an empty list for an absent field, otherwise the engine lookup |
| Entities.MostDangerousFrom | src/engine/core/Entities.java:53-55 | the search loop ends on the earliest entity of least threat level |
| Entities.MostDangerous | src/engine/core/Entities.java:50-59 | NOTHING exactly for an empty list; otherwise the type of the earliest least-threat entity |
| Entities.GetEntityType | src/engine/core/Entities.java:46-60 | NOTHING out of range, otherwise MostDangerous of the cell; the agent-module copy (MarioAI4J/src/ch/idsia/agents/controllers/modules/Entities.java lines 49-61) behaves the same |
| Entities.EarliestMinimalUnique | src/engine/core/Entities.java:46-60 | the earliest minimal entity is unique, so the reported type is determined |
| Entities.EntityTypeAtIsMostDangerous | src/engine/core/Entities.java:77-79 | entityType is NOTHING exactly for an empty or outside cell, else the earliest least-threat entity's type; the agent-module copy (MarioAI4J/src/ch/idsia/agents/controllers/modules/Entities.java lines 78-80) behaves the same |
| Entities.Danger | src/engine/core/Entities.java:105-111 | true exactly when some entity is dangerous; the agent-module copy (MarioAI4J/src/ch/idsia/agents/controllers/modules/Entities.java lines 106-112) behaves the same |
| Entities.SquishyFrom | src/engine/core/Entities.java:137-144 | the squishy loop from a flag: no dangerous non-squishable entity, and the flag or a squishable one |
| Entities.Squishy | src/engine/core/Entities.java:135-145 | some entity is squishy and none is dangerous but not squishy; the agent-module copy (MarioAI4J/src/ch/idsia/agents/controllers/modules/Entities.java lines 123-133) behaves the same |
| Entities.ShootableFrom | src/engine/core/Entities.java:162-167 | the shootable loop from a flag: every entity shootable, and the flag or some entity |
| Entities.Shootable | src/engine/core/Entities.java:160-168 | the cell is non-empty and every entity is shootable; the agent-module copy (MarioAI4J/src/ch/idsia/agents/controllers/modules/Entities.java lines 148-156) behaves the same |
| Entities.AnyCollectible | src/engine/core/Entities.java:185-188 | true exactly when some entity is collectible |
| Entities.Collectible | src/engine/core/Entities.java:182-189 | some entity is collectible and none is dangerous; the agent-module copy (MarioAI4J/src/ch/idsia/agents/controllers/modules/Entities.java lines 170-177) behaves the same |
| Entities.PredicatesNeedAnEntity | src/engine/core/Entities.java:91-100 | only an occupied cell satisfies a predicate; danger excludes collectible; anything is the negation of nothing |
| Entities.OutOfRangeIsEmpty | src/engine/core/Entities.java:67-71 | outside the field every relative query sees an empty cell and answers false |
| Entities.LookupsAgree | MarioAI4J/src/ch/idsia/agents/controllers/modules/Entities.java:68-72 | on a present field the two copies' lookups agree |
| Evaluation.DescriptionPerOutcome | src/tournament/EvaluationInfo.java:36-43 | one description per outcome, indexed by ordinal, all distinct |
| Evaluation.GetResult | src/tournament/EvaluationInfo.java:59-74 | running → still running whatever the clock; win → victory; dead → timed out iff timeLeft ≤ 0, else died; any other status → error |
| EvaluationReport.ToolsResult | src/tools/EvaluationInfo.java:99-118 | running → timed out iff timeLeft ≤ 0, else still running; win → victory; dead → died; any other status → error |
| EvaluationReport.StatusMapsCompared | src/tools/EvaluationInfo.java:99-118 | the two maps agree on win, and differ on running with no time left and on dying with no time left |
| EvaluationReport.CellText | src/tools/EvaluationInfo.java:231 | "." for 0, the decimal text otherwise; never empty, no space |
| EvaluationReport.SpaceFormat | src/tools/EvaluationInfo.java:230-235 | the cell text right-padded with spaces to at least 4 characters |
| EvaluationReport.TrimPadding | src/tools/EvaluationInfo.java:232-233 | trimming the padding gives back the text |
| EvaluationReport.SpaceFormatRecoversText | src/tools/EvaluationInfo.java:230-235 | trimming a formatted cell gives back its text |
| EvaluationReport.Percent | src/tools/EvaluationInfo.java:172 | the unguarded percentage fails (division by zero) exactly when the total is 0 |
| EvaluationReport.GuardedPercent | src/tools/EvaluationInfo.java:183-223 | the guarded percentage divides by 1 when the total is 0 |
| EvaluationReport.GuardedPercentRange | src/tools/EvaluationInfo.java:183-223 | with a zero total it is part·100; for 0 ≤ part ≤ total it lies in 0..100 |
| EvaluationReport.SplitField | src/tools/EvaluationInfo.java:257-263 | splitting at ';' peels off a separator-free first field |
| EvaluationReport.SplitJoin | src/tools/EvaluationInfo.java:257-263 | splitting the ';'-join of separator-free fields gives the fields back |
| EvaluationReport.NameHasNoSeparator | src/tools/EvaluationInfo.java:251-255 | no header name holds ';' |
| EvaluationReport.CsvOrderCoversColumns | src/tools/EvaluationInfo.java:251-255 | the 23 columns appear once each |
| EvaluationReport.Names | src/tools/EvaluationInfo.java:251-255 | the names of a column list, in order, separator-free |
| EvaluationReport.Texts | src/tools/EvaluationInfo.java:257-263 | the values of a column list, in order, separator-free |
| EvaluationReport.CsvHeader | src/tools/EvaluationInfo.java:251-255 | the header splits into the 23 column names in order |
| EvaluationReport.Csv | src/tools/EvaluationInfo.java:257-263 | absent exactly when getResult throws; otherwise 23 fields, field k holding column k's value, aligned with header field k |
| EvaluationReport.ModeText | src/tools/EvaluationInfo.java:258 | the mode's text (or "null") has no separator |
| EvaluationReport.ShowHasNoSeparator | src/tools/EvaluationInfo.java:258-262 | a printed int has no ';' |
| EvaluationReport.ResultNameHasNoSeparator | src/tools/EvaluationInfo.java:258 | an outcome name has no ';' |
| EvaluationReport.ColumnTextHasNoSeparator | src/tools/EvaluationInfo.java:257-263 | no column value has a ';' |
| JavaInt.Wrap | src/tournament/run/MarioRunsGenerator.java:17 | int addition wraps modulo 2^32 into the int range, and is the identity in range |
| JavaInt.Div | src/tools/EvaluationInfo.java:172 | Java's `/` on ints: the quotient, truncated toward zero and wrapped into int range |
| JavaInt.DivRem | src/tools/EvaluationInfo.java:172 | the truncated quotient and Java's remainder recombine to the dividend (MIN_VALUE / -1 excluded) |
| JavaInt.Rem | src/options/SimulatorOptions.java:52 | Java's remainder: smaller than the divisor in magnitude, with the dividend's sign |
| JavaInt.Show | src/tournament/run/MarioRunsGenerator.java:31 | the decimal text of an int: digits, with a leading '-' for negatives |
| JavaInt.ParseInt | src/tournament/MarioConfig.java:27 | Integer.parseInt: a result is always in int range and comes from non-empty text |
| JavaInt.ShowParseRoundTrip | src/tournament/MarioConfig.java:27 | parsing the text of an int gives the int back |
| JavaInt.ParseUnsigned | src/tournament/MarioConfig.java:27 | a digit string parses to its value, or throws if that is out of range |
| JavaInt.ParseNegative | src/tournament/MarioConfig.java:27 | '-' and digits parse to minus their value, or throw if that is out of range |
| JavaInt.ElevenDigitsOverflow | src/tournament/MarioConfig.java:27 | 11 or more significant digits always overflow, with or without '-' |
| Tournament.Recorded | src/tournament/EvaluationInfos.java:34-50 | the runs addResult keeps: a subsequence of finished runs |
| Tournament.CountsAddUp | src/tournament/EvaluationInfos.java:75-77 | over finished runs, victories + deaths + timeouts = number of runs |
| Tournament.NothingRunningRecorded | src/tournament/EvaluationInfos.java:45-48 | no running result is ever recorded |
| Tournament.EvaluationInfos.constructor | src/tournament/EvaluationInfos.java:8-27 | no results; all counters 0 |
| Tournament.EvaluationInfos.TotalRuns | src/tournament/EvaluationInfos.java:75-77 | getTotalRuns equals the number of recorded results |
| Tournament.EvaluationInfos.AddResult | src/tournament/EvaluationInfos.java:34-61 | a running result changes nothing; a finished one is appended, bumps exactly its counter and adds its time and score; an invalid status throws |
| Tournament.EvaluationInfos.AddResults | src/tournament/EvaluationInfos.java:63-73 | addResult folded in order: all valid → the finished ones appended; otherwise the prefix before the first invalid one |
| Tournament.DigitsEnd | src/tournament/MarioConfig.java:23 | the end of the digit run that `[0-9]+` matches greedily |
| Tournament.MatchEnd | src/tournament/MarioConfig.java:23 | a match spans at least "ls " and one digit |
| Tournament.Find | src/tournament/MarioConfig.java:25 | find returns the first match position at or after from, or none |
| Tournament.FindGroups | src/tournament/MarioConfig.java:25-28 | the find loop yields the matches in order, each search resuming after the previous match |
| Tournament.SeedAfter | src/tournament/MarioConfig.java:25-28 | no exception exactly when every matched group parses |
| Tournament.LastMatchWins | src/tournament/MarioConfig.java:25-28 | the seed is the last group's value, or unchanged without matches |
| Tournament.GroupShape | src/tournament/MarioConfig.java:23 | a group is digits, optionally after '-' |
| Tournament.AppendedSeedIsLastGroup | src/tournament/MarioConfig.java:23-28 | appending " -ls n" adds exactly the group n, which becomes the seed |
| Tournament.MarioConfig.constructor | src/tournament/MarioConfig.java:9-12 | no options, seed -1 |
| Tournament.MarioConfig.SetOptions | src/tournament/MarioConfig.java:18-30 | getOptions returns what was set; null → seed -1; otherwise the last match's seed, the old seed without matches, an exception on overflow |
| RunsGenerator.Positive | src/tournament/run/MarioRunsGenerator.java:15-18 | positive draws are kept; others get MAX_VALUE added once or twice, ending in (0, MAX_VALUE] |
| RunsGenerator.GenerateSeeds | src/tournament/run/MarioRunsGenerator.java:10-22 | count seeds, seed i = Positive(draw i) > 0 |
| RunsGenerator.GenerateConfigs | src/tournament/run/MarioRunsGenerator.java:24-38 | runCount fresh, distinct configs with options = prototype + " -ls " + seed i and seed i; fails exactly when the prototype's own seed option overflows |
| RunsGenerator.MarioRun.constructor | src/tournament/run/MarioRun.java:12-14 | the run holds its config |
| RunsGenerator.GenerateRunList | src/tournament/run/MarioRunsGenerator.java:40-47 | run i plays config i, which carries seed i |
| RunsGenerator.SeedOptionReadsBack | src/tournament/run/MarioRunsGenerator.java:31 | the appended seed option reads back as that seed |
| Input.MarioInput.constructor | src/engine/input/MarioInput.java:14 | an empty pressed set |
| Input.MarioInput.GetPressed | src/engine/input/MarioInput.java:16-18 | the pressed keys, one per code |
| Input.MarioInput.IsPressed | src/engine/input/MarioInput.java:42-44 | true exactly when a key with the same code is pressed (comparator identity) |
| Input.MarioInput.Press | src/engine/input/MarioInput.java:24-26 | afterwards the key is pressed; an already-pressed code keeps its stored key; other keys unchanged |
| Input.MarioInput.Release | src/engine/input/MarioInput.java:32-35 | afterwards the key is not pressed; only its code is removed; releasing an unpressed key changes nothing |
| Input.MarioInput.Reset | src/engine/input/MarioInput.java:49-51 | nothing is pressed |
| Input.Apply | src/engine/input/MarioInput.java:24-35 | press or release on the set as a value: only the key's code changes |
| Input.PressReleaseRoundTrip | src/engine/input/MarioInput.java:24-35 | release undoes press of an unpressed key; press and release are idempotent |
| SimulatorOptions.FindCode | src/options/SimulatorOptions.java:53-56 | the loop finds a mode with the code, or none when no mode has it |
| SimulatorOptions.GetForCode | src/options/SimulatorOptions.java:51-57 | the mode whose code is code % 4 (Java's sign-keeping %), null exactly when that is negative |
| SimulatorOptions.CodesDistinct | src/options/SimulatorOptions.java:35-49 | the codes are 0..3, distinct, in declaration order |
| SimulatorOptions.NonNegativeCode | src/options/SimulatorOptions.java:51-56 | for c ≥ 0, the mode with code c % 4 |
| SimulatorOptions.NegativeCode | src/options/SimulatorOptions.java:52-56 | for c < 0, null unless c is a multiple of 4, which gives NONE |
| SimulatorOptions.CycleThroughModes | src/options/SimulatorOptions.java:51-56 | code + 1 cycles NONE → GRID → GRID_TILES → GRID_ENTITIES → NONE |

## Left out

- Level files: `loadLevel` (object-stream input) is not modelled. The choice of a random level seed is not modelled either. The seed only selects the draw lists, which are parameters.
- `java.util.Random` and the creature generator are finite draw lists.
  - `canAdd`, `nextCreature` and `isCreatureEnabled("f")` are modelled as a creature draw and a flowers-enabled flag.
  - `increaseLastCreature` has no modelled effect.
- `Level` is not part of this model. Its accessors are assumed:
  - `setBlock` ignores out-of-range cells;
  - `getBlock` clamps x and reads 0 above the grid;
  - `getBlockCapped` clamps both coordinates;
  - `setSpriteTemplate` stores a template and returns whether the cell was in range.
- Sprite kinds, `SpriteTemplate` and the Mario status constants are not part of this model. The status codes are taken as 0, 1 and 2; only their being distinct is used.
- `FastOpts.L_RANDOM_SEED` is not part of this model. It is taken as " -ls " followed by the seed.
- The `wallFromBlocks` branch of `buildDeadEnds` is not modelled. Its flag is the constant false, so the branch never runs.
- The `totalOdds <= 0` fallback is not modelled. `GeneratorTotalAtLeast20` shows it cannot run.
- `Level.counters = counters` is not modelled: the counters stay a field of the generator.
- LevelGenerator.LevelGenerator.CreateLevel: does not state a bound on the creature, tube, cannon, coin or hidden-block counts, because the code caps none of them.
- Scale2x: `drawImage` into the bordered buffer, and the AWT images, are left out. `scale` works on the two int buffers, and the factor is 2 or 3 as the constructor documents.
- `Entities.dangerIn` (floating-point sprite extents) is left out. So are the `EvaluationInfos` averages, which are doubles.
- Tiles and Entities: the fields are assumed rectangular. The bounds test reads the width from row 0 only.
- 32-bit overflow is not modelled in a few places:
  - the `EvaluationInfos` totals;
  - the pixel-box offsets of `brickIn`;
  - the generator's coordinate sums.
  
  Every other int operation that can leave the range is written out in `JavaInt`. In particular the percentages wrap their `part * 100` product as Java does.
- Tournament.MarioConfig.SetOptions: the options string is a Dafny string. A null prototype, which Java would print as "null", is not modelled.
- Exceptions are modelled as flags or `None`, not as control flow:
  - getResult on an unknown status;
  - `parseInt` overflow;
  - the unguarded percentage.
- Entities.GetAllAt: the engine copy reads the field's length without a null test, so an absent field throws NullPointerException there. This model takes the field itself and does not model that exception; only the agent-module copy's empty answer for an absent field is modelled, by `Entities.GetEntities`.
- Entities.GetEntityType: the same NullPointerException for an absent field in the engine copy is not modelled.
- LevelGenerator.LevelGenerator.constructor: requires difficulty ≥ 0. With a negative difficulty the first `random.nextInt(levelDifficulty + 1)` Java reaches (in the creature line, a gap or a dead-end) throws IllegalArgumentException; that exception is not modelled.
- RunsGenerator.GenerateSeeds: requires count ≥ 0. A negative count makes Java throw when it allocates the array.
- `generateRuns` and `MarioRuns`, `MarioRun.run` and the evaluation harness are left out. So are the text report's file output, and the synchronised wrapper around the pressed-key set.
- `getCSVHeader` of `EvaluationInfos` is left out.
- `MarioMode` is reduced to its printed name, because the enum itself is not part of this model.
