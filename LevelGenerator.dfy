/**
 * The procedural level generator. From a length, a height, a level type, a difficulty and a
 * flat flag it fills a tile grid zone by zone: it draws a zone kind from the odds table,
 * admits it behind the level's budget counters, runs the zone's builder, scatters creatures,
 * then lays the exit, the ceiling, the wall autotiling and the goal.
 *
 * The pseudo-random streams are finite draw lists read through a cursor: nextInt(n) returns
 * the next draw reduced into [0, n), and 0 once the list is used up. Every property below
 * therefore holds for every sequence of draws.
 */
module LevelGenerator {

  import opened ZoneOdds
  import opened Autotile

  const DEFAULT_FLOOR := -1
  const ANY_HEIGHT := -1
  const INFINITE_FLOOR_HEIGHT := 0x7fff_ffff
  const MIN_HEIGHT := 15

  /** Tile codes: sheet column + sheet row * 16 (bytes, kept here as their unsigned value). */
  const EMPTY := 0
  const HIDDEN_BLOCK := 1
  const STAIR := 9 + 0 * 16
  const BRICK := 0 + 1 * 16
  const BRICK_COIN := 1 + 1 * 16
  const BRICK_POWER_UP := 2 + 1 * 16
  const QUESTION_COIN := 4 + 1 + 1 * 16
  const QUESTION_POWER_UP := 4 + 2 + 1 * 16
  const QUESTION_COINS := 4 + 3 + 1 * 16
  const COIN := 2 + 2 * 16
  const LADDER := 13 + 3 * 16
  const LADDER_TOP := 13 + 5 * 16
  const CANNON_BARREL := 14 + 0 * 16
  const CANNON_BASE := 14 + 1 * 16
  const CANNON_POLE := 14 + 2 * 16
  const PLATFORM_TOP_LEFT := 4 + 8 * 16
  const PLATFORM_TOP_RIGHT := 6 + 8 * 16
  const PLATFORM_JOIN_LEFT := 4 + 11 * 16
  const PLATFORM_JOIN_RIGHT := 6 + 11 * 16
  const PRINCESS_TILE := 15 + 15 * 16

  /** The creature generator's "no creature" kind. */
  const KIND_UNDEF := -1

  function Max(a: int, b: int): int { if a < b then b else a }
  function Min(a: int, b: int): int { if a < b then a else b }

  /** A sprite template slot of the level. */
  datatype Template = NoTemplate | Creature(kind: int) | EnemyFlower | PrincessGoal

  /** The level's customisation counters: the budgets (totals) and what has been built. */
  datatype Counters = Counters(
    totalHillStraight: int, totalTubes: int, totalGaps: int, totalCannons: int,
    totalDeadEnds: int, totalBlocks: int, totalCoins: int, totalHiddenBlocks: int,
    platformCount: int, tubesCount: int, gapsCount: int, cannonsCount: int,
    deadEndsCount: int, blocksCount: int, coinsCount: int, hiddenBlocksCount: int,
    creatures: int)

  /** counters.reset(): every count back to zero, the budgets kept. */
  function Reset(c: Counters): (r: Counters)
    ensures SameTotals(c, r)
    ensures r.platformCount == r.tubesCount == r.gapsCount == r.cannonsCount == 0
    ensures r.deadEndsCount == r.blocksCount == r.coinsCount == r.hiddenBlocksCount == r.creatures == 0
  {
    c.(platformCount := 0, tubesCount := 0, gapsCount := 0, cannonsCount := 0, deadEndsCount := 0,
       blocksCount := 0, coinsCount := 0, hiddenBlocksCount := 0, creatures := 0)
  }

  predicate SameTotals(a: Counters, b: Counters) {
    a.totalHillStraight == b.totalHillStraight && a.totalTubes == b.totalTubes
    && a.totalGaps == b.totalGaps && a.totalCannons == b.totalCannons
    && a.totalDeadEnds == b.totalDeadEnds && a.totalBlocks == b.totalBlocks
    && a.totalCoins == b.totalCoins && a.totalHiddenBlocks == b.totalHiddenBlocks
  }

  /** How the counters may evolve: budgets fixed, counts never decrease, and the four gated
      counts (platforms, gaps, dead-ends, blocks) never climb past their budget (or past their
      old value, if that was already beyond it). */
  predicate Grows(a: Counters, b: Counters) {
    SameTotals(a, b)
    && a.platformCount <= b.platformCount <= Max(a.platformCount, a.totalHillStraight)
    && a.gapsCount <= b.gapsCount <= Max(a.gapsCount, a.totalGaps)
    && a.deadEndsCount <= b.deadEndsCount <= Max(a.deadEndsCount, a.totalDeadEnds)
    && a.blocksCount <= b.blocksCount <= Max(a.blocksCount, a.totalBlocks)
    && a.tubesCount <= b.tubesCount && a.cannonsCount <= b.cannonsCount
    && a.coinsCount <= b.coinsCount && a.hiddenBlocksCount <= b.hiddenBlocksCount
    && a.creatures <= b.creatures
  }

  /** Only the decoration counts (blocks, coins, hidden blocks) differ. */
  predicate DecorOnly(a: Counters, b: Counters) {
    b == a.(blocksCount := b.blocksCount, coinsCount := b.coinsCount,
            hiddenBlocksCount := b.hiddenBlocksCount)
  }

  lemma GrowsTrans(a: Counters, b: Counters, c: Counters)
    requires Grows(a, b) && Grows(b, c)
    ensures Grows(a, c)
  {
  }

  lemma DecorOnlyTrans(a: Counters, b: Counters, c: Counters)
    requires DecorOnly(a, b) && DecorOnly(b, c)
    ensures DecorOnly(a, c)
  {
  }

  /** Only the decoration and creature counts differ. */
  predicate Furnishes(a: Counters, b: Counters) {
    b == a.(blocksCount := b.blocksCount, coinsCount := b.coinsCount,
            hiddenBlocksCount := b.hiddenBlocksCount, creatures := b.creatures)
  }

  /** A block-data value the generator writes: a multi-coin question block's coin count
      (1..9), negated. */
  predicate CoinData(v: int) {
    -9 <= v <= -1
  }

  /** The tile a platform slab leaves on a cell holding t: an empty cell gets a platform
      tile (left, middle or right column of the sheet; top row on the slab's top line), the
      top corners of an earlier slab become join tiles, anything else is kept. */
  function SlabTile(t: int, x: int, y: int, xx0: int, l: int, top: int): (r: int)
    ensures t != EMPTY && t != PLATFORM_TOP_LEFT && t != PLATFORM_TOP_RIGHT ==> r == t
    ensures t == EMPTY ==> 4 <= r % 16 <= 6 && (r / 16 == 8 <==> y == top) && 8 <= r / 16 <= 9
    ensures t == PLATFORM_TOP_LEFT ==> r == PLATFORM_JOIN_LEFT
    ensures t == PLATFORM_TOP_RIGHT ==> r == PLATFORM_JOIN_RIGHT
  {
    if t == EMPTY then
      (if x == xx0 + l - 1 then 6 else if x == xx0 then 4 else 5) + (if y == top then 8 else 9) * 16
    else if t == PLATFORM_TOP_LEFT then PLATFORM_JOIN_LEFT
    else if t == PLATFORM_TOP_RIGHT then PLATFORM_JOIN_RIGHT
    else t
  }

  /** Whether a stair block of buildGap sits at (x, y): on the left bank the stairs climb one
      row per column towards the gap, on the right bank they descend one row per column away
      from it, starting one row lower. */
  predicate StairAt(x: int, y: int, xo: int, length: int, gs: int, floor: int, fh: int) {
    if x < xo + gs then floor - (x - xo) + 1 <= y <= floor + fh
    else floor - ((xo + length) - x) + 2 <= y <= floor + fh
  }

  /** The gate of buildZone: whether a zone of this kind may be built on this floor. */
  predicate Admitted(kind: int, floor: int, c: Counters) {
    if kind == ODDS_STRAIGHT then true
    else if kind == ODDS_PLATFORMS then floor == DEFAULT_FLOOR && c.platformCount < c.totalHillStraight
    else if kind == ODDS_TUBES then c.tubesCount < c.totalTubes
    else if kind == ODDS_GAPS then (floor > 2 || floor == ANY_HEIGHT) && c.gapsCount < c.totalGaps
    else if kind == ODDS_CANNONS then c.cannonsCount < c.totalCannons
    else if kind == ODDS_DEAD_ENDS then floor == DEFAULT_FLOOR && c.deadEndsCount < c.totalDeadEnds
    else false
  }

  class LevelGenerator {
    const length: int
    const height: int
    const levelType: int
    const difficulty: int
    const isFlat: bool
    const isLadder: bool
    /** Whether the creature generator enables flowers ("f"). */
    const flowersEnabled: bool
    /** The exit position from the options; 0 means "use the default". */
    const exitOption: (int, int)
    /** The budgets the counters are reset to. */
    const budget: Counters
    /** The level stream (java.util.Random) and the creature generator's stream. */
    const draws: seq<int>
    const creatureDraws: seq<int>

    const odds: array<int>
    const tiles: array2<int>
    const data: array2<int>
    const sprites: array2<Template>

    var totalOdds: int
    var pos: nat
    var cpos: nat
    var counters: Counters
    var xExit: int
    var yExit: int

    ghost predicate Valid() {
      length >= 1 && height >= MIN_HEIGHT && difficulty >= 0 && odds.Length == 6
      && tiles.Length0 == length && tiles.Length1 == height
      && data.Length0 == length && data.Length1 == height
      && sprites.Length0 == length && sprites.Length1 == height
      && tiles != data
    }

    /** (x, y) is a tile of the level. */
    predicate InLevel(x: int, y: int) {
      0 <= x < length && 0 <= y < height
    }

    /** A freshly allocated level: no tiles, no data, no sprite templates. */
    ghost predicate Blank()
      requires Valid()
      reads tiles, data, sprites
    {
      (forall x, y :: 0 <= x < length && 0 <= y < height ==> tiles[x, y] == EMPTY)
      && (forall x, y :: 0 <= x < length && 0 <= y < height ==> data[x, y] == 0)
      && (forall x, y :: 0 <= x < length && 0 <= y < height ==> sprites[x, y] == NoTemplate)
    }

    /** Reads the options and allocates the level; a height below 15 is raised to 15. */
    constructor (levelLength: int, levelHeight: int, levelType: int, difficulty: int,
                 isFlat: bool, isLadder: bool, flowersEnabled: bool, exitOption: (int, int),
                 budget: Counters, draws: seq<int>, creatureDraws: seq<int>)
      requires levelLength >= 1 && difficulty >= 0
      ensures Valid() && Blank()
      ensures length == levelLength
      ensures height == if levelHeight < MIN_HEIGHT then MIN_HEIGHT else levelHeight
      ensures this.levelType == levelType && this.difficulty == difficulty
      ensures this.isFlat == isFlat && this.isLadder == isLadder && this.budget == budget
      ensures this.draws == draws && this.creatureDraws == creatureDraws
    {
      var h := if levelHeight < MIN_HEIGHT then MIN_HEIGHT else levelHeight;
      this.length := levelLength;
      this.height := h;
      this.levelType := levelType;
      this.difficulty := difficulty;
      this.isFlat := isFlat;
      this.isLadder := isLadder;
      this.flowersEnabled := flowersEnabled;
      this.exitOption := exitOption;
      this.budget := budget;
      this.draws := draws;
      this.creatureDraws := creatureDraws;
      this.odds := new int[6];
      this.tiles := new int[levelLength, h]((x, y) => EMPTY);
      this.data := new int[levelLength, h]((x, y) => 0);
      this.sprites := new Template[levelLength, h]((x, y) => NoTemplate);
      this.counters := Reset(budget);
    }

    // ---------------------------------------------------------------- draw oracle

    /** Draws left in the level stream. */
    function Remaining(): nat
      reads this`pos
    {
      if pos < |draws| then |draws| - pos else 0
    }

    /** random.nextInt(n): a value in [0, n); the stream must be given a positive bound. */
    method NextInt(n: int) returns (r: int)
      requires n > 0
      modifies this`pos
      ensures 0 <= r < n
      ensures old(pos) < |draws| ==> pos == old(pos) + 1 && r == draws[old(pos)] % n
      ensures old(pos) >= |draws| ==> pos == old(pos) && r == 0
    {
      if pos < |draws| {
        r := draws[pos] % n;
        pos := pos + 1;
      } else {
        r := 0;
      }
    }

    /** random.nextInt() with its value discarded. */
    method SkipInt()
      modifies this`pos
      ensures old(pos) < |draws| ==> pos == old(pos) + 1
      ensures old(pos) >= |draws| ==> pos == old(pos)
    {
      if pos < |draws| {
        pos := pos + 1;
      }
    }

    method NextBoolean() returns (b: bool)
      modifies this`pos
      ensures pos >= old(pos)
    {
      var r := NextInt(2);
      b := r == 1;
    }

    /** The next value of the creature generator's stream. */
    method CreatureDraw() returns (v: int)
      modifies this`cpos
      ensures old(cpos) < |creatureDraws| ==> cpos == old(cpos) + 1 && v == creatureDraws[old(cpos)]
      ensures old(cpos) >= |creatureDraws| ==> cpos == old(cpos) && v == 0
    {
      if cpos < |creatureDraws| {
        v := creatureDraws[cpos];
        cpos := cpos + 1;
      } else {
        v := 0;
      }
    }

    // ---------------------------------------------------------------- level accessors

    /** getBlock: x clamped into the level, 0 above the top row, the bottom row below it. */
    function GetBlock(x: int, y: int): int
      requires Valid()
      reads tiles
    {
      if y < 0 then 0
      else tiles[Clip(x, length - 1), if y >= height then height - 1 else y]
    }

    /** getBlockCapped: both coordinates clamped into the level. */
    function GetBlockCapped(x: int, y: int): int
      requires Valid()
      reads tiles
    {
      tiles[Clip(x, length - 1), Clip(y, height - 1)]
    }

    function GetSpriteTemplate(x: int, y: int): Template
      requires Valid()
      reads sprites
    {
      if 0 <= x < length && 0 <= y < height then sprites[x, y] else NoTemplate
    }

    /** setBlock: writes inside the level, ignores coordinates outside it. */
    method SetBlock(x: int, y: int, b: int)
      requires Valid()
      modifies tiles
      ensures forall i, j :: 0 <= i < length && 0 <= j < height ==>
        tiles[i, j] == if i == x && j == y then b else old(tiles[i, j])
    {
      if 0 <= x < length && 0 <= y < height {
        tiles[x, y] := b;
      }
    }

    method SetBlockData(x: int, y: int, b: int)
      requires Valid()
      modifies data
      ensures forall i, j :: 0 <= i < length && 0 <= j < height ==>
        data[i, j] == if i == x && j == y then b else old(data[i, j])
    {
      if 0 <= x < length && 0 <= y < height {
        data[x, y] := b;
      }
    }

    /** setSpriteTemplate: stores the template and reports success inside the level. */
    method SetSpriteTemplate(x: int, y: int, t: Template) returns (ok: bool)
      requires Valid()
      modifies sprites
      ensures ok <==> 0 <= x < length && 0 <= y < height
      ensures forall i, j :: 0 <= i < length && 0 <= j < height ==>
        sprites[i, j] == if i == x && j == y then t else old(sprites[i, j])
    {
      ok := 0 <= x < length && 0 <= y < height;
      if ok {
        sprites[x, y] := t;
      }
    }

    /** The tiles as a value, column by column. */
    ghost function Grid(): (g: seq<seq<int>>)
      requires Valid()
      reads tiles
      ensures IsGrid(g, length, height)
      ensures forall x, y :: 0 <= x < length && 0 <= y < height ==> g[x][y] == tiles[x, y]
    {
      seq(length, x reads tiles requires 0 <= x < length =>
        seq(height, y reads tiles requires 0 <= y < height => tiles[x, y]))
    }

    // ---------------------------------------------------------------- zone odds

    /** The odds table and its total are those of the zone distribution for this level. */
    ghost predicate OddsReady()
      reads this`totalOdds, odds
    {
      odds.Length == 6
      && odds[..] == Cumulative(RawWeights(difficulty, levelType))
      && totalOdds == TotalOdds(RawWeights(difficulty, levelType))
    }

    /** The raw weights of the six zone kinds; platforms only on overground levels. */
    method FillWeights()
      requires Valid()
      modifies odds
      ensures odds[..] == RawWeights(difficulty, levelType)
    {
      odds[ODDS_STRAIGHT] := 20;
      odds[ODDS_PLATFORMS] := 1;
      odds[ODDS_TUBES] := 2 + 1 * difficulty;
      odds[ODDS_GAPS] := 2 + 2 * difficulty;
      odds[ODDS_CANNONS] := -10 + 5 * difficulty;
      odds[ODDS_DEAD_ENDS] := 2 + 2 * difficulty;
      if levelType != TYPE_OVERGROUND {
        odds[ODDS_PLATFORMS] := 0;
      }
      assert odds[..] == RawWeights(difficulty, levelType) by {
        var rw := RawWeights(difficulty, levelType);
        forall k | 0 <= k < 6
          ensures odds[..][k] == rw[k]
        {
        }
      }
    }

    /** Fills the raw weights, then turns them in place into the cumulative table: each entry
        becomes the sum of the clamped weights before it, and totalOdds the sum of all. */
    method BuildOdds()
      requires Valid()
      modifies odds, this`totalOdds
      ensures OddsReady() && totalOdds >= 20
    {
      FillWeights();
      ghost var ws := odds[..];
      totalOdds := 0;
      var i := 0;
      while i < odds.Length
        invariant 0 <= i <= 6
        invariant totalOdds == SumClamped(ws[..i])
        invariant forall k :: 0 <= k < i ==> odds[k] == SumClamped(ws[..k])
        invariant forall k :: i <= k < 6 ==> odds[k] == ws[k]
      {
        if odds[i] < 0 {
          odds[i] := 0;
        }
        totalOdds := totalOdds + odds[i];
        odds[i] := totalOdds - odds[i];
        assert ws[..i + 1][..i] == ws[..i];
        i := i + 1;
      }
      assert ws[..6] == ws;
      assert odds[..] == Cumulative(ws) by {
        forall k | 0 <= k < 6
          ensures odds[..][k] == Cumulative(ws)[k]
        {
        }
      }
      if totalOdds <= 0 {
        totalOdds := 1;
      }
      GeneratorTotalAtLeast20(difficulty, levelType);
    }

    /** The lookup of buildZone: the last kind whose table entry does not exceed t. With the
        level's table and t in [0, totalOdds), t lies in the chosen kind's bucket. */
    method PickZone(t: int) returns (kind: nat)
      requires Valid()
      ensures kind == Pick(odds[..], t) && kind < 6
      ensures OddsReady() && 0 <= t < totalOdds ==>
        var ws := RawWeights(difficulty, levelType);
        Cumulative(ws)[kind] <= t < Cumulative(ws)[kind] + Clamp(ws[kind])
    {
      kind := 0;
      var i := 0;
      while i < odds.Length
        invariant 0 <= i <= odds.Length
        invariant kind == Pick(odds[..i], t) && kind < 6
      {
        if odds[i] <= t {
          kind := i;
        }
        assert odds[..i + 1][..i] == odds[..i];
        i := i + 1;
      }
      assert odds[..odds.Length] == odds[..];
      if OddsReady() && 0 <= t < totalOdds {
        GeneratorTotalAtLeast20(difficulty, levelType);
        PickSelectsBucket(RawWeights(difficulty, levelType), t);
      }
    }

    // ---------------------------------------------------------------- creatures

    /** addEnemy: if the creature generator allows one, place its next creature at (x, y). */
    method AddEnemy(x: int, y: int)
      requires Valid()
      modifies this`cpos, this`counters, sprites
      ensures cpos >= old(cpos)
      ensures counters == old(counters).(creatures := counters.creatures)
      ensures old(counters.creatures) <= counters.creatures <= old(counters.creatures) + 1
      ensures counters.creatures > old(counters.creatures) ==>
        0 <= x < length && 0 <= y < height && sprites[x, y].Creature?
      ensures forall i, j :: 0 <= i < length && 0 <= j < height && (i != x || j != y) ==>
        sprites[i, j] == old(sprites[i, j])
    {
      var canAdd := CreatureDraw();
      if canAdd % 2 != 1 {
        return;
      }
      var creatureKind := CreatureDraw();
      if creatureKind != KIND_UNDEF {
        var ok := SetSpriteTemplate(x, y, Creature(creatureKind));
        if ok {
          counters := counters.(creatures := counters.creatures + 1);
        }
      }
    }

    /** The creature pass of buildZone over column x, from row height up to row 1: at most
        difficulty + 1 creatures, only on empty tiles without a template. */
    method ScatterCreatures(x: int)
      requires Valid()
      modifies this`pos, this`cpos, this`counters, sprites
      ensures pos >= old(pos) && cpos >= old(cpos)
      ensures counters == old(counters).(creatures := counters.creatures)
      ensures old(counters.creatures) <= counters.creatures <= old(counters.creatures) + difficulty + 1
      ensures forall i, j :: 0 <= i < length && 0 <= j < height && i != x ==>
        sprites[i, j] == old(sprites[i, j])
    {
      var crCount := 0;
      var yy := height;
      while yy > 0
        invariant 0 <= yy <= height
        invariant 0 <= crCount <= difficulty + 1
        invariant pos >= old(pos) && cpos >= old(cpos)
        invariant counters == old(counters).(creatures := counters.creatures)
        invariant old(counters.creatures) <= counters.creatures <= old(counters.creatures) + crCount
        invariant forall i, j :: 0 <= i < length && 0 <= j < height && i != x ==>
          sprites[i, j] == old(sprites[i, j])
      {
        if GetBlock(x, yy) == 0 {
          var r := NextInt(difficulty + 1);
          if r + 1 > (difficulty + 1) / 2 && crCount < difficulty + 1
            && GetSpriteTemplate(x, yy) == NoTemplate
          {
            AddEnemy(x, yy);
            crCount := crCount + 1;
          }
        }
        yy := yy - 1;
      }
    }

    // ---------------------------------------------------------------- small builders

    /** buildCeiling: sections of 2 or 3 columns and 1 to 3 rows of ground from row 0, until
        the covered span reaches length. Each section is capped against the whole length, not
        the remaining one, so the span can end up to 2 columns past x0 + length. */
    method BuildCeiling(x0: int, length: int) returns (ghost covered: int)
      requires Valid()
      modifies this`pos, tiles
      ensures pos >= old(pos)
      ensures length < 2 ==> covered == 0 && pos == old(pos)
      ensures length >= 2 ==> length <= covered <= length + 2
      ensures forall x, y :: 0 <= x < this.length && 0 <= y < height && x0 <= x < x0 + covered && y == 0 ==>
        tiles[x, y] == GROUND
      ensures forall x, y :: 0 <= x < this.length && 0 <= y < height && tiles[x, y] != old(tiles[x, y]) ==>
        x0 <= x < x0 + covered && y < 3 && tiles[x, y] == GROUND
    {
      var maxCeilingHeight := 3;
      var ceilingLength := length;
      covered := 0;
      if ceilingLength < 2 {
        return;
      }
      var len := 0;
      while len < ceilingLength
        invariant 0 <= len <= ceilingLength + 2
        invariant pos >= old(pos)
        invariant forall x, y :: 0 <= x < this.length && 0 <= y < height && x0 <= x < x0 + len && y == 0 ==>
          tiles[x, y] == GROUND
        invariant forall x, y :: 0 <= x < this.length && 0 <= y < height && tiles[x, y] != old(tiles[x, y]) ==>
          x0 <= x < x0 + len && y < 3 && tiles[x, y] == GROUND
      {
        var r := NextInt(2);
        var sectionLength := r + 2;
        if sectionLength > ceilingLength {
          sectionLength := ceilingLength;
        }
        var h := NextInt(maxCeilingHeight);
        h := h + 1;
        var i := 0;
        while i < sectionLength
          invariant 0 <= i <= sectionLength
          invariant pos >= old(pos)
          invariant forall x, y :: 0 <= x < this.length && 0 <= y < height && x0 <= x < x0 + len + i && y == 0 ==>
            tiles[x, y] == GROUND
          invariant forall x, y :: 0 <= x < this.length && 0 <= y < height && tiles[x, y] != old(tiles[x, y]) ==>
            x0 <= x < x0 + len + i && y < 3 && tiles[x, y] == GROUND
        {
          var j := 0;
          while j < h
            invariant 0 <= j <= h <= 3
            invariant pos >= old(pos)
            invariant forall x, y :: 0 <= x < this.length && 0 <= y < height && x0 <= x < x0 + len + i && y == 0 ==>
              tiles[x, y] == GROUND
            invariant j > 0 && 0 <= x0 + len + i < this.length ==> tiles[x0 + len + i, 0] == GROUND
            invariant forall x, y :: 0 <= x < this.length && 0 <= y < height && tiles[x, y] != old(tiles[x, y]) ==>
              x0 <= x < x0 + len + i + 1 && y < 3 && tiles[x, y] == GROUND
          {
            SetBlock(x0 + len + i, j, GROUND);
            j := j + 1;
          }
          i := i + 1;
        }
        len := len + sectionLength;
      }
      covered := len;
    }

    /** buildLadder: a ladder of random height (capped by maxHeight unless that is ANY_HEIGHT)
        in column x0 standing on row floor; nothing is built below height 4. */
    method BuildLadder(x0: int, floor: int, maxHeight: int) returns (ghost ladderHeight: int)
      requires Valid()
      modifies this`pos, tiles
      ensures pos >= old(pos)
      ensures ladderHeight < height
      ensures maxHeight != ANY_HEIGHT ==> ladderHeight <= maxHeight
      ensures forall x, y :: 0 <= x < length && 0 <= y < height ==>
        tiles[x, y] == if ladderHeight >= 4 && x == x0 && floor - ladderHeight < y < floor then LADDER
                       else if ladderHeight >= 4 && x == x0 && y == floor - ladderHeight then LADDER_TOP
                       else old(tiles[x, y])
    {
      var lh := NextInt(height);
      if lh > maxHeight && maxHeight != ANY_HEIGHT {
        lh := maxHeight;
      }
      ladderHeight := lh;
      if lh < 4 {
        return;
      }
      var y, i := floor, 0;
      while i < lh - 1
        invariant 0 <= i <= lh - 1 && y == floor - i
        invariant pos >= old(pos)
        invariant forall a, b :: 0 <= a < length && 0 <= b < height ==>
          tiles[a, b] == if a == x0 && floor - i <= b < floor then LADDER else old(tiles[a, b])
      {
        SetBlock(x0, y - 1, LADDER);
        y, i := y - 1, i + 1;
      }
      SetBlock(x0, floor - lh, LADDER_TOP);
    }

    /** buildCoins: with probability 1/4, a row of coins two rows above the line, inside the
        span shrunk by s and e, only into empty tiles, stopping once the coin budget is met. */
    method BuildCoins(x0: int, x1: int, floor: int, s: int, e: int)
      requires Valid()
      modifies this`pos, this`counters, tiles
      ensures pos >= old(pos)
      ensures counters == old(counters).(coinsCount := counters.coinsCount)
      ensures old(counters.coinsCount) <= counters.coinsCount <= Max(old(counters.coinsCount), counters.totalCoins)
      ensures forall x, y :: 0 <= x < length && 0 <= y < height && tiles[x, y] != old(tiles[x, y]) ==>
        y == floor - 2 && x0 + 1 + s <= x < x1 - 1 - e && old(tiles[x, y]) == EMPTY && tiles[x, y] == COIN
    {
      if floor - 2 < 0 {
        return;
      }
      var r := NextInt(4);
      if r > 0 {
        return;
      }
      if (x1 - 1 - e) - (x0 + 1 + s) > 1 {
        var x := x0 + 1 + s;
        while x < x1 - 1 - e
          invariant x0 + 1 + s <= x <= x1 - 1 - e
          invariant pos >= old(pos)
          invariant counters == old(counters).(coinsCount := counters.coinsCount)
          invariant old(counters.coinsCount) <= counters.coinsCount <= Max(old(counters.coinsCount), counters.totalCoins)
          invariant forall a, b :: 0 <= a < length && 0 <= b < height && tiles[a, b] != old(tiles[a, b]) ==>
            b == floor - 2 && x0 + 1 + s <= a < x && old(tiles[a, b]) == EMPTY && tiles[a, b] == COIN
          decreases x1 - 1 - e - x
        {
          if counters.coinsCount >= counters.totalCoins {
            break;
          }
          if GetBlock(x, floor - 2) == 0 {
            counters := counters.(coinsCount := counters.coinsCount + 1);
            SetBlock(x, floor - 2, COIN);
          }
          x := x + 1;
        }
      }
    }

    /** canBuildBlocks: a hidden block may always be built, any other block only under the
        block budget. */
    function CanBuildBlocks(x0: int, floor: int, isHB: bool): (ok: bool)
      reads this`counters
      ensures ok <==> isHB || counters.blocksCount < counters.totalBlocks
    {
      !(counters.blocksCount >= counters.totalBlocks && !isHB)
    }

    /** A question block on the line: a power-up, a coin, or a multi-coin block holding
        1..9 coins (its count kept, negated, in the data layer). Only (x, floor) changes. */
    method QuestionBlock(x: int, floor: int)
      requires Valid()
      modifies this`pos, this`counters, tiles, data
      ensures pos >= old(pos)
      ensures counters == old(counters).(coinsCount := counters.coinsCount)
      ensures old(counters.coinsCount) <= counters.coinsCount <= old(counters.coinsCount) + 9
      ensures forall a, b :: 0 <= a < length && 0 <= b < height && tiles[a, b] != old(tiles[a, b]) ==>
        a == x && b == floor && tiles[a, b] in {QUESTION_POWER_UP, QUESTION_COIN, QUESTION_COINS}
      ensures forall a, b :: 0 <= a < length && 0 <= b < height && data[a, b] != old(data[a, b]) ==>
        a == x && b == floor && tiles[a, b] == QUESTION_COINS
        && data[a, b] == old(counters.coinsCount) - counters.coinsCount <= -1
      ensures counters.coinsCount >= old(counters.coinsCount) + 2 && 0 <= x < length && 0 <= floor < height ==>
        tiles[x, floor] == QUESTION_COINS && data[x, floor] == old(counters.coinsCount) - counters.coinsCount
    {
      var rnd := NextInt(6);
      if rnd >= 0 && rnd < 2 {
        if GetBlock(x, floor) == 0 {
          SetBlock(x, floor, QUESTION_POWER_UP);
        }
      } else if rnd >= 2 && rnd < 4 {
        if GetBlock(x, floor) == 0 {
          SetBlock(x, floor, QUESTION_COIN);
          counters := counters.(coinsCount := counters.coinsCount + 1);
        }
      } else if rnd >= 4 && rnd < 6 {
        var coinsNumber := NextInt(9);
        coinsNumber := coinsNumber + 1;
        SetBlock(x, floor, QUESTION_COINS);
        SetBlockData(x, floor, -coinsNumber);
        counters := counters.(coinsCount := counters.coinsCount + coinsNumber);
      }
    }

    /** A brick on the line: a power-up brick (1 in 4) or a coin brick, only into an empty
        tile. Only (x, floor) changes. */
    method BrickBlock(x: int, floor: int)
      requires Valid()
      modifies this`pos, this`counters, tiles
      ensures pos >= old(pos)
      ensures counters == old(counters).(coinsCount := counters.coinsCount)
      ensures old(counters.coinsCount) <= counters.coinsCount <= old(counters.coinsCount) + 1
      ensures forall a, b :: 0 <= a < length && 0 <= b < height && tiles[a, b] != old(tiles[a, b]) ==>
        a == x && b == floor && old(tiles[a, b]) == EMPTY && tiles[a, b] in {BRICK_POWER_UP, BRICK_COIN}
    {
      var p := NextInt(4);
      if p == 0 {
        if GetBlock(x, floor) == 0 {
          SetBlock(x, floor, BRICK_POWER_UP);
        }
      } else {
        if GetBlock(x, floor) == 0 {
          SetBlock(x, floor, BRICK_COIN);
          counters := counters.(coinsCount := counters.coinsCount + 1);
        }
      }
    }

    /** One column of a block line of buildBlocks: a hidden block four rows above the line, or
        a question block or brick on the line, possibly followed by a row of coins. */
    method BlockColumn(x: int, x0: int, x1: int, floor: int, s: int, e: int, hb: bool)
      requires Valid()
      requires x0 <= x < x1 && 0 <= s && 0 <= e
      modifies this`pos, this`counters, tiles, data
      ensures pos >= old(pos)
      ensures Grows(old(counters), counters) && DecorOnly(old(counters), counters)
      ensures forall a, b :: 0 <= a < length && 0 <= b < height && tiles[a, b] != old(tiles[a, b]) ==>
        x0 <= a < x1 && b <= floor
      ensures forall a, b :: 0 <= a < length && 0 <= b < height && data[a, b] != old(data[a, b]) ==>
        a == x && b == floor && tiles[a, b] == QUESTION_COINS && -9 <= data[a, b] <= -1
    {
      if hb && counters.totalHiddenBlocks != 0 {
        HiddenBlock(x, floor);
        return;
      }
      var canDeco := VisibleBlock(x, x0, x1, floor);
      if canDeco {
        ghost var mid := counters;
        BuildCoins(x0, x1, floor, s, e);
        GrowsTrans(old(counters), mid, counters);
      }
    }

    /** The hidden-block case of a block line: at random, a hidden block four rows above the
        line, counted as a hidden block and a coin and not against the block budget. */
    method HiddenBlock(x: int, floor: int)
      requires Valid()
      modifies this`pos, this`counters, tiles
      ensures pos >= old(pos)
      ensures counters == old(counters) || counters == old(counters).(
        hiddenBlocksCount := old(counters.hiddenBlocksCount) + 1, coinsCount := old(counters.coinsCount) + 1)
      ensures forall a, b :: 0 <= a < length && 0 <= b < height && tiles[a, b] != old(tiles[a, b]) ==>
        a == x && b == floor - 4
    {
      var r := NextInt(2);
      var isBlock := r == 1;
      if isBlock && CanBuildBlocks(x, floor - 4, true) {
        SetBlock(x, floor - 4, HIDDEN_BLOCK);
        counters := counters.(hiddenBlocksCount := counters.hiddenBlocksCount + 1);
        counters := counters.(coinsCount := counters.coinsCount + 1);
      }
    }

    /** The visible case of a block line: a question block (1 in 3 away from the edges), a
        brick with contents (1 in 4) or a plain brick (1 in 2), each only while the block
        count is below its budget. The result tells whether a block was counted, after which
        coins may follow. */
    method VisibleBlock(x: int, x0: int, x1: int, floor: int) returns (canDeco: bool)
      requires Valid()
      modifies this`pos, this`counters, tiles, data
      ensures pos >= old(pos)
      ensures Grows(old(counters), counters) && DecorOnly(old(counters), counters)
      ensures forall a, b :: 0 <= a < length && 0 <= b < height && tiles[a, b] != old(tiles[a, b]) ==>
        a == x && b == floor
      ensures forall a, b :: 0 <= a < length && 0 <= b < height && data[a, b] != old(data[a, b]) ==>
        a == x && b == floor && tiles[a, b] == QUESTION_COINS && -9 <= data[a, b] <= -1
    {
      canDeco := false;
      var edge := x == x0 + 1 || x == x1 - 2;
      var r3 := 1;
      if !edge {
        r3 := NextInt(3);
      }
      if !edge && r3 == 0 {
        if CanBuildBlocks(x, floor - 4, false) {
          counters := counters.(blocksCount := counters.blocksCount + 1);
          QuestionBlock(x, floor);
          canDeco := true;
        }
      } else {
        var r4 := NextInt(4);
        if r4 == 0 {
          if CanBuildBlocks(x, floor - 4, false) {
            counters := counters.(blocksCount := counters.blocksCount + 1);
            BrickBlock(x, floor);
            canDeco := true;
          }
        } else {
          var r2 := NextInt(2);
          if r2 == 1 && CanBuildBlocks(x, floor - 4, false) {
            if GetBlock(x, floor) == 0 {
              counters := counters.(blocksCount := counters.blocksCount + 1);
              SetBlock(x, floor, BRICK);
              canDeco := true;
            }
          }
        }
      }
    }

    /** buildBlocks: block lines from one row above the line upwards, every 4 rows (or 3 to 8
        rows at random), each line over the span shrunk by s and e. The result tells whether
        some gap between lines exceeded 4. Blocks stay within the block budget; hidden blocks
        are not budgeted. Nothing is written on or below the line, nor outside [x0, x1). */
    method BuildBlocks(x0: int, x1: int, floor: int, pHB: bool, pS: int, pE: int,
                       onlyHB: bool, isDistance: bool) returns (result: bool)
      requires Valid()
      requires pS >= 0 && pE >= 0
      modifies this`pos, this`counters, tiles, data
      ensures pos >= old(pos)
      ensures Grows(old(counters), counters) && DecorOnly(old(counters), counters)
      ensures old(counters.blocksCount) > old(counters.totalBlocks) ==>
        !result && counters == old(counters) && pos == old(pos)
      ensures forall x, y :: 0 <= x < length && 0 <= y < height && tiles[x, y] != old(tiles[x, y]) ==>
        x0 <= x < x1 && y < floor
      ensures forall x, y :: 0 <= x < length && 0 <= y < height && data[x, y] != old(data[x, y]) ==>
        x0 <= x < x1 && y < floor && -9 <= data[x, y] <= -1
    {
      result := false;
      if counters.blocksCount > counters.totalBlocks {
        return;
      }
      var s, e, hb := pS, pE, pHB;
      if onlyHB {
        hb := onlyHB;
      }
      var fl := floor - 1;
      while fl > 0
        invariant fl < floor && s >= 0 && e >= 0
        invariant pos >= old(pos)
        invariant Grows(old(counters), counters) && DecorOnly(old(counters), counters)
        invariant forall x, y :: 0 <= x < length && 0 <= y < height && tiles[x, y] != old(tiles[x, y]) ==>
          x0 <= x < x1 && y < floor
        invariant forall x, y :: 0 <= x < length && 0 <= y < height && data[x, y] != old(data[x, y]) ==>
          x0 <= x < x1 && y < floor && -9 <= data[x, y] <= -1
        decreases fl
      {
        if (x1 - 1 - e) - (x0 + 1 + s) > 0 {
          var x := x0 + s;
          while x < x1 - e
            invariant x0 <= x
            invariant pos >= old(pos)
            invariant Grows(old(counters), counters) && DecorOnly(old(counters), counters)
            invariant forall a, b :: 0 <= a < length && 0 <= b < height && tiles[a, b] != old(tiles[a, b]) ==>
              x0 <= a < x1 && b < floor
            invariant forall a, b :: 0 <= a < length && 0 <= b < height && data[a, b] != old(data[a, b]) ==>
              x0 <= a < x1 && b < floor && -9 <= data[a, b] <= -1
            decreases x1 - e - x
          {
            BlockColumn(x, x0, x1, fl, s, e, hb);
            x := x + 1;
          }
          if onlyHB {
            hb := true;
          } else {
            var r := NextInt(4);
            hb := r == 0;
          }
        }
        var delta := 4;
        if !isDistance {
          delta := NextInt(6);
          delta := delta + 3;
        }
        if delta > 4 {
          result := true;
        }
        fl := fl - delta;
        s := NextInt(4);
        e := NextInt(4);
      }
      var _ := NextBoolean();
    }

    /** decorate: coins and block lines above a span, then perhaps a ladder at one of its
        ends. Only rows above the line and columns x0..x1, both ends included, change. */
    method Decorate(x0: int, x1: int, floor: int)
      requires Valid()
      modifies this`pos, this`counters, tiles, data
      ensures pos >= old(pos)
      ensures Grows(old(counters), counters) && DecorOnly(old(counters), counters)
      ensures floor < 1 ==> pos == old(pos) && counters == old(counters)
      ensures forall x, y :: 0 <= x < length && 0 <= y < height && tiles[x, y] != old(tiles[x, y]) ==>
        (x == x0 || x0 < x < x1 || x == x1) && y < floor
      ensures forall x, y :: 0 <= x < length && 0 <= y < height && data[x, y] != old(data[x, y]) ==>
        x0 <= x < x1 && y < floor && -9 <= data[x, y] <= -1
    {
      if floor < 1 {
        return;
      }
      var s := NextInt(4);
      var e := NextInt(4);
      var r := NextInt(difficulty + 1);
      // the source compares r % (difficulty + 1) with 0.5
      var hb := r % (difficulty + 1) >= 1;
      if floor - 2 > 0 && !hb {
        BuildCoins(x0, x1, floor, s, e);
      }
      ghost var c1 := counters;
      var buildLadder := BuildBlocks(x0, x1, floor, hb, s, e, false, false);
      GrowsTrans(old(counters), c1, counters);
      DecorOnlyTrans(old(counters), c1, counters);
      if buildLadder && isLadder {
        var r3 := NextInt(3);
        if r3 == 0 {
          var left := NextBoolean();
          var lh := BuildLadder(if left then x0 else x1, floor, ANY_HEIGHT);
        }
      }
    }

    /** Plain ground over columns [xa, xb) and rows [ya, yb), column by column. */
    method FillGround(xa: int, xb: int, ya: int, yb: int)
      requires Valid()
      modifies tiles
      ensures forall a, b :: 0 <= a < length && 0 <= b < height ==>
        tiles[a, b] == if xa <= a < xb && ya <= b < yb then GROUND else old(tiles[a, b])
    {
      var x := xa;
      while x < xb
        invariant xa <= x && (x <= xb || x == xa)
        invariant forall a, b :: 0 <= a < length && 0 <= b < height ==>
          tiles[a, b] == if xa <= a < x && ya <= b < yb then GROUND else old(tiles[a, b])
        decreases xb - x
      {
        var y := ya;
        while y < yb
          invariant ya <= y && (y <= yb || y == ya)
          invariant forall a, b :: 0 <= a < length && 0 <= b < height ==>
            tiles[a, b] == if (xa <= a < x && ya <= b < yb) || (a == x && ya <= b < y) then GROUND
                           else old(tiles[a, b])
          decreases yb - y
        {
          SetBlock(x, y, GROUND);
          y := y + 1;
        }
        x := x + 1;
      }
    }

    /** buildStraight: a flat stretch of ground. With a finite floorHeight (the top half of a
        dead-end) it spans maxLength and is floorHeight rows deep; otherwise it spans 2..9
        columns (10..14 when safe), capped by maxLength, down to the bottom of the level.
        Unsafe stretches longer than 5 are decorated above the ground. */
    method BuildStraight(xo: int, maxLength: int, safe: bool, vfloor: int, floorHeight: int)
      returns (length: int, ghost drawn: int, ghost floor: int)
      requires Valid()
      modifies this`pos, this`counters, tiles, data
      ensures pos >= old(pos)
      ensures Grows(old(counters), counters) && DecorOnly(old(counters), counters)
      ensures floorHeight != INFINITE_FLOOR_HEIGHT ==> length == maxLength
      ensures floorHeight == INFINITE_FLOOR_HEIGHT ==>
        length == Min(drawn, maxLength) && if safe then 10 <= drawn <= 14 else 2 <= drawn <= 9
      ensures floorHeight == INFINITE_FLOOR_HEIGHT && old(Remaining()) == 0 ==>
        drawn == if safe then 10 else 2
      ensures vfloor != DEFAULT_FLOOR ==> floor == vfloor
      ensures vfloor == DEFAULT_FLOOR ==> this.height - 4 <= floor <= this.height - 1
      ensures forall x, y :: InLevel(x, y) && xo <= x < xo + length && floor <= y &&
                              (floorHeight == INFINITE_FLOOR_HEIGHT || y < floor + floorHeight) ==>
        tiles[x, y] == GROUND
      ensures forall x, y :: 0 <= x < this.length && 0 <= y < this.height && tiles[x, y] != old(tiles[x, y]) ==>
        xo <= x <= xo + length
      ensures forall x, y :: InLevel(x, y) && data[x, y] != old(data[x, y]) ==> CoinData(data[x, y])
    {
      if floorHeight != INFINITE_FLOOR_HEIGHT {
        length := maxLength;
        drawn := maxLength;
      } else {
        length := NextInt(8);
        length := length + 2;
        if safe {
          length := NextInt(5);
          length := 10 + length;
        }
        drawn := length;
        if length > maxLength {
          length := maxLength;
        }
      }
      var fl := vfloor;
      if vfloor == DEFAULT_FLOOR {
        var r := NextInt(4);
        fl := height - 1 - r;
      }
      floor := fl;
      var y1 := height;
      if floorHeight != INFINITE_FLOOR_HEIGHT {
        y1 := fl + floorHeight;
      }
      FillGround(xo, xo + length, fl, y1);
      if !safe {
        if length > 5 {
          Decorate(xo, xo + length, fl);
        }
      }
    }

    /** One slab of buildPlatform: columns [xx0, xx0 + l), rows [top, floor). */
    method PlatformSlab(xx0: int, l: int, top: int, floor: int)
      requires Valid()
      modifies tiles
      ensures forall a, b :: 0 <= a < length && 0 <= b < height ==>
        tiles[a, b] == if xx0 <= a < xx0 + l && top <= b < floor
                       then SlabTile(old(tiles[a, b]), a, b, xx0, l, top) else old(tiles[a, b])
    {
      var x := xx0;
      while x < xx0 + l
        invariant xx0 <= x && (x <= xx0 + l || x == xx0)
        invariant forall a, b :: 0 <= a < length && 0 <= b < height ==>
          tiles[a, b] == if xx0 <= a < x && top <= b < floor
                         then SlabTile(old(tiles[a, b]), a, b, xx0, l, top) else old(tiles[a, b])
        decreases xx0 + l - x
      {
        var y := top;
        while y < floor
          invariant top <= y && (y <= floor || y == top)
          invariant forall a, b :: 0 <= a < length && 0 <= b < height ==>
            tiles[a, b] == if (xx0 <= a < x && top <= b < floor) || (a == x && top <= b < y)
                           then SlabTile(old(tiles[a, b]), a, b, xx0, l, top) else old(tiles[a, b])
          decreases floor - y
        {
          var xx := 5;
          if x == xx0 {
            xx := 4;
          }
          if x == xx0 + l - 1 {
            xx := 6;
          }
          var yy := 9;
          if y == top {
            yy := 8;
          }
          // the source tests the two corner tiles one after the other; a join tile written
          // by the first test never matches the second
          var cur := GetBlock(x, y);
          if cur == 0 {
            SetBlock(x, y, xx + yy * 16);
          } else if cur == PLATFORM_TOP_LEFT {
            SetBlock(x, y, PLATFORM_JOIN_LEFT);
          } else if cur == PLATFORM_TOP_RIGHT {
            SetBlock(x, y, PLATFORM_JOIN_RIGHT);
          }
          y := y + 1;
        }
        x := x + 1;
      }
    }

    /** One level of buildPlatform's stack at row top: a slab of 1..length/2 columns at a
        random offset, decorated with probability 1/4 (which ends the stack), and an enemy
        on top of it. Plain ground from row fl down is kept. */
    method PlatformLevel(x0: int, length: int, top: int, bottom: int, fl: int) returns (decorated: bool)
      requires Valid()
      requires length >= 2 && 0 <= top <= fl
      modifies this`pos, this`cpos, this`counters, tiles, data, sprites
      ensures pos >= old(pos) && cpos >= old(cpos)
      ensures !decorated ==> Remaining() < old(Remaining())
      ensures Grows(old(counters), counters) && Furnishes(old(counters), counters)
      ensures forall x, y :: InLevel(x, y) && fl <= y && old(tiles[x, y]) == GROUND ==> tiles[x, y] == GROUND
      ensures forall x, y :: InLevel(x, y) && tiles[x, y] != old(tiles[x, y]) ==> x0 - 1 <= x <= x0 + length + 1
      ensures forall x, y :: InLevel(x, y) && data[x, y] != old(data[x, y]) ==> CoinData(data[x, y])
    {
      var l := NextInt(length / 2);
      l := l + 1;
      var xx0 := NextInt(l + 1);
      xx0 := xx0 + x0;
      var r4 := NextInt(4);
      decorated := r4 == 0;
      if decorated {
        Decorate(xx0 - 1, xx0 + l + 1, top);
      }
      PlatformSlab(xx0, l, top, bottom);
      AddEnemy(xx0, top - 1);
    }

    /** buildPlatform: 10..19 columns (capped by maxLength), optionally on a stretch of
        ground, with a stack of slabs climbing 2 or 3 rows at a time (not at all on flat
        levels) until the top of the level or until a slab is decorated. Plain ground on or
        below the floor is never disturbed. */
    method BuildPlatform(x0: int, withStraight: bool, maxLength: int, vfloor: int, isInGap: bool)
      returns (length: int, ghost drawn: int, ghost floor: int)
      requires Valid()
      requires maxLength >= 2
      modifies this`pos, this`cpos, this`counters, tiles, data, sprites
      ensures pos >= old(pos) && cpos >= old(cpos)
      ensures Grows(old(counters), counters) && Furnishes(old(counters), counters)
      ensures 10 <= drawn <= 19 && length == Min(drawn, maxLength)
      ensures old(Remaining()) == 0 ==> drawn == 10
      ensures vfloor != DEFAULT_FLOOR ==> floor == vfloor
      ensures vfloor == DEFAULT_FLOOR ==> this.height - 4 <= floor <= this.height - 1
      ensures withStraight ==>
        forall x, y :: InLevel(x, y) && x0 <= x < x0 + length && floor <= y ==> tiles[x, y] == GROUND
      ensures forall x, y :: InLevel(x, y) && floor <= y && old(tiles[x, y]) == GROUND ==> tiles[x, y] == GROUND
      ensures forall x, y :: InLevel(x, y) && tiles[x, y] != old(tiles[x, y]) ==> x0 - 1 <= x <= x0 + length + 1
      ensures forall x, y :: InLevel(x, y) && data[x, y] != old(data[x, y]) ==> CoinData(data[x, y])
    {
      var d := NextInt(10);
      length := d + 10;
      drawn := length;
      if length > maxLength {
        length := maxLength;
      }
      var fl := vfloor;
      if vfloor == DEFAULT_FLOOR {
        var r := NextInt(4);
        fl := height - 1 - r;
      }
      floor := fl;
      if withStraight {
        // the source walks every row and sets only those on or below the floor
        FillGround(x0, x0 + length, fl, height);
      }
      var canBuild := true;
      var top := fl;
      var bottom := fl;
      if isInGap {
        bottom := height;
      }
      label Stack:
      while canBuild
        invariant forall x, y :: InLevel(x, y) && data[x, y] != old(data[x, y]) ==> CoinData(data[x, y])
        invariant top <= fl
        invariant pos >= old(pos) && cpos >= old(cpos)
        invariant Grows(old(counters), counters) && Furnishes(old(counters), counters)
        invariant forall x, y :: InLevel(x, y) && fl <= y && old@Stack(tiles[x, y]) == GROUND ==> tiles[x, y] == GROUND
        invariant forall x, y :: InLevel(x, y) && tiles[x, y] != old(tiles[x, y]) ==> x0 - 1 <= x <= x0 + length + 1
        decreases Remaining(), if canBuild then 1 else 0
      {
        var step := 0;
        if !isFlat {
          step := NextInt(2);
          step := step + 2;
        }
        top := top - step;
        if top < 0 {
          canBuild := false;
        } else {
          ghost var c0 := counters;
          var decorated := PlatformLevel(x0, length, top, bottom, fl);
          GrowsTrans(old(counters), c0, counters);
          canBuild := !decorated;
        }
      }
    }

    /** The depth of the ground under a zone: a finite floorHeight as given, otherwise down to
        the bottom of the level. */
    function FloorDepth(floor: int, floorHeight: int): int {
      if floorHeight == INFINITE_FLOOR_HEIGHT then height - floor else floorHeight
    }

    /** One column of a tube zone: ground from the floor down, and the tube (top tile at row th,
        body below it) when x is the tube's left or right column. A tube top drawn in the
        left column counts one tube. */
    method TubeColumn(x: int, xTube: int, th: int, floor: int, fh: int, oldXTube: int) returns (newOld: int)
      requires Valid()
      modifies this`cpos, this`counters, tiles
      ensures cpos >= old(cpos)
      ensures counters == old(counters).(tubesCount := old(counters.tubesCount) +
        if x == xTube && 0 <= th < floor && th < floor + fh then 1 else 0)
      ensures forall a, b :: InLevel(a, b) ==>
        tiles[a, b] == if a == x && b < floor + fh && floor <= b then GROUND
                       else if a == x && b < floor + fh && (x == xTube || x == xTube + 1) && th <= b
                       then (if b == th then 10 + x - xTube else 26 + x - xTube)
                       else old(tiles[a, b])
    {
      newOld := oldXTube;
      var y := 0;
      while y < floor + fh
        invariant 0 <= y && (y <= floor + fh || y == 0)
        invariant cpos >= old(cpos)
        invariant counters == old(counters).(tubesCount := old(counters.tubesCount) +
          if x == xTube && 0 <= th < floor && th < y then 1 else 0)
        invariant forall a, b :: InLevel(a, b) ==>
          tiles[a, b] == if a == x && b < y && floor <= b then GROUND
                         else if a == x && b < y && (x == xTube || x == xTube + 1) && th <= b
                         then (if b == th then 10 + x - xTube else 26 + x - xTube)
                         else old(tiles[a, b])
        decreases floor + fh - y
      {
        if y >= floor && y <= floor + fh {
          SetBlock(x, y, GROUND);
        } else if (x == xTube || x == xTube + 1) && y >= th {
          var xPic := 10 + x - xTube;
          if y == th {
            SetBlock(x, y, xPic + 0 * 16);
            if x == xTube {
              if newOld != -1 {
                // creaturesRandom.nextInt(35) is drawn and its use is commented out
                var _ := CreatureDraw();
              }
              newOld := x;
              counters := counters.(tubesCount := counters.tubesCount + 1);
            }
          } else {
            SetBlock(x, y, xPic + 1 * 16);
          }
        }
        y := y + 1;
      }
    }

    /** The next tube of buildTubes: 3..6 columns further, its top 2 or 3 rows above the
        floor, lowered to at most maxHeight - 1 rows when maxHeight is given; the running
        maximum of the tops is kept. */
    method NextTube(xTube: int, floor: int, maxHeight: int, maxTubeHeight: int)
      returns (xTube': int, th: int, maxTubeHeight': int)
      modifies this`pos
      ensures pos >= old(pos)
      ensures xTube + 3 <= xTube' <= xTube + 6
      ensures floor - 3 <= th
      ensures maxHeight == ANY_HEIGHT ==> th <= floor - 2
      ensures maxHeight != ANY_HEIGHT ==>
        floor - th <= maxHeight - 1 && (th <= floor - 2 || floor - th == maxHeight - 1)
      ensures maxTubeHeight' == Max(maxTubeHeight, th)
    {
      var r := NextInt(4);
      xTube' := xTube + 3 + r;
      r := NextInt(2);
      th := floor - r - 2;
      if maxHeight != ANY_HEIGHT {
        while floor - th > maxHeight - 1
          invariant floor - 3 <= th && (th <= floor - 2 || floor - th >= maxHeight - 1)
          decreases floor - th - maxHeight + 1
        {
          th := th + 1;
        }
      }
      maxTubeHeight' := maxTubeHeight;
      if th > maxTubeHeight {
        maxTubeHeight' := th;
      }
    }

    /** A piranha flower on top of a tube: drawn with probability (difficulty + 1) / 7 and
        only when the creature generator enables flowers; it is counted as a creature even
        when it falls outside the level. */
    method PlaceFlower(x: int, th: int)
      requires Valid()
      modifies this`pos, this`counters, sprites
      ensures pos >= old(pos)
      ensures counters == old(counters).(creatures := counters.creatures)
      ensures old(counters.creatures) <= counters.creatures <= old(counters.creatures) + 1
      ensures !flowersEnabled ==> counters.creatures == old(counters.creatures)
      ensures forall a, b :: InLevel(a, b) ==>
        sprites[a, b] == if a == x && b == th && counters.creatures > old(counters.creatures)
                         then EnemyFlower else old(sprites[a, b])
    {
      var r7 := NextInt(7);
      if r7 < difficulty + 1 && flowersEnabled {
        var _ := SetSpriteTemplate(x, th, EnemyFlower);
        counters := counters.(creatures := counters.creatures + 1);
        assert forall a, b :: InLevel(a, b) ==>
          sprites[a, b] == if a == x && b == th then EnemyFlower else old(sprites[a, b]);
      }
    }

    /** The column loop of buildTubes over [xo, xo + length): ground from row fl (fh rows
        deep), tubes and their flowers. Returns the running maximum of the later tube tops. */
    method TubeRun(xo: int, length: int, fl: int, fh: int, mh: int, xTube0: int, th0: int)
      returns (maxTubeHeight: int)
      requires Valid()
      modifies this`pos, this`cpos, this`counters, tiles, sprites
      ensures maxTubeHeight >= 0
      ensures pos >= old(pos) && cpos >= old(cpos)
      ensures counters == old(counters).(tubesCount := counters.tubesCount, creatures := counters.creatures)
      ensures old(counters.tubesCount) <= counters.tubesCount
      ensures old(counters.creatures) <= counters.creatures
      ensures !flowersEnabled ==> counters.creatures == old(counters.creatures)
      ensures forall a, b :: InLevel(a, b) && xo <= a < xo + length && fl <= b < fl + fh ==> tiles[a, b] == GROUND
      ensures forall a, b :: InLevel(a, b) && tiles[a, b] != old(tiles[a, b]) ==> xo <= a < xo + length
      ensures forall a, b :: InLevel(a, b) && sprites[a, b] != old(sprites[a, b]) ==>
        xo <= a < xo + length && sprites[a, b] == EnemyFlower
    {
      maxTubeHeight := 0;
      var xTube, th := xTube0, th0;
      var oldXTube := -1;
      var x := xo;
      while x < xo + length
        invariant xo <= x && (x <= xo + length || x == xo)
        invariant maxTubeHeight >= 0
        invariant pos >= old(pos) && cpos >= old(cpos)
        invariant counters == old(counters).(tubesCount := counters.tubesCount, creatures := counters.creatures)
        invariant old(counters.tubesCount) <= counters.tubesCount
        invariant old(counters.creatures) <= counters.creatures
        invariant !flowersEnabled ==> counters.creatures == old(counters.creatures)
        invariant forall a, b :: InLevel(a, b) && xo <= a < x && fl <= b < fl + fh ==> tiles[a, b] == GROUND
        invariant forall a, b :: InLevel(a, b) && tiles[a, b] != old(tiles[a, b]) ==> xo <= a < x
        invariant forall a, b :: InLevel(a, b) && sprites[a, b] != old(sprites[a, b]) ==>
          xo <= a < x && sprites[a, b] == EnemyFlower
        decreases xo + length - x
      {
        if x > xTube + 1 {
          xTube, th, maxTubeHeight := NextTube(xTube, fl, mh, maxTubeHeight);
        }
        if xTube >= xo + length - 2 {
          xTube := xTube + 10;
        }
        if x == xTube {
          PlaceFlower(x, th);
        }
        oldXTube := TubeColumn(x, xTube, th, fl, fh, oldXTube);
        x := x + 1;
      }
    }

    /** The draws that open buildTubes: the zone length, the floor, the first tube's column
        and top, the top lowered until it is within the height limit (itself capped at 4). */
    method TubeStart(xo: int, maxLength: int, maxHeight: int, vfloor: int)
      returns (length: int, drawn: int, fl: int, xTube: int, th: int, mh: int)
      requires Valid()
      modifies this`pos
      ensures pos >= old(pos)
      ensures 5 <= drawn <= 14 && length == Min(drawn, maxLength)
      ensures old(Remaining()) == 0 ==> drawn == 5
      ensures vfloor != DEFAULT_FLOOR ==> fl == vfloor
      ensures vfloor == DEFAULT_FLOOR ==> height - 4 <= fl <= height - 1
    {
      var d := NextInt(10);
      length := d + 5;
      drawn := length;
      if length > maxLength {
        length := maxLength;
      }
      fl := vfloor;
      if vfloor == DEFAULT_FLOOR {
        var r := NextInt(4);
        fl := height - 1 - r;
      } else {
        SkipInt();
      }
      xTube := NextInt(4);
      xTube := xo + 1 + xTube;
      th := NextInt(3);
      th := fl - th - 1;
      mh := maxHeight;
      if mh != ANY_HEIGHT {
        if fl - th > mh {
          if mh > 4 {
            mh := 4;
          }
          while fl - th > mh
            decreases fl - th - mh
          {
            th := th + 1;
          }
        }
      }
    }

    /** buildTubes: 5..14 columns (capped by maxLength) of ground with tubes 3..6 columns
        apart; tube tops are capped by maxHeight. A tube may carry a piranha flower when the
        creature generator enables flowers. Blocks may follow above the tubes. */
    method BuildTubes(xo: int, maxLength: int, maxHeight: int, vfloor: int, floorHeight: int)
      returns (length: int, ghost drawn: int, ghost floor: int)
      requires Valid()
      modifies this`pos, this`cpos, this`counters, tiles, data, sprites
      ensures pos >= old(pos) && cpos >= old(cpos)
      ensures Grows(old(counters), counters)
      ensures counters == old(counters).(tubesCount := counters.tubesCount, creatures := counters.creatures,
        blocksCount := counters.blocksCount, coinsCount := counters.coinsCount,
        hiddenBlocksCount := counters.hiddenBlocksCount)
      ensures 5 <= drawn <= 14 && length == Min(drawn, maxLength)
      ensures old(Remaining()) == 0 ==> drawn == 5
      ensures vfloor != DEFAULT_FLOOR ==> floor == vfloor
      ensures vfloor == DEFAULT_FLOOR ==> height - 4 <= floor <= height - 1
      ensures forall x, y ::
        InLevel(x, y) && xo <= x < xo + length && floor <= y < floor + FloorDepth(floor, floorHeight) ==>
          tiles[x, y] == GROUND
      ensures forall x, y :: InLevel(x, y) && tiles[x, y] != old(tiles[x, y]) ==> xo <= x < xo + length
      ensures forall x, y :: InLevel(x, y) && sprites[x, y] != old(sprites[x, y]) ==>
        xo <= x < xo + length && sprites[x, y] == EnemyFlower
      ensures !flowersEnabled ==> counters.creatures == old(counters.creatures)
      ensures forall x, y :: InLevel(x, y) && data[x, y] != old(data[x, y]) ==> CoinData(data[x, y])
    {
      var fl, xTube, th, mh;
      length, drawn, fl, xTube, th, mh := TubeStart(xo, maxLength, maxHeight, vfloor);
      floor := fl;
      var fh := FloorDepth(fl, floorHeight);
      var maxTubeHeight := TubeRun(xo, length, fl, fh, mh, xTube, th);
      ghost var c1 := counters;
      var withBlocks := NextBoolean();
      if withBlocks {
        var _ := BuildBlocks(xo, xo + length, fl - maxTubeHeight - 2, false, 0, 0, false, false);
      }
      assert Grows(old(counters), c1);
      GrowsTrans(old(counters), c1, counters);
    }

    /** One column of a cannon zone: ground from the floor (inclusive of row floor + fh), and,
        while the cannon count is within its budget, the cannon in its column: barrel at row
        ch, base below it, pole down to the floor. */
    method CannonColumn(x: int, xCannon: int, ch: int, floor: int, fh: int, oldXCannon: int)
      returns (newOld: int)
      requires Valid()
      modifies this`cpos, tiles
      ensures cpos >= old(cpos)
      ensures forall a, b :: InLevel(a, b) ==>
        tiles[a, b] == if a == x && floor <= b <= floor + fh then GROUND
                       else if a == x && counters.cannonsCount <= counters.totalCannons && x == xCannon && ch <= b <= floor
                       then (if b == ch then CANNON_BARREL else if b == ch + 1 then CANNON_BASE else CANNON_POLE)
                       else old(tiles[a, b])
    {
      newOld := oldXCannon;
      var y := 0;
      while y < height
        invariant 0 <= y <= height
        invariant cpos >= old(cpos)
        invariant forall a, b :: InLevel(a, b) ==>
          tiles[a, b] == if a == x && b < y && floor <= b <= floor + fh then GROUND
                         else if a == x && b < y && counters.cannonsCount <= counters.totalCannons && x == xCannon
                                 && ch <= b <= floor
                         then (if b == ch then CANNON_BARREL else if b == ch + 1 then CANNON_BASE else CANNON_POLE)
                         else old(tiles[a, b])
      {
        if y >= floor && y <= floor + fh {
          SetBlock(x, y, GROUND);
        } else if counters.cannonsCount <= counters.totalCannons {
          if x == xCannon && y >= ch && y <= floor {
            if y == ch {
              if newOld != -1 {
                // creaturesRandom.nextInt(35) is drawn and its use is commented out
                var _ := CreatureDraw();
              }
              newOld := x;
              SetBlock(x, y, CANNON_BARREL);
            } else if y == ch + 1 {
              SetBlock(x, y, CANNON_BASE);
            } else {
              SetBlock(x, y, CANNON_POLE);
            }
          }
        }
        y := y + 1;
      }
    }

    /** The top of one cannon: 1..3 rows above the floor, lowered so that it rises at most
        maxHeight rows (a maxHeight above 4 is first reduced to 4, and stays reduced). */
    method CannonTop(floor: int, maxHeight: int) returns (ch: int, maxHeight': int)
      modifies this`pos
      ensures pos >= old(pos)
      ensures floor - 3 <= ch
      ensures maxHeight == ANY_HEIGHT ==> maxHeight' == ANY_HEIGHT && ch <= floor - 1
      ensures maxHeight != ANY_HEIGHT ==>
        maxHeight' != ANY_HEIGHT && maxHeight' <= maxHeight && maxHeight' <= Max(maxHeight, 4) && floor - ch <= maxHeight'
    {
      var r := NextInt(3);
      ch := floor - r - 1;
      maxHeight' := maxHeight;
      if maxHeight' != ANY_HEIGHT {
        if floor - ch >= maxHeight' {
          if maxHeight' > 4 {
            maxHeight' := 4;
          }
          while floor - ch > maxHeight'
            invariant floor - 3 <= ch
            decreases floor - ch - maxHeight'
          {
            ch := ch + 1;
          }
        }
      }
    }

    /** The column loop of buildCannons over [xo, xo + length): a new cannon 2..5 columns
        after the last one (each counted), ground, and the cannons themselves. Returns the
        highest cannon top row seen when maxHeight is given (0 otherwise). */
    method CannonRun(xo: int, length: int, fl: int, fh: int, maxHeight: int, xCannon0: int)
      returns (maxCannonHeight: int)
      requires Valid()
      modifies this`pos, this`cpos, this`counters, tiles
      ensures maxCannonHeight >= 0
      ensures pos >= old(pos) && cpos >= old(cpos)
      ensures counters == old(counters).(cannonsCount := counters.cannonsCount)
      ensures old(counters.cannonsCount) <= counters.cannonsCount <= old(counters.cannonsCount) + Max(length, 0)
      ensures forall a, b :: InLevel(a, b) && xo <= a < xo + length && fl <= b <= fl + fh ==> tiles[a, b] == GROUND
      ensures forall a, b :: InLevel(a, b) && tiles[a, b] != old(tiles[a, b]) ==> xo <= a < xo + length
    {
      maxCannonHeight := 0;
      var mh := maxHeight;
      var oldXCannon := -1;
      var xCannon := xCannon0;
      var x := xo;
      while x < xo + length
        invariant xo <= x && (x <= xo + length || x == xo)
        invariant maxCannonHeight >= 0
        invariant pos >= old(pos) && cpos >= old(cpos)
        invariant counters == old(counters).(cannonsCount := counters.cannonsCount)
        invariant old(counters.cannonsCount) <= counters.cannonsCount <= old(counters.cannonsCount) + (x - xo)
        invariant forall a, b :: InLevel(a, b) && xo <= a < x && fl <= b <= fl + fh ==> tiles[a, b] == GROUND
        invariant forall a, b :: InLevel(a, b) && tiles[a, b] != old(tiles[a, b]) ==> xo <= a < x
        decreases xo + length - x
      {
        if x > xCannon {
          var r := NextInt(4);
          xCannon := xCannon + 2 + r;
          counters := counters.(cannonsCount := counters.cannonsCount + 1);
        }
        if xCannon == xo + length - 1 {
          xCannon := xCannon + 10;
        }
        var ch;
        ch, mh := CannonTop(fl, mh);
        if mh != ANY_HEIGHT {
          if ch > maxCannonHeight {
            maxCannonHeight := ch;
          }
        }
        oldXCannon := CannonColumn(x, xCannon, ch, fl, fh, oldXCannon);
        x := x + 1;
      }
    }

    /** The draws that open buildCannons: the zone length and the floor. */
    method CannonStart(maxLength: int, vfloor: int) returns (length: int, drawn: int, fl: int)
      requires Valid()
      modifies this`pos
      ensures pos >= old(pos)
      ensures 2 <= drawn <= 11 && length == Min(drawn, maxLength)
      ensures old(Remaining()) == 0 ==> drawn == 2
      ensures vfloor != DEFAULT_FLOOR ==> fl == vfloor
      ensures vfloor == DEFAULT_FLOOR ==> height - 4 <= fl <= height - 1
    {
      var d := NextInt(10);
      length := d + 2;
      drawn := length;
      if length > maxLength {
        length := maxLength;
      }
      fl := vfloor;
      if vfloor == DEFAULT_FLOOR {
        var r := NextInt(4);
        fl := height - 1 - r;
      } else {
        SkipInt();
      }
    }

    /** buildCannons: 2..11 columns (capped by maxLength) of ground with cannons; every new
        cannon is counted, and cannons are drawn only while the count is within its budget.
        Blocks may follow above the cannons. */
    method BuildCannons(xo: int, maxLength: int, maxHeight: int, vfloor: int, floorHeight: int)
      returns (length: int, ghost drawn: int, ghost floor: int)
      requires Valid()
      modifies this`pos, this`cpos, this`counters, tiles, data
      ensures pos >= old(pos) && cpos >= old(cpos)
      ensures Grows(old(counters), counters)
      ensures counters == old(counters).(cannonsCount := counters.cannonsCount,
        blocksCount := counters.blocksCount, coinsCount := counters.coinsCount,
        hiddenBlocksCount := counters.hiddenBlocksCount)
      ensures counters.cannonsCount <= old(counters.cannonsCount) + Max(length, 0)
      ensures 2 <= drawn <= 11 && length == Min(drawn, maxLength)
      ensures old(Remaining()) == 0 ==> drawn == 2
      ensures vfloor != DEFAULT_FLOOR ==> floor == vfloor
      ensures vfloor == DEFAULT_FLOOR ==> height - 4 <= floor <= height - 1
      ensures forall x, y ::
        InLevel(x, y) && xo <= x < xo + length && floor <= y <= floor + FloorDepth(floor, floorHeight) ==>
          tiles[x, y] == GROUND
      ensures forall x, y :: InLevel(x, y) && tiles[x, y] != old(tiles[x, y]) ==> xo <= x < xo + length
      ensures forall x, y :: InLevel(x, y) && data[x, y] != old(data[x, y]) ==> CoinData(data[x, y])
    {
      var fl;
      length, drawn, fl := CannonStart(maxLength, vfloor);
      floor := fl;
      var fh := FloorDepth(fl, floorHeight);
      var xCannon := NextInt(4);
      xCannon := xo + 1 + xCannon;
      var maxCannonHeight := CannonRun(xo, length, fl, fh, maxHeight, xCannon);
      ghost var c1 := counters;
      var withBlocks := NextBoolean();
      if withBlocks {
        var _ := BuildBlocks(xo, xo + length, fl - maxCannonHeight - 2, false, 0, 0, false, false);
      }
      assert Grows(old(counters), c1);
      GrowsTrans(old(counters), c1, counters);
    }

    /** One bank column of buildGap: ground from the floor (inclusive of row floor + fh) and,
        with stairs, stair blocks above it. */
    method GapColumn(x: int, xo: int, length: int, gs: int, floor: int, fh: int, hasStairs: bool)
      requires Valid()
      modifies tiles
      ensures forall a, b :: InLevel(a, b) ==>
        tiles[a, b] == if a == x && floor <= b <= floor + fh then GROUND
                       else if a == x && hasStairs && StairAt(x, b, xo, length, gs, floor, fh) then STAIR
                       else old(tiles[a, b])
    {
      var y := 0;
      while y < height
        invariant 0 <= y <= height
        invariant forall a, b :: InLevel(a, b) ==>
          tiles[a, b] == if a == x && b < y && floor <= b <= floor + fh then GROUND
                         else if a == x && b < y && hasStairs && StairAt(x, b, xo, length, gs, floor, fh) then STAIR
                         else old(tiles[a, b])
      {
        if y >= floor && y <= floor + fh {
          SetBlock(x, y, GROUND);
        } else if hasStairs {
          if x < xo + gs {
            if y >= floor - (x - xo) + 1 && y <= floor + fh {
              SetBlock(x, y, STAIR);
            }
          } else if y >= floor - ((xo + length) - x) + 2 && y <= floor + fh {
            SetBlock(x, y, STAIR);
          }
        }
        y := y + 1;
      }
    }

    /** buildGap: gs = 2..6 bank columns on each side of a hole of 3 columns (10 when the
        difficulty draw plus the difficulty exceeds 7), capped by maxLength; the banks may
        carry stairs (never on flat levels or under a low ceiling). A wide hole gets a
        3-column platform over it. */
    method BuildGap(xo: int, maxLength: int, maxHeight: int, vfloor: int, floorHeight: int)
      returns (length: int, ghost gs: int, ghost gl: int, ghost glDraw: int, ghost floor: int)
      requires Valid()
      modifies this`pos, this`cpos, this`counters, tiles, data, sprites
      ensures pos >= old(pos) && cpos >= old(cpos)
      ensures Grows(old(counters), counters) && Furnishes(old(counters), counters)
      ensures 2 <= gs <= 6 && (gl == 3 || gl == 10) && length == Min(2 * gs + gl, maxLength)
      ensures gs == 2 + if old(pos) < |draws| then draws[old(pos)] % 5 else 0
      ensures glDraw == if old(pos) + 1 < |draws| then draws[old(pos) + 1] % (difficulty + 1) else 0
      ensures 0 <= glDraw <= difficulty && gl == if glDraw + difficulty > 7 then 10 else 3
      ensures difficulty <= 3 ==> gl == 3
      ensures difficulty >= 8 ==> gl == 10
      ensures vfloor == DEFAULT_FLOOR && !isFlat ==> height - 4 <= floor <= height - 1
      ensures vfloor != DEFAULT_FLOOR || isFlat ==> floor == if vfloor + 1 > 1 then vfloor else vfloor + 1
      ensures gl <= 8 || floor != DEFAULT_FLOOR ==>
        forall x, y ::
          InLevel(x, y) && xo <= x < xo + length && (x < xo + gs || x > xo + length - gs - 1) &&
          floor <= y <= floor + FloorDepth(floor, floorHeight) ==>
            tiles[x, y] == GROUND
      ensures gl <= 8 ==> forall x, y :: InLevel(x, y) && tiles[x, y] != old(tiles[x, y]) ==>
        xo <= x < xo + length && (x < xo + gs || x > xo + length - gs - 1)
      ensures forall x, y :: InLevel(x, y) && tiles[x, y] != old(tiles[x, y]) ==>
        xo <= x && (x < xo + length || x <= xo + gs + 7)
      ensures forall x, y :: InLevel(x, y) && data[x, y] != old(data[x, y]) ==> CoinData(data[x, y])
    {
      var r := NextInt(5);
      var banks := r + 2;
      gs := banks;
      var d := NextInt(difficulty + 1);
      glDraw := d;
      var gapLength := if d + difficulty > 7 then 10 else 3;
      gl := gapLength;
      length := banks * 2 + gapLength;
      if length > maxLength {
        length := maxLength;
      }
      var r3 := NextInt(3);
      var hasStairs := r3 == 0;
      if isFlat || (maxHeight <= 5 && maxHeight != ANY_HEIGHT) {
        hasStairs := false;
      }
      var fl := vfloor;
      if vfloor == DEFAULT_FLOOR && !isFlat {
        r := NextInt(4);
        fl := height - 1 - r;
      } else {
        // kept as the source has it: a floor of 0 becomes 1, negative floors go up by one
        fl := fl + 1;
        if fl > 1 {
          fl := fl - 1;
        }
      }
      floor := fl;
      var fh := FloorDepth(fl, floorHeight);
      var x := xo;
      ghost var p0 := pos;
      while x < xo + length
        invariant forall x, y :: InLevel(x, y) && data[x, y] != old(data[x, y]) ==> CoinData(data[x, y])
        invariant xo <= x && (x <= xo + length || x == xo)
        invariant pos == p0 && cpos == old(cpos) && counters == old(counters)
        invariant forall a, b ::
          InLevel(a, b) && xo <= a < x && (a < xo + banks || a > xo + length - banks - 1) && fl <= b <= fl + fh ==>
            tiles[a, b] == GROUND
        invariant forall a, b :: InLevel(a, b) && tiles[a, b] != old(tiles[a, b]) ==>
          xo <= a < x && (a < xo + banks || a > xo + length - banks - 1)
        decreases xo + length - x
      {
        if x < xo + banks || x > xo + length - banks - 1 {
          GapColumn(x, xo, length, banks, fl, fh, hasStairs);
        }
        x := x + 1;
      }
      if gapLength > 8 {
        var r2 := NextInt((if gapLength - 4 < 0 then 4 - gapLength else gapLength - 4) / 2 + 1);
        var _, _, _ := BuildPlatform(xo + banks + r2, false, 3, fl, true);
      }
    }

    /** The switch of buildZone: builds a zone of the given kind when its gate admits it and
        counts it where the source counts it (platforms, gaps, dead-ends); an empty zone
        otherwise. */
    method BuildKind(zoneKind: int, x: int, maxLength: int, maxHeight: int, floor: int, floorHeight: int)
      returns (length: int)
      requires Valid() && OddsReady()
      requires maxLength >= 1
      requires floor == DEFAULT_FLOOR ==> maxLength >= 2
      modifies this`pos, this`cpos, this`counters, tiles, data, sprites
      decreases if floor == DEFAULT_FLOOR then 4 else 0
      ensures pos >= old(pos) && cpos >= old(cpos)
      ensures length >= 1 <==> Admitted(zoneKind, floor, old(counters))
      ensures length >= 0
      ensures length <= maxLength || (zoneKind == ODDS_DEAD_ENDS && floor == DEFAULT_FLOOR && length <= Max(maxLength, 14))
      ensures !Admitted(zoneKind, floor, old(counters)) ==>
        counters == old(counters) && pos == old(pos) && forall a, b :: InLevel(a, b) ==> tiles[a, b] == old(tiles[a, b])
      ensures Grows(old(counters), counters)
      ensures counters.platformCount ==
        old(counters.platformCount) + if zoneKind == ODDS_PLATFORMS && Admitted(zoneKind, floor, old(counters)) then 1 else 0
      ensures counters.deadEndsCount ==
        old(counters.deadEndsCount) + if zoneKind == ODDS_DEAD_ENDS && Admitted(zoneKind, floor, old(counters)) then 1 else 0
      ensures zoneKind != ODDS_DEAD_ENDS ==>
        counters.gapsCount ==
          old(counters.gapsCount) + if zoneKind == ODDS_GAPS && Admitted(zoneKind, floor, old(counters)) then 1 else 0
      ensures forall x, y :: InLevel(x, y) && data[x, y] != old(data[x, y]) ==> CoinData(data[x, y])
    {
      length := 0;
      if zoneKind == ODDS_STRAIGHT {
        var zl, _, _ := BuildStraight(x, maxLength, false, floor, floorHeight);
        length := zl;
      } else if zoneKind == ODDS_PLATFORMS {
        if floor == DEFAULT_FLOOR && counters.platformCount < counters.totalHillStraight {
          counters := counters.(platformCount := counters.platformCount + 1);
          ghost var c1 := counters;
          var zl, _, _ := BuildPlatform(x, true, maxLength, floor, false);
          length := zl;
          GrowsTrans(old(counters), c1, counters);
        }
      } else if zoneKind == ODDS_TUBES {
        if counters.tubesCount < counters.totalTubes {
          var zl, _, _ := BuildTubes(x, maxLength, maxHeight, floor, floorHeight);
          length := zl;
        }
      } else if zoneKind == ODDS_GAPS {
        if (floor > 2 || floor == ANY_HEIGHT) && counters.gapsCount < counters.totalGaps {
          counters := counters.(gapsCount := counters.gapsCount + 1);
          ghost var c1 := counters;
          var zl, _, _, _, _ := BuildGap(x, maxLength, maxHeight, floor, floorHeight);
          length := zl;
          GrowsTrans(old(counters), c1, counters);
        }
      } else if zoneKind == ODDS_CANNONS {
        if counters.cannonsCount < counters.totalCannons {
          var zl, _, _ := BuildCannons(x, maxLength, maxHeight, floor, floorHeight);
          length := zl;
        }
      } else if zoneKind == ODDS_DEAD_ENDS {
        if floor == DEFAULT_FLOOR && counters.deadEndsCount < counters.totalDeadEnds {
          counters := counters.(deadEndsCount := counters.deadEndsCount + 1);
          ghost var c1 := counters;
          var zl, _, _, _, _, _ := BuildDeadEnds(x, maxLength);
          length := zl;
          GrowsTrans(old(counters), c1, counters);
        }
      }
    }

    /** buildZone: draws a zone kind from the odds table and builds it if its gate admits it
        (otherwise the zone is empty), then scatters creatures over column x and, below
        ground, hangs a ceiling over the zone. Platforms and dead-ends are only admitted on
        the main floor, so the recursion through buildDeadEnds is one level deep. */
    method BuildZone(x: int, maxLength: int, maxHeight: int, floor: int, floorHeight: int)
      returns (length: int, ghost t: int, ghost kind: nat)
      requires Valid() && OddsReady()
      requires maxLength >= 1
      requires floor == DEFAULT_FLOOR ==> maxLength >= 2
      modifies this`pos, this`cpos, this`counters, tiles, data, sprites
      decreases if floor == DEFAULT_FLOOR then 5 else 1
      ensures pos >= old(pos) && cpos >= old(cpos)
      ensures old(Remaining()) > 0 ==> Remaining() < old(Remaining())
      ensures old(Remaining()) == 0 ==> kind == ODDS_STRAIGHT
      ensures 0 <= t < totalOdds && kind == Pick(odds[..], t)
      ensures length >= 1 <==> Admitted(kind, floor, old(counters))
      ensures length >= 0
      ensures length <= maxLength || (kind == ODDS_DEAD_ENDS && floor == DEFAULT_FLOOR && length <= Max(maxLength, 14))
      ensures !Admitted(kind, floor, old(counters)) ==>
        counters == old(counters).(creatures := counters.creatures) &&
        forall a, b :: InLevel(a, b) ==> tiles[a, b] == old(tiles[a, b])
      ensures Grows(old(counters), counters)
      ensures counters.platformCount ==
        old(counters.platformCount) + if kind == ODDS_PLATFORMS && Admitted(kind, floor, old(counters)) then 1 else 0
      ensures counters.deadEndsCount ==
        old(counters.deadEndsCount) + if kind == ODDS_DEAD_ENDS && Admitted(kind, floor, old(counters)) then 1 else 0
      ensures kind != ODDS_DEAD_ENDS ==>
        counters.gapsCount ==
          old(counters.gapsCount) + if kind == ODDS_GAPS && Admitted(kind, floor, old(counters)) then 1 else 0
      ensures forall x, y :: InLevel(x, y) && data[x, y] != old(data[x, y]) ==> CoinData(data[x, y])
    {
      GeneratorTotalAtLeast20(difficulty, levelType);
      var draw := NextInt(totalOdds);
      t := draw;
      var zoneKind := PickZone(draw);
      kind := zoneKind;
      if old(Remaining()) == 0 {
        ZeroDrawIsStraight(difficulty, levelType);
      }
      ghost var c0 := counters;
      length := BuildKind(zoneKind, x, maxLength, maxHeight, floor, floorHeight);
      ghost var c1 := counters;
      ScatterCreatures(x);
      GrowsTrans(c0, c1, counters);
      if levelType > 0 {
        var _ := BuildCeiling(x, length);
      }
    }

    /** The lead-in of buildDeadEnds: its floor (2 or 3 rows above the bottom), the separator
        line (3 to floor - 6), a safe straight of 7..14 columns and either a ladder up to the
        separator or a line of hidden blocks. */
    method DeadEndLead(x0: int) returns (lead: int, floor: int, separatorY: int)
      requires Valid()
      modifies this`pos, this`counters, tiles, data
      ensures pos >= old(pos)
      ensures Grows(old(counters), counters) && DecorOnly(old(counters), counters)
      ensures 7 <= lead <= 14
      ensures height - 3 <= floor <= height - 2
      ensures 3 <= separatorY <= floor - 6
      ensures forall x, y :: InLevel(x, y) && data[x, y] != old(data[x, y]) ==> CoinData(data[x, y])
    {
      var r := NextInt(2);
      floor := height - 2 - r;
      var pre := NextInt(10);
      pre := 7 + pre;
      var rHeight := floor - 1;
      separatorY := NextInt(rHeight - 7);
      separatorY := 3 + separatorY;
      var straight, _, _ := BuildStraight(x0, pre, true, floor, INFINITE_FLOOR_HEIGHT);
      lead := straight;
      ghost var c0 := counters;
      var r3 := NextInt(3);
      if r3 == 0 && isLadder {
        var lx := NextInt(lead - 1);
        var ladderX := x0 + lx + 1;
        if ladderX > x0 + lead {
          ladderX := x0 + lead;
        }
        var _ := BuildLadder(ladderX, floor, floor - separatorY);
      } else {
        var _ := BuildBlocks(x0, x0 + pre, floor, true, 0, 0, true, true);
      }
      GrowsTrans(old(counters), c0, counters);
      DecorOnlyTrans(old(counters), c0, counters);
    }

    /** One lane of a dead-end: zones from nx until depth columns are filled. Every zone fits
        the columns left (no dead-end or platform is admitted off the main floor), so the
        lane is exactly depth columns long. */
    method DeadEndLane(nx: int, depth: int, maxHeight: int, floor: int, floorHeight: int)
      returns (tLength: int)
      requires Valid() && OddsReady()
      requires floor != DEFAULT_FLOOR
      modifies this`pos, this`cpos, this`counters, tiles, data, sprites
      decreases 2
      ensures tLength == Max(depth, 0)
      ensures pos >= old(pos) && cpos >= old(cpos)
      ensures Grows(old(counters), counters)
      ensures counters.platformCount == old(counters.platformCount)
      ensures counters.deadEndsCount == old(counters.deadEndsCount)
      ensures forall x, y :: InLevel(x, y) && data[x, y] != old(data[x, y]) ==> CoinData(data[x, y])
    {
      tLength := 0;
      while tLength < depth
        invariant forall x, y :: InLevel(x, y) && data[x, y] != old(data[x, y]) ==> CoinData(data[x, y])
        invariant 0 <= tLength <= Max(depth, 0)
        invariant pos >= old(pos) && cpos >= old(cpos)
        invariant Grows(old(counters), counters)
        invariant counters.platformCount == old(counters.platformCount)
        invariant counters.deadEndsCount == old(counters.deadEndsCount)
        decreases Remaining(), depth - tLength
      {
        ghost var c := counters;
        var zl, _, _ := BuildZone(nx + tLength, depth - tLength, maxHeight, floor, floorHeight);
        GrowsTrans(old(counters), c, counters);
        tLength := tLength + zl;
      }
    }

    /** buildDeadEnds: a lead-in, then a stretch split by a separator into a top and a bottom
        lane, each filled with zones, closed by a wall of 2..4 columns above or below the
        separator. The lanes are (2 + 2 * difficulty) + 0..difficulty columns deep, cut to
        one column short of maxLength when they do not fit. */
    method BuildDeadEnds(x0: int, maxLength: int)
      returns (length: int, ghost lead: int, ghost depth0: int, ghost sepY: int, ghost wallFrom: int, ghost up: bool)
      requires Valid() && OddsReady()
      modifies this`pos, this`cpos, this`counters, tiles, data, sprites
      decreases 3
      ensures pos >= old(pos) && cpos >= old(cpos)
      ensures Grows(old(counters), counters)
      ensures counters.platformCount == old(counters.platformCount)
      ensures counters.deadEndsCount == old(counters.deadEndsCount)
      ensures 7 <= lead <= 14
      ensures 2 * (1 + difficulty) <= depth0 <= 3 * difficulty + 2
      ensures length == if lead + depth0 <= maxLength then lead + depth0 else Max(lead, maxLength - 1)
      ensures 3 <= sepY && x0 + lead <= wallFrom && x0 + length - 4 <= wallFrom
      ensures forall a, b :: InLevel(a, b) && wallFrom <= a < x0 + length && (if up then b <= sepY else sepY <= b) ==>
        tiles[a, b] == GROUND
      ensures forall x, y :: InLevel(x, y) && data[x, y] != old(data[x, y]) ==> CoinData(data[x, y])
    {
      var leadLength, floor, separatorY := DeadEndLead(x0);
      lead := leadLength;
      length := leadLength;
      SkipInt();
      var k := NextInt(5);
      var dr := NextInt(k + 1);
      var direction := dr != 1;
      up := direction;
      var separatorHeight := NextInt(2);
      separatorHeight := 2 + separatorHeight;
      var nx := x0 + length;
      var depth := NextInt(difficulty + 1);
      depth := depth + 2 * (1 + difficulty);
      depth0 := depth;
      if depth + length > maxLength {
        while depth + length > maxLength - 1
          invariant depth + length >= maxLength - 1
          decreases depth + length - maxLength + 1
        {
          depth := depth - 1;
        }
      }
      var bSpace := floor - (separatorY + separatorHeight);
      if bSpace < 4 {
        while bSpace < 4
          invariant bSpace == floor - (separatorY + separatorHeight) && separatorY >= 3 && bSpace >= 3
          decreases 4 - bSpace
        {
          separatorY := separatorY - 1;
          bSpace := floor - (separatorY + separatorHeight);
        }
      }
      sepY := separatorY;
      var ww := NextInt(3);
      var wallWidth := 2 + ww;
      ghost var c0 := counters;
      var top := DeadEndLane(nx, depth, separatorY - 1, separatorY, separatorHeight);
      ghost var c1 := counters;
      var bottom := DeadEndLane(nx, depth, bSpace, floor, INFINITE_FLOOR_HEIGHT);
      GrowsTrans(old(counters), c0, c1);
      GrowsTrans(old(counters), c1, counters);
      // the source walks every cell of the dead-end and tests both conditions; the wall is
      // always plain ground (its block variant is switched off by a constant)
      wallFrom := Max(nx, nx + depth - wallWidth);
      if direction {
        FillGround(Max(nx, nx + depth - wallWidth), nx + depth, 0, separatorY + 1);
      } else {
        FillGround(Max(nx, nx + depth - wallWidth), nx + depth, separatorY, height);
      }
      length := length + bottom;
    }

    // ---------------------------------------------------------------- exit, ceiling, walls

    /** Counts the plain-ground tiles among the four (x-1..x, y-1..y), reading with the capped
        accessor; four of them make the corner (x, y) solid. */
    method CountGround(x: int, y: int) returns (blocks: int)
      requires Valid()
      ensures 0 <= blocks <= 4
      ensures blocks == 4 <==> CornerSolid(Grid(), length, height, x, y)
      ensures blocks == 0 <==>
        GetBlockCapped(x - 1, y - 1) != GROUND && GetBlockCapped(x, y - 1) != GROUND
        && GetBlockCapped(x - 1, y) != GROUND && GetBlockCapped(x, y) != GROUND
    {
      blocks := 0;
      var xx := x - 1;
      while xx < x + 1
        invariant x - 1 <= xx <= x + 1
        invariant blocks == (if xx > x - 1 then Count2(x - 1, y) else 0) + (if xx > x then Count2(x, y) else 0)
      {
        var yy := y - 1;
        while yy < y + 1
          invariant y - 1 <= yy <= y + 1
          invariant blocks == (if xx > x - 1 then Count2(x - 1, y) else 0)
            + (if yy > y - 1 && GetBlockCapped(xx, y - 1) == GROUND then 1 else 0)
            + (if yy > y && GetBlockCapped(xx, y) == GROUND then 1 else 0)
        {
          if GetBlockCapped(xx, yy) == GROUND {
            blocks := blocks + 1;
          }
          yy := yy + 1;
        }
        xx := xx + 1;
      }
    }

    /** How many of the two tiles (x, y-1) and (x, y) are plain ground. */
    function Count2(x: int, y: int): (n: int)
      requires Valid()
      reads tiles
      ensures 0 <= n <= 2
      ensures n == 2 <==> GetBlockCapped(x, y - 1) == GROUND && GetBlockCapped(x, y) == GROUND
      ensures n == 0 <==> GetBlockCapped(x, y - 1) != GROUND && GetBlockCapped(x, y) != GROUND
    {
      (if GetBlockCapped(x, y - 1) == GROUND then 1 else 0) + (if GetBlockCapped(x, y) == GROUND then 1 else 0)
    }

    /** blockify over a (length+1)×(height+1) corner map: every tile of the level gets the
        sheet tile its clamped 2×2 sample classifies to (or keeps its value on an all-empty
        sample); the map's extra column and row address no tile and are ignored. */
    method Blockify(blocks: array2<bool>)
      requires Valid()
      requires blocks.Length0 == length + 1 && blocks.Length1 == height + 1
      modifies tiles
      ensures forall x, y :: InLevel(x, y) ==>
        tiles[x, y] == Apply(old(tiles[x, y]), Classify(MapSample(blocks, x, y), SheetOffset(levelType)))
    {
      var to := 0;
      if levelType == TYPE_CASTLE {
        to := 4 * 2;
      } else if levelType == TYPE_UNDERGROUND {
        to := 4 * 3;
      }
      var width, mapHeight := blocks.Length0, blocks.Length1;
      var x := 0;
      while x < width
        invariant 0 <= x <= width
        invariant forall a, b :: InLevel(a, b) ==>
          tiles[a, b] == if a < x then Apply(old(tiles[a, b]), Classify(MapSample(blocks, a, b), to))
                         else old(tiles[a, b])
      {
        var y := 0;
        while y < mapHeight
          invariant 0 <= y <= mapHeight
          invariant forall a, b :: InLevel(a, b) ==>
            tiles[a, b] == if a < x || (a == x && b < y) then Apply(old(tiles[a, b]), Classify(MapSample(blocks, a, b), to))
                           else old(tiles[a, b])
        {
          var s := MapSample(blocks, x, y);
          match Classify(s, to) {
            case Keep =>
            case Put(code) => SetBlock(x, y, code);
          }
          y := y + 1;
        }
        x := x + 1;
      }
    }

    /** fixWalls: builds the corner map of the current tiles, then autotiles them. The result is
        the autotiled grid of the tiles as they were. */
    method FixWalls()
      requires Valid()
      modifies tiles
      ensures forall x, y :: InLevel(x, y) ==>
        tiles[x, y] == Blockified(old(Grid()), length, height, SheetOffset(levelType), x, y)
    {
      ghost var g := Grid();
      var blockMap := new bool[length + 1, height + 1];
      var x := 0;
      while x < length + 1
        invariant 0 <= x <= length + 1
        invariant unchanged(tiles)
        invariant forall i, j :: 0 <= i < x && 0 <= j < height + 1 ==>
          blockMap[i, j] == CornerSolid(g, length, height, i, j)
      {
        var y := 0;
        while y < height + 1
          invariant 0 <= y <= height + 1
          invariant unchanged(tiles)
          invariant forall i, j :: 0 <= i < x && 0 <= j < height + 1 ==>
            blockMap[i, j] == CornerSolid(g, length, height, i, j)
          invariant forall j :: 0 <= j < y ==> blockMap[x, j] == CornerSolid(g, length, height, x, j)
        {
          var blocks := CountGround(x, y);
          blockMap[x, y] := blocks == 4;
          y := y + 1;
        }
        x := x + 1;
      }
      forall a, b | InLevel(a, b)
        ensures MapSample(blockMap, a, b) == SampleAt(g, length, height, a, b)
      {
      }
      Blockify(blockMap);
    }

    /** The ceiling pass of castle and underground levels. Ceiling heights in [0, 3] are drawn
        in runs of 4 to 7 columns from column 5 on, and each row the pass tests is written to
        row 0: every column x = 0 or x > 4 gets plain ground in row 0, whatever height was drawn,
        and no other row changes. */
    method FinalCeiling() returns (ghost ceilings: seq<int>)
      requires Valid()
      modifies this`pos, tiles
      ensures pos >= old(pos)
      ensures |ceilings| == length && forall x :: 0 <= x < length ==> 0 <= ceilings[x] <= 3
      ensures forall x, y :: InLevel(x, y) ==>
        tiles[x, y] == if y == 0 && CeilingCell(x, 0, ceilings[x]) then GROUND else old(tiles[x, y])
      ensures forall x :: 0 <= x < length && (x < 1 || x > 4) ==> tiles[x, 0] == GROUND
      ensures forall x, y :: InLevel(x, y) && y > 0 ==> tiles[x, y] == old(tiles[x, y])
    {
      ceilings := [];
      var ceiling, run := 0, 0;
      var x := 0;
      while x < length
        invariant 0 <= x <= length && |ceilings| == x && 0 <= ceiling <= 3
        invariant forall i :: 0 <= i < x ==> 0 <= ceilings[i] <= 3
        invariant pos >= old(pos)
        invariant forall a, b :: InLevel(a, b) ==>
          tiles[a, b] == if a < x && b == 0 && CeilingCell(a, 0, ceilings[a]) then GROUND else old(tiles[a, b])
      {
        var expired := run <= 0;
        run := run - 1;
        if expired && x > 4 {
          ceiling := NextInt(4);
          run := NextInt(4);
          run := run + 4;
        }
        ceilings := ceilings + [ceiling];
        var y := 0;
        while y < height
          invariant 0 <= y <= height && pos >= old(pos)
          invariant forall a, b :: InLevel(a, b) ==>
            tiles[a, b] ==
              if (a < x && b == 0 && CeilingCell(a, 0, ceilings[a])) || (a == x && b == 0 && y > 0 && CeilingCell(x, 0, ceiling))
              then GROUND else old(tiles[a, b])
        {
          if (x > 4 && y <= ceiling) || x < 1 {
            SetBlock(x, 0, GROUND);
          }
          y := y + 1;
        }
        x := x + 1;
      }
    }

    /** setPrincess: the goal sprite and the goal tile at (x, y). */
    method SetPrincess(x: int, y: int)
      requires Valid()
      modifies tiles, sprites
      ensures forall i, j :: InLevel(i, j) ==>
        tiles[i, j] == (if i == x && j == y then PRINCESS_TILE else old(tiles[i, j]))
        && sprites[i, j] == (if i == x && j == y then PrincessGoal else old(sprites[i, j]))
    {
      var _ := SetSpriteTemplate(x, y, PrincessGoal);
      SetBlock(x, y, PRINCESS_TILE);
    }

    /** The zone phase of createLevel: reseeds the level stream, lays the safe straight start
        (on a random floor, or on the flat floor drawn first), then builds zones with no height
        limit until fewer than ten columns are left. */
    method LayZones() returns (currentLength: int, floor: int, ghost firstFloor: int)
      requires Valid() && OddsReady()
      modifies this`pos, this`cpos, this`counters, tiles, data, sprites
      ensures Grows(old(counters), counters)
      ensures height - 4 <= firstFloor <= height - 1
      ensures floor == if isFlat then firstFloor else DEFAULT_FLOOR
      ensures currentLength >= length - 10
      ensures forall x, y :: InLevel(x, y) && data[x, y] != old(data[x, y]) ==> CoinData(data[x, y])
    {
      pos := 0;
      cpos := 0;
      floor := DEFAULT_FLOOR;
      if isFlat {
        floor := NextInt(4);
        floor := height - 1 - floor;
      }
      ghost var c0 := counters;
      var straight, _, f0 := BuildStraight(0, length, true, floor, INFINITE_FLOOR_HEIGHT);
      firstFloor := f0;
      currentLength := straight;
      while currentLength < length - 10
        invariant forall x, y :: InLevel(x, y) && data[x, y] != old(data[x, y]) ==> CoinData(data[x, y])
        invariant OddsReady() && Grows(c0, counters)
        decreases Remaining(), length - currentLength
      {
        ghost var c1 := counters;
        var zoneLength, _, _ := BuildZone(currentLength, length - currentLength, ANY_HEIGHT,
                                          floor, INFINITE_FLOOR_HEIGHT);
        GrowsTrans(c0, c1, counters);
        currentLength := currentLength + zoneLength;
      }
    }

    /** The exit phase of createLevel: the exit position (the options', or the last column
        and the row above the exit floor), ground from the exit floor down in the columns
        after the zones, and the ceiling pass of castle and underground levels. */
    method LayExit(currentLength: int, floor: int)
      requires Valid()
      modifies this`pos, this`xExit, this`yExit, tiles
      ensures xExit == (if exitOption.0 == 0 then length - 1 else exitOption.0)
      ensures yExit == (if exitOption.1 == 0 then floor - 1 else exitOption.1)
      ensures forall x, y :: InLevel(x, y) && currentLength <= x && floor <= y ==> tiles[x, y] == GROUND
      ensures levelType == TYPE_CASTLE || levelType == TYPE_UNDERGROUND ==>
        forall x :: 0 <= x < length && (x < 1 || x > 4) ==> tiles[x, 0] == GROUND
    {
      xExit := exitOption.0;
      yExit := exitOption.1;
      if xExit == 0 {
        xExit := length - 1;
      }
      if yExit == 0 {
        yExit := floor - 1;
      }
      FillGround(currentLength, length, floor, height);
      if levelType == TYPE_CASTLE || levelType == TYPE_UNDERGROUND {
        var _ := FinalCeiling();
      }
    }

    /** createLevel: resets the counters and the odds, builds the zones, fills the exit zone
        with ground from the exit floor down, adds the ceiling of castle and underground levels,
        autotiles the walls and places the goal at the exit. */
    method CreateLevel() returns (ghost firstFloor: int, ghost exitFloor: int, ghost tailFrom: int, ghost beforeWalls: seq<seq<int>>)
      requires Valid() && Blank()
      modifies this`pos, this`cpos, this`counters, this`totalOdds, this`xExit, this`yExit,
               odds, tiles, data, sprites
      ensures OddsReady() && Grows(Reset(budget), counters)
      ensures height - 4 <= exitFloor <= height - 1
      ensures isFlat ==> exitFloor == firstFloor
      ensures tailFrom >= length - 10
      ensures xExit == (if exitOption.0 == 0 then length - 1 else exitOption.0)
      ensures yExit == (if exitOption.1 == 0 then exitFloor - 1 else exitOption.1)
      ensures IsGrid(beforeWalls, length, height)
      ensures forall x, y :: InLevel(x, y) && tailFrom <= x && exitFloor <= y ==> beforeWalls[x][y] == GROUND
      ensures levelType == TYPE_CASTLE || levelType == TYPE_UNDERGROUND ==>
        forall x :: 0 <= x < length && (x < 1 || x > 4) ==> beforeWalls[x][0] == GROUND
      ensures forall x, y :: InLevel(x, y) && (x != xExit || y != yExit) ==>
        tiles[x, y] == Blockified(beforeWalls, length, height, SheetOffset(levelType), x, y)
      ensures InLevel(xExit, yExit) ==>
        tiles[xExit, yExit] == PRINCESS_TILE && sprites[xExit, yExit] == PrincessGoal
      ensures forall x, y :: InLevel(x, y) ==> data[x, y] == 0 || CoinData(data[x, y])
    {
      counters := Reset(budget);
      BuildOdds();
      var currentLength, floor, f0 := LayZones();
      firstFloor := f0;
      if !isFlat {
        floor := NextInt(4);
        floor := height - 1 - floor;
      }
      exitFloor := floor;
      tailFrom := currentLength;
      LayExit(currentLength, floor);
      beforeWalls := Grid();
      FixWalls();
      SetPrincess(xExit, yExit);
    }
  }

  /** The test of the ceiling pass at (x, y): column 0, and rows down to the run's ceiling
      height in the columns after the fourth. */
  predicate CeilingCell(x: int, y: int, ceiling: int) {
    (x > 4 && y <= ceiling) || x < 1
  }

  /** The 2×2 sample blockify reads from a corner map at (x, y), each index clamped into the map. */
  function MapSample(blocks: array2<bool>, x: int, y: int): Sample
    reads blocks
    requires blocks.Length0 >= 1 && blocks.Length1 >= 1
  {
    var w, h := blocks.Length0 - 1, blocks.Length1 - 1;
    Sample(blocks[Clip(x, w), Clip(y, h)], blocks[Clip(x + 1, w), Clip(y, h)],
           blocks[Clip(x, w), Clip(y + 1, h)], blocks[Clip(x + 1, w), Clip(y + 1, h)])
  }
}
