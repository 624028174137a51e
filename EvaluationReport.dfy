/**
 * The evaluation report of the simulator tools: the outcome of a run under the tools'
 * status map, the per-cell format of the trace dump, the "x of y (p%)" percentages of the
 * text report, and the ';'-separated CSV line with its header.
 */
module EvaluationReport {

  import opened JavaInt
  import opened Evaluation

  /** Mario's power-up mode; the report prints an unset mode as "null". */
  datatype MarioMode = SMALL | LARGE | FIRE_LARGE

  /** The fields of the tools' evaluation record, in the order the CSV line prints them
      (after the result and the mode). */
  datatype ReportInfo = ReportInfo(
    marioMode: Option<MarioMode>,
    timeLeft: int, timeSpent: int, marioStatus: int,
    distancePassedCells: int, distancePassedPhys: int,
    flowersDevoured: int, killsByFire: int, killsByShell: int, killsByStomp: int, killsTotal: int,
    mushroomsDevoured: int, greenMushroomsDevoured: int, coinsGained: int, hiddenBlocksFound: int,
    totalNumberOfCoins: int, totalNumberOfHiddenBlocks: int, totalNumberOfMushrooms: int,
    totalNumberOfFlowers: int, totalNumberOfCreatures: int,
    levelLength: int, collisionsWithCreatures: int)

  /** getResult of the tools' record: here it is a running Mario with no time left that has
      timed out, and death always counts as dying. None is the exception for any other
      status. */
  function ToolsResult(marioStatus: int, timeLeft: int): (r: Option<EvaluationResult>)
    ensures r.None? <==> marioStatus !in {STATUS_RUNNING, STATUS_WIN, STATUS_DEAD}
    ensures r == Some(LEVEL_TIMEDOUT) <==> marioStatus == STATUS_RUNNING && timeLeft <= 0
    ensures r == Some(SIMULATION_RUNNING) <==> marioStatus == STATUS_RUNNING && timeLeft > 0
    ensures r == Some(VICTORY) <==> marioStatus == STATUS_WIN
    ensures r == Some(MARIO_DIED) <==> marioStatus == STATUS_DEAD
  {
    if marioStatus == STATUS_RUNNING then
      (if timeLeft <= 0 then Some(LEVEL_TIMEDOUT) else Some(SIMULATION_RUNNING))
    else if marioStatus == STATUS_WIN then Some(VICTORY)
    else if marioStatus == STATUS_DEAD then Some(MARIO_DIED)
    else None
  }

  /** The two status maps agree on victories and on the error cases, and disagree exactly
      when the clock has run out on a status other than a win. */
  lemma StatusMapsCompared(status: int, timeLeft: int)
    ensures var t := GetResult(RunInfo(status, timeLeft, 0, 0));
      && (t != ToolsResult(status, timeLeft) <==> status in {STATUS_RUNNING, STATUS_DEAD} && timeLeft <= 0)
      && (status == STATUS_DEAD && timeLeft <= 0 ==> t == Some(LEVEL_TIMEDOUT) && ToolsResult(status, timeLeft) == Some(MARIO_DIED))
  {
  }

  // ---------------------------------------------------------------- trace cells

  /** The text of one trace value before padding: "." for zero, else the decimal value. */
  function CellText(i: int): (s: string)
    ensures |s| >= 1 && ' ' !in s
  {
    if i == 0 then "." else Show(i)
  }

  /** spaceFormat: the value's text, right-padded with spaces up to four characters. */
  method SpaceFormat(i: int) returns (r: string)
    ensures |r| == if |CellText(i)| < 4 then 4 else |CellText(i)|
    ensures r[..|CellText(i)|] == CellText(i)
    ensures forall k :: |CellText(i)| <= k < |r| ==> r[k] == ' '
  {
    r := "" + CellText(i);
    while |r| < 4
      invariant |CellText(i)| <= |r| <= (if |CellText(i)| < 4 then 4 else |CellText(i)|)
      invariant r[..|CellText(i)|] == CellText(i)
      invariant forall k :: |CellText(i)| <= k < |r| ==> r[k] == ' '
      decreases 4 - |r|
    {
      r := r + " ";
    }
  }

  /** The padding is removable: dropping the trailing spaces of a formatted cell gives back
      its text, so distinct values format to distinct cells. */
  function TrimEnd(s: string): (t: string)
    ensures |t| <= |s| && t == s[..|t|]
  {
    if s != [] && s[|s| - 1] == ' ' then TrimEnd(s[..|s| - 1]) else s
  }

  lemma {:induction false} TrimPadding(text: string, pad: nat)
    requires text != [] && text[|text| - 1] != ' '
    ensures TrimEnd(text + seq(pad, _ => ' ')) == text
    decreases pad
  {
    if pad > 0 {
      assert (text + seq(pad, _ => ' '))[..|text| + pad - 1] == text + seq(pad - 1, _ => ' ');
      TrimPadding(text, pad - 1);
    } else {
      assert text + seq(0, _ => ' ') == text;
    }
  }

  lemma SpaceFormatRecoversText(i: int, r: string)
    requires |r| == (if |CellText(i)| < 4 then 4 else |CellText(i)|)
    requires r[..|CellText(i)|] == CellText(i)
    requires forall k :: |CellText(i)| <= k < |r| ==> r[k] == ' '
    ensures TrimEnd(r) == CellText(i)
  {
    var t := CellText(i);
    assert t[|t| - 1] in t;
    assert r == t + seq(|r| - |t|, _ => ' ');
    TrimPadding(t, |r| - |t|);
  }

  // ---------------------------------------------------------------- percentages

  /** "part * 100 / total" in Java int arithmetic; None is the division-by-zero exception.
      The cells-passed percentage uses it with the level length unguarded. */
  function Percent(part: int, total: int): (r: Option<int>)
    ensures r.None? <==> total == 0
  {
    if total == 0 then None else Some(Div(Wrap(part * 100), total))
  }

  /** The guarded form used for coins, hidden blocks, mushrooms, flowers and kills: a zero
      total is replaced by 1, so the division never fails. */
  function GuardedPercent(part: int, total: int): (r: int)
    ensures r == Percent(part, if total == 0 then 1 else total).value
  {
    Div(Wrap(part * 100), if total == 0 then 1 else total)
  }

  /** With nothing to find, the guarded percentage is the (wrapped) hundredfold count; a
      count within its total gives a percentage between 0 and 100. */
  lemma GuardedPercentRange(part: int, total: int)
    requires IsInt(part * 100)
    ensures total == 0 ==> GuardedPercent(part, total) == part * 100
    ensures 0 <= part <= total ==> 0 <= GuardedPercent(part, total) <= 100
  {
    if total == 0 {
      assert Div(part * 100, 1) == part * 100;
    } else if 0 <= part <= total {
      QuotientAtMost(part * 100, total, 100);
    }
  }

  /** n / d <= c whenever n <= c * d. */
  lemma QuotientAtMost(n: nat, d: nat, c: nat)
    requires d >= 1 && n <= c * d
    ensures n / d <= c
  {
    var q := n / d;
    assert n == q * d + n % d;
  }

  // ---------------------------------------------------------------- CSV

  /** The ';'-separated fields of a line (empty fields kept). */
  function Split(s: string): (fs: seq<string>)
    ensures |fs| >= 1
  {
    if s == [] then [""]
    else if s[0] == ';' then [""] + Split(s[1..])
    else
      var rest := Split(s[1..]);
      [[s[0]] + rest[0]] + rest[1..]
  }

  /** The fields joined with ';'. */
  function Join(fs: seq<string>): (s: string)
    requires |fs| >= 1
  {
    if |fs| == 1 then fs[0] else fs[0] + ";" + Join(fs[1..])
  }

  predicate NoSeparator(s: string) {
    ';' !in s
  }

  lemma {:induction false} SplitField(a: string, rest: string)
    requires NoSeparator(a)
    ensures Split(a + ";" + rest) == [a] + Split(rest)
    ensures Split(a) == [a]
    decreases |a|
  {
    if a == [] {
      assert a + ";" + rest == [';'] + rest;
      assert (";" + rest)[1..] == rest;
    } else {
      SplitField(a[1..], rest);
      assert (a + ";" + rest)[1..] == a[1..] + ";" + rest;
      assert [a[0]] + a[1..] == a;
    }
  }

  /** Splitting undoes joining when no field contains the separator. */
  lemma {:induction false} SplitJoin(fs: seq<string>)
    requires |fs| >= 1 && forall i :: 0 <= i < |fs| ==> NoSeparator(fs[i])
    ensures Split(Join(fs)) == fs
    decreases |fs|
  {
    if |fs| == 1 {
      SplitField(fs[0], "");
    } else {
      SplitField(fs[0], Join(fs[1..]));
      SplitJoin(fs[1..]);
      assert [fs[0]] + fs[1..] == fs;
    }
  }

  /** The columns of the report. */
  datatype Column =
    | Result | Mode | TimeLeft | TimeSpent | MarioStatus | DistancePassedCells
    | DistancePassedPhys | FlowersDevoured | KillsByFire | KillsByShell | KillsByStomp
    | KillsTotal | MushroomsDevoured | GreenMushroomsDevoured | CoinsGained
    | HiddenBlocksFound | TotalNumberOfCoins | TotalNumberOfHiddenBlocks
    | TotalNumberOfMushrooms | TotalNumberOfFlowers | TotalNumberOfCreatures | LevelLength
    | CollisionsWithCreatures

  /** The header name of a column. */
  function ColumnName(c: Column): string {
    match c
    case Result => "result"
    case Mode => "marioMode"
    case TimeLeft => "timeLeft"
    case TimeSpent => "timeSpent"
    case MarioStatus => "marioStatus"
    case DistancePassedCells => "distancePassedCells"
    case DistancePassedPhys => "distancePassedPhys"
    case FlowersDevoured => "flowersDevoured"
    case KillsByFire => "killsByFire"
    case KillsByShell => "killsByShell"
    case KillsByStomp => "killsByStomp"
    case KillsTotal => "killsTotal"
    case MushroomsDevoured => "mushroomsDevoured"
    case GreenMushroomsDevoured => "greenMushroomsDevoured"
    case CoinsGained => "coinsGained"
    case HiddenBlocksFound => "hiddenBlocksFound"
    case TotalNumberOfCoins => "totalNumberOfCoins"
    case TotalNumberOfHiddenBlocks => "totalNumberOfHiddenBlocks"
    case TotalNumberOfMushrooms => "totalNumberOfMushrooms"
    case TotalNumberOfFlowers => "totalNumberOfFlowers"
    case TotalNumberOfCreatures => "totalNumberOfCreatures"
    case LevelLength => "levelLength"
    case CollisionsWithCreatures => "collisionsWithCreatures"
  }

  /** The text a column holds for a record: an independent statement of which value each
      column carries. */
  function ColumnText(info: ReportInfo, result: EvaluationResult, c: Column): string {
    match c
    case Result => Name(result)
    case Mode => ModeText(info.marioMode)
    case TimeLeft => Show(info.timeLeft)
    case TimeSpent => Show(info.timeSpent)
    case MarioStatus => Show(info.marioStatus)
    case DistancePassedCells => Show(info.distancePassedCells)
    case DistancePassedPhys => Show(info.distancePassedPhys)
    case FlowersDevoured => Show(info.flowersDevoured)
    case KillsByFire => Show(info.killsByFire)
    case KillsByShell => Show(info.killsByShell)
    case KillsByStomp => Show(info.killsByStomp)
    case KillsTotal => Show(info.killsTotal)
    case MushroomsDevoured => Show(info.mushroomsDevoured)
    case GreenMushroomsDevoured => Show(info.greenMushroomsDevoured)
    case CoinsGained => Show(info.coinsGained)
    case HiddenBlocksFound => Show(info.hiddenBlocksFound)
    case TotalNumberOfCoins => Show(info.totalNumberOfCoins)
    case TotalNumberOfHiddenBlocks => Show(info.totalNumberOfHiddenBlocks)
    case TotalNumberOfMushrooms => Show(info.totalNumberOfMushrooms)
    case TotalNumberOfFlowers => Show(info.totalNumberOfFlowers)
    case TotalNumberOfCreatures => Show(info.totalNumberOfCreatures)
    case LevelLength => Show(info.levelLength)
    case CollisionsWithCreatures => Show(info.collisionsWithCreatures)
  }

  lemma NameHasNoSeparator(c: Column)
    ensures NoSeparator(ColumnName(c))
  {
    if c.Result? || c.Mode? || c.TimeLeft? || c.TimeSpent? || c.MarioStatus? || c.DistancePassedCells?
      || c.DistancePassedPhys? || c.FlowersDevoured?
    {
      FirstNames(c);
    } else if c.KillsByFire? || c.KillsByShell? || c.KillsByStomp? || c.KillsTotal?
      || c.MushroomsDevoured? || c.GreenMushroomsDevoured? || c.CoinsGained? || c.HiddenBlocksFound?
    {
      MiddleNames(c);
    } else {
      LastNames(c);
    }
  }

  lemma FirstNames(c: Column)
    requires c.Result? || c.Mode? || c.TimeLeft? || c.TimeSpent? || c.MarioStatus? || c.DistancePassedCells?
      || c.DistancePassedPhys? || c.FlowersDevoured?
    ensures NoSeparator(ColumnName(c))
  {
  }

  lemma MiddleNames(c: Column)
    requires c.KillsByFire? || c.KillsByShell? || c.KillsByStomp? || c.KillsTotal?
      || c.MushroomsDevoured? || c.GreenMushroomsDevoured? || c.CoinsGained? || c.HiddenBlocksFound?
    ensures NoSeparator(ColumnName(c))
  {
  }

  lemma LastNames(c: Column)
    requires c.TotalNumberOfCoins? || c.TotalNumberOfHiddenBlocks? || c.TotalNumberOfMushrooms?
      || c.TotalNumberOfFlowers? || c.TotalNumberOfCreatures? || c.LevelLength? || c.CollisionsWithCreatures?
    ensures NoSeparator(ColumnName(c))
  {
  }

  /** The columns in the order both getCSVHeader and getCSV write them. */
  const CsvOrder: seq<Column> := [
    Result, Mode, TimeLeft, TimeSpent, MarioStatus, DistancePassedCells,
    DistancePassedPhys, FlowersDevoured, KillsByFire, KillsByShell, KillsByStomp,
    KillsTotal, MushroomsDevoured, GreenMushroomsDevoured, CoinsGained,
    HiddenBlocksFound, TotalNumberOfCoins, TotalNumberOfHiddenBlocks,
    TotalNumberOfMushrooms, TotalNumberOfFlowers, TotalNumberOfCreatures, LevelLength,
    CollisionsWithCreatures]

  /** Every column is written, exactly once. */
  lemma CsvOrderCoversColumns(c: Column)
    ensures |CsvOrder| == 23
    ensures c in CsvOrder
    ensures forall i, j :: 0 <= i < j < |CsvOrder| ==> CsvOrder[i] != CsvOrder[j]
  {
  }

  function Names(cs: seq<Column>): (ns: seq<string>)
    ensures |ns| == |cs|
    ensures forall k :: 0 <= k < |cs| ==> ns[k] == ColumnName(cs[k]) && NoSeparator(ns[k])
  {
    if cs == [] then []
    else
      NameHasNoSeparator(cs[0]);
      [ColumnName(cs[0])] + Names(cs[1..])
  }

  function Texts(info: ReportInfo, result: EvaluationResult, cs: seq<Column>): (ts: seq<string>)
    ensures |ts| == |cs|
    ensures forall k :: 0 <= k < |cs| ==> ts[k] == ColumnText(info, result, cs[k]) && NoSeparator(ts[k])
  {
    if cs == [] then []
    else
      ColumnTextHasNoSeparator(info, result, cs[0]);
      [ColumnText(info, result, cs[0])] + Texts(info, result, cs[1..])
  }

  /** getCSVHeader: the 23 names joined with ';'. It splits back into the names, in
      column order. */
  function CsvHeader(): (h: string)
    ensures |Split(h)| == 23
    ensures forall k :: 0 <= k < 23 ==> Split(h)[k] == ColumnName(CsvOrder[k])
  {
    SplitJoin(Names(CsvOrder));
    Join(Names(CsvOrder))
  }

  /** getCSV; None when getResult throws. The line splits into 23 fields, and field k holds
      the value of the column whose name is field k of the header. */
  function Csv(info: ReportInfo): (line: Option<string>)
    ensures line.None? <==> ToolsResult(info.marioStatus, info.timeLeft).None?
    ensures line.Some? ==> |Split(line.value)| == |Split(CsvHeader())| == 23
    ensures line.Some? ==> forall k :: 0 <= k < 23 ==>
      Split(line.value)[k] == ColumnText(info, ToolsResult(info.marioStatus, info.timeLeft).value, CsvOrder[k])
      && Split(CsvHeader())[k] == ColumnName(CsvOrder[k])
  {
    match ToolsResult(info.marioStatus, info.timeLeft)
    case None => None
    case Some(result) =>
      SplitJoin(Texts(info, result, CsvOrder));
      Some(Join(Texts(info, result, CsvOrder)))
  }

  function ModeText(m: Option<MarioMode>): (s: string)
    ensures NoSeparator(s)
  {
    match m
    case None => "null"
    case Some(SMALL) => "SMALL"
    case Some(LARGE) => "LARGE"
    case Some(FIRE_LARGE) => "FIRE_LARGE"
  }

  lemma ShowHasNoSeparator(n: int)
    ensures NoSeparator(Show(n))
  {
    var s := Show(n);
    assert forall k :: 0 <= k < |s| ==> s[k] == '-' || IsDigit(s[k]);
  }

  lemma ResultNameHasNoSeparator(r: EvaluationResult)
    ensures NoSeparator(Name(r))
  {
  }

  lemma ColumnTextHasNoSeparator(info: ReportInfo, result: EvaluationResult, c: Column)
    ensures NoSeparator(ColumnText(info, result, c))
  {
    match c
    case Result => ResultNameHasNoSeparator(result);
    case Mode =>
    case TimeLeft => ShowHasNoSeparator(info.timeLeft);
    case TimeSpent => ShowHasNoSeparator(info.timeSpent);
    case MarioStatus => ShowHasNoSeparator(info.marioStatus);
    case DistancePassedCells => ShowHasNoSeparator(info.distancePassedCells);
    case DistancePassedPhys => ShowHasNoSeparator(info.distancePassedPhys);
    case FlowersDevoured => ShowHasNoSeparator(info.flowersDevoured);
    case KillsByFire => ShowHasNoSeparator(info.killsByFire);
    case KillsByShell => ShowHasNoSeparator(info.killsByShell);
    case KillsByStomp => ShowHasNoSeparator(info.killsByStomp);
    case KillsTotal => ShowHasNoSeparator(info.killsTotal);
    case MushroomsDevoured => ShowHasNoSeparator(info.mushroomsDevoured);
    case GreenMushroomsDevoured => ShowHasNoSeparator(info.greenMushroomsDevoured);
    case CoinsGained => ShowHasNoSeparator(info.coinsGained);
    case HiddenBlocksFound => ShowHasNoSeparator(info.hiddenBlocksFound);
    case TotalNumberOfCoins => ShowHasNoSeparator(info.totalNumberOfCoins);
    case TotalNumberOfHiddenBlocks => ShowHasNoSeparator(info.totalNumberOfHiddenBlocks);
    case TotalNumberOfMushrooms => ShowHasNoSeparator(info.totalNumberOfMushrooms);
    case TotalNumberOfFlowers => ShowHasNoSeparator(info.totalNumberOfFlowers);
    case TotalNumberOfCreatures => ShowHasNoSeparator(info.totalNumberOfCreatures);
    case LevelLength => ShowHasNoSeparator(info.levelLength);
    case CollisionsWithCreatures => ShowHasNoSeparator(info.collisionsWithCreatures);
  }
}
