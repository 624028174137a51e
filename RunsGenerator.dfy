/**
 * Generation of a tournament's runs: one positive level seed per run, drawn from a seeded
 * random generator, and one configuration per seed made of the prototype options followed
 * by the seed option.
 */
module RunsGenerator {

  import opened JavaInt
  import opened Tournament

  /** The seed made from one draw: a non-positive draw has MAX_VALUE added until it is
      positive, which takes at most two additions. */
  function Positive(d: int): (r: int)
    ensures IsInt(d) ==> 0 < r <= MAX_VALUE
    ensures d > 0 ==> r == d
    ensures d <= 0 && IsInt(d) ==> r == d + MAX_VALUE || r == d + 2 * MAX_VALUE
  {
    if d > 0 then d
    else if d + MAX_VALUE > 0 then d + MAX_VALUE
    else d + 2 * MAX_VALUE
  }

  /** The seed option appended to the prototype for a run. */
  function SeedOption(seed: int): string {
    " -ls " + Show(seed)
  }

  /** generateSeeds. The generator seeded with randomSeed is given as its stream of nextInt
      values, draws. Each seed is its draw made positive; adding MAX_VALUE never wraps
      because the value is at most 0 before each addition. */
  method GenerateSeeds(draws: seq<int>, count: int) returns (seeds: array<int>)
    requires count >= 0 && |draws| >= count
    requires forall i :: 0 <= i < count ==> IsInt(draws[i])
    ensures fresh(seeds) && seeds.Length == count
    ensures forall i :: 0 <= i < count ==> seeds[i] == Positive(draws[i]) && 0 < seeds[i]
  {
    seeds := new int[count];
    for i := 0 to count
      invariant forall j :: 0 <= j < i ==> seeds[j] == Positive(draws[j])
    {
      var d := draws[i];
      seeds[i] := d;
      while seeds[i] <= 0
        invariant seeds[i] == d || (d <= 0 && seeds[i] == d + MAX_VALUE)
                  || (d + MAX_VALUE <= 0 && seeds[i] == d + 2 * MAX_VALUE)
        invariant forall j :: 0 <= j < i ==> seeds[j] == Positive(draws[j])
        decreases -seeds[i]
      {
        assert IsInt(seeds[i] + MAX_VALUE);
        seeds[i] := Wrap(seeds[i] + MAX_VALUE);
      }
    }
  }

  /** generateConfigs: configuration i has the prototype options followed by the option of
      seeds[i]. ok is false when setOptions throws, which happens only when the prototype
      itself holds a seed option out of int range; otherwise every configuration's seed is
      its generated seed. */
  method GenerateConfigs(draws: seq<int>, prototype: string, runCount: int)
    returns (configs: array<MarioConfig?>, ok: bool)
    requires runCount >= 0 && |draws| >= runCount
    requires forall i :: 0 <= i < runCount ==> IsInt(draws[i])
    ensures fresh(configs) && configs.Length == runCount
    ensures ok <==> SeedAfter(Groups(prototype, 0), -1).1 || runCount == 0
    ensures ok ==> forall i :: 0 <= i < runCount ==>
      && configs[i] != null && fresh(configs[i])
      && configs[i].options == Some(prototype + SeedOption(Positive(draws[i])))
      && configs[i].seed == Positive(draws[i])
    ensures ok ==> forall i, j :: 0 <= i < j < runCount ==> configs[i] != configs[j]
  {
    var seeds := GenerateSeeds(draws, runCount);
    configs := new MarioConfig?[runCount];
    ok := true;
    for i := 0 to runCount
      invariant forall j :: 0 <= j < i ==>
        && configs[j] != null && fresh(configs[j])
        && configs[j].options == Some(prototype + SeedOption(Positive(draws[j])))
        && configs[j].seed == Positive(draws[j])
      invariant forall j, k :: 0 <= j < k < i ==> configs[j] != configs[k]
      invariant i > 0 ==> SeedAfter(Groups(prototype, 0), -1).1
      invariant forall j :: 0 <= j < runCount ==> seeds[j] == Positive(draws[j])
    {
      var c := new MarioConfig();
      configs[i] := c;
      assert IsInt(draws[i]) && seeds[i] == Positive(draws[i]);
      var options := prototype + SeedOption(seeds[i]);
      AppendedSeedIsLastGroup(prototype, seeds[i]);
      assert prototype + " -ls " + Show(seeds[i]) == options;
      ok := c.SetOptions(Some(options));
      if !ok {
        return;
      }
    }
  }

  /** A run of the tournament: the configuration it plays. */
  class MarioRun {
    const config: MarioConfig

    constructor(config: MarioConfig)
      ensures this.config == config
    {
      this.config := config;
    }
  }

  /** generateRunList: run i plays configuration i. */
  method GenerateRunList(draws: seq<int>, prototype: string, runCount: int)
    returns (runs: array<MarioRun?>, configs: array<MarioConfig?>, ok: bool)
    requires runCount >= 0 && |draws| >= runCount
    requires forall i :: 0 <= i < runCount ==> IsInt(draws[i])
    ensures fresh(runs) && runs.Length == runCount && configs.Length == runCount
    ensures ok <==> SeedAfter(Groups(prototype, 0), -1).1 || runCount == 0
    ensures ok ==> forall i :: 0 <= i < runCount ==>
      && runs[i] != null && configs[i] != null && runs[i].config == configs[i]
      && configs[i].options == Some(prototype + SeedOption(Positive(draws[i])))
      && configs[i].seed == Positive(draws[i])
  {
    configs, ok := GenerateConfigs(draws, prototype, runCount);
    runs := new MarioRun?[runCount];
    if !ok {
      return;
    }
    for i := 0 to runCount
      invariant forall j :: 0 <= j < i ==> runs[j] != null && runs[j].config == configs[j]
      invariant forall j :: 0 <= j < runCount ==>
        && configs[j] != null
        && configs[j].options == Some(prototype + SeedOption(Positive(draws[j])))
        && configs[j].seed == Positive(draws[j])
    {
      runs[i] := new MarioRun(configs[i]);
    }
  }

  /** The seed option a run's options end with reads back as that run's seed: the text of
      a positive int holds only digits, which parseInt turns back into the number. */
  lemma SeedOptionReadsBack(d: int)
    requires IsInt(d)
    ensures Groups(SeedOption(Positive(d)), 0) == [Show(Positive(d))]
    ensures SeedAfter(Groups(SeedOption(Positive(d)), 0), -1) == (Positive(d), true)
  {
    AppendedSeedIsLastGroup("", Positive(d));
    assert "" + " -ls " + Show(Positive(d)) == SeedOption(Positive(d));
  }
}
