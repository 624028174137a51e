/**
 * The zone-kind distribution of the level generator: six raw weights, clamped at zero and
 * turned into a cumulative table, and the inverse-CDF lookup that turns a uniform draw into
 * a zone kind.
 */
module ZoneOdds {

  const ODDS_STRAIGHT := 0
  const ODDS_PLATFORMS := 1
  const ODDS_TUBES := 2
  const ODDS_GAPS := 3
  const ODDS_CANNONS := 4
  const ODDS_DEAD_ENDS := 5

  const TYPE_OVERGROUND := 0
  const TYPE_UNDERGROUND := 1
  const TYPE_CASTLE := 2

  /** The weights before clamping: difficulty raises tubes, gaps, cannons and dead-ends,
      and only overground levels keep the platform weight. */
  function RawWeights(difficulty: int, levelType: int): (w: seq<int>)
    ensures |w| == 6
    ensures w[ODDS_STRAIGHT] == 20
    ensures w[ODDS_PLATFORMS] == (if levelType == TYPE_OVERGROUND then 1 else 0)
    ensures w[ODDS_CANNONS] == -10 + 5 * difficulty
  {
    [20,
     if levelType != TYPE_OVERGROUND then 0 else 1,
     2 + 1 * difficulty,
     2 + 2 * difficulty,
     -10 + 5 * difficulty,
     2 + 2 * difficulty]
  }

  function Clamp(w: int): nat {
    if w < 0 then 0 else w
  }

  /** Sum of the clamped weights. */
  function SumClamped(ws: seq<int>): int {
    if ws == [] then 0 else SumClamped(ws[..|ws| - 1]) + Clamp(ws[|ws| - 1])
  }

  /** The table the prefix loop leaves behind: entry i is the sum of the clamped weights of
      the kinds before i. */
  function Cumulative(ws: seq<int>): (p: seq<int>)
    ensures |p| == |ws|
  {
    seq(|ws|, i requires 0 <= i < |ws| => SumClamped(ws[..i]))
  }

  /** The total the draw is taken against; an all-zero table is corrected to 1. */
  function TotalOdds(ws: seq<int>): int {
    if SumClamped(ws) <= 0 then 1 else SumClamped(ws)
  }

  /** The lookup loop: the last index whose table entry does not exceed t, or 0 if none. */
  function Pick(p: seq<int>, t: int): nat {
    if p == [] then 0
    else if p[|p| - 1] <= t then |p| - 1
    else Pick(p[..|p| - 1], t)
  }

  lemma {:induction false} SumClampedNonNegative(ws: seq<int>)
    ensures SumClamped(ws) >= 0
  {
    if ws != [] {
      SumClampedNonNegative(ws[..|ws| - 1]);
    }
  }

  lemma {:induction false} SumClampedMonotone(ws: seq<int>, i: nat, j: nat)
    requires i <= j <= |ws|
    ensures SumClamped(ws[..i]) <= SumClamped(ws[..j])
    decreases j - i
  {
    if i < j {
      SumClampedMonotone(ws, i, j - 1);
      assert ws[..j][..j - 1] == ws[..j - 1];
    }
  }

  /** The table starts at 0, each step adds exactly the clamped weight of the kind, so it
      is non-decreasing and bounded by the sum. */
  lemma {:induction false} CumulativeShape(ws: seq<int>)
    requires |ws| > 0
    ensures Cumulative(ws)[0] == 0
    ensures forall i :: 0 <= i < |ws| - 1 ==>
      Cumulative(ws)[i + 1] == Cumulative(ws)[i] + Clamp(ws[i])
    ensures forall i, j :: 0 <= i <= j < |ws| ==> Cumulative(ws)[i] <= Cumulative(ws)[j]
    ensures forall i :: 0 <= i < |ws| ==> 0 <= Cumulative(ws)[i] <= SumClamped(ws)
    ensures SumClamped(ws) == Cumulative(ws)[|ws| - 1] + Clamp(ws[|ws| - 1])
  {
    var p := Cumulative(ws);
    assert ws[..0] == [];
    forall i | 0 <= i < |ws| - 1
      ensures p[i + 1] == p[i] + Clamp(ws[i])
    {
      assert ws[..i + 1][..i] == ws[..i];
    }
    forall i, j | 0 <= i <= j < |ws|
      ensures p[i] <= p[j]
    {
      SumClampedMonotone(ws, i, j);
    }
    forall i | 0 <= i < |ws|
      ensures 0 <= p[i] <= SumClamped(ws)
    {
      SumClampedNonNegative(ws[..i]);
      SumClampedMonotone(ws, i, |ws|);
      assert ws[..|ws|] == ws;
    }
    assert ws[..|ws|] == ws;
  }

  /** With the generator's weights the sum is at least the straight weight 20, so the
      "all weights zero" correction never fires. */
  lemma {:induction false} GeneratorTotalAtLeast20(difficulty: int, levelType: int)
    ensures TotalOdds(RawWeights(difficulty, levelType)) == SumClamped(RawWeights(difficulty, levelType)) >= 20
  {
    var ws := RawWeights(difficulty, levelType);
    CumulativeShape(ws);
    SumClampedMonotone(ws, 1, 6);
    assert ws[..6] == ws;
    assert ws[..1] == [20];
    assert SumClamped([20]) == SumClamped([]) + Clamp(20);
  }

  /** Pick returns the last index whose entry does not exceed t. */
  lemma {:induction false} PickIsLastNotAbove(p: seq<int>, t: int)
    requires |p| > 0 && p[0] <= t
    ensures Pick(p, t) < |p| && p[Pick(p, t)] <= t
    ensures forall j :: Pick(p, t) < j < |p| ==> p[j] > t
  {
    if p[|p| - 1] > t {
      assert |p| > 1;
      var q := p[..|p| - 1];
      PickIsLastNotAbove(q, t);
    }
  }

  /** Inverse-CDF lookup: for a draw t in [0, total), the chosen kind k is the one whose
      bucket [table[k], table[k] + weight[k]) holds t. Hence the chosen kind has a positive
      clamped weight, and every t in a kind's bucket picks that kind. */
  lemma {:induction false} PickSelectsBucket(ws: seq<int>, t: int)
    requires |ws| > 0
    requires 0 <= t < SumClamped(ws)
    ensures var k := Pick(Cumulative(ws), t);
      k < |ws| && Cumulative(ws)[k] <= t < Cumulative(ws)[k] + Clamp(ws[k]) && Clamp(ws[k]) > 0
  {
    var p := Cumulative(ws);
    CumulativeShape(ws);
    PickIsLastNotAbove(p, t);
    var k := Pick(p, t);
    if k < |ws| - 1 {
      assert p[k + 1] > t;
    }
  }

  /** The converse: a draw inside kind k's bucket selects k. */
  lemma {:induction false} BucketSelectsKind(ws: seq<int>, k: nat, t: int)
    requires k < |ws|
    requires Cumulative(ws)[k] <= t < Cumulative(ws)[k] + Clamp(ws[k])
    ensures Pick(Cumulative(ws), t) == k
  {
    var p := Cumulative(ws);
    CumulativeShape(ws);
    PickIsLastNotAbove(p, t);
    var j := Pick(p, t);
    if k < |ws| - 1 {
      assert p[k + 1] > t;
    }
    assert j >= k;
  }

  /** A kind whose clamped weight is zero is never drawn. */
  lemma ZeroWeightNeverPicked(ws: seq<int>, k: nat, t: int)
    requires k < |ws| && Clamp(ws[k]) == 0
    requires 0 <= t < SumClamped(ws)
    ensures Pick(Cumulative(ws), t) != k
  {
    PickSelectsBucket(ws, t);
  }

  /** Cannons never appear at difficulty 2 or below. */
  lemma NoCannonsAtLowDifficulty(difficulty: int, levelType: int, t: int)
    requires difficulty <= 2
    requires 0 <= t < TotalOdds(RawWeights(difficulty, levelType))
    ensures Pick(Cumulative(RawWeights(difficulty, levelType)), t) != ODDS_CANNONS
  {
    GeneratorTotalAtLeast20(difficulty, levelType);
    ZeroWeightNeverPicked(RawWeights(difficulty, levelType), ODDS_CANNONS, t);
  }

  /** Platforms never appear outside overground levels. */
  lemma NoPlatformsOffOverground(difficulty: int, levelType: int, t: int)
    requires levelType != TYPE_OVERGROUND
    requires 0 <= t < TotalOdds(RawWeights(difficulty, levelType))
    ensures Pick(Cumulative(RawWeights(difficulty, levelType)), t) != ODDS_PLATFORMS
  {
    GeneratorTotalAtLeast20(difficulty, levelType);
    ZeroWeightNeverPicked(RawWeights(difficulty, levelType), ODDS_PLATFORMS, t);
  }

  /** A draw of 0 always selects a straight zone (the straight weight is 20 > 0). */
  lemma ZeroDrawIsStraight(difficulty: int, levelType: int)
    ensures Pick(Cumulative(RawWeights(difficulty, levelType)), 0) == ODDS_STRAIGHT
  {
    var ws := RawWeights(difficulty, levelType);
    CumulativeShape(ws);
    BucketSelectsKind(ws, 0, 0);
  }
}
