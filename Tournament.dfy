/**
 * Tournament bookkeeping: the tally of finished runs (victories, deaths, time-outs and the
 * running totals of time and score), and a run configuration whose level seed is read from
 * its option string.
 */
module Tournament {

  import opened JavaInt
  import opened Evaluation

  // ---------------------------------------------------------------- tallies

  /** The runs of rs whose outcome is o. */
  function CountOutcome(rs: seq<RunInfo>, o: EvaluationResult): nat {
    if rs == [] then 0
    else CountOutcome(rs[..|rs| - 1], o) + (if GetResult(rs[|rs| - 1]) == Some(o) then 1 else 0)
  }

  function SumTimeSpent(rs: seq<RunInfo>): int {
    if rs == [] then 0 else SumTimeSpent(rs[..|rs| - 1]) + rs[|rs| - 1].timeSpent
  }

  function SumScore(rs: seq<RunInfo>): int {
    if rs == [] then 0 else SumScore(rs[..|rs| - 1]) + rs[|rs| - 1].score
  }

  /** A run the tally records: one that ended in a time-out, a death or a victory. */
  predicate Finished(r: RunInfo) {
    GetResult(r) in {Some(LEVEL_TIMEDOUT), Some(MARIO_DIED), Some(VICTORY)}
  }

  /** The runs of rs the tally records, in order. */
  function Recorded(rs: seq<RunInfo>): (out: seq<RunInfo>)
    ensures |out| <= |rs|
    ensures forall i :: 0 <= i < |out| ==> Finished(out[i])
  {
    if rs == [] then []
    else Recorded(rs[..|rs| - 1]) + (if Finished(rs[|rs| - 1]) then [rs[|rs| - 1]] else [])
  }

  /** Every recorded run has exactly one of the three outcomes, so the three counts add up
      to the number of recorded runs. */
  lemma {:induction false} CountsAddUp(rs: seq<RunInfo>)
    requires forall i :: 0 <= i < |rs| ==> Finished(rs[i])
    ensures CountOutcome(rs, VICTORY) + CountOutcome(rs, MARIO_DIED) + CountOutcome(rs, LEVEL_TIMEDOUT) == |rs|
  {
    if rs != [] {
      CountsAddUp(rs[..|rs| - 1]);
      assert Finished(rs[|rs| - 1]);
    }
  }

  /** No recorded run is still running. */
  lemma {:induction false} NothingRunningRecorded(rs: seq<RunInfo>)
    requires forall i :: 0 <= i < |rs| ==> Finished(rs[i])
    ensures CountOutcome(rs, SIMULATION_RUNNING) == 0
  {
    if rs != [] {
      NothingRunningRecorded(rs[..|rs| - 1]);
      assert Finished(rs[|rs| - 1]);
    }
  }

  class EvaluationInfos {
    var results: seq<RunInfo>
    var totalVictories: int
    var totalDeaths: int
    var totalTimedout: int
    var totalTimeSpent: int
    var totalScore: int

    /** Each counter counts its outcome over the recorded runs, the totals are their sums,
        and only finished runs are recorded. */
    ghost predicate Valid()
      reads this
    {
      && (forall i :: 0 <= i < |results| ==> Finished(results[i]))
      && totalVictories == CountOutcome(results, VICTORY)
      && totalDeaths == CountOutcome(results, MARIO_DIED)
      && totalTimedout == CountOutcome(results, LEVEL_TIMEDOUT)
      && totalTimeSpent == SumTimeSpent(results)
      && totalScore == SumScore(results)
    }

    constructor()
      ensures Valid() && results == []
    {
      results := [];
      totalVictories, totalDeaths, totalTimedout := 0, 0, 0;
      totalTimeSpent, totalScore := 0, 0;
    }

    /** getTotalRuns: the number of recorded runs. */
    function TotalRuns(): (n: int)
      reads this
      requires Valid()
      ensures n == |results|
    {
      CountsAddUp(results);
      totalDeaths + totalTimedout + totalVictories
    }

    /** addResult. ok is false when the result's status is invalid (getResult throws before
        anything changes). A run still in progress is ignored; any other run is appended and
        exactly its outcome's counter rises by one. */
    method AddResult(info: RunInfo) returns (ok: bool)
      requires Valid()
      modifies this
      ensures Valid()
      ensures ok <==> GetResult(info).Some?
      ensures results == old(results) + (if Finished(info) then [info] else [])
      ensures !Finished(info) ==> unchanged(this)
      ensures Finished(info) ==>
        && totalVictories == old(totalVictories) + (if GetResult(info) == Some(VICTORY) then 1 else 0)
        && totalDeaths == old(totalDeaths) + (if GetResult(info) == Some(MARIO_DIED) then 1 else 0)
        && totalTimedout == old(totalTimedout) + (if GetResult(info) == Some(LEVEL_TIMEDOUT) then 1 else 0)
        && totalTimeSpent == old(totalTimeSpent) + info.timeSpent
        && totalScore == old(totalScore) + info.score
    {
      var r := GetResult(info);
      if r.None? {
        return false;
      }
      ok := true;
      match r.value {
        case LEVEL_TIMEDOUT =>
          totalTimedout := totalTimedout + 1;
        case MARIO_DIED =>
          totalDeaths := totalDeaths + 1;
        case VICTORY =>
          totalVictories := totalVictories + 1;
        case SIMULATION_RUNNING =>
          return;
      }
      results := results + [info];
      assert results[..|results| - 1] == old(results);
      totalTimeSpent := totalTimeSpent + info.timeSpent;
      totalScore := totalScore + info.score;
    }

    /** addResults: addResult for each run in order. If a run has an invalid status the
        loop stops there (the exception propagates) with the runs before it recorded. */
    method AddResults(infos: seq<RunInfo>) returns (ok: bool)
      requires Valid()
      modifies this
      ensures Valid()
      ensures ok <==> forall i :: 0 <= i < |infos| ==> GetResult(infos[i]).Some?
      ensures ok ==> results == old(results) + Recorded(infos)
      ensures !ok ==> exists k :: 0 <= k < |infos| && GetResult(infos[k]).None?
                        && (forall i :: 0 <= i < k ==> GetResult(infos[i]).Some?)
                        && results == old(results) + Recorded(infos[..k])
    {
      var i := 0;
      while i < |infos|
        invariant 0 <= i <= |infos|
        invariant Valid()
        invariant forall j :: 0 <= j < i ==> GetResult(infos[j]).Some?
        invariant results == old(results) + Recorded(infos[..i])
      {
        var done := AddResult(infos[i]);
        if !done {
          assert results == old(results) + Recorded(infos[..i]);
          return false;
        }
        assert infos[..i + 1][..i] == infos[..i];
        assert results == old(results) + Recorded(infos[..i + 1]);
        i := i + 1;
      }
      assert infos[..i] == infos;
      return true;
    }
  }

  // ---------------------------------------------------------------- seed option

  /** A match of the pattern "ls (-?[0-9]+)" starts at i: "ls " followed by a digit, or by
      '-' and a digit. */
  predicate MatchAt(s: string, i: nat) {
    i + 4 <= |s| && s[i] == 'l' && s[i + 1] == 's' && s[i + 2] == ' '
    && (IsDigit(s[i + 3]) || (s[i + 3] == '-' && i + 5 <= |s| && IsDigit(s[i + 4])))
  }

  /** The end of the run of digits starting at j. */
  function DigitsEnd(s: string, j: nat): (k: nat)
    requires j <= |s|
    ensures j <= k <= |s| && (k == |s| || !IsDigit(s[k]))
    ensures forall m :: j <= m < k ==> IsDigit(s[m])
    decreases |s| - j
  {
    if j < |s| && IsDigit(s[j]) then DigitsEnd(s, j + 1) else j
  }

  /** Where the match at i ends: the digit run after the optional sign. */
  function MatchEnd(s: string, i: nat): (e: nat)
    requires MatchAt(s, i)
    ensures i + 4 <= e <= |s|
  {
    DigitsEnd(s, if s[i + 3] == '-' then i + 4 else i + 3)
  }

  /** The captured group of the match at i: the optional sign and the digits. */
  function Group(s: string, i: nat): string
    requires MatchAt(s, i)
  {
    s[i + 3..MatchEnd(s, i)]
  }

  /** find: the first match starting at or after from. */
  function Find(s: string, from: nat): (m: Option<nat>)
    ensures m.Some? ==> from <= m.value && MatchAt(s, m.value)
    ensures m.Some? ==> forall j :: from <= j < m.value ==> !MatchAt(s, j)
    ensures m.None? ==> forall j :: from <= j ==> !MatchAt(s, j)
    decreases |s| - from
  {
    if from + 4 > |s| then None
    else if MatchAt(s, from) then Some(from)
    else Find(s, from + 1)
  }

  /** The groups of the successive non-overlapping matches from position from: the scan
      moves on one character after a failed start and past the match after a match. */
  function Groups(s: string, from: nat): seq<string>
    decreases |s| - from
  {
    if from + 4 > |s| then []
    else if MatchAt(s, from) then [Group(s, from)] + Groups(s, MatchEnd(s, from))
    else Groups(s, from + 1)
  }

  /** Each find call yields the next group. */
  lemma {:induction false} FindGroups(s: string, from: nat)
    ensures Groups(s, from) == match Find(s, from)
      case None => []
      case Some(i) => [Group(s, i)] + Groups(s, MatchEnd(s, i))
    decreases |s| - from
  {
    if from + 4 <= |s| && !MatchAt(s, from) {
      FindGroups(s, from + 1);
    }
  }

  /** The seed after the loop "seed = parseInt(group)" over the groups: a group outside int
      range makes parseInt throw, which ends the loop with the seed of the last good one. */
  function SeedAfter(groups: seq<string>, seed: int): (r: (int, bool))
    ensures r.1 <==> forall i :: 0 <= i < |groups| ==> ParseInt(groups[i]).Some?
  {
    if groups == [] then (seed, true)
    else match ParseInt(groups[0])
      case None => (seed, false)
      case Some(v) => SeedAfter(groups[1..], v)
  }

  class MarioConfig {
    var options: Option<string>
    var seed: int

    constructor()
      ensures options == None && seed == -1
    {
      options := None;
      seed := -1;
    }

    function GetOptions(): Option<string>
      reads this
    {
      options
    }

    function GetSeed(): int
      reads this
    {
      seed
    }

    /** setOptions: the options are stored as given; no options reset the seed to -1;
        otherwise each match of "ls <int>" in turn sets the seed. ok is false when a matched
        number is out of int range (parseInt throws). */
    method SetOptions(o: Option<string>) returns (ok: bool)
      modifies this
      ensures GetOptions() == o
      ensures o.None? ==> GetSeed() == -1 && ok
      ensures o.Some? ==> (GetSeed(), ok) == SeedAfter(Groups(o.value, 0), old(GetSeed()))
    {
      options := o;
      if o.None? {
        seed := -1;
        return true;
      }
      var s := o.value;
      var from := 0;
      ok := true;
      while true
        invariant from <= |s|
        invariant SeedAfter(Groups(s, 0), old(seed)) == SeedAfter(Groups(s, from), seed)
        invariant options == o
        decreases |s| - from
      {
        FindGroups(s, from);
        var m := Find(s, from);
        if m.None? {
          break;
        }
        var v := ParseInt(Group(s, m.value));
        if v.None? {
          return false;
        }
        seed := v.value;
        from := MatchEnd(s, m.value);
      }
    }
  }

  /** The last match wins: when every matched number is an int, the seed is the value of
      the last group, or the previous seed when nothing matches. */
  lemma {:induction false} LastMatchWins(groups: seq<string>, seed: int)
    requires forall i :: 0 <= i < |groups| ==> ParseInt(groups[i]).Some?
    ensures SeedAfter(groups, seed).0 == if groups == [] then seed else ParseInt(groups[|groups| - 1]).value
  {
    if groups != [] {
      assert ParseInt(groups[0]).Some?;
      LastMatchWins(groups[1..], ParseInt(groups[0]).value);
    }
  }

  /** A group is an optional '-' followed by at least one digit, so parseInt rejects it only
      when its value is outside int range. */
  lemma GroupShape(s: string, i: nat)
    requires MatchAt(s, i)
    ensures var g := Group(s, i);
      && |g| >= 1
      && (g[0] == '-' ==> |g| >= 2 && AllDigits(g[1..]))
      && (g[0] != '-' ==> AllDigits(g))
  {
  }

  /** The options string generated for a run: the prototype, " -ls " and the seed. The
      prototype's own matches are kept and the seed is the last group, so when every number
      the prototype itself matches is an int, the configured seed is the generated one. */
  lemma AppendedSeedIsLastGroup(p: string, n: int)
    requires IsInt(n)
    ensures Groups(p + " -ls " + Show(n), 0) == Groups(p, 0) + [Show(n)]
    ensures SeedAfter(Groups(p + " -ls " + Show(n), 0), -1).1 <==> SeedAfter(Groups(p, 0), -1).1
    ensures SeedAfter(Groups(p, 0), -1).1 ==> SeedAfter(Groups(p + " -ls " + Show(n), 0), -1) == (n, true)
  {
    var t := " -ls " + Show(n);
    assert p + " -ls " + Show(n) == p + t;
    PrefixGroups(p, t, 0);
    TailGroups(p, Show(n));
    var gp := Groups(p, 0);
    var gs := gp + [Show(n)];
    ShowParseRoundTrip(n);
    assert forall i :: 0 <= i < |gp| ==> gs[i] == gp[i];
    assert (forall i :: 0 <= i < |gs| ==> ParseInt(gs[i]).Some?) <==> (forall i :: 0 <= i < |gp| ==> ParseInt(gp[i]).Some?);
    if SeedAfter(gp, -1).1 {
      LastMatchWins(gs, -1);
    }
  }

  /** Scanning the p part of p + t, where t starts with " -l", finds the matches of p
      alone and then goes on at the end of p. */
  lemma {:induction false} PrefixGroups(p: string, t: string, from: nat)
    requires |t| >= 4 && t[0] == ' ' && t[1] == '-' && t[2] == 'l'
    requires from <= |p|
    ensures Groups(p + t, from) == Groups(p, from) + Groups(p + t, |p|)
    decreases |p| - from
  {
    if from < |p| {
      MatchAgrees(p, t, from);
      if from + 4 > |p| {
        assert Groups(p, from) == [] == Groups(p, from + 1);
        PrefixGroups(p, t, from + 1);
      } else if MatchAt(p, from) {
        PrefixGroups(p, t, MatchEnd(p, from));
      } else {
        PrefixGroups(p, t, from + 1);
      }
    }
  }

  /** At a position of p, p + t (t starting with " -l") has a match exactly when p has,
      with the same end and group. */
  lemma MatchAgrees(p: string, t: string, j: nat)
    requires |t| >= 3 && t[0] == ' ' && t[1] == '-' && t[2] == 'l'
    requires j < |p|
    ensures MatchAt(p + t, j) == MatchAt(p, j)
    ensures MatchAt(p, j) ==> MatchEnd(p + t, j) == MatchEnd(p, j) && Group(p + t, j) == Group(p, j)
  {
    var s := p + t;
    if j + 4 <= |p| {
      assert s[j] == p[j] && s[j + 1] == p[j + 1] && s[j + 2] == p[j + 2] && s[j + 3] == p[j + 3];
      if j + 5 <= |p| {
        assert s[j + 4] == p[j + 4];
      } else {
        assert s[j + 4] == ' ';
      }
      if MatchAt(p, j) {
        DigitsEndAgrees(p, t, if p[j + 3] == '-' then j + 4 else j + 3);
        assert s[j + 3..MatchEnd(p, j)] == p[j + 3..MatchEnd(p, j)];
      }
    } else if j + 3 == |p| {
      assert s[j + 3] == ' ';
    } else if j + 2 == |p| {
      assert s[j + 2] == ' ';
    } else {
      assert s[j + 1] == ' ';
    }
  }

  lemma {:induction false} DigitsEndAgrees(p: string, t: string, j: nat)
    requires |t| >= 1 && t[0] == ' ' && j <= |p|
    ensures DigitsEnd(p + t, j) == DigitsEnd(p, j)
    decreases |p| - j
  {
    if j < |p| {
      assert (p + t)[j] == p[j];
      if IsDigit(p[j]) {
        DigitsEndAgrees(p, t, j + 1);
      }
    } else {
      assert (p + t)[j] == ' ';
    }
  }

  /** The characters of " -ls " + d. */
  lemma SuffixChars(d: string)
    ensures var t := " -ls " + d;
      && |t| == |d| + 5 && t[0] == ' ' && t[1] == '-' && t[2] == 'l' && t[3] == 's' && t[4] == ' '
      && t[5..] == d
  {
  }

  /** From the end of p, " -ls " + d, with d the text of an int, holds one match, whose
      group is d. */
  lemma TailGroups(p: string, d: string)
    requires |d| >= 1
    requires d[0] == '-' ==> |d| >= 2 && forall i :: 1 <= i < |d| ==> IsDigit(d[i])
    requires d[0] != '-' ==> forall i :: 0 <= i < |d| ==> IsDigit(d[i])
    ensures Groups(p + (" -ls " + d), |p|) == [d]
  {
    var t := " -ls " + d;
    var s := p + t;
    SuffixChars(d);
    var i := |p| + 2;
    assert s[|p|] == t[0] && s[|p| + 1] == t[1];
    assert s[i] == t[2] && s[i + 1] == t[3] && s[i + 2] == t[4] && s[i + 3] == d[0];
    assert s[i + 3..] == d;
    assert MatchAt(s, i) by {
      if d[0] == '-' {
        assert s[i + 4] == d[1];
      }
    }
    DigitsToEnd(s, if s[i + 3] == '-' then i + 4 else i + 3);
    assert MatchEnd(s, i) == |s|;
    assert Group(s, i) == d;
    assert Groups(s, |s|) == [];
    assert Groups(s, i) == [d];
    assert Groups(s, |p|) == Groups(s, |p| + 1) == Groups(s, i);
  }

  lemma {:induction false} DigitsToEnd(s: string, j: nat)
    requires j <= |s| && forall m :: j <= m < |s| ==> IsDigit(s[m])
    ensures DigitsEnd(s, j) == |s|
    decreases |s| - j
  {
    if j < |s| {
      DigitsToEnd(s, j + 1);
    }
  }
}
