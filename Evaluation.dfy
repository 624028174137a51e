/**
 * The outcome of one simulated run, as the tournament records it: Mario's final status and
 * the time left decide whether the run was won, lost, timed out or is still going.
 */
module Evaluation {

  import opened JavaInt

  /** The four outcomes, in declaration order (both evaluation classes declare the same
      enum). */
  datatype EvaluationResult = LEVEL_TIMEDOUT | MARIO_DIED | VICTORY | SIMULATION_RUNNING

  /** Mario's status codes. The sprite class that declares them is not part of this model;
      only their being distinct matters. */
  const STATUS_RUNNING := 0
  const STATUS_WIN := 1
  const STATUS_DEAD := 2

  function Ordinal(r: EvaluationResult): nat {
    match r
    case LEVEL_TIMEDOUT => 0
    case MARIO_DIED => 1
    case VICTORY => 2
    case SIMULATION_RUNNING => 3
  }

  /** The enum constant's name, as string concatenation prints it. */
  function Name(r: EvaluationResult): string {
    match r
    case LEVEL_TIMEDOUT => "LEVEL_TIMEDOUT"
    case MARIO_DIED => "MARIO_DIED"
    case VICTORY => "VICTORY"
    case SIMULATION_RUNNING => "SIMULATION_RUNNING"
  }

  const ResultDescription: seq<string> := ["timed out", "died", "victory", "still running"]

  /** The description table has one entry per outcome, indexed by ordinal, and no two
      outcomes share a description or an ordinal. */
  lemma DescriptionPerOutcome(r: EvaluationResult, s: EvaluationResult)
    ensures Ordinal(r) < |ResultDescription| == 4
    ensures r != s ==> Ordinal(r) != Ordinal(s)
    ensures r != s ==> ResultDescription[Ordinal(r)] != ResultDescription[Ordinal(s)]
  {
  }

  /** The fields of a tournament evaluation record the model needs. */
  datatype RunInfo = RunInfo(marioStatus: int, timeLeft: int, timeSpent: int, score: int)

  /** getResult of the tournament record; None is the "invalid evaluation state" exception.
      A dead Mario with no time left counts as timed out; a running one is still running
      whatever the clock says. */
  function GetResult(info: RunInfo): (r: Option<EvaluationResult>)
    ensures r.None? <==> info.marioStatus !in {STATUS_RUNNING, STATUS_WIN, STATUS_DEAD}
    ensures r == Some(SIMULATION_RUNNING) <==> info.marioStatus == STATUS_RUNNING
    ensures r == Some(VICTORY) <==> info.marioStatus == STATUS_WIN
    ensures r == Some(LEVEL_TIMEDOUT) <==> info.marioStatus == STATUS_DEAD && info.timeLeft <= 0
    ensures r == Some(MARIO_DIED) <==> info.marioStatus == STATUS_DEAD && info.timeLeft > 0
  {
    if info.marioStatus == STATUS_RUNNING then Some(SIMULATION_RUNNING)
    else if info.marioStatus == STATUS_WIN then Some(VICTORY)
    else if info.marioStatus == STATUS_DEAD then
      (if info.timeLeft <= 0 then Some(LEVEL_TIMEDOUT) else Some(MARIO_DIED))
    else None
  }
}
