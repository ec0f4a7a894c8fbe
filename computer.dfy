/** The computer player's roll-or-hold policy. */
module PigComputer {
  import opened PigRules

  /** "r" (roll) while the turn total is below both the roll threshold and what
      is still missing to the fixed target; "h" (hold) otherwise. */
  function Decide(score: int, turnTotal: int): (d: string)
    ensures d == "r" || d == "h"
    ensures d == "h" <==> turnTotal >= Min(RollThreshold, Target - score)
  {
    if turnTotal < Min(RollThreshold, Target - score) then "r" else "h"
  }

  /** The policy holds exactly when the turn total has reached the threshold, or
      when score and turn total together reach the target. */
  lemma DecideHoldsAtEitherBound(score: int, turnTotal: int)
    ensures Decide(score, turnTotal) == "h" <==>
            (turnTotal >= RollThreshold || score + turnTotal >= Target)
  {
  }

  /** Once the policy holds, more points (in the turn or banked) keep it holding. */
  lemma DecideMonotone(score: int, turnTotal: int, score': int, turnTotal': int)
    requires score <= score' && turnTotal <= turnTotal'
    requires Decide(score, turnTotal) == "h"
    ensures Decide(score', turnTotal') == "h"
  {
  }
}
