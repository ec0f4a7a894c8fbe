/** Fixed numbers of the game of Pig as this program plays it. */
module PigRules {
  /** Score that ends the game for the player who reaches it, and the computer's goal. */
  const Target: int := 100
  /** Turn total at which the computer player stops rolling. */
  const RollThreshold: int := 25
  /** Seconds after which the timed game ends at the next change of player. */
  const TimeLimit: int := 60
  /** Winning score that the program's entry point configures. */
  const ConfiguredWinningScore: int := 140

  /** A value a six-sided die can show. */
  predicate IsDie(v: int) {
    1 <= v <= 6
  }

  function Min(a: int, b: int): int {
    if a <= b then a else b
  }
}
