# Pig, modelled in Dafny

This project models the core of a text-console implementation of the dice game
Pig for two or more players, human or computer, with an optional time limit.
It covers these parts:

- the player state (`score`, `turn_total`) and its two moves, roll and hold;
- the computer player's roll-or-hold policy;
- the factory that builds players from a type tag;
- the game's cyclic turn index;
- the turn loop: `r` rolls, `h` holds, `q` quits, anything else is ignored;
- the end-of-turn win checks;
- the timed proxy. Once 60 seconds have elapsed, it ends the game at the next
  change of player and announces every player tied at the top score.

The program reads typed commands, draws die values at random and reads the
wall clock. Here all three are parameters. `Game.Play` reads its commands from
`tokens` (already in lower case), its die values from `dice` (each in 1..6),
and the seconds elapsed since play began from `clock` (read only in a timed
game, once per change of player). A quit, and a "no" to the replay question
after time is up, end the program. Here each one is a returned `Outcome`.

Files, one module each (`game.dfy` holds two):

- `rules.dfy` (`PigRules`): the fixed numbers. These are the target 100, the
  roll threshold 25, the time limit 60 and the configured winning score 140.
- `computer.dfy` (`PigComputer`): the policy `Decide`.
- `player.dfy` (`PigPlayer`): the value view `PlayerState`, the move functions
  `Rolled` and `Held`, lemmas about move sequences, and the `Player` class.
- `factory.dfy` (`PigFactory`): `KindOf`, `TagOf` and `CreatePlayer`.
- `scores.dfy` (`PigScores`): selecting the players that pass a test, the
  maximum score, and the top scorers.
- `game.dfy` (`PigGame`): the value view `Board`, the next-player function `Next`, the
  end-of-turn `TurnVerdict`, and the play loop as a state machine (`Run` and
  `EndTurn`).
- `game.dfy` (`PigGameObject`): the `Game` class. Its `Play` method is proved
  to end in exactly the outcome and state that `Run` gives.
- `game_facts.dfy` (`PigGameFacts`): what every game guarantees. Scores never
  drop. A win is what the end-of-turn checks say. A time-up names exactly the
  top scorers.

The hold quirk is reproduced as written. A roll that is not 1 adds to the
score at once (IS211_Assignment8.py:19). Holding then adds the turn total
again (IS211_Assignment8.py:23). `PigPlayer.HoldDoubleCounts` proves the
consequence: rolls followed by a hold bank their sum twice, while the same
rolls followed by a 1 keep it once.

Two behaviours of the program worth noting:

- After time is up, the replay question is answered from the same input. The
  program stops unless the answer is exactly `yes`. On `yes`, `end_game`
  returns into `switch_player`, which returns without switching. The play
  loop then goes on with the same game and the same player; no new game is
  started. `EndTurn` models this: it goes back to the loop guard with the
  turn index unchanged.
- The loop guard of `play` (IS211_Assignment8.py:64) stops the game without
  an announcement once any player has reached the winning score. This can
  happen when the winning score is below 100. The model returns `Finished`.

The timed proxy subclasses the game in the program. Here one class, `Game`,
carries the proxy's `timed` flag. `SwitchPlayer` is the base class's change of
player. `SwitchPlayerTimed` is the proxy's override, and `Play` always calls
it, as the program's dynamic dispatch does. With `timed` false, the class
behaves as the base game.

## Model

| member | source | states |
|---|---|---|
| `PigComputer.Decide` | IS211_Assignment8.py:37-39 | the advice is "r" or "h", and it is "h" exactly when the turn total is at least min(25, 100 - score) |
| `PigComputer.DecideHoldsAtEitherBound` | IS211_Assignment8.py:37-39 | the policy holds exactly when the turn total has reached 25, or score plus turn total has reached 100 |
| `PigComputer.DecideMonotone` | IS211_Assignment8.py:37-39 | once the policy holds, a higher score or turn total keeps it holding |
| `PigPlayer.Player.constructor` | IS211_Assignment8.py:8-11 | a new player has the given name, score 0 and turn total 0 |
| `PigPlayer.Player.RollDie` | IS211_Assignment8.py:13-20 | returns the die value v; a 1 sets the turn total to 0 and keeps the score; any other v adds v to both the turn total and the score |
| `PigPlayer.Player.Hold` | IS211_Assignment8.py:22-24 | the score grows by the previous turn total, the turn total becomes 0, the name is unchanged |
| `PigPlayer.Player.Decide` | IS211_Assignment8.py:27-39 | only for a computer player; "h" exactly when the turn total is at least min(25, 100 - score), else "r" |
| `PigPlayer.Rolled` | IS211_Assignment8.py:13-20 | the value effect of a roll (a 1 resets the turn total, any other value adds to both fields); it keeps the name, and a roll in 1..6 keeps a sound state sound and never lowers the score |
| `PigPlayer.Held` | IS211_Assignment8.py:22-24 | the value effect of a hold; it keeps the name, leaves the turn total 0, and keeps the score from falling exactly when the turn total was not negative |
| `PigPlayer.MoveKeepsSoundAndScore` | IS211_Assignment8.py:13-24 | one roll in 1..6 or one hold keeps score and turn total non-negative, keeps the name and never lowers the score |
| `PigPlayer.ReplayKeepsSoundAndScore` | IS211_Assignment8.py:13-24 | the same holds for any sequence of rolls and holds |
| `PigPlayer.ScoreNeverDecreases` | IS211_Assignment8.py:8-24 | from a new player, the score after any prefix of rolls in 1..6 and holds is at most the score after any longer prefix |
| `PigPlayer.RollsAddToBoth` | IS211_Assignment8.py:15-19 | a run of rolls that are not 1 adds their sum to the turn total and to the score |
| `PigPlayer.HoldDoubleCounts` | IS211_Assignment8.py:13-24 | from the start of a turn, rolls that are not 1 and then a hold raise the score by twice their sum; the same rolls and then a 1 raise it by their sum once; both leave the turn total 0 |
| `PigPlayer.RollAndHoldScenario` | IS211_Assignment8.py:13-24 | rolls 5, 4, 1 give (score, turn total) (5,5), (9,9), (9,0); holding at (9,9) gives (18,0) |
| `PigFactory.KindOf` | IS211_Assignment8.py:44-50 | a tag names a kind exactly when it is "human" or "computer" |
| `PigFactory.TagRoundTrip` | IS211_Assignment8.py:44-50 | each kind's tag names that kind, and a tag naming a kind is that kind's tag |
| `PigFactory.CreatePlayer` | IS211_Assignment8.py:42-50 | succeeds exactly for "human" and "computer" with a fresh player of that kind, the given name, score 0 and turn total 0; any other tag fails with InvalidPlayerType |
| `PigScores.Where` | IS211_Assignment8.py:97-99 | lists, in player order and without repeats, exactly the players that pass the test |
| `PigScores.MaxScore` | IS211_Assignment8.py:134 | the result is some player's score and no score is higher |
| `PigScores.TopScorers` | IS211_Assignment8.py:134-137 | the players tied at the maximum score, in player order; never empty, and every one listed has the maximum score |
| `PigScores.Reaching` | IS211_Assignment8.py:97-99 | the players, in player order, with at least the given score: a player is listed exactly when their score reaches the bound |
| `PigScores.TopScorersAreLeaders` | IS211_Assignment8.py:134-137 | the top scorers are never empty, and a player is one exactly when no player has a higher score |
| `PigGame.Next` | IS211_Assignment8.py:60-61 | the next index is below the number of players: one more, or 0 after the last player |
| `PigGame.AdvanceWithinRound` | IS211_Assignment8.py:60-61 | k changes of player from c, with k at most N, give c + k, wrapped once past N |
| `PigGame.RoundVisitsEveryone` | IS211_Assignment8.py:60-61 | after N changes the turn index is back at its start, and on the way each player has had the turn exactly once |
| `PigGame.TurnVerdict` | IS211_Assignment8.py:91-101 | the end-of-turn checks in order (the current player alone at 100 or more, else every player reaching the winning score, else play goes on); any winners named are non-empty, in range, and include the current player |
| `PigGame.Run` | IS211_Assignment8.py:63-90 | the play loop as a state machine (the loop guard; r rolls and a 1 ends the turn; h holds and ends the turn; q quits; anything else is ignored), the reference definition for `Play` and the game lemmas; it keeps the players' number and a turn index in range |
| `PigGame.EndTurn` | IS211_Assignment8.py:91-142 | the win checks, then the change of player; in a timed game at 60 seconds or more the top scorers are announced and the replay answer decides between stopping and going on with the turn index unchanged; it keeps the players' number and a turn index in range |
| `PigGame.VerdictMeaning` | IS211_Assignment8.py:91-101 | a current player at 100 or more wins alone; otherwise, if every player has reached the winning score, every player wins; play goes on exactly when the current player is below 100 and some player is below the winning score |
| `PigGameObject.Game.constructor` | IS211_Assignment8.py:54-57 | the game keeps the given players, winning score and timed flag, and starts at player 0 |
| `PigGameObject.Game.SwitchPlayer` | IS211_Assignment8.py:60-61 | the turn index becomes (current + 1) mod N and stays in range |
| `PigGameObject.Game.EndGame` | IS211_Assignment8.py:133-137 | the announced winners are never empty, and they are exactly the players whom no player outscores |
| `PigGameObject.Game.SwitchPlayerTimed` | IS211_Assignment8.py:125-131 | in a timed game with at least 60 seconds elapsed, the game is ended with the top scorers and the turn index stays; otherwise the turn index advances as in the untimed game |
| `PigGameObject.Game.TakeTurn` | IS211_Assignment8.py:65-90 | reads commands until a roll of 1, a hold or a quit, ignoring other commands; the state reached is the one the game's state machine reaches |
| `PigGameObject.Game.EndTurnChecks` | IS211_Assignment8.py:91-131 | applies the two win checks in order, then changes player (with the time cutoff) as the state machine does |
| `PigGameObject.Game.Play` | IS211_Assignment8.py:63-112 | the outcome and the final players and turn index are exactly those of the state machine run on the same commands, dice and clock readings |
| `PigGameFacts.RunNeverLowersScores` | IS211_Assignment8.py:63-112 | whatever is typed, the players keep their names and their number, no score goes down, scores and turn totals stay non-negative, and the turn index stays in range |
| `PigGameFacts.EndTurnNeverLowersScores` | IS211_Assignment8.py:91-131 | the same, from the end-of-turn checks on |
| `PigGameFacts.RunOutcomeJustified` | IS211_Assignment8.py:63-112 | a win is exactly what the end-of-turn checks say of the final scores; a time-up happens only in a timed game and names the top scorers; a silent finish means someone reached the winning score |
| `PigGameFacts.EndTurnOutcomeJustified` | IS211_Assignment8.py:91-137 | the same, from the end-of-turn checks on |
| `PigGameFacts.WinnersOfAGame` | IS211_Assignment8.py:63-137 | a win names the current player alone at 100 or more, or every player when all have reached the winning score; a time-up names a non-empty set, exactly the players whom no one outscores |
| `PigGameFacts.UnknownCommandIgnored` | IS211_Assignment8.py:89-90 | a command other than r, h and q is consumed and changes nothing |
| `PigGameFacts.QuitStops` | IS211_Assignment8.py:86-88 | q ends the game at once, with no winner and the state unchanged |
| `PigGameFacts.TargetWinScenario` | IS211_Assignment8.py:91-94 | a player at 95 who rolls 3 and holds reaches 101 and wins alone, although the winning score is 140 |
| `PigGameFacts.TimeUpScenario` | IS211_Assignment8.py:125-142 | a turn ending at 60 seconds, followed by the answer "no", ends the game with the higher scorer as winner and the turn index unmoved |

## Left out

- Random die rolls and `random.seed(0)` (IS211_Assignment8.py:14, 58): the die values are a parameter, each in 1..6.
- The wall clock and `start_time` (IS211_Assignment8.py:119-122, 127): elapsed seconds are an integer parameter, read once per change of player in a timed game; fractional seconds are not modelled.
- Console output and the prompts' wording: no messages are modelled. Winners are returned as player indices, not as the joined names the program prints.
- `.lower()` on input (IS211_Assignment8.py:70, 139): commands and answers are taken as already lower-cased.
- `sys.exit()` (IS211_Assignment8.py:88, 142): modelled as the `Quit` and `TimeUp` outcomes.
- `OutOfInput`: an outcome the program does not have. It ends the model when the commands, dice or clock readings run out; the program would block on input instead.
- The `timed` argument is a string in the program (`"yes"`), used for its truth value; here it is a `bool`.
- The inner command loop and the end-of-turn part of `play` are written as the methods `TakeTurn` and `EndTurnChecks`; `Play` keeps the outer loop. The order of reads and updates is unchanged.
- `main()` (IS211_Assignment8.py:145-176): interactive setup, `int()` parsing of the player count, and the outer replay loop are console plumbing.
- The commented-out `ComputerPlayer.roll_die` and win check (IS211_Assignment8.py:31-36, 102-110): not part of the program's behaviour. `decide` is modelled but, as in the program, the play loop never consults it.
- `Game` requires a non-empty list of players; with an empty list the program would fail at `self.players[self.current_player]` (IS211_Assignment8.py:65), and its entry point refuses fewer than two players (IS211_Assignment8.py:147-150).
- Aliasing of player objects: `Game` requires that no player object is listed twice, which the program's setup guarantees by building each player fresh.
