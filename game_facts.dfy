/** What the play loop guarantees, proved about its state machine. */
module PigGameFacts {
  import opened PigRules
  import opened PigPlayer
  import opened PigScores
  import opened PigGame

  predicate AllSound(ps: seq<PlayerState>) {
    forall i :: 0 <= i < |ps| ==> Sound(ps[i])
  }

  /** Same players, same names, and no score lower than before. */
  predicate NoLoss(before: seq<PlayerState>, after: seq<PlayerState>) {
    |after| == |before| &&
    forall i :: 0 <= i < |before| ==> after[i].name == before[i].name && after[i].score >= before[i].score
  }

  lemma FairDiceTail(f: Feed)
    requires FairDice(f) && f.dice != []
    ensures FairDice(f.(dice := f.dice[1..]))
  {
    forall i | 0 <= i < |f.dice[1..]| ensures IsDie(f.dice[1..][i]) {
      assert f.dice[1..][i] == f.dice[i + 1];
    }
  }

  /** Whatever is typed, no player's score ever goes down while the game is
      played, the players stay the same and the turn index stays in range. */
  lemma {:induction false} RunNeverLowersScores(rules: Rules, b: Board, inTurn: bool, f: Feed)
    requires ValidBoard(b) && AllSound(b.players) && FairDice(f)
    ensures ValidBoard(Run(rules, b, inTurn, f).board)
    ensures AllSound(Run(rules, b, inTurn, f).board.players)
    ensures NoLoss(b.players, Run(rules, b, inTurn, f).board.players)
    decreases |f.tokens|, if inTurn then 0 else 1
  {
    if !inTurn {
      if AllBelow(b.players, rules.winningScore) {
        RunNeverLowersScores(rules, b, true, f);
      }
    } else if f.tokens != [] {
      var command := f.tokens[0];
      var rest := f.(tokens := f.tokens[1..]);
      var p := b.players[b.current];
      if command == "r" {
        if rest.dice != [] {
          var v := rest.dice[0];
          var b' := SetCurrent(b, Rolled(p, v));
          MoveKeepsSoundAndScore(p, RollMove(v));
          FairDiceTail(rest);
          if v == 1 {
            EndTurnNeverLowersScores(rules, b', rest.(dice := rest.dice[1..]));
          } else {
            RunNeverLowersScores(rules, b', true, rest.(dice := rest.dice[1..]));
          }
        }
      } else if command == "h" {
        MoveKeepsSoundAndScore(p, HoldMove);
        EndTurnNeverLowersScores(rules, SetCurrent(b, Held(p)), rest);
      } else if command != "q" {
        RunNeverLowersScores(rules, b, true, rest);
      }
    }
  }

  lemma {:induction false} EndTurnNeverLowersScores(rules: Rules, b: Board, f: Feed)
    requires ValidBoard(b) && AllSound(b.players) && FairDice(f)
    ensures ValidBoard(EndTurn(rules, b, f).board)
    ensures AllSound(EndTurn(rules, b, f).board.players)
    ensures NoLoss(b.players, EndTurn(rules, b, f).board.players)
    decreases |f.tokens|, 2
  {
    if TurnVerdict(b.players, b.current, rules.winningScore) == NextTurn {
      var advanced := b.(current := Next(b.current, |b.players|));
      if !rules.timed {
        RunNeverLowersScores(rules, advanced, false, f);
      } else if f.clock != [] {
        if f.clock[0] < TimeLimit {
          RunNeverLowersScores(rules, advanced, false, f.(clock := f.clock[1..]));
        } else if f.tokens != [] && f.tokens[0] == "yes" {
          RunNeverLowersScores(rules, b, false, f.(tokens := f.tokens[1..], clock := f.clock[1..]));
        }
      }
    }
  }

  /** Why a game ends: a win is exactly what the end-of-turn checks say of the
      final scores; a time-up names the top scorers and happens only in a
      timed game; a game that finishes silently has someone at or above the
      winning score. */
  predicate Justified(rules: Rules, fin: Finish) {
    ValidBoard(fin.board) &&
    (fin.outcome.Won? ==>
       TurnVerdict(fin.board.players, fin.board.current, rules.winningScore) == Winners(fin.outcome.winners)) &&
    (fin.outcome.TimeUp? ==> rules.timed && fin.outcome.winners == TopScorers(fin.board.players)) &&
    (fin.outcome.Finished? ==> !AllBelow(fin.board.players, rules.winningScore))
  }

  lemma {:induction false} RunOutcomeJustified(rules: Rules, b: Board, inTurn: bool, f: Feed)
    requires ValidBoard(b)
    ensures Justified(rules, Run(rules, b, inTurn, f))
    decreases |f.tokens|, if inTurn then 0 else 1
  {
    if !inTurn {
      if AllBelow(b.players, rules.winningScore) {
        RunOutcomeJustified(rules, b, true, f);
      }
    } else if f.tokens != [] {
      var command := f.tokens[0];
      var rest := f.(tokens := f.tokens[1..]);
      var p := b.players[b.current];
      if command == "r" {
        if rest.dice != [] {
          var v := rest.dice[0];
          var b' := SetCurrent(b, Rolled(p, v));
          if v == 1 {
            EndTurnOutcomeJustified(rules, b', rest.(dice := rest.dice[1..]));
          } else {
            RunOutcomeJustified(rules, b', true, rest.(dice := rest.dice[1..]));
          }
        }
      } else if command == "h" {
        EndTurnOutcomeJustified(rules, SetCurrent(b, Held(p)), rest);
      } else if command != "q" {
        RunOutcomeJustified(rules, b, true, rest);
      }
    }
  }

  lemma {:induction false} EndTurnOutcomeJustified(rules: Rules, b: Board, f: Feed)
    requires ValidBoard(b)
    ensures Justified(rules, EndTurn(rules, b, f))
    decreases |f.tokens|, 2
  {
    if TurnVerdict(b.players, b.current, rules.winningScore) == NextTurn {
      var advanced := b.(current := Next(b.current, |b.players|));
      if !rules.timed {
        RunOutcomeJustified(rules, advanced, false, f);
      } else if f.clock != [] {
        if f.clock[0] < TimeLimit {
          RunOutcomeJustified(rules, advanced, false, f.(clock := f.clock[1..]));
        } else if f.tokens != [] && f.tokens[0] == "yes" {
          RunOutcomeJustified(rules, b, false, f.(tokens := f.tokens[1..], clock := f.clock[1..]));
        }
      }
    }
  }

  /** The winners of a finished game: a single player at the fixed target, or
      every player; when time is up, exactly the players no one outscores. */
  lemma WinnersOfAGame(rules: Rules, b: Board, f: Feed)
    requires ValidBoard(b)
    ensures var fin := Run(rules, b, false, f);
      var ps := fin.board.players;
      ValidBoard(fin.board) &&
      (fin.outcome.Won? ==>
         (fin.outcome.winners == [fin.board.current] && ps[fin.board.current].score >= Target) ||
         (AllReached(ps, rules.winningScore) && forall i :: 0 <= i < |ps| <==> i in fin.outcome.winners)) &&
      (fin.outcome.TimeUp? ==>
         rules.timed && fin.outcome.winners != [] &&
         forall i :: 0 <= i < |ps| ==>
           (i in fin.outcome.winners <==> forall j :: 0 <= j < |ps| ==> ps[j].score <= ps[i].score))
  {
    RunOutcomeJustified(rules, b, false, f);
    var fin := Run(rules, b, false, f);
    VerdictMeaning(fin.board.players, fin.board.current, rules.winningScore);
    if fin.outcome.TimeUp? {
      TopScorersAreLeaders(fin.board.players);
    }
  }

  /** A command other than "r", "h" and "q" is read and changes nothing. */
  lemma UnknownCommandIgnored(rules: Rules, b: Board, command: string, f: Feed)
    requires ValidBoard(b)
    requires command != "r" && command != "h" && command != "q"
    ensures Run(rules, b, true, f.(tokens := [command] + f.tokens)) == Run(rules, b, true, f)
  {
    assert ([command] + f.tokens)[1..] == f.tokens;
  }

  /** "q" ends the game at once, with no winner and the state as it was. */
  lemma QuitStops(rules: Rules, b: Board, f: Feed)
    requires ValidBoard(b)
    ensures Run(rules, b, true, f.(tokens := ["q"] + f.tokens)) == Finish(Quit, b)
  {
  }

  /** A player at 95 rolls a 3 and holds: 98 + 3 reaches the target of 100 and
      that player alone wins, although the winning score is 140. */
  lemma TargetWinScenario()
    ensures Run(Rules(ConfiguredWinningScore, true),
                Board([PlayerState("Player 1", 95, 0), PlayerState("Player 2", 0, 0)], 0), false,
                Feed(["r", "h"], [3], []))
         == Finish(Won([0]), Board([PlayerState("Player 1", 101, 0), PlayerState("Player 2", 0, 0)], 0))
  {
  }

  /** A turn ends after the time limit and the player declines another game:
      the higher score wins and the turn index has not moved. */
  lemma TimeUpScenario()
    ensures Run(Rules(ConfiguredWinningScore, true),
                Board([PlayerState("Player 1", 10, 0), PlayerState("Player 2", 30, 0)], 0), false,
                Feed(["h", "no"], [], [TimeLimit]))
         == Finish(TimeUp([1]), Board([PlayerState("Player 1", 10, 0), PlayerState("Player 2", 30, 0)], 0))
  {
    var ps := [PlayerState("Player 1", 10, 0), PlayerState("Player 2", 30, 0)];
    assert MaxScore(ps) == 30 by {
      assert ps[1..] == [ps[1]];
    }
    var keep := (p: PlayerState) => p.score == 30;
    assert ps[..1] == [ps[0]] && [ps[0]][..0] == [];
    assert Where(ps[..1], keep) == [];
    assert TopScorers(ps) == [1];
    var rules := Rules(ConfiguredWinningScore, true);
    var b := Board(ps, 0);
    assert !AllReached(ps, ConfiguredWinningScore) && AllBelow(ps, ConfiguredWinningScore);
    assert EndTurn(rules, b, Feed(["no"], [], [TimeLimit])) == Finish(TimeUp([1]), b);
    assert SetCurrent(b, Held(ps[0])) == b;
    assert Run(rules, b, true, Feed(["h", "no"], [], [TimeLimit])) == Finish(TimeUp([1]), b);
  }
}
