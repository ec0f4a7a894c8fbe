/** The game: the turn index, the end-of-turn checks, the optional time
    limit, and the turn loop driven by typed commands. */
module PigGame {
  import opened PigRules
  import opened PigPlayer
  import opened PigScores

  /** The winning score, and whether the time limit applies. */
  datatype Rules = Rules(winningScore: int, timed: bool)

  /** Value view of a game: the players' states and whose turn it is. */
  datatype Board = Board(players: seq<PlayerState>, current: nat)

  predicate ValidBoard(b: Board) {
    0 < |b.players| && b.current < |b.players|
  }

  /** What the program reads while it plays: the typed commands (already in
      lower case, the replay answers among them), the values the die shows,
      and the seconds elapsed since play began, read at each change of player
      in a timed game. */
  datatype Feed = Feed(tokens: seq<string>, dice: seq<int>, clock: seq<int>)

  predicate FairDice(f: Feed) {
    forall i :: 0 <= i < |f.dice| ==> IsDie(f.dice[i])
  }

  /** How a game ends. */
  datatype Outcome =
    | Won(winners: seq<nat>)     // announced by the end-of-turn checks
    | TimeUp(winners: seq<nat>)  // announced when time ran out, then the player declined to go on
    | Quit                       // the player typed "q"
    | Finished                   // the loop guard failed: play returns without an announcement
    | OutOfInput                 // the feed ran dry

  datatype Finish = Finish(outcome: Outcome, board: Board)

  /** A part of the play loop either ends the game or hands on what is left
      of the feed. */
  datatype Step = Stop(outcome: Outcome) | Go(rest: Feed)

  /** The next player's index, cyclically. */
  function Next(c: nat, n: nat): (r: nat)
    requires n > 0
    ensures r < n
    ensures c < n ==> r == if c + 1 < n then c + 1 else 0
  {
    (c + 1) % n
  }

  /** Where the turn index is after k changes of player. */
  function Advance(c: nat, n: nat, k: nat): (r: nat)
    requires n > 0
  {
    if k == 0 then c else Next(Advance(c, n, k - 1), n)
  }

  /** Within one round the turn index moves forward and wraps around once. */
  lemma {:induction false} AdvanceWithinRound(c: nat, n: nat, k: nat)
    requires c < n && k <= n
    ensures Advance(c, n, k) == if c + k < n then c + k else c + k - n
  {
    if k > 0 {
      AdvanceWithinRound(c, n, k - 1);
    }
  }

  /** The players whose turn it is over n changes of player, starting at c. */
  function Round(c: nat, n: nat): (r: seq<nat>)
    requires n > 0
    ensures |r| == n
  {
    seq(n, k requires 0 <= k => Advance(c, n, k))
  }

  /** After as many changes as there are players, the turn index is back where it
      started, having shown every player exactly once on the way. */
  lemma RoundVisitsEveryone(c: nat, n: nat)
    requires c < n
    ensures Advance(c, n, n) == c
    ensures forall j :: 0 <= j < n ==> j in Round(c, n)
    ensures forall k, l :: 0 <= k < l < n ==> Round(c, n)[k] != Round(c, n)[l]
  {
    var r := Round(c, n);
    AdvanceWithinRound(c, n, n);
    forall k | 0 <= k < n ensures r[k] == if c + k < n then c + k else c + k - n {
      AdvanceWithinRound(c, n, k);
    }
    forall j | 0 <= j < n ensures j in r {
      var k := if c <= j then j - c else j + n - c;
      assert r[k] == j;
    }
  }

  /** Result of the checks made when a turn ends. */
  datatype Verdict = Winners(who: seq<nat>) | NextTurn

  /** The current player alone wins at the fixed target; otherwise, if every
      player has reached the winning score, the players reaching it win;
      otherwise play goes on. */
  function TurnVerdict(ps: seq<PlayerState>, c: nat, winningScore: int): (v: Verdict)
    requires c < |ps|
    ensures v.Winners? ==> v.who != [] && c in v.who
    ensures v.Winners? ==> forall k :: 0 <= k < |v.who| ==> v.who[k] < |ps|
  {
    if ps[c].score >= Target then Winners([c])
    else if AllReached(ps, winningScore) then Winners(Reaching(ps, winningScore))
    else NextTurn
  }

  lemma VerdictMeaning(ps: seq<PlayerState>, c: nat, winningScore: int)
    requires c < |ps|
    ensures ps[c].score >= Target ==> TurnVerdict(ps, c, winningScore) == Winners([c])
    ensures ps[c].score < Target && AllReached(ps, winningScore) ==>
              TurnVerdict(ps, c, winningScore).Winners? &&
              forall i :: 0 <= i < |ps| <==> i in TurnVerdict(ps, c, winningScore).who
    ensures TurnVerdict(ps, c, winningScore) == NextTurn <==>
              ps[c].score < Target && exists i :: 0 <= i < |ps| && ps[i].score < winningScore
  {
  }

  function SetCurrent(b: Board, p: PlayerState): Board
    requires ValidBoard(b)
  {
    b.(players := b.players[b.current := p])
  }

  /** The play loop as a state machine.  With inTurn false the machine is at
      the loop guard; with inTurn true it waits for the current player's
      command. */
  function Run(rules: Rules, b: Board, inTurn: bool, f: Feed): (r: Finish)
    requires ValidBoard(b)
    ensures ValidBoard(r.board) && |r.board.players| == |b.players|
    decreases |f.tokens|, if inTurn then 0 else 1
  {
    if !inTurn then
      if AllBelow(b.players, rules.winningScore) then Run(rules, b, true, f)
      else Finish(Finished, b)
    else if f.tokens == [] then Finish(OutOfInput, b)
    else
      var command := f.tokens[0];
      var rest := f.(tokens := f.tokens[1..]);
      if command == "r" then
        if rest.dice == [] then Finish(OutOfInput, b)
        else
          var v := rest.dice[0];
          var b' := SetCurrent(b, Rolled(b.players[b.current], v));
          if v == 1 then EndTurn(rules, b', rest.(dice := rest.dice[1..]))
          else Run(rules, b', true, rest.(dice := rest.dice[1..]))
      else if command == "h" then
        EndTurn(rules, SetCurrent(b, Held(b.players[b.current])), rest)
      else if command == "q" then Finish(Quit, b)
      else Run(rules, b, true, rest)
  }

  /** End-of-turn checks, then the change of player; in a timed game, once
      the time limit is reached, the top scorers are announced instead and the
      answer to the replay question decides whether the program stops. */
  function EndTurn(rules: Rules, b: Board, f: Feed): (r: Finish)
    requires ValidBoard(b)
    ensures ValidBoard(r.board) && |r.board.players| == |b.players|
    decreases |f.tokens|, 2
  {
    match TurnVerdict(b.players, b.current, rules.winningScore)
    case Winners(w) => Finish(Won(w), b)
    case NextTurn =>
      var advanced := b.(current := Next(b.current, |b.players|));
      if !rules.timed then Run(rules, advanced, false, f)
      else if f.clock == [] then Finish(OutOfInput, b)
      else if f.clock[0] < TimeLimit then Run(rules, advanced, false, f.(clock := f.clock[1..]))
      else if f.tokens == [] then Finish(OutOfInput, b)
      else if f.tokens[0] != "yes" then Finish(TimeUp(TopScorers(b.players)), b)
      else Run(rules, b, false, f.(tokens := f.tokens[1..], clock := f.clock[1..]))
  }
}

/** The game object: the Game class of the program together with its timed
    proxy, which only changes how the turn passes (the `timed` flag). */
module PigGameObject {
  import opened PigRules
  import opened PigPlayer
  import opened PigScores
  import opened PigGame

  class Game {
    const players: seq<Player>
    var current: nat
    const winningScore: int
    const timed: bool

    /** The turn index names a player, and no player object is listed twice. */
    ghost predicate Valid()
      reads this
    {
      0 < |players| && current < |players| &&
      forall i, j :: 0 <= i < j < |players| ==> players[i] != players[j]
    }

    function Snapshot(): (ps: seq<PlayerState>)
      reads players
      ensures |ps| == |players|
      ensures forall i :: 0 <= i < |players| ==> ps[i] == players[i].State()
    {
      seq(|players|, i requires 0 <= i < |players| reads players => players[i].State())
    }

    function View(): Board
      reads this, players
    {
      Board(Snapshot(), current)
    }

    function GameRules(): Rules
      reads this
    {
      Rules(winningScore, timed)
    }

    constructor (players: seq<Player>, winningScore: int, timed: bool)
      requires 0 < |players|
      requires forall i, j :: 0 <= i < j < |players| ==> players[i] != players[j]
      ensures Valid()
      ensures this.players == players && this.winningScore == winningScore && this.timed == timed
      ensures current == 0
    {
      this.players := players;
      this.winningScore := winningScore;
      this.timed := timed;
      current := 0;
    }

    /** Pass the turn to the next player, cyclically. */
    method SwitchPlayer()
      requires Valid()
      modifies this`current
      ensures Valid()
      ensures current == Next(old(current), |players|)
    {
      current := (current + 1) % |players|;
    }

    /** The players tied at the highest score, announced when time runs out. */
    method EndGame() returns (winners: seq<nat>)
      requires Valid()
      ensures winners == TopScorers(Snapshot())
      ensures winners != []
      ensures forall k :: 0 <= k < |winners| ==> winners[k] < |players|
      ensures forall i :: 0 <= i < |players| ==>
                (i in winners <==> forall j :: 0 <= j < |players| ==> players[j].score <= players[i].score)
    {
      var ps := Snapshot();
      winners := TopScorers(ps);
      TopScorersAreLeaders(ps);
    }

    /** The timed proxy's change of player: with the time limit reached, the
        game is ended instead and the turn index stays where it is. */
    method SwitchPlayerTimed(elapsed: int) returns (winners: seq<nat>, timeUp: bool)
      requires Valid()
      modifies this`current
      ensures Valid()
      ensures timeUp == (timed && elapsed >= TimeLimit)
      ensures timeUp ==> winners == TopScorers(Snapshot())
      ensures current == if timeUp then old(current) else Next(old(current), |players|)
    {
      winners := [];
      timeUp := false;
      if timed {
        if elapsed >= TimeLimit {
          winners := EndGame();
          timeUp := true;
          return;
        }
      }
      SwitchPlayer();
    }

    /** One player's turn: commands are read until a roll of 1, a hold or a
        quit; any other command is ignored. */
    method TakeTurn(feed: Feed) returns (step: Step)
      requires Valid() && FairDice(feed)
      modifies players
      ensures Valid()
      ensures step.Stop? ==> Finish(step.outcome, View()) == Run(GameRules(), old(View()), true, feed)
      ensures step.Go? ==> EndTurn(GameRules(), View(), step.rest) == Run(GameRules(), old(View()), true, feed)
      ensures step.Go? ==> FairDice(step.rest) && |step.rest.tokens| < |feed.tokens|
    {
      ghost var goal := Run(GameRules(), View(), true, feed);
      var player := players[current];
      var f := feed;
      while true
        invariant Valid() && FairDice(f) && |f.tokens| <= |feed.tokens|
        invariant player == players[current]
        invariant Run(GameRules(), View(), true, f) == goal
        decreases |f.tokens|
      {
        ghost var before := View();
        if f.tokens == [] {
          return Stop(OutOfInput);
        }
        var decision := f.tokens[0];
        f := f.(tokens := f.tokens[1..]);
        if decision == "r" {
          if f.dice == [] {
            return Stop(OutOfInput);
          }
          var roll := player.RollDie(f.dice[0]);
          f := f.(dice := f.dice[1..]);
          assert Snapshot() == before.players[current := player.State()];
          if roll == 1 {
            return Go(f);
          }
        } else if decision == "h" {
          player.Hold();
          assert Snapshot() == before.players[current := player.State()];
          return Go(f);
        } else if decision == "q" {
          return Stop(Quit);
        }
      }
    }

    /** The checks made when a turn ends, then the change of player; when
        time is up, the replay answer is read from the feed. */
    method EndTurnChecks(feed: Feed) returns (step: Step)
      requires Valid()
      modifies this`current
      ensures Valid()
      ensures step.Stop? ==> Finish(step.outcome, View()) == EndTurn(GameRules(), old(View()), feed)
      ensures step.Go? ==> Run(GameRules(), View(), false, step.rest) == EndTurn(GameRules(), old(View()), feed)
      ensures step.Go? ==> step.rest.dice == feed.dice && |step.rest.tokens| <= |feed.tokens|
    {
      var player := players[current];
      if player.score >= Target {
        return Stop(Won([current]));
      } else if forall i :: 0 <= i < |players| ==> players[i].score >= winningScore {
        assert AllReached(Snapshot(), winningScore);
        return Stop(Won(Reaching(Snapshot(), winningScore)));
      }
      assert !AllReached(Snapshot(), winningScore);
      ghost var board := View();
      assert TurnVerdict(board.players, board.current, winningScore) == NextTurn;
      var f := feed;
      var elapsed := 0;
      if timed {
        if f.clock == [] {
          return Stop(OutOfInput);
        }
        elapsed := f.clock[0];
        f := f.(clock := f.clock[1..]);
      }
      var winners, timeUp := SwitchPlayerTimed(elapsed);
      if timeUp {
        if f.tokens == [] {
          return Stop(OutOfInput);
        }
        var answer := f.tokens[0];
        f := f.(tokens := f.tokens[1..]);
        if answer != "yes" {
          return Stop(TimeUp(winners));
        }
      }
      assert Snapshot() == board.players;
      return Go(f);
    }

    /** The game loop: turns are played while every score is below the
        winning score. Commands come from tokens, die values from dice and
        elapsed seconds from clock. */
    method Play(tokens: seq<string>, dice: seq<int>, clock: seq<int>) returns (outcome: Outcome)
      requires Valid()
      requires forall i :: 0 <= i < |dice| ==> IsDie(dice[i])
      modifies this, players
      ensures Valid()
      ensures Finish(outcome, View()) == Run(GameRules(), old(View()), false, Feed(tokens, dice, clock))
    {
      ghost var goal := Run(GameRules(), View(), false, Feed(tokens, dice, clock));
      var f := Feed(tokens, dice, clock);
      while forall i :: 0 <= i < |players| ==> players[i].score < winningScore
        invariant Valid() && FairDice(f)
        invariant Run(GameRules(), View(), false, f) == goal
        decreases |f.tokens|
      {
        assert AllBelow(Snapshot(), winningScore);
        var step := TakeTurn(f);
        if step.Stop? {
          return step.outcome;
        }
        step := EndTurnChecks(step.rest);
        if step.Stop? {
          return step.outcome;
        }
        f := step.rest;
      }
      assert !AllBelow(Snapshot(), winningScore);
      outcome := Finished;
    }
  }
}
