/** A player's state and the two moves of a turn: roll the die, or hold. */
module PigPlayer {
  import opened PigRules
  import PigComputer

  /** The class of player the factory builds. */
  datatype Kind = Human | Computer

  /** Value view of a player: name, banked score, points of the current turn. */
  datatype PlayerState = PlayerState(name: string, score: int, turnTotal: int)

  function Initial(name: string): PlayerState {
    PlayerState(name, 0, 0)
  }

  /** Neither the score nor the turn total is negative. */
  predicate Sound(p: PlayerState) {
    p.score >= 0 && p.turnTotal >= 0
  }

  /** Effect of rolling v: a 1 wipes the turn total and leaves the score; any
      other value is added to the turn total AND to the score at once. */
  function Rolled(p: PlayerState, v: int): (q: PlayerState)
    ensures q.name == p.name
    ensures IsDie(v) && Sound(p) ==> Sound(q) && q.score >= p.score
  {
    if v == 1 then p.(turnTotal := 0)
    else p.(turnTotal := p.turnTotal + v, score := p.score + v)
  }

  /** Effect of holding: the turn total is added to the score and reset. */
  function Held(p: PlayerState): (q: PlayerState)
    ensures q.name == p.name && q.turnTotal == 0
    ensures q.score >= p.score <==> p.turnTotal >= 0
  {
    p.(score := p.score + p.turnTotal, turnTotal := 0)
  }

  datatype Move = RollMove(v: int) | HoldMove

  predicate DiceOnly(ms: seq<Move>) {
    forall i :: 0 <= i < |ms| && ms[i].RollMove? ==> IsDie(ms[i].v)
  }

  function Apply(p: PlayerState, m: Move): PlayerState {
    match m
    case RollMove(v) => Rolled(p, v)
    case HoldMove => Held(p)
  }

  /** The state after the moves ms, first to last. */
  function Replay(p: PlayerState, ms: seq<Move>): PlayerState
    decreases |ms|
  {
    if ms == [] then p else Replay(Apply(p, ms[0]), ms[1..])
  }

  function Rolls(vs: seq<int>): (ms: seq<Move>)
    ensures |ms| == |vs|
  {
    if vs == [] then [] else [RollMove(vs[0])] + Rolls(vs[1..])
  }

  function Sum(vs: seq<int>): int {
    if vs == [] then 0 else vs[0] + Sum(vs[1..])
  }

  /** One roll of a die or a hold keeps a sound state sound, keeps the name and
      never lowers the score. */
  lemma MoveKeepsSoundAndScore(p: PlayerState, m: Move)
    requires Sound(p)
    requires m.RollMove? ==> IsDie(m.v)
    ensures Sound(Apply(p, m)) && Apply(p, m).name == p.name
    ensures Apply(p, m).score >= p.score
  {
  }

  /** Any sequence of die rolls and holds keeps a sound state sound, keeps the
      name and never lowers the score. */
  lemma {:induction false} ReplayKeepsSoundAndScore(p: PlayerState, ms: seq<Move>)
    requires Sound(p) && DiceOnly(ms)
    ensures Sound(Replay(p, ms)) && Replay(p, ms).name == p.name
    ensures Replay(p, ms).score >= p.score
    decreases |ms|
  {
    if ms != [] {
      MoveKeepsSoundAndScore(p, ms[0]);
      assert DiceOnly(ms[1..]) by {
        forall i | 0 <= i < |ms[1..]| && ms[1..][i].RollMove?
          ensures IsDie(ms[1..][i].v)
        {
          assert ms[1..][i] == ms[i + 1];
        }
      }
      ReplayKeepsSoundAndScore(Apply(p, ms[0]), ms[1..]);
    }
  }

  /** Replaying a sequence is replaying its first i moves, then the rest. */
  lemma {:induction false} ReplaySplit(p: PlayerState, ms: seq<Move>, i: nat)
    requires i <= |ms|
    ensures Replay(p, ms) == Replay(Replay(p, ms[..i]), ms[i..])
    decreases i
  {
    if i > 0 {
      assert ms[..i][0] == ms[0];
      assert ms[..i][1..] == ms[1..][..i - 1];
      assert ms[i..] == ms[1..][i - 1..];
      ReplaySplit(Apply(p, ms[0]), ms[1..], i - 1);
    }
  }

  /** Starting from a new player, the score after any prefix of a sequence of
      die rolls and holds is at most the score after any longer prefix. */
  lemma ScoreNeverDecreases(name: string, ms: seq<Move>, i: nat, j: nat)
    requires DiceOnly(ms)
    requires i <= j <= |ms|
    ensures Replay(Initial(name), ms[..i]).score <= Replay(Initial(name), ms[..j]).score
  {
    var p := Initial(name);
    var prefix := ms[..j];
    ReplaySplit(p, prefix, i);
    assert prefix[..i] == ms[..i];
    var q := Replay(p, ms[..i]);
    assert DiceOnly(ms[..i]) by {
      forall k | 0 <= k < i && ms[..i][k].RollMove? ensures IsDie(ms[..i][k].v) {
        assert ms[..i][k] == ms[k];
      }
    }
    ReplayKeepsSoundAndScore(p, ms[..i]);
    assert DiceOnly(prefix[i..]) by {
      forall k | 0 <= k < |prefix[i..]| && prefix[i..][k].RollMove?
        ensures IsDie(prefix[i..][k].v)
      {
        assert prefix[i..][k] == ms[i + k];
      }
    }
    ReplayKeepsSoundAndScore(q, prefix[i..]);
  }

  /** A run of rolls that are not 1 adds their sum both to the turn total and to
      the score. */
  lemma {:induction false} RollsAddToBoth(p: PlayerState, vs: seq<int>)
    requires forall i :: 0 <= i < |vs| ==> 2 <= vs[i] <= 6
    ensures Replay(p, Rolls(vs)).name == p.name
    ensures Replay(p, Rolls(vs)).turnTotal == p.turnTotal + Sum(vs)
    ensures Replay(p, Rolls(vs)).score == p.score + Sum(vs)
    decreases |vs|
  {
    if vs != [] {
      assert Rolls(vs)[0] == RollMove(vs[0]);
      assert Rolls(vs)[1..] == Rolls(vs[1..]);
      RollsAddToBoth(Rolled(p, vs[0]), vs[1..]);
    }
  }

  /** From the start of a turn, rolls that are not 1 followed by a hold bank the
      turn's points twice, while the same rolls followed by a 1 keep them once. */
  lemma HoldDoubleCounts(p: PlayerState, vs: seq<int>)
    requires p.turnTotal == 0
    requires forall i :: 0 <= i < |vs| ==> 2 <= vs[i] <= 6
    ensures Held(Replay(p, Rolls(vs))).score == p.score + 2 * Sum(vs)
    ensures Rolled(Replay(p, Rolls(vs)), 1).score == p.score + Sum(vs)
    ensures Held(Replay(p, Rolls(vs))).turnTotal == 0 && Rolled(Replay(p, Rolls(vs)), 1).turnTotal == 0
  {
    RollsAddToBoth(p, vs);
  }

  /** Rolling 5, 4, 1 from a new player, then 5, 4 and holding. */
  lemma RollAndHoldScenario()
    ensures Replay(Initial("Player 1"), [RollMove(5)]) == PlayerState("Player 1", 5, 5)
    ensures Replay(Initial("Player 1"), [RollMove(5), RollMove(4)]) == PlayerState("Player 1", 9, 9)
    ensures Replay(Initial("Player 1"), [RollMove(5), RollMove(4), RollMove(1)]) == PlayerState("Player 1", 9, 0)
    ensures Replay(PlayerState("Player 1", 9, 9), [HoldMove]) == PlayerState("Player 1", 18, 0)
  {
  }

  /** A player object: its name and kind are fixed; score and turn total change
      in place. */
  class Player {
    const name: string
    const kind: Kind
    var score: int
    var turnTotal: int

    constructor (name: string, kind: Kind)
      ensures this.name == name && this.kind == kind
      ensures State() == Initial(name)
    {
      this.name := name;
      this.kind := kind;
      score := 0;
      turnTotal := 0;
    }

    function State(): PlayerState
      reads this
    {
      PlayerState(name, score, turnTotal)
    }

    /** Roll the die, whose value v is supplied by the caller. */
    method RollDie(v: int) returns (roll: int)
      requires IsDie(v)
      modifies this
      ensures roll == v
      ensures v == 1 ==> turnTotal == 0 && score == old(score)
      ensures v != 1 ==> turnTotal == old(turnTotal) + v && score == old(score) + v
      ensures State() == Rolled(old(State()), v)
    {
      roll := v;
      if roll == 1 {
        turnTotal := 0;
      } else {
        turnTotal := turnTotal + roll;
        score := score + roll;
      }
    }

    method Hold()
      modifies this
      ensures score == old(score) + old(turnTotal) && turnTotal == 0
      ensures State() == Held(old(State()))
    {
      score := score + turnTotal;
      turnTotal := 0;
    }

    /** The computer player's advice for its next move. */
    function Decide(): (d: string)
      reads this
      requires kind == Computer
      ensures d == "r" || d == "h"
      ensures d == "h" <==> turnTotal >= Min(RollThreshold, Target - score)
    {
      PigComputer.Decide(score, turnTotal)
    }
  }
}
