/** Selections over the players' scores: who passes a test, the maximum score,
    the players tied at the maximum. */
module PigScores {
  import opened PigPlayer

  /** The indices, in player order, of the players that pass keep. */
  function Where(ps: seq<PlayerState>, keep: PlayerState -> bool): (r: seq<nat>)
    ensures forall k :: 0 <= k < |r| ==> r[k] < |ps| && keep(ps[r[k]])
    ensures forall i :: 0 <= i < |ps| && keep(ps[i]) ==> i in r
    ensures forall k, l :: 0 <= k < l < |r| ==> r[k] < r[l]
    decreases |ps|
  {
    if ps == [] then []
    else
      var n := |ps| - 1;
      Where(ps[..n], keep) + (if keep(ps[n]) then [n] else [])
  }

  function MaxScore(ps: seq<PlayerState>): (m: int)
    requires |ps| > 0
    ensures forall i :: 0 <= i < |ps| ==> ps[i].score <= m
    ensures exists i :: 0 <= i < |ps| && ps[i].score == m
    decreases |ps|
  {
    if |ps| == 1 then ps[0].score
    else
      var rest := MaxScore(ps[1..]);
      if ps[0].score >= rest then ps[0].score else rest
  }

  /** The players whose score equals the maximum score. */
  function TopScorers(ps: seq<PlayerState>): (w: seq<nat>)
    requires |ps| > 0
    ensures w != []
    ensures forall k :: 0 <= k < |w| ==> w[k] < |ps| && ps[w[k]].score == MaxScore(ps)
  {
    var m := MaxScore(ps);
    var i :| 0 <= i < |ps| && ps[i].score == m;
    assert i in Where(ps, (p: PlayerState) => p.score == m);
    Where(ps, (p: PlayerState) => p.score == m)
  }

  predicate AllBelow(ps: seq<PlayerState>, bound: int) {
    forall i :: 0 <= i < |ps| ==> ps[i].score < bound
  }

  predicate AllReached(ps: seq<PlayerState>, bound: int) {
    forall i :: 0 <= i < |ps| ==> ps[i].score >= bound
  }

  /** The players with at least the given score. */
  function Reaching(ps: seq<PlayerState>, bound: int): (r: seq<nat>)
    ensures forall i :: 0 <= i < |ps| ==> (i in r <==> ps[i].score >= bound)
  {
    Where(ps, (p: PlayerState) => p.score >= bound)
  }

  /** The top scorers are never empty, and a player is one exactly when no
      player has a higher score. */
  lemma TopScorersAreLeaders(ps: seq<PlayerState>)
    requires |ps| > 0
    ensures TopScorers(ps) != []
    ensures forall k :: 0 <= k < |TopScorers(ps)| ==> TopScorers(ps)[k] < |ps|
    ensures forall i :: 0 <= i < |ps| ==>
              (i in TopScorers(ps) <==> forall j :: 0 <= j < |ps| ==> ps[j].score <= ps[i].score)
  {
    var m := MaxScore(ps);
    var w := TopScorers(ps);
    var i :| 0 <= i < |ps| && ps[i].score == m;
    assert i in w;
    forall i | 0 <= i < |ps|
      ensures i in w <==> forall j :: 0 <= j < |ps| ==> ps[j].score <= ps[i].score
    {
      if i in w {
        var k :| 0 <= k < |w| && w[k] == i;
      }
    }
  }
}
