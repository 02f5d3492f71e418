/**
 `calculate_best_move`: score the three moves and keep the first of maximal value,
 the way Python's `max` over the value dictionary does.
 */
module Selection {
  import opened Optional
  import opened Moves
  import opened Stats
  import opened Fight
  import opened Scoring

  /** The index `max(items, key=value)` keeps: it scans left to right and replaces its
      candidate only by a strictly greater value, so it returns the first maximal one. */
  function FirstMaximal(values: seq<Score>): (k: nat)
    requires |values| > 0
    ensures k < |values|
    ensures forall j :: 0 <= j < |values| ==> !Below(values[k], values[j])
    ensures forall j :: 0 <= j < k ==> Below(values[j], values[k])
  {
    if |values| == 1 then 0
    else
      var k := FirstMaximal(values[..|values| - 1]);
      if Below(values[k], values[|values| - 1]) then |values| - 1 else k
  }

  /** The returned pair: a move and its value, or `("Unknown", 0.0)`. */
  datatype Pick = Unknown | Chosen(move: Move, value: Score)
  {
    function Value(): Score
    {
      if Unknown? then Finite(0.0) else value
    }
  }

  /** The pick together with the state as the search leaves it: the source stores the
      looked-up enemy stats into the state it was given. */
  datatype Recommendation = Recommendation(pick: Pick, state: FightState)

  /** The enemy stats the search works with: the state's own, else the roster lookup. */
  function ResolvedStats(s: FightState, lookup: Option<EnemyStats>): (r: Option<EnemyStats>)
    ensures r.None? <==> s.enemyStats.None? && lookup.None?
    ensures s.enemyStats.Some? ==> r == s.enemyStats
    ensures s.enemyStats.None? ==> r == lookup
  {
    if s.enemyStats.Some? then s.enemyStats else lookup
  }

  /** Every playable move can be scored once the stats are resolved. */
  predicate BestMoveDefined(s: FightState, lookup: Option<EnemyStats>)
  {
    var es := ResolvedStats(s, lookup);
    es.Some? ==> forall m :: s.PlayerMayPlay(m) ==> Sum(es.value.movePattern) != 0
  }

  /** The value dictionary of the search, in the order Sword, Shield, Spell. */
  function MoveValues(t: FightState): (vs: seq<Score>)
    requires forall m :: Scorable(t, m)
    ensures |vs| == |MoveOrder|
    ensures forall k :: 0 <= k < |vs| ==> vs[k] == MoveValue(t, MoveOrder[k])
  {
    [MoveValue(t, Sword), MoveValue(t, Shield), MoveValue(t, Spell)]
  }

  /** `calculate_best_move`. With no enemy stats, in the state or from the roster lookup,
      the answer is `Unknown`. Otherwise it is a move whose value no other move's value
      exceeds, and every move earlier in the order Sword, Shield, Spell scores strictly
      less. */
  function CalculateBestMove(s: FightState, lookup: Option<EnemyStats>): (r: Recommendation)
    requires BestMoveDefined(s, lookup)
    ensures r.state == s.(enemyStats := ResolvedStats(s, lookup))
    ensures r.pick.Unknown? <==> ResolvedStats(s, lookup).None?
    ensures r.pick.Unknown? ==> r.pick.Value() == Finite(0.0)
    ensures r.pick.Chosen? ==> forall m :: Scorable(r.state, m)
    ensures r.pick.Chosen? ==> r.pick.value == MoveValue(r.state, r.pick.move)
    ensures r.pick.Chosen? ==> forall m :: !Below(r.pick.value, MoveValue(r.state, m))
    ensures r.pick.Chosen? ==> forall m :: Rank(m) < Rank(r.pick.move) ==> Below(MoveValue(r.state, m), r.pick.value)
  {
    var t := s.(enemyStats := ResolvedStats(s, lookup));
    if t.enemyStats.None? then Recommendation(Unknown, t)
    else
      assert forall m :: t.PlayerMayPlay(m) == s.PlayerMayPlay(m);
      assert forall m :: Scorable(t, m);
      var values := MoveValues(t);
      var k := FirstMaximal(values);
      assert forall m :: values[Rank(m)] == MoveValue(t, m);
      assert forall m :: !Below(values[k], values[Rank(m)]);
      assert forall m :: Rank(m) < k ==> Below(values[Rank(m)], values[k]);
      Recommendation(Chosen(MoveOrder[k], values[k]), t)
  }

  /** The search settles on `-inf` only when no move can be played, and then on Sword. */
  lemma BestMoveIllegalOnlyIfAllIllegal(s: FightState, lookup: Option<EnemyStats>)
    requires BestMoveDefined(s, lookup) && ResolvedStats(s, lookup).Some?
    ensures var r := CalculateBestMove(s, lookup);
      r.pick.Chosen? &&
      (r.pick.value.NegInf? <==> forall m :: !s.PlayerMayPlay(m)) &&
      (r.pick.value.NegInf? ==> r.pick.move == Sword)
  {
    var r := CalculateBestMove(s, lookup);
    assert forall m :: r.state.PlayerMayPlay(m) == s.PlayerMayPlay(m);
    if r.pick.value.NegInf? {
      forall m
        ensures !s.PlayerMayPlay(m)
      {
        assert !Below(r.pick.value, MoveValue(r.state, m));
      }
    }
  }
}
