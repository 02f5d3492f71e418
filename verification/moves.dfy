/**
 The three move types of a fight and the fixed counter relation between them
 (`move_counter` and `move_counter_reverse` in gigaverse_calculator.py).
 */
module Moves {

  datatype Move = Sword | Shield | Spell

  /** The order in which the calculator visits moves, both its own and the enemy's. */
  const MoveOrder: seq<Move> := [Sword, Shield, Spell]

  /** Position of a move in `MoveOrder`. */
  function Rank(m: Move): (k: nat)
    ensures k < |MoveOrder| && MoveOrder[k] == m
  {
    match m
    case Sword => 0
    case Shield => 1
    case Spell => 2
  }

  /** `move_counter[m]`: the move that `m` beats. No move beats itself. */
  function Counter(m: Move): (r: Move)
    ensures r != m
  {
    match m
    case Sword => Spell
    case Spell => Shield
    case Shield => Sword
  }

  /** `move_counter_reverse[m]`: the move that beats `m`. The source builds it by
      inverting `move_counter`, so it must pick a preimage of `m`. */
  function CounterReverse(m: Move): (r: Move)
    ensures Counter(r) == m
  {
    match m
    case Spell => Sword
    case Shield => Spell
    case Sword => Shield
  }

  /** Applying the counter relation three times is the identity, and twice is not. */
  lemma CounterIsThreeCycle(m: Move)
    ensures Counter(Counter(Counter(m))) == m
    ensures Counter(Counter(m)) != m
  {
  }

  /** `move_counter_reverse` is the two-sided inverse of `move_counter`. */
  lemma CounterReverseIsInverse(m: Move)
    ensures CounterReverse(Counter(m)) == m
    ensures Counter(CounterReverse(m)) == m
  {
  }

  /** Two different moves stand in exactly one direction of the counter relation;
      a move and itself stand in neither. */
  lemma CounterIsTournament(a: Move, b: Move)
    ensures a == b <==> (Counter(a) != b && Counter(b) != a)
    ensures !(Counter(a) == b && Counter(b) == a)
  {
  }

  /** `MoveOrder` lists every move exactly once. */
  lemma MoveOrderEnumerates()
    ensures |MoveOrder| == 3
    ensures forall m: Move :: m in MoveOrder
    ensures forall i, j :: 0 <= i < j < |MoveOrder| ==> MoveOrder[i] != MoveOrder[j]
  {
    forall m: Move
      ensures m in MoveOrder
    {
      assert MoveOrder[Rank(m)] == m;
    }
  }
}
