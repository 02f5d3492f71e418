/**
 The expected-value scorer (`_calculate_move_value`) of the calculator. Python floats
 are modelled by exact reals and `float('-inf')` by `Score.NegInf`.
 */
module Scoring {
  import opened Optional
  import opened Arith
  import opened Moves
  import opened Stats
  import opened Fight

  /** A move value: a number, or `-inf` for a move that cannot be played. */
  datatype Score = NegInf | Finite(value: real)

  /** Python's `a < b` on floats, with `-inf` below every number and not below itself. */
  predicate Below(a: Score, b: Score)
  {
    match (a, b)
    case (NegInf, Finite(_)) => true
    case (Finite(x), Finite(y)) => x < y
    case _ => false
  }

  /** Pattern slot that weighs the probability of enemy move `e`. The scoring loop pairs
      probability index i with the i-th of Sword, Shield, Spell, so these are slots 0, 1, 2,
      whereas the enemy's power for `e` is read from its attack slot 0, 2 or 4. */
  function ProbabilitySlot(e: Move): nat
  {
    Rank(e)
  }

  /** Only for Sword do the probability slot and the power slot coincide. */
  lemma ProbabilityAndPowerSlotsDiffer(e: Move)
    ensures ProbabilitySlot(e) == EnemyStats.AtkSlot(e) <==> e == Sword
  {
  }

  /** Enemy stats are known and their pattern sum can be divided by. */
  predicate HasPattern(s: FightState)
  {
    s.enemyStats.Some? && Sum(s.enemyStats.value.movePattern) != 0
  }

  /** What the scorer demands: a playable move reads the enemy pattern and divides by its
      sum; a move that cannot be played returns before either. */
  predicate Scorable(s: FightState, m: Move)
  {
    s.PlayerMayPlay(m) ==> HasPattern(s)
  }

  /** `move_probabilities[i]` for the i-th enemy move: its slot over the sum of all slots. */
  function Probability(es: EnemyStats, e: Move): (r: real)
    requires Sum(es.movePattern) != 0
    ensures r * Sum(es.movePattern) as real == es.movePattern[ProbabilitySlot(e)] as real
    ensures e == Sword ==> r * Sum(es.movePattern) as real == es.Atk(Sword) as real
    ensures e == Shield ==> r * Sum(es.movePattern) as real == es.Def(Sword) as real
    ensures e == Spell ==> r * Sum(es.movePattern) as real == es.Atk(Shield) as real
  {
    es.movePattern[ProbabilitySlot(e)] as real / Sum(es.movePattern) as real
  }

  /** Damage the player deals when move `m` counters enemy move `e`, clamped to the
      enemy's remaining health. */
  function DamageDealt(s: FightState, m: Move, e: Move): (r: int)
    requires s.enemyStats.Some?
    ensures r <= s.enemyHealth
    ensures r <= s.enemyStats.value.Atk(e) * Max(1, s.playerSkills.Atk(m))
    ensures r == s.enemyHealth || r == s.enemyStats.value.Atk(e) * Max(1, s.playerSkills.Atk(m))
  {
    Min(s.enemyHealth, s.enemyStats.value.Atk(e) * Max(1, s.playerSkills.Atk(m)))
  }

  /** Shield the player repairs when `m` counters `e`: half the enemy power (rounded
      down) times the player's defense, clamped so the shield does not pass 100. */
  function ShieldRepair(s: FightState, m: Move, e: Move): (r: int)
    requires s.enemyStats.Some?
    ensures r <= 100 - s.playerShield
    ensures r <= (s.enemyStats.value.Atk(e) / 2) * Max(1, s.playerSkills.Def(m))
    ensures r == 100 - s.playerShield || r == (s.enemyStats.value.Atk(e) / 2) * Max(1, s.playerSkills.Def(m))
  {
    Min(100 - s.playerShield, (s.enemyStats.value.Atk(e) / 2) * Max(1, s.playerSkills.Def(m)))
  }

  /** Damage the player takes when `e` counters `m`: the enemy power divided (rounded
      down) by the player's defense, clamped to the player's remaining health. */
  function DamageTaken(s: FightState, m: Move, e: Move): (r: int)
    requires s.enemyStats.Some?
    ensures r <= s.playerHealth
    ensures r <= s.enemyStats.value.Atk(e) / Max(1, s.playerSkills.Def(m))
    ensures r == s.playerHealth || r == s.enemyStats.value.Atk(e) / Max(1, s.playerSkills.Def(m))
  {
    Min(s.playerHealth, s.enemyStats.value.Atk(e) / Max(1, s.playerSkills.Def(m)))
  }

  /** What enemy move `e` adds to the value of player move `m`. An enemy move that cannot
      be played, and the mirror move, add nothing. */
  function Term(s: FightState, m: Move, e: Move): (r: real)
    requires HasPattern(s)
    ensures !s.EnemyMayPlay(e) ==> r == 0.0
    ensures m == e ==> r == 0.0
  {
    var p := Probability(s.enemyStats.value, e);
    if s.enemyCooldowns.Get(e) > 0 then 0.0
    else if s.enemyCharges.Get(e) <= 0 then 0.0
    else if Counter(m) == e then p * (DamageDealt(s, m, e) * 2 + ShieldRepair(s, m, e)) as real
    else if Counter(e) == m then -(p * DamageTaken(s, m, e) as real * 2.0)
    else 0.0
  }

  /** The value accumulated over the enemy's three moves, before bonus and scaling. */
  function Accumulated(s: FightState, m: Move): real
    requires HasPattern(s)
  {
    Term(s, m, Sword) + Term(s, m, Shield) + Term(s, m, Spell)
  }

  /** The sum of the first `n` enemy-move terms, in the order Sword, Shield, Spell. */
  function PartialTerms(s: FightState, m: Move, n: nat): real
    requires HasPattern(s)
    requires n <= |MoveOrder|
  {
    if n == 0 then 0.0 else PartialTerms(s, m, n - 1) + Term(s, m, MoveOrder[n - 1])
  }

  /** Summing the terms in `MoveOrder` over all three enemy moves gives `Accumulated`. */
  lemma PartialTermsCoverAllMoves(s: FightState, m: Move)
    requires HasPattern(s)
    ensures PartialTerms(s, m, |MoveOrder|) == Accumulated(s, m)
  {
    assert PartialTerms(s, m, 1) == Term(s, m, Sword);
    assert PartialTerms(s, m, 2) == Term(s, m, Sword) + Term(s, m, Shield);
  }

  /** The finishing bonus: 5 for Sword with positive attack against an enemy on 4 health
      or less, nothing otherwise. */
  function Bonus(s: FightState, m: Move): (r: real)
    ensures r == 5.0 <==> (m == Sword && s.playerSkills.Atk(m) > 0 && s.enemyHealth <= 4)
    ensures r == 0.0 || r == 5.0
  {
    if s.enemyHealth <= 4 && m == Sword && s.playerSkills.Atk(m) > 0 then 5.0 else 0.0
  }

  /** Scaling by remaining charges over a fixed denominator of 3; three charges leave the
      value as it is. */
  function ScaleByCharges(x: real, charges: int): (r: real)
    ensures charges == 3 ==> r == x
  {
    x * (charges as real / 3.0)
  }

  /** The expected value of player move `m`: `-inf` exactly when `m` cannot be played,
      otherwise the accumulated terms plus the bonus, scaled by charges / 3. */
  function MoveValue(s: FightState, m: Move): (v: Score)
    requires Scorable(s, m)
    ensures v.NegInf? <==> !s.PlayerMayPlay(m)
    ensures s.PlayerMayPlay(m) && s.playerCharges.Get(m) == 3 ==>
              v == Finite(Accumulated(s, m) + Bonus(s, m))
  {
    if s.playerCooldowns.Get(m) > 0 then NegInf
    else if s.playerCharges.Get(m) <= 0 then NegInf
    else Finite(ScaleByCharges(Accumulated(s, m) + Bonus(s, m), s.playerCharges.Get(m)))
  }

  /** The value of a playable move, unfolded. */
  lemma PlayableMoveValue(s: FightState, m: Move)
    requires s.PlayerMayPlay(m) && HasPattern(s)
    ensures MoveValue(s, m) == Finite(ScaleByCharges(Accumulated(s, m) + Bonus(s, m), s.playerCharges.Get(m)))
  {
  }

  /** When `m` counters a playable `e`, the term is the probability of `e` times twice
      the damage dealt plus the shield repaired. */
  lemma CounterTerm(s: FightState, m: Move, e: Move)
    requires HasPattern(s) && s.EnemyMayPlay(e) && Counter(m) == e
    ensures Term(s, m, e) == Probability(s.enemyStats.value, e) * (DamageDealt(s, m, e) * 2 + ShieldRepair(s, m, e)) as real
  {
  }

  /** When a playable `e` counters `m`, the term is minus the probability of `e` times
      twice the damage taken. */
  lemma CounteredTerm(s: FightState, m: Move, e: Move)
    requires HasPattern(s) && s.EnemyMayPlay(e) && Counter(e) == m
    ensures Term(s, m, e) == -(Probability(s.enemyStats.value, e) * DamageTaken(s, m, e) as real * 2.0)
  {
  }

  /** The counter branch of the scoring loop: `m` counters the playable `enemyMove`, so
      the value gains the damage dealt twice over plus the shield repaired, weighted. */
  method AddCounterTerm(s: FightState, m: Move, enemyMove: Move, prob: real, value: real) returns (value': real)
    requires HasPattern(s) && prob == Probability(s.enemyStats.value, enemyMove)
    requires s.EnemyMayPlay(enemyMove) && Counter(m) == enemyMove
    ensures value' == value + Term(s, m, enemyMove)
  {
    var enemyPower := s.enemyStats.value.Atk(enemyMove);
    var damageDealt := Min(s.enemyHealth, enemyPower * Max(1, s.playerSkills.Atk(m)));
    var shieldRepair := Min(100 - s.playerShield, (enemyPower / 2) * Max(1, s.playerSkills.Def(m)));
    CounterTerm(s, m, enemyMove);
    value' := value + prob * (damageDealt * 2 + shieldRepair) as real;
  }

  /** The countered branch of the scoring loop: the playable `enemyMove` counters `m`, so
      the value loses the damage taken twice over, weighted. */
  method SubtractCounteredTerm(s: FightState, m: Move, enemyMove: Move, prob: real, value: real) returns (value': real)
    requires HasPattern(s) && prob == Probability(s.enemyStats.value, enemyMove)
    requires s.EnemyMayPlay(enemyMove) && Counter(enemyMove) == m
    ensures value' == value + Term(s, m, enemyMove)
  {
    var enemyPower := s.enemyStats.value.Atk(enemyMove);
    var damageTaken := Min(s.playerHealth, enemyPower / Max(1, s.playerSkills.Def(m)));
    CounteredTerm(s, m, enemyMove);
    value' := value - prob * damageTaken as real * 2.0;
  }

  /** One pass of the scoring loop for enemy move `enemyMove` of probability `prob`: skip
      it when the enemy cannot play it, else take the counter or the countered branch;
      the mirror move changes nothing. */
  method AddEnemyMove(s: FightState, m: Move, enemyMove: Move, prob: real, value: real) returns (value': real)
    requires HasPattern(s) && prob == Probability(s.enemyStats.value, enemyMove)
    ensures value' == value + Term(s, m, enemyMove)
  {
    value' := value;
    if s.enemyCooldowns.Get(enemyMove) > 0 {
      return;
    }
    if s.enemyCharges.Get(enemyMove) <= 0 {
      return;
    }
    if Counter(m) == enemyMove {
      value' := AddCounterTerm(s, m, enemyMove, prob, value');
    } else if Counter(enemyMove) == m {
      value' := SubtractCounteredTerm(s, m, enemyMove, prob, value');
    } else {
      CounterIsTournament(m, enemyMove);
    }
  }

  /** The scoring loop as the source writes it: one probability per pattern slot, a pass
      over them that stops at the fourth, each of the first three paired with the enemy
      move of the same position. */
  method AccumulateTerms(s: FightState, m: Move) returns (value: real)
    requires HasPattern(s)
    ensures value == Accumulated(s, m)
  {
    var pattern := s.enemyStats.value.movePattern;
    var total := Sum(pattern);
    var probabilities := seq(|pattern|, k requires 0 <= k < |pattern| => pattern[k] as real / total as real);
    value := 0.0;
    var i := 0;
    while i < |probabilities|
      invariant 0 <= i <= |MoveOrder|
      invariant value == PartialTerms(s, m, i)
    {
      if i >= |MoveOrder| {
        break;
      }
      value := AddEnemyMove(s, m, MoveOrder[i], probabilities[i], value);
      i := i + 1;
    }
    PartialTermsCoverAllMoves(s, m);
  }

  /** The tail of the scorer for a playable move: the scoring loop, the finishing bonus,
      then the scaling by charges / 3. */
  method ScorePlayableMove(s: FightState, m: Move) returns (value: real)
    requires s.PlayerMayPlay(m) && HasPattern(s)
    ensures value == ScaleByCharges(Accumulated(s, m) + Bonus(s, m), s.playerCharges.Get(m))
  {
    var playerAtk := s.playerSkills.Atk(m);
    value := AccumulateTerms(s, m);
    if s.enemyHealth <= 4 {
      if m == Sword && playerAtk > 0 {
        value := value + 5.0;
      }
    }
    assert value == Accumulated(s, m) + Bonus(s, m);
    value := ScaleByCharges(value, s.playerCharges.Get(m));
  }

  /** The scorer as the source writes it: the two legality checks, then the value. */
  method ScoreMove(s: FightState, m: Move) returns (v: Score)
    requires Scorable(s, m)
    ensures v == MoveValue(s, m)
  {
    if s.playerCooldowns.Get(m) > 0 {
      return NegInf;
    }
    if s.playerCharges.Get(m) <= 0 {
      return NegInf;
    }
    var value := ScorePlayableMove(s, m);
    PlayableMoveValue(s, m);
    v := Finite(value);
  }
}
