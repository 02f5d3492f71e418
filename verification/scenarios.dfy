/**
 Worked examples of the scorer: a player with Sword attack 9 against an enemy whose
 six pattern slots are all 3, with full charges and no cooldowns on both sides.
 */
module Scenarios {
  import opened Optional
  import opened Moves
  import opened Stats
  import opened Fight
  import opened Scoring

  const ExampleSkills := PlayerSkills(9, 0, 0, 4, 2, 2, 16, 6)
  const UniformEnemy := EnemyStats("enemy", [3, 3, 3, 3, 3, 3], 0, 0)

  /** The example fight against an enemy on `enemyHealth`, player on 16 health and 6 shield. */
  function ExampleFight(enemyHealth: int): (s: FightState)
    ensures s.enemyStats == Some(UniformEnemy) && Sum(UniformEnemy.movePattern) == 18
    ensures forall m :: s.PlayerMayPlay(m) && s.EnemyMayPlay(m) && s.playerCharges.Get(m) == 3
  {
    UniformSum();
    NewFight(0, enemyHealth, 16, 6, ExampleSkills, Some(UniformEnemy))
  }

  /** The example pattern's six slots of 3 sum to 18. */
  lemma UniformSum()
    ensures Sum(UniformEnemy.movePattern) == 18
  {
    assert [3, 3, 3, 3, 3, 3][..5] == [3, 3, 3, 3, 3];
    assert [3, 3, 3, 3, 3][..4] == [3, 3, 3, 3];
    assert [3, 3, 3, 3][..3] == [3, 3, 3];
    assert [3, 3, 3][..2] == [3, 3];
    assert [3, 3][..1] == [3];
    assert [3][..0] == [];
  }

  /** Every enemy move has probability 3 / 18 in the example. */
  lemma UniformProbabilities(e: Move)
    ensures Sum(UniformEnemy.movePattern) == 18
    ensures Probability(UniformEnemy, e) == 1.0 / 6.0
  {
    UniformSum();
  }

  /** Sword, which counters Spell with attack 9, outscores Shield: 49/6 against 5/3. */
  lemma SwordOutscoresShield()
    ensures MoveValue(ExampleFight(50), Sword) == Finite(49.0 / 6.0)
    ensures MoveValue(ExampleFight(50), Shield) == Finite(5.0 / 3.0)
    ensures Below(MoveValue(ExampleFight(50), Shield), MoveValue(ExampleFight(50), Sword))
  {
    var s := ExampleFight(50);
    UniformProbabilities(Sword);
    UniformProbabilities(Shield);
    UniformProbabilities(Spell);
    CounterTerm(s, Sword, Spell);
    CounteredTerm(s, Sword, Shield);
    assert Term(s, Sword, Spell) == 55.0 / 6.0;
    assert Term(s, Sword, Shield) == -1.0;
    PlayableMoveValue(s, Sword);
    CounterTerm(s, Shield, Sword);
    CounteredTerm(s, Shield, Spell);
    assert Term(s, Shield, Sword) == 10.0 / 6.0;
    assert Term(s, Shield, Spell) == 0.0;
    PlayableMoveValue(s, Shield);
  }

  /** With the enemy on 4 health the Sword value carries the +5 finishing bonus, which it
      does not on 50 health; the damage term is clamped to the 4 remaining health. */
  lemma FinishingBonusApplies()
    ensures Bonus(ExampleFight(4), Sword) == 5.0 && Bonus(ExampleFight(50), Sword) == 0.0
    ensures MoveValue(ExampleFight(4), Sword) == Finite(11.0 / 2.0)
  {
    var s := ExampleFight(4);
    UniformProbabilities(Spell);
    UniformProbabilities(Shield);
    CounterTerm(s, Sword, Spell);
    CounteredTerm(s, Sword, Shield);
    assert Term(s, Sword, Spell) == 9.0 / 6.0;
    assert Term(s, Sword, Shield) == -1.0;
    PlayableMoveValue(s, Sword);
  }

  /** Without Sword charges the Sword value is `-inf`, whatever else holds. */
  lemma NoChargesNoSword()
    ensures var s := ExampleFight(50);
            MoveValue(s.(playerCharges := s.playerCharges.Set(Sword, 0)), Sword) == NegInf
  {
  }
}
