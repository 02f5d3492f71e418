/**
 Damage resolution (`_calculate_damage`) and the round transition
 (`update_fight_state`), plus what a sequence of rounds does to a fight.
 */
module Resolution {
  import opened Optional
  import opened Arith
  import opened Moves
  import opened Stats
  import opened Fight

  /** The facets `_calculate_damage` can read without touching missing enemy stats. */
  predicate DamageDefined(attack: Move, defense: Move, s: FightState)
  {
    && (s.lastPlayerMove == Some(attack) || s.enemyStats.Some?)
    && (s.lastEnemyMove == Some(defense) || s.enemyStats.Some?)
  }

  /** Attack power for `attack`: the player's attack facet for that move when the
      player's last move was `attack`, the enemy's otherwise. */
  function AttackPower(attack: Move, s: FightState): (r: int)
    requires s.lastPlayerMove == Some(attack) || s.enemyStats.Some?
    ensures s.lastPlayerMove == Some(attack) ==> r == s.playerSkills.Atk(attack)
    ensures s.lastPlayerMove != Some(attack) ==> s.enemyStats.Some? && r == s.enemyStats.value.Atk(attack)
  {
    if s.lastPlayerMove == Some(attack) then s.playerSkills.Atk(attack) else s.enemyStats.value.Atk(attack)
  }

  /** Defense power against `attack`: the defense facet of the ATTACK move, taken from the
      player when the enemy's last move was `defense`, from the enemy otherwise. */
  function DefensePower(attack: Move, defense: Move, s: FightState): (r: int)
    requires s.lastEnemyMove == Some(defense) || s.enemyStats.Some?
    ensures s.lastEnemyMove == Some(defense) ==> r == s.playerSkills.Def(attack)
    ensures s.lastEnemyMove != Some(defense) ==> s.enemyStats.Some? && r == s.enemyStats.value.Def(attack)
    ensures r == s.playerSkills.Def(attack) || (s.enemyStats.Some? && r == s.enemyStats.value.Def(attack))
  {
    if s.lastEnemyMove == Some(defense) then s.playerSkills.Def(attack) else s.enemyStats.value.Def(attack)
  }

  /** `_calculate_damage`, branch by branch as the source writes it. The damage is
      never negative: it is attack power less defense power, or 0 if that is below 0. */
  function CalculateDamage(attack: Move, defense: Move, s: FightState): (r: int)
    requires DamageDefined(attack, defense, s)
    ensures r >= 0
    ensures r == Max(0, AttackPower(attack, s) - DefensePower(attack, defense, s))
    ensures r > 0 <==> AttackPower(attack, s) > DefensePower(attack, defense, s)
  {
    var playerAttacked := s.lastPlayerMove == Some(attack);
    var playerDefended := s.lastEnemyMove == Some(defense);
    var attackPower :=
      match attack
      case Sword => if playerAttacked then s.playerSkills.swordAtk else s.enemyStats.value.movePattern[0]
      case Shield => if playerAttacked then s.playerSkills.shieldAtk else s.enemyStats.value.movePattern[2]
      case Spell => if playerAttacked then s.playerSkills.spellAtk else s.enemyStats.value.movePattern[4];
    var defensePower :=
      match attack
      case Sword => if playerDefended then s.playerSkills.swordDef else s.enemyStats.value.movePattern[1]
      case Shield => if playerDefended then s.playerSkills.shieldDef else s.enemyStats.value.movePattern[3]
      case Spell => if playerDefended then s.playerSkills.spellDef else s.enemyStats.value.movePattern[5];
    Max(0, attackPower - defensePower)
  }

  /** The defense move only decides whose defense is read, never which facet: two
      defense moves the enemy did not last play give the same damage. */
  lemma DefenseFacetFollowsAttackMove(attack: Move, d1: Move, d2: Move, s: FightState)
    requires s.enemyStats.Some?
    requires s.lastEnemyMove != Some(d1) && s.lastEnemyMove != Some(d2)
    ensures CalculateDamage(attack, d1, s) == CalculateDamage(attack, d2, s)
    ensures CalculateDamage(attack, d1, s) == Max(0, AttackPower(attack, s) - s.enemyStats.value.Def(attack))
  {
  }

  /** When both sides play the same move, both directions of the round deal the same damage. */
  lemma MirrorRoundDamagesAgree(m: Move, s: FightState)
    requires DamageDefined(m, m, s)
    ensures var n := UpdateFightState(s, m, m);
            n.moveOutcomes[|n.moveOutcomes| - 1].playerDamage == n.moveOutcomes[|n.moveOutcomes| - 1].enemyDamage
  {
  }

  /** Both damages of a round can be computed. */
  predicate UpdateDefined(s: FightState, playerMove: Move, enemyMove: Move)
  {
    DamageDefined(playerMove, enemyMove, s) && DamageDefined(enemyMove, playerMove, s)
  }

  /** `update_fight_state`: the next snapshot after the player plays `playerMove` and the
      enemy `enemyMove`. Both damages are computed against the old state; each history
      list grows by one record tagged with the new round; health drops by the damage,
      with no floor at 0; every other field is carried over. */
  function UpdateFightState(s: FightState, playerMove: Move, enemyMove: Move): (n: FightState)
    requires UpdateDefined(s, playerMove, enemyMove)
    ensures n.roundNumber == s.roundNumber + 1
    ensures n.lastPlayerMove == Some(playerMove) && n.lastEnemyMove == Some(enemyMove)
    ensures n.moveHistory == s.moveHistory + [HistoryEntry(playerMove, enemyMove, n.roundNumber)]
    ensures n.moveOutcomes == s.moveOutcomes +
              [OutcomeEntry(CalculateDamage(playerMove, enemyMove, s), CalculateDamage(enemyMove, playerMove, s), n.roundNumber)]
    ensures n.enemyHealth == s.enemyHealth - CalculateDamage(playerMove, enemyMove, s) <= s.enemyHealth
    ensures n.playerHealth == s.playerHealth - CalculateDamage(enemyMove, playerMove, s) <= s.playerHealth
    ensures n == s.(enemyHealth := n.enemyHealth, playerHealth := n.playerHealth,
                    lastPlayerMove := n.lastPlayerMove, lastEnemyMove := n.lastEnemyMove,
                    roundNumber := n.roundNumber, moveHistory := n.moveHistory, moveOutcomes := n.moveOutcomes)
  {
    var round := s.roundNumber + 1;
    var playerDamage := CalculateDamage(playerMove, enemyMove, s);
    var enemyDamage := CalculateDamage(enemyMove, playerMove, s);
    FightState(
      s.enemyId, s.enemyHealth - playerDamage, s.playerHealth - enemyDamage, s.playerShield,
      s.playerSkills, s.enemyStats, Some(playerMove), Some(enemyMove),
      s.playerCharges, s.playerCooldowns, s.enemyCharges, s.enemyCooldowns,
      round,
      s.moveHistory + [HistoryEntry(playerMove, enemyMove, round)],
      s.moveOutcomes + [OutcomeEntry(playerDamage, enemyDamage, round)])
  }

  /** A round keeps the history in step with the round counter. */
  lemma UpdateKeepsRoundsConsistent(s: FightState, playerMove: Move, enemyMove: Move)
    requires UpdateDefined(s, playerMove, enemyMove) && RoundsConsistent(s)
    ensures RoundsConsistent(UpdateFightState(s, playerMove, enemyMove))
  {
    var n := UpdateFightState(s, playerMove, enemyMove);
    assert forall i :: 0 <= i < |s.moveHistory| ==> n.moveHistory[i] == s.moveHistory[i];
    assert forall i :: 0 <= i < |s.moveOutcomes| ==> n.moveOutcomes[i] == s.moveOutcomes[i];
  }

  /** Total damage the player has dealt, over an outcome log. */
  function DamageDealtTotal(log: seq<OutcomeEntry>): int
  {
    if |log| == 0 then 0 else DamageDealtTotal(log[..|log| - 1]) + log[|log| - 1].playerDamage
  }

  /** Total damage the player has taken, over an outcome log. */
  function DamageTakenTotal(log: seq<OutcomeEntry>): int
  {
    if |log| == 0 then 0 else DamageTakenTotal(log[..|log| - 1]) + log[|log| - 1].enemyDamage
  }

  /** A round moves exactly the damage it records from each health into the log: health
      plus the logged total is the same before and after. */
  lemma UpdateKeepsHealthLedger(s: FightState, playerMove: Move, enemyMove: Move)
    requires UpdateDefined(s, playerMove, enemyMove)
    ensures var n := UpdateFightState(s, playerMove, enemyMove);
            && n.enemyHealth + DamageDealtTotal(n.moveOutcomes) == s.enemyHealth + DamageDealtTotal(s.moveOutcomes)
            && n.playerHealth + DamageTakenTotal(n.moveOutcomes) == s.playerHealth + DamageTakenTotal(s.moveOutcomes)
  {
    var n := UpdateFightState(s, playerMove, enemyMove);
    assert n.moveOutcomes[..|n.moveOutcomes| - 1] == s.moveOutcomes;
  }

  /** The fight after playing `rounds` in order, each a (player move, enemy move) pair. */
  function Play(s: FightState, rounds: seq<(Move, Move)>): (n: FightState)
    requires s.enemyStats.Some?
    ensures n.enemyStats == s.enemyStats
    ensures n.roundNumber == s.roundNumber + |rounds|
    ensures n.enemyHealth <= s.enemyHealth && n.playerHealth <= s.playerHealth
    decreases |rounds|
  {
    if |rounds| == 0 then s
    else Play(UpdateFightState(s, rounds[0].0, rounds[0].1), rounds[1..])
  }

  /** The history records a run of rounds would append, from round `first` on. */
  function RoundRecords(rounds: seq<(Move, Move)>, first: int): (h: seq<HistoryEntry>)
    ensures |h| == |rounds|
    ensures forall i :: 0 <= i < |rounds| ==> h[i] == HistoryEntry(rounds[i].0, rounds[i].1, first + i)
  {
    seq(|rounds|, i requires 0 <= i < |rounds| => HistoryEntry(rounds[i].0, rounds[i].1, first + i))
  }

  /** Playing rounds appends exactly one history record per round, in order, tagged with
      consecutive round numbers, and leaves the earlier history as it was. */
  lemma {:induction false} PlayRecordsEveryRound(s: FightState, rounds: seq<(Move, Move)>)
    requires s.enemyStats.Some?
    ensures Play(s, rounds).moveHistory == s.moveHistory + RoundRecords(rounds, s.roundNumber + 1)
    decreases |rounds|
  {
    if |rounds| > 0 {
      var n := UpdateFightState(s, rounds[0].0, rounds[0].1);
      PlayRecordsEveryRound(n, rounds[1..]);
      assert RoundRecords(rounds, s.roundNumber + 1)
          == [HistoryEntry(rounds[0].0, rounds[0].1, s.roundNumber + 1)] + RoundRecords(rounds[1..], n.roundNumber + 1);
    }
  }

  /** Playing rounds keeps the history in step with the round counter. */
  lemma {:induction false} PlayKeepsRoundsConsistent(s: FightState, rounds: seq<(Move, Move)>)
    requires s.enemyStats.Some? && RoundsConsistent(s)
    ensures RoundsConsistent(Play(s, rounds))
    decreases |rounds|
  {
    if |rounds| > 0 {
      UpdateKeepsRoundsConsistent(s, rounds[0].0, rounds[0].1);
      PlayKeepsRoundsConsistent(UpdateFightState(s, rounds[0].0, rounds[0].1), rounds[1..]);
    }
  }

  /** Playing rounds moves exactly the logged damage out of each side's health. */
  lemma {:induction false} PlayKeepsHealthLedger(s: FightState, rounds: seq<(Move, Move)>)
    requires s.enemyStats.Some?
    ensures var n := Play(s, rounds);
            && n.enemyHealth + DamageDealtTotal(n.moveOutcomes) == s.enemyHealth + DamageDealtTotal(s.moveOutcomes)
            && n.playerHealth + DamageTakenTotal(n.moveOutcomes) == s.playerHealth + DamageTakenTotal(s.moveOutcomes)
    decreases |rounds|
  {
    if |rounds| > 0 {
      UpdateKeepsHealthLedger(s, rounds[0].0, rounds[0].1);
      PlayKeepsHealthLedger(UpdateFightState(s, rounds[0].0, rounds[0].1), rounds[1..]);
    }
  }

  /** A fresh fight after k rounds: round k, k records in each log, and each side's
      health is its starting health less the damage the log records against it. */
  lemma NewFightAfterRounds(enemyId: int, enemyHealth: int, playerHealth: int, playerShield: int,
                            skills: PlayerSkills, stats: EnemyStats, rounds: seq<(Move, Move)>)
    ensures var n := Play(NewFight(enemyId, enemyHealth, playerHealth, playerShield, skills, Some(stats)), rounds);
            && RoundsConsistent(n) && n.roundNumber == |rounds|
            && n.moveHistory == RoundRecords(rounds, 1)
            && n.enemyHealth == enemyHealth - DamageDealtTotal(n.moveOutcomes)
            && n.playerHealth == playerHealth - DamageTakenTotal(n.moveOutcomes)
  {
    var s := NewFight(enemyId, enemyHealth, playerHealth, playerShield, skills, Some(stats));
    assert s.moveHistory == [] && s.moveOutcomes == [] && s.roundNumber == 0;
    PlayKeepsRoundsConsistent(s, rounds);
    PlayRecordsEveryRound(s, rounds);
    PlayKeepsHealthLedger(s, rounds);
    assert DamageDealtTotal(s.moveOutcomes) == 0 && DamageTakenTotal(s.moveOutcomes) == 0;
  }
}
