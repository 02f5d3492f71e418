/**
 The snapshot of one fight (`FightState`): both sides' health and economy, the
 last moves played and the per-round history. The capture timestamp is not part
 of the model.
 */
module Fight {
  import opened Optional
  import opened Moves
  import opened Stats

  /** One `move_history` record. */
  datatype HistoryEntry = HistoryEntry(playerMove: Move, enemyMove: Move, round: int)

  /** One `move_outcomes` record. */
  datatype OutcomeEntry = OutcomeEntry(playerDamage: int, enemyDamage: int, round: int)

  datatype FightState = FightState(
    enemyId: int,
    enemyHealth: int,
    playerHealth: int,
    playerShield: int,
    playerSkills: PlayerSkills,
    enemyStats: Option<EnemyStats>,
    lastPlayerMove: Option<Move>,
    lastEnemyMove: Option<Move>,
    playerCharges: PerMove,
    playerCooldowns: PerMove,
    enemyCharges: PerMove,
    enemyCooldowns: PerMove,
    roundNumber: int,
    moveHistory: seq<HistoryEntry>,
    moveOutcomes: seq<OutcomeEntry>)
  {
    /** The player may play `m` this round. */
    predicate PlayerMayPlay(m: Move)
    {
      Available(playerCharges, playerCooldowns, m)
    }

    /** The enemy may play `e` this round. */
    predicate EnemyMayPlay(e: Move)
    {
      Available(enemyCharges, enemyCooldowns, e)
    }
  }

  /** The round counter agrees with the history: one move record and one outcome
      record per round played, the i-th of each tagged with round i + 1. */
  ghost predicate RoundsConsistent(s: FightState)
  {
    && |s.moveHistory| == s.roundNumber
    && |s.moveOutcomes| == s.roundNumber
    && (forall i :: 0 <= i < |s.moveHistory| ==> s.moveHistory[i].round == i + 1)
    && (forall i :: 0 <= i < |s.moveOutcomes| ==> s.moveOutcomes[i].round == i + 1)
  }

  /** A `FightState` built with every optional argument omitted except `enemy_stats`:
      no moves seen, three charges and no cooldown on every move of both sides,
      round 0, empty history. */
  function NewFight(enemyId: int, enemyHealth: int, playerHealth: int, playerShield: int,
                    skills: PlayerSkills, enemyStats: Option<EnemyStats>): (s: FightState)
    ensures s.enemyId == enemyId
    ensures s.enemyHealth == enemyHealth && s.playerHealth == playerHealth
    ensures s.playerShield == playerShield && s.playerSkills == skills && s.enemyStats == enemyStats
    ensures s.lastPlayerMove.None? && s.lastEnemyMove.None?
    ensures forall m :: s.PlayerMayPlay(m) && s.EnemyMayPlay(m)
    ensures forall m :: s.playerCharges.Get(m) == 3 && s.enemyCharges.Get(m) == 3
    ensures forall m :: s.playerCooldowns.Get(m) == 0 && s.enemyCooldowns.Get(m) == 0
    ensures s.roundNumber == 0 && s.moveHistory == [] && s.moveOutcomes == []
    ensures RoundsConsistent(s)
  {
    FightState(enemyId, enemyHealth, playerHealth, playerShield, skills, enemyStats,
               None, None, FullCharges, NoCooldowns, FullCharges, NoCooldowns,
               0, [], [])
  }
}
