/**
 Properties of the move scorer: which inputs it reads, the signs of its terms,
 and the charge scaling.
 */
module ScoreFacts {
  import opened Optional
  import opened Moves
  import opened Stats
  import opened Fight
  import opened Scoring

  /** Every slot of the pattern is non-negative, as the game service reports them. */
  predicate NonNegativePattern(p: seq<int>)
  {
    forall k :: 0 <= k < |p| ==> p[k] >= 0
  }

  /** A pattern of non-negative slots has a non-negative sum. */
  lemma {:induction false} SumNonNegative(p: seq<int>)
    requires NonNegativePattern(p)
    ensures Sum(p) >= 0
  {
    if |p| > 0 {
      SumNonNegative(p[..|p| - 1]);
    }
  }

  lemma NonNegativeProduct(p: real, x: int)
    requires p >= 0.0 && x >= 0
    ensures p * x as real >= 0.0
  {
  }

  /** The probability of an enemy move is non-negative when every slot is. */
  lemma ProbabilityNonNegative(es: EnemyStats, e: Move)
    requires Sum(es.movePattern) != 0 && NonNegativePattern(es.movePattern)
    ensures Probability(es, e) >= 0.0
  {
    SumNonNegative(es.movePattern);
    assert es.movePattern[ProbabilitySlot(e)] >= 0;
  }

  /** With non-negative slots, a non-negative enemy health and a shield of at most 100,
      a counter term never lowers the value. */
  lemma CounterTermNonNegative(s: FightState, m: Move, e: Move)
    requires HasPattern(s) && NonNegativePattern(s.enemyStats.value.movePattern)
    requires s.enemyHealth >= 0 && s.playerShield <= 100
    requires s.EnemyMayPlay(e) && Counter(m) == e
    ensures Term(s, m, e) >= 0.0
  {
    var es := s.enemyStats.value;
    ProbabilityNonNegative(es, e);
    CounterTerm(s, m, e);
    assert es.Atk(e) >= 0;
    NonNegativeProduct(Probability(es, e), DamageDealt(s, m, e) * 2 + ShieldRepair(s, m, e));
  }

  /** With non-negative slots and a non-negative player health, a countered term never
      raises the value. */
  lemma CounteredTermNonPositive(s: FightState, m: Move, e: Move)
    requires HasPattern(s) && NonNegativePattern(s.enemyStats.value.movePattern)
    requires s.playerHealth >= 0
    requires s.EnemyMayPlay(e) && Counter(e) == m
    ensures Term(s, m, e) <= 0.0
  {
    var es := s.enemyStats.value;
    ProbabilityNonNegative(es, e);
    CounteredTerm(s, m, e);
    assert es.Atk(e) >= 0;
    NonNegativeProduct(Probability(es, e), DamageTaken(s, m, e));
  }

  /** Two states agree on what the term of `e` for move `m` reads. */
  predicate SameTermInputs(s: FightState, t: FightState, m: Move, e: Move)
    requires HasPattern(s) && HasPattern(t)
  {
    && Probability(s.enemyStats.value, e) == Probability(t.enemyStats.value, e)
    && s.enemyStats.value.Atk(e) == t.enemyStats.value.Atk(e)
    && s.EnemyMayPlay(e) == t.EnemyMayPlay(e)
    && s.enemyHealth == t.enemyHealth
    && s.playerHealth == t.playerHealth
    && s.playerShield == t.playerShield
    && s.playerSkills == t.playerSkills
  }

  /** The term of `e` depends on nothing but its inputs. */
  lemma TermFrame(s: FightState, t: FightState, m: Move, e: Move)
    requires HasPattern(s) && HasPattern(t) && SameTermInputs(s, t, m, e)
    ensures Term(t, m, e) == Term(s, m, e)
  {
    if s.EnemyMayPlay(e) && Counter(m) == e {
      CounterTerm(s, m, e);
      CounterTerm(t, m, e);
      assert DamageDealt(s, m, e) == DamageDealt(t, m, e);
      assert ShieldRepair(s, m, e) == ShieldRepair(t, m, e);
    } else if s.EnemyMayPlay(e) && Counter(e) == m {
      CounteredTerm(s, m, e);
      CounteredTerm(t, m, e);
      assert DamageTaken(s, m, e) == DamageTaken(t, m, e);
    } else if s.EnemyMayPlay(e) {
      CounterIsTournament(m, e);
    }
  }

  /** Two playable states with equal terms, bonus inputs and charges score alike. */
  lemma MoveValueFrame(s: FightState, t: FightState, m: Move)
    requires HasPattern(s) && HasPattern(t) && s.PlayerMayPlay(m) && t.PlayerMayPlay(m)
    requires forall e :: Term(t, m, e) == Term(s, m, e)
    requires s.enemyHealth == t.enemyHealth && s.playerSkills == t.playerSkills
    requires s.playerCharges.Get(m) == t.playerCharges.Get(m)
    ensures MoveValue(t, m) == MoveValue(s, m)
  {
    assert Accumulated(t, m) == Accumulated(s, m);
    assert Bonus(t, m) == Bonus(s, m);
    PlayableMoveValue(s, m);
    PlayableMoveValue(t, m);
  }

  /** Two states that agree on health, shield, skills, enemy pattern and both economies. */
  predicate SameScoringInputs(s: FightState, t: FightState)
  {
    && s.enemyHealth == t.enemyHealth
    && s.playerHealth == t.playerHealth
    && s.playerShield == t.playerShield
    && s.playerSkills == t.playerSkills
    && s.enemyStats.Some? == t.enemyStats.Some?
    && (s.enemyStats.Some? ==> s.enemyStats.value.movePattern == t.enemyStats.value.movePattern)
    && s.playerCharges == t.playerCharges
    && s.playerCooldowns == t.playerCooldowns
    && s.enemyCharges == t.enemyCharges
    && s.enemyCooldowns == t.enemyCooldowns
  }

  /** The score reads nothing else: not the round, the history, the last moves, the
      enemy's identity, name or equipment. */
  lemma ScoreReadsOnlyScoringInputs(s: FightState, t: FightState, m: Move)
    requires SameScoringInputs(s, t) && Scorable(s, m)
    ensures Scorable(t, m) && MoveValue(t, m) == MoveValue(s, m)
  {
    assert t.PlayerMayPlay(m) == s.PlayerMayPlay(m);
    if s.PlayerMayPlay(m) {
      forall e
        ensures Term(t, m, e) == Term(s, m, e)
      {
        TermFrame(s, t, m, e);
      }
      MoveValueFrame(s, t, m);
    }
  }

  /** The enemy's economy for the mirror move does not affect the value of a move. */
  lemma MirrorEconomyIrrelevant(s: FightState, m: Move, charges: int, cooldown: int)
    requires Scorable(s, m)
    ensures var t := s.(enemyCharges := s.enemyCharges.Set(m, charges),
                        enemyCooldowns := s.enemyCooldowns.Set(m, cooldown));
            Scorable(t, m) && MoveValue(t, m) == MoveValue(s, m)
  {
    var t := s.(enemyCharges := s.enemyCharges.Set(m, charges),
                enemyCooldowns := s.enemyCooldowns.Set(m, cooldown));
    assert t.PlayerMayPlay(m) == s.PlayerMayPlay(m);
    if s.PlayerMayPlay(m) {
      forall e
        ensures Term(t, m, e) == Term(s, m, e)
      {
        if e != m {
          assert t.EnemyMayPlay(e) == s.EnemyMayPlay(e);
          TermFrame(s, t, m, e);
        }
      }
      MoveValueFrame(s, t, m);
    }
  }

  /** The player's economy for the other moves does not affect the value of a move. */
  lemma OtherPlayerMovesIrrelevant(s: FightState, m: Move, o: Move, charges: int, cooldown: int)
    requires o != m && Scorable(s, m)
    ensures var t := s.(playerCharges := s.playerCharges.Set(o, charges),
                        playerCooldowns := s.playerCooldowns.Set(o, cooldown));
            Scorable(t, m) && MoveValue(t, m) == MoveValue(s, m)
  {
    var t := s.(playerCharges := s.playerCharges.Set(o, charges),
                playerCooldowns := s.playerCooldowns.Set(o, cooldown));
    assert t.PlayerMayPlay(m) == s.PlayerMayPlay(m);
    if s.PlayerMayPlay(m) {
      forall e
        ensures Term(t, m, e) == Term(s, m, e)
      {
        TermFrame(s, t, m, e);
      }
      MoveValueFrame(s, t, m);
    }
  }

  /** A playable move's value is its value with three charges, scaled by charges / 3. */
  lemma ChargeScaling(s: FightState, m: Move)
    requires s.PlayerMayPlay(m) && HasPattern(s)
    ensures var full := s.(playerCharges := s.playerCharges.Set(m, 3));
            Scorable(full, m) &&
            MoveValue(s, m) == Finite(ScaleByCharges(MoveValue(full, m).value, s.playerCharges.Get(m)))
  {
    var full := s.(playerCharges := s.playerCharges.Set(m, 3));
    forall e
      ensures Term(full, m, e) == Term(s, m, e)
    {
      TermFrame(s, full, m, e);
    }
    var v := Accumulated(s, m) + Bonus(s, m);
    assert Accumulated(full, m) + Bonus(full, m) == v;
    PlayableMoveValue(s, m);
    PlayableMoveValue(full, m);
    assert MoveValue(full, m).value == v;
  }
}
