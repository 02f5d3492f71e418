# Gigaverse combat engine, in Dafny

A model of the combat decision engine of `GigaverseCalculator`. The calculator advises a player in a
three-move cyclic fight (Sword, Shield, Spell). It scores each move's expected value against the
enemy's move pattern. It picks the best move. It can also advance a fight by one round and record
the damage.

Modules, leaves first:

- `Optional`: `Option`, for the calculator's `None` values.
- `Arith`: Python's two-argument `min` and `max` on integers.
- `Moves`: the `Move` type, the iteration order Sword, Shield, Spell, and the counter relation
  `move_counter` with its inverse `move_counter_reverse`.
- `Stats`: `PlayerSkills`; `EnemyStats`, whose named stats are
  projections of the six-slot move pattern; `sum(move_pattern)`; and the per-move charge and
  cooldown dictionaries as the total record `PerMove`, with the playability test `Available`.
- `Fight`: `FightState`, its history and outcome records, and the state built with every optional
  argument except `enemy_stats` left out (three charges, no cooldowns, round 0, empty history).
- `Scoring`: `_calculate_move_value`. It is a closed-form definition (`MoveValue`), plus the
  source's loop as methods (`ScoreMove` and its helpers) proved equal to it.
- `Selection`: `calculate_best_move`, with Python's `max` modelled as a left-to-right scan that
  replaces its candidate only on a strictly greater value.
- `ScoreFacts`: properties of the scorer. They cover term signs, which inputs it reads, charge
  scaling, and which moves' economies do not matter.
- `Scenarios`: worked examples. The player stats are the calculator's fallback player stats
  (Sword attack 9, Shield defense 4, 16 health, 6 shield). The enemy's six slots are all 3.
- `Resolution`: `_calculate_damage`, `update_fight_state`, and what a run of rounds does to a fight.

Python floats are modelled by exact `real`s. `float('-inf')` is modelled by `Score.NegInf`. Python
`//` is Dafny `/` here, because every divisor is `2` or `max(1, def)`, which are positive.

Points where the code's behaviour is easy to misread, kept as written:

- The comment at `gigaverse_calculator.py:43` labels the six pattern slots Sword ATK, Sword DEF,
  Shield ATK, Shield DEF, Spell ATK, Spell DEF. The probability loop at lines 275-283 still pairs
  probability index i with the i-th of Sword, Shield, Spell and breaks at index 3. So Sword's
  weight is slot 0, Shield's is slot 1 (Sword DEF) and Spell's is slot 2 (Shield ATK), each over
  the sum of all six slots. The enemy's power for a move is that move's ATK slot (0, 2 or 4, line
  294). `Scoring.Probability` states the slot of each move, and
  `Scoring.ProbabilityAndPowerSlotsDiffer` records that the two slots coincide only for Sword.
- Lines 262, 266, 286 and 290 block a move only when its cooldown is above 0 or its charges are at
  most 0. So a negative cooldown counts as free (`Stats.Available`).
- Without enemy stats, in the state or from the roster, the best-move search returns
  `("Unknown", 0.0)` (lines 235-238, `Pick.Unknown`). It raises nothing.
- When no move can be played, all three values are `-inf`. `max` then keeps the first entry, so
  the search returns Sword with `-inf` (`Selection.BestMoveIllegalOnlyIfAllIllegal`).

## Model

| member | source | states |
|---|---|---|
| Moves.Counter | gigaverse_calculator.py:128-132 | no move counters itself |
| Moves.CounterReverse | gigaverse_calculator.py:133 | the reverse map returns a move that counters the given one |
| Moves.CounterIsThreeCycle | gigaverse_calculator.py:128-132 | three counter steps return to the start; two do not |
| Moves.CounterReverseIsInverse | gigaverse_calculator.py:128-133 | the reverse map is the two-sided inverse of the counter map |
| Moves.CounterIsTournament | gigaverse_calculator.py:128-132 | two different moves stand in exactly one direction of the relation; a move and itself in neither |
| Moves.MoveOrderEnumerates | gigaverse_calculator.py:279 | the order Sword, Shield, Spell lists every move once |
| Fight.NewFight | gigaverse_calculator.py:51-84 | a state built with every optional argument except the enemy stats omitted keeps the given id, healths, shield, skills and stats. Both sides have three charges and cooldown 0 on every move, so every move is playable. It is at round 0 with empty logs and no last moves, and the logs agree with the round counter. |
| Stats.Available | gigaverse_calculator.py:262-267 | a move is playable iff neither of the scorer's exit tests fires (cooldown above 0, charges at most 0), the same tests that skip enemy moves at lines 286-291; a negative cooldown with a charge left is playable |
| Scoring.ProbabilityAndPowerSlotsDiffer | gigaverse_calculator.py:275-294 | an enemy move's probability slot (0, 1, 2) equals its power slot (0, 2, 4) only for Sword |
| Scoring.Probability | gigaverse_calculator.py:275-283 | an enemy move's probability times the pattern sum is the slot at its position in Sword, Shield, Spell: Sword ATK for Sword, Sword DEF for Shield, Shield ATK for Spell |
| Scoring.DamageDealt | gigaverse_calculator.py:299-303 | damage dealt is at most the enemy's health and at most power times max(1, attack) |
| Scoring.ShieldRepair | gigaverse_calculator.py:306-310 | repair is at most 100 minus the shield and at most half the power, rounded down, times max(1, defense) |
| Scoring.DamageTaken | gigaverse_calculator.py:318-322 | damage taken is at most the player's health and at most power divided, rounded down, by max(1, defense) |
| Scoring.Term | gigaverse_calculator.py:285-323 | an enemy move that is on cooldown or out of charges adds nothing; the mirror move adds nothing |
| Scoring.CounterTerm | gigaverse_calculator.py:297-313 | a proof step that unfolds `Term`'s counter branch: a playable enemy move that the move counters adds its probability times twice the damage dealt plus the repair. Its sign is in `ScoreFacts.CounterTermNonNegative` |
| Scoring.CounteredTerm | gigaverse_calculator.py:316-323 | a proof step that unfolds `Term`'s countered branch: a playable enemy move that counters the move subtracts its probability times twice the damage taken. Its sign is in `ScoreFacts.CounteredTermNonPositive` |
| Scoring.Bonus | gigaverse_calculator.py:326-329 | the bonus is 5 exactly when the move is Sword, the attack is positive and the enemy has at most 4 health; otherwise it is 0 |
| Scoring.ScaleByCharges | gigaverse_calculator.py:332 | with 3 charges the scaling leaves the value unchanged |
| Scoring.MoveValue | gigaverse_calculator.py:255-334 | the value is `-inf` exactly when the move is on cooldown or out of charges; with 3 charges it is the accumulated terms plus the bonus, unscaled |
| Scoring.AddCounterTerm | gigaverse_calculator.py:297-313 | the counter branch of the loop adds exactly that enemy move's term |
| Scoring.SubtractCounteredTerm | gigaverse_calculator.py:316-323 | the countered branch of the loop adds exactly that enemy move's (negative) term |
| Scoring.AddEnemyMove | gigaverse_calculator.py:283-323 | one loop pass adds exactly the term of its enemy move, skipped moves and the mirror included |
| Scoring.AccumulateTerms | gigaverse_calculator.py:273-323 | the loop over all six probabilities, stopping at the fourth, sums exactly the three enemy-move terms |
| Scoring.ScorePlayableMove | gigaverse_calculator.py:269-334 | for a playable move, the loop plus bonus plus scaling gives the closed-form value |
| Scoring.ScoreMove | gigaverse_calculator.py:255-334 | the scorer as written, with its early `-inf` returns, equals the closed-form `MoveValue` |
| Selection.ResolvedStats | gigaverse_calculator.py:235-238 | the search uses the state's enemy stats when present, otherwise the roster lookup; it has none iff both are missing |
| Selection.FirstMaximal | gigaverse_calculator.py:252 | the scan returns an index whose value no other exceeds, and every earlier value is strictly below it |
| Selection.MoveValues | gigaverse_calculator.py:241-245 | the value dictionary holds each move's value at its position in the order Sword, Shield, Spell |
| Selection.CalculateBestMove | gigaverse_calculator.py:228-253 | with no enemy stats, in the state or from the roster, the answer is Unknown with value 0.0; otherwise the chosen move's value is at least every other move's, and every earlier move scores strictly less; the state carries the looked-up stats |
| Selection.BestMoveIllegalOnlyIfAllIllegal | gigaverse_calculator.py:240-253 | the chosen value is `-inf` exactly when no move can be played, and then the choice is Sword |
| ScoreFacts.SumNonNegative | gigaverse_calculator.py:275 | a pattern of non-negative slots has a non-negative sum |
| ScoreFacts.ProbabilityNonNegative | gigaverse_calculator.py:275-276 | with non-negative slots every enemy-move probability is non-negative |
| ScoreFacts.CounterTermNonNegative | gigaverse_calculator.py:297-313 | with non-negative slots, enemy health at least 0 and shield at most 100, a counter term never lowers the value |
| ScoreFacts.CounteredTermNonPositive | gigaverse_calculator.py:316-323 | with non-negative slots and player health at least 0, a countered term never raises the value |
| ScoreFacts.TermFrame | gigaverse_calculator.py:285-323 | an enemy move's term depends only on its probability, its power, whether the enemy can play it, both healths, the shield and the player's skills |
| ScoreFacts.MoveValueFrame | gigaverse_calculator.py:326-334 | equal terms, enemy health, skills and charges give equal values |
| ScoreFacts.ScoreReadsOnlyScoringInputs | gigaverse_calculator.py:255-334 | the value ignores the round, the history, the last moves and the enemy's identity, name and equipment |
| ScoreFacts.MirrorEconomyIrrelevant | gigaverse_calculator.py:285-323 | the enemy's charges and cooldown for the mirror move never change a move's value |
| ScoreFacts.OtherPlayerMovesIrrelevant | gigaverse_calculator.py:261-267 | the player's charges and cooldowns for other moves never change a move's value |
| ScoreFacts.ChargeScaling | gigaverse_calculator.py:331-332 | a playable move's value is its three-charge value scaled by charges / 3 |
| Scenarios.ExampleFight | gigaverse_calculator.py:172-180 | in the example fight, built with the fallback player stats, both sides can play every move and the player holds 3 charges of each; the uniform pattern sums to 18 |
| Scenarios.UniformProbabilities | gigaverse_calculator.py:275-276 | with all six slots equal, each enemy move has probability 1/6 |
| Scenarios.SwordOutscoresShield | gigaverse_calculator.py:255-334 | in the example Sword scores 49/6 and Shield 5/3, so Sword ranks above Shield |
| Scenarios.FinishingBonusApplies | gigaverse_calculator.py:325-332 | with the enemy on 4 health the Sword value carries the +5 bonus (11/2 in all), and on 50 health it does not |
| Scenarios.NoChargesNoSword | gigaverse_calculator.py:265-267 | without Sword charges the Sword value is `-inf` |
| Resolution.AttackPower | gigaverse_calculator.py:387-394 | attack power is always the attack move's ATK facet: the player's iff the player's last move is the attack move, the enemy's otherwise |
| Resolution.DefensePower | gigaverse_calculator.py:389-395 | defense power is always the attack move's DEF facet, never the defense move's: the player's iff the enemy's last move is the defense move, the enemy's otherwise |
| Resolution.CalculateDamage | gigaverse_calculator.py:384-399 | damage is never negative and equals max(0, attack power - defense power). The attack facet is the player's iff the player's last move is the attack move. The defense facet is the player's iff the enemy's last move is the defense move. Both facets belong to the attack move. |
| Resolution.DefenseFacetFollowsAttackMove | gigaverse_calculator.py:387-395 | two defense moves the enemy did not last play give the same damage, the enemy's defense for the attack move |
| Resolution.MirrorRoundDamagesAgree | gigaverse_calculator.py:362-363 | when both sides play the same move, both recorded damages are equal |
| Resolution.UpdateFightState | gigaverse_calculator.py:336-382 | the round goes up by one and the last moves are set. Each log grows by one record tagged with the new round. The healths drop by damages computed on the old state, with no floor. Every other field is unchanged. |
| Resolution.UpdateKeepsRoundsConsistent | gigaverse_calculator.py:355-380 | a round keeps both log lengths equal to the round counter and the i-th records tagged i + 1 |
| Resolution.UpdateKeepsHealthLedger | gigaverse_calculator.py:362-380 | health plus the damage logged against that side is the same before and after a round |
| Resolution.Play | gigaverse_calculator.py:336-382 | a run of k rounds adds k to the round counter, keeps the enemy stats, and never raises either health |
| Resolution.PlayRecordsEveryRound | gigaverse_calculator.py:369-374 | a run of rounds keeps the old history as a prefix and appends one record per round, tagged with consecutive round numbers |
| Resolution.PlayKeepsRoundsConsistent | gigaverse_calculator.py:355-380 | a run of rounds keeps the logs in step with the round counter |
| Resolution.PlayKeepsHealthLedger | gigaverse_calculator.py:362-380 | a run of rounds moves exactly the logged damage out of each side's health |
| Resolution.NewFightAfterRounds | gigaverse_calculator.py:336-382 | after k rounds from a fresh fight, the round is k and the history is exactly the k rounds played. Each health is its start less the logged damage against it. |

## Left out

- HTTP and authentication (`_fetch_enemies`, `fetch_player_state`, `fetch_enemy_state`, `fetch_game_state`, the token and header globals): network I/O.
- `main`: the polling loop, sleeping, screen output, the `game_history.json` file and the parsing of the service's JSON into a `FightState`. This is I/O glue.
- The `timestamp` field and `time.time()`: nondeterministic and read by nothing in the engine.
- `to_dict`: a dictionary projection for persistence, with no logic.
- `get_enemy_stats`: the roster lookup is the `Option<EnemyStats>` parameter of `Selection.CalculateBestMove`.
- The printing inside `calculate_best_move`.
- Float rounding: values are exact reals, so they can differ from the source's floats in the last bits. A tie that rounding would break is a tie here.
- `ZeroDivisionError` on a zero pattern sum and `AttributeError` on missing enemy stats are preconditions, not modelled errors (`Scoring.Scorable`, `Selection.BestMoveDefined`, `Resolution.DamageDefined`). Each one asks only what the source reads on that path: an unplayable move needs neither, and `_calculate_damage` needs enemy stats only for a facet it takes from the enemy.
- `IndexError` for a pattern shorter than six slots: the `Pattern` type has at least six slots.
- `KeyError` on a per-move dictionary without a move's key, and the `or` fallback to the default dictionaries when an empty one is passed: the per-move dictionaries are total records, so neither case can arise.
- Move names other than the three: last moves are `Option<Move>`, and any other string the service could report is modelled as `None`, which matches no move.
- Move arguments other than the three: `_calculate_damage` treats any attack string other than "Sword" or "Shield" as Spell (lines 393-395), such as the "Unknown" that `calculate_best_move` can return at line 238. `update_fight_state` records whatever strings it is given (lines 370-374). `Resolution.CalculateDamage` and `Resolution.UpdateFightState` take `Move` arguments, so neither case is modelled.
- The default argument values of `PlayerSkills` (lines 13-21): every construction in the file passes all eight arguments, so the defaults are never used.
- Resolution.Play: a composition of rounds for the multi-round lemmas, not a source function. It asks for enemy stats up front so that every round's damage is defined.
