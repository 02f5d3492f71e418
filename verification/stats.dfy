/**
 The combatants' stat blocks and the per-move charge/cooldown economy
 (`PlayerSkills`, `EnemyStats` and the per-move dictionaries of `FightState`).
 */
module Stats {
  import opened Moves

  /** `PlayerSkills`: attack and defense per move, plus base health and armor. */
  datatype PlayerSkills = PlayerSkills(
    swordAtk: int, swordDef: int,
    shieldAtk: int, shieldDef: int,
    spellAtk: int, spellDef: int,
    baseHp: int, baseArmor: int)
  {
    /** The `<move>_atk` field. */
    function Atk(m: Move): int
    {
      match m
      case Sword => swordAtk
      case Shield => shieldAtk
      case Spell => spellAtk
    }

    /** The `<move>_def` field. */
    function Def(m: Move): int
    {
      match m
      case Sword => swordDef
      case Shield => shieldDef
      case Spell => spellDef
    }
  }

  /** An enemy move pattern: the constructor reads slots 0 to 5, so it has at least six. */
  type Pattern = p: seq<int> | |p| >= 6 witness [0, 0, 0, 0, 0, 0]

  /** `EnemyStats`. The pattern slots are, in order, Sword ATK, Sword DEF, Shield ATK,
      Shield DEF, Spell ATK, Spell DEF; the named stats are projections of them. */
  datatype EnemyStats = EnemyStats(
    name: string,
    movePattern: Pattern,
    equipmentHeadCid: int,
    equipmentBodyCid: int)
  {
    /** Pattern slot holding the attack of move `m`. */
    static function AtkSlot(m: Move): (k: nat)
      ensures k < 6 && k % 2 == 0
    {
      2 * Rank(m)
    }

    /** The `<move>_atk` attribute. */
    function Atk(m: Move): int
    {
      movePattern[AtkSlot(m)]
    }

    /** The `<move>_def` attribute. */
    function Def(m: Move): int
    {
      movePattern[AtkSlot(m) + 1]
    }
  }

  /** `sum(move_pattern)`. */
  function Sum(p: seq<int>): int
  {
    if |p| == 0 then 0 else Sum(p[..|p| - 1]) + p[|p| - 1]
  }

  /** A per-move counter, the `Dict[str, int]` keyed by "Sword", "Shield", "Spell". */
  datatype PerMove = PerMove(sword: int, shield: int, spell: int)
  {
    function Get(m: Move): int
    {
      match m
      case Sword => sword
      case Shield => shield
      case Spell => spell
    }

    /** The dictionary with the entry for `m` replaced. */
    function Set(m: Move, v: int): (r: PerMove)
      ensures r.Get(m) == v
      ensures forall o :: o != m ==> r.Get(o) == Get(o)
    {
      match m
      case Sword => this.(sword := v)
      case Shield => this.(shield := v)
      case Spell => this.(spell := v)
    }
  }

  /** Default charges (3 per move) and cooldowns (0 per move) of a new `FightState`. */
  const FullCharges := PerMove(3, 3, 3)
  const NoCooldowns := PerMove(0, 0, 0)

  /** A move may be played iff it is not on cooldown and has a charge left. Only a
      positive cooldown blocks a move, so a negative one counts as free. */
  predicate Available(charges: PerMove, cooldowns: PerMove, m: Move)
    ensures Available(charges, cooldowns, m) <==> !(cooldowns.Get(m) > 0) && !(charges.Get(m) <= 0)
    ensures cooldowns.Get(m) < 0 && charges.Get(m) > 0 ==> Available(charges, cooldowns, m)
  {
    cooldowns.Get(m) <= 0 && charges.Get(m) > 0
  }
}
