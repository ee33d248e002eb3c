/** The records of Battle/Data/ServerBattleData.cs: a combatant's state, one resolved action,
    one round of the trace and the complete battle record, with their constructor defaults,
    the derived health queries and the fixed battle constants. */
module BattleData {
  import opened Common

  /** `BattleConfig`. */
  const MAX_ROUNDS: int := 30
  const MAX_UNITS_PER_SIDE: int := 6
  const CRITICAL_RATE: real := 0.1
  const CRITICAL_DAMAGE: real := 1.5
  const MISS_RATE: real := 0.05

  /** `BattleResult`; `Undecided` stands for the enumeration's default value 0, which names no member. */
  datatype BattleResult = Undecided | Victory | Defeat | Draw

  datatype ActionType =
    | Attack | UseSkill | BuffApplied | BuffRemoved | Heal | Death | Revive | Damage | Buff
    | Debuff | StatusEffect | AddBuff | Trigger | Shield | Dispel

  /** One combatant. The floating-point rate fields (hit, dodge, crit, ... rates) are kept in
      `rates`, keyed by their `AttributeType` identifier. */
  datatype BattleUnit = BattleUnit(
    unitId: int,
    unitName: string,
    attackId: int,
    skillId: int,
    passiveSkillIds: seq<int>,
    maxHp: int,
    currentHp: int,
    attack: int,
    defense: int,
    speed: int,
    currentMp: int,
    rates: map<int, real>,
    controlCountEnhance: int,
    controlCountReduce: int,
    isAlive: bool,
    totalDamageDealt: int,
    totalDamageReceived: int,
    totalHealingDone: int,
    totalHealingReceived: int)

  /** Field initialisers of the rate fields: hit 1, retaliate 0.1, combo 0.1, crit damage 1.5, others 0. */
  function DefaultRate(attribute: int): real
  {
    if attribute == 3001 then 1.0
    else if attribute == 3003 || attribute == 3005 then 0.1
    else if attribute == 3013 then 1.5
    else 0.0
  }

  /** `new BattleUnit()`. */
  function NewBattleUnit(): (u: BattleUnit)
    ensures u.isAlive
    ensures u.totalDamageDealt == 0 && u.totalDamageReceived == 0
    ensures u.totalHealingDone == 0 && u.totalHealingReceived == 0
    ensures u.rates.Keys == RATE_ATTRIBUTES && u.rates[3001] == 1.0 && u.rates[3013] == 1.5
  {
    BattleUnit(0, "", 0, 0, [], 0, 0, 0, 0, 0, 0,
      map a | a in RATE_ATTRIBUTES :: DefaultRate(a),
      0, 0, true, 0, 0, 0, 0)
  }

  /** `HpPercent`: the fraction of health left, 0 when the maximum is not positive. */
  function HpPercent(u: BattleUnit): real
  {
    if u.maxHp > 0 then u.currentHp as real / u.maxHp as real else 0.0
  }

  /** `IsNearDeath`. */
  predicate IsNearDeath(u: BattleUnit)
  {
    HpPercent(u) <= 0.2
  }

  lemma HpPercentBounds(u: BattleUnit)
    requires 0 <= u.currentHp <= u.maxHp
    ensures 0.0 <= HpPercent(u) <= 1.0
    ensures u.maxHp > 0 ==> (HpPercent(u) == 1.0 <==> u.currentHp == u.maxHp)
  {
    if u.maxHp > 0 {
      var c, m := u.currentHp as real, u.maxHp as real;
      assert HpPercent(u) * m == c;
    }
  }

  /** Near death means at most a fifth of the maximum health is left (or the maximum is not positive). */
  lemma NearDeathIsOneFifth(u: BattleUnit)
    ensures u.maxHp > 0 ==> (IsNearDeath(u) <==> 5 * u.currentHp <= u.maxHp)
    ensures u.maxHp <= 0 ==> IsNearDeath(u)
  {
    if u.maxHp > 0 {
      FractionAtMostFifth(u.currentHp as real, u.maxHp as real);
    }
  }

  lemma FractionAtMostFifth(c: real, m: real)
    requires m > 0.0
    ensures c / m <= 0.2 <==> 5.0 * c <= m
  {
    var q := c / m;
    assert q * m == c;
    if q <= 0.2 {
      assert (0.2 - q) * m >= 0.0;
    } else {
      assert (q - 0.2) * m > 0.0;
    }
  }

  /** One resolved effect application. */
  datatype BattleAction = BattleAction(
    actionType: ActionType,
    sourceUnitId: int,
    targetUnitIds: seq<int>,
    skillId: int,
    roundNumber: int,
    isCritical: bool,
    isMiss: bool,
    value: int,
    actualValue: int,
    actionData: ParamBag,
    description: string)

  /** `new BattleAction()`. */
  function NewBattleAction(): (a: BattleAction)
    ensures a.targetUnitIds == [] && a.actionData == map[]
    ensures !a.isCritical && !a.isMiss && a.value == 0 && a.actualValue == 0
  {
    BattleAction(ActionType.Attack, 0, [], 0, 0, false, false, 0, 0, map[], "")
  }

  /** One round of the trace: its actions and a snapshot of the units at its end. */
  datatype BattleRound = BattleRound(
    roundNumber: int,
    actions: seq<BattleAction>,
    unitStates: map<int, BattleUnit>,
    roundDescription: string)

  /** `new BattleRound { roundNumber = n }`. */
  function NewBattleRound(roundNumber: int): (r: BattleRound)
    ensures r.roundNumber == roundNumber && r.actions == [] && r.unitStates == map[]
  {
    BattleRound(roundNumber, [], map[], "")
  }

  datatype BattleStatistics = BattleStatistics(
    totalRounds: int, totalActions: int, team1UnitsRemaining: int, team2UnitsRemaining: int, winner: int)

  /** The complete record of one battle. */
  datatype CompleteBattleData = CompleteBattleData(
    battleId: string,
    result: BattleResult,
    rounds: seq<BattleRound>,
    statistics: Option<BattleStatistics>,
    totalRounds: int)

  /** `new CompleteBattleData()`; the generated GUID is supplied as `battleId`. */
  function NewCompleteBattleData(battleId: string): (d: CompleteBattleData)
    ensures d.battleId == battleId && d.rounds == [] && d.result == Undecided
  {
    CompleteBattleData(battleId, Undecided, [], None, 0)
  }

  /** A roster entry of the battle request (declared in Battle/API/BattleController.cs). */
  datatype Hero = Hero(
    uid: int,
    attrDic: map<int, real>,
    attackId: int,
    skillId: int,
    passiveSkillIds: seq<int>)
}
