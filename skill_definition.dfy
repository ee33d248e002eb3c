/** The skill records of Battle/Skill/SkillDefinition.cs: skill definitions, their effects and
    release conditions, and the live buff instance `BuffState` with its two queries. */
module Skills {
  import opened Common

  /** One unit of resolution within a skill. */
  datatype SkillEffect = SkillEffect(
    effectId: int,
    effectType: EffectType,
    targetType: TargetType,
    baseValue: int,
    scaleValue: real,
    scaleAttribute: string,
    duration: int,
    tickInterval: int,
    canStack: bool,
    maxStacks: int,
    probability: real,
    ignoreDefense: bool,
    canCrit: bool,
    parameters: ParamBag)

  /** `new SkillEffect()`: certain to trigger, no parameters, every other field at its default. */
  function NewSkillEffect(): (e: SkillEffect)
    ensures e.probability == 1.0 && e.parameters == map[]
    ensures e.duration == 0 && !e.canStack && e.maxStacks == 0 && e.scaleAttribute == ""
  {
    SkillEffect(0, NoEffectType, SingleEnemy, 0, 0.0, "", 0, 0, false, 0, 1.0, false, false, map[])
  }

  /** A release condition such as "own health below half". */
  datatype SkillCondition = SkillCondition(
    conditionType: string,
    targetAttribute: string,
    comparison: string,
    value: real,
    description: string)

  /** A catalog entry. */
  datatype SkillDefinition = SkillDefinition(
    skillId: int,
    skillName: string,
    skillType: SkillType,
    cooldown: int,
    cost: int,
    description: string,
    castTime: real,
    effects: seq<SkillEffect>,
    conditions: seq<SkillCondition>)

  /** `new SkillDefinition()`: no effects and no conditions. */
  function NewSkillDefinition(): (d: SkillDefinition)
    ensures d.effects == [] && d.conditions == []
    ensures d.skillId == 0 && d.cooldown == 0 && d.cost == 0
  {
    SkillDefinition(0, "", NoSkillType, 0, 0, "", 0.0, [], [])
  }

  /** A live modifier on one unit. */
  datatype BuffState = BuffState(
    buffId: int,
    buffName: string,
    buffType: EffectType,
    sourceUnitId: int,
    targetUnitId: int,
    sourceSkillId: int,
    remainingDuration: int,
    currentStacks: int,
    tickCounter: int,
    effect: SkillEffect,
    attributeModifiers: map<string, real>)

  /** `IsExpired`. */
  predicate IsExpired(b: BuffState)
  {
    b.remainingDuration <= 0
  }

  /** `ShouldTick`: a periodic buff fires once `tickInterval` rounds have passed since its counter. */
  predicate ShouldTick(b: BuffState, currentRound: int)
  {
    if b.effect.tickInterval <= 0 then false
    else currentRound - b.tickCounter >= b.effect.tickInterval
  }

  /** A buff whose counter was set when it fired in round r fires next in round r + tickInterval,
      and never when its interval is not positive. */
  lemma TickSpacing(b: BuffState, r: int, later: int)
    ensures b.effect.tickInterval <= 0 ==> !ShouldTick(b, later)
    ensures b.effect.tickInterval > 0 ==>
      (ShouldTick(b.(tickCounter := r), later) <==> later >= r + b.effect.tickInterval)
  {
  }
}
