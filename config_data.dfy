/** The designer-facing configuration records of Battle/Config/SkillConfigData.cs: a skill as it
    is written in the JSON tables, its effects, and attribute modifiers. */
module ConfigData {
  import opened Common

  /** One configured effect: its kind and its integer parameters. */
  datatype EffectData = EffectData(effectType: EffectType, param: seq<int>)

  /** A configured skill. `effects` is `None` where the JSON list is null. */
  datatype SkillConfigData = SkillConfigData(
    skillId: int,
    skillType: SkillType,
    revolutionType: RevolutionType,
    revolutionCost: int,
    targetType: TargetType,
    targetCount: int,
    effects: Option<seq<EffectData>>,
    priority: int,
    critical: bool,
    hit: bool)

  /** The effect list is present and has at least one entry. */
  predicate HasEffects(c: SkillConfigData)
  {
    c.effects.Some? && |c.effects.value| > 0
  }

  /** A modifier of one attribute (an `AttributeType` identifier). */
  datatype AttributeModifierData = AttributeModifierData(
    attributeType: int,
    modifierType: ModifierType,
    value: real,
    isPercent: bool)
}
