/** The fixed factory of Battle/Config/SkillTemplates.cs: a skill constructor that ignores all but
    the identifier, and four attribute-modifier constructors. */
module Templates {
  import opened Common
  import opened ConfigData
  import opened ConfigValidator

  /** `CreateSkill`: every argument other than `skillId` is ignored; the skill is an active,
      free, priority-1 single-enemy skill with one damage effect. It passes validation without
      warnings exactly when the identifier is positive, and otherwise fails only on the
      identifier. */
  function CreateSkill(skillId: int, skillType: SkillType, revolutionType: RevolutionType,
                       revolutionCost: int, targetType: TargetType, targetCount: int,
                       effectList: Option<seq<EffectData>>, priority: int, critical: bool, hit: bool)
    : (c: SkillConfigData)
    ensures c.skillId == skillId
    ensures ConfigWarnings(Some(c)) == []
    ensures ConfigErrors(Some(c)) == (if skillId > 0 then [] else [MSG_BAD_ID])
  {
    SkillConfigData(skillId, Active, Mp, 0, SingleEnemy, 1, Some([EffectData(Damage, [1, 1, 1, 1])]),
                    1, false, false)
  }

  /** Two calls with the same identifier build the same skill, whatever else they pass. */
  lemma CreateSkillIgnoresArguments(skillId: int,
                                    t1: SkillType, r1: RevolutionType, cost1: int, tt1: TargetType, n1: int,
                                    e1: Option<seq<EffectData>>, p1: int, crit1: bool, hit1: bool,
                                    t2: SkillType, r2: RevolutionType, cost2: int, tt2: TargetType, n2: int,
                                    e2: Option<seq<EffectData>>, p2: int, crit2: bool, hit2: bool)
    ensures CreateSkill(skillId, t1, r1, cost1, tt1, n1, e1, p1, crit1, hit1)
         == CreateSkill(skillId, t2, r2, cost2, tt2, n2, e2, p2, crit2, hit2)
    ensures var c := CreateSkill(skillId, t1, r1, cost1, tt1, n1, e1, p1, crit1, hit1);
      c.skillType == Active && c.revolutionCost == 0 && c.priority == 1 && c.targetType == SingleEnemy
      && c.targetCount == 1 && c.effects == Some([EffectData(Damage, [1, 1, 1, 1])])
  {
  }

  /** `CreateAttackModifier`. */
  function CreateAttackModifier(value: real, isPercent: bool): AttributeModifierData
  {
    AttributeModifierData(ATTR_ATTACK, Add, value, isPercent)
  }

  /** `CreateDefenseModifier`. */
  function CreateDefenseModifier(value: real, isPercent: bool): AttributeModifierData
  {
    AttributeModifierData(ATTR_DEFENSE, Add, value, isPercent)
  }

  /** `CreateSpeedModifier`. */
  function CreateSpeedModifier(value: real, isPercent: bool): AttributeModifierData
  {
    AttributeModifierData(ATTR_SPEED, Add, value, isPercent)
  }

  /** `CreateCritRateModifier`: never a percentage. */
  function CreateCritRateModifier(value: real): AttributeModifierData
  {
    AttributeModifierData(ATTR_CRITICAL_RATE, Add, value, false)
  }

  /** The four factories each build an additive modifier carrying the given value, each on its
      own attribute; the first three pass the percentage flag through, the critical-rate one
      never sets it. */
  lemma ModifierFactories(value: real, isPercent: bool)
    ensures var ms := [CreateAttackModifier(value, isPercent), CreateDefenseModifier(value, isPercent),
                       CreateSpeedModifier(value, isPercent), CreateCritRateModifier(value)];
      (forall m :: m in ms ==> m.modifierType == Add && m.value == value)
      && (forall i, j :: 0 <= i < j < 4 ==> ms[i].attributeType != ms[j].attributeType)
      && ms[0].attributeType == ATTR_ATTACK && ms[1].attributeType == ATTR_DEFENSE
      && ms[2].attributeType == ATTR_SPEED && ms[3].attributeType == ATTR_CRITICAL_RATE
      && ms[0].isPercent == ms[1].isPercent == ms[2].isPercent == isPercent && !ms[3].isPercent
  {
  }
}
