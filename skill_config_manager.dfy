/** The skill catalog of Battle/Skill/SkillConfigManager.cs: named templates that expand into
    skill definitions, the seven built-in example skills, lookups by id and by kind, replacement
    of an entry, and the structural validation of a definition. */
module SkillCatalog {
  import opened Common
  import opened Skills

  /** One effect of a template: its kind and the parameters every expansion starts from. */
  datatype EffectTemplate = EffectTemplate(effectType: EffectType, defaultParameters: ParamBag)

  /** A named skill shape. */
  datatype SkillTemplate = SkillTemplate(templateName: string, skillType: SkillType, effectTemplates: seq<EffectTemplate>)

  /** Single-target damage scaling with attack. */
  function BasicAttackTemplate(): SkillTemplate
  {
    SkillTemplate("BasicAttack", Active, [
      EffectTemplate(Damage, map["scaleAttribute" := TextVal("attack"), "scaleValue" := RealVal(1.0),
                                 "canCrit" := BoolVal(true)])])
  }

  /** Area damage at 0.8 of attack. */
  function AoeAttackTemplate(): SkillTemplate
  {
    SkillTemplate("AOEAttack", Active, [
      EffectTemplate(Damage, map["scaleAttribute" := TextVal("attack"), "scaleValue" := RealVal(0.8),
                                 "canCrit" := BoolVal(true)])])
  }

  /** A heal at half of attack. */
  function HealTemplate(): SkillTemplate
  {
    SkillTemplate("Heal", Active, [
      EffectTemplate(Heal, map["scaleAttribute" := TextVal("attack"), "scaleValue" := RealVal(0.5)])])
  }

  /** A three-round attack bonus. */
  function BuffTemplate(): SkillTemplate
  {
    SkillTemplate("Buff", Active, [
      EffectTemplate(AddBuff, map["duration" := IntVal(3), "attackBonus" := IntVal(10), "canStack" := BoolVal(false)])])
  }

  /** A two-round attack reduction. */
  function DebuffTemplate(): SkillTemplate
  {
    SkillTemplate("Debuff", Active, [
      EffectTemplate(Debuff, map["duration" := IntVal(2), "attackReduction" := IntVal(5), "canStack" := BoolVal(false)])])
  }

  /** Damage followed by a defense reduction that lands with probability 0.8. */
  function DamageDebuffTemplate(): SkillTemplate
  {
    SkillTemplate("DamageDebuff", Active, [
      EffectTemplate(Damage, map["scaleAttribute" := TextVal("attack"), "scaleValue" := RealVal(1.2),
                                 "canCrit" := BoolVal(true)]),
      EffectTemplate(Debuff, map["duration" := IntVal(3), "defenseReduction" := IntVal(10),
                                 "probability" := RealVal(0.8)])])
  }

  /** The six templates `InitializeSkillTemplates` registers, keyed by name. */
  function InitialTemplates(): map<string, SkillTemplate>
  {
    map["BasicAttack" := BasicAttackTemplate(), "AOEAttack" := AoeAttackTemplate(), "Heal" := HealTemplate(),
        "Buff" := BuffTemplate(), "Debuff" := DebuffTemplate(), "DamageDebuff" := DamageDebuffTemplate()]
  }

  /** The effect after its default parameters are copied in: every parameter lands in the bag,
      and the six recognised keys also set the field of the same name. */
  function ApplyDefaults(e: SkillEffect, defaults: ParamBag): SkillEffect
  {
    e.(parameters := e.parameters + defaults,
       scaleAttribute := if "scaleAttribute" in defaults then ToText(defaults["scaleAttribute"]) else e.scaleAttribute,
       scaleValue := if "scaleValue" in defaults then ToSingle(defaults["scaleValue"]) else e.scaleValue,
       canCrit := if "canCrit" in defaults then ToBoolean(defaults["canCrit"]) else e.canCrit,
       duration := if "duration" in defaults then ToInt32(defaults["duration"]) else e.duration,
       canStack := if "canStack" in defaults then ToBoolean(defaults["canStack"]) else e.canStack,
       probability := if "probability" in defaults then ToSingle(defaults["probability"]) else e.probability)
  }

  /** The effect one effect template expands into: its kind, exactly the template's parameters,
      and probability 1 unless the template supplies one. */
  function EffectFromTemplate(t: EffectTemplate): (e: SkillEffect)
    ensures e.effectType == t.effectType && e.parameters == t.defaultParameters
    ensures e.probability == (if "probability" in t.defaultParameters then ToSingle(t.defaultParameters["probability"]) else 1.0)
    ensures e.duration == (if "duration" in t.defaultParameters then ToInt32(t.defaultParameters["duration"]) else 0)
    ensures e.baseValue == 0 && e.maxStacks == 0
  {
    ApplyDefaults(NewSkillEffect().(effectType := t.effectType, probability := 1.0), t.defaultParameters)
  }

  /** What `CreateSkillFromTemplate` builds, or `None` where it throws for an unknown template:
      the given id and name, the template's kind, no conditions, and one expanded effect per
      effect template, in template order. */
  function SkillFromTemplate(templates: map<string, SkillTemplate>, templateName: string, skillId: int,
                             skillName: string): (r: Option<SkillDefinition>)
    ensures r.None? <==> templateName !in templates
    ensures r.Some? ==>
      var ets := templates[templateName].effectTemplates;
      r.value.skillId == skillId && r.value.skillName == skillName
      && r.value.skillType == templates[templateName].skillType && r.value.conditions == []
      && |r.value.effects| == |ets|
      && forall i :: 0 <= i < |ets| ==> r.value.effects[i] == EffectFromTemplate(ets[i])
  {
    if templateName !in templates then None
    else
      var ets := templates[templateName].effectTemplates;
      Some(NewSkillDefinition().(skillId := skillId, skillName := skillName,
                                 skillType := templates[templateName].skillType,
                                 effects := seq(|ets|, i requires 0 <= i < |ets| => EffectFromTemplate(ets[i]))))
  }

  /** The effect after one parameter is copied in: the bag gains it and, for the six recognised
      keys, the field of that name is set from it (the `switch` of `CreateSkillFromTemplate`). */
  function ApplyParam(e: SkillEffect, key: string, value: ParamValue): SkillEffect
  {
    e.(parameters := e.parameters[key := value],
       scaleAttribute := if key == "scaleAttribute" then ToText(value) else e.scaleAttribute,
       scaleValue := if key == "scaleValue" then ToSingle(value) else e.scaleValue,
       canCrit := if key == "canCrit" then ToBoolean(value) else e.canCrit,
       duration := if key == "duration" then ToInt32(value) else e.duration,
       canStack := if key == "canStack" then ToBoolean(value) else e.canStack,
       probability := if key == "probability" then ToSingle(value) else e.probability)
  }

  /** Copying the parameters one at a time, in any order, ends in `ApplyDefaults`: a key not yet
      copied can be copied next. */
  lemma ApplyDefaultsStep(e0: SkillEffect, done: ParamBag, key: string, value: ParamValue)
    requires key !in done
    ensures ApplyDefaults(e0, done[key := value]) == ApplyParam(ApplyDefaults(e0, done), key, value)
  {
    assert e0.parameters + done[key := value] == (e0.parameters + done)[key := value];
  }

  /** The copy loop of `CreateSkillFromTemplate`, one default parameter at a time, in whatever
      order the dictionary yields them. */
  method CopyDefaults(e0: SkillEffect, defaults: ParamBag) returns (e: SkillEffect)
    ensures e == ApplyDefaults(e0, defaults)
  {
    e := e0;
    var todo := defaults.Keys;
    ghost var done: ParamBag := map[];
    assert e0.parameters + done == e0.parameters;
    while todo != {}
      invariant forall k :: k in todo <==> k in defaults && k !in done
      invariant forall k :: k in done ==> k in defaults && done[k] == defaults[k]
      invariant e == ApplyDefaults(e0, done)
      decreases |todo|
    {
      ghost var member := NonEmptyHasMember(todo);
      var key :| key in todo;
      ApplyDefaultsStep(e0, done, key, defaults[key]);
      e := ApplyParam(e, key, defaults[key]);
      done := done[key := defaults[key]];
      todo := todo - {key};
    }
    assert done == defaults;
  }

  /** The structural checks `ValidateSkillDefinition` applies to each effect. */
  predicate EffectWellFormed(e: SkillEffect)
  {
    0.0 <= e.probability <= 1.0 && e.duration >= 0 && e.maxStacks >= 0
  }

  /** A definition `ValidateSkillDefinition` accepts (`None` stands for null). */
  predicate DefinitionWellFormed(d: Option<SkillDefinition>)
  {
    d.Some? && d.value.skillId > 0 && d.value.skillName != "" && |d.value.effects| > 0
    && forall i :: 0 <= i < |d.value.effects| ==> EffectWellFormed(d.value.effects[i])
  }

  /** `ValidateSkillDefinition`: the checks in order, stopping at the first effect that fails. */
  method ValidateSkillDefinition(d: Option<SkillDefinition>) returns (ok: bool)
    ensures ok <==> DefinitionWellFormed(d)
  {
    if d.None? { return false; }
    var def := d.value;
    if def.skillId <= 0 { return false; }
    if def.skillName == "" { return false; }
    if |def.effects| == 0 { return false; }
    for i := 0 to |def.effects|
      invariant forall j :: 0 <= j < i ==> EffectWellFormed(def.effects[j])
    {
      var effect := def.effects[i];
      if effect.probability < 0.0 || effect.probability > 1.0 { return false; }
      if effect.duration < 0 { return false; }
      if effect.maxStacks < 0 { return false; }
    }
    return true;
  }

  // ---------------------------------------------------------------- the built-in examples

  /** The ids `LoadExampleSkills` defines. */
  const EXAMPLE_IDS: set<int> := {1001, 1002, 1003, 1004, 1005, 1006, 1007}

  /** 1001, from "BasicAttack": free and without cooldown. */
  function BasicAttack(d: SkillDefinition): SkillDefinition
  {
    d.(cost := 0, cooldown := 0, description := "对单个敌人造成基于攻击力的伤害")
  }

  /** 1002, from "DamageDebuff": base damage 25 and a burning rider on the second effect. */
  function Fireball(d: SkillDefinition): SkillDefinition
    requires |d.effects| >= 2
  {
    var burn := d.effects[1].parameters["duration" := IntVal(3)]["tickDamage" := IntVal(5)]
                                       ["specialType" := TextVal("poison")];
    d.(cost := 20, cooldown := 2, description := "发射火球造成伤害，并有概率附加燃烧效果",
       effects := d.effects[0 := d.effects[0].(baseValue := 25)][1 := d.effects[1].(parameters := burn)])
  }

  /** 1003, from "Heal": base heal 30. */
  function HealSpell(d: SkillDefinition): SkillDefinition
    requires |d.effects| >= 1
  {
    d.(cost := 15, cooldown := 1, description := "恢复血量最低盟友的生命值",
       effects := d.effects[0 := d.effects[0].(baseValue := 30)])
  }

  /** 1004, from "Buff": attack bonus 15 for 3 rounds (in the parameter bag only). */
  function Rage(d: SkillDefinition): SkillDefinition
    requires |d.effects| >= 1
  {
    var bonus := d.effects[0].parameters["attackBonus" := RealVal(15.0)]["duration" := IntVal(3)];
    d.(cost := 25, cooldown := 3, description := "提升自身攻击力，持续3回合",
       effects := d.effects[0 := d.effects[0].(parameters := bonus)])
  }

  /** 1005, written out in full. */
  function LightningChain(): SkillDefinition
  {
    NewSkillDefinition().(
      skillId := 1005, skillName := "闪电链", skillType := Active, cost := 30, cooldown := 4,
      description := "发射闪电链，可以跳跃攻击多个敌人", castTime := 1.5,
      effects := [NewSkillEffect().(
        effectId := 1, effectType := Special, baseValue := 35, scaleAttribute := "attack", scaleValue := 1.0,
        parameters := map["specialType" := TextVal("chain"), "chainCount" := IntVal(3),
                          "damageReduction" := RealVal(0.2)])])
  }

  /** 1006, written out in full. */
  function VampiricStrike(): SkillDefinition
  {
    NewSkillDefinition().(
      skillId := 1006, skillName := "吸血攻击", skillType := Active, cost := 20, cooldown := 3,
      description := "攻击敌人并恢复自身生命值",
      effects := [NewSkillEffect().(
        effectType := Special, baseValue := 30, scaleAttribute := "attack", scaleValue := 1.2,
        parameters := map["specialType" := TextVal("vampiric"), "vampiricRate" := RealVal(0.4)])])
  }

  /** 1007, written out in full. */
  function ShieldSpell(): SkillDefinition
  {
    NewSkillDefinition().(
      skillId := 1007, skillName := "护盾术", skillType := Active, cost := 25, cooldown := 4,
      description := "为盟友提供护盾，吸收伤害",
      effects := [NewSkillEffect().(
        effectType := Shield, baseValue := 50, duration := 5,
        parameters := map["shieldType" := TextVal("magic")])])
  }

  /** The entries `LoadExampleSkills` adds with the given templates, or `None` where it throws: a
      template is missing, or a template-built skill lacks an effect the customisation edits. */
  function ExampleCatalog(templates: map<string, SkillTemplate>): Option<map<int, SkillDefinition>>
  {
    var basic := SkillFromTemplate(templates, "BasicAttack", 1001, "基础攻击");
    var fire := SkillFromTemplate(templates, "DamageDebuff", 1002, "火球术");
    var heal := SkillFromTemplate(templates, "Heal", 1003, "治疗术");
    var rage := SkillFromTemplate(templates, "Buff", 1004, "狂暴");
    if basic.None? || fire.None? || |fire.value.effects| < 2 || heal.None? || |heal.value.effects| < 1
       || rage.None? || |rage.value.effects| < 1
    then None
    else Some(Examples(basic.value, fire.value, heal.value, rage.value))
  }

  /** The seven examples, given the four template-built skills before customisation. */
  function Examples(basic: SkillDefinition, fire: SkillDefinition, heal: SkillDefinition, rage: SkillDefinition)
    : map<int, SkillDefinition>
    requires |fire.effects| >= 2 && |heal.effects| >= 1 && |rage.effects| >= 1
  {
    map[1001 := BasicAttack(basic), 1002 := Fireball(fire), 1003 := HealSpell(heal), 1004 := Rage(rage),
        1005 := LightningChain(), 1006 := VampiricStrike(), 1007 := ShieldSpell()]
  }

  /** Customising well-formed template-built skills gives seven well-formed examples. */
  lemma ExamplesFromWellFormed(basic: SkillDefinition, fire: SkillDefinition, heal: SkillDefinition,
                               rage: SkillDefinition)
    requires DefinitionWellFormed(Some(basic)) && DefinitionWellFormed(Some(fire))
    requires DefinitionWellFormed(Some(heal)) && DefinitionWellFormed(Some(rage))
    requires |fire.effects| >= 2
    ensures forall id :: id in Examples(basic, fire, heal, rage) ==>
      DefinitionWellFormed(Some(Examples(basic, fire, heal, rage)[id]))
  {
    CustomisationsKeepWellFormed(basic);
    CustomisationsKeepWellFormed(fire);
    CustomisationsKeepWellFormed(heal);
    CustomisationsKeepWellFormed(rage);
    WrittenOutExamplesWellFormed();
  }

  /** Whenever the examples load, they fill exactly the seven ids 1001..1007, each entry under its
      own id. */
  lemma ExampleCatalogIds(templates: map<string, SkillTemplate>)
    requires ExampleCatalog(templates).Some?
    ensures ExampleCatalog(templates).value.Keys == EXAMPLE_IDS
    ensures forall id :: id in EXAMPLE_IDS ==> ExampleCatalog(templates).value[id].skillId == id
  {
    var c := ExampleCatalog(templates).value;
    assert c.Keys == EXAMPLE_IDS;
    assert c[1002].skillId == 1002 && c[1003].skillId == 1003 && c[1004].skillId == 1004;
  }

  /** Default parameters that cannot make an expanded effect fail validation. */
  predicate DefaultsSound(p: ParamBag)
  {
    ("probability" in p ==> 0.0 <= ToSingle(p["probability"]) <= 1.0)
    && ("duration" in p ==> ToInt32(p["duration"]) >= 0)
  }

  /** A template with at least one effect, none of whose defaults is out of range. */
  predicate TemplateSound(t: SkillTemplate)
  {
    |t.effectTemplates| > 0
    && forall i :: 0 <= i < |t.effectTemplates| ==> DefaultsSound(t.effectTemplates[i].defaultParameters)
  }

  /** A sound template expands, under a positive id and a non-empty name, into a definition that
      `ValidateSkillDefinition` accepts. */
  lemma SoundTemplateBuildsWellFormed(templates: map<string, SkillTemplate>, templateName: string,
                                      skillId: int, skillName: string)
    requires templateName in templates && TemplateSound(templates[templateName])
    requires skillId > 0 && skillName != ""
    ensures DefinitionWellFormed(SkillFromTemplate(templates, templateName, skillId, skillName))
  {
    var ets := templates[templateName].effectTemplates;
    var d := SkillFromTemplate(templates, templateName, skillId, skillName).value;
    forall i | 0 <= i < |d.effects|
      ensures EffectWellFormed(d.effects[i])
    {
      assert d.effects[i] == EffectFromTemplate(ets[i]);
      assert DefaultsSound(ets[i].defaultParameters);
    }
  }

  /** Each of the six built-in templates is sound. */
  lemma InitialTemplatesSound(name: string)
    requires name in InitialTemplates()
    ensures TemplateSound(InitialTemplates()[name])
  {
  }

  /** Whenever the four templates the examples use are sound, every example loads and passes
      `ValidateSkillDefinition`; in particular with the built-in templates. */
  lemma ExamplesWellFormed(templates: map<string, SkillTemplate>)
    requires forall name :: name in {"BasicAttack", "DamageDebuff", "Heal", "Buff"} ==>
      name in templates && TemplateSound(templates[name])
    requires "DamageDebuff" in templates && |templates["DamageDebuff"].effectTemplates| >= 2
    ensures ExampleCatalog(templates).Some?
    ensures forall id :: id in ExampleCatalog(templates).value ==>
      DefinitionWellFormed(Some(ExampleCatalog(templates).value[id]))
  {
    assert "BasicAttack" in templates && "Heal" in templates && "Buff" in templates;
    SoundTemplateBuildsWellFormed(templates, "BasicAttack", 1001, "基础攻击");
    SoundTemplateBuildsWellFormed(templates, "DamageDebuff", 1002, "火球术");
    SoundTemplateBuildsWellFormed(templates, "Heal", 1003, "治疗术");
    SoundTemplateBuildsWellFormed(templates, "Buff", 1004, "狂暴");
    var b := SkillFromTemplate(templates, "BasicAttack", 1001, "基础攻击").value;
    var f := SkillFromTemplate(templates, "DamageDebuff", 1002, "火球术").value;
    var h := SkillFromTemplate(templates, "Heal", 1003, "治疗术").value;
    var r := SkillFromTemplate(templates, "Buff", 1004, "狂暴").value;
    ExamplesFromWellFormed(b, f, h, r);
  }

  /** The edits `LoadExampleSkills` makes to template-built skills touch only costs, base values
      and parameter bags, so they keep a definition well formed. */
  lemma CustomisationsKeepWellFormed(d: SkillDefinition)
    requires DefinitionWellFormed(Some(d))
    ensures DefinitionWellFormed(Some(BasicAttack(d)))
    ensures |d.effects| >= 2 ==> DefinitionWellFormed(Some(Fireball(d)))
    ensures DefinitionWellFormed(Some(HealSpell(d))) && DefinitionWellFormed(Some(Rage(d)))
  {
    assert EffectWellFormed(d.effects[0]);
    if |d.effects| >= 2 {
      var f := Fireball(d);
      assert EffectWellFormed(d.effects[1]);
      forall i | 0 <= i < |f.effects|
        ensures EffectWellFormed(f.effects[i])
      {
        assert EffectWellFormed(d.effects[i]);
      }
    }
    var h := HealSpell(d);
    forall i | 0 <= i < |h.effects|
      ensures EffectWellFormed(h.effects[i])
    {
      assert EffectWellFormed(d.effects[i]);
    }
    var r := Rage(d);
    forall i | 0 <= i < |r.effects|
      ensures EffectWellFormed(r.effects[i])
    {
      assert EffectWellFormed(d.effects[i]);
    }
  }

  /** The three examples written out in full are well formed. */
  lemma WrittenOutExamplesWellFormed()
    ensures DefinitionWellFormed(Some(LightningChain()))
    ensures DefinitionWellFormed(Some(VampiricStrike()))
    ensures DefinitionWellFormed(Some(ShieldSpell()))
  {
  }

  /** With the built-in templates the examples load, and every one of them is well formed. */
  lemma BuiltInExamplesWellFormed(t: map<string, SkillTemplate>)
    requires t == InitialTemplates()
    ensures ExampleCatalog(t).Some?
    ensures forall id :: id in ExampleCatalog(t).value ==> DefinitionWellFormed(Some(ExampleCatalog(t).value[id]))
  {
    forall name | name in {"BasicAttack", "DamageDebuff", "Heal", "Buff"}
      ensures name in t && TemplateSound(t[name])
    {
      InitialTemplatesSound(name);
    }
    ExamplesWellFormed(t);
  }

  // ---------------------------------------------------------------- lookups

  /** `GetSkillDefinition` on a catalog: `None` for an absent id. */
  function Lookup(defs: map<int, SkillDefinition>, skillId: int): (r: Option<SkillDefinition>)
    ensures r.Some? <==> skillId in defs
    ensures r.Some? ==> r.value == defs[skillId]
  {
    if skillId in defs then Some(defs[skillId]) else None
  }

  /** `GetSkillsByType` on a catalog: exactly the definitions of that kind. */
  function SkillsOfType(defs: map<int, SkillDefinition>, skillType: SkillType): (r: set<SkillDefinition>)
    ensures forall id :: id in defs && defs[id].skillType == skillType ==> defs[id] in r
    ensures forall d :: d in r ==> d.skillType == skillType && exists id :: id in defs && defs[id] == d
  {
    set id | id in defs && defs[id].skillType == skillType :: defs[id]
  }

  /** `AddOrUpdateSkillDefinition` on a catalog: the entry under the definition's id is replaced
      and every other id reads as before; the kind index gains the new definition and, when the
      id was taken by a definition of another kind, loses nothing else of that kind. */
  lemma UpdateOverwritesOnlyItsId(defs: map<int, SkillDefinition>, d: SkillDefinition, id: int)
    requires forall k :: k in defs ==> defs[k].skillId == k
    ensures Lookup(defs[d.skillId := d], id) == if id == d.skillId then Some(d) else Lookup(defs, id)
    ensures d in SkillsOfType(defs[d.skillId := d], d.skillType)
    ensures forall t :: t != d.skillType ==>
      SkillsOfType(defs[d.skillId := d], t) == SkillsOfType(defs, t) - (if d.skillId in defs then {defs[d.skillId]} else {})
  {
    var defs' := defs[d.skillId := d];
    assert defs'[d.skillId] == d;
    forall t | t != d.skillType
      ensures SkillsOfType(defs', t) == SkillsOfType(defs, t) - (if d.skillId in defs then {defs[d.skillId]} else {})
    {
      forall x | x in SkillsOfType(defs, t) && !(d.skillId in defs && x == defs[d.skillId])
        ensures x in SkillsOfType(defs', t)
      {
        var k :| k in defs && defs[k] == x;
        assert k != d.skillId;
        assert defs'[k] == x;
      }
      forall x | x in SkillsOfType(defs', t)
        ensures x in SkillsOfType(defs, t) && (d.skillId in defs ==> x != defs[d.skillId])
      {
        var k :| k in defs' && defs'[k] == x;
        assert k != d.skillId && defs[k] == x;
      }
    }
  }

  /** `SkillConfigManager`: the catalog by id and the template registry by name. */
  class SkillConfigManager {
    var skillDefinitions: map<int, SkillDefinition>
    var skillTemplates: map<string, SkillTemplate>

    /** Every definition is filed under its own id. */
    ghost predicate Valid()
      reads this
    {
      forall id :: id in skillDefinitions ==> skillDefinitions[id].skillId == id
    }

    /** The constructor: templates registered, then the examples loaded into the fresh, empty
        catalog (which is what `ReloadConfigurations` does once the catalog is empty). */
    constructor ()
      ensures Valid() && skillTemplates == InitialTemplates()
      ensures skillDefinitions == ExampleCatalog(skillTemplates).value
      ensures skillDefinitions.Keys == EXAMPLE_IDS
    {
      skillDefinitions := map[];
      skillTemplates := map[];
      new;
      InitializeSkillTemplates();
      MergeIntoEmpty(InitialTemplates());
      BuiltInExamplesWellFormed(skillTemplates);
      var ok := ReloadConfigurations();
    }

    /** `InitializeSkillTemplates`: the six built-in templates, by name. */
    method InitializeSkillTemplates()
      modifies this`skillTemplates
      ensures skillTemplates == old(skillTemplates) + InitialTemplates()
    {
      ghost var added: map<string, SkillTemplate> := map[];
      assert skillTemplates == old(skillTemplates) + added;
      MergeUpdate(old(skillTemplates), added, "BasicAttack", BasicAttackTemplate());
      skillTemplates := skillTemplates["BasicAttack" := BasicAttackTemplate()];
      added := added["BasicAttack" := BasicAttackTemplate()];
      MergeUpdate(old(skillTemplates), added, "AOEAttack", AoeAttackTemplate());
      skillTemplates := skillTemplates["AOEAttack" := AoeAttackTemplate()];
      added := added["AOEAttack" := AoeAttackTemplate()];
      MergeUpdate(old(skillTemplates), added, "Heal", HealTemplate());
      skillTemplates := skillTemplates["Heal" := HealTemplate()];
      added := added["Heal" := HealTemplate()];
      MergeUpdate(old(skillTemplates), added, "Buff", BuffTemplate());
      skillTemplates := skillTemplates["Buff" := BuffTemplate()];
      added := added["Buff" := BuffTemplate()];
      MergeUpdate(old(skillTemplates), added, "Debuff", DebuffTemplate());
      skillTemplates := skillTemplates["Debuff" := DebuffTemplate()];
      added := added["Debuff" := DebuffTemplate()];
      MergeUpdate(old(skillTemplates), added, "DamageDebuff", DamageDebuffTemplate());
      skillTemplates := skillTemplates["DamageDebuff" := DamageDebuffTemplate()];
      added := added["DamageDebuff" := DamageDebuffTemplate()];
    }

    /** `CreateSkillFromTemplate`; `None` where it throws for an unknown template. */
    method CreateSkillFromTemplate(templateName: string, skillId: int, skillName: string)
      returns (r: Option<SkillDefinition>)
      ensures r == SkillFromTemplate(skillTemplates, templateName, skillId, skillName)
    {
      if templateName !in skillTemplates {
        return None;
      }
      var template := skillTemplates[templateName];
      var ets := template.effectTemplates;
      var effects: seq<SkillEffect> := [];
      for i := 0 to |ets|
        invariant |effects| == i && forall j :: 0 <= j < i ==> effects[j] == EffectFromTemplate(ets[j])
      {
        var effect := NewSkillEffect().(effectType := ets[i].effectType, probability := 1.0);
        effect := CopyDefaults(effect, ets[i].defaultParameters);
        effects := effects + [effect];
      }
      assert effects == seq(|ets|, i requires 0 <= i < |ets| => EffectFromTemplate(ets[i]));
      r := Some(NewSkillDefinition().(skillId := skillId, skillName := skillName,
                                     skillType := template.skillType, effects := effects));
    }

    /** `LoadExampleSkills`: adds the seven examples; `false` where it throws part-way, having
        added at most the entries before the failing one. */
    method LoadExampleSkills() returns (ok: bool)
      requires Valid()
      modifies this`skillDefinitions
      ensures Valid()
      ensures ok <==> ExampleCatalog(skillTemplates).Some?
      ensures ok ==> skillDefinitions == old(skillDefinitions) + ExampleCatalog(skillTemplates).value
      ensures !ok ==> skillDefinitions.Keys <= old(skillDefinitions).Keys + {1001, 1002, 1003}
    {
      ghost var added: map<int, SkillDefinition> := map[];
      assert skillDefinitions == old(skillDefinitions) + added;
      var basic := CreateSkillFromTemplate("BasicAttack", 1001, "基础攻击");
      if basic.None? { return false; }
      Insert(1001, BasicAttack(basic.value), old(skillDefinitions), added);
      added := added[1001 := BasicAttack(basic.value)];
      var fire := CreateSkillFromTemplate("DamageDebuff", 1002, "火球术");
      if fire.None? || |fire.value.effects| < 2 { return false; }
      Insert(1002, Fireball(fire.value), old(skillDefinitions), added);
      added := added[1002 := Fireball(fire.value)];
      var heal := CreateSkillFromTemplate("Heal", 1003, "治疗术");
      if heal.None? || |heal.value.effects| < 1 { return false; }
      Insert(1003, HealSpell(heal.value), old(skillDefinitions), added);
      added := added[1003 := HealSpell(heal.value)];
      var rage := CreateSkillFromTemplate("Buff", 1004, "狂暴");
      if rage.None? || |rage.value.effects| < 1 { return false; }
      Insert(1004, Rage(rage.value), old(skillDefinitions), added);
      added := added[1004 := Rage(rage.value)];
      Insert(1005, LightningChain(), old(skillDefinitions), added);
      added := added[1005 := LightningChain()];
      Insert(1006, VampiricStrike(), old(skillDefinitions), added);
      added := added[1006 := VampiricStrike()];
      Insert(1007, ShieldSpell(), old(skillDefinitions), added);
      added := added[1007 := ShieldSpell()];
      assert ExampleCatalog(skillTemplates) == Some(added);
      ok := true;
    }

    /** One insertion of `LoadExampleSkills`, filed under its own id. */
    method Insert(id: int, d: SkillDefinition, ghost base: map<int, SkillDefinition>,
                  ghost added: map<int, SkillDefinition>)
      requires Valid() && d.skillId == id && skillDefinitions == base + added
      modifies this`skillDefinitions
      ensures Valid() && skillDefinitions == base + added[id := d]
    {
      MergeUpdate(base, added, id, d);
      skillDefinitions := skillDefinitions[id := d];
    }

    /** `GetSkillDefinition`. */
    function GetSkillDefinition(skillId: int): (r: Option<SkillDefinition>)
      reads this
      ensures r == Lookup(skillDefinitions, skillId)
    {
      if skillId in skillDefinitions then Some(skillDefinitions[skillId]) else None
    }

    /** `GetAllSkillDefinitions`: every stored definition and nothing else; each by-kind query is a
        part of it. The list's order (the dictionary's) is not modelled. */
    function GetAllSkillDefinitions(): (r: set<SkillDefinition>)
      reads this
      ensures forall id :: id in skillDefinitions ==> skillDefinitions[id] in r
      ensures forall d :: d in r ==> exists id :: id in skillDefinitions && skillDefinitions[id] == d
      ensures forall t :: SkillsOfType(skillDefinitions, t) <= r
    {
      set id | id in skillDefinitions :: skillDefinitions[id]
    }

    /** `GetSkillsByType`. */
    function GetSkillsByType(skillType: SkillType): (r: set<SkillDefinition>)
      reads this
      ensures r == SkillsOfType(skillDefinitions, skillType)
    {
      SkillsOfType(skillDefinitions, skillType)
    }

    /** `AddOrUpdateSkillDefinition`: files the definition under its own id. */
    method AddOrUpdateSkillDefinition(d: SkillDefinition)
      requires Valid()
      modifies this`skillDefinitions
      ensures Valid() && skillDefinitions == old(skillDefinitions)[d.skillId := d]
    {
      skillDefinitions := skillDefinitions[d.skillId := d];
    }

    /** `GetSkillTemplate`: the stored template under that name, or null. */
    function GetSkillTemplate(templateName: string): (r: Option<SkillTemplate>)
      reads this
      ensures r.Some? <==> templateName in skillTemplates
      ensures r.Some? ==> r.value == skillTemplates[templateName]
    {
      if templateName in skillTemplates then Some(skillTemplates[templateName]) else None
    }

    /** `AddSkillTemplate`. */
    method AddSkillTemplate(templateName: string, template: SkillTemplate)
      modifies this`skillTemplates
      ensures skillTemplates == old(skillTemplates)[templateName := template]
    {
      skillTemplates := skillTemplates[templateName := template];
    }

    /** `ReloadConfigurations`: the catalog is emptied and the examples loaded again, so when it
        completes it holds exactly the ids 1001..1007. */
    method ReloadConfigurations() returns (ok: bool)
      modifies this`skillDefinitions
      ensures Valid()
      ensures ok <==> ExampleCatalog(skillTemplates).Some?
      ensures ok ==> skillDefinitions == ExampleCatalog(skillTemplates).value && skillDefinitions.Keys == EXAMPLE_IDS
    {
      skillDefinitions := map[];
      ok := LoadExampleSkills();
      if ok {
        ExampleCatalogIds(skillTemplates);
        MergeIntoEmpty(ExampleCatalog(skillTemplates).value);
      }
    }
  }
}
