/** `SkillExecutionEngine` of Battle/Skill/SkillExecutionEngine.cs: runs a registered skill's
    effects against their targets (damage with defence and critical hits, capped healing, buffs,
    shields, dispels), rolling the engine's random stream as it goes.

    Units are values here: an effect reads and rewrites positions of a unit sequence, so a caster
    that targets itself is one position, exactly as it is one object in the original. The
    `Random` instance becomes the draw stream `rng` (the i-th `NextDouble()`) plus a cursor, and
    the battle calculator's target selection becomes the `selector` function. */
module SkillEngine {
  import opened Common
  import opened BattleData
  import opened Skills
  import opened BuffSystem

  /** The hard-coded 20% critical chance of a damage effect (`0.2f`). */
  const CRIT_CHANCE: real := 0.2

  /** The hard-coded critical multiplier of a damage effect (`1.5f`). */
  const CRIT_MULTIPLIER: real := 1.5

  /** Everything one effect can change: the units, the buff table and the random cursor. */
  datatype EngineState = EngineState(units: seq<BattleUnit>, buffs: BuffTable, nextBuffId: int, draws: nat)

  // ---------------------------------------------------------------------------------------
  // Attribute lookup

  /** `GetUnitBaseAttribute`: the five named stats, zero for any other name. */
  function BaseAttribute(u: BattleUnit, name: string): (v: int)
    ensures name != "attack" && name != "defense" && name != "speed" && name != "maxHp" && name != "currentHp" ==> v == 0
  {
    match name
    case "attack" => u.attack
    case "defense" => u.defense
    case "speed" => u.speed
    case "maxHp" => u.maxHp
    case "currentHp" => u.currentHp
    case _ => 0
  }

  /** One buff's share of a modifier: its value for the attribute times its stacks. */
  function Contribution(b: BuffState, name: string): real
  {
    if name in b.attributeModifiers then b.attributeModifiers[name] * b.currentStacks as real else 0.0
  }

  /** The summed modifier of a list of buffs, folded in list order. */
  function ModifierSum(buffs: seq<BuffState>, name: string): real
  {
    if buffs == [] then 0.0 else ModifierSum(buffs[..|buffs| - 1], name) + Contribution(buffs[|buffs| - 1], name)
  }

  /** `GetUnitFinalAttribute`: base stat plus the truncated buff modifier, never negative. */
  function FinalAttribute(buffs: BuffTable, u: BattleUnit, name: string): (v: int)
    ensures v >= 0
    ensures v >= BaseAttribute(u, name) + Trunc(ModifierSum(UnitBuffs(buffs, u.unitId), name))
    ensures UnitBuffs(buffs, u.unitId) == [] ==> v == Max(0, BaseAttribute(u, name))
  {
    Max(0, BaseAttribute(u, name) + Trunc(ModifierSum(UnitBuffs(buffs, u.unitId), name)))
  }

  /** `CalculateEffectValue`: base value plus the truncated scaled caster attribute. */
  function EffectValue(buffs: BuffTable, caster: BattleUnit, effect: SkillEffect): (v: int)
    ensures effect.scaleAttribute == "" ==> v == effect.baseValue
    ensures effect.scaleValue >= 0.0 ==> v >= effect.baseValue
  {
    if effect.scaleAttribute == "" then effect.baseValue
    else
      var a := FinalAttribute(buffs, caster, effect.scaleAttribute);
      assert a as real * effect.scaleValue >= 0.0 || effect.scaleValue < 0.0;
      effect.baseValue + Trunc(a as real * effect.scaleValue)
  }

  lemma TruncMonotone(a: real, b: real)
    requires a <= b
    ensures Trunc(a) <= Trunc(b)
  {
  }

  /** Adding a fresh buff whose modifier for the attribute is non-negative never lowers the
      attribute; one with a non-positive modifier never raises it. */
  lemma {:induction false} AppendedBuffMovesAttribute(buffs: BuffTable, u: BattleUnit, name: string, b: BuffState)
    requires b.currentStacks >= 0
    ensures var after := buffs[u.unitId := UnitBuffs(buffs, u.unitId) + [b]];
      && (Contribution(b, name) >= 0.0 ==> FinalAttribute(after, u, name) >= FinalAttribute(buffs, u, name))
      && (Contribution(b, name) <= 0.0 ==> FinalAttribute(after, u, name) <= FinalAttribute(buffs, u, name))
  {
    var list := UnitBuffs(buffs, u.unitId);
    var after := buffs[u.unitId := list + [b]];
    assert UnitBuffs(after, u.unitId) == list + [b];
    assert (list + [b])[..|list + [b]| - 1] == list;
    var s0 := ModifierSum(list, name);
    var s1 := ModifierSum(list + [b], name);
    assert s1 == s0 + Contribution(b, name);
    if Contribution(b, name) >= 0.0 {
      TruncMonotone(s0, s1);
    }
    if Contribution(b, name) <= 0.0 {
      TruncMonotone(s1, s0);
    }
  }

  // ---------------------------------------------------------------------------------------
  // Effect arithmetic

  /** The damage formula: `max(1, base - defense/2)` unless the effect ignores defence, then
      `(int)(d * 1.5f)` on a critical hit. */
  function DamageAmount(baseDamage: int, defense: nat, ignoreDefense: bool, critical: bool): int
  {
    var d := if ignoreDefense then baseDamage else Max(1, baseDamage - defense / 2);
    if critical then Trunc(d as real * CRIT_MULTIPLIER) else d
  }

  /** Damage that respects defence is at least one; a critical hit on non-negative damage `d`
      deals exactly `d + d/2`; no critical hit deals `d` itself. */
  lemma DamageAmountFacts(baseDamage: int, defense: nat, ignoreDefense: bool, critical: bool)
    ensures var d := if ignoreDefense then baseDamage else Max(1, baseDamage - defense / 2);
      && (!ignoreDefense ==> DamageAmount(baseDamage, defense, ignoreDefense, critical) >= 1)
      && (critical && d >= 0 ==> DamageAmount(baseDamage, defense, ignoreDefense, critical) == d + d / 2)
      && (!critical ==> DamageAmount(baseDamage, defense, ignoreDefense, critical) == d)
      && (baseDamage >= 0 ==> DamageAmount(baseDamage, defense, ignoreDefense, critical) >= 0)
  {
    var d := if ignoreDefense then baseDamage else Max(1, baseDamage - defense / 2);
    if critical && d >= 0 {
      var q := d / 2;
      if d % 2 == 0 {
        assert d as real * 1.5 == (d + q) as real;
      } else {
        assert d as real * 1.5 == (d + q) as real + 0.5;
      }
    }
  }

  /** The unit updates of a damage effect, in the original's order: the target's health, then
      the caster's dealt total, then the target's received total; when caster and target are
      the same unit all three land on it. */
  function DamageUnits(units: seq<BattleUnit>, c: nat, t: nat, damage: int): (r: seq<BattleUnit>)
    requires c < |units| && t < |units|
    ensures |r| == |units|
    ensures r[t].currentHp == Max(0, units[t].currentHp - damage)
    ensures r[c].totalDamageDealt == units[c].totalDamageDealt + damage
    ensures c != t ==> r[t].totalDamageReceived == units[t].totalDamageReceived + damage
    ensures c != t ==> r[t].totalDamageDealt == units[t].totalDamageDealt && r[c] == units[c].(totalDamageDealt := units[c].totalDamageDealt + damage)
    ensures c == t ==> r[t].totalDamageReceived == units[t].totalDamageReceived + damage
    ensures forall i :: 0 <= i < |units| && i != c && i != t ==> r[i] == units[i]
    ensures forall i :: 0 <= i < |units| ==>
      r[i] == units[i].(currentHp := r[i].currentHp, totalDamageDealt := r[i].totalDamageDealt,
                        totalDamageReceived := r[i].totalDamageReceived)
  {
    var u1 := units[t := units[t].(currentHp := Max(0, units[t].currentHp - damage))];
    var u2 := u1[c := u1[c].(totalDamageDealt := u1[c].totalDamageDealt + damage)];
    u2[t := u2[t].(totalDamageReceived := u2[t].totalDamageReceived + damage)]
  }

  /** `Math.Min(heal, maxHp - currentHp)`: the amount a heal actually restores. */
  function ActualHeal(target: BattleUnit, heal: int): int
  {
    Min(heal, target.maxHp - target.currentHp)
  }

  /** A non-negative heal on a unit whose health is within bounds restores a non-negative amount,
      never overheals, and tops the unit up exactly when it covers the missing health. */
  lemma HealStaysWithinMax(target: BattleUnit, heal: int)
    requires 0 <= target.currentHp <= target.maxHp && heal >= 0
    ensures var a := ActualHeal(target, heal);
      && 0 <= a <= heal
      && target.currentHp <= target.currentHp + a <= target.maxHp
      && (target.currentHp + a == target.maxHp <==> heal >= target.maxHp - target.currentHp)
  {
  }

  /** The buff effect a shield effect installs: a `Shield` buff carrying the amount. */
  function ShieldEffect(amount: int, duration: int): (e: SkillEffect)
    ensures e.effectType == EffectType.Shield && e.baseValue == amount && e.duration == duration
    ensures e.parameters == map["shieldAmount" := IntVal(amount)] && !e.canStack
  {
    NewSkillEffect().(effectType := EffectType.Shield, baseValue := amount, duration := duration,
                      parameters := map["shieldAmount" := IntVal(amount)])
  }

  // ---------------------------------------------------------------------------------------
  // Dispel

  /** `dispelPositive` removes Buff-kind buffs, `dispelNegative` removes RemoveBuff-kind ones. */
  predicate Dispellable(b: BuffState, positive: bool, negative: bool)
  {
    (positive && b.buffType == EffectType.AddBuff) || (negative && b.buffType == EffectType.RemoveBuff)
  }

  /** A flag of the effect's parameter bag: present and converting to true. */
  predicate Flag(p: ParamBag, key: string)
  {
    key in p && ToBoolean(p[key])
  }

  /** The buffs a dispel leaves, in order. */
  function Kept(s: seq<BuffState>, positive: bool, negative: bool): seq<BuffState>
  {
    if s == [] then []
    else Kept(s[..|s| - 1], positive, negative) + (if Dispellable(s[|s| - 1], positive, negative) then [] else [s[|s| - 1]])
  }

  /** How many buffs a dispel removes. */
  function DispelCount(s: seq<BuffState>, positive: bool, negative: bool): nat
  {
    if s == [] then 0
    else DispelCount(s[..|s| - 1], positive, negative) + (if Dispellable(s[|s| - 1], positive, negative) then 1 else 0)
  }

  /** A dispel partitions the list: every kept buff is undispellable, every undispellable buff
      is kept, and the kept and removed buffs add up to the list. */
  lemma {:induction false} DispelPartition(s: seq<BuffState>, positive: bool, negative: bool)
    ensures |Kept(s, positive, negative)| + DispelCount(s, positive, negative) == |s|
    ensures forall b :: b in Kept(s, positive, negative) ==> b in s && !Dispellable(b, positive, negative)
    ensures forall i :: 0 <= i < |s| && !Dispellable(s[i], positive, negative) ==> s[i] in Kept(s, positive, negative)
  {
    if s != [] {
      var init := s[..|s| - 1];
      DispelPartition(init, positive, negative);
      assert s == init + [s[|s| - 1]];
      forall i | 0 <= i < |s| && !Dispellable(s[i], positive, negative) ensures s[i] in Kept(s, positive, negative) {
        if i < |s| - 1 {
          assert s[i] == init[i];
        }
      }
    }
  }

  /** What a dispel keeps carries only ids of the list, still in increasing order. */
  lemma {:induction false} KeptIds(s: seq<BuffState>, positive: bool, negative: bool)
    ensures IdSet(Kept(s, positive, negative)) <= IdSet(s)
    ensures IncreasingIds(s) ==> IncreasingIds(Kept(s, positive, negative))
  {
    if s != [] {
      var init := s[..|s| - 1];
      var last := s[|s| - 1];
      KeptIds(init, positive, negative);
      assert s == init + [last];
      IdSetAppend(init, last);
      assert IdSet(s) == IdSet(init) + {last.buffId};
      var k := Kept(init, positive, negative);
      if !Dispellable(last, positive, negative) {
        assert Kept(s, positive, negative) == k + [last];
        IdSetAppend(k, last);
        if IncreasingIds(s) {
          assert IncreasingIds(init);
          forall x, y | 0 <= x < y < |k + [last]| ensures (k + [last])[x].buffId < (k + [last])[y].buffId {
            if y == |k| {
              IdSetIndex(k, x);
              var j := IdSetMember(init, k[x].buffId);
              assert init[j] == s[j];
            }
          }
        }
      } else {
        assert Kept(s, positive, negative) == k;
      }
    }
  }

  lemma DispelStart(table: BuffTable, unitId: int, s: seq<BuffState>, positive: bool, negative: bool)
    requires s == UnitBuffs(table, unitId)
    ensures unitId !in table ==> s == []
    ensures unitId in table ==> table == table[unitId := Kept(s[..0], positive, negative) + s[0..]]
    ensures DispelCount(s[..0], positive, negative) == 0
  {
    assert s[..0] == [] && s[0..] == s;
    assert Kept(s[..0], positive, negative) == [];
    assert Kept(s[..0], positive, negative) + s[0..] == s;
  }

  /** Removing the next dispellable buff of the snapshot by id turns the live list into the
      kept prefix followed by the rest of the snapshot. */
  lemma DispelRemoves(current: seq<BuffState>, s: seq<BuffState>, i: nat, positive: bool, negative: bool)
    requires i < |s| && IncreasingIds(current) && Dispellable(s[i], positive, negative)
    requires current == Kept(s[..i], positive, negative) + s[i..]
    ensures WithoutId(current, s[i].buffId) == Kept(s[..i + 1], positive, negative) + s[i + 1..]
    ensures DispelCount(s[..i + 1], positive, negative) == DispelCount(s[..i], positive, negative) + 1
  {
    var kept := Kept(s[..i], positive, negative);
    DispelDrops(s, i, positive, negative);
    assert s[i..] == [s[i]] + s[i + 1..];
    assert current == kept + [s[i]] + s[i + 1..];
    PositionEdits(kept, s[i], s[i], s[i + 1..]);
    WithoutIdUnique(current, s[i].buffId, |kept|);
  }

  /** A dispellable buff adds nothing to what is kept and one to the count. */
  lemma DispelDrops(s: seq<BuffState>, i: nat, positive: bool, negative: bool)
    requires i < |s| && Dispellable(s[i], positive, negative)
    ensures Kept(s[..i + 1], positive, negative) == Kept(s[..i], positive, negative)
    ensures DispelCount(s[..i + 1], positive, negative) == DispelCount(s[..i], positive, negative) + 1
  {
    assert s[..i + 1][..i] == s[..i];
  }

  lemma DispelKeeps(s: seq<BuffState>, i: nat, positive: bool, negative: bool)
    requires i < |s| && !Dispellable(s[i], positive, negative)
    ensures Kept(s[..i + 1], positive, negative) + s[i + 1..] == Kept(s[..i], positive, negative) + s[i..]
    ensures DispelCount(s[..i + 1], positive, negative) == DispelCount(s[..i], positive, negative)
  {
    assert s[..i + 1][..i] == s[..i];
    assert s[i..] == [s[i]] + s[i + 1..];
  }

  lemma DispelFinish(s: seq<BuffState>, positive: bool, negative: bool)
    ensures Kept(s[..|s|], positive, negative) + s[|s|..] == Kept(s, positive, negative)
    ensures DispelCount(s[..|s|], positive, negative) == DispelCount(s, positive, negative)
  {
    assert s[..|s|] == s && s[|s|..] == [];
  }

  /** The table after dispelling one unit, and the count removed. */
  function DispelTable(buffs: BuffTable, unitId: int, positive: bool, negative: bool): (BuffTable, nat)
  {
    if unitId in buffs then (buffs[unitId := Kept(buffs[unitId], positive, negative)], DispelCount(buffs[unitId], positive, negative))
    else (buffs, 0)
  }

  lemma DispelPreservesValid(buffs: BuffTable, nextId: int, unitId: int, positive: bool, negative: bool)
    requires ValidTable(buffs, nextId)
    ensures ValidTable(DispelTable(buffs, unitId, positive, negative).0, nextId)
  {
    if unitId in buffs {
      KeptIds(buffs[unitId], positive, negative);
    }
  }

  // ---------------------------------------------------------------------------------------
  // Dispatch

  /** Which effect routine handles an effect. */
  datatype Handler = DamageHandler | HealHandler | BuffHandler | ShieldHandler | DispelHandler | NoHandler

  /** The `switch` of `ExecuteSkillEffect` as written: a Revive effect runs the dispel routine and
      a Dispel effect runs nothing. */
  function HandlerAsWritten(t: EffectType): Handler
  {
    match t
    case Damage => DamageHandler
    case Heal => HealHandler
    case AddBuff => BuffHandler
    case Shield => ShieldHandler
    case Revive => DispelHandler
    case _ => NoHandler
  }

  /** The dispatch the rest of the model uses: the dispel routine serves Dispel effects, and
      Revive (which has no routine) does nothing. Everything else is as written. */
  function HandlerFor(t: EffectType): (h: Handler)
    ensures h == DispelHandler <==> t == EffectType.Dispel
    ensures t != EffectType.Dispel && t != EffectType.Revive ==> h == HandlerAsWritten(t)
    ensures t == EffectType.Revive ==> h == NoHandler
  {
    match t
    case Damage => DamageHandler
    case Heal => HealHandler
    case AddBuff => BuffHandler
    case Shield => ShieldHandler
    case Dispel => DispelHandler
    case _ => NoHandler
  }

  /** `ConvertEffectTypeToActionType`: seven kinds map to their namesake, the rest to Damage. */
  function ActionTypeFor(t: EffectType): (a: ActionType)
    ensures a == ActionType.Damage <==>
      t != EffectType.Heal && t != EffectType.AddBuff && t != EffectType.Trigger && t != EffectType.Shield &&
      t != EffectType.Revive && t != EffectType.Dispel
    ensures a == ActionType.Heal <==> t == EffectType.Heal
    ensures a == ActionType.AddBuff <==> t == EffectType.AddBuff
    ensures a == ActionType.Trigger <==> t == EffectType.Trigger
    ensures a == ActionType.Shield <==> t == EffectType.Shield
    ensures a == ActionType.Revive <==> t == EffectType.Revive
    ensures a == ActionType.Dispel <==> t == EffectType.Dispel
  {
    match t
    case Damage => ActionType.Damage
    case Heal => ActionType.Heal
    case AddBuff => ActionType.AddBuff
    case Trigger => ActionType.Trigger
    case Shield => ActionType.Shield
    case Revive => ActionType.Revive
    case Dispel => ActionType.Dispel
    case _ => ActionType.Damage
  }

  /** `CreateActionFromEffect`. The action's skill id is never filled in, so it stays 0. */
  function ActionFromEffect(caster: BattleUnit, target: BattleUnit, effect: SkillEffect): (a: BattleAction)
    ensures a.sourceUnitId == caster.unitId && a.targetUnitIds == [target.unitId]
    ensures a.value == effect.baseValue && a.actualValue == effect.baseValue
    ensures a.actionType == ActionTypeFor(effect.effectType) && a.skillId == 0 && !a.isCritical
  {
    NewBattleAction().(actionType := ActionTypeFor(effect.effectType), sourceUnitId := caster.unitId,
                       targetUnitIds := [target.unitId], value := effect.baseValue,
                       actualValue := effect.baseValue,
                       description := caster.unitName + " 对 " + target.unitName + " 使用技能效果")
  }

  // ---------------------------------------------------------------------------------------
  // One effect on one target

  datatype StepResult = StepResult(state: EngineState, action: Option<BattleAction>)

  predicate ValidIndex(st: EngineState, i: nat) { i < |st.units| }

  /** `ExecuteDamageEffect`, after the probability roll. The critical roll draws only when the
      effect can crit. */
  function DamageStep(rng: nat -> real, st: EngineState, c: nat, t: nat, effect: SkillEffect, action: BattleAction): StepResult
    requires ValidIndex(st, c) && ValidIndex(st, t)
  {
    var baseDamage := EffectValue(st.buffs, st.units[c], effect);
    var defense := FinalAttribute(st.buffs, st.units[t], "defense");
    var critical := effect.canCrit && rng(st.draws) < CRIT_CHANCE;
    var draws := if effect.canCrit then st.draws + 1 else st.draws;
    var d := DamageAmount(baseDamage, defense, effect.ignoreDefense, critical);
    StepResult(st.(units := DamageUnits(st.units, c, t, d), draws := draws),
               Some(action.(isCritical := action.isCritical || critical, actualValue := d)))
  }

  /** The three unit updates at the end of `ExecuteDamageEffect`, as the statements the method
      executes one after another. `DamageUnits` is the same change as one value, which the
      specification functions use; this method is the step-by-step form, and its ensures is the
      proof that the two agree, including when caster and target are the same unit. */
  method DealDamage(units: seq<BattleUnit>, c: nat, t: nat, damage: int) returns (unitsOut: seq<BattleUnit>)
    requires c < |units| && t < |units|
    ensures unitsOut == DamageUnits(units, c, t, damage)
  {
    unitsOut := units[t := units[t].(currentHp := Max(0, units[t].currentHp - damage))];
    unitsOut := unitsOut[c := unitsOut[c].(totalDamageDealt := unitsOut[c].totalDamageDealt + damage)];
    unitsOut := unitsOut[t := unitsOut[t].(totalDamageReceived := unitsOut[t].totalDamageReceived + damage)];
  }

  /** `DamageStep` from its ingredients. */
  lemma DamageStepIs(rng: nat -> real, st: EngineState, c: nat, t: nat, effect: SkillEffect, action: BattleAction,
                     baseDamage: int, defense: int, critical: bool, st': EngineState, action': BattleAction)
    requires ValidIndex(st, c) && ValidIndex(st, t)
    requires baseDamage == EffectValue(st.buffs, st.units[c], effect)
    requires defense == FinalAttribute(st.buffs, st.units[t], "defense")
    requires critical == (effect.canCrit && rng(st.draws) < CRIT_CHANCE)
    requires st' == st.(units := DamageUnits(st.units, c, t, DamageAmount(baseDamage, defense, effect.ignoreDefense, critical)),
                        draws := if effect.canCrit then st.draws + 1 else st.draws)
    requires action' == action.(isCritical := action.isCritical || critical,
                                actualValue := DamageAmount(baseDamage, defense, effect.ignoreDefense, critical))
    ensures DamageStep(rng, st, c, t, effect, action) == StepResult(st', Some(action'))
  {
  }

  /** `ExecuteHealEffect`: the totals are left alone. */
  function HealStep(st: EngineState, c: nat, t: nat, effect: SkillEffect, action: BattleAction): StepResult
    requires ValidIndex(st, c) && ValidIndex(st, t)
  {
    var a := ActualHeal(st.units[t], EffectValue(st.buffs, st.units[c], effect));
    StepResult(st.(units := st.units[t := st.units[t].(currentHp := st.units[t].currentHp + a)]),
               Some(action.(actualValue := a)))
  }

  /** `ExecuteBuffEffect`: the buff is recorded under the action's skill id. */
  function BuffStep(st: EngineState, c: nat, t: nat, effect: SkillEffect, action: BattleAction): StepResult
    requires ValidIndex(st, c) && ValidIndex(st, t)
  {
    var r := AddBuffSpec(st.buffs, st.nextBuffId, st.units[t].unitId, effect, st.units[c].unitId, action.skillId);
    StepResult(st.(buffs := r.table, nextBuffId := r.nextId), Some(action.(actualValue := effect.baseValue)))
  }

  /** `ExecuteShieldEffect`. */
  function ShieldStep(st: EngineState, c: nat, t: nat, effect: SkillEffect, action: BattleAction): StepResult
    requires ValidIndex(st, c) && ValidIndex(st, t)
  {
    var amount := EffectValue(st.buffs, st.units[c], effect);
    var r := AddBuffSpec(st.buffs, st.nextBuffId, st.units[t].unitId, ShieldEffect(amount, effect.duration),
                         st.units[c].unitId, action.skillId);
    StepResult(st.(buffs := r.table, nextBuffId := r.nextId), Some(action.(actualValue := amount)))
  }

  /** `ExecuteDispelEffect`. */
  function DispelStep(st: EngineState, t: nat, effect: SkillEffect, action: BattleAction): StepResult
    requires ValidIndex(st, t)
  {
    var (table, n) := DispelTable(st.buffs, st.units[t].unitId,
                                  Flag(effect.parameters, "dispelPositive"), Flag(effect.parameters, "dispelNegative"));
    StepResult(st.(buffs := table), Some(action.(actualValue := n)))
  }

  /** One pass of `ExecuteSkillEffect`'s loop body under a given dispatch: the probability roll
      (a draw above the probability skips the target), then the handler. */
  function ApplyWith(h: Handler, rng: nat -> real, st: EngineState, c: nat, t: nat, effect: SkillEffect): StepResult
    requires ValidIndex(st, c) && ValidIndex(st, t)
  {
    if rng(st.draws) > effect.probability then StepResult(st.(draws := st.draws + 1), None)
    else
      HandlerStep(h, rng, st.(draws := st.draws + 1), c, t, effect, ActionFromEffect(st.units[c], st.units[t], effect))
  }

  /** The routine a handler names, applied to a drafted action. */
  function HandlerStep(h: Handler, rng: nat -> real, st: EngineState, c: nat, t: nat, effect: SkillEffect, action: BattleAction): StepResult
    requires ValidIndex(st, c) && ValidIndex(st, t)
  {
    match h
    case DamageHandler => DamageStep(rng, st, c, t, effect, action)
    case HealHandler => HealStep(st, c, t, effect, action)
    case BuffHandler => BuffStep(st, c, t, effect, action)
    case ShieldHandler => ShieldStep(st, c, t, effect, action)
    case DispelHandler => DispelStep(st, t, effect, action)
    case NoHandler => StepResult(st, Some(action))
  }

  function ApplyEffect(rng: nat -> real, st: EngineState, c: nat, t: nat, effect: SkillEffect): StepResult
    requires ValidIndex(st, c) && ValidIndex(st, t)
  {
    ApplyWith(HandlerFor(effect.effectType), rng, st, c, t, effect)
  }

  function ApplyEffectAsWritten(rng: nat -> real, st: EngineState, c: nat, t: nat, effect: SkillEffect): StepResult
    requires ValidIndex(st, c) && ValidIndex(st, t)
  {
    ApplyWith(HandlerAsWritten(effect.effectType), rng, st, c, t, effect)
  }

  /** Health within `[0, maxHp]` for every unit. */
  predicate HpInRange(units: seq<BattleUnit>)
  {
    forall i :: 0 <= i < |units| ==> 0 <= units[i].currentHp <= units[i].maxHp
  }

  /** Same roster: every unit keeps its identity and stats; only health and totals move. */
  predicate SameRoster(before: seq<BattleUnit>, after: seq<BattleUnit>)
  {
    && |before| == |after|
    && forall i :: 0 <= i < |before| ==>
         after[i].unitId == before[i].unitId && after[i].maxHp == before[i].maxHp &&
         after[i].attack == before[i].attack && after[i].defense == before[i].defense &&
         after[i].speed == before[i].speed && after[i].isAlive == before[i].isAlive
  }

  /** Values that cannot go negative: a non-negative base value and scale factor. */
  predicate NonNegative(effect: SkillEffect)
  {
    effect.baseValue >= 0 && effect.scaleValue >= 0.0
  }

  /** The action a handler returns still names the caster and the target it was built for. */
  predicate SameParties(r: Option<BattleAction>, action: BattleAction)
  {
    r.Some? && r.value.sourceUnitId == action.sourceUnitId && r.value.targetUnitIds == action.targetUnitIds
  }

  lemma DamageStepFacts(rng: nat -> real, st: EngineState, c: nat, t: nat, effect: SkillEffect, action: BattleAction)
    requires ValidIndex(st, c) && ValidIndex(st, t)
    ensures var r := DamageStep(rng, st, c, t, effect, action);
      && SameRoster(st.units, r.state.units)
      && r.state.buffs == st.buffs && r.state.nextBuffId == st.nextBuffId
      && (HpInRange(st.units) && NonNegative(effect) ==> HpInRange(r.state.units))
      && SameParties(r.action, action)
      && r.state.draws == st.draws + (if effect.canCrit then 1 else 0)
  {
    var baseDamage := EffectValue(st.buffs, st.units[c], effect);
    var defense := FinalAttribute(st.buffs, st.units[t], "defense");
    var critical := effect.canCrit && rng(st.draws) < CRIT_CHANCE;
    DamageAmountFacts(baseDamage, defense, effect.ignoreDefense, critical);
  }

  lemma HealStepFacts(st: EngineState, c: nat, t: nat, effect: SkillEffect, action: BattleAction)
    requires ValidIndex(st, c) && ValidIndex(st, t)
    ensures var r := HealStep(st, c, t, effect, action);
      && SameRoster(st.units, r.state.units)
      && r.state.buffs == st.buffs && r.state.nextBuffId == st.nextBuffId && r.state.draws == st.draws
      && (HpInRange(st.units) && NonNegative(effect) ==> HpInRange(r.state.units))
      && SameParties(r.action, action)
  {
    if HpInRange(st.units) && NonNegative(effect) {
      HealStaysWithinMax(st.units[t], EffectValue(st.buffs, st.units[c], effect));
    }
  }

  lemma TableStepFacts(rng: nat -> real, st: EngineState, c: nat, t: nat, effect: SkillEffect, action: BattleAction, h: Handler)
    requires ValidIndex(st, c) && ValidIndex(st, t)
    requires h == BuffHandler || h == ShieldHandler || h == DispelHandler
    ensures var r := if h == BuffHandler then BuffStep(st, c, t, effect, action)
                     else if h == ShieldHandler then ShieldStep(st, c, t, effect, action)
                     else DispelStep(st, t, effect, action);
      && r.state.units == st.units && r.state.draws == st.draws
      && (ValidTable(st.buffs, st.nextBuffId) ==> ValidTable(r.state.buffs, r.state.nextBuffId))
      && SameParties(r.action, action)
  {
    if ValidTable(st.buffs, st.nextBuffId) {
      if h == BuffHandler {
        AddBuffPreservesValid(st.buffs, st.nextBuffId, st.units[t].unitId, effect, st.units[c].unitId, action.skillId);
      } else if h == ShieldHandler {
        var amount := EffectValue(st.buffs, st.units[c], effect);
        AddBuffPreservesValid(st.buffs, st.nextBuffId, st.units[t].unitId, ShieldEffect(amount, effect.duration),
                              st.units[c].unitId, action.skillId);
      } else {
        DispelPreservesValid(st.buffs, st.nextBuffId, st.units[t].unitId,
                             Flag(effect.parameters, "dispelPositive"), Flag(effect.parameters, "dispelNegative"));
      }
    }
  }

  /** Whatever the handler, the roster is kept, the buff table stays valid, health stays in range
      for non-negative effects, the action keeps its parties, and only a damage effect that can
      crit draws once more. */
  lemma HandlerStepFacts(h: Handler, rng: nat -> real, st: EngineState, c: nat, t: nat, effect: SkillEffect, action: BattleAction)
    requires ValidIndex(st, c) && ValidIndex(st, t)
    ensures var r := HandlerStep(h, rng, st, c, t, effect, action);
      && SameRoster(st.units, r.state.units)
      && (ValidTable(st.buffs, st.nextBuffId) ==> ValidTable(r.state.buffs, r.state.nextBuffId))
      && (HpInRange(st.units) && NonNegative(effect) ==> HpInRange(r.state.units))
      && SameParties(r.action, action)
      && r.state.draws == st.draws + (if h == DamageHandler && effect.canCrit then 1 else 0)
  {
    match h
    case DamageHandler => DamageStepFacts(rng, st, c, t, effect, action);
    case HealHandler => HealStepFacts(st, c, t, effect, action);
    case BuffHandler => TableStepFacts(rng, st, c, t, effect, action, h);
    case ShieldHandler => TableStepFacts(rng, st, c, t, effect, action, h);
    case DispelHandler => TableStepFacts(rng, st, c, t, effect, action, h);
    case NoHandler =>
  }

  /** One effect on one target: the roster is kept, the buff table stays valid, health stays in
      range for non-negative effects, the action (if any) names caster and target, and the roll
      costs one draw, or two when a damage effect that can crit goes through. */
  lemma ApplyEffectFacts(rng: nat -> real, st: EngineState, c: nat, t: nat, effect: SkillEffect)
    requires ValidIndex(st, c) && ValidIndex(st, t)
    ensures var r := ApplyEffect(rng, st, c, t, effect);
      && SameRoster(st.units, r.state.units)
      && (ValidTable(st.buffs, st.nextBuffId) ==> ValidTable(r.state.buffs, r.state.nextBuffId))
      && (HpInRange(st.units) && NonNegative(effect) ==> HpInRange(r.state.units))
      && (r.action.Some? ==> r.action.value.sourceUnitId == st.units[c].unitId &&
                             r.action.value.targetUnitIds == [st.units[t].unitId])
      && (r.action.None? <==> rng(st.draws) > effect.probability)
      && r.state.draws == st.draws + (if r.action.Some? && effect.effectType == EffectType.Damage && effect.canCrit then 2 else 1)
  {
    var h := HandlerFor(effect.effectType);
    assert h == DamageHandler <==> effect.effectType == EffectType.Damage;
    ApplyWithFacts(h, rng, st, c, t, effect);
    ApplyWithAction(h, rng, st, c, t, effect);
  }

  /** `ApplyEffectFacts` for any dispatch: what happens to the state. */
  lemma ApplyWithFacts(h: Handler, rng: nat -> real, st: EngineState, c: nat, t: nat, effect: SkillEffect)
    requires ValidIndex(st, c) && ValidIndex(st, t)
    ensures var r := ApplyWith(h, rng, st, c, t, effect);
      && SameRoster(st.units, r.state.units)
      && (ValidTable(st.buffs, st.nextBuffId) ==> ValidTable(r.state.buffs, r.state.nextBuffId))
      && (HpInRange(st.units) && NonNegative(effect) ==> HpInRange(r.state.units))
  {
    if rng(st.draws) <= effect.probability {
      var s1 := st.(draws := st.draws + 1);
      var action := ActionFromEffect(st.units[c], st.units[t], effect);
      HandlerStepFacts(h, rng, s1, c, t, effect, action);
      assert ApplyWith(h, rng, st, c, t, effect) == HandlerStep(h, rng, s1, c, t, effect, action);
    }
  }

  /** `ApplyEffectFacts` for any dispatch: the action and the draws. */
  lemma ApplyWithAction(h: Handler, rng: nat -> real, st: EngineState, c: nat, t: nat, effect: SkillEffect)
    requires ValidIndex(st, c) && ValidIndex(st, t)
    ensures var r := ApplyWith(h, rng, st, c, t, effect);
      && (r.action.Some? ==> r.action.value.sourceUnitId == st.units[c].unitId &&
                             r.action.value.targetUnitIds == [st.units[t].unitId])
      && (r.action.None? <==> rng(st.draws) > effect.probability)
      && r.state.draws == st.draws + (if r.action.Some? && h == DamageHandler && effect.canCrit then 2 else 1)
  {
    if rng(st.draws) <= effect.probability {
      HandlerStepFacts(h, rng, st.(draws := st.draws + 1), c, t, effect, ActionFromEffect(st.units[c], st.units[t], effect));
    }
  }

  // ---------------------------------------------------------------------------------------
  // Whole effects and skills

  datatype Outcome = Outcome(state: EngineState, actions: seq<BattleAction>)

  predicate AllValid(st: EngineState, ts: seq<nat>)
  {
    forall i :: 0 <= i < |ts| ==> ts[i] < |st.units|
  }

  function Optional(a: Option<BattleAction>): seq<BattleAction>
  {
    if a.Some? then [a.value] else []
  }

  /** `ExecuteSkillEffect`: the effect on each target in turn, collecting the actions of the
      targets whose roll succeeded. */
  function EffectOutcome(rng: nat -> real, st: EngineState, c: nat, effect: SkillEffect, ts: seq<nat>): (o: Outcome)
    requires ValidIndex(st, c) && AllValid(st, ts)
    ensures |o.state.units| == |st.units|
  {
    if ts == [] then Outcome(st, [])
    else
      var o := EffectOutcome(rng, st, c, effect, ts[..|ts| - 1]);
      ApplyEffectFacts(rng, o.state, c, ts[|ts| - 1], effect);
      var r := ApplyEffect(rng, o.state, c, ts[|ts| - 1], effect);
      Outcome(r.state, o.actions + Optional(r.action))
  }

  /** One more target: the effect applied to it in the state the earlier targets left. */
  lemma EffectOutcomeSnoc(rng: nat -> real, st: EngineState, c: nat, effect: SkillEffect, ts: seq<nat>, t: nat)
    requires ValidIndex(st, c) && AllValid(st, ts) && t < |st.units|
    ensures AllValid(st, ts + [t])
    ensures var o := EffectOutcome(rng, st, c, effect, ts);
      var r := ApplyEffect(rng, o.state, c, t, effect);
      EffectOutcome(rng, st, c, effect, ts + [t]) == Outcome(r.state, o.actions + Optional(r.action))
  {
    assert (ts + [t])[..|ts|] == ts;
  }

  /** The per-effect facts lifted to a whole target list: at most one action per target, each
      target costs one or two draws, and the roster, table validity and health range hold. */
  lemma {:induction false} EffectOutcomeFacts(rng: nat -> real, st: EngineState, c: nat, effect: SkillEffect, ts: seq<nat>)
    requires ValidIndex(st, c) && AllValid(st, ts)
    ensures var o := EffectOutcome(rng, st, c, effect, ts);
      && |o.actions| <= |ts|
      && st.draws + |ts| <= o.state.draws <= st.draws + 2 * |ts|
      && SameRoster(st.units, o.state.units)
      && (ValidTable(st.buffs, st.nextBuffId) ==> ValidTable(o.state.buffs, o.state.nextBuffId))
      && (HpInRange(st.units) && NonNegative(effect) ==> HpInRange(o.state.units))
      && (forall a :: a in o.actions ==> a.sourceUnitId == st.units[c].unitId)
  {
    if ts != [] {
      var init := ts[..|ts| - 1];
      EffectOutcomeFacts(rng, st, c, effect, init);
      var o := EffectOutcome(rng, st, c, effect, init);
      ApplyEffectFacts(rng, o.state, c, ts[|ts| - 1], effect);
    }
  }

  /** A selector's indices that name units (the original only ever hands back units). */
  function InRange(ts: seq<nat>, n: nat): (r: seq<nat>)
    ensures forall i :: 0 <= i < |r| ==> r[i] < n
    ensures |r| <= |ts|
  {
    if ts == [] then []
    else InRange(ts[..|ts| - 1], n) + (if ts[|ts| - 1] < n then [ts[|ts| - 1]] else [])
  }

  type Selector = (nat, TargetType, seq<nat>) -> seq<nat>

  /** `BattleCalculator.SelectTargetsBySelection` as written: it always returns an empty list. */
  function NoTargets(caster: nat, targetType: TargetType, candidates: seq<nat>): seq<nat>
  {
    []
  }

  /** The effect loop of `ExecuteSkill`: each effect picks its targets and runs. */
  function EffectsOutcome(rng: nat -> real, sel: Selector, st: EngineState, c: nat,
                          effects: seq<SkillEffect>, targets: seq<nat>): (o: Outcome)
    requires ValidIndex(st, c)
    ensures |o.state.units| == |st.units|
  {
    if effects == [] then Outcome(st, [])
    else
      var o := EffectsOutcome(rng, sel, st, c, effects[..|effects| - 1], targets);
      var e := effects[|effects| - 1];
      var r := EffectOutcome(rng, o.state, c, e, InRange(sel(c, e.targetType, targets), |o.state.units|));
      Outcome(r.state, o.actions + r.actions)
  }

  lemma {:induction false} EffectsOutcomeFacts(rng: nat -> real, sel: Selector, st: EngineState, c: nat,
                                               effects: seq<SkillEffect>, targets: seq<nat>)
    requires ValidIndex(st, c)
    ensures var o := EffectsOutcome(rng, sel, st, c, effects, targets);
      && SameRoster(st.units, o.state.units)
      && o.state.draws >= st.draws
      && (ValidTable(st.buffs, st.nextBuffId) ==> ValidTable(o.state.buffs, o.state.nextBuffId))
      && (HpInRange(st.units) && (forall e :: e in effects ==> NonNegative(e)) ==> HpInRange(o.state.units))
      && (forall a :: a in o.actions ==> a.sourceUnitId == st.units[c].unitId)
  {
    if effects != [] {
      var init := effects[..|effects| - 1];
      var e := effects[|effects| - 1];
      EffectsOutcomeFacts(rng, sel, st, c, init, targets);
      var o := EffectsOutcome(rng, sel, st, c, init, targets);
      assert forall x :: x in init ==> x in effects;
      EffectOutcomeFacts(rng, o.state, c, e, InRange(sel(c, e.targetType, targets), |o.state.units|));
    }
  }

  /** `SkillExecutionResult`. */
  datatype SkillExecutionResult = SkillExecutionResult(
    skillId: int, casterId: int, success: bool, errorMessage: string, actions: seq<BattleAction>)

  /** `ExecuteSkill`: an unregistered skill fails with a message and changes nothing. */
  function ExecuteSkillSpec(rng: nat -> real, sel: Selector, defs: map<int, SkillDefinition>, st: EngineState,
                            c: nat, skillId: int, targets: seq<nat>): (EngineState, SkillExecutionResult)
    requires ValidIndex(st, c)
  {
    if skillId !in defs then
      (st, SkillExecutionResult(skillId, st.units[c].unitId, false, "技能ID " + IntToText(skillId) + " 不存在", []))
    else
      var o := EffectsOutcome(rng, sel, st, c, defs[skillId].effects, targets);
      (o.state, SkillExecutionResult(skillId, st.units[c].unitId, true, "", o.actions))
  }

  /** A skill succeeds exactly when it is registered; an unregistered one changes nothing, and a
      registered one keeps the roster and the buff table's invariant and reports only the
      caster's actions. */
  lemma ExecuteSkillFacts(rng: nat -> real, sel: Selector, defs: map<int, SkillDefinition>, st: EngineState,
                          c: nat, skillId: int, targets: seq<nat>)
    requires ValidIndex(st, c)
    ensures var (st2, r) := ExecuteSkillSpec(rng, sel, defs, st, c, skillId, targets);
      && (r.success <==> skillId in defs)
      && (!r.success ==> st2 == st && r.actions == [] && r.errorMessage == "技能ID " + IntToText(skillId) + " 不存在")
      && r.skillId == skillId && r.casterId == st.units[c].unitId
      && SameRoster(st.units, st2.units)
      && (ValidTable(st.buffs, st.nextBuffId) ==> ValidTable(st2.buffs, st2.nextBuffId))
      && (forall a :: a in r.actions ==> a.sourceUnitId == st.units[c].unitId)
  {
    if skillId in defs {
      EffectsOutcomeFacts(rng, sel, st, c, defs[skillId].effects, targets);
    }
  }

  /** With the battle calculator's selection as written (no targets), a registered skill
      succeeds without doing anything at all. */
  lemma {:induction false} StubSelectionDoesNothing(rng: nat -> real, st: EngineState, c: nat, effects: seq<SkillEffect>, targets: seq<nat>)
    requires ValidIndex(st, c)
    ensures EffectsOutcome(rng, NoTargets, st, c, effects, targets) == Outcome(st, [])
  {
    if effects != [] {
      StubSelectionDoesNothing(rng, st, c, effects[..|effects| - 1], targets);
    }
  }

  // ---------------------------------------------------------------------------------------
  // The misrouted dispel

  /** As written, a Dispel effect whose roll succeeds only reports its drafted action; the
      corrected dispatch runs the dispel routine. */
  lemma DispelDispatch(rng: nat -> real, st: EngineState, c: nat, t: nat, e: SkillEffect)
    requires ValidIndex(st, c) && ValidIndex(st, t)
    requires e.effectType == EffectType.Dispel && rng(st.draws) <= e.probability
    ensures var st' := st.(draws := st.draws + 1);
      var a := ActionFromEffect(st.units[c], st.units[t], e);
      && ApplyEffectAsWritten(rng, st, c, t, e) == StepResult(st', Some(a))
      && ApplyEffect(rng, st, c, t, e) == DispelStep(st', t, e, a)
  {
    assert HandlerFor(e.effectType) == DispelHandler && HandlerAsWritten(e.effectType) == NoHandler;
  }

  /** As written, a Revive effect whose roll succeeds runs the dispel routine; the corrected
      dispatch only reports its drafted action. */
  lemma ReviveDispatch(rng: nat -> real, st: EngineState, c: nat, t: nat, e: SkillEffect)
    requires ValidIndex(st, c) && ValidIndex(st, t)
    requires e.effectType == EffectType.Revive && rng(st.draws) <= e.probability
    ensures var st' := st.(draws := st.draws + 1);
      var a := ActionFromEffect(st.units[c], st.units[t], e);
      && ApplyEffectAsWritten(rng, st, c, t, e) == DispelStep(st', t, e, a)
      && ApplyEffect(rng, st, c, t, e) == StepResult(st', Some(a))
  {
    assert HandlerFor(e.effectType) == NoHandler && HandlerAsWritten(e.effectType) == DispelHandler;
  }

  /** Everywhere else the two dispatches agree: on every other effect kind, and on any effect
      whose probability roll fails. */
  lemma OtherDispatch(rng: nat -> real, st: EngineState, c: nat, t: nat, e: SkillEffect)
    requires ValidIndex(st, c) && ValidIndex(st, t)
    requires (e.effectType != EffectType.Dispel && e.effectType != EffectType.Revive) || rng(st.draws) > e.probability
    ensures ApplyEffectAsWritten(rng, st, c, t, e) == ApplyEffect(rng, st, c, t, e)
  {
    if rng(st.draws) <= e.probability {
      assert HandlerFor(e.effectType) == HandlerAsWritten(e.effectType);
    }
  }

  /** As written, a Dispel effect with `dispelPositive` leaves the buff table as it was even
      when the target carries a Buff-kind buff (the action is still reported), while the
      corrected dispatch removes that buff. */
  lemma DispelEffectIgnoredAsWritten(rng: nat -> real, st: EngineState, c: nat, t: nat, e: SkillEffect)
    requires ValidIndex(st, c) && ValidIndex(st, t)
    requires e.effectType == EffectType.Dispel && rng(st.draws) <= e.probability
    requires Flag(e.parameters, "dispelPositive")
    requires var id := st.units[t].unitId;
      id in st.buffs && st.buffs[id] != [] && st.buffs[id][0].buffType == EffectType.AddBuff
    ensures ApplyEffectAsWritten(rng, st, c, t, e).state.buffs == st.buffs
    ensures ApplyEffectAsWritten(rng, st, c, t, e).action.Some?
    ensures var id := st.units[t].unitId;
      id in ApplyEffect(rng, st, c, t, e).state.buffs
      && ApplyEffect(rng, st, c, t, e).state.buffs[id] != st.buffs[id]
  {
    var id := st.units[t].unitId;
    var list := st.buffs[id];
    var positive, negative := Flag(e.parameters, "dispelPositive"), Flag(e.parameters, "dispelNegative");
    DispelDispatch(rng, st, c, t, e);
    DispelPartition(list, positive, negative);
    assert Dispellable(list[0], positive, negative);
    assert list[0] !in Kept(list, positive, negative);
  }

  // ---------------------------------------------------------------------------------------
  // Registration and the round's countdown

  /** `RegisterSkillDefinitions`: each definition in turn, a later one replacing an earlier one
      with the same id. */
  function RegisterAll(defs: map<int, SkillDefinition>, list: seq<SkillDefinition>): map<int, SkillDefinition>
  {
    if list == [] then defs else RegisterAll(defs, list[..|list| - 1])[list[|list| - 1].skillId := list[|list| - 1]]
  }

  /** After registering a list, the known ids are the old ones plus the list's. */
  lemma {:induction false} RegisterAllKeys(defs: map<int, SkillDefinition>, list: seq<SkillDefinition>)
    ensures RegisterAll(defs, list).Keys == defs.Keys + set d | d in list :: d.skillId
  {
    if list != [] {
      var init := list[..|list| - 1];
      RegisterAllKeys(defs, init);
      assert list == init + [list[|list| - 1]];
      assert (set d | d in list :: d.skillId) == (set d | d in init :: d.skillId) + {list[|list| - 1].skillId};
    }
  }

  /** Each id maps to the last definition in the list that carries it, and an id the list does
      not mention keeps its old definition. */
  lemma {:induction false} RegisterAllLastWins(defs: map<int, SkillDefinition>, list: seq<SkillDefinition>)
    ensures RegisterAll(defs, list).Keys == defs.Keys + set d | d in list :: d.skillId
    ensures forall i :: 0 <= i < |list| && (forall j :: i < j < |list| ==> list[j].skillId != list[i].skillId) ==>
      RegisterAll(defs, list)[list[i].skillId] == list[i]
    ensures forall id :: id in defs && (forall d :: d in list ==> d.skillId != id) ==> RegisterAll(defs, list)[id] == defs[id]
  {
    RegisterAllKeys(defs, list);
    if list != [] {
      var init := list[..|list| - 1];
      RegisterAllLastWins(defs, init);
      forall i | 0 <= i < |list| && (forall j :: i < j < |list| ==> list[j].skillId != list[i].skillId)
        ensures RegisterAll(defs, list)[list[i].skillId] == list[i]
      {
        if i < |list| - 1 {
          assert init[i] == list[i];
          assert list[i] in init;
        }
      }
      forall id | id in defs && (forall d :: d in list ==> d.skillId != id)
        ensures RegisterAll(defs, list)[id] == defs[id]
      {
        assert forall d :: d in init ==> d in list;
        assert list[|list| - 1] in list;
      }
    }
  }

  /** `UpdateAllBuffs`: the countdown for every listed unit, in list order. */
  function UpdateAll(buffs: BuffTable, units: seq<BattleUnit>): BuffTable
  {
    if units == [] then buffs else UpdateBuffsSpec(UpdateAll(buffs, units[..|units| - 1]), units[|units| - 1].unitId).table
  }

  lemma {:induction false} UpdateAllPreservesValid(buffs: BuffTable, nextId: int, units: seq<BattleUnit>)
    requires ValidTable(buffs, nextId)
    ensures ValidTable(UpdateAll(buffs, units), nextId)
    ensures (forall i :: 0 <= i < |units| ==> units[i].unitId !in buffs) ==> UpdateAll(buffs, units) == buffs
  {
    if units != [] {
      UpdateAllPreservesValid(buffs, nextId, units[..|units| - 1]);
      UpdateBuffsPreservesValid(UpdateAll(buffs, units[..|units| - 1]), nextId, units[|units| - 1].unitId);
    }
  }

  // ---------------------------------------------------------------------------------------
  // The engine

  class SkillExecutionEngine {
    const buffManager: BuffManager
    var skillDefinitions: map<int, SkillDefinition>
    /** the i-th `NextDouble()` of the engine's `Random` */
    const rng: nat -> real
    /** how many values of `rng` have been drawn */
    var draws: nat
    /** the battle calculator's target selection */
    const selector: Selector

    ghost predicate Valid()
      reads this, buffManager
    {
      buffManager.Valid()
    }

    function State(units: seq<BattleUnit>): EngineState
      reads this, buffManager
    {
      EngineState(units, buffManager.unitBuffs, buffManager.nextBuffId, draws)
    }

    constructor(rng: nat -> real, selector: Selector)
      ensures Valid() && fresh(buffManager)
      ensures buffManager.unitBuffs == map[] && buffManager.nextBuffId == 1
      ensures skillDefinitions == map[] && draws == 0
      ensures this.rng == rng && this.selector == selector
    {
      buffManager := new BuffManager();
      skillDefinitions := map[];
      this.rng := rng;
      draws := 0;
      this.selector := selector;
    }

    /** `ExecuteSkill`. */
    method ExecuteSkill(units: seq<BattleUnit>, c: nat, skillId: int, targets: seq<nat>)
      returns (unitsOut: seq<BattleUnit>, result: SkillExecutionResult)
      requires Valid() && c < |units|
      modifies this`draws, buffManager
      ensures Valid() && skillDefinitions == old(skillDefinitions)
      ensures (State(unitsOut), result) ==
        ExecuteSkillSpec(rng, selector, old(skillDefinitions), old(State(units)), c, skillId, targets)
    {
      unitsOut := units;
      if skillId !in skillDefinitions {
        result := SkillExecutionResult(skillId, units[c].unitId, false, "技能ID " + IntToText(skillId) + " 不存在", []);
        return;
      }
      var effects := skillDefinitions[skillId].effects;
      var actions: seq<BattleAction> := [];
      for i := 0 to |effects|
        invariant Valid() && |unitsOut| == |units|
        invariant Outcome(State(unitsOut), actions) == EffectsOutcome(rng, selector, old(State(units)), c, effects[..i], targets)
      {
        assert effects[..i + 1][..i] == effects[..i];
        var effect := effects[i];
        var effectTargets := InRange(selector(c, effect.targetType, targets), |unitsOut|);
        var effectActions;
        unitsOut, effectActions := ExecuteSkillEffect(unitsOut, c, effect, effectTargets);
        actions := actions + effectActions;
      }
      assert effects[..|effects|] == effects;
      result := SkillExecutionResult(skillId, units[c].unitId, true, "", actions);
    }

    /** `ExecuteSkillEffect`. */
    method ExecuteSkillEffect(units: seq<BattleUnit>, c: nat, effect: SkillEffect, targets: seq<nat>)
      returns (unitsOut: seq<BattleUnit>, actions: seq<BattleAction>)
      requires Valid() && c < |units| && forall i :: 0 <= i < |targets| ==> targets[i] < |units|
      modifies this`draws, buffManager
      ensures Valid()
      ensures Outcome(State(unitsOut), actions) == EffectOutcome(rng, old(State(units)), c, effect, targets)
    {
      unitsOut := units;
      actions := [];
      for i := 0 to |targets|
        invariant Valid() && |unitsOut| == |units|
        invariant Outcome(State(unitsOut), actions) == EffectOutcome(rng, old(State(units)), c, effect, targets[..i])
      {
        assert targets[..i + 1] == targets[..i] + [targets[i]];
        EffectOutcomeSnoc(rng, old(State(units)), c, effect, targets[..i], targets[i]);
        var action;
        unitsOut, action := ApplyToTarget(unitsOut, c, targets[i], effect);
        actions := actions + Optional(action);
      }
      assert targets[..|targets|] == targets;
    }

    /** The body of `ExecuteSkillEffect`'s loop for one target. */
    method ApplyToTarget(units: seq<BattleUnit>, c: nat, t: nat, effect: SkillEffect)
      returns (unitsOut: seq<BattleUnit>, result: Option<BattleAction>)
      requires Valid() && c < |units| && t < |units|
      modifies this`draws, buffManager
      ensures Valid()
      ensures StepResult(State(unitsOut), result) == ApplyEffect(rng, old(State(units)), c, t, effect)
    {
      unitsOut := units;
      var roll := rng(draws);
      draws := draws + 1;
      if roll > effect.probability {
        return unitsOut, None;
      }
      var action := ActionFromEffect(units[c], units[t], effect);
      unitsOut, action := RunHandler(HandlerFor(effect.effectType), units, c, t, effect, action);
      result := Some(action);
    }

    /** The `switch` of `ExecuteSkillEffect`, under the corrected dispatch. */
    method RunHandler(h: Handler, units: seq<BattleUnit>, c: nat, t: nat, effect: SkillEffect, action: BattleAction)
      returns (unitsOut: seq<BattleUnit>, actionOut: BattleAction)
      requires Valid() && c < |units| && t < |units|
      modifies this`draws, buffManager
      ensures Valid()
      ensures StepResult(State(unitsOut), Some(actionOut)) == HandlerStep(h, rng, old(State(units)), c, t, effect, action)
    {
      unitsOut, actionOut := units, action;
      match h
      case DamageHandler =>
        unitsOut, actionOut := ExecuteDamageEffect(units, c, t, effect, action);
      case HealHandler =>
        unitsOut, actionOut := ExecuteHealEffect(units, c, t, effect, action);
      case BuffHandler =>
        actionOut := ExecuteBuffEffect(units, c, t, effect, action);
      case ShieldHandler =>
        actionOut := ExecuteShieldEffect(units, c, t, effect, action);
      case DispelHandler =>
        actionOut := ExecuteDispelEffect(units, t, effect, action);
      case NoHandler =>
    }

    /** `ExecuteDamageEffect`. */
    method ExecuteDamageEffect(units: seq<BattleUnit>, c: nat, t: nat, effect: SkillEffect, action: BattleAction)
      returns (unitsOut: seq<BattleUnit>, actionOut: BattleAction)
      requires Valid() && c < |units| && t < |units|
      modifies this`draws
      ensures Valid()
      ensures StepResult(State(unitsOut), Some(actionOut)) == DamageStep(rng, old(State(units)), c, t, effect, action)
    {
      var baseDamage := CalculateEffectValue(units[c], effect);
      var finalDamage := baseDamage;
      var defense := GetUnitFinalAttribute(units[t], "defense");
      if !effect.ignoreDefense {
        finalDamage := Max(1, baseDamage - defense / 2);
      }
      actionOut := action;
      var critical := false;
      if effect.canCrit {
        var roll := rng(draws);
        draws := draws + 1;
        critical := roll < CRIT_CHANCE;
      }
      if critical {
        finalDamage := Trunc(finalDamage as real * CRIT_MULTIPLIER);
        actionOut := actionOut.(isCritical := true);
      }
      assert finalDamage == DamageAmount(baseDamage, defense, effect.ignoreDefense, critical);
      unitsOut := DealDamage(units, c, t, finalDamage);
      actionOut := actionOut.(actualValue := finalDamage);
      DamageStepIs(rng, old(State(units)), c, t, effect, action, baseDamage, defense, critical, State(unitsOut), actionOut);
    }

    /** `ExecuteHealEffect`. */
    method ExecuteHealEffect(units: seq<BattleUnit>, c: nat, t: nat, effect: SkillEffect, action: BattleAction)
      returns (unitsOut: seq<BattleUnit>, actionOut: BattleAction)
      requires c < |units| && t < |units|
      ensures StepResult(State(unitsOut), Some(actionOut)) == HealStep(State(units), c, t, effect, action)
    {
      var healAmount := CalculateEffectValue(units[c], effect);
      var actualHeal := Min(healAmount, units[t].maxHp - units[t].currentHp);
      unitsOut := units[t := units[t].(currentHp := units[t].currentHp + actualHeal)];
      actionOut := action.(actualValue := actualHeal);
    }

    /** `ExecuteBuffEffect`. */
    method ExecuteBuffEffect(units: seq<BattleUnit>, c: nat, t: nat, effect: SkillEffect, action: BattleAction)
      returns (actionOut: BattleAction)
      requires Valid() && c < |units| && t < |units|
      modifies buffManager
      ensures Valid()
      ensures StepResult(State(units), Some(actionOut)) == BuffStep(old(State(units)), c, t, effect, action)
    {
      var _ := buffManager.AddBuff(units[t].unitId, effect, units[c].unitId, action.skillId);
      actionOut := action.(actualValue := effect.baseValue);
    }

    /** `ExecuteShieldEffect`. */
    method ExecuteShieldEffect(units: seq<BattleUnit>, c: nat, t: nat, effect: SkillEffect, action: BattleAction)
      returns (actionOut: BattleAction)
      requires Valid() && c < |units| && t < |units|
      modifies buffManager
      ensures Valid()
      ensures StepResult(State(units), Some(actionOut)) == ShieldStep(old(State(units)), c, t, effect, action)
    {
      var shieldAmount := CalculateEffectValue(units[c], effect);
      var shieldEffect := ShieldEffect(shieldAmount, effect.duration);
      var _ := buffManager.AddBuff(units[t].unitId, shieldEffect, units[c].unitId, action.skillId);
      actionOut := action.(actualValue := shieldAmount);
    }

    /** `ExecuteDispelEffect`: walks a snapshot of the target's buffs and removes each
      dispellable one by id. */
    method ExecuteDispelEffect(units: seq<BattleUnit>, t: nat, effect: SkillEffect, action: BattleAction)
      returns (actionOut: BattleAction)
      requires Valid() && t < |units|
      modifies buffManager
      ensures Valid()
      ensures StepResult(State(units), Some(actionOut)) == DispelStep(old(State(units)), t, effect, action)
    {
      var positive := "dispelPositive" in effect.parameters && ToBoolean(effect.parameters["dispelPositive"]);
      var negative := "dispelNegative" in effect.parameters && ToBoolean(effect.parameters["dispelNegative"]);
      var dispelCount := DispelBuffs(units[t].unitId, positive, negative);
      actionOut := action.(actualValue := dispelCount);
    }

    /** The loop of `ExecuteDispelEffect` over the snapshot `ToArray()` takes. */
    method DispelBuffs(unitId: int, positive: bool, negative: bool) returns (dispelCount: nat)
      requires Valid()
      modifies buffManager
      ensures Valid() && buffManager.nextBuffId == old(buffManager.nextBuffId)
      ensures (buffManager.unitBuffs, dispelCount) == DispelTable(old(buffManager.unitBuffs), unitId, positive, negative)
    {
      var targetBuffs := buffManager.GetUnitBuffs(unitId);
      dispelCount := 0;
      ghost var table0 := buffManager.unitBuffs;
      DispelStart(table0, unitId, targetBuffs, positive, negative);
      for i := 0 to |targetBuffs|
        invariant buffManager.Valid() && buffManager.nextBuffId == old(buffManager.nextBuffId)
        invariant unitId !in table0 ==> targetBuffs == [] && buffManager.unitBuffs == table0
        invariant unitId in table0 ==>
          buffManager.unitBuffs == table0[unitId := Kept(targetBuffs[..i], positive, negative) + targetBuffs[i..]]
        invariant dispelCount == DispelCount(targetBuffs[..i], positive, negative)
      {
        var removed := DispelAt(unitId, targetBuffs, i, positive, negative, table0);
        if removed {
          dispelCount := dispelCount + 1;
        }
      }
      DispelFinish(targetBuffs, positive, negative);
    }

    /** One pass of the dispel loop: the snapshot's `i`-th buff is removed by id when it is
        dispellable, and left in place otherwise. */
    method DispelAt(unitId: int, s: seq<BuffState>, i: nat, positive: bool, negative: bool,
                    ghost table0: BuffTable) returns (removed: bool)
      requires Valid() && i < |s| && unitId in table0
      requires buffManager.unitBuffs == table0[unitId := Kept(s[..i], positive, negative) + s[i..]]
      modifies buffManager
      ensures Valid() && buffManager.nextBuffId == old(buffManager.nextBuffId)
      ensures buffManager.unitBuffs == table0[unitId := Kept(s[..i + 1], positive, negative) + s[i + 1..]]
      ensures DispelCount(s[..i + 1], positive, negative) == DispelCount(s[..i], positive, negative) + (if removed then 1 else 0)
    {
      var buff := s[i];
      removed := Dispellable(buff, positive, negative);
      if removed {
        assert IncreasingIds(buffManager.unitBuffs[unitId]);
        DispelRemoves(buffManager.unitBuffs[unitId], s, i, positive, negative);
        var _ := buffManager.RemoveBuff(unitId, buff.buffId);
      } else {
        DispelKeeps(s, i, positive, negative);
      }
    }

    /** `CalculateEffectValue`. */
    method CalculateEffectValue(caster: BattleUnit, effect: SkillEffect) returns (v: int)
      ensures v == EffectValue(buffManager.unitBuffs, caster, effect)
    {
      v := effect.baseValue;
      if effect.scaleAttribute != "" {
        var attributeValue := GetUnitFinalAttribute(caster, effect.scaleAttribute);
        v := v + Trunc(attributeValue as real * effect.scaleValue);
      }
    }

    /** `GetUnitFinalAttribute`: sums every buff's modifier for the attribute, times its stacks. */
    method GetUnitFinalAttribute(unit: BattleUnit, name: string) returns (v: int)
      ensures v == FinalAttribute(buffManager.unitBuffs, unit, name)
    {
      var baseValue := BaseAttribute(unit, name);
      var modifier := 0.0;
      var buffs := buffManager.GetUnitBuffs(unit.unitId);
      for i := 0 to |buffs|
        invariant modifier == ModifierSum(buffs[..i], name)
      {
        assert buffs[..i + 1][..i] == buffs[..i];
        var buff := buffs[i];
        if name in buff.attributeModifiers {
          modifier := modifier + buff.attributeModifiers[name] * buff.currentStacks as real;
        }
      }
      assert buffs[..|buffs|] == buffs;
      v := Max(0, baseValue + Trunc(modifier));
    }

    /** `RegisterSkillDefinition`. */
    method RegisterSkillDefinition(def: SkillDefinition)
      modifies this
      ensures skillDefinitions == old(skillDefinitions)[def.skillId := def]
      ensures draws == old(draws)
    {
      skillDefinitions := skillDefinitions[def.skillId := def];
    }

    /** `RegisterSkillDefinitions`. */
    method RegisterSkillDefinitions(defs: seq<SkillDefinition>)
      modifies this
      ensures skillDefinitions == RegisterAll(old(skillDefinitions), defs)
      ensures draws == old(draws)
    {
      for i := 0 to |defs|
        invariant skillDefinitions == RegisterAll(old(skillDefinitions), defs[..i])
        invariant draws == old(draws)
      {
        assert defs[..i + 1][..i] == defs[..i];
        RegisterSkillDefinition(defs[i]);
      }
      assert defs[..|defs|] == defs;
    }

    /** `UpdateAllBuffs`: one countdown per listed unit. */
    method UpdateAllBuffs(allUnits: seq<BattleUnit>, currentRound: int)
      requires Valid()
      modifies buffManager
      ensures Valid() && buffManager.nextBuffId == old(buffManager.nextBuffId)
      ensures buffManager.unitBuffs == UpdateAll(old(buffManager.unitBuffs), allUnits)
    {
      for i := 0 to |allUnits|
        invariant Valid() && buffManager.nextBuffId == old(buffManager.nextBuffId)
        invariant buffManager.unitBuffs == UpdateAll(old(buffManager.unitBuffs), allUnits[..i])
      {
        assert allUnits[..i + 1][..i] == allUnits[..i];
        var _ := buffManager.UpdateBuffs(allUnits[i].unitId, currentRound);
      }
      assert allUnits[..|allUnits|] == allUnits;
    }
  }
}
