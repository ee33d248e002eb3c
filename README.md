# Battle: a verified model of the server-side battle core

Battle is a turn-based hero battle server written in C#. A client sends two teams of heroes. The
server checks the request, builds a battle unit for every hero and orders the units by speed. It
then plays up to 30 rounds until one side is wiped out, records each round's actions and a
snapshot of every unit, and keeps the finished battle record under its battle id for later
queries. Skills are data: a skill definition is a list of effects (damage, heal, buff, shield,
dispel, ...). The skill execution engine applies them to targets with probability rolls, critical
hits and defence. Buffs live in a buff manager that stacks, counts down and removes them. Skill
definitions come from built-in templates and examples (the skill configuration manager). Skill
and buff configurations are loaded from JSON files (the configuration loader) and checked by a
validator.

This project models that core in Dafny and proves what the code promises:

- `common.dfy`: `Option`, `Min`/`Max`, the C# `(int)` cast (`Trunc`) and `Convert.ToInt32`
  (`RoundHalfEven`).
- `skill_definition.dfy` (module `Skills`): skill effects, definitions, conditions and buff states.
- `buff_manager.dfy` (module `BuffSystem`): the buff table and the `BuffManager` class.
- `battle_data.dfy` (module `BattleData`): battle units, actions, rounds, the battle record and
  `BattleConfig`.
- `skill_execution_engine.dfy` (module `SkillEngine`): effect application and the
  `SkillExecutionEngine` class.
- `combat_rules.dfy` (module `CombatRules`): the value-level rules of the battle calculator (unit
  creation, lookup, death, result, turn order, cooldowns, conditions, buff ticks, snapshots).
- `battle_calculator.dfy` (module `BattleCalc`): the round and battle loops and the
  `BattleCalculator` class.
- `config_data.dfy` (module `ConfigData`): the configuration records (`SkillConfigData`,
  `EffectData`, `AttributeModifierData`).
- `skill_config_validator.dfy` (module `ConfigValidator`): `SkillConfigValidator` and
  `ValidationResult`.
- `skill_templates.dfy` (module `Templates`): the `SkillTemplates` factories.
- `skill_config_manager.dfy` (module `SkillCatalog`): templates, the example catalogue and
  `SkillConfigManager`.
- `skill_config_loader.dfy` (module `ConfigLoader`): `SkillConfigLoader` over an abstract
  configuration directory.
- `server_battle_manager.dfy` (module `BattleServer`): `ServerBattleManager`.

How it is modelled:

- Objects whose fields the source updates in place are classes: `BuffManager`,
  `SkillExecutionEngine`, `BattleCalculator`, `ValidationResult`, `SkillConfigManager`,
  `SkillConfigLoader` and `ServerBattleManager`. Every method is proved against a specification
  function. The properties the source promises are lemmas about those functions.
- Battle units, buffs, actions and configurations are datatypes.
- The two rosters are sequences addressed by a side and a slot (`UnitRef`). The engine works on
  a sequence of units and two indices, so the case where a caster targets itself is exact.
- The random generator is an infinite stream of draws (`rng: nat -> real`) with a cursor. The
  random tie-break keys of the turn order are an input sequence.
- The generated GUID is the `battleId` argument.
- A thrown exception is a `None` result or a `faulted` flag, which the server's `catch` turns into
  an error response.
- C# `float` is modelled as `real`. Integer fields are unbounded.

Interpretations where the code and its surroundings disagree (the code is followed):

- The skill module and the battle enums each declare an `EffectType` and a `SkillType`. They are
  merged by name: the skill module's `Buff` and the battle enum's `AddBuff` are one constructor
  (both are value 3).
- The battle data's `ActionType` enumeration (`Battle/Data/ServerBattleData.cs:243-256`) has no
  `AddBuff`, `Trigger`, `Shield` or `Dispel` member, yet `ConvertEffectTypeToActionType`
  (`Battle/Skill/SkillExecutionEngine.cs:372-376`) returns them. The model's `ActionType` gains
  these four constructors, so that every effect kind maps to the action of the same name.
- `DecideUnitAction` calls `ExecuteSkill` with four arguments, but the engine's method takes three.
  That call never runs in the model: `SelectSkillTargets` dereferences the null skill on the line
  before, and that throws first.
- `SelectTargetsBySelection` and `GetAllUnits` are stubs that return empty lists, and
  `OnRoundEnd` and `AddAdditionalAction` are empty. The engine therefore takes its target selection
  as a parameter, and the stub is `NoTargets`.
- The battle loop takes the unit decision procedure as a parameter (`Decider`). The source's own
  procedure is `AsWrittenDecider` (see Findings).

## Model

| member | source | states |
|---|---|---|
| Skills.NewSkillEffect | Battle/Skill/SkillDefinition.cs:115-119 | a new effect is certain to trigger, has an empty parameter bag and no duration, stacking or scaling |
| Skills.NewSkillDefinition | Battle/Skill/SkillDefinition.cs:78-82 | a new definition has no effects, no conditions, id 0, cooldown 0 and cost 0 |
| Skills.TickSpacing | Battle/Skill/SkillDefinition.cs:177-186 | a buff with a non-positive interval never ticks; otherwise a buff last fired in round r fires again exactly from round r + interval |
| BuffSystem.AttributeModifiers | Battle/Skill/SkillDefinition.cs:301-335 | a buff yields attack/defense/speed from its bonus parameters and a debuff yields attack/defense from the negated reduction parameters; any other kind yields no modifiers; each key is present exactly when its parameter is |
| BuffSystem.FirstMatch | Battle/Skill/SkillDefinition.cs:217 | the index found is the first buff from the same skill with the same effect kind, and none is found only when no buff matches |
| BuffSystem.AddBuffStacks | Battle/Skill/SkillDefinition.cs:213-224 | a stackable effect with a matching buff adds one stack up to `maxStacks` and resets the duration; no list grows, no id is spent, nothing else changes |
| BuffSystem.AddBuffAppends | Battle/Skill/SkillDefinition.cs:227-247 | otherwise exactly one new buff is appended, with the next id, one stack, the full duration and the source skill and kind; other units are untouched |
| BuffSystem.AddBuffPreservesValid | Battle/Skill/SkillDefinition.cs:205-247 | adding a buff keeps ids increasing in every list, unique across the table and below the next id |
| BuffSystem.RepeatedStackingIsCapped | Battle/Skill/SkillDefinition.cs:213-247 | applying a stackable effect n ≥ 1 times appends one buff whose stack count is min(n, maxStacks) |
| BuffSystem.WithoutId | Battle/Skill/SkillDefinition.cs:255-256 | `RemoveAll` by id keeps every other buff, drops that id from the list, and shrinks the list exactly when the id was there |
| BuffSystem.RemoveBuffCorrect | Battle/Skill/SkillDefinition.cs:251-257 | removal reports whether the unit had the buff, leaves none with that id, removes exactly the entry at that id's index and keeps the other buffs in order (the list is unchanged when the id is absent), touches no other unit and keeps the table valid |
| BuffSystem.CountDown | Battle/Skill/SkillDefinition.cs:276-293 | the backward loop leaves the counted-down survivors in order and returns the expired buffs, last position first |
| BuffSystem.UpdatePartition | Battle/Skill/SkillDefinition.cs:276-293 | every buff lands in exactly one output: it survives exactly when its remaining duration exceeds one; survivors are live, the expired are expired |
| BuffSystem.UpdateBuffsPreservesValid | Battle/Skill/SkillDefinition.cs:270-296 | the countdown keeps the table valid, and a buff with at most one round left is gone afterwards |
| BuffSystem.UpdateUnknownUnit | Battle/Skill/SkillDefinition.cs:272-274 | a unit with no entry changes nothing and expires nothing |
| BuffSystem.BuffManager.constructor | Battle/Skill/SkillDefinition.cs:197-200 | an empty table whose next buff id is 1 |
| BuffSystem.BuffManager.AddBuff | Battle/Skill/SkillDefinition.cs:205-248 | the table, the next id and the returned buff are those of the stack-or-append specification, and the invariant holds |
| BuffSystem.BuffManager.RemoveBuff | Battle/Skill/SkillDefinition.cs:251-257 | the table and the result are those of the removal specification, and the next id is unchanged |
| BuffSystem.BuffManager.UpdateBuffs | Battle/Skill/SkillDefinition.cs:270-296 | the table and the returned expired buffs are those of the countdown specification |
| BuffSystem.BuffManager.SetTickCounter | Battle/Core/BattleCalculator.cs:605 | writing a buff's tick counter through the live list changes only that field of that buff |
| BattleData.NewBattleUnit | Battle/Data/ServerBattleData.cs:32-88 | a new unit is alive, its four totals are zero and its rate fields take their declared defaults (hit 1, critical damage 1.5, ...) |
| BattleData.HpPercentBounds | Battle/Data/ServerBattleData.cs:93 | with health within bounds, the health fraction is in [0, 1] and is 1 exactly at full health |
| BattleData.NearDeathIsOneFifth | Battle/Data/ServerBattleData.cs:93-98 | a unit is near death exactly when at most a fifth of its maximum health is left, and always when its maximum is not positive |
| BattleData.NewBattleAction | Battle/Data/ServerBattleData.cs:222-226 | a new action has no targets, no data, no critical or miss flag and zero values |
| BattleData.NewBattleRound | Battle/Data/ServerBattleData.cs:112-116 | a new round carries its number, no actions and no snapshots |
| BattleData.NewCompleteBattleData | Battle/Data/ServerBattleData.cs:133-138 | a new record carries the battle id, no rounds and no result yet |
| SkillEngine.BaseAttribute | Battle/Skill/SkillExecutionEngine.cs:309-320 | any name other than the five stats reads 0 |
| SkillEngine.FinalAttribute | Battle/Skill/SkillExecutionEngine.cs:288-304 | the final attribute is never negative, is at least the base plus the truncated buff modifier, and is the clamped base without buffs |
| SkillEngine.EffectValue | Battle/Skill/SkillExecutionEngine.cs:271-283 | an unscaled effect's value is its base value, and a non-negative scale never lowers it |
| SkillEngine.AppendedBuffMovesAttribute | Battle/Skill/SkillExecutionEngine.cs:288-304 | a new buff with a non-negative modifier never lowers the attribute, and one with a non-positive modifier never raises it |
| SkillEngine.DamageAmountFacts | Battle/Skill/SkillExecutionEngine.cs:126-159 | damage that respects defence is at least 1; a critical hit on non-negative damage d deals d + d/2; otherwise d |
| SkillEngine.DamageUnits | Battle/Skill/SkillExecutionEngine.cs:151-156 | the target's health drops by the damage (floored at 0), the caster's dealt total and the target's received total rise by it, and nothing else changes, also when caster and target coincide |
| SkillEngine.HealStaysWithinMax | Battle/Skill/SkillExecutionEngine.cs:164-177 | a heal restores between 0 and the heal, never overheals, and tops up exactly when it covers the missing health |
| SkillEngine.ShieldEffect | Battle/Skill/SkillExecutionEngine.cs:198-220 | a shield installs a non-stacking Shield buff carrying the amount and duration |
| SkillEngine.DispelPartition | Battle/Skill/SkillExecutionEngine.cs:239-258 | a dispel keeps exactly the undispellable buffs, and kept plus removed add up to the list |
| SkillEngine.DispelRemoves | Battle/Skill/SkillExecutionEngine.cs:253-257 | removing the next dispellable snapshot buff by id from the live list leaves the kept prefix followed by the rest |
| SkillEngine.DispelPreservesValid | Battle/Skill/SkillExecutionEngine.cs:225-262 | a dispel keeps the buff table valid |
| SkillEngine.HandlerFor | Battle/Skill/SkillExecutionEngine.cs:89-111 | the corrected dispatch: the dispel routine serves exactly Dispel, Revive runs nothing, every other kind is as written |
| SkillEngine.ActionTypeFor | Battle/Skill/SkillExecutionEngine.cs:366-379 | seven effect kinds map to the action of the same name and every other kind to Damage, in both directions |
| SkillEngine.ActionFromEffect | Battle/Skill/SkillExecutionEngine.cs:347-361 | the drafted action names caster and target, carries the base value twice and the converted kind, and its skill id stays 0 |
| SkillEngine.DealDamage | Battle/Skill/SkillExecutionEngine.cs:151-156 | the three in-place unit updates equal `DamageUnits`, also when caster and target are the same unit |
| SkillEngine.DamageStepFacts | Battle/Skill/SkillExecutionEngine.cs:126-159 | a damage step keeps the roster and the buff table, keeps health in range for non-negative effects and draws once more only when the effect can crit |
| SkillEngine.HealStepFacts | Battle/Skill/SkillExecutionEngine.cs:164-177 | a heal step keeps the roster, the buffs and the draws, and keeps health in range |
| SkillEngine.HandlerStepFacts | Battle/Skill/SkillExecutionEngine.cs:89-111 | whatever the routine, the roster is kept, the buff table stays valid, health stays in range and the action keeps its parties |
| SkillEngine.ApplyEffectFacts | Battle/Skill/SkillExecutionEngine.cs:80-114 | one effect on one target skips exactly when the roll exceeds the probability; the action names caster and target; the roll costs one draw, or two for a critical-capable damage effect (corrected dispatch) |
| SkillEngine.EffectOutcomeSnoc | Battle/Skill/SkillExecutionEngine.cs:80-114 | one more target applies the effect in the state the earlier targets left and appends its action |
| SkillEngine.EffectOutcomeFacts | Battle/Skill/SkillExecutionEngine.cs:73-117 | over a target list: at most one action per target, one or two draws per target, and the roster, table validity and health range hold (corrected dispatch) |
| SkillEngine.InRange | Battle/Skill/SkillExecutionEngine.cs:61 | the targets a selector returns all name units |
| SkillEngine.EffectsOutcomeFacts | Battle/Skill/SkillExecutionEngine.cs:59-64 | the effect loop keeps the roster and table validity, never rewinds the draws, and reports only the caster's actions (corrected dispatch) |
| SkillEngine.ExecuteSkillFacts | Battle/Skill/SkillExecutionEngine.cs:35-68 | a skill succeeds exactly when it is registered; an unregistered one reports its error message and changes nothing; a registered one keeps the roster and the table invariant (corrected dispatch) |
| SkillEngine.StubSelectionDoesNothing | Battle/Core/BattleCalculator.cs:371-379 | with the stub selection returning no targets, a registered skill does nothing at all |
| SkillEngine.DispelDispatch | Battle/Skill/SkillExecutionEngine.cs:89-111 | as written a successful Dispel effect only reports its action; corrected, it runs the dispel routine |
| SkillEngine.ReviveDispatch | Battle/Skill/SkillExecutionEngine.cs:108-110 | as written a successful Revive effect runs the dispel routine; corrected, it only reports its action |
| SkillEngine.OtherDispatch | Battle/Skill/SkillExecutionEngine.cs:89-111 | on every other kind, and whenever the roll fails, the two dispatches agree |
| SkillEngine.DispelEffectIgnoredAsWritten | Battle/Skill/SkillExecutionEngine.cs:89-111 | as written a positive dispel leaves a target's buff in place while the corrected dispatch removes it |
| SkillEngine.RegisterAllKeys | Battle/Skill/SkillExecutionEngine.cs:396-402 | registering a list makes known exactly the old ids plus the list's |
| SkillEngine.RegisterAllLastWins | Battle/Skill/SkillExecutionEngine.cs:396-402 | each id maps to the last definition in the list that carries it, and unmentioned ids keep their definitions |
| SkillEngine.UpdateAllPreservesValid | Battle/Skill/SkillExecutionEngine.cs:407-413 | counting down every listed unit keeps the table valid, and changes nothing when no listed unit has buffs |
| SkillEngine.SkillExecutionEngine.constructor | Battle/Skill/SkillExecutionEngine.cs:18-24 | a fresh buff manager with an empty table, no skills and no draws taken |
| SkillEngine.SkillExecutionEngine.ExecuteSkill | Battle/Skill/SkillExecutionEngine.cs:35-68 | the new units, buffs, draws and result are those of the skill specification; registrations are unchanged (corrected dispatch) |
| SkillEngine.SkillExecutionEngine.ExecuteSkillEffect | Battle/Skill/SkillExecutionEngine.cs:73-117 | the new state and the actions are those of the per-target specification (corrected dispatch) |
| SkillEngine.SkillExecutionEngine.ApplyToTarget | Battle/Skill/SkillExecutionEngine.cs:80-111 | one target's roll and handler, as specified (corrected dispatch) |
| SkillEngine.SkillExecutionEngine.RunHandler | Battle/Skill/SkillExecutionEngine.cs:89-111 | the dispatch runs the routine the corrected handler names |
| SkillEngine.SkillExecutionEngine.ExecuteDamageEffect | Battle/Skill/SkillExecutionEngine.cs:126-159 | the new units, draws and action are the damage step's |
| SkillEngine.SkillExecutionEngine.ExecuteHealEffect | Battle/Skill/SkillExecutionEngine.cs:164-177 | the new units and action are the heal step's |
| SkillEngine.SkillExecutionEngine.ExecuteBuffEffect | Battle/Skill/SkillExecutionEngine.cs:182-193 | the buff is added to the target under the action's skill id, as specified |
| SkillEngine.SkillExecutionEngine.ExecuteShieldEffect | Battle/Skill/SkillExecutionEngine.cs:198-220 | the shield buff is added to the target, as specified |
| SkillEngine.SkillExecutionEngine.ExecuteDispelEffect | Battle/Skill/SkillExecutionEngine.cs:225-262 | the table and the action's count are the dispel specification's |
| SkillEngine.SkillExecutionEngine.DispelBuffs | Battle/Skill/SkillExecutionEngine.cs:239-258 | the loop over the snapshot yields the dispel table and count, and keeps the next buff id |
| SkillEngine.SkillExecutionEngine.CalculateEffectValue | Battle/Skill/SkillExecutionEngine.cs:271-283 | the result is `EffectValue` |
| SkillEngine.SkillExecutionEngine.GetUnitFinalAttribute | Battle/Skill/SkillExecutionEngine.cs:288-304 | the loop's sum gives `FinalAttribute` |
| SkillEngine.SkillExecutionEngine.RegisterSkillDefinition | Battle/Skill/SkillExecutionEngine.cs:388-391 | the definition is filed under its id, overwriting any earlier one |
| SkillEngine.SkillExecutionEngine.RegisterSkillDefinitions | Battle/Skill/SkillExecutionEngine.cs:396-402 | the registrations become `RegisterAll` of the list |
| SkillEngine.SkillExecutionEngine.UpdateAllBuffs | Battle/Skill/SkillExecutionEngine.cs:407-413 | every listed unit's buffs are counted down in list order |
| CombatRules.CreatePlayerUnit | Battle/Core/BattleCalculator.cs:730-849 | the unit carries the hero's uid, the truncated hp, attack, defense, speed and mp, and the verbatim rates, and starts alive at full health with zero totals |
| CombatRules.CreatedUnitAtFullHealth | Battle/Core/BattleCalculator.cs:730-849 | a hero with at least one hit point enters alive, at full health and not near death |
| CombatRules.Put | Battle/Core/BattleCalculator.cs:414-418 | replacing the unit a reference denotes leaves every other unit and both roster sizes as they were |
| CombatRules.AllRefs | Battle/Core/BattleCalculator.cs:416 | all units, players first, then enemies, in slot order |
| CombatRules.AllRefsListsEveryUnitOnce | Battle/Core/BattleCalculator.cs:416 | every unit is listed exactly once |
| CombatRules.FindIn | Battle/Core/BattleCalculator.cs:417 | `Find` returns the first unit with the id, and nothing only when no unit has it |
| CombatRules.GetUnitById | Battle/Core/BattleCalculator.cs:414-418 | the unit found carries the id, none is found exactly when no unit has it, and a player wins over an enemy with the same id |
| CombatRules.FoundRefs | Battle/Core/BattleCalculator.cs:425-432 | the units found carry requested ids, unknown ids are skipped, and every requested id that names a unit yields the unit `GetUnitById` finds |
| CombatRules.GetUnitByIds | Battle/Core/BattleCalculator.cs:420-435 | null exactly for an empty id list, otherwise at most one unit per id |
| CombatRules.GetUnitByIdsComplete | Battle/Core/BattleCalculator.cs:420-435 | for a non-empty id list, each unit found carries a requested id, and every requested id that names a unit yields that unit |
| CombatRules.MarkDead | Battle/Core/BattleCalculator.cs:444-448 | a unit stays alive exactly when it was alive with positive health; nothing else changes |
| CombatRules.CheckDeathEffect | Battle/Core/BattleCalculator.cs:440-450 | every listed unit passes through the death check, every other unit is untouched, nobody is revived |
| CombatRules.CheckDeathKeepsFinished | Battle/Core/BattleCalculator.cs:440-461 | a death check never reopens a finished battle |
| CombatRules.DetermineBattleResult | Battle/Core/BattleCalculator.cs:466-477 | Victory exactly when only players stand, Defeat exactly when only enemies stand, otherwise Draw; an unfinished battle is a Draw |
| CombatRules.InsertRef | Battle/Core/BattleCalculator.cs:406 | insertion adds exactly the one unit |
| CombatRules.SortRefs | Battle/Core/BattleCalculator.cs:406 | the sort is a permutation of its input |
| CombatRules.InsertRefOrdered | Battle/Core/BattleCalculator.cs:406 | inserting into an ordered list keeps it ordered |
| CombatRules.SortRefsOrdered | Battle/Core/BattleCalculator.cs:406 | the sort's output is ordered by speed and tie key |
| CombatRules.TurnOrder | Battle/Core/BattleCalculator.cs:398-409 | the turn order names only units |
| CombatRules.TurnOrderCorrect | Battle/Core/BattleCalculator.cs:398-409 | the turn order is a permutation of all units, fastest first, ties by ascending drawn key |
| CombatRules.InitialCooldowns | Battle/Core/BattleCalculator.cs:153-163 | every listed skill starts ready, and no other skill is in the table |
| CombatRules.SetCooldown | Battle/Core/BattleCalculator.cs:497-505 | the unit's table is created if missing, the skill's cooldown is set, and every other entry is kept |
| CombatRules.TickDown | Battle/Core/BattleCalculator.cs:510-524 | one pass keeps the unit's skills |
| CombatRules.UpdateCooldowns | Battle/Core/BattleCalculator.cs:510-524 | other units are untouched and an unknown unit is left alone |
| CombatRules.CooldownCountsDown | Battle/Core/BattleCalculator.cs:510-524 | after n updates a positive cooldown c reads max(0, c − n), and a non-positive one never moves |
| CombatRules.CooldownExpires | Battle/Core/BattleCalculator.cs:486-524 | a skill put on cooldown c becomes usable again after exactly c updates |
| CombatRules.CompareValues | Battle/Core/BattleCalculator.cs:570-582 | an operator other than the six is false |
| CombatRules.CompareComplements | Battle/Core/BattleCalculator.cs:570-582 | `==`/`!=`, `>`/`<=` and `<`/`>=` are complements |
| CombatRules.CountAlive | Battle/Core/BattleCalculator.cs:546-565 | the count is at most the number of units and positive exactly when someone is alive |
| CombatRules.ProcessBuffTick | Battle/Core/BattleCalculator.cs:614-642 | only the unit's health changes; a heal tick never exceeds the maximum, a damage tick never goes below 0 |
| CombatRules.TickKeepsHpInRange | Battle/Core/BattleCalculator.cs:614-642 | with non-negative amounts and stacks, a tick keeps health within [0, maxHp] |
| CombatRules.CloneUnit | Battle/Core/BattleCalculator.cs:704-721 | the snapshot copies identity, health, the three stats, liveness and the four totals; every other field takes its default |
| CombatRules.CloneIdempotent | Battle/Core/BattleCalculator.cs:704-721 | a snapshot of a snapshot is the snapshot |
| CombatRules.SnapshotById | Battle/Core/BattleCalculator.cs:688-699 | the corrected table gains exactly the units' ids |
| CombatRules.SnapshotTeam | Battle/Core/BattleCalculator.cs:690-693 | one team's loop gives `SnapshotById` |
| CombatRules.SnapshotByIdComplete | Battle/Core/BattleCalculator.cs:688-699 | with distinct ids every unit's snapshot sits under its id, and other entries are untouched |
| CombatRules.RoundEndStates | Battle/Core/BattleCalculator.cs:688-699 | the corrected round table is keyed by the ids of both sides |
| CombatRules.RoundEndStatesComplete | Battle/Core/BattleCalculator.cs:688-699 | with distinct ids the table holds one snapshot per unit of either side |
| CombatRules.AsWrittenSnapshotDropsPlayers | Battle/Core/BattleCalculator.cs:688-699 | as written, when there are at least as many enemies as players, every entry is an enemy |
| CombatRules.AsWrittenSnapshotCounterexample | Battle/Core/BattleCalculator.cs:688-699 | one against one: the as-written table holds only the enemy, the corrected one both units |
| BattleCalc.ApplyChanges | Battle/Core/BattleCalculator.cs:229-265 | a decision's unit updates replace exactly the units they name |
| BattleCalc.ExecuteActionSpec | Battle/Core/BattleCalculator.cs:270-292 | an action throws exactly when it has no targets; otherwise it keeps the rosters' sizes |
| BattleCalc.ExecuteActionOnlyKills | Battle/Core/BattleCalculator.cs:270-292 | a named target with no hit points left is dead after the action; an action only ever kills: each unit stays or passes the death check, and nobody dead comes back |
| BattleCalc.RoundSteps | Battle/Core/BattleCalculator.cs:201-214 | the turn loop keeps the rosters' sizes and records at most one action per turn |
| BattleCalc.RoundStepSkip | Battle/Core/BattleCalculator.cs:203 | a dead unit's turn is skipped without a check |
| BattleCalc.RoundStepCrash | Battle/Core/BattleCalculator.cs:205 | a decision that throws ends the round with the exception |
| BattleCalc.RoundStepPass | Battle/Core/BattleCalculator.cs:205-214 | a decision with no action applies its updates, then the finished check may end the round |
| BattleCalc.RoundStepAct | Battle/Core/BattleCalculator.cs:205-214 | a decision with an action executes and records it, then the finished check may end the round |
| BattleCalc.DeadUnitsAreSkipped | Battle/Core/BattleCalculator.cs:201-214 | a round where every listed unit is dead records and changes nothing |
| BattleCalc.PassingRoundIsEmpty | Battle/Core/BattleCalculator.cs:201-214 | if every decision passes without changes, the round is empty |
| BattleCalc.AsWrittenRoundCrashes | Battle/Core/BattleCalculator.cs:239-243 | with the as-written decision the round throws exactly when some listed unit is alive, and the rosters are untouched |
| BattleCalc.RoundDescription | Battle/Core/BattleCalculator.cs:854-860 | the description is never empty, and it starts with the round-number text exactly when there are no actions |
| BattleCalc.PlayRound | Battle/Core/BattleCalculator.cs:193-224 | a round keeps the rosters' sizes and carries its number (corrected snapshot) |
| BattleCalc.RoundsPlaysRounds | Battle/Core/BattleCalculator.cs:193-224 | the concrete round player plays every round as `ExecuteRound` does (corrected snapshot) |
| BattleCalc.PlayBattleRoundCount | Battle/Core/BattleCalculator.cs:176 | a battle never records more rounds than the cap leaves |
| BattleCalc.RoundsKeepNumber | Battle/Core/BattleCalculator.cs:195-198 | every round carries the number it was asked to play |
| BattleCalc.PlayBattleNumbering | Battle/Core/BattleCalculator.cs:174-184 | rounds are numbered consecutively |
| BattleCalc.PlayBattleStep | Battle/Core/BattleCalculator.cs:176-184 | one pass of the battle loop, unfolded |
| BattleCalc.PlayBattleEndsFinished | Battle/Core/BattleCalculator.cs:176 | a battle that stops before the cap without an exception has one side wiped out |
| BattleCalc.AsWrittenBattleCrashes | Battle/Core/BattleCalculator.cs:239-243 | as written, a battle throws exactly when it is not already over before round 1 |
| BattleCalc.CreateTeam | Battle/Core/BattleCalculator.cs:121-148 | slot i holds the unit made from hero i |
| BattleCalc.NewBattleFinishedIffTeamEmpty | Battle/Core/BattleCalculator.cs:455-461 | a new battle is already over exactly when a team is empty |
| BattleCalc.CalculateBattleFacts | Battle/Core/BattleCalculator.cs:60-88 | a completed record carries the battle id and at most 30 rounds numbered from 1, counts them in `totalRounds` and has the verdict on the final rosters as its result; a battle ending with both sides standing played all 30 rounds and is a Draw, and a Draw before the cap means both sides were wiped out; with an empty team it has no rounds (corrected snapshot) |
| BattleCalc.AsWrittenCalculateBattleCrashes | Battle/Core/BattleCalculator.cs:60-88 | as written, the calculation throws exactly when both teams are non-empty |
| BattleCalc.BattleStops | Battle/Core/BattleCalculator.cs:176 | nothing is played once a side is wiped out or the cap is passed |
| BattleCalc.BattleCalculator.constructor | Battle/Core/BattleCalculator.cs:33-48 | empty rosters, turn order and skill tables |
| BattleCalc.BattleCalculator.GetUnitSkills | Battle/Core/BattleCalculator.cs:101-104 | an unknown unit has no skills |
| BattleCalc.BattleCalculator.GetUnitSkillCooldowns | Battle/Core/BattleCalculator.cs:109-112 | an unknown unit has an empty table |
| BattleCalc.BattleCalculator.InitializePlayerUnits | Battle/Core/BattleCalculator.cs:121-132 | the player roster is `CreateTeam` of the team |
| BattleCalc.BattleCalculator.InitializeEnemyUnits | Battle/Core/BattleCalculator.cs:137-148 | the enemy roster is `CreateTeam` of the team |
| BattleCalc.BattleCalculator.InitializeUnitSkills | Battle/Core/BattleCalculator.cs:153-163 | the unit's skills are replaced, and none of its skills is on cooldown |
| BattleCalc.BattleCalculator.SetSkillCooldown | Battle/Core/BattleCalculator.cs:497-505 | the cooldown table becomes `SetCooldown` of the old one |
| BattleCalc.BattleCalculator.UpdateSkillCooldowns | Battle/Core/BattleCalculator.cs:510-524 | the loop over a snapshot of the keys gives `UpdateCooldowns` |
| BattleCalc.BattleCalculator.CanUseSkill | Battle/Core/BattleCalculator.cs:529-541 | a skill is usable exactly when every condition holds |
| BattleCalc.BattleCalculator.CalculateTurnOrder | Battle/Core/BattleCalculator.cs:398-409 | the turn order becomes `TurnOrder` of the rosters |
| BattleCalc.BattleCalculator.CheckUnitDeath | Battle/Core/BattleCalculator.cs:440-450 | the rosters become `CheckDeath` of the old ones |
| BattleCalc.BattleCalculator.ExecuteAction | Battle/Core/BattleCalculator.cs:270-292 | it faults exactly when the specification throws, leaving the rosters as they were; otherwise it leaves the specified rosters |
| BattleCalc.BattleCalculator.SaveRoundEndStates | Battle/Core/BattleCalculator.cs:688-699 | the round gains an id-keyed snapshot of both teams (the corrected form) |
| BattleCalc.BattleCalculator.TakeTurn | Battle/Core/BattleCalculator.cs:201-214 | one turn is the first step of `RoundSteps` |
| BattleCalc.BattleCalculator.RunTurns | Battle/Core/BattleCalculator.cs:201-214 | the loop's rosters, actions and fault are `RoundSteps` of the turn order |
| BattleCalc.BattleCalculator.ExecuteRound | Battle/Core/BattleCalculator.cs:193-224 | the rosters, fault and round are those of the round player (corrected snapshot) |
| BattleCalc.BattleCalculator.ExecuteBattle | Battle/Core/BattleCalculator.cs:172-188 | the rosters and the fault are those of `PlayBattle` from round 1; without a fault the record holds its rounds and the result of the final rosters (corrected snapshot) |
| BattleCalc.BattleCalculator.NextRound | Battle/Core/BattleCalculator.cs:178-183 | one pass plays a round and either faults or continues from the new rosters (corrected snapshot) |
| BattleCalc.BattleCalculator.CalculateBattle | Battle/Core/BattleCalculator.cs:60-88 | the returned record, or the exception, is `CalculateBattleSpec` (corrected snapshot) |
| BattleCalc.BattleCalculator.FinishBattle | Battle/Core/BattleCalculator.cs:77-87 | the record is the run's rounds, result and round count |
| ConfigValidator.ConfigErrors | Battle/Config/SkillConfigValidator.cs:15-71 | a null configuration gets exactly the null error; otherwise each failed requirement gives one message, at most four, none exactly when all four hold |
| ConfigValidator.ConfigWarnings | Battle/Config/SkillConfigValidator.cs:50-53 | at most one warning, present exactly for a priority outside 1..10 |
| ConfigValidator.PriorityNeverFails | Battle/Config/SkillConfigValidator.cs:50-53 | the priority never changes the errors |
| ConfigValidator.SummaryText | Battle/Config/SkillConfigValidator.cs:102-125 | a clean result reads as a pass, and the summary starts with the verdict header |
| ConfigValidator.SummaryReportsVerdict | Battle/Config/SkillConfigValidator.cs:15-125 | the summary reports a pass exactly when the configuration is acceptable |
| ConfigValidator.ValidationResult.constructor | Battle/Config/SkillConfigValidator.cs:86-90 | no errors and no warnings |
| ConfigValidator.ValidationResult.AddError | Battle/Config/SkillConfigValidator.cs:92-95 | the error is appended and the warnings are kept |
| ConfigValidator.ValidationResult.AddWarning | Battle/Config/SkillConfigValidator.cs:97-100 | the warning is appended and the errors are kept |
| ConfigValidator.ValidationResult.GetSummary | Battle/Config/SkillConfigValidator.cs:102-125 | the summary is `SummaryText` of the two lists |
| ConfigValidator.ValidateSkillConfig | Battle/Config/SkillConfigValidator.cs:15-32 | a fresh result holding exactly the configuration's errors and warnings, in check order |
| ConfigValidator.ValidateBasicFields | Battle/Config/SkillConfigValidator.cs:37-59 | appends the id, cost and target-count errors and the priority warning |
| ConfigValidator.ValidateSkillEffects | Battle/Config/SkillConfigValidator.cs:64-71 | appends one error for a null or empty effect list |
| Templates.CreateSkill | Battle/Config/SkillTemplates.cs:25-44 | the skill carries the id, has no warnings, and its only possible error is a non-positive id |
| Templates.CreateSkillIgnoresArguments | Battle/Config/SkillTemplates.cs:25-44 | every other argument is ignored: the result is an active, free, priority-1 single-enemy skill with one damage effect |
| Templates.ModifierFactories | Battle/Config/SkillTemplates.cs:51-102 | the four factories build additive modifiers with the given value on four distinct attributes, and only the critical-rate one ignores the percentage flag |
| SkillCatalog.EffectFromTemplate | Battle/Skill/SkillConfigManager.cs:367-405 | an expanded effect has the template's kind and parameters, its probability and duration from them (defaults 1 and 0) |
| SkillCatalog.SkillFromTemplate | Battle/Skill/SkillConfigManager.cs:351-409 | it throws exactly for an unknown template; otherwise id, name, kind and one expanded effect per effect template, in order |
| SkillCatalog.ApplyDefaultsStep | Battle/Skill/SkillConfigManager.cs:377-403 | the parameters can be copied one at a time in any order |
| SkillCatalog.CopyDefaults | Battle/Skill/SkillConfigManager.cs:377-403 | the copy loop, in whatever order the dictionary yields, gives `ApplyDefaults` |
| SkillCatalog.ValidateSkillDefinition | Battle/Skill/SkillConfigManager.cs:466-482 | accepts exactly the well-formed definitions |
| SkillCatalog.ExamplesFromWellFormed | Battle/Skill/SkillConfigManager.cs:220-346 | customising well-formed template skills gives seven well-formed examples |
| SkillCatalog.ExampleCatalogIds | Battle/Skill/SkillConfigManager.cs:220-346 | loaded examples fill exactly ids 1001..1007, each under its own id |
| SkillCatalog.SoundTemplateBuildsWellFormed | Battle/Skill/SkillConfigManager.cs:351-409 | a sound template, with a positive id and a name, builds a definition validation accepts |
| SkillCatalog.InitialTemplatesSound | Battle/Skill/SkillConfigManager.cs:59-202 | the six built-in templates are sound |
| SkillCatalog.ExamplesWellFormed | Battle/Skill/SkillConfigManager.cs:220-346 | with sound templates every example loads and validates |
| SkillCatalog.CustomisationsKeepWellFormed | Battle/Skill/SkillConfigManager.cs:224-258 | the example edits keep a definition well formed |
| SkillCatalog.WrittenOutExamplesWellFormed | Battle/Skill/SkillConfigManager.cs:261-343 | the three written-out examples are well formed |
| SkillCatalog.BuiltInExamplesWellFormed | Battle/Skill/SkillConfigManager.cs:59-346 | with the built-in templates the examples load and all validate |
| SkillCatalog.Lookup | Battle/Skill/SkillConfigManager.cs:418-421 | null exactly for an absent id, otherwise the entry |
| SkillCatalog.SkillsOfType | Battle/Skill/SkillConfigManager.cs:434-437 | exactly the catalogue's definitions of that kind |
| SkillCatalog.UpdateOverwritesOnlyItsId | Battle/Skill/SkillConfigManager.cs:442-445 | an update replaces only its own id and, by kind, gains the new definition and loses at most the one it replaced |
| SkillCatalog.SkillConfigManager.constructor | Battle/Skill/SkillConfigManager.cs:19-25 | templates registered, then exactly the seven examples loaded |
| SkillCatalog.SkillConfigManager.InitializeSkillTemplates | Battle/Skill/SkillConfigManager.cs:59-202 | the six built-in templates are registered by name |
| SkillCatalog.SkillConfigManager.CreateSkillFromTemplate | Battle/Skill/SkillConfigManager.cs:351-409 | the result is `SkillFromTemplate` |
| SkillCatalog.SkillConfigManager.LoadExampleSkills | Battle/Skill/SkillConfigManager.cs:220-346 | it succeeds exactly when the examples build, then adds all seven; on a throw it has added at most the entries before the failure |
| SkillCatalog.SkillConfigManager.GetSkillDefinition | Battle/Skill/SkillConfigManager.cs:418-421 | the result is `Lookup` |
| SkillCatalog.SkillConfigManager.GetAllSkillDefinitions | Battle/Skill/SkillConfigManager.cs:426-429 | every stored definition and nothing else, containing every by-kind query's result |
| SkillCatalog.SkillConfigManager.GetSkillsByType | Battle/Skill/SkillConfigManager.cs:434-437 | the result is `SkillsOfType` |
| SkillCatalog.SkillConfigManager.AddOrUpdateSkillDefinition | Battle/Skill/SkillConfigManager.cs:442-445 | files the definition under its own id |
| SkillCatalog.SkillConfigManager.GetSkillTemplate | Battle/Skill/SkillConfigManager.cs:450-453 | null exactly for an unknown name, otherwise the template stored under it |
| SkillCatalog.SkillConfigManager.AddSkillTemplate | Battle/Skill/SkillConfigManager.cs:458-461 | the template is filed under its name |
| SkillCatalog.SkillConfigManager.ReloadConfigurations | Battle/Skill/SkillConfigManager.cs:487-491 | when it completes the catalogue holds exactly the seven examples |
| ConfigLoader.FirstWinsKeepsFirst | Battle/Config/SkillConfigLoader.cs:142-148 | a key is stored exactly when some entry carries it, and the entry stored is the first that does |
| ConfigLoader.LoadedFromReadableFiles | Battle/Config/SkillConfigLoader.cs:131-159 | every entry of every readable file is loaded, and nothing else |
| ConfigLoader.SkillTableFirstWins | Battle/Config/SkillConfigLoader.cs:117-161 | the skill table holds exactly the ids the readable files list, each with its first skill |
| ConfigLoader.BuffTableFirstWins | Battle/Config/SkillConfigLoader.cs:166-214 | the buff table holds exactly the non-empty ids listed, each with its first buff |
| ConfigLoader.RecordedTimes | Battle/Config/SkillConfigLoader.cs:117-214 | exactly the readable files' paths are recorded, each with its last read time, and older records are kept |
| ConfigLoader.LoaderCheckWeakerThanValidator | Battle/Config/SkillConfigLoader.cs:243-259 | the loader's check is implied by the full validator and misses only the cost and target-count errors |
| ConfigLoader.RejectedGrow | Battle/Config/SkillConfigLoader.cs:224-233 | each skill looked at adds one to the count exactly when it is rejected |
| ConfigLoader.UntrackedFilesIgnored | Battle/Config/SkillConfigLoader.cs:264-290 | an untracked or deleted file never triggers a reload |
| ConfigLoader.SkillConfigLoader.constructor | Battle/Config/SkillConfigLoader.cs:58-76 | empty tables followed by a full load |
| ConfigLoader.SkillConfigLoader.LoadAllConfigs | Battle/Config/SkillConfigLoader.cs:96-112 | both tables reloaded and the write times recorded |
| ConfigLoader.SkillConfigLoader.LoadSkillConfigs | Battle/Config/SkillConfigLoader.cs:117-161 | the table is cleared, then refilled as `SkillTable`, and the readable files' times are recorded |
| ConfigLoader.SkillConfigLoader.InsertSkills | Battle/Config/SkillConfigLoader.cs:140-149 | one file's skills go in unless their id is taken |
| ConfigLoader.SkillConfigLoader.LoadBuffConfigs | Battle/Config/SkillConfigLoader.cs:166-214 | the table is cleared, then refilled as `BuffTable`, and the readable files' times are recorded |
| ConfigLoader.SkillConfigLoader.InsertBuffs | Battle/Config/SkillConfigLoader.cs:189-202 | one file's buffs go in unless their id is null, empty or taken |
| ConfigLoader.SkillConfigLoader.ValidateConfigs | Battle/Config/SkillConfigLoader.cs:220-238 | the count is the number of stored skills the check rejects |
| ConfigLoader.SkillConfigLoader.ValidateSkillConfig | Battle/Config/SkillConfigLoader.cs:243-259 | accepts exactly a positive id with at least one effect |
| ConfigLoader.SkillConfigLoader.HasChanges | Battle/Config/SkillConfigLoader.cs:268-283 | it reports a change exactly when a tracked, existing file is newer than recorded |
| ConfigLoader.SkillConfigLoader.CheckConfigChanges | Battle/Config/SkillConfigLoader.cs:264-290 | it reloads exactly on a change, and otherwise the store is unchanged |
| ConfigLoader.SkillConfigLoader.GetSkillConfig | Battle/Config/SkillConfigLoader.cs:297-300 | null exactly for an absent id, otherwise the stored entry |
| ConfigLoader.SkillConfigLoader.GetAllSkillConfigs | Battle/Config/SkillConfigLoader.cs:305-308 | a copy equal to the table |
| ConfigLoader.SkillConfigLoader.ManualReload | Battle/Config/SkillConfigLoader.cs:313-316 | both tables reloaded |
| BattleServer.ValidateBattleRequest | Battle/Logic/ServerBattleManager.cs:128-149 | valid exactly for a positive player id and two present teams of 1..6 heroes |
| BattleServer.Response | Battle/Logic/ServerBattleManager.cs:60-100 | an invalid request gets the invalid-parameters error; success exactly when a valid request's calculation completes, and only then do the id and record appear (corrected snapshot) |
| BattleServer.StoreAfter | Battle/Logic/ServerBattleManager.cs:80 | a failed request stores nothing; a successful one files exactly the returned record under the returned id (corrected snapshot) |
| BattleServer.StoredBattle | Battle/Logic/ServerBattleManager.cs:108-119 | null exactly for an unknown id, otherwise the stored record |
| BattleServer.SuccessfulBattleIsRetrievable | Battle/Logic/ServerBattleManager.cs:60-119 | a successful battle is filed under the request's id and a later query by any player finds it (corrected snapshot) |
| BattleServer.AsWrittenEveryRequestFails | Battle/Logic/ServerBattleManager.cs:76-99 | as written every valid request gets the internal-error response and stores nothing |
| BattleServer.ServerBattleManager.constructor | Battle/Logic/ServerBattleManager.cs:43-47 | an empty store and a fresh calculator |
| BattleServer.ServerBattleManager.HandleBattleRequest | Battle/Logic/ServerBattleManager.cs:60-100 | the response is `Response` and the store becomes `StoreAfter` (corrected snapshot) |
| BattleServer.ServerBattleManager.GetBattleData | Battle/Logic/ServerBattleManager.cs:108-119 | the result is `StoredBattle` of the store, whatever the player id |

## Left out

- File I/O and JSON: a configuration directory is an input value, missing or a list of files with a path, a write time and the parsed entries. An unreadable or unparsable file has no entries. A file whose array contains null elements is not modelled.
- Timers, events, logging (`Console.WriteLine`), the singleton accessors and `LogBattleStart`: none of them affects the computed data.
- Concurrency: the model handles one battle request at a time. `HandleBattleRequest` runs the calculation with `Task.Run` on the one `BattleCalculator` the server owns and then writes the shared `_activeBattles` dictionary. Overlapping requests would interleave on the calculator's rosters, turn order and battle record and on that dictionary, and could return corrupted records; this is not modelled.
- `DateTime.Now` start and end times and the battle statistics: the timestamps are not modelled, and `CalculateBattleStatistics` and `UpdateActionStatistics` are empty in the source.
- `BuffConfigData.stackType` and `tickEffect`: the type of `tickEffect` is not defined in the modelled files.
- The duplicate `BuffConfigData` with an integer id in `SkillConfigData.cs`, `CardConfigData` and `AIPreferences`: nothing in the core reads them.
- `SkillConfigExamples.cs`, `BattleController`, `BattleServerExample` and `SkillSystemExample`: these are demonstrations and an HTTP front, not part of the core.
- Floating point: C# `float` is modelled as `real`, with the `(int)` cast and `Convert.ToInt32` written out. Rounding of single-precision arithmetic is not modelled.
- `ProcessBuffEffects`, `OnRoundStart` and `AddTickDamageAction`/`AddTickHealAction`: they only ever run over `GetAllUnits()`, which returns no units, and the actions are handed to the empty `AddAdditionalAction`. The per-unit tick (`ProcessBuffTick`) and the counter write (`SetTickCounter`) are modelled.
- `ExecuteDamageAction` and `ExecuteSkillAction` are empty in the source. `ExecuteAction` is modelled as the death check of its targets.
- `SelectSkillTargets` and `SelectTargetsBySelection` return no targets in the source. The engine takes a selector parameter instead, and the stub is `NoTargets`.
- The skill effects' `targetSelection` (AllEnemies, LowestHpAlly, Self, SingleAlly in the templates and examples of `Battle/Skill/SkillConfigManager.cs`): `SkillEffect` declares no such field and `TargetSelection` is not declared in the modelled files, so every effect keeps the default `SingleEnemy`. Target choice is the engine's selector parameter.
- `DecideUnitAction` is a parameter of the battle loop; its as-written behaviour is `AsWrittenDecider`.
- SkillCatalog.SkillConfigManager.GetAllSkillDefinitions and SkillCatalog.SkillConfigManager.GetSkillsByType return sets: the order of the lists the source builds from the dictionary is not modelled, since C# leaves a dictionary's enumeration order unspecified.
- Integer widths: ids, hit points and counters are unbounded integers. No 32-bit overflow is modelled.
- BattleCalc.BattleCalculator.SaveRoundEndStates: implements the corrected id-keyed table, not the slot-keyed one as written. The as-written table is `CombatRules.RoundEndStatesAsWritten` (see Findings). Every member that plays a round inherits the corrected snapshot: `BattleCalc.PlayRound`, `BattleCalc.RoundsPlaysRounds`, `BattleCalc.CalculateBattleFacts`, `BattleCalc.BattleCalculator.ExecuteRound`, `BattleCalc.BattleCalculator.ExecuteBattle`, `BattleCalc.BattleCalculator.NextRound`, `BattleCalc.BattleCalculator.CalculateBattle`, and through them `BattleServer.Response`, `BattleServer.StoreAfter`, `BattleServer.SuccessfulBattleIsRetrievable` and `BattleServer.ServerBattleManager.HandleBattleRequest`. Their round-end snapshots are those of the corrected program, not of lines 688-699 as written.
- SkillEngine.SkillExecutionEngine.RunHandler: runs the corrected dispatch. The as-written dispatch is `SkillEngine.HandlerAsWritten` (see Findings). Every member that applies an effect inherits it: `SkillEngine.ApplyEffectFacts`, `SkillEngine.EffectOutcomeFacts`, `SkillEngine.EffectsOutcomeFacts`, `SkillEngine.ExecuteSkillFacts`, `SkillEngine.SkillExecutionEngine.ApplyToTarget`, `SkillEngine.SkillExecutionEngine.ExecuteSkillEffect` and `SkillEngine.SkillExecutionEngine.ExecuteSkill`. On a Dispel or Revive effect they compute the corrected program, not lines 108-110 as written.
- SkillCatalog.SkillConfigManager.LoadExampleSkills: on a throw, it states only which ids may have been added, not their values.

## Findings

| source | as written | input that shows it | evidently intended | confidence | as-written member | corrected member |
|---|---|---|---|---|---|---|
| Battle/Skill/SkillExecutionEngine.cs:108-110 | the `Revive` case calls `ExecuteDispelEffect`, and no case handles `Dispel` | a Dispel effect with `dispelPositive` on a target carrying a Buff-kind buff: the buff stays, while a Revive effect strips buffs | `Dispel` runs the dispel routine and `Revive` does not | not executed | SkillEngine.DispelEffectIgnoredAsWritten | SkillEngine.HandlerFor |
| Battle/Core/BattleCalculator.cs:688-699 | both loops store snapshots under the dictionary key (the slot index), so the enemy in slot i overwrites the player in slot i | one player (id 7) against one enemy (id 9): the table holds only the enemy, under key 0 | one snapshot per unit, keyed by unit id | not executed | CombatRules.AsWrittenSnapshotCounterexample | CombatRules.RoundEndStatesComplete |
| Battle/Core/BattleCalculator.cs:239-243 | `selectedSkill` is always null and is dereferenced, so every living unit's turn throws | any valid request with two non-empty teams: the server answers with its internal-error message and stores nothing | a unit picks a usable skill and acts | not executed | BattleServer.AsWrittenEveryRequestFails | BattleServer.SuccessfulBattleIsRetrievable |
