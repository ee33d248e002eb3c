/** `BuffManager` of Battle/Skill/SkillDefinition.cs: the per-unit lists of live buffs with a
    global id counter, the stack-or-append rule, removal by id, the per-round countdown and the
    attribute modifiers a new buff derives from its effect's parameter bag. The list operations
    are stated first as functions on the table; the class below performs them in place and is
    proved equal to them. */
module BuffSystem {
  import opened Common
  import opened Skills

  /** unit id -> that unit's live buffs, in insertion order */
  type BuffTable = map<int, seq<BuffState>>

  /** `GetUnitBuffs`: the unit's list, or an empty one for a unit with no entry. */
  function UnitBuffs(table: BuffTable, unitId: int): seq<BuffState>
  {
    if unitId in table then table[unitId] else []
  }

  function IdSet(s: seq<BuffState>): set<int>
  {
    if s == [] then {} else {s[0].buffId} + IdSet(s[1..])
  }

  ghost predicate IncreasingIds(s: seq<BuffState>)
  {
    forall i, j :: 0 <= i < j < |s| ==> s[i].buffId < s[j].buffId
  }

  /** The manager's invariant: within a list ids strictly increase (so insertion order is id
      order), every id was issued by the counter, and no id appears under two units. */
  ghost predicate ValidTable(table: BuffTable, nextId: int)
  {
    && nextId >= 1
    && (forall u :: u in table ==> IncreasingIds(table[u]))
    && (forall u, id :: u in table && id in IdSet(table[u]) ==> 1 <= id < nextId)
    && (forall u, v :: u in table && v in table && u != v ==> IdSet(table[u]) !! IdSet(table[v]))
  }

  lemma {:induction false} IdSetIndex(s: seq<BuffState>, i: int)
    requires 0 <= i < |s|
    ensures s[i].buffId in IdSet(s)
  {
    if i > 0 {
      IdSetIndex(s[1..], i - 1);
    }
  }

  lemma {:induction false} IdSetAppend(s: seq<BuffState>, b: BuffState)
    ensures IdSet(s + [b]) == IdSet(s) + {b.buffId}
  {
    if s != [] {
      assert (s + [b])[1..] == s[1..] + [b];
      IdSetAppend(s[1..], b);
    } else {
      assert [b][1..] == [];
    }
  }

  lemma {:induction false} IdSetUpdate(s: seq<BuffState>, i: int, b: BuffState)
    requires 0 <= i < |s| && b.buffId == s[i].buffId
    ensures IdSet(s[i := b]) == IdSet(s)
  {
    if i > 0 {
      assert s[i := b][1..] == s[1..][i - 1 := b];
      IdSetUpdate(s[1..], i - 1, b);
    } else {
      assert s[i := b][1..] == s[1..];
    }
  }

  lemma {:induction false} IdSetMember(s: seq<BuffState>, id: int) returns (i: nat)
    requires id in IdSet(s)
    ensures i < |s| && s[i].buffId == id
  {
    if s[0].buffId == id {
      i := 0;
    } else {
      var k := IdSetMember(s[1..], id);
      i := k + 1;
    }
  }

  lemma IncreasingTail(s: seq<BuffState>)
    requires s != [] && IncreasingIds(s)
    ensures IncreasingIds(s[1..])
    ensures forall id :: id in IdSet(s[1..]) ==> s[0].buffId < id
  {
    forall id | id in IdSet(s[1..]) ensures s[0].buffId < id {
      var k := IdSetMember(s[1..], id);
      assert s[1..][k] == s[k + 1];
    }
  }

  lemma IncreasingCons(b: BuffState, s: seq<BuffState>)
    requires IncreasingIds(s)
    requires forall id :: id in IdSet(s) ==> b.buffId < id
    ensures IncreasingIds([b] + s)
  {
    var t := [b] + s;
    forall i, j | 0 <= i < j < |t| ensures t[i].buffId < t[j].buffId {
      if i == 0 {
        IdSetIndex(s, j - 1);
      }
    }
  }

  // ---------------------------------------------------------------------------------------
  // Attribute modifiers

  /** `CalculateAttributeModifiers`: a Buff reads attackBonus/defenseBonus/speedBonus, a Debuff
      reads the negation of attackReduction/defenseReduction, any other kind gets nothing. */
  function AttributeModifiers(effect: SkillEffect): (r: map<string, real>)
    ensures r.Keys <= {"attack", "defense", "speed"}
    ensures effect.effectType != AddBuff && effect.effectType != Debuff ==> r == map[]
    ensures "attack" in r <==>
      (effect.effectType == AddBuff && "attackBonus" in effect.parameters) ||
      (effect.effectType == Debuff && "attackReduction" in effect.parameters)
    ensures "defense" in r <==>
      (effect.effectType == AddBuff && "defenseBonus" in effect.parameters) ||
      (effect.effectType == Debuff && "defenseReduction" in effect.parameters)
    ensures "speed" in r <==> effect.effectType == AddBuff && "speedBonus" in effect.parameters
    ensures effect.effectType == AddBuff ==>
      ("attack" in r ==> r["attack"] == ToSingle(effect.parameters["attackBonus"])) &&
      ("defense" in r ==> r["defense"] == ToSingle(effect.parameters["defenseBonus"])) &&
      ("speed" in r ==> r["speed"] == ToSingle(effect.parameters["speedBonus"]))
    ensures effect.effectType == Debuff ==>
      ("attack" in r ==> r["attack"] == -ToSingle(effect.parameters["attackReduction"])) &&
      ("defense" in r ==> r["defense"] == -ToSingle(effect.parameters["defenseReduction"]))
  {
    var p := effect.parameters;
    match effect.effectType
    case AddBuff =>
      var m1: map<string, real> := if "attackBonus" in p then map["attack" := ToSingle(p["attackBonus"])] else map[];
      var m2 := if "defenseBonus" in p then m1["defense" := ToSingle(p["defenseBonus"])] else m1;
      if "speedBonus" in p then m2["speed" := ToSingle(p["speedBonus"])] else m2
    case Debuff =>
      var m1: map<string, real> := if "attackReduction" in p then map["attack" := -ToSingle(p["attackReduction"])] else map[];
      if "defenseReduction" in p then m1["defense" := -ToSingle(p["defenseReduction"])] else m1
    case _ => map[]
  }

  // ---------------------------------------------------------------------------------------
  // AddBuff

  predicate StacksWith(b: BuffState, sourceSkillId: int, effectType: EffectType)
  {
    b.sourceSkillId == sourceSkillId && b.effect.effectType == effectType
  }

  /** `List.Find` with the stacking predicate: the index of the first buff from the same skill
      with the same effect kind. */
  function FirstMatch(list: seq<BuffState>, sourceSkillId: int, effectType: EffectType): (r: Option<nat>)
    ensures r.Some? ==> r.value < |list| && StacksWith(list[r.value], sourceSkillId, effectType)
    ensures r.Some? ==> forall j :: 0 <= j < r.value ==> !StacksWith(list[j], sourceSkillId, effectType)
    ensures r.None? ==> forall j :: 0 <= j < |list| ==> !StacksWith(list[j], sourceSkillId, effectType)
  {
    if list == [] then None
    else if StacksWith(list[0], sourceSkillId, effectType) then Some(0)
    else match FirstMatch(list[1..], sourceSkillId, effectType)
      case None => None
      case Some(k) => Some(k + 1)
  }

  /** The buff `AddBuff` creates when it does not stack. */
  function NewBuff(buffId: int, targetUnitId: int, effect: SkillEffect, sourceUnitId: int, sourceSkillId: int): BuffState
  {
    BuffState(
      buffId,
      "Skill_" + IntToText(sourceSkillId) + "_Effect_" + IntToText(effect.effectId),
      effect.effectType, sourceUnitId, targetUnitId, sourceSkillId,
      effect.duration, 1, 0, effect, AttributeModifiers(effect))
  }

  datatype AddResult = AddResult(table: BuffTable, nextId: int, buff: BuffState)

  /** `AddBuff` on the table: stack onto the first matching buff when the effect stacks,
      otherwise append a fresh buff with the next id. */
  function AddBuffSpec(table: BuffTable, nextId: int, targetUnitId: int, effect: SkillEffect,
                       sourceUnitId: int, sourceSkillId: int): AddResult
  {
    var list := UnitBuffs(table, targetUnitId);
    var found := if effect.canStack then FirstMatch(list, sourceSkillId, effect.effectType) else None;
    if found.Some? then
      var prior := list[found.value];
      var b := prior.(currentStacks := Min(prior.currentStacks + 1, effect.maxStacks),
                     remainingDuration := effect.duration);
      AddResult(table[targetUnitId := list[found.value := b]], nextId, b)
    else
      var b := NewBuff(nextId, targetUnitId, effect, sourceUnitId, sourceSkillId);
      AddResult(table[targetUnitId := list + [b]], nextId + 1, b)
  }

  /** Stacking: no list grows, the first matching buff gains a stack up to the cap and its
      duration is reset, nothing else changes and no id is spent. */
  lemma AddBuffStacks(table: BuffTable, nextId: int, target: int, effect: SkillEffect, source: int, skill: int, i: nat)
    requires effect.canStack
    requires FirstMatch(UnitBuffs(table, target), skill, effect.effectType) == Some(i)
    ensures var r := AddBuffSpec(table, nextId, target, effect, source, skill);
      var list := UnitBuffs(table, target);
      && r.nextId == nextId
      && r.table.Keys == table.Keys + {target}
      && |r.table[target]| == |list|
      && r.table[target][i] == r.buff
      && r.buff == list[i].(currentStacks := Min(list[i].currentStacks + 1, effect.maxStacks),
                            remainingDuration := effect.duration)
      && r.buff.currentStacks <= effect.maxStacks
      && (forall j :: 0 <= j < |list| && j != i ==> r.table[target][j] == list[j])
      && (forall u :: u in table && u != target ==> r.table[u] == table[u])
  {
  }

  /** Appending: exactly one new buff with one stack, the effect's full duration and the next id. */
  lemma AddBuffAppends(table: BuffTable, nextId: int, target: int, effect: SkillEffect, source: int, skill: int)
    requires !effect.canStack || FirstMatch(UnitBuffs(table, target), skill, effect.effectType).None?
    ensures var r := AddBuffSpec(table, nextId, target, effect, source, skill);
      && r.nextId == nextId + 1
      && r.table[target] == UnitBuffs(table, target) + [r.buff]
      && r.buff.buffId == nextId && r.buff.currentStacks == 1
      && r.buff.remainingDuration == effect.duration
      && r.buff.sourceSkillId == skill && r.buff.buffType == effect.effectType
      && (forall u :: u in table && u != target ==> r.table[u] == table[u])
  {
  }

  /** Adding a buff keeps ids increasing within each list and unique across the table. */
  lemma AddBuffPreservesValid(table: BuffTable, nextId: int, target: int, effect: SkillEffect, source: int, skill: int)
    requires ValidTable(table, nextId)
    ensures var r := AddBuffSpec(table, nextId, target, effect, source, skill);
      ValidTable(r.table, r.nextId)
  {
    var r := AddBuffSpec(table, nextId, target, effect, source, skill);
    var list := UnitBuffs(table, target);
    var found := if effect.canStack then FirstMatch(list, skill, effect.effectType) else None;
    if found.Some? {
      var i := found.value;
      IdSetUpdate(list, i, r.buff);
      assert IdSet(r.table[target]) == IdSet(list);
      assert r.table[target] == list[i := r.buff];
      forall u | u in r.table ensures IncreasingIds(r.table[u]) {
        if u == target {
          var t := r.table[target];
          forall a, b | 0 <= a < b < |t| ensures t[a].buffId < t[b].buffId {
            assert t[a].buffId == list[a].buffId && t[b].buffId == list[b].buffId;
          }
        }
      }
    } else {
      var b := r.buff;
      IdSetAppend(list, b);
      forall u | u in r.table ensures IncreasingIds(r.table[u]) {
        if u == target {
          var t := r.table[target];
          assert t == list + [b];
          forall x, y | 0 <= x < y < |t| ensures t[x].buffId < t[y].buffId {
            if y == |list| {
              IdSetIndex(list, x);
            }
          }
        }
      }
      forall u, v | u in r.table && v in r.table && u != v ensures IdSet(r.table[u]) !! IdSet(r.table[v]) {
        if u == target {
          assert IdSet(r.table[v]) == IdSet(table[v]);
        } else if v == target {
          assert IdSet(r.table[u]) == IdSet(table[u]);
        }
      }
    }
  }

  /** Applying the same effect `n` times. */
  function AddRepeatedly(table: BuffTable, nextId: int, target: int, effect: SkillEffect,
                         source: int, skill: int, n: nat): AddResult
    decreases n
  {
    if n == 0 then AddResult(table, nextId, NewBuff(nextId, target, effect, source, skill))
    else
      var r := AddRepeatedly(table, nextId, target, effect, source, skill, n - 1);
      AddBuffSpec(r.table, r.nextId, target, effect, source, skill)
  }

  /** A stackable effect applied n >= 1 times to a unit with no matching buff yields one buff,
      appended once, whose stack count is min(n, maxStacks): it never exceeds the cap. */
  lemma {:induction false} RepeatedStackingIsCapped(table: BuffTable, nextId: int, target: int,
                                                     effect: SkillEffect, source: int, skill: int, n: nat)
    requires effect.canStack && effect.maxStacks >= 1 && n >= 1
    requires FirstMatch(UnitBuffs(table, target), skill, effect.effectType).None?
    ensures var r := AddRepeatedly(table, nextId, target, effect, source, skill, n);
      var list := UnitBuffs(table, target);
      && r.nextId == nextId + 1
      && |r.table[target]| == |list| + 1
      && r.table[target][..|list|] == list
      && r.table[target][|list|] == r.buff
      && r.buff.buffId == nextId
      && r.buff.currentStacks == Min(n, effect.maxStacks)
      && r.buff.remainingDuration == effect.duration
  {
    var list := UnitBuffs(table, target);
    if n == 1 {
      AddBuffAppends(table, nextId, target, effect, source, skill);
    } else {
      RepeatedStackingIsCapped(table, nextId, target, effect, source, skill, n - 1);
      var r := AddRepeatedly(table, nextId, target, effect, source, skill, n - 1);
      var l := r.table[target];
      assert StacksWith(l[|list|], skill, effect.effectType);
      var f := FirstMatch(l, skill, effect.effectType);
      assert f.Some? && f.value == |list| by {
        forall j | 0 <= j < |list| ensures !StacksWith(l[j], skill, effect.effectType) {
          assert l[j] == l[..|list|][j];
        }
      }
      assert UnitBuffs(r.table, target) == l;
      AddBuffStacks(r.table, r.nextId, target, effect, source, skill, |list|);
      var r2 := AddBuffSpec(r.table, r.nextId, target, effect, source, skill);
      assert r2.table[target][..|list|] == l[..|list|];
    }
  }

  // ---------------------------------------------------------------------------------------
  // RemoveBuff

  /** `RemoveAll(b => b.buffId == id)`: every other buff, in the original order. */
  function WithoutId(list: seq<BuffState>, buffId: int): (r: seq<BuffState>)
    ensures |r| <= |list|
    ensures IdSet(r) == IdSet(list) - {buffId}
    ensures |r| < |list| <==> buffId in IdSet(list)
    ensures forall b :: b in r ==> b in list
  {
    if list == [] then []
    else if list[0].buffId == buffId then WithoutId(list[1..], buffId)
    else [list[0]] + WithoutId(list[1..], buffId)
  }

  datatype RemoveResult = RemoveResult(table: BuffTable, removed: bool)

  /** `RemoveBuff` on the table. */
  function RemoveBuffSpec(table: BuffTable, unitId: int, buffId: int): RemoveResult
  {
    if unitId !in table then RemoveResult(table, false)
    else RemoveResult(table[unitId := WithoutId(table[unitId], buffId)], buffId in IdSet(table[unitId]))
  }

  lemma {:induction false} WithoutIdKeepsIncreasing(list: seq<BuffState>, buffId: int)
    requires IncreasingIds(list)
    ensures IncreasingIds(WithoutId(list, buffId))
  {
    if list != [] {
      IncreasingTail(list);
      WithoutIdKeepsIncreasing(list[1..], buffId);
      if list[0].buffId != buffId {
        IncreasingCons(list[0], WithoutId(list[1..], buffId));
      }
    }
  }

  /** Removal reports whether the unit had a buff with that id; afterwards none is left, the
      unit's other buffs keep their order, the other units are untouched and the manager's
      invariant still holds. */
  lemma RemoveBuffCorrect(table: BuffTable, nextId: int, unitId: int, buffId: int)
    requires ValidTable(table, nextId)
    ensures var r := RemoveBuffSpec(table, unitId, buffId);
      && (r.removed <==> buffId in IdSet(UnitBuffs(table, unitId)))
      && buffId !in IdSet(UnitBuffs(r.table, unitId))
      && (r.removed ==> |UnitBuffs(r.table, unitId)| == |UnitBuffs(table, unitId)| - 1)
      && (forall k :: 0 <= k < |UnitBuffs(table, unitId)| && UnitBuffs(table, unitId)[k].buffId == buffId ==>
            UnitBuffs(r.table, unitId) == UnitBuffs(table, unitId)[..k] + UnitBuffs(table, unitId)[k + 1..])
      && (!r.removed ==> UnitBuffs(r.table, unitId) == UnitBuffs(table, unitId))
      && (forall u :: u in table && u != unitId ==> r.table[u] == table[u])
      && ValidTable(r.table, nextId)
  {
    if unitId in table {
      var list := table[unitId];
      WithoutIdKeepsIncreasing(list, buffId);
      forall k | 0 <= k < |list| && list[k].buffId == buffId
        ensures WithoutId(list, buffId) == list[..k] + list[k + 1..]
      {
        WithoutIdUnique(list, buffId, k);
      }
      if buffId !in IdSet(list) {
        forall j | 0 <= j < |list| ensures list[j].buffId != buffId {
          IdSetIndex(list, j);
        }
        WithoutIdAbsent(list, buffId);
      } else {
        var k := IdSetMember(list, buffId);
        WithoutIdUnique(list, buffId, k);
      }
    }
  }

  lemma {:induction false} WithoutIdUnique(list: seq<BuffState>, buffId: int, k: nat)
    requires IncreasingIds(list) && k < |list| && list[k].buffId == buffId
    ensures WithoutId(list, buffId) == list[..k] + list[k + 1..]
  {
    var tail := list[1..];
    if k == 0 {
      forall j | 0 <= j < |tail| ensures tail[j].buffId != buffId {
        assert tail[j] == list[j + 1];
      }
      WithoutIdAbsent(tail, buffId);
      assert list[..0] + list[1..] == tail;
    } else {
      assert list[0].buffId != buffId by { assert list[0].buffId < list[k].buffId; }
      IncreasingTail(list);
      WithoutIdUnique(tail, buffId, k - 1);
      DropOneFromTail(list, k);
    }
  }

  /** Removing index `k - 1` of the tail and putting the head back removes index `k`. */
  lemma DropOneFromTail(list: seq<BuffState>, k: nat)
    requires 0 < k < |list|
    ensures [list[0]] + (list[1..][..k - 1] + list[1..][k..]) == list[..k] + list[k + 1..]
  {
    assert list[1..][..k - 1] == list[1..k];
    assert list[1..][k..] == list[k + 1..];
    assert [list[0]] + list[1..k] == list[..k];
  }

  lemma {:induction false} WithoutIdAbsent(list: seq<BuffState>, buffId: int)
    requires forall j :: 0 <= j < |list| ==> list[j].buffId != buffId
    ensures WithoutId(list, buffId) == list
  {
    if list != [] {
      WithoutIdAbsent(list[1..], buffId);
    }
  }

  // ---------------------------------------------------------------------------------------
  // UpdateBuffs

  /** One round of countdown for one buff: a positive remaining duration drops by one. */
  function Tick(b: BuffState): BuffState
  {
    if b.remainingDuration > 0 then b.(remainingDuration := b.remainingDuration - 1) else b
  }

  /** The buffs that outlive one countdown, counted down, in their original order. */
  function Survivors(list: seq<BuffState>): seq<BuffState>
  {
    if list == [] then []
    else (if IsExpired(Tick(list[0])) then [] else [Tick(list[0])]) + Survivors(list[1..])
  }

  /** The buffs that expire in one countdown, in the order the backward loop collects them
      (last list position first). */
  function ExpiredRev(list: seq<BuffState>): seq<BuffState>
  {
    if list == [] then []
    else ExpiredRev(list[1..]) + (if IsExpired(Tick(list[0])) then [Tick(list[0])] else [])
  }

  /** One step of the backward countdown loop: position `i` is counted down and then either
      removed (joining the expired) or kept (joining the survivors). */
  lemma CountdownStep(s: seq<BuffState>, i: int, list: seq<BuffState>)
    requires 0 <= i < |s| && list == s[..i + 1] + Survivors(s[i + 1..])
    ensures list[i] == s[i]
    ensures var b := Tick(s[i]);
      var ticked := if s[i].remainingDuration > 0 then list[i := b] else list;
      && (IsExpired(b) ==> ticked[..i] + ticked[i + 1..] == s[..i] + Survivors(s[i..]))
      && (!IsExpired(b) ==> ticked == s[..i] + Survivors(s[i..]))
      && ExpiredRev(s[i..]) == ExpiredRev(s[i + 1..]) + (if IsExpired(b) then [b] else [])
  {
    assert s[i..][1..] == s[i + 1..];
    assert s[..i + 1] == s[..i] + [s[i]];
    PositionEdits(s[..i], s[i], Tick(s[i]), Survivors(s[i + 1..]));
  }

  /** Replacing or dropping the element between a prefix and a suffix. */
  lemma PositionEdits<T>(prefix: seq<T>, x: T, y: T, suffix: seq<T>)
    ensures var l := prefix + [x] + suffix;
      && l[|prefix|] == x
      && l[|prefix| := y] == prefix + [y] + suffix
      && (prefix + [y] + suffix)[..|prefix|] + (prefix + [y] + suffix)[|prefix| + 1..] == prefix + suffix
  {
    var l' := prefix + [y] + suffix;
    assert l'[..|prefix|] == prefix;
    assert l'[|prefix| + 1..] == suffix;
  }

  /** The backward loop of `UpdateBuffs` over one unit's list: counts each positive duration
      down and removes the buffs that have expired, collecting them. */
  method CountDown(s: seq<BuffState>) returns (buffList: seq<BuffState>, expiredBuffs: seq<BuffState>)
    ensures buffList == Survivors(s) && expiredBuffs == ExpiredRev(s)
  {
    expiredBuffs := [];
    buffList := s;
    var i := |buffList| - 1;
    while i >= 0
      invariant -1 <= i < |s|
      invariant buffList == s[..i + 1] + Survivors(s[i + 1..])
      invariant expiredBuffs == ExpiredRev(s[i + 1..])
    {
      CountdownStep(s, i, buffList);
      var buff := buffList[i];
      if buff.remainingDuration > 0 {
        buff := buff.(remainingDuration := buff.remainingDuration - 1);
        buffList := buffList[i := buff];
      }
      if IsExpired(buff) {
        expiredBuffs := expiredBuffs + [buff];
        buffList := buffList[..i] + buffList[i + 1..];
      }
      i := i - 1;
    }
    assert s[..0] == [] && s[0..] == s;
  }

  datatype UpdateResult = UpdateResult(table: BuffTable, expired: seq<BuffState>)

  /** `UpdateBuffs` on the table. */
  function UpdateBuffsSpec(table: BuffTable, unitId: int): UpdateResult
  {
    if unitId !in table then UpdateResult(table, [])
    else UpdateResult(table[unitId := Survivors(table[unitId])], ExpiredRev(table[unitId]))
  }

  /** A buff survives a countdown exactly when its remaining duration exceeds one; each buff
      lands in exactly one of the two outputs, survivors are live and the expired are not. */
  lemma {:induction false} UpdatePartition(list: seq<BuffState>)
    ensures |Survivors(list)| + |ExpiredRev(list)| == |list|
    ensures forall b :: b in Survivors(list) ==> !IsExpired(b)
    ensures forall b :: b in ExpiredRev(list) ==> IsExpired(b)
    ensures forall i :: 0 <= i < |list| && list[i].remainingDuration > 1 ==> Tick(list[i]) in Survivors(list)
    ensures forall i :: 0 <= i < |list| && list[i].remainingDuration <= 1 ==> Tick(list[i]) in ExpiredRev(list)
    ensures forall b :: b in Survivors(list) ==> b.(remainingDuration := b.remainingDuration + 1) in list
  {
    if list != [] {
      UpdatePartition(list[1..]);
      forall i | 0 <= i < |list| && list[i].remainingDuration > 1 ensures Tick(list[i]) in Survivors(list) {
        if i > 0 { assert list[i] == list[1..][i - 1]; }
      }
      forall i | 0 <= i < |list| && list[i].remainingDuration <= 1 ensures Tick(list[i]) in ExpiredRev(list) {
        if i > 0 { assert list[i] == list[1..][i - 1]; }
      }
      forall b | b in Survivors(list) ensures b.(remainingDuration := b.remainingDuration + 1) in list {
        if b !in Survivors(list[1..]) {
          assert b == Tick(list[0]);
          assert b.(remainingDuration := b.remainingDuration + 1) == list[0];
        } else {
          assert b.(remainingDuration := b.remainingDuration + 1) in list[1..];
        }
      }
    }
  }

  lemma {:induction false} SurvivorsIds(list: seq<BuffState>)
    ensures IdSet(Survivors(list)) <= IdSet(list)
    ensures IncreasingIds(list) ==> IncreasingIds(Survivors(list))
    ensures IncreasingIds(list) ==> forall i :: 0 <= i < |list| && list[i].remainingDuration <= 1 ==>
      list[i].buffId !in IdSet(Survivors(list))
  {
    if list != [] {
      SurvivorsIds(list[1..]);
      var head := if IsExpired(Tick(list[0])) then [] else [Tick(list[0])];
      assert Survivors(list) == head + Survivors(list[1..]);
      if head != [] {
        assert (head + Survivors(list[1..]))[1..] == Survivors(list[1..]);
      } else {
        assert head + Survivors(list[1..]) == Survivors(list[1..]);
      }
      if IncreasingIds(list) {
        IncreasingTail(list);
        if head != [] {
          IncreasingCons(Tick(list[0]), Survivors(list[1..]));
        }
        forall i | 0 <= i < |list| && list[i].remainingDuration <= 1
          ensures list[i].buffId !in IdSet(Survivors(list))
        {
          if i > 0 {
            assert list[i] == list[1..][i - 1];
            IdSetIndex(list[1..], i - 1);
          }
        }
      }
    }
  }

  /** The countdown keeps the manager's invariant, and a buff with one round left is gone
      after one call. */
  lemma UpdateBuffsPreservesValid(table: BuffTable, nextId: int, unitId: int)
    requires ValidTable(table, nextId)
    ensures ValidTable(UpdateBuffsSpec(table, unitId).table, nextId)
    ensures forall i :: 0 <= i < |UnitBuffs(table, unitId)| && UnitBuffs(table, unitId)[i].remainingDuration <= 1 ==>
      UnitBuffs(table, unitId)[i].buffId !in IdSet(UnitBuffs(UpdateBuffsSpec(table, unitId).table, unitId))
  {
    if unitId in table {
      SurvivorsIds(table[unitId]);
    }
  }

  /** The countdown of a unit with no entry changes nothing and expires nothing. */
  lemma UpdateUnknownUnit(table: BuffTable, unitId: int)
    requires unitId !in table
    ensures UpdateBuffsSpec(table, unitId) == UpdateResult(table, [])
  {
  }

  // ---------------------------------------------------------------------------------------
  // The manager

  class BuffManager {
    var unitBuffs: BuffTable
    var nextBuffId: int

    ghost predicate Valid()
      reads this
    {
      ValidTable(unitBuffs, nextBuffId)
    }

    constructor()
      ensures Valid() && unitBuffs == map[] && nextBuffId == 1
    {
      unitBuffs := map[];
      nextBuffId := 1;
    }

    /** `GetUnitBuffs`. */
    function GetUnitBuffs(unitId: int): seq<BuffState>
      reads this
    {
      UnitBuffs(unitBuffs, unitId)
    }

    /** `AddBuff`. */
    method AddBuff(targetUnitId: int, effect: SkillEffect, sourceUnitId: int, sourceSkillId: int)
      returns (buff: BuffState)
      requires Valid()
      modifies this
      ensures Valid()
      ensures var r := AddBuffSpec(old(unitBuffs), old(nextBuffId), targetUnitId, effect, sourceUnitId, sourceSkillId);
        unitBuffs == r.table && nextBuffId == r.nextId && buff == r.buff
    {
      AddBuffPreservesValid(unitBuffs, nextBuffId, targetUnitId, effect, sourceUnitId, sourceSkillId);
      ghost var t0 := unitBuffs;
      ghost var r := AddBuffSpec(unitBuffs, nextBuffId, targetUnitId, effect, sourceUnitId, sourceSkillId);
      if targetUnitId !in unitBuffs {
        unitBuffs := unitBuffs[targetUnitId := []];
      }
      var buffList := unitBuffs[targetUnitId];
      assert buffList == UnitBuffs(t0, targetUnitId);
      if effect.canStack {
        var existing := FirstMatch(buffList, sourceSkillId, effect.effectType);
        if existing.Some? {
          var i := existing.value;
          buff := buffList[i].(currentStacks := Min(buffList[i].currentStacks + 1, effect.maxStacks));
          buff := buff.(remainingDuration := effect.duration);
          unitBuffs := unitBuffs[targetUnitId := buffList[i := buff]];
          assert buff == r.buff;
          assert unitBuffs == r.table;
          return;
        }
      }
      buff := NewBuff(nextBuffId, targetUnitId, effect, sourceUnitId, sourceSkillId);
      nextBuffId := nextBuffId + 1;
      unitBuffs := unitBuffs[targetUnitId := buffList + [buff]];
      assert buff == r.buff;
      assert unitBuffs == r.table;
    }

    /** `RemoveBuff`. */
    method RemoveBuff(unitId: int, buffId: int) returns (removed: bool)
      requires Valid()
      modifies this
      ensures Valid() && nextBuffId == old(nextBuffId)
      ensures var r := RemoveBuffSpec(old(unitBuffs), unitId, buffId);
        unitBuffs == r.table && removed == r.removed
    {
      RemoveBuffCorrect(unitBuffs, nextBuffId, unitId, buffId);
      if unitId !in unitBuffs {
        return false;
      }
      var buffList := unitBuffs[unitId];
      var remaining := WithoutId(buffList, buffId);
      removed := |remaining| < |buffList|;
      unitBuffs := unitBuffs[unitId := remaining];
    }

    /** `UpdateBuffs`: walks the list from the back, counts each positive duration down and
      removes the buffs that have expired, returning them. */
    method UpdateBuffs(unitId: int, currentRound: int) returns (expiredBuffs: seq<BuffState>)
      requires Valid()
      modifies this
      ensures Valid() && nextBuffId == old(nextBuffId)
      ensures var r := UpdateBuffsSpec(old(unitBuffs), unitId);
        unitBuffs == r.table && expiredBuffs == r.expired
    {
      UpdateBuffsPreservesValid(unitBuffs, nextBuffId, unitId);
      expiredBuffs := [];
      if unitId !in unitBuffs {
        return;
      }
      var buffList;
      buffList, expiredBuffs := CountDown(unitBuffs[unitId]);
      unitBuffs := unitBuffs[unitId := buffList];
    }

    /** `buff.tickCounter = round` for the buff at position `index` of the unit's list
      (a field write through the live list that `GetUnitBuffs` hands out). */
    method SetTickCounter(unitId: int, index: nat, round: int)
      requires Valid()
      requires unitId in unitBuffs && index < |unitBuffs[unitId]|
      modifies this
      ensures Valid() && nextBuffId == old(nextBuffId)
      ensures unitBuffs == old(unitBuffs)[unitId := old(unitBuffs)[unitId][index := old(unitBuffs)[unitId][index].(tickCounter := round)]]
    {
      var list := unitBuffs[unitId];
      var b := list[index].(tickCounter := round);
      IdSetUpdate(list, index, b);
      unitBuffs := unitBuffs[unitId := list[index := b]];
      assert forall a, c :: 0 <= a < c < |list| ==> list[index := b][a].buffId == list[a].buffId && list[index := b][c].buffId == list[c].buffId;
    }
  }
}
