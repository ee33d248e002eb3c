/** The pure rules the battle calculator (Battle/Core/BattleCalculator.cs) applies to its two rosters:
    how a hero becomes a unit, who acts in which order, when a unit dies, when the battle is over and
    who won, how skill cooldowns count down, how release conditions are evaluated, how a
    damage/heal-over-time buff ticks, and how the end-of-round snapshot is keyed. */
module CombatRules {
  import opened Common
  import opened BattleData
  import opened Skills

  // ---------------------------------------------------------------- unit creation

  /** The `(int)` cast of one hero attribute, or 0 when the hero does not carry it. */
  function IntAttr(hero: Hero, key: int): int
  {
    if key in hero.attrDic then Trunc(hero.attrDic[key]) else 0
  }

  /** The rate a hero attribute sets, or the field's declared default. */
  function RateAttr(hero: Hero, key: int): real
  {
    if key in hero.attrDic then hero.attrDic[key] else DefaultRate(key)
  }

  /** `CreatePlayerUnit`: a fresh unit whose integer stats are the truncated hero attributes and whose
      rate fields are copied verbatim; attributes the switch does not list are ignored. */
  function CreatePlayerUnit(hero: Hero): (u: BattleUnit)
    ensures u.unitId == hero.uid && u.isAlive
    ensures u.maxHp == IntAttr(hero, ATTR_HP) && u.currentHp == u.maxHp
    ensures u.attack == IntAttr(hero, ATTR_ATTACK) && u.defense == IntAttr(hero, ATTR_DEFENSE)
    ensures u.speed == IntAttr(hero, ATTR_SPEED) && u.currentMp == IntAttr(hero, ATTR_MP)
    ensures u.totalDamageDealt == 0 && u.totalDamageReceived == 0
    ensures u.totalHealingDone == 0 && u.totalHealingReceived == 0
    ensures u.rates.Keys == RATE_ATTRIBUTES
    ensures forall a :: a in RATE_ATTRIBUTES ==> u.rates[a] == RateAttr(hero, a)
  {
    NewBattleUnit().(
      unitId := hero.uid,
      unitName := "玩家单位" + IntToText(hero.uid),
      attackId := hero.attackId,
      skillId := hero.skillId,
      passiveSkillIds := hero.passiveSkillIds,
      maxHp := IntAttr(hero, ATTR_HP),
      currentHp := IntAttr(hero, ATTR_HP),
      attack := IntAttr(hero, ATTR_ATTACK),
      defense := IntAttr(hero, ATTR_DEFENSE),
      speed := IntAttr(hero, ATTR_SPEED),
      currentMp := IntAttr(hero, ATTR_MP),
      rates := map a | a in RATE_ATTRIBUTES :: RateAttr(hero, a),
      controlCountEnhance := IntAttr(hero, ATTR_CONTROL_COUNT_ENHANCE),
      controlCountReduce := IntAttr(hero, ATTR_CONTROL_COUNT_REDUCE))
  }

  /** A hero with at least one hit point enters the battle alive, at full health and not near death. */
  lemma CreatedUnitAtFullHealth(hero: Hero)
    requires ATTR_HP in hero.attrDic && hero.attrDic[ATTR_HP] >= 1.0
    ensures var u := CreatePlayerUnit(hero);
      u.isAlive && 0 < u.currentHp == u.maxHp && HpPercent(u) == 1.0 && !IsNearDeath(u)
  {
    var u := CreatePlayerUnit(hero);
    assert u.maxHp >= 1;
    assert u.currentHp as real / u.maxHp as real == 1.0;
  }

  // ---------------------------------------------------------------- rosters

  /** The two dictionaries of the calculator, slot index -> unit. Slots are 0 .. n-1 in team order. */
  datatype Side = Player | Enemy
  datatype UnitRef = UnitRef(side: Side, slot: nat)
  datatype Roster = Roster(players: seq<BattleUnit>, enemies: seq<BattleUnit>)

  function Team(r: Roster, side: Side): seq<BattleUnit>
  {
    if side == Player then r.players else r.enemies
  }

  predicate ValidRef(r: Roster, u: UnitRef)
  {
    u.slot < |Team(r, u.side)|
  }

  predicate AllValid(r: Roster, refs: seq<UnitRef>)
  {
    forall u :: u in refs ==> ValidRef(r, u)
  }

  function UnitAt(r: Roster, u: UnitRef): BattleUnit
    requires ValidRef(r, u)
  {
    Team(r, u.side)[u.slot]
  }

  predicate SameShape(a: Roster, b: Roster)
  {
    |a.players| == |b.players| && |a.enemies| == |b.enemies|
  }

  /** Replace the unit a reference denotes; every other unit stays as it was. */
  function Put(r: Roster, u: UnitRef, v: BattleUnit): (r': Roster)
    requires ValidRef(r, u)
    ensures SameShape(r, r') && UnitAt(r', u) == v
    ensures forall o :: ValidRef(r, o) && o != u ==> UnitAt(r', o) == UnitAt(r, o)
  {
    if u.side == Player then r.(players := r.players[u.slot := v])
    else r.(enemies := r.enemies[u.slot := v])
  }

  /** `_playerUnits.Values.Concat(_enemyUnits.Values)`, as references. */
  function AllRefs(r: Roster): (refs: seq<UnitRef>)
    ensures |refs| == |r.players| + |r.enemies|
    ensures forall i :: 0 <= i < |r.players| ==> refs[i] == UnitRef(Player, i)
    ensures forall j :: 0 <= j < |r.enemies| ==> refs[|r.players| + j] == UnitRef(Enemy, j)
  {
    seq(|r.players|, i requires 0 <= i => UnitRef(Player, i))
      + seq(|r.enemies|, j requires 0 <= j => UnitRef(Enemy, j))
  }

  /** Every unit is listed exactly once. */
  lemma AllRefsListsEveryUnitOnce(r: Roster)
    ensures forall u :: u in AllRefs(r) <==> ValidRef(r, u)
    ensures forall i, j :: 0 <= i < j < |AllRefs(r)| ==> AllRefs(r)[i] != AllRefs(r)[j]
  {
    var refs := AllRefs(r);
    forall u | ValidRef(r, u) ensures u in refs {
      if u.side == Player { assert refs[u.slot] == u; }
      else { assert refs[|r.players| + u.slot] == u; }
    }
  }

  /** `List.Find` on the concatenated rosters: the first unit carrying the id. */
  function FindIn(units: seq<BattleUnit>, id: int): (k: Option<nat>)
    ensures k.Some? ==> k.value < |units| && units[k.value].unitId == id
    ensures k.Some? ==> forall j :: 0 <= j < k.value ==> units[j].unitId != id
    ensures k.None? ==> forall j :: 0 <= j < |units| ==> units[j].unitId != id
  {
    if units == [] then None
    else if units[0].unitId == id then Some(0)
    else match FindIn(units[1..], id)
      case None => None
      case Some(k) => Some(k + 1)
  }

  /** `GetUnitById`: the first unit with the id, players before enemies. */
  function GetUnitById(r: Roster, id: int): (found: Option<UnitRef>)
    ensures found.Some? ==> ValidRef(r, found.value) && UnitAt(r, found.value).unitId == id
    ensures found.None? <==> forall u :: ValidRef(r, u) ==> UnitAt(r, u).unitId != id
    ensures (exists i :: 0 <= i < |r.players| && r.players[i].unitId == id) ==>
      found.Some? && found.value.side == Player
  {
    match FindIn(r.players, id)
    case Some(k) => Some(UnitRef(Player, k))
    case None =>
      match FindIn(r.enemies, id)
      case Some(k) => Some(UnitRef(Enemy, k))
      case None => None
  }

  /** The units found for a list of ids, in id order, unknown ids skipped: every requested id that
      names a unit yields the unit `GetUnitById` finds, and nothing else is found. */
  function FoundRefs(r: Roster, ids: seq<int>): (refs: seq<UnitRef>)
    ensures AllValid(r, refs) && |refs| <= |ids|
    ensures forall u :: u in refs ==> UnitAt(r, u).unitId in ids
    ensures forall id :: id in ids && GetUnitById(r, id).Some? ==> GetUnitById(r, id).value in refs
  {
    if ids == [] then []
    else
      var rest := FoundRefs(r, ids[1..]);
      match GetUnitById(r, ids[0])
      case None => rest
      case Some(u) => [u] + rest
  }

  /** `GetUnitByIds`: null (`None`) for an empty id list, otherwise the units found. */
  function GetUnitByIds(r: Roster, ids: seq<int>): (found: Option<seq<UnitRef>>)
    ensures found.None? <==> ids == []
    ensures found.Some? ==> AllValid(r, found.value) && |found.value| <= |ids|
  {
    if ids == [] then None else Some(FoundRefs(r, ids))
  }

  /** For a non-empty id list, `GetUnitByIds` finds exactly the units the ids name: each unit found
      carries a requested id, and each requested id that names a unit yields that unit. */
  lemma GetUnitByIdsComplete(r: Roster, ids: seq<int>)
    requires ids != []
    ensures var found := GetUnitByIds(r, ids).value;
      && (forall u :: u in found ==> UnitAt(r, u).unitId in ids)
      && (forall id :: id in ids && GetUnitById(r, id).Some? ==> GetUnitById(r, id).value in found)
  {
  }

  // ---------------------------------------------------------------- death and the end of the battle

  /** One step of `CheckUnitDeath`. */
  function MarkDead(u: BattleUnit): (v: BattleUnit)
    ensures v.isAlive <==> u.isAlive && u.currentHp > 0
    ensures v == u.(isAlive := v.isAlive)
  {
    if u.currentHp <= 0 && u.isAlive then u.(isAlive := false) else u
  }

  /** `CheckUnitDeath` over a list of units, in list order. */
  function CheckDeath(r: Roster, refs: seq<UnitRef>): (r': Roster)
    requires AllValid(r, refs)
    ensures SameShape(r, r')
  {
    if refs == [] then r
    else
      var r1 := CheckDeath(r, refs[..|refs| - 1]);
      var last := refs[|refs| - 1];
      assert last in refs;
      assert ValidRef(r1, last);
      Put(r1, last, MarkDead(UnitAt(r1, last)))
  }

  /** Every listed unit is passed through `MarkDead` (once or several times, which is the same), every
      other unit is untouched: so listed units at hp <= 0 die, units with positive hp are unchanged, and
      nobody is revived. */
  lemma {:induction false} CheckDeathEffect(r: Roster, refs: seq<UnitRef>)
    requires AllValid(r, refs)
    ensures forall o :: ValidRef(r, o) ==>
      UnitAt(CheckDeath(r, refs), o) == (if o in refs then MarkDead(UnitAt(r, o)) else UnitAt(r, o))
  {
    if refs != [] {
      var init := refs[..|refs| - 1];
      var last := refs[|refs| - 1];
      assert AllValid(r, init) by {
        forall u | u in init ensures ValidRef(r, u) { assert u in refs; }
      }
      CheckDeathEffect(r, init);
      forall o | ValidRef(r, o)
        ensures UnitAt(CheckDeath(r, refs), o) == (if o in refs then MarkDead(UnitAt(r, o)) else UnitAt(r, o))
      {
        assert o in refs <==> o in init || o == last by { assert refs == init + [last]; }
      }
    }
  }

  predicate AnyAlive(units: seq<BattleUnit>)
  {
    exists i :: 0 <= i < |units| && units[i].isAlive
  }

  /** `IsBattleFinished`: some side has no living unit. */
  predicate IsBattleFinished(r: Roster)
  {
    !AnyAlive(r.players) || !AnyAlive(r.enemies)
  }

  /** Death checks can finish a battle but never reopen it. */
  lemma CheckDeathKeepsFinished(r: Roster, refs: seq<UnitRef>)
    requires AllValid(r, refs) && IsBattleFinished(r)
    ensures IsBattleFinished(CheckDeath(r, refs))
  {
    var r' := CheckDeath(r, refs);
    CheckDeathEffect(r, refs);
    if AnyAlive(r'.players) {
      var i :| 0 <= i < |r'.players| && r'.players[i].isAlive;
      assert UnitAt(r', UnitRef(Player, i)).isAlive;
      assert r.players[i].isAlive;
    } else {}
    if AnyAlive(r'.enemies) {
      var i :| 0 <= i < |r'.enemies| && r'.enemies[i].isAlive;
      assert UnitAt(r', UnitRef(Enemy, i)).isAlive;
      assert r.enemies[i].isAlive;
    } else {}
  }

  /** `DetermineBattleResult`. */
  function DetermineBattleResult(r: Roster): (res: BattleResult)
    ensures res == Victory <==> AnyAlive(r.players) && !AnyAlive(r.enemies)
    ensures res == Defeat <==> !AnyAlive(r.players) && AnyAlive(r.enemies)
    ensures res == Draw <==> AnyAlive(r.players) == AnyAlive(r.enemies)
    ensures !IsBattleFinished(r) ==> res == Draw
  {
    var playerAlive := AnyAlive(r.players);
    var enemyAlive := AnyAlive(r.enemies);
    if playerAlive && !enemyAlive then Victory
    else if !playerAlive && enemyAlive then Defeat
    else Draw
  }

  // ---------------------------------------------------------------- turn order

  /** The tie-break key drawn for a unit; keys are listed players first, then enemies. */
  function TieKey(r: Roster, keys: seq<int>, u: UnitRef): int
    requires |keys| == |r.players| + |r.enemies| && ValidRef(r, u)
  {
    if u.side == Player then keys[u.slot] else keys[|r.players| + u.slot]
  }

  /** `OrderByDescending(speed).ThenBy(key)`: `a` may come before `b`. */
  predicate NotAfter(r: Roster, keys: seq<int>, a: UnitRef, b: UnitRef)
    requires |keys| == |r.players| + |r.enemies| && ValidRef(r, a) && ValidRef(r, b)
  {
    UnitAt(r, a).speed > UnitAt(r, b).speed
    || (UnitAt(r, a).speed == UnitAt(r, b).speed && TieKey(r, keys, a) <= TieKey(r, keys, b))
  }

  predicate InTurnOrder(r: Roster, keys: seq<int>, s: seq<UnitRef>)
    requires |keys| == |r.players| + |r.enemies| && AllValid(r, s)
  {
    forall i, j :: 0 <= i < j < |s| ==> NotAfter(r, keys, s[i], s[j])
  }

  function InsertRef(r: Roster, keys: seq<int>, u: UnitRef, s: seq<UnitRef>): (res: seq<UnitRef>)
    requires |keys| == |r.players| + |r.enemies| && ValidRef(r, u) && AllValid(r, s)
    ensures multiset(res) == multiset(s) + multiset{u}
    ensures AllValid(r, res)
  {
    if s == [] then [u]
    else if NotAfter(r, keys, u, s[0]) then [u] + s
    else
      assert s == [s[0]] + s[1..];
      [s[0]] + InsertRef(r, keys, u, s[1..])
  }

  /** The stable sort LINQ performs (insertion from the back keeps equal elements in input order). */
  function SortRefs(r: Roster, keys: seq<int>, s: seq<UnitRef>): (res: seq<UnitRef>)
    requires |keys| == |r.players| + |r.enemies| && AllValid(r, s)
    ensures multiset(res) == multiset(s)
    ensures AllValid(r, res)
  {
    if s == [] then []
    else
      assert s == [s[0]] + s[1..];
      InsertRef(r, keys, s[0], SortRefs(r, keys, s[1..]))
  }

  /** Putting a unit that may precede every element in front of an ordered list keeps it ordered. */
  lemma ConsOrdered(r: Roster, keys: seq<int>, x: UnitRef, s: seq<UnitRef>)
    requires |keys| == |r.players| + |r.enemies| && ValidRef(r, x) && AllValid(r, s)
    requires InTurnOrder(r, keys, s)
    requires forall y :: y in s ==> NotAfter(r, keys, x, y)
    ensures AllValid(r, [x] + s) && InTurnOrder(r, keys, [x] + s)
  {
    var res := [x] + s;
    forall i, j | 0 <= i < j < |res| ensures NotAfter(r, keys, res[i], res[j]) {
      assert res[j] == s[j - 1];
      if i == 0 { assert s[j - 1] in s; } else { assert res[i] == s[i - 1]; }
    }
  }

  /** Whatever an insertion produces was either the inserted unit or already in the list. */
  lemma InsertRefMembers(r: Roster, keys: seq<int>, u: UnitRef, s: seq<UnitRef>, y: UnitRef)
    requires |keys| == |r.players| + |r.enemies| && ValidRef(r, u) && AllValid(r, s)
    requires y in InsertRef(r, keys, u, s)
    ensures y == u || y in s
  {
    assert y in multiset(InsertRef(r, keys, u, s));
  }

  lemma {:induction false} InsertRefOrdered(r: Roster, keys: seq<int>, u: UnitRef, s: seq<UnitRef>)
    requires |keys| == |r.players| + |r.enemies| && ValidRef(r, u) && AllValid(r, s)
    requires InTurnOrder(r, keys, s)
    ensures InTurnOrder(r, keys, InsertRef(r, keys, u, s))
  {
    if s == [] {
    } else if NotAfter(r, keys, u, s[0]) {
      forall y | y in s ensures NotAfter(r, keys, u, y) {
        var m :| 0 <= m < |s| && s[m] == y;
        if m > 0 { assert NotAfter(r, keys, s[0], s[m]); }
      }
      ConsOrdered(r, keys, u, s);
    } else {
      var tail := s[1..];
      assert AllValid(r, tail) by { forall x | x in tail ensures ValidRef(r, x) { assert x in s; } }
      assert InTurnOrder(r, keys, tail) by {
        forall i, j | 0 <= i < j < |tail| ensures NotAfter(r, keys, tail[i], tail[j]) {
          assert tail[i] == s[i + 1] && tail[j] == s[j + 1];
        }
      }
      InsertRefOrdered(r, keys, u, tail);
      var ins := InsertRef(r, keys, u, tail);
      forall y | y in ins ensures NotAfter(r, keys, s[0], y) {
        InsertRefMembers(r, keys, u, tail, y);
        if y != u {
          var m :| 0 <= m < |tail| && tail[m] == y;
          assert s[m + 1] == y;
        }
      }
      ConsOrdered(r, keys, s[0], ins);
    }
  }

  lemma {:induction false} SortRefsOrdered(r: Roster, keys: seq<int>, s: seq<UnitRef>)
    requires |keys| == |r.players| + |r.enemies| && AllValid(r, s)
    ensures InTurnOrder(r, keys, SortRefs(r, keys, s))
  {
    if s != [] {
      var tail := s[1..];
      assert AllValid(r, tail) by { forall x | x in tail ensures ValidRef(r, x) { assert x in s; } }
      SortRefsOrdered(r, keys, tail);
      InsertRefOrdered(r, keys, s[0], SortRefs(r, keys, tail));
    }
  }

  /** `CalculateTurnOrder`: all units, fastest first, ties by the drawn keys. */
  function TurnOrder(r: Roster, keys: seq<int>): (order: seq<UnitRef>)
    requires |keys| == |r.players| + |r.enemies|
    ensures AllValid(r, order)
  {
    SortRefs(r, keys, AllRefs(r))
  }

  /** The turn order is a permutation of all player and enemy units with non-increasing speed, ties
      broken by ascending key. */
  lemma TurnOrderCorrect(r: Roster, keys: seq<int>)
    requires |keys| == |r.players| + |r.enemies|
    ensures multiset(TurnOrder(r, keys)) == multiset(AllRefs(r))
    ensures forall u :: u in TurnOrder(r, keys) <==> ValidRef(r, u)
    ensures var order := TurnOrder(r, keys);
      forall i, j :: 0 <= i < j < |order| ==>
        UnitAt(r, order[i]).speed > UnitAt(r, order[j]).speed
        || (UnitAt(r, order[i]).speed == UnitAt(r, order[j]).speed
            && TieKey(r, keys, order[i]) <= TieKey(r, keys, order[j]))
  {
    var order := TurnOrder(r, keys);
    AllRefsListsEveryUnitOnce(r);
    SortRefsOrdered(r, keys, AllRefs(r));
    forall u ensures u in order <==> ValidRef(r, u) {
      assert u in order <==> u in multiset(order);
      assert u in AllRefs(r) <==> u in multiset(AllRefs(r));
    }
    assert InTurnOrder(r, keys, order);
  }

  // ---------------------------------------------------------------- skill cooldowns

  /** `_skillCooldowns`: unit id -> (skill id -> remaining cooldown). */
  type Cooldowns = map<int, map<int, int>>

  /** `IsSkillOnCooldown`. */
  predicate IsSkillOnCooldown(cd: Cooldowns, unitId: int, skillId: int)
  {
    unitId in cd && skillId in cd[unitId] && cd[unitId][skillId] > 0
  }

  /** The table `InitializeUnitSkills` installs: every listed skill ready. */
  function InitialCooldowns(skillIds: seq<int>): (m: map<int, int>)
    ensures m.Keys == set s | s in skillIds
    ensures forall s :: s in m ==> m[s] == 0
  {
    map s | s in skillIds :: 0
  }

  /** `SetSkillCooldown`: creates the unit's table when missing. */
  function SetCooldown(cd: Cooldowns, unitId: int, skillId: int, cooldown: int): (cd': Cooldowns)
    ensures cd'.Keys == cd.Keys + {unitId}
    ensures skillId in cd'[unitId] && cd'[unitId][skillId] == cooldown
    ensures forall s :: s != skillId && unitId in cd && s in cd[unitId] ==> s in cd'[unitId] && cd'[unitId][s] == cd[unitId][s]
    ensures forall u :: u in cd && u != unitId ==> cd'[u] == cd[u]
  {
    cd[unitId := (if unitId in cd then cd[unitId] else map[])[skillId := cooldown]]
  }

  /** One pass of `UpdateSkillCooldowns` over a unit's table. */
  function TickDown(m: map<int, int>): (m': map<int, int>)
    ensures m'.Keys == m.Keys
  {
    map s | s in m :: if m[s] > 0 then m[s] - 1 else m[s]
  }

  /** `UpdateSkillCooldowns(unitId)`: an unknown unit is left alone. */
  function UpdateCooldowns(cd: Cooldowns, unitId: int): (cd': Cooldowns)
    ensures cd'.Keys == cd.Keys
    ensures forall u :: u in cd && u != unitId ==> cd'[u] == cd[u]
  {
    if unitId in cd then cd[unitId := TickDown(cd[unitId])] else cd
  }

  function UpdateCooldownsTimes(cd: Cooldowns, unitId: int, n: nat): (cd': Cooldowns)
    ensures cd'.Keys == cd.Keys
  {
    if n == 0 then cd else UpdateCooldowns(UpdateCooldownsTimes(cd, unitId, n - 1), unitId)
  }

  /** After `n` updates a positive cooldown `c` reads `max(0, c - n)`; a non-positive one never moves. */
  lemma {:induction false} CooldownCountsDown(cd: Cooldowns, unitId: int, skillId: int, n: nat)
    requires unitId in cd && skillId in cd[unitId]
    ensures var c := cd[unitId][skillId];
      var cd' := UpdateCooldownsTimes(cd, unitId, n);
      skillId in cd'[unitId] && cd'[unitId][skillId] == (if c > 0 then Max(0, c - n) else c)
  {
    if n > 0 {
      CooldownCountsDown(cd, unitId, skillId, n - 1);
    }
  }

  /** A skill put on cooldown `c >= 0` becomes usable again after exactly `c` updates. */
  lemma CooldownExpires(cd: Cooldowns, unitId: int, skillId: int, c: nat, n: nat)
    ensures IsSkillOnCooldown(UpdateCooldownsTimes(SetCooldown(cd, unitId, skillId, c), unitId, n), unitId, skillId)
      <==> n < c
  {
    CooldownCountsDown(SetCooldown(cd, unitId, skillId, c), unitId, skillId, n);
  }

  // ---------------------------------------------------------------- release conditions

  function AbsReal(x: real): real { if x < 0.0 then -x else x }

  /** `CompareValues`: six operators, anything else is false. */
  function CompareValues(actual: real, comparison: string, expected: real): (holds: bool)
    ensures comparison !in {">", "<", ">=", "<=", "==", "!="} ==> !holds
  {
    match comparison
    case ">" => actual > expected
    case "<" => actual < expected
    case ">=" => actual >= expected
    case "<=" => actual <= expected
    case "==" => AbsReal(actual - expected) < 0.001
    case "!=" => AbsReal(actual - expected) >= 0.001
    case _ => false
  }

  /** The paired operators are complements of one another. */
  lemma CompareComplements(actual: real, expected: real)
    ensures CompareValues(actual, "==", expected) != CompareValues(actual, "!=", expected)
    ensures CompareValues(actual, ">", expected) != CompareValues(actual, "<=", expected)
    ensures CompareValues(actual, "<", expected) != CompareValues(actual, ">=", expected)
  {
  }

  /** `allUnits.Count(u => u.isAlive)`. */
  function CountAlive(units: seq<BattleUnit>): (n: nat)
    ensures n <= |units|
    ensures n > 0 <==> AnyAlive(units)
  {
    if units == [] then 0
    else
      var init := units[..|units| - 1];
      var k := CountAlive(init);
      assert AnyAlive(units) <==> AnyAlive(init) || units[|units| - 1].isAlive by {
        if AnyAlive(units) {
          var i :| 0 <= i < |units| && units[i].isAlive;
          if i < |units| - 1 { assert init[i].isAlive; }
        }
        if AnyAlive(init) {
          var i :| 0 <= i < |init| && init[i].isAlive;
          assert units[i].isAlive;
        }
      }
      k + (if units[|units| - 1].isAlive then 1 else 0)
  }

  /** The quantity a condition reads: the unit's health fraction or the number of living units. */
  function ConditionValue(unit: BattleUnit, condition: SkillCondition, allUnits: seq<BattleUnit>): real
  {
    match condition.conditionType
    case "SelfHp" => HpPercent(unit)
    case "EnemyCount" => CountAlive(allUnits) as real
    case "AllyCount" => CountAlive(allUnits) as real
    case _ => 0.0
  }

  /** `EvaluateSkillCondition`. */
  predicate EvaluateSkillCondition(unit: BattleUnit, condition: SkillCondition, allUnits: seq<BattleUnit>)
  {
    CompareValues(ConditionValue(unit, condition, allUnits), condition.comparison, condition.value)
  }

  predicate AllConditionsHold(unit: BattleUnit, conditions: seq<SkillCondition>, allUnits: seq<BattleUnit>)
  {
    forall i :: 0 <= i < |conditions| ==> EvaluateSkillCondition(unit, conditions[i], allUnits)
  }

  // ---------------------------------------------------------------- damage/heal-over-time ticks

  /** `ProcessBuffTick` on the unit: tick damage (clamped at 0 hp), then tick heal (capped at the
      missing health), each scaled by the buff's stacks. Only `currentHp` changes. */
  function ProcessBuffTick(unit: BattleUnit, buff: BuffState): (u: BattleUnit)
    ensures u == unit.(currentHp := u.currentHp)
    ensures "tickHeal" in buff.effect.parameters ==> u.currentHp <= u.maxHp
    ensures "tickHeal" !in buff.effect.parameters && "tickDamage" in buff.effect.parameters ==> u.currentHp >= 0
  {
    var p := buff.effect.parameters;
    var damaged :=
      if "tickDamage" in p then
        unit.(currentHp := Max(0, unit.currentHp - ToInt32(p["tickDamage"]) * buff.currentStacks))
      else unit;
    if "tickHeal" in p then
      damaged.(currentHp := damaged.currentHp
                            + Min(ToInt32(p["tickHeal"]) * buff.currentStacks, damaged.maxHp - damaged.currentHp))
    else damaged
  }

  /** With non-negative tick amounts and stacks, a tick keeps hit points within `[0, maxHp]`. */
  lemma TickKeepsHpInRange(unit: BattleUnit, buff: BuffState)
    requires 0 <= unit.currentHp <= unit.maxHp && buff.currentStacks >= 0
    requires "tickDamage" in buff.effect.parameters ==> ToInt32(buff.effect.parameters["tickDamage"]) >= 0
    requires "tickHeal" in buff.effect.parameters ==> ToInt32(buff.effect.parameters["tickHeal"]) >= 0
    ensures 0 <= ProcessBuffTick(unit, buff).currentHp <= unit.maxHp
  {
    var p := buff.effect.parameters;
    if "tickDamage" in p {
      var d := ToInt32(p["tickDamage"]);
      assert d * buff.currentStacks >= 0 by {
        MulNonNegative(d, buff.currentStacks);
      }
    }
    if "tickHeal" in p {
      var h := ToInt32(p["tickHeal"]);
      MulNonNegative(h, buff.currentStacks);
    }
  }

  lemma MulNonNegative(a: int, b: int)
    requires a >= 0 && b >= 0
    ensures a * b >= 0
  {
  }

  // ---------------------------------------------------------------- end-of-round snapshots

  /** `CloneUnit`: identity, health, the three combat stats, liveness and the four totals are copied;
      every other field takes its constructor default. */
  function CloneUnit(u: BattleUnit): (c: BattleUnit)
    ensures c.unitId == u.unitId && c.unitName == u.unitName && c.isAlive == u.isAlive
    ensures c.maxHp == u.maxHp && c.currentHp == u.currentHp
    ensures c.attack == u.attack && c.defense == u.defense && c.speed == u.speed
    ensures c.totalDamageDealt == u.totalDamageDealt && c.totalDamageReceived == u.totalDamageReceived
    ensures c.totalHealingDone == u.totalHealingDone && c.totalHealingReceived == u.totalHealingReceived
    ensures c.rates == NewBattleUnit().rates && c.currentMp == 0 && c.passiveSkillIds == []
  {
    NewBattleUnit().(
      unitId := u.unitId, unitName := u.unitName, maxHp := u.maxHp, currentHp := u.currentHp,
      attack := u.attack, defense := u.defense, speed := u.speed, isAlive := u.isAlive,
      totalDamageDealt := u.totalDamageDealt, totalDamageReceived := u.totalDamageReceived,
      totalHealingDone := u.totalHealingDone, totalHealingReceived := u.totalHealingReceived)
  }

  /** A snapshot of a snapshot is the snapshot. */
  lemma CloneIdempotent(u: BattleUnit)
    ensures CloneUnit(CloneUnit(u)) == CloneUnit(u)
  {
  }

  /** The ids of a list of units. */
  function Ids(units: seq<BattleUnit>): set<int>
  {
    set i | 0 <= i < |units| :: units[i].unitId
  }

  predicate DistinctIds(units: seq<BattleUnit>)
  {
    forall i, j :: 0 <= i < j < |units| ==> units[i].unitId != units[j].unitId
  }

  /** `SaveRoundEndStates` as intended: the clone of every unit stored under its own unit id, on top
      of what the round's table already holds. */
  function SnapshotById(states: map<int, BattleUnit>, units: seq<BattleUnit>): (m: map<int, BattleUnit>)
    ensures m.Keys == states.Keys + Ids(units)
  {
    if units == [] then states
    else
      var init := units[..|units| - 1];
      var last := units[|units| - 1];
      assert Ids(units) == Ids(init) + {last.unitId} by {
        forall x | x in Ids(units) ensures x in Ids(init) + {last.unitId} {
          var i :| 0 <= i < |units| && units[i].unitId == x;
          if i < |units| - 1 { assert init[i].unitId == x; }
        }
        forall x | x in Ids(init) ensures x in Ids(units) {
          var i :| 0 <= i < |init| && init[i].unitId == x;
          assert units[i].unitId == x;
        }
      }
      SnapshotById(states, init)[last.unitId := CloneUnit(last)]
  }

  /** One team's loop in `SaveRoundEndStates`: each unit's clone stored under its id, in order. */
  method SnapshotTeam(states: map<int, BattleUnit>, units: seq<BattleUnit>) returns (m: map<int, BattleUnit>)
    ensures m == SnapshotById(states, units)
  {
    m := states;
    for i := 0 to |units|
      invariant m == SnapshotById(states, units[..i])
    {
      assert units[..i + 1][..i] == units[..i];
      m := m[units[i].unitId := CloneUnit(units[i])];
    }
    assert units[..|units|] == units;
  }

  /** With distinct ids every unit's snapshot is present under its id; other entries are untouched. */
  lemma {:induction false} SnapshotByIdComplete(states: map<int, BattleUnit>, units: seq<BattleUnit>)
    requires DistinctIds(units)
    ensures forall i :: 0 <= i < |units| ==> SnapshotById(states, units)[units[i].unitId] == CloneUnit(units[i])
    ensures forall k :: k in states && k !in Ids(units) ==> SnapshotById(states, units)[k] == states[k]
  {
    if units != [] {
      var init := units[..|units| - 1];
      var last := units[|units| - 1];
      assert DistinctIds(init) by {
        forall i, j | 0 <= i < j < |init| ensures init[i].unitId != init[j].unitId {
          assert init[i] == units[i] && init[j] == units[j];
        }
      }
      SnapshotByIdComplete(states, init);
      var prev := SnapshotById(states, init);
      assert SnapshotById(states, units) == prev[last.unitId := CloneUnit(last)];
      forall i | 0 <= i < |units|
        ensures SnapshotById(states, units)[units[i].unitId] == CloneUnit(units[i])
      {
        if i < |units| - 1 {
          assert init[i] == units[i];
          assert units[i].unitId != last.unitId;
        }
      }
      forall k | k in states && k !in Ids(units)
        ensures SnapshotById(states, units)[k] == states[k]
      {
        assert k != last.unitId by { assert units[|units| - 1] == last; }
        assert Ids(init) <= Ids(units) by {
          forall x | x in Ids(init) ensures x in Ids(units) {
            var i :| 0 <= i < |init| && init[i].unitId == x;
            assert units[i] == init[i];
          }
        }
      }
    }
  }

  /** The end-of-round table of a roster, keyed by unit id. */
  function RoundEndStates(r: Roster): (m: map<int, BattleUnit>)
    ensures m.Keys == Ids(r.players) + Ids(r.enemies)
  {
    SnapshotById(SnapshotById(map[], r.players), r.enemies)
  }

  /** When all unit ids are distinct, the table holds one clone per unit of either side. */
  lemma RoundEndStatesComplete(r: Roster)
    requires DistinctIds(r.players + r.enemies)
    ensures forall i :: 0 <= i < |r.players| ==> RoundEndStates(r)[r.players[i].unitId] == CloneUnit(r.players[i])
    ensures forall j :: 0 <= j < |r.enemies| ==> RoundEndStates(r)[r.enemies[j].unitId] == CloneUnit(r.enemies[j])
  {
    var all := r.players + r.enemies;
    assert DistinctIds(r.players) by {
      forall i, j | 0 <= i < j < |r.players| ensures r.players[i].unitId != r.players[j].unitId {
        assert all[i] == r.players[i] && all[j] == r.players[j];
      }
    }
    assert DistinctIds(r.enemies) by {
      forall i, j | 0 <= i < j < |r.enemies| ensures r.enemies[i].unitId != r.enemies[j].unitId {
        assert all[|r.players| + i] == r.enemies[i] && all[|r.players| + j] == r.enemies[j];
      }
    }
    var first := SnapshotById(map[], r.players);
    SnapshotByIdComplete(map[], r.players);
    SnapshotByIdComplete(first, r.enemies);
    forall i | 0 <= i < |r.players|
      ensures RoundEndStates(r)[r.players[i].unitId] == CloneUnit(r.players[i])
    {
      var id := r.players[i].unitId;
      assert id !in Ids(r.enemies) by {
        forall j | 0 <= j < |r.enemies| ensures r.enemies[j].unitId != id {
          assert all[i] == r.players[i] && all[|r.players| + j] == r.enemies[j];
        }
      }
    }
  }

  /** `SaveRoundEndStates` as written: both loops key the table by the dictionary key, i.e. the slot
      index, so an enemy's snapshot overwrites the player snapshot of the same slot. */
  function RoundEndStatesAsWritten(r: Roster): map<int, BattleUnit>
  {
    (map i | 0 <= i < |r.players| :: CloneUnit(r.players[i]))
      + (map j | 0 <= j < |r.enemies| :: CloneUnit(r.enemies[j]))
  }

  /** As written, when the enemy side is at least as large as the player side, no player unit
      survives in the round's snapshot table: every entry is an enemy. */
  lemma AsWrittenSnapshotDropsPlayers(r: Roster)
    requires |r.enemies| >= |r.players|
    ensures forall k :: k in RoundEndStatesAsWritten(r) ==>
      0 <= k < |r.enemies| && RoundEndStatesAsWritten(r)[k] == CloneUnit(r.enemies[k])
  {
  }

  /** A one-against-one battle: the as-written table has a single entry (the enemy), while the
      id-keyed table holds both units. */
  lemma AsWrittenSnapshotCounterexample()
    ensures var p := NewBattleUnit().(unitId := 7);
      var e := NewBattleUnit().(unitId := 9);
      var r := Roster([p], [e]);
      RoundEndStatesAsWritten(r) == map[0 := CloneUnit(e)]
      && RoundEndStates(r).Keys == {7, 9}
      && RoundEndStates(r)[7] == CloneUnit(p)
  {
    var p := NewBattleUnit().(unitId := 7);
    var e := NewBattleUnit().(unitId := 9);
    var r := Roster([p], [e]);
    assert Ids([p]) == {7} by { assert [p][0].unitId == 7; }
    assert Ids([e]) == {9} by { assert [e][0].unitId == 9; }
    assert (map i | 0 <= i < |r.players| :: CloneUnit(r.players[i])) == map[0 := CloneUnit(p)];
    assert (map j | 0 <= j < |r.enemies| :: CloneUnit(r.enemies[j])) == map[0 := CloneUnit(e)];
    assert [p][..0] == [];
    assert [e][..0] == [];
    assert SnapshotById(map[], [p]) == map[7 := CloneUnit(p)];
    assert SnapshotById(map[7 := CloneUnit(p)], [e]) == map[7 := CloneUnit(p), 9 := CloneUnit(e)];
  }
}
