/** The battle calculator of Battle/Core/BattleCalculator.cs: the object that holds the two rosters,
    the turn order, the battle record under construction and the per-unit skill and cooldown tables,
    and that runs the round loop.

    `DecideUnitAction` is not finished in the source: it asks the engine to execute a skill it never
    selects and so dereferences null. The model therefore takes the decision as a parameter `decide`,
    which for each living unit either passes, acts (an action plus the unit updates its execution
    made) or crashes; `AsWrittenDecider` is the decision procedure exactly as written. */
module BattleCalc {
  import opened Common
  import opened BattleData
  import opened Skills
  import opened CombatRules

  // ---------------------------------------------------------------- the decision of one unit

  datatype Decision =
    | Pass(changes: map<UnitRef, BattleUnit>)
    | Act(action: BattleAction, changes: map<UnitRef, BattleUnit>)
    | Crash

  type Decider = (int, UnitRef, Roster) -> Decision

  /** `DecideUnitAction` as written throws for every unit it is asked about. */
  function AsWrittenDecider(): Decider
  {
    (n: int, u: UnitRef, r: Roster) => Crash
  }

  /** The unit updates a decision carries; references outside the rosters are ignored. */
  function ApplyChanges(r: Roster, changes: map<UnitRef, BattleUnit>): (r': Roster)
    ensures SameShape(r, r')
    ensures forall u :: ValidRef(r, u) ==> UnitAt(r', u) == if u in changes then changes[u] else UnitAt(r, u)
  {
    Roster(
      seq(|r.players|, i requires 0 <= i < |r.players| =>
        if UnitRef(Player, i) in changes then changes[UnitRef(Player, i)] else r.players[i]),
      seq(|r.enemies|, j requires 0 <= j < |r.enemies| =>
        if UnitRef(Enemy, j) in changes then changes[UnitRef(Enemy, j)] else r.enemies[j]))
  }

  lemma ShapeKeepsValid(r: Roster, r': Roster, refs: seq<UnitRef>)
    requires AllValid(r, refs) && SameShape(r, r')
    ensures AllValid(r', refs) && AllValid(r', if refs == [] then [] else refs[1..])
  {
    if refs != [] {
      forall u | u in refs[1..] ensures ValidRef(r', u) { assert u in refs; }
    }
  }

  /** `ExecuteAction`: the per-type handlers and the statistics update are empty, so what remains is
      the death check of the targets; an empty target list makes `GetUnitByIds` return null and the
      death check throw (`None`). */
  function ExecuteActionSpec(r: Roster, a: BattleAction): (res: Option<Roster>)
    ensures res.None? <==> a.targetUnitIds == []
    ensures res.Some? ==> SameShape(r, res.value)
  {
    match GetUnitByIds(r, a.targetUnitIds)
    case None => None
    case Some(refs) => Some(CheckDeath(r, refs))
  }

  /** An action checks the targets it names: a named target with no hit points left is dead
      afterwards. It only ever kills: each unit ends up as it was or as `MarkDead` of it, and nobody
      that was dead comes back. */
  lemma ExecuteActionOnlyKills(r: Roster, a: BattleAction)
    requires a.targetUnitIds != []
    ensures var r' := ExecuteActionSpec(r, a).value;
      forall id :: id in a.targetUnitIds && GetUnitById(r, id).Some? && UnitAt(r, GetUnitById(r, id).value).currentHp <= 0 ==>
        !UnitAt(r', GetUnitById(r, id).value).isAlive
    ensures var r' := ExecuteActionSpec(r, a).value;
      forall u :: ValidRef(r, u) ==>
        (UnitAt(r', u) == UnitAt(r, u) || UnitAt(r', u) == MarkDead(UnitAt(r, u)))
        && (UnitAt(r', u).isAlive ==> UnitAt(r, u).isAlive)
  {
    CheckDeathEffect(r, FoundRefs(r, a.targetUnitIds));
  }

  // ---------------------------------------------------------------- one round

  datatype Steps = Steps(roster: Roster, actions: seq<BattleAction>, faulted: bool)

  /** The `foreach` over the turn order in `ExecuteRound`: dead units are skipped without a check;
      after every living unit's turn the battle-finished check may end the round. */
  function RoundSteps(decide: Decider, n: int, r: Roster, order: seq<UnitRef>): (s: Steps)
    requires AllValid(r, order)
    ensures SameShape(r, s.roster) && |s.actions| <= |order|
    decreases |order|
  {
    if order == [] then Steps(r, [], false)
    else
      ShapeKeepsValid(r, r, order);
      var u := order[0];
      if !UnitAt(r, u).isAlive then RoundSteps(decide, n, r, order[1..])
      else
        match decide(n, u, r)
        case Crash => Steps(r, [], true)
        case Pass(changes) =>
          var r1 := ApplyChanges(r, changes);
          ShapeKeepsValid(r, r1, order);
          if IsBattleFinished(r1) then Steps(r1, [], false) else RoundSteps(decide, n, r1, order[1..])
        case Act(a, changes) =>
          var r1 := ApplyChanges(r, changes);
          match ExecuteActionSpec(r1, a)
          case None => Steps(r1, [], true)
          case Some(r2) =>
            ShapeKeepsValid(r, r2, order);
            var rest := if IsBattleFinished(r2) then Steps(r2, [], false)
                        else RoundSteps(decide, n, r2, order[1..]);
            Steps(rest.roster, [a] + rest.actions, rest.faulted)
  }

  /** One turn of the round loop, unfolded per kind of decision. */
  lemma RoundStepSkip(decide: Decider, n: int, r: Roster, order: seq<UnitRef>)
    requires AllValid(r, order) && order != [] && !UnitAt(r, order[0]).isAlive
    ensures AllValid(r, order[1..])
    ensures RoundSteps(decide, n, r, order) == RoundSteps(decide, n, r, order[1..])
  {
    ShapeKeepsValid(r, r, order);
  }

  lemma RoundStepCrash(decide: Decider, n: int, r: Roster, order: seq<UnitRef>)
    requires AllValid(r, order) && order != [] && UnitAt(r, order[0]).isAlive
    requires decide(n, order[0], r) == Crash
    ensures RoundSteps(decide, n, r, order) == Steps(r, [], true)
  {
  }

  lemma RoundStepPass(decide: Decider, n: int, r: Roster, order: seq<UnitRef>, changes: map<UnitRef, BattleUnit>)
    requires AllValid(r, order) && order != [] && UnitAt(r, order[0]).isAlive
    requires decide(n, order[0], r) == Pass(changes)
    ensures AllValid(ApplyChanges(r, changes), order[1..])
    ensures var r1 := ApplyChanges(r, changes);
      RoundSteps(decide, n, r, order) ==
        if IsBattleFinished(r1) then Steps(r1, [], false) else RoundSteps(decide, n, r1, order[1..])
  {
    ShapeKeepsValid(r, ApplyChanges(r, changes), order);
  }

  lemma RoundStepAct(decide: Decider, n: int, r: Roster, order: seq<UnitRef>, a: BattleAction,
                     changes: map<UnitRef, BattleUnit>)
    requires AllValid(r, order) && order != [] && UnitAt(r, order[0]).isAlive
    requires decide(n, order[0], r) == Act(a, changes)
    ensures var r1 := ApplyChanges(r, changes);
      ExecuteActionSpec(r1, a).None? ==> RoundSteps(decide, n, r, order) == Steps(r1, [], true)
    ensures var r1 := ApplyChanges(r, changes);
      ExecuteActionSpec(r1, a).Some? ==>
        var r2 := ExecuteActionSpec(r1, a).value;
        AllValid(r2, order[1..])
        && RoundSteps(decide, n, r, order) ==
          Join([a], if IsBattleFinished(r2) then Steps(r2, [], false) else RoundSteps(decide, n, r2, order[1..]))
  {
    var r1 := ApplyChanges(r, changes);
    if ExecuteActionSpec(r1, a).Some? {
      ShapeKeepsValid(r, ExecuteActionSpec(r1, a).value, order);
    }
  }

  /** A round in which every unit on the turn order is already dead records nothing and changes
      nothing, whatever the decisions would have been. */
  lemma {:induction false} DeadUnitsAreSkipped(decide: Decider, n: int, r: Roster, order: seq<UnitRef>)
    requires AllValid(r, order)
    requires forall u :: u in order ==> !UnitAt(r, u).isAlive
    ensures RoundSteps(decide, n, r, order) == Steps(r, [], false)
  {
    if order != [] {
      ShapeKeepsValid(r, r, order);
      DeadUnitsAreSkipped(decide, n, r, order[1..]);
    }
  }

  /** A decision procedure that always passes without changes leaves the round empty. */
  lemma {:induction false} PassingRoundIsEmpty(decide: Decider, n: int, r: Roster, order: seq<UnitRef>)
    requires AllValid(r, order)
    requires forall u :: ValidRef(r, u) ==> decide(n, u, r) == Pass(map[])
    ensures RoundSteps(decide, n, r, order) == Steps(r, [], false)
  {
    if order != [] {
      ShapeKeepsValid(r, r, order);
      assert ApplyChanges(r, map[]) == r;
      PassingRoundIsEmpty(decide, n, r, order[1..]);
    }
  }

  /** With the as-written decision procedure the round throws exactly when some unit on the turn
      order is alive, and the rosters are untouched either way. */
  lemma {:induction false} AsWrittenRoundCrashes(n: int, r: Roster, order: seq<UnitRef>)
    requires AllValid(r, order)
    ensures var s := RoundSteps(AsWrittenDecider(), n, r, order);
      s.roster == r && s.actions == []
      && (s.faulted <==> exists u :: u in order && UnitAt(r, u).isAlive)
  {
    if order != [] {
      ShapeKeepsValid(r, r, order);
      AsWrittenRoundCrashes(n, r, order[1..]);
      if !UnitAt(r, order[0]).isAlive {
        var s := RoundSteps(AsWrittenDecider(), n, r, order);
        if s.faulted {
          var u :| u in order[1..] && UnitAt(r, u).isAlive;
          assert u in order;
        }
        if exists u :: u in order && UnitAt(r, u).isAlive {
          var u :| u in order && UnitAt(r, u).isAlive;
          assert u != order[0];
          assert u in order[1..] by {
            var k :| 0 <= k < |order| && order[k] == u;
            assert order[1..][k - 1] == u;
          }
        }
      }
    }
  }

  /** `GenerateRoundDescription`. */
  function RoundDescription(n: int, actions: seq<BattleAction>): (d: string)
    ensures |d| > 0 && (d[0] == '第' <==> actions == [])
  {
    if actions == [] then "第" + IntToText(n) + "回合：无动作" else "回合结束"
  }

  datatype RoundOutcome = RoundOutcome(roster: Roster, round: BattleRound, faulted: bool)

  /** `ExecuteRound`: the steps, then the (id-keyed) end-of-round snapshot and the description. */
  function PlayRound(decide: Decider, n: int, r: Roster, order: seq<UnitRef>): (o: RoundOutcome)
    requires AllValid(r, order)
    ensures SameShape(r, o.roster) && o.round.roundNumber == n
  {
    var s := RoundSteps(decide, n, r, order);
    RoundOutcome(s.roster, BattleRound(n, s.actions, RoundEndStates(s.roster), RoundDescription(n, s.actions)), s.faulted)
  }

  // ---------------------------------------------------------------- the whole battle

  datatype BattleRun = BattleRun(roster: Roster, rounds: seq<BattleRound>, faulted: bool)

  /** How one round is played from a roster; the battle loop is stated over any such procedure. */
  type RoundPlayer = (int, Roster) -> RoundOutcome

  /** `ExecuteRound` with a fixed decision procedure and turn order; a turn order naming a slot the
      rosters lack would throw. */
  function RoundOf(decide: Decider, order: seq<UnitRef>, n: int, r: Roster): RoundOutcome
  {
    if AllValid(r, order) then PlayRound(decide, n, r, order) else RoundOutcome(r, NewBattleRound(n), true)
  }

  function Rounds(decide: Decider, order: seq<UnitRef>): RoundPlayer
  {
    (n: int, r: Roster) => RoundOf(decide, order, n, r)
  }

  /** `play` plays every round as `ExecuteRound` does. The trigger keeps a round from being unfolded
      wherever `play` is applied: only an explicit mention of `RoundOf` instantiates it. */
  ghost predicate PlaysRounds(play: RoundPlayer, decide: Decider, order: seq<UnitRef>)
  {
    forall n: int, r: Roster {:trigger RoundOf(decide, order, n, r)} :: play(n, r) == RoundOf(decide, order, n, r)
  }

  lemma RoundsPlaysRounds(decide: Decider, order: seq<UnitRef>)
    ensures PlaysRounds(Rounds(decide, order), decide, order)
  {
  }

  /** The `while` loop of `ExecuteBattle`, from round `n` on. */
  function PlayBattle(play: RoundPlayer, r: Roster, n: int): (run: BattleRun)
    decreases MAX_ROUNDS + 1 - n
  {
    if IsBattleFinished(r) || n > MAX_ROUNDS then BattleRun(r, [], false)
    else
      var o := play(n, r);
      if o.faulted then BattleRun(o.roster, [], true)
      else
        var rest := PlayBattle(play, o.roster, n + 1);
        BattleRun(rest.roster, [o.round] + rest.rounds, rest.faulted)
  }

  /** A battle never records more rounds than the cap leaves. */
  lemma {:induction false} PlayBattleRoundCount(play: RoundPlayer, r: Roster, n: int)
    ensures |PlayBattle(play, r, n).rounds| <= Max(0, MAX_ROUNDS + 1 - n)
    decreases MAX_ROUNDS + 1 - n
  {
    if !(IsBattleFinished(r) || n > MAX_ROUNDS) && !play(n, r).faulted {
      PlayBattleRoundCount(play, play(n, r).roster, n + 1);
    }
  }

  /** Every round `ExecuteRound` produces carries the number it was asked to play. */
  lemma RoundsKeepNumber(decide: Decider, order: seq<UnitRef>)
    ensures forall n: int, r: Roster :: Rounds(decide, order)(n, r).round.roundNumber == n
  {
  }

  /** Rounds are numbered consecutively from `n` when each round carries its own number. */
  lemma {:induction false} PlayBattleNumbering(play: RoundPlayer, r: Roster, n: int)
    requires forall m: int, q: Roster :: play(m, q).round.roundNumber == m
    ensures var run := PlayBattle(play, r, n);
      forall i :: 0 <= i < |run.rounds| ==> run.rounds[i].roundNumber == n + i
    decreases MAX_ROUNDS + 1 - n
  {
    if !(IsBattleFinished(r) || n > MAX_ROUNDS) {
      var o := play(n, r);
      if !o.faulted {
        PlayBattleNumbering(play, o.roster, n + 1);
        var rest := PlayBattle(play, o.roster, n + 1);
        assert (var run' := PlayBattle(play, o.roster, n + 1); forall i :: 0 <= i < |run'.rounds| ==> run'.rounds[i].roundNumber == (n + 1) + i);
        var run := PlayBattle(play, r, n);
        assert run.rounds == [o.round] + rest.rounds;
        forall i | 0 <= i < |run.rounds| ensures run.rounds[i].roundNumber == n + i {
          if i > 0 {
            assert run.rounds[i] == rest.rounds[i - 1];
            assert rest.rounds[i - 1].roundNumber == n + 1 + (i - 1);
          } else {
            assert run.rounds[0] == o.round && o.round.roundNumber == n;
          }
        }
      }
    }
  }

  /** One turn of the battle loop, unfolded. */
  lemma PlayBattleStep(play: RoundPlayer, r: Roster, n: int)
    requires !IsBattleFinished(r) && n <= MAX_ROUNDS
    ensures var o := play(n, r);
      PlayBattle(play, r, n) ==
        if o.faulted then BattleRun(o.roster, [], true) else Prepend([o.round], PlayBattle(play, o.roster, n + 1))
  {
  }

  /** A battle that ends before the cap without an exception ends with one side wiped out. */
  lemma {:induction false} PlayBattleEndsFinished(play: RoundPlayer, r: Roster, n: int)
    ensures var run := PlayBattle(play, r, n);
      !run.faulted && n + |run.rounds| <= MAX_ROUNDS ==> IsBattleFinished(run.roster)
    decreases MAX_ROUNDS + 1 - n
  {
    if !(IsBattleFinished(r) || n > MAX_ROUNDS) && !play(n, r).faulted {
      PlayBattleEndsFinished(play, play(n, r).roster, n + 1);
    }
  }

  /** With the as-written decision procedure a battle throws exactly when it is not over before its
      first round (provided the turn order lists every unit). */
  lemma AsWrittenBattleCrashes(r: Roster, order: seq<UnitRef>)
    requires AllValid(r, order) && forall u :: ValidRef(r, u) ==> u in order
    ensures PlayBattle(Rounds(AsWrittenDecider(), order), r, 1).faulted <==> !IsBattleFinished(r)
  {
    if !IsBattleFinished(r) {
      AsWrittenRoundCrashes(1, r, order);
      var i :| 0 <= i < |r.players| && r.players[i].isAlive;
      assert UnitRef(Player, i) in order && UnitAt(r, UnitRef(Player, i)).isAlive;
    }
  }

  /** The units of one team, in slot order. */
  function CreateTeam(team: seq<Hero>): (units: seq<BattleUnit>)
    ensures |units| == |team| && forall i :: 0 <= i < |team| ==> units[i] == CreatePlayerUnit(team[i])
  {
    seq(|team|, i requires 0 <= i < |team| => CreatePlayerUnit(team[i]))
  }

  /** Freshly created units are all alive, so a battle is over before it starts only when a team is
      empty. */
  lemma NewBattleFinishedIffTeamEmpty(teamOne: seq<Hero>, teamTwo: seq<Hero>)
    ensures IsBattleFinished(Roster(CreateTeam(teamOne), CreateTeam(teamTwo))) <==> teamOne == [] || teamTwo == []
  {
    var r := Roster(CreateTeam(teamOne), CreateTeam(teamTwo));
    if teamOne != [] { assert r.players[0].isAlive; }
    if teamTwo != [] { assert r.enemies[0].isAlive; }
  }

  /** `CalculateBattle`: the finished record, or `None` when the computation throws. */
  function CalculateBattleSpec(teamOne: seq<Hero>, teamTwo: seq<Hero>, battleId: string, tieKeys: seq<int>,
                               decide: Decider): Option<CompleteBattleData>
    requires |tieKeys| == |teamOne| + |teamTwo|
  {
    var r := Roster(CreateTeam(teamOne), CreateTeam(teamTwo));
    BattleRecord(battleId, PlayBattle(Rounds(decide, TurnOrder(r, tieKeys)), r, 1))
  }

  /** The record `CalculateBattle` returns for a battle run. */
  function BattleRecord(battleId: string, run: BattleRun): Option<CompleteBattleData>
  {
    if run.faulted then None
    else Some(CompleteBattleData(battleId, DetermineBattleResult(run.roster), run.rounds,
                                 Some(BattleStatistics(0, 0, 0, 0, 0)), |run.rounds|))
  }

  /** A completed record has at most `MAX_ROUNDS` rounds numbered 1, 2, ..., counts them in
      `totalRounds` and carries a decided result, the verdict on the final rosters. A battle that
      ends with both sides standing played all `MAX_ROUNDS` rounds and is a Draw; a Draw before the
      cap means both sides were wiped out. */
  lemma CalculateBattleFacts(teamOne: seq<Hero>, teamTwo: seq<Hero>, battleId: string, tieKeys: seq<int>,
                             decide: Decider)
    requires |tieKeys| == |teamOne| + |teamTwo|
    ensures var data := CalculateBattleSpec(teamOne, teamTwo, battleId, tieKeys, decide);
      data.Some? ==>
        data.value.battleId == battleId
        && data.value.totalRounds == |data.value.rounds| <= MAX_ROUNDS
        && (forall i :: 0 <= i < |data.value.rounds| ==> data.value.rounds[i].roundNumber == i + 1)
        && data.value.result != Undecided
        && (teamOne == [] || teamTwo == [] ==> data.value.rounds == [])
    ensures var r := Roster(CreateTeam(teamOne), CreateTeam(teamTwo));
      var final := PlayBattle(Rounds(decide, TurnOrder(r, tieKeys)), r, 1).roster;
      var data := CalculateBattleSpec(teamOne, teamTwo, battleId, tieKeys, decide);
      data.Some? ==>
        data.value.result == DetermineBattleResult(final)
        && (AnyAlive(final.players) && AnyAlive(final.enemies) ==>
              |data.value.rounds| == MAX_ROUNDS && data.value.result == Draw)
        && (|data.value.rounds| < MAX_ROUNDS && data.value.result == Draw ==>
              !AnyAlive(final.players) && !AnyAlive(final.enemies))
  {
    var r := Roster(CreateTeam(teamOne), CreateTeam(teamTwo));
    PlayBattleRoundCount(Rounds(decide, TurnOrder(r, tieKeys)), r, 1);
    RoundsKeepNumber(decide, TurnOrder(r, tieKeys));
    PlayBattleNumbering(Rounds(decide, TurnOrder(r, tieKeys)), r, 1);
    NewBattleFinishedIffTeamEmpty(teamOne, teamTwo);
    PlayBattleEndsFinished(Rounds(decide, TurnOrder(r, tieKeys)), r, 1);
  }

  /** As written, `CalculateBattle` throws whenever both teams are non-empty. */
  lemma AsWrittenCalculateBattleCrashes(teamOne: seq<Hero>, teamTwo: seq<Hero>, battleId: string, tieKeys: seq<int>)
    requires |tieKeys| == |teamOne| + |teamTwo|
    ensures CalculateBattleSpec(teamOne, teamTwo, battleId, tieKeys, AsWrittenDecider()).None?
      <==> teamOne != [] && teamTwo != []
  {
    var r := Roster(CreateTeam(teamOne), CreateTeam(teamTwo));
    TurnOrderCorrect(r, tieKeys);
    NewBattleFinishedIffTeamEmpty(teamOne, teamTwo);
    AsWrittenBattleCrashes(r, TurnOrder(r, tieKeys));
  }

  // ---------------------------------------------------------------- the calculator object

  class BattleCalculator {
    var players: seq<BattleUnit>
    var enemies: seq<BattleUnit>
    var turnOrder: seq<UnitRef>
    var battleData: CompleteBattleData
    var unitSkills: map<int, seq<int>>
    var skillCooldowns: Cooldowns

    function Units(): Roster
      reads this
    {
      Roster(players, enemies)
    }

    constructor()
      ensures players == [] && enemies == [] && turnOrder == []
      ensures unitSkills == map[] && skillCooldowns == map[]
    {
      players := [];
      enemies := [];
      turnOrder := [];
      battleData := NewCompleteBattleData("");
      unitSkills := map[];
      skillCooldowns := map[];
    }

    /** `GetUnitSkills`: an unknown unit has no skills. */
    function GetUnitSkills(unitId: int): (skills: seq<int>)
      reads this
      ensures unitId in unitSkills ==> skills == unitSkills[unitId]
      ensures unitId !in unitSkills ==> skills == []
    {
      if unitId in unitSkills then unitSkills[unitId] else []
    }

    /** `GetUnitSkillCooldowns`: an unknown unit has an empty table. */
    function GetUnitSkillCooldowns(unitId: int): (table: map<int, int>)
      reads this
      ensures unitId in skillCooldowns ==> table == skillCooldowns[unitId]
      ensures unitId !in skillCooldowns ==> table == map[]
    {
      if unitId in skillCooldowns then skillCooldowns[unitId] else map[]
    }

    /** `InitializePlayerUnits`: slot `i` holds the unit made from the `i`-th hero. */
    method InitializePlayerUnits(team: seq<Hero>)
      modifies this`players
      ensures players == CreateTeam(team)
    {
      players := [];
      for i := 0 to |team|
        invariant players == CreateTeam(team[..i])
      {
        assert CreateTeam(team[..i + 1]) == CreateTeam(team[..i]) + [CreatePlayerUnit(team[i])];
        players := players + [CreatePlayerUnit(team[i])];
      }
      assert team[..|team|] == team;
    }

    /** `InitializeEnemyUnits`. */
    method InitializeEnemyUnits(team: seq<Hero>)
      modifies this`enemies
      ensures enemies == CreateTeam(team)
    {
      enemies := [];
      for i := 0 to |team|
        invariant enemies == CreateTeam(team[..i])
      {
        assert CreateTeam(team[..i + 1]) == CreateTeam(team[..i]) + [CreatePlayerUnit(team[i])];
        enemies := enemies + [CreatePlayerUnit(team[i])];
      }
      assert team[..|team|] == team;
    }

    /** `InitializeUnitSkills`: the unit's skill list is replaced and every listed skill is ready. */
    method InitializeUnitSkills(unitId: int, skillIds: seq<int>)
      modifies this`unitSkills, this`skillCooldowns
      ensures unitSkills == old(unitSkills)[unitId := skillIds]
      ensures skillCooldowns == old(skillCooldowns)[unitId := InitialCooldowns(skillIds)]
      ensures forall s :: !IsSkillOnCooldown(skillCooldowns, unitId, s)
    {
      unitSkills := unitSkills[unitId := skillIds];
      var table: map<int, int> := map[];
      for i := 0 to |skillIds|
        invariant table == InitialCooldowns(skillIds[..i])
      {
        assert skillIds[..i + 1] == skillIds[..i] + [skillIds[i]];
        table := table[skillIds[i] := 0];
      }
      assert skillIds[..|skillIds|] == skillIds;
      skillCooldowns := skillCooldowns[unitId := table];
    }

    /** `SetSkillCooldown`. */
    method SetSkillCooldown(unitId: int, skillId: int, cooldown: int)
      modifies this`skillCooldowns
      ensures skillCooldowns == SetCooldown(old(skillCooldowns), unitId, skillId, cooldown)
    {
      if unitId !in skillCooldowns {
        skillCooldowns := skillCooldowns[unitId := map[]];
      }
      skillCooldowns := skillCooldowns[unitId := skillCooldowns[unitId][skillId := cooldown]];
    }

    /** `UpdateSkillCooldowns`: the loop over a snapshot of the unit's skill ids. */
    method UpdateSkillCooldowns(unitId: int)
      modifies this`skillCooldowns
      ensures skillCooldowns == UpdateCooldowns(old(skillCooldowns), unitId)
    {
      if unitId !in skillCooldowns {
        return;
      }
      var start := skillCooldowns[unitId];
      var cooldowns := start;
      var keys := start.Keys;
      while keys != {}
        invariant keys <= start.Keys && cooldowns.Keys == start.Keys && skillCooldowns == old(skillCooldowns)
        invariant forall s :: s in start && s !in keys ==> cooldowns[s] == (if start[s] > 0 then start[s] - 1 else start[s])
        invariant forall s :: s in keys ==> cooldowns[s] == start[s]
        decreases keys
      {
        ghost var member := NonEmptyHasMember(keys);
        var s :| s in keys;
        if cooldowns[s] > 0 {
          cooldowns := cooldowns[s := cooldowns[s] - 1];
        }
        keys := keys - {s};
      }
      assert forall s :: s in start ==> cooldowns[s] == TickDown(start)[s];
      assert cooldowns == TickDown(start);
      skillCooldowns := skillCooldowns[unitId := cooldowns];
    }

    /** `CanUseSkill`: every release condition must hold. `allUnits` is what `GetAllUnits` supplies
        (the empty list in this class). */
    method CanUseSkill(unit: BattleUnit, skill: SkillDefinition, allUnits: seq<BattleUnit>) returns (ok: bool)
      ensures ok <==> AllConditionsHold(unit, skill.conditions, allUnits)
    {
      for i := 0 to |skill.conditions|
        invariant forall k :: 0 <= k < i ==> EvaluateSkillCondition(unit, skill.conditions[k], allUnits)
      {
        if !EvaluateSkillCondition(unit, skill.conditions[i], allUnits) {
          return false;
        }
      }
      return true;
    }

    /** `CalculateTurnOrder`. */
    method CalculateTurnOrder(tieKeys: seq<int>)
      requires |tieKeys| == |players| + |enemies|
      modifies this`turnOrder
      ensures turnOrder == TurnOrder(Units(), tieKeys)
    {
      turnOrder := [];
      turnOrder := TurnOrder(Units(), tieKeys);
    }

    /** `CheckUnitDeath`. */
    method CheckUnitDeath(refs: seq<UnitRef>)
      requires AllValid(Units(), refs)
      modifies this`players, this`enemies
      ensures Units() == CheckDeath(old(Units()), refs)
    {
      ghost var r0 := Units();
      for i := 0 to |refs|
        invariant SameShape(r0, Units())
        invariant Units() == CheckDeath(r0, refs[..i])
      {
        assert refs[..i + 1][..i] == refs[..i];
        assert refs[i] in refs;
        var u := refs[i];
        var unit := UnitAt(Units(), u);
        if unit.currentHp <= 0 && unit.isAlive {
          if u.side == Player {
            players := players[u.slot := unit.(isAlive := false)];
          } else {
            enemies := enemies[u.slot := unit.(isAlive := false)];
          }
        }
      }
      assert refs[..|refs|] == refs;
    }

    /** `ExecuteAction`: `true` when it throws. */
    method ExecuteAction(action: BattleAction) returns (faulted: bool)
      modifies this`players, this`enemies
      ensures faulted <==> ExecuteActionSpec(old(Units()), action).None?
      ensures !faulted ==> Units() == ExecuteActionSpec(old(Units()), action).value
      ensures faulted ==> Units() == old(Units())
    {
      var target := GetUnitByIds(Units(), action.targetUnitIds);
      match target {
        case None =>
          return true;
        case Some(refs) =>
          CheckUnitDeath(refs);
          return false;
      }
    }

    /** `SaveRoundEndStates`, keyed by unit id (the as-written slot keys are `RoundEndStatesAsWritten`). */
    method SaveRoundEndStates(round: BattleRound) returns (saved: BattleRound)
      ensures saved == round.(unitStates := SnapshotById(SnapshotById(round.unitStates, players), enemies))
    {
      var states := SnapshotTeam(round.unitStates, players);
      states := SnapshotTeam(states, enemies);
      saved := round.(unitStates := states);
    }

    /** One unit's turn inside `ExecuteRound`: a dead unit is skipped; a living one's decision is
        applied, its action executed and the battle-finished check made. `stop` ends the round,
        because the battle is over or because an exception was thrown (`faulted`). */
    method TakeTurn(roundNumber: int, decide: Decider, u: UnitRef, ghost order: seq<UnitRef>)
      returns (acted: seq<BattleAction>, stop: bool, faulted: bool)
      requires order != [] && order[0] == u && AllValid(Units(), order)
      modifies this`players, this`enemies
      ensures SameShape(old(Units()), Units()) && AllValid(Units(), order[1..])
      ensures faulted ==> stop
      ensures stop ==> RoundSteps(decide, roundNumber, old(Units()), order) == Steps(Units(), acted, faulted)
      ensures !stop ==>
        RoundSteps(decide, roundNumber, old(Units()), order) == Join(acted, RoundSteps(decide, roundNumber, Units(), order[1..]))
    {
      ghost var before := Units();
      acted, stop, faulted := [], false, false;
      ShapeKeepsValid(before, before, order);
      assert u in order;
      if !UnitAt(Units(), u).isAlive {
        RoundStepSkip(decide, roundNumber, before, order);
        return;
      }
      match decide(roundNumber, u, Units()) {
        case Crash =>
          RoundStepCrash(decide, roundNumber, before, order);
          stop, faulted := true, true;
        case Pass(changes) =>
          RoundStepPass(decide, roundNumber, before, order, changes);
          var r1 := ApplyChanges(Units(), changes);
          players, enemies := r1.players, r1.enemies;
          ShapeKeepsValid(before, Units(), order);
          stop := IsBattleFinished(Units());
        case Act(a, changes) =>
          RoundStepAct(decide, roundNumber, before, order, a, changes);
          var r1 := ApplyChanges(Units(), changes);
          players, enemies := r1.players, r1.enemies;
          var f := ExecuteAction(a);
          ShapeKeepsValid(before, Units(), order);
          if f {
            stop, faulted := true, true;
          } else {
            acted := [a];
            stop := IsBattleFinished(Units());
          }
      }
    }

    /** The `foreach` of `ExecuteRound` over the turn order. */
    method RunTurns(roundNumber: int, decide: Decider) returns (actions: seq<BattleAction>, faulted: bool)
      requires AllValid(Units(), turnOrder)
      modifies this`players, this`enemies
      ensures RoundSteps(decide, roundNumber, old(Units()), turnOrder) == Steps(Units(), actions, faulted)
    {
      ghost var r0 := Units();
      ghost var target := RoundSteps(decide, roundNumber, r0, turnOrder);
      actions := [];
      var i := 0;
      var done := false;
      faulted := false;
      while i < |turnOrder| && !done
        invariant 0 <= i <= |turnOrder|
        invariant AllValid(Units(), turnOrder)
        invariant !done ==> !faulted
        invariant !done ==> Join(actions, RoundSteps(decide, roundNumber, Units(), turnOrder[i..])) == target
        invariant done ==> target == Steps(Units(), actions, faulted)
        decreases |turnOrder| - i, !done
      {
        ghost var before := Units();
        ghost var rest := turnOrder[i..];
        assert rest[0] == turnOrder[i] && rest[1..] == turnOrder[i + 1..];
        assert AllValid(Units(), rest) by {
          forall x | x in rest ensures ValidRef(Units(), x) { assert x in turnOrder; }
        }
        var acted, stop, f := TakeTurn(roundNumber, decide, turnOrder[i], rest);
        ShapeKeepsValid(before, Units(), turnOrder);
        if stop {
          actions := actions + acted;
          done, faulted := true, f;
        } else {
          JoinJoin(actions, acted, RoundSteps(decide, roundNumber, Units(), turnOrder[i + 1..]));
          actions := actions + acted;
          i := i + 1;
        }
      }
      if !done {
        assert turnOrder[i..] == [];
      }
    }

    /** `ExecuteRound`. On an exception (`faulted`) the round is discarded. */
    method ExecuteRound(roundNumber: int, decide: Decider, ghost play: RoundPlayer) returns (round: BattleRound, faulted: bool)
      requires AllValid(Units(), turnOrder) && PlaysRounds(play, decide, turnOrder)
      modifies this`players, this`enemies
      ensures SameShape(old(Units()), Units())
      ensures var o := play(roundNumber, old(Units()));
        Units() == o.roster && faulted == o.faulted && (!faulted ==> round == o.round)
    {
      assert play(roundNumber, Units()) == RoundOf(decide, turnOrder, roundNumber, Units());
      round := NewBattleRound(roundNumber);
      var actions;
      actions, faulted := RunTurns(roundNumber, decide);
      if faulted {
        return;
      }
      round := round.(actions := actions);
      round := SaveRoundEndStates(round);
      round := round.(roundDescription := RoundDescription(roundNumber, round.actions));
    }

    /** `ExecuteBattle`. */
    method ExecuteBattle(decide: Decider, ghost play: RoundPlayer, ghost run: BattleRun) returns (faulted: bool)
      requires AllValid(Units(), turnOrder) && PlaysRounds(play, decide, turnOrder)
      requires run == PlayBattle(play, Units(), 1) && battleData.rounds == []
      modifies this`players, this`enemies, this`battleData
      ensures Units() == run.roster && faulted == run.faulted
      ensures !faulted ==> battleData == old(battleData).(rounds := run.rounds, result := DetermineBattleResult(run.roster))
    {
      ghost var rest := run;
      var roundNumber := 1;
      faulted := false;
      while !IsBattleFinished(Units()) && roundNumber <= MAX_ROUNDS
        invariant 1 <= roundNumber <= MAX_ROUNDS + 1
        invariant AllValid(Units(), turnOrder)
        invariant battleData.battleId == old(battleData).battleId && battleData.result == old(battleData).result
        invariant battleData.statistics == old(battleData).statistics && battleData.totalRounds == old(battleData).totalRounds
        invariant rest == PlayBattle(play, Units(), roundNumber)
        invariant run == Prepend(battleData.rounds, rest)
        decreases MAX_ROUNDS + 1 - roundNumber
      {
        var round, f;
        ghost var rest';
        round, f, rest' := NextRound(roundNumber, decide, play, rest);
        if f {
          faulted := true;
          return;
        }
        PrependTwice(battleData.rounds, round, rest');
        battleData := battleData.(rounds := battleData.rounds + [round]);
        rest := rest';
        roundNumber := roundNumber + 1;
      }
      BattleStops(play, Units(), roundNumber);
      battleData := battleData.(result := DetermineBattleResult(Units()));
    }

    /** One pass of `ExecuteBattle`'s loop: round `roundNumber` is played, and either the run
        from the first round ends there with a throw, or it continues from the new roster. */
    method NextRound(roundNumber: int, decide: Decider, ghost play: RoundPlayer,
                     ghost rest: BattleRun)
      returns (round: BattleRound, faulted: bool, ghost rest': BattleRun)
      requires !IsBattleFinished(Units()) && roundNumber <= MAX_ROUNDS
      requires AllValid(Units(), turnOrder) && PlaysRounds(play, decide, turnOrder)
      requires rest == PlayBattle(play, Units(), roundNumber)
      modifies this`players, this`enemies
      ensures AllValid(Units(), turnOrder)
      ensures faulted ==> Units() == rest.roster && rest.faulted
      ensures !faulted ==> rest' == PlayBattle(play, Units(), roundNumber + 1) && rest == Prepend([round], rest')
    {
      ghost var before := Units();
      round, faulted := ExecuteRound(roundNumber, decide, play);
      ShapeKeepsValid(before, Units(), turnOrder);
      rest' := PlayBattle(play, Units(), roundNumber + 1);
    }

    /** `CalculateBattle`; `battleId` stands for the generated GUID, `tieKeys` for the random
        tie-break draws of the turn order; `None` when the computation throws. */
    method CalculateBattle(teamOne: seq<Hero>, teamTwo: seq<Hero>, battleId: string, tieKeys: seq<int>,
                           decide: Decider) returns (data: Option<CompleteBattleData>)
      requires |tieKeys| == |teamOne| + |teamTwo|
      modifies this`players, this`enemies, this`turnOrder, this`battleData
      ensures data == CalculateBattleSpec(teamOne, teamTwo, battleId, tieKeys, decide)
    {
      battleData := NewCompleteBattleData(battleId);
      InitializePlayerUnits(teamOne);
      InitializeEnemyUnits(teamTwo);
      CalculateTurnOrder(tieKeys);
      RoundsPlaysRounds(decide, turnOrder);
      data := FinishBattle(battleId, decide, Rounds(decide, turnOrder));
    }

    /** The second half of `CalculateBattle`: run the battle loop on the fresh record, then fill in
        the round count and the (all-zero) statistics. */
    method FinishBattle(battleId: string, decide: Decider, ghost play: RoundPlayer) returns (data: Option<CompleteBattleData>)
      requires battleData == NewCompleteBattleData(battleId)
      requires AllValid(Units(), turnOrder) && PlaysRounds(play, decide, turnOrder)
      modifies this`players, this`enemies, this`battleData
      ensures data == BattleRecord(battleId, PlayBattle(play, old(Units()), 1))
    {
      ghost var run := PlayBattle(play, Units(), 1);
      var f := ExecuteBattle(decide, play, run);
      if f {
        return None;
      }
      battleData := battleData.(totalRounds := |battleData.rounds|);
      battleData := battleData.(statistics := Some(BattleStatistics(0, 0, 0, 0, 0)));
      return Some(battleData);
    }
  }

  function Join(actions: seq<BattleAction>, s: Steps): Steps
  {
    Steps(s.roster, actions + s.actions, s.faulted)
  }

  lemma JoinJoin(first: seq<BattleAction>, second: seq<BattleAction>, s: Steps)
    ensures Join(first, Join(second, s)) == Join(first + second, s)
  {
    assert first + (second + s.actions) == (first + second) + s.actions;
  }

  /** The battle loop has nothing left to play once one side is wiped out or the cap is passed. */
  lemma BattleStops(play: RoundPlayer, r: Roster, n: int)
    requires IsBattleFinished(r) || n > MAX_ROUNDS
    ensures PlayBattle(play, r, n) == BattleRun(r, [], false)
  {
  }

  /** Recording one more round moves it from the run still to come to the recorded prefix. */
  lemma PrependTwice(recorded: seq<BattleRound>, round: BattleRound, rest: BattleRun)
    ensures Prepend(recorded, Prepend([round], rest)) == Prepend(recorded + [round], rest)
  {
    assert recorded + ([round] + rest.rounds) == (recorded + [round]) + rest.rounds;
  }

  /** The loop invariants' bookkeeping: what is already recorded, followed by what is still to come. */
  function Prepend(rounds: seq<BattleRound>, run: BattleRun): BattleRun
  {
    BattleRun(run.roster, rounds + run.rounds, run.faulted)
  }
}
