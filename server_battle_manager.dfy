/** The request front of Battle/Logic/ServerBattleManager.cs: a battle request is checked, the
    battle is computed by a `BattleCalculator`, and a finished record is kept under its battle id
    for later queries. A throw anywhere in the computation becomes an error response. */
module BattleServer {
  import opened Common
  import opened BattleData
  import opened BattleCalc

  const MSG_INVALID_REQUEST: string := "战斗请求参数无效"
  const MSG_SERVER_ERROR: string := "服务器处理战斗时发生错误"
  const MSG_BATTLE_COMPLETE: string := "战斗计算完成"

  /** `BattleLoadCompleteResponse`; the id and the record are `None` (null) on an error. */
  datatype BattleLoadCompleteResponse = BattleLoadCompleteResponse(
    success: bool,
    battleId: Option<string>,
    battleData: Option<CompleteBattleData>,
    message: string)

  /** `CreateErrorResponse`. */
  function ErrorResponse(message: string): BattleLoadCompleteResponse
  {
    BattleLoadCompleteResponse(false, None, None, message)
  }

  /** A team the server accepts: present (not null) with one to `MAX_UNITS_PER_SIDE` heroes. */
  predicate TeamSizeOk(team: Option<seq<Hero>>)
  {
    team.Some? && 0 < |team.value| <= MAX_UNITS_PER_SIDE
  }

  /** `ValidateBattleRequest`: the player id first, then each team in turn. */
  function ValidateBattleRequest(playerId: int, teamOne: Option<seq<Hero>>, teamTwo: Option<seq<Hero>>): (ok: bool)
    ensures ok <==> playerId > 0 && TeamSizeOk(teamOne) && TeamSizeOk(teamTwo)
    ensures ok ==> |teamOne.value| + |teamTwo.value| <= 2 * MAX_UNITS_PER_SIDE
  {
    if playerId <= 0 then false
    else if teamOne.None? || |teamOne.value| == 0 || |teamOne.value| > MAX_UNITS_PER_SIDE then false
    else if teamTwo.None? || |teamTwo.value| == 0 || |teamTwo.value| > MAX_UNITS_PER_SIDE then false
    else true
  }

  /** The random tie-break draws cover both teams of a valid request. */
  predicate TieKeysFit(playerId: int, teamOne: Option<seq<Hero>>, teamTwo: Option<seq<Hero>>, tieKeys: seq<int>)
  {
    ValidateBattleRequest(playerId, teamOne, teamTwo) ==> |tieKeys| == |teamOne.value| + |teamTwo.value|
  }

  /** The battle a valid request computes, or `None` when the calculation throws. */
  function Computed(playerId: int, teamOne: Option<seq<Hero>>, teamTwo: Option<seq<Hero>>, battleId: string,
                    tieKeys: seq<int>, decide: Decider): Option<CompleteBattleData>
    requires ValidateBattleRequest(playerId, teamOne, teamTwo) && TieKeysFit(playerId, teamOne, teamTwo, tieKeys)
  {
    CalculateBattleSpec(teamOne.value, teamTwo.value, battleId, tieKeys, decide)
  }

  /** The response `HandleBattleRequest` gives: the "invalid parameters" error for an invalid
      request, success exactly when a valid request's calculation completes, and neither id nor
      record on a failure. */
  function Response(playerId: int, teamOne: Option<seq<Hero>>, teamTwo: Option<seq<Hero>>, battleId: string,
                    tieKeys: seq<int>, decide: Decider): (r: BattleLoadCompleteResponse)
    requires TieKeysFit(playerId, teamOne, teamTwo, tieKeys)
    ensures !ValidateBattleRequest(playerId, teamOne, teamTwo) ==> !r.success && r.message == MSG_INVALID_REQUEST
    ensures r.success <==>
      ValidateBattleRequest(playerId, teamOne, teamTwo) && Computed(playerId, teamOne, teamTwo, battleId, tieKeys, decide).Some?
    ensures r.success ==> r.message == MSG_BATTLE_COMPLETE && r.battleId.Some? && r.battleData.Some?
    ensures !r.success ==> r.battleId.None? && r.battleData.None?
  {
    if !ValidateBattleRequest(playerId, teamOne, teamTwo) then ErrorResponse(MSG_INVALID_REQUEST)
    else
      var data := Computed(playerId, teamOne, teamTwo, battleId, tieKeys, decide);
      if data.None? then ErrorResponse(MSG_SERVER_ERROR)
      else BattleLoadCompleteResponse(true, Some(data.value.battleId), data, MSG_BATTLE_COMPLETE)
  }

  /** The stored battles after `HandleBattleRequest`: a failed request stores nothing, and a
      successful one files exactly the record it answers with, under the id it answers with. */
  function StoreAfter(store: map<string, CompleteBattleData>, playerId: int, teamOne: Option<seq<Hero>>,
                      teamTwo: Option<seq<Hero>>, battleId: string, tieKeys: seq<int>, decide: Decider)
    : (after: map<string, CompleteBattleData>)
    requires TieKeysFit(playerId, teamOne, teamTwo, tieKeys)
    ensures var r := Response(playerId, teamOne, teamTwo, battleId, tieKeys, decide);
      (!r.success ==> after == store)
      && (r.success ==> after == store[r.battleId.value := r.battleData.value])
  {
    if !ValidateBattleRequest(playerId, teamOne, teamTwo) then store
    else
      var data := Computed(playerId, teamOne, teamTwo, battleId, tieKeys, decide);
      if data.None? then store else store[data.value.battleId := data.value]
  }

  /** `GetBattleData` on a store: `None` (null) for an unknown id. */
  function StoredBattle(store: map<string, CompleteBattleData>, battleId: string): (r: Option<CompleteBattleData>)
    ensures r.Some? <==> battleId in store
    ensures r.Some? ==> r.value == store[battleId]
  {
    if battleId !in store then None else Some(store[battleId])
  }

  /** A successful request files its battle under the request's battle id, answers with that id
      and that record, and a later query for the id, by any player, finds it. */
  lemma SuccessfulBattleIsRetrievable(store: map<string, CompleteBattleData>, playerId: int,
                                      teamOne: Option<seq<Hero>>, teamTwo: Option<seq<Hero>>, battleId: string,
                                      tieKeys: seq<int>, decide: Decider)
    requires TieKeysFit(playerId, teamOne, teamTwo, tieKeys)
    requires Response(playerId, teamOne, teamTwo, battleId, tieKeys, decide).success
    ensures var r := Response(playerId, teamOne, teamTwo, battleId, tieKeys, decide);
      var after := StoreAfter(store, playerId, teamOne, teamTwo, battleId, tieKeys, decide);
      r.battleId == Some(battleId) && r.battleData.Some? && r.battleData.value.battleId == battleId
      && after == store[battleId := r.battleData.value]
      && StoredBattle(after, battleId) == r.battleData
  {
    CalculateBattleFacts(teamOne.value, teamTwo.value, battleId, tieKeys, decide);
  }

  /** With `DecideUnitAction` as written, every valid request throws inside the calculation:
      the server answers with its internal-error message and stores nothing. */
  lemma AsWrittenEveryRequestFails(store: map<string, CompleteBattleData>, playerId: int,
                                   teamOne: Option<seq<Hero>>, teamTwo: Option<seq<Hero>>, battleId: string,
                                   tieKeys: seq<int>)
    requires TieKeysFit(playerId, teamOne, teamTwo, tieKeys)
    requires ValidateBattleRequest(playerId, teamOne, teamTwo)
    ensures Response(playerId, teamOne, teamTwo, battleId, tieKeys, AsWrittenDecider()) == ErrorResponse(MSG_SERVER_ERROR)
    ensures StoreAfter(store, playerId, teamOne, teamTwo, battleId, tieKeys, AsWrittenDecider()) == store
  {
    AsWrittenCalculateBattleCrashes(teamOne.value, teamTwo.value, battleId, tieKeys);
  }

  /** `ServerBattleManager`: the stored battles and the calculator that computes them. */
  class ServerBattleManager {
    var activeBattles: map<string, CompleteBattleData>
    const battleCalculator: BattleCalculator

    /** An empty store and a new calculator. */
    constructor ()
      ensures activeBattles == map[] && fresh(battleCalculator)
    {
      activeBattles := map[];
      battleCalculator := new BattleCalculator();
    }

    /** `HandleBattleRequest`; `battleId` stands for the generated GUID, `tieKeys` for the random
        tie-break draws and `decide` for the unit decision procedure. */
    method HandleBattleRequest(playerId: int, teamOne: Option<seq<Hero>>, teamTwo: Option<seq<Hero>>,
                               battleId: string, tieKeys: seq<int>, decide: Decider)
      returns (response: BattleLoadCompleteResponse)
      requires TieKeysFit(playerId, teamOne, teamTwo, tieKeys)
      modifies this`activeBattles, battleCalculator`players, battleCalculator`enemies,
               battleCalculator`turnOrder, battleCalculator`battleData
      ensures response == Response(playerId, teamOne, teamTwo, battleId, tieKeys, decide)
      ensures activeBattles == StoreAfter(old(activeBattles), playerId, teamOne, teamTwo, battleId, tieKeys, decide)
    {
      if !ValidateBattleRequest(playerId, teamOne, teamTwo) {
        return ErrorResponse(MSG_INVALID_REQUEST);
      }
      var battleData := battleCalculator.CalculateBattle(teamOne.value, teamTwo.value, battleId, tieKeys, decide);
      if battleData.None? {
        return ErrorResponse(MSG_SERVER_ERROR);
      }
      activeBattles := activeBattles[battleData.value.battleId := battleData.value];
      response := BattleLoadCompleteResponse(true, Some(battleData.value.battleId), battleData, MSG_BATTLE_COMPLETE);
    }

    /** `GetBattleData`: the stored record whatever the player id, `None` (null) if unknown. */
    function GetBattleData(playerId: int, battleId: string): (r: Option<CompleteBattleData>)
      reads this
      ensures r == StoredBattle(activeBattles, battleId)
    {
      if battleId !in activeBattles then None else Some(activeBattles[battleId])
    }
  }
}
