/** The field router: which entity a logical field is read from. */
module Router {
  import opened Options
  import opened Variants
  import opened Snapshot
  import opened PropTypes
  import opened Coords

  /** The one configuration error: a Custom-kind name that is not an axis. */
  datatype PropError = UnknownCustomProp(name: string)

  const TEAM_NUM_PROP: string := "CCSPlayerPawn.m_iTeamNum"
  const PAWN_ALIVE_PROP: string := "CCSPlayerController.m_bPawnIsAlive"

  /** Names answered from the tick counter or player metadata, before the table. */
  predicate IsMetadataName(name: string) {
    name == "tick" || name == "steamid" || name == "name"
  }

  /** The team slot a raw team number selects: 1, 2 and 3 pick the three slots. */
  function TeamSlot(teams: Teams, teamNum: bv32): (r: Option<EntityId>)
    ensures teamNum == 1 ==> r == teams.team1Entid
    ensures teamNum == 2 ==> r == teams.team2Entid
    ensures teamNum == 3 ==> r == teams.team3Entid
    ensures !(1 <= teamNum <= 3) ==> r == None
  {
    match teamNum
    case 1 => teams.team1Entid
    case 2 => teams.team2Entid
    case 3 => teams.team3Entid
    case _ => None
  }

  /** The team entity for the pawn `playerEntid`: its team number must be stored
      as a `U32`, and must select a filled slot. */
  function TeamEntityOf(s: TickState, playerEntid: EntityId): (r: Option<EntityId>)
    ensures match GetPropForEnt(s, TEAM_NUM_PROP, playerEntid)
            case Some(U32(n)) => r == TeamSlot(s.teams, n)
            case _ => r == None
    ensures r.Some? ==>
      exists n: bv32 :: 1 <= n <= 3 && GetPropForEnt(s, TEAM_NUM_PROP, playerEntid) == Some(U32(n))
    ensures r.Some? <==>
      (GetPropForEnt(s, TEAM_NUM_PROP, playerEntid) == Some(U32(1)) && s.teams.team1Entid.Some?) ||
      (GetPropForEnt(s, TEAM_NUM_PROP, playerEntid) == Some(U32(2)) && s.teams.team2Entid.Some?) ||
      (GetPropForEnt(s, TEAM_NUM_PROP, playerEntid) == Some(U32(3)) && s.teams.team3Entid.Some?)
  {
    match GetPropForEnt(s, TEAM_NUM_PROP, playerEntid)
    case Some(U32(teamNum)) => TeamSlot(s.teams, teamNum)
    case _ => None
  }

  /** `find_team_prop`: the field read off the team entity of the pawn's team. */
  function FindTeamProp(s: TickState, playerEntid: EntityId, prop: string): (r: Option<Variant>)
    ensures r.Some? ==> TeamEntityOf(s, playerEntid).Some?
    ensures TeamEntityOf(s, playerEntid).Some? ==> r == GetPropForEnt(s, prop, TeamEntityOf(s, playerEntid).value)
  {
    match GetPropForEnt(s, TEAM_NUM_PROP, playerEntid)
    case Some(U32(teamNum)) =>
      var teamEntid := TeamSlot(s.teams, teamNum);
      if teamEntid.Some? then GetPropForEnt(s, prop, teamEntid.value) else None
    case _ => None
  }

  /** A pawn storing team number 2 reads team fields off the second slot's
      entity, when that slot is filled. */
  lemma SecondTeamReadsSecondSlot(s: TickState, playerEntid: EntityId, prop: string)
    requires GetPropForEnt(s, TEAM_NUM_PROP, playerEntid) == Some(U32(2))
    requires s.teams.team2Entid.Some?
    ensures FindTeamProp(s, playerEntid, prop) == GetPropForEnt(s, prop, s.teams.team2Entid.value)
  {
  }

  /** Teammates see the same team fields: two pawns carrying the same team number
      read the same team entity. */
  lemma TeammatesShareTeamProps(s: TickState, p1: EntityId, p2: EntityId, prop: string)
    requires GetPropForEnt(s, TEAM_NUM_PROP, p1) == GetPropForEnt(s, TEAM_NUM_PROP, p2)
    ensures FindTeamProp(s, p1, prop) == FindTeamProp(s, p2, prop)
  {
  }

  /** A team number that is not a `U32` in 1..3 gives nothing, whatever the slots hold. */
  lemma NoTeamOutsideSlots(s: TickState, playerEntid: EntityId, prop: string)
    requires forall n: bv32 :: 1 <= n <= 3 ==> GetPropForEnt(s, TEAM_NUM_PROP, playerEntid) != Some(U32(n))
    ensures FindTeamProp(s, playerEntid, prop) == None
  {
  }

  /** `create_custom_prop`: the three axes are rebuilt from the pawn's cell and
      offset; any other name is a configuration error naming the field. */
  function CreateCustomProp(s: TickState, propName: string, entityId: EntityId): (r: Result<Option<Variant>, PropError>)
    ensures r.Err? <==> !(propName == "X" || propName == "Y" || propName == "Z")
    ensures r.Err? ==> r.error == UnknownCustomProp(propName)
    ensures r.Ok? ==> r.value == CollectCellCoordinatePlayer(s, propName, entityId)
  {
    match propName
    case "X" => Ok(CollectCellCoordinatePlayer(s, "X", entityId))
    case "Y" => Ok(CollectCellCoordinatePlayer(s, "Y", entityId))
    case "Z" => Ok(CollectCellCoordinatePlayer(s, "Z", entityId))
    case _ => Err(UnknownCustomProp(propName))
  }

  /** The controller of the player reports its pawn alive. */
  predicate PawnAlive(s: TickState, player: PlayerMetaData) {
    player.controllerEntid.Some? &&
    GetPropForEnt(s, PAWN_ALIVE_PROP, player.controllerEntid.value) == Some(Bool(true))
  }

  /** `find_prop`: resolve one logical field for one player. The metadata names
      come first, then the name's routing kind decides which entity is read. */
  function FindProp(s: TickState, propName: string, entityId: EntityId, player: PlayerMetaData)
    : (r: Result<Option<Variant>, PropError>)
    ensures r.Err? ==> !IsMetadataName(propName) && r.error == UnknownCustomProp(propName)
  {
    match propName
    case "tick" => Ok(Some(I32(s.tick)))
    case "steamid" => Ok(if player.steamid.Some? then Some(U64(player.steamid.value)) else None)
    case "name" => Ok(if player.name.Some? then Some(String(player.name.value)) else None)
    case _ =>
      match TypeOf(propName)
      case Some(Team) => Ok(FindTeamProp(s, entityId, propName))
      case Some(Custom) => CreateCustomProp(s, propName, entityId)
      case Some(Controller) =>
        Ok(match player.controllerEntid
           case Some(entid) => GetPropForEnt(s, propName, entid)
           case None => None)
      case Some(Rules) =>
        Ok(match s.rulesEntityId
           case Some(rulesEntid) => GetPropForEnt(s, propName, rulesEntid)
           case None => None)
      case Some(Player) =>
        Ok(match player.controllerEntid
           case Some(e) =>
             (match GetPropForEnt(s, PAWN_ALIVE_PROP, e)
              case Some(Bool(true)) => GetPropForEnt(s, propName, entityId)
              case _ => None)
           case None => None)
      case None => Ok(None)
  }

  /** The metadata names are answered from the tick counter and the player's
      metadata, before the table is consulted. */
  lemma MetadataShortCircuits(s: TickState, entityId: EntityId, player: PlayerMetaData)
    ensures FindProp(s, "tick", entityId, player) == Ok(Some(I32(s.tick)))
    ensures FindProp(s, "steamid", entityId, player)
            == Ok(if player.steamid.Some? then Some(U64(player.steamid.value)) else None)
    ensures FindProp(s, "name", entityId, player)
            == Ok(if player.name.Some? then Some(String(player.name.value)) else None)
  {
  }

  /** The only error is a Custom-kind name other than the three axes. */
  lemma FindPropErrors(s: TickState, propName: string, entityId: EntityId, player: PlayerMetaData)
    ensures FindProp(s, propName, entityId, player).Err? <==>
      !IsMetadataName(propName) && TypeOf(propName) == Some(Custom)
      && !(propName == "X" || propName == "Y" || propName == "Z")
  {
  }

  /** A name outside the table resolves to nothing; it is not read off the pawn. */
  lemma UnclassifiedIsNothing(s: TickState, propName: string, entityId: EntityId, player: PlayerMetaData)
    requires !IsMetadataName(propName) && TypeOf(propName) == None
    ensures FindProp(s, propName, entityId, player) == Ok(None)
  {
  }

  /** A Controller field is read off the player's controller entity. */
  lemma ControllerRouting(s: TickState, propName: string, entityId: EntityId, player: PlayerMetaData)
    requires !IsMetadataName(propName) && TypeOf(propName) == Some(Controller)
    ensures FindProp(s, propName, entityId, player)
            == Ok(if player.controllerEntid.Some?
                  then GetPropForEnt(s, propName, player.controllerEntid.value) else None)
  {
  }

  /** A Rules field is read off the rules entity. */
  lemma RulesRouting(s: TickState, propName: string, entityId: EntityId, player: PlayerMetaData)
    requires !IsMetadataName(propName) && TypeOf(propName) == Some(Rules)
    ensures FindProp(s, propName, entityId, player)
            == Ok(if s.rulesEntityId.Some? then GetPropForEnt(s, propName, s.rulesEntityId.value) else None)
  {
  }

  /** A Team field is read off the team entity of the pawn's team. */
  lemma TeamRouting(s: TickState, propName: string, entityId: EntityId, player: PlayerMetaData)
    requires !IsMetadataName(propName) && TypeOf(propName) == Some(Team)
    ensures FindProp(s, propName, entityId, player) == Ok(FindTeamProp(s, entityId, propName))
  {
  }

  /** A Player field is read off the pawn, and only while the controller reports
      the pawn alive. */
  lemma PlayerRouting(s: TickState, propName: string, entityId: EntityId, player: PlayerMetaData)
    requires !IsMetadataName(propName) && TypeOf(propName) == Some(Player)
    ensures FindProp(s, propName, entityId, player)
            == Ok(if PawnAlive(s, player) then GetPropForEnt(s, propName, entityId) else None)
  {
  }

  /** A Custom field is the pawn's reconstructed coordinate. */
  lemma CustomRouting(s: TickState, propName: string, entityId: EntityId, player: PlayerMetaData)
    requires !IsMetadataName(propName) && TypeOf(propName) == Some(Custom)
    ensures FindProp(s, propName, entityId, player) == CreateCustomProp(s, propName, entityId)
  {
  }

  /** With the shipped table no requested field is a configuration error. */
  lemma FindPropNeverFails(s: TickState, propName: string, entityId: EntityId, player: PlayerMetaData)
    ensures FindProp(s, propName, entityId, player).Ok?
  {
    CustomNamesAreAxes(propName);
  }

  /** A field name classified Custom that is not an axis is reported, not
      dropped: resolving it gives the error naming it. */
  lemma UnknownCustomIsReported(s: TickState, entityId: EntityId)
    ensures CreateCustomProp(s, "W", entityId) == Err(UnknownCustomProp("W"))
  {
  }

  /** Rules fields do not depend on which pawn or player asks. */
  lemma RulesIgnoreTarget(s: TickState, propName: string, e1: EntityId, p1: PlayerMetaData,
                          e2: EntityId, p2: PlayerMetaData)
    requires !IsMetadataName(propName) && TypeOf(propName) == Some(Rules)
    ensures FindProp(s, propName, e1, p1) == FindProp(s, propName, e2, p2)
  {
  }

  /** Controller fields do not depend on the pawn, only on the controller. */
  lemma ControllerFieldsIgnorePawn(s: TickState, propName: string, e1: EntityId, e2: EntityId,
                                   player: PlayerMetaData)
    requires !IsMetadataName(propName) && TypeOf(propName) == Some(Controller)
    ensures FindProp(s, propName, e1, player) == FindProp(s, propName, e2, player)
  {
  }

  /** A player whose controller is missing, or does not report the pawn alive,
      has nothing in any Player field, whatever the pawn stores. */
  lemma DeadPlayerHidesPawnFields(s: TickState, propName: string, entityId: EntityId,
                                  player: PlayerMetaData)
    requires !IsMetadataName(propName) && TypeOf(propName) == Some(Player)
    requires !PawnAlive(s, player)
    ensures FindProp(s, propName, entityId, player) == Ok(None)
  {
  }

  /** The team number itself is a Player field: it is hidden while the pawn is
      dead, although the team lookup reads it regardless. */
  lemma TeamNumberIsGatedButTeamLookupIsNot(s: TickState, entityId: EntityId, player: PlayerMetaData)
    requires !PawnAlive(s, player)
    ensures FindProp(s, TEAM_NUM_PROP, entityId, player) == Ok(None)
    ensures FindProp(s, "CCSTeam.m_iScore", entityId, player) == Ok(FindTeamProp(s, entityId, "CCSTeam.m_iScore"))
  {
    RoutingOfGateFields();
  }
}
