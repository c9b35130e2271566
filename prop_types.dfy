/** The static classification of logical field names by routing kind. */
module PropTypes {
  import opened Options

  /** How a field is reached from the player's pawn entity. */
  datatype PropType = Team | Rules | Custom | Controller | Player

  /** A representative part of the classification table: a few entries of each
      kind, and all three `Custom` entries exactly as the parser has them. */
  const TYPEHM: map<string, PropType> := map[
    // team entity fields
    "CCSTeam.m_iTeamNum" := Team,
    "CCSTeam.m_iScore" := Team,
    "CCSTeam.m_szTeamname" := Team,
    // game rules fields
    "CCSGameRulesProxy.CCSGameRules.m_bFreezePeriod" := Rules,
    "CCSGameRulesProxy.CCSGameRules.m_iRoundTime" := Rules,
    "CCSGameRulesProxy.CCSGameRules.m_totalRoundsPlayed" := Rules,
    "CCSGameRulesProxy.CCSGameRules.m_bBombPlanted" := Rules,
    // player controller fields
    "CCSPlayerController.m_bPawnIsAlive" := Controller,
    "CCSPlayerController.m_iScore" := Controller,
    "CCSPlayerController.m_iTeamNum" := Controller,
    "CCSPlayerController.m_iszPlayerName" := Controller,
    "CCSPlayerController.CCSPlayerController_InGameMoneyServices.m_iAccount" := Controller,
    // player pawn fields
    "CCSPlayerPawn.m_iTeamNum" := Player,
    "CCSPlayerPawn.m_bIsScoped" := Player,
    "CCSPlayerPawn.m_ArmorValue" := Player,
    "CCSPlayerPawn.m_flFlashDuration" := Player,
    "CCSPlayerPawn.m_iHealth" := Player,
    // reconstructed coordinates
    "X" := Custom,
    "Y" := Custom,
    "Z" := Custom
  ]

  /** `TYPEHM.get(name)`. */
  function TypeOf(name: string): (r: Option<PropType>)
    ensures r.Some? <==> name in TYPEHM
    ensures r.Some? ==> r.value == TYPEHM[name]
  {
    if name in TYPEHM then Some(TYPEHM[name]) else None
  }

  /** The only names the table sends down the coordinate path are the three axes. */
  lemma CustomNamesAreAxes(name: string)
    ensures TypeOf(name) == Some(Custom) <==> name == "X" || name == "Y" || name == "Z"
  {
  }

  /** The liveness flag read off the controller, and the team number read off the
      pawn, are themselves routed as Controller and Player fields. */
  lemma RoutingOfGateFields()
    ensures TypeOf("CCSPlayerController.m_bPawnIsAlive") == Some(Controller)
    ensures TypeOf("CCSPlayerPawn.m_iTeamNum") == Some(Player)
  {
  }
}
