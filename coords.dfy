/** World coordinates rebuilt from a grid cell and an offset inside the cell. */
module Coords {
  import opened Options
  import opened Variants
  import opened Snapshot

  /** Width of one cell in world units: `1 << 9`. */
  const CELL_WIDTH: real := 512.0
  /** Half the extent of the world along an axis: `1 << 14`. */
  const MAX_COORD: real := 16384.0

  /** World coordinate of the low edge of grid cell `cell`. */
  function CellOrigin(cell: int): real {
    cell as real * CELL_WIDTH - MAX_COORD
  }

  /** `coord_from_cell`: a coordinate exists exactly when the cell is a `U32` and
      the offset an `F32`, and then it is the cell's low edge plus the offset. */
  function CoordFromCell(cell: Option<Variant>, offset: Option<Variant>): (r: Option<real>)
    ensures r.Some? <==> cell.Some? && cell.value.U32? && offset.Some? && offset.value.F32?
    ensures r.Some? ==> r.value == CellOrigin(cell.value.u as int) + offset.value.f
  {
    match cell
    case Some(U32(c)) =>
      (match offset
       case Some(F32(o)) => Some(CellOrigin(c as int) + o)
       case _ => None)
    case _ => None
  }

  /** Cell 3 with offset 1.5 lies at 3 * 512 - 16384 + 1.5. */
  lemma CoordExample()
    ensures CoordFromCell(Some(U32(3)), Some(F32(1.5))) == Some(-14846.5)
    ensures CoordFromCell(None, Some(F32(1.5))) == None
    ensures CoordFromCell(Some(U32(3)), None) == None
  {
  }

  /** With offsets kept inside their cell, the encoding is one-to-one: two
      (cell, offset) pairs that give the same coordinate are the same pair. */
  lemma CoordInjective(c1: int, o1: real, c2: int, o2: real)
    requires 0.0 <= o1 < CELL_WIDTH && 0.0 <= o2 < CELL_WIDTH
    requires CellOrigin(c1) + o1 == CellOrigin(c2) + o2
    ensures c1 == c2 && o1 == o2
  {
    assert (c1 - c2) as real * CELL_WIDTH == o2 - o1;
  }

  /** Name of the cell field for an axis, under the given class prefix. */
  function CellField(prefix: string, axis: string): string {
    prefix + "CBodyComponentBaseAnimGraph.m_cell" + axis
  }

  /** Name of the offset field for an axis, under the given class prefix. */
  function OffsetField(prefix: string, axis: string): string {
    prefix + "CBodyComponentBaseAnimGraph.m_vec" + axis
  }

  const PAWN_PREFIX: string := "CCSPlayerPawn."

  /** `collect_cell_coordinate_player`: the axis coordinate of a player pawn,
      built from the pawn's own cell and offset fields. */
  function CollectCellCoordinatePlayer(s: TickState, axis: string, entityId: EntityId): (r: Option<Variant>)
    ensures r.Some? ==> r.value.F32?
    ensures r.Some? <==>
      CoordFromCell(GetPropForEnt(s, CellField(PAWN_PREFIX, axis), entityId),
                    GetPropForEnt(s, OffsetField(PAWN_PREFIX, axis), entityId)).Some?
    ensures r.Some? ==>
      r.value.f == CoordFromCell(GetPropForEnt(s, CellField(PAWN_PREFIX, axis), entityId),
                                 GetPropForEnt(s, OffsetField(PAWN_PREFIX, axis), entityId)).value
  {
    var offset := GetPropForEnt(s, OffsetField(PAWN_PREFIX, axis), entityId);
    var cell := GetPropForEnt(s, CellField(PAWN_PREFIX, axis), entityId);
    match CoordFromCell(cell, offset)
    case Some(coord) => Some(F32(coord))
    case None => None
  }

  /** `collect_cell_coordinate_grenade`: the same reconstruction, with the field
      names prefixed by the entity's own class name. Nothing when the entity or
      its class is unknown. */
  function CollectCellCoordinateGrenade(s: TickState, axis: string, entityId: EntityId): (r: Option<Variant>)
    requires ClassIndexInRange(s, entityId)
    ensures r.Some? ==> r.value.F32?
    ensures r.Some? <==>
      && ClassOf(s, entityId).Some?
      && var prefix := ClassOf(s, entityId).value.name + ".";
         CoordFromCell(GetPropForEnt(s, CellField(prefix, axis), entityId),
                       GetPropForEnt(s, OffsetField(prefix, axis), entityId)).Some?
    ensures r.Some? ==>
      var prefix := ClassOf(s, entityId).value.name + ".";
      r.value.f == CoordFromCell(GetPropForEnt(s, CellField(prefix, axis), entityId),
                                 GetPropForEnt(s, OffsetField(prefix, axis), entityId)).value
  {
    match ClassOf(s, entityId)
    case None => None
    case Some(cls) =>
      var prefix := cls.name + ".";
      var offset := GetPropForEnt(s, OffsetField(prefix, axis), entityId);
      var cell := GetPropForEnt(s, CellField(prefix, axis), entityId);
      match CoordFromCell(cell, offset)
      case Some(coord) => Some(F32(coord))
      case None => None
  }

  /** Both call sites agree: a projectile whose class is the player pawn class is
      placed exactly where a player at that entity would be. */
  lemma GrenadePathGeneralisesPlayerPath(s: TickState, axis: string, entityId: EntityId)
    requires ClassIndexInRange(s, entityId)
    requires ClassOf(s, entityId) == Some(Class("CCSPlayerPawn"))
    ensures CollectCellCoordinateGrenade(s, axis, entityId) == CollectCellCoordinatePlayer(s, axis, entityId)
  {
    assert "CCSPlayerPawn" + "." == PAWN_PREFIX;
  }
}
