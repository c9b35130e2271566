/** What one tracked projectile contributes to a tick: its thrower, its type and
    its position. */
module Projectiles {
  import opened Options
  import opened Variants
  import opened Snapshot
  import opened Coords

  /** The low bits of an entity handle that hold the entity index. */
  const OWNER_MASK: bv32 := 0x7FF

  /** The entity id carried by an owner handle. */
  function HandleEntid(handle: bv32): (r: EntityId)
    ensures 0 <= r < 2048
    ensures r as int == (handle % 0x800) as int
  {
    MaskIsRemainder(handle);
    (handle & OWNER_MASK) as int as EntityId
  }

  /** Masking with 0x7FF keeps the remainder of the handle modulo 2048. */
  lemma MaskIsRemainder(handle: bv32)
    ensures handle & OWNER_MASK == handle % 0x800
  {
  }

  /** The handle 0x800003 names entity 3. */
  lemma HandleExample()
    ensures HandleEntid(0x800003) == 3
  {
  }

  /** Name of the field holding the owner handle of a projectile of this class. */
  function OwnerField(cls: Class): string {
    cls.name + "." + "m_nOwnerId"
  }

  /** The entity id of the thrower: the owner handle must be stored as a `U32`. */
  function OwnerEntid(s: TickState, entityId: EntityId): (r: Option<EntityId>)
    requires ClassIndexInRange(s, entityId)
    ensures r.Some? ==> 0 <= r.value < 2048
    ensures r.Some? <==>
      ClassOf(s, entityId).Some? && GetPropForEnt(s, OwnerField(ClassOf(s, entityId).value), entityId).Some?
      && GetPropForEnt(s, OwnerField(ClassOf(s, entityId).value), entityId).value.U32?
    ensures r.Some? ==>
      r.value == HandleEntid(GetPropForEnt(s, OwnerField(ClassOf(s, entityId).value), entityId).value.u)
  {
    match ClassOf(s, entityId)
    case None => None
    case Some(cls) =>
      match GetPropForEnt(s, OwnerField(cls), entityId)
      case Some(U32(prop)) => Some(HandleEntid(prop))
      case _ => None
  }

  /** `find_thrower_steamid`: the steam id of the player whose entity the owner
      handle names. */
  function FindThrowerSteamid(s: TickState, entityId: EntityId): (r: Option<u64>)
    requires ClassIndexInRange(s, entityId)
    ensures r.Some? ==>
      OwnerEntid(s, entityId).Some? && OwnerEntid(s, entityId).value in s.players
      && r == s.players[OwnerEntid(s, entityId).value].steamid
    ensures OwnerEntid(s, entityId).Some? && OwnerEntid(s, entityId).value in s.players ==>
      r == s.players[OwnerEntid(s, entityId).value].steamid
  {
    match OwnerEntid(s, entityId)
    case Some(entid) => if entid in s.players then s.players[entid].steamid else None
    case None => None
  }

  /** `find_thrower_name`: the name of the same player. */
  function FindThrowerName(s: TickState, entityId: EntityId): (r: Option<string>)
    requires ClassIndexInRange(s, entityId)
    ensures r.Some? ==>
      OwnerEntid(s, entityId).Some? && OwnerEntid(s, entityId).value in s.players
      && r == s.players[OwnerEntid(s, entityId).value].name
    ensures OwnerEntid(s, entityId).Some? && OwnerEntid(s, entityId).value in s.players ==>
      r == s.players[OwnerEntid(s, entityId).value].name
  {
    match OwnerEntid(s, entityId)
    case Some(entid) => if entid in s.players then s.players[entid].name else None
    case None => None
  }

  /** The steam id and the name always come from the same player: an owner
      handle that is not a `U32` hides both. */
  lemma ThrowerNeedsU32Owner(s: TickState, entityId: EntityId)
    requires ClassIndexInRange(s, entityId)
    requires ClassOf(s, entityId).Some?
    requires !(GetPropForEnt(s, OwnerField(ClassOf(s, entityId).value), entityId).Some?
               && GetPropForEnt(s, OwnerField(ClassOf(s, entityId).value), entityId).value.U32?)
    ensures FindThrowerSteamid(s, entityId) == None && FindThrowerName(s, entityId) == None
  {
  }

  /** `find_grenade_type` on a class name: drop the first character and the last
      ten, renaming `BaseCSGrenade` to `HeGrenade`. */
  function GrenadeTypeName(className: string): (r: string)
    requires |className| >= 11
    ensures r != "BaseCSGrenade"
    ensures className[1..|className| - 10] != "BaseCSGrenade" ==> r == className[1..|className| - 10]
    ensures className[1..|className| - 10] == "BaseCSGrenade" ==> r == "HeGrenade"
  {
    var cleanName := className[1..][..|className| - 11];
    if cleanName == "BaseCSGrenade" then "HeGrenade" else cleanName
  }

  /** A class named after the convention `C<type>Projectile` yields `<type>`,
      except for the base grenade class, which is reported as `HeGrenade`. */
  lemma GrenadeTypeOfProjectileClass(c: char, grenade: string)
    ensures GrenadeTypeName([c] + grenade + "Projectile")
            == if grenade == "BaseCSGrenade" then "HeGrenade" else grenade
  {
    var name := [c] + grenade + "Projectile";
    assert name[1..][..|name| - 11] == grenade;
  }

  /** The smoke grenade projectile class is reported as `SmokeGrenade`. */
  lemma SmokeGrenadeExample()
    ensures GrenadeTypeName("CSmokeGrenadeProjectile") == "SmokeGrenade"
  {
    GrenadeTypeOfProjectileClass('C', "SmokeGrenade");
    assert "CSmokeGrenadeProjectile" == ['C'] + "SmokeGrenade" + "Projectile";
  }

  /** The class name can be cleaned without going out of bounds (the parser
      panics on names shorter than 11 characters). */
  predicate GrenadeNameLongEnough(s: TickState, entityId: EntityId)
    requires ClassIndexInRange(s, entityId)
  {
    ClassOf(s, entityId).Some? ==> |ClassOf(s, entityId).value.name| >= 11
  }

  /** Everything a projectile row reads is in bounds. */
  predicate ProjectileReadable(s: TickState, entityId: EntityId) {
    ClassIndexInRange(s, entityId) && GrenadeNameLongEnough(s, entityId)
  }

  /** `find_grenade_type`: the cleaned class name of the entity. */
  function FindGrenadeType(s: TickState, entityId: EntityId): (r: Option<string>)
    requires ProjectileReadable(s, entityId)
    ensures r.Some? <==> ClassOf(s, entityId).Some?
    ensures r.Some? ==> r.value == GrenadeTypeName(ClassOf(s, entityId).value.name)
  {
    match ClassOf(s, entityId)
    case Some(cls) => Some(GrenadeTypeName(cls.name))
    case None => None
  }

  /** The float inside a reconstructed coordinate. */
  function AsFloat(v: Option<Variant>): Option<real> {
    match v
    case Some(F32(p)) => Some(p)
    case _ => None
  }

  /** The row `collect_projectiles` pushes for one projectile. */
  function ProjectileRecordFor(s: TickState, entityId: EntityId): (r: ProjectileRecord)
    requires ProjectileReadable(s, entityId)
    ensures r.tick == Some(s.tick)
  {
    ProjectileRecord(
      steamid := FindThrowerSteamid(s, entityId),
      name := FindThrowerName(s, entityId),
      x := AsFloat(CollectCellCoordinateGrenade(s, "X", entityId)),
      y := AsFloat(CollectCellCoordinateGrenade(s, "Y", entityId)),
      z := AsFloat(CollectCellCoordinateGrenade(s, "Z", entityId)),
      tick := Some(s.tick),
      grenadeType := FindGrenadeType(s, entityId))
  }

  /** The thrower columns of a row describe one player: whenever either is
      present, some player has exactly that steam id and that name. */
  lemma RecordNamesOneThrower(s: TickState, entityId: EntityId)
    requires ProjectileReadable(s, entityId)
    ensures var r := ProjectileRecordFor(s, entityId);
      r.steamid.Some? || r.name.Some? ==>
        exists id :: id in s.players && r.steamid == s.players[id].steamid && r.name == s.players[id].name
  {
    var r := ProjectileRecordFor(s, entityId);
    if r.steamid.Some? || r.name.Some? {
      var id := OwnerEntid(s, entityId).value;
      assert id in s.players && r.steamid == s.players[id].steamid && r.name == s.players[id].name;
    }
  }

  /** A projectile that is not in the snapshot still gets a row, holding only the tick. */
  lemma MissingProjectileRow(s: TickState, entityId: EntityId)
    requires entityId !in s.entities
    ensures ProjectileReadable(s, entityId)
    ensures ProjectileRecordFor(s, entityId)
            == ProjectileRecord(None, None, None, None, None, Some(s.tick), None)
  {
  }
}
