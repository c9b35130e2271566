/** The values the per-tick entity snapshot holds, and the records around them. */
module Variants {
  import opened Options

  /** Rust `i32`: tick numbers and entity ids. */
  newtype i32 = x: int | -0x8000_0000 <= x < 0x8000_0000

  /** Rust `u64`: steam ids. */
  newtype u64 = x: int | 0 <= x < 0x1_0000_0000_0000_0000

  type EntityId = i32

  /** A decoded property value. `U32` keeps its 32 bits so that masking is exact;
      `F32` is modelled as a real number (no rounding). */
  datatype Variant =
    | Bool(b: bool)
    | I32(i: i32)
    | U32(u: bv32)
    | U64(l: u64)
    | F32(f: real)
    | String(str: string)

  /** The decoder's path to a property inside an entity. */
  datatype FieldPath = FieldPath(indices: seq<nat>)

  /** One entity of the snapshot: its class id and its sparse properties. */
  datatype Entity = Entity(clsId: nat, props: map<FieldPath, Variant>)

  /** A server class, of which only the declared name is read here. */
  datatype Class = Class(name: string)

  /** Per-player metadata supplied by the decoder. */
  datatype PlayerMetaData = PlayerMetaData(
    steamid: Option<u64>,
    name: Option<string>,
    controllerEntid: Option<EntityId>)

  /** The three team entity slots. */
  datatype Teams = Teams(
    team1Entid: Option<EntityId>,
    team2Entid: Option<EntityId>,
    team3Entid: Option<EntityId>)

  /** One row of projectile output. */
  datatype ProjectileRecord = ProjectileRecord(
    steamid: Option<u64>,
    name: Option<string>,
    x: Option<real>,
    y: Option<real>,
    z: Option<real>,
    tick: Option<i32>,
    grenadeType: Option<string>)
}
