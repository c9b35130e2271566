# demoparser per-tick collection, modelled in Dafny

This project models the per-tick data collection of the demoparser Counter-Strike 2
demo parser (`src/parser/src/collect_data.rs`). On every tick, the decoder leaves a
snapshot of entities, a class table, a table from field names to field paths,
per-player metadata, team slots and a list of tracked projectiles. The collection
code then does two things:

- it resolves every requested logical field (`"tick"`, `"steamid"`,
  `"CCSPlayerPawn.m_iHealth"`, `"X"`, ...) for every player, and appends each value
  to that field's output column;
- optionally, it appends one record per projectile: the grenade type, the thrower's
  steam id and name, the position and the tick.

Modules, one per concern of the source file:

- `Options`: `Option` and `Result`.
- `Variants`: the decoded value type `Variant` and the records around it. `i32` and
  `u64` are newtypes, `U32` payloads are `bv32` and `f32` becomes `real`.
- `PropTypes`: the routing kinds `PropType` and the classification table `TYPEHM`.
- `Snapshot`: the read-only tick view `TickState` and the single read boundary
  `GetPropForEnt`.
- `Coords`: the reconstruction of world coordinates from cell and offset.
- `Router`: `find_prop` and its helpers (`find_team_prop`, `create_custom_prop`).
- `Projectiles`: the thrower (owner handle masked with `0x7FF`), the grenade type and
  the projectile row.
- `Collect`: the `Parser` class. Its `output` map and its `projectileRecords` sequence
  are changed in place by `CollectEntities`, `CollectPlayers`, `CollectPlayerRow` and
  `CollectProjectiles`. Each of these methods is proved against the functions
  `PushRows`/`PushAll`/`ProjectileRecords`, and the lemmas beside those functions
  state what the columns then hold.

The players hash map is iterated in an order the source does not fix. The model
makes that order the explicit sequence `playerOrder`. `PlayersEnumerated` demands
that it visits every player exactly once.

Two details the model keeps as written:

- **Grenade type.** The code takes `cls.name[1..].split_at(cls.name.len() - 11).0`
  (collect_data.rs:190). That drops the first character and the last ten, which is
  the length of `Projectile`. `Projectiles.GrenadeTypeName` does the same, and
  `SmokeGrenadeExample` shows that `CSmokeGrenadeProjectile` gives `SmokeGrenade`.
- **Team slot 1.** The comment at collect_data.rs:238 calls team number 1
  "spectator", but the code maps 1 to the first team slot. The model keeps that
  mapping.

## Model

| member | source | states |
|---|---|---|
| PropTypes.TypeOf | src/parser/src/collect_data.rs:283-597 | the kind of a name is present exactly when the name is in the classification table, and is then the table's entry |
| PropTypes.CustomNamesAreAxes | src/parser/src/collect_data.rs:594-597 | the table classifies a name as Custom if and only if it is one of the axes `X`, `Y`, `Z` |
| PropTypes.RoutingOfGateFields | src/parser/src/collect_data.rs:283-597 | the liveness flag is a Controller field and the pawn's team number a Player field |
| Snapshot.PlayerOrderLength | src/parser/src/collect_data.rs:31 | an iteration order that visits every player once has exactly one position per player |
| Snapshot.GetPropForEnt | src/parser/src/collect_data.rs:42-57 | a value is found if and only if the name has a path, the entity exists and it stores that path; the value is the stored one |
| Snapshot.LookupIsLocal | src/parser/src/collect_data.rs:42-57 | a lookup depends only on its name's path and on the one entity it names |
| Snapshot.ClassOf | src/parser/src/collect_data.rs:118-125 | an existing entity yields the class-table entry at its class id; a missing entity yields nothing |
| Coords.CoordFromCell | src/parser/src/collect_data.rs:262-274 | a coordinate exists if and only if the cell is a `U32` and the offset an `F32`; it is `cell * 512 - 16384 + offset` |
| Coords.CoordExample | src/parser/src/collect_data.rs:262-274 | cell 3 with offset 1.5 gives -14846.5; a missing cell or offset gives nothing |
| Coords.CoordInjective | src/parser/src/collect_data.rs:264-271 | with offsets inside a cell, different (cell, offset) pairs give different coordinates |
| Coords.CollectCellCoordinatePlayer | src/parser/src/collect_data.rs:103-116 | an axis value is an `F32`; it is present if and only if the pawn's cell and offset fields reconstruct, and it carries that coordinate |
| Coords.CollectCellCoordinateGrenade | src/parser/src/collect_data.rs:117-138 | an axis value is an `F32`; it is present if and only if the entity has a class and the class-prefixed cell and offset fields reconstruct, and it carries that coordinate |
| Coords.GrenadePathGeneralisesPlayerPath | src/parser/src/collect_data.rs:103-138 | on an entity of the pawn class, the projectile path and the player path give the same coordinate |
| Router.TeamSlot | src/parser/src/collect_data.rs:237-243 | team numbers 1, 2, 3 pick slots 1, 2, 3; any other number picks none |
| Router.TeamEntityOf | src/parser/src/collect_data.rs:234-243 | a pawn storing `U32` team number n reads the slot n selects; any other stored value gives no team entity; one is found if and only if the number is 1..3 and its slot is filled |
| Router.SecondTeamReadsSecondSlot | src/parser/src/collect_data.rs:233-252 | a pawn storing team number 2 reads team fields off the second slot's entity when that slot is filled |
| Router.FindTeamProp | src/parser/src/collect_data.rs:233-252 | a team field is found only through a team entity, and is then exactly that entity's field |
| Router.TeammatesShareTeamProps | src/parser/src/collect_data.rs:233-252 | two pawns with the same stored team number read the same team fields |
| Router.NoTeamOutsideSlots | src/parser/src/collect_data.rs:237-243 | a team number outside 1..3, or one not stored as `U32`, gives nothing |
| Router.CreateCustomProp | src/parser/src/collect_data.rs:253-260 | it fails if and only if the name is not an axis, with an error naming the field; otherwise it gives the pawn's coordinate on that axis |
| Router.FindProp | src/parser/src/collect_data.rs:58-102 | an error only ever names the field, and never arises for a metadata name; the routing of each kind is stated by the lemmas `MetadataShortCircuits` to `CustomRouting` below |
| Router.MetadataShortCircuits | src/parser/src/collect_data.rs:65-76 | `tick`, `steamid` and `name` come from the tick counter and the player metadata |
| Router.FindPropErrors | src/parser/src/collect_data.rs:58-102 | resolving fails if and only if a non-metadata name is classified Custom but is not an axis |
| Router.UnclassifiedIsNothing | src/parser/src/collect_data.rs:99 | a name outside the table gives nothing |
| Router.ControllerRouting | src/parser/src/collect_data.rs:80-83 | a Controller field is read off the player's controller, and is nothing without one |
| Router.RulesRouting | src/parser/src/collect_data.rs:84-87 | a Rules field is read off the rules entity, and is nothing without one |
| Router.TeamRouting | src/parser/src/collect_data.rs:78 | a Team field is the team lookup for the pawn |
| Router.PlayerRouting | src/parser/src/collect_data.rs:88-97 | a Player field is read off the pawn while the controller reports the pawn alive, and is nothing otherwise |
| Router.CustomRouting | src/parser/src/collect_data.rs:79 | a Custom field is the custom-prop result |
| Router.FindPropNeverFails | src/parser/src/collect_data.rs:58-102 | with the shipped table, resolving never reaches the panic |
| Router.UnknownCustomIsReported | src/parser/src/collect_data.rs:258 | a non-axis custom name yields the error naming it |
| Router.RulesIgnoreTarget | src/parser/src/collect_data.rs:84-87 | Rules fields are the same for every player |
| Router.ControllerFieldsIgnorePawn | src/parser/src/collect_data.rs:80-83 | Controller fields do not depend on the pawn id |
| Router.DeadPlayerHidesPawnFields | src/parser/src/collect_data.rs:88-99 | with no controller, or a controller not reporting the pawn alive, every Player field is nothing |
| Router.TeamNumberIsGatedButTeamLookupIsNot | src/parser/src/collect_data.rs:88-97 | for a dead pawn its team number field is hidden, while team fields still use the stored number |
| Projectiles.HandleEntid | src/parser/src/collect_data.rs:148-152 | the masked handle is an entity id in 0..2047, the handle modulo 2048 |
| Projectiles.MaskIsRemainder | src/parser/src/collect_data.rs:150 | masking with `0x7FF` is the remainder modulo 2048 |
| Projectiles.HandleExample | src/parser/src/collect_data.rs:150 | the handle `0x800003` names entity 3 |
| Projectiles.OwnerEntid | src/parser/src/collect_data.rs:140-152 | an owner exists if and only if the entity has a class and a `U32` owner field; it is that handle masked |
| Projectiles.FindThrowerSteamid | src/parser/src/collect_data.rs:139-161 | a steam id is found only through the owner, and is the owner player's steam id whenever that player is known |
| Projectiles.FindThrowerName | src/parser/src/collect_data.rs:162-184 | a name is found only through the owner, and is the owner player's name whenever that player is known |
| Projectiles.ThrowerNeedsU32Owner | src/parser/src/collect_data.rs:139-184 | an owner field that is not a `U32` hides both steam id and name |
| Projectiles.GrenadeTypeName | src/parser/src/collect_data.rs:190-194 | the result is never `BaseCSGrenade`: it is the name without its first character and last ten, or `HeGrenade` in place of `BaseCSGrenade`; `GrenadeTypeOfProjectileClass` states it for `C<type>Projectile` names |
| Projectiles.GrenadeTypeOfProjectileClass | src/parser/src/collect_data.rs:190-194 | a class `C<type>Projectile` yields `<type>`, and `CBaseCSGrenadeProjectile` yields `HeGrenade` |
| Projectiles.SmokeGrenadeExample | src/parser/src/collect_data.rs:188-190 | `CSmokeGrenadeProjectile` yields `SmokeGrenade` |
| Projectiles.FindGrenadeType | src/parser/src/collect_data.rs:185-199 | a grenade type exists if and only if the entity has a class; it is the cleaned class name |
| Projectiles.ProjectileRecordFor | src/parser/src/collect_data.rs:222-230 | every projectile row carries the current tick |
| Projectiles.RecordNamesOneThrower | src/parser/src/collect_data.rs:139-184 | a row's steam id and name, when either is present, are those of one player |
| Projectiles.MissingProjectileRow | src/parser/src/collect_data.rs:200-232 | a projectile missing from the snapshot still gets a row, holding only the tick |
| Collect.Push | src/parser/src/collect_data.rs:35-38 | the named column, created if absent, gains the value at its end; the column set gains the name |
| Collect.PushLeavesOthers | src/parser/src/collect_data.rs:35-38 | a push leaves every other column unchanged |
| Collect.PushAllColumn | src/parser/src/collect_data.rs:32-39 | one player's row appends to each column exactly the values of its occurrences among the wanted props, in order |
| Collect.PushAllStep | src/parser/src/collect_data.rs:32-39 | pushing the first j + 1 props is pushing the first j, then prop j |
| Collect.PushAllKeys | src/parser/src/collect_data.rs:32-39 | one player's row creates exactly the wanted columns |
| Collect.PlayerRowPicked | src/parser/src/collect_data.rs:32-39 | one player appends its value for a name once per occurrence of the name |
| Collect.PushRowsColumn | src/parser/src/collect_data.rs:31-40 | a tick appends to each column the players' values for it in visiting order; other columns are unchanged |
| Collect.PushRowsKeys | src/parser/src/collect_data.rs:31-40 | a tick with players creates exactly the wanted columns, and one without players creates none |
| Collect.RowsForLength | src/parser/src/collect_data.rs:31-40 | a tick appends (players × occurrences) entries to a column |
| Collect.RowsForAligned | src/parser/src/collect_data.rs:31-40 | for a name wanted once, entry k of the tick's entries is player k's value: rows line up across columns |
| Collect.ColumnsStayAligned | src/parser/src/collect_data.rs:31-40 | if no prop is wanted twice, columns of one common length stay of one common length, each growing by the number of players |
| Collect.ProjectileRecordsAt | src/parser/src/collect_data.rs:200-232 | a tick appends one record per projectile, in order, each for that projectile and stamped with the tick |
| Collect.Parser.constructor | src/parser/src/collect_data.rs:21 | a parser starts with no columns and no projectile records |
| Collect.Parser.CollectProjectiles | src/parser/src/collect_data.rs:200-232 | earlier records are kept, and one record per projectile is appended in order, each carrying the current tick |
| Collect.Parser.FindPropValue | src/parser/src/collect_data.rs:34 | the value pushed for a prop is what `find_prop` gives for that player |
| Collect.Parser.CollectPlayerRow | src/parser/src/collect_data.rs:32-39 | the output becomes the old output with one player's row pushed prop by prop |
| Collect.Parser.CollectPlayers | src/parser/src/collect_data.rs:31-40 | the output becomes the old output with every player's row pushed in visiting order |
| Collect.Parser.CollectEntities | src/parser/src/collect_data.rs:22-41 | an unwanted tick changes nothing; otherwise projectile rows are appended when enabled, and every column gains exactly the players' values for it |

## Left out

- `TYPEHM` is represented by about twenty of its entries, at least one of each kind, with all three Custom entries. A name missing from the modelled table is "unclassified" in the model, but may be classified in the parser.
- `f32` arithmetic is modelled on real numbers. `CoordFromCell` and the projectile coordinates ignore rounding, and the cast from `u32` cell to `f32` is exact in the model.
- `Projectiles.ProjectileRecordFor` promises only the tick in its own contract. The other fields are described by `FindThrowerSteamid`, `FindThrowerName`, `FindGrenadeType`, `CollectCellCoordinateGrenade` and `RecordNamesOneThrower`.
- Panics are not modelled as panics:
  - indexing `cls_by_id` out of range and cleaning a class name shorter than 11 characters are preconditions (`ClassIndexInRange`, `GrenadeNameLongEnough`);
  - the `unknown custom prop` panic is the `Err(UnknownCustomProp)` result of `FindProp`.
- The order in which the players hash map is iterated is a parameter, `playerOrder`. The projectile list is taken as given.
- `Collect.ColumnsStayAligned` needs the wanted props to be distinct. The parser does not check this, and a name wanted twice gains two entries per player.
- `PropColumn`'s internal typed storage is left out. A column is a sequence of optional values.
- The decoder that fills entities, class table, path table, players, teams, rules entity and projectile list is not part of this model, and neither is the dataframe built from the output (`entities.rs`, `variants.rs`, `parser_settings.rs`).
- `Variant` has only the six cases this file reads.
- `Projectiles.GrenadeTypeName` works on characters, but the parser slices class names by bytes (`len()`, `[1..]` and `split_at` at collect_data.rs:190). Class names are taken as ASCII, so byte and character positions agree. A non-ASCII name, on which the parser could panic mid-character, is not modelled.
