/** The parser's read-only view of one tick, and the single read boundary into it. */
module Snapshot {
  import opened Options
  import opened Variants

  /** Everything the collection code reads through `&self`: the decoded entities,
      the class table, the name-to-path index, the player table with the order in
      which its hash map is iterated, the team slots, the rules entity, the
      tracked projectiles and the configuration. */
  datatype TickState = TickState(
    tick: i32,
    entities: map<EntityId, Entity>,
    clsById: seq<Option<Class>>,
    propNameToPath: map<string, FieldPath>,
    players: map<EntityId, PlayerMetaData>,
    playerOrder: seq<EntityId>,
    teams: Teams,
    rulesEntityId: Option<EntityId>,
    projectiles: seq<EntityId>,
    wantedTicks: set<i32>,
    wantedPlayerProps: seq<string>,
    parseProjectiles: bool)

  /** `playerOrder` visits every key of the player table exactly once. */
  predicate PlayersEnumerated(s: TickState) {
    && (forall i :: 0 <= i < |s.playerOrder| ==> s.playerOrder[i] in s.players)
    && (forall id :: id in s.players ==> id in s.playerOrder)
    && (forall i, j :: 0 <= i < j < |s.playerOrder| ==> s.playerOrder[i] != s.playerOrder[j])
  }

  /** A well-enumerated player order has one position per player. */
  lemma {:induction false} PlayerOrderLength(s: TickState)
    requires PlayersEnumerated(s)
    ensures |s.playerOrder| == |s.players|
  {
    DistinctElements(s.playerOrder);
    assert (set id | id in s.playerOrder) == s.players.Keys;
  }

  lemma {:induction false} DistinctElements(q: seq<EntityId>)
    requires forall i, j :: 0 <= i < j < |q| ==> q[i] != q[j]
    ensures |(set x | x in q)| == |q|
  {
    if q != [] {
      var init := q[..|q| - 1];
      DistinctElements(init);
      assert (set x | x in q) == (set x | x in init) + {q[|q| - 1]};
      assert q[|q| - 1] !in (set x | x in init);
    }
  }

  /** `get_prop_for_ent`: translate a name to a path, then read that path on the
      entity. Nothing when the name has no path, the entity is absent, or the
      entity stores nothing at the path. */
  function GetPropForEnt(s: TickState, propName: string, entityId: EntityId): (r: Option<Variant>)
    ensures r.Some? <==>
      && propName in s.propNameToPath
      && entityId in s.entities
      && s.propNameToPath[propName] in s.entities[entityId].props
    ensures r.Some? ==> r.value == s.entities[entityId].props[s.propNameToPath[propName]]
  {
    if propName in s.propNameToPath then
      var path := s.propNameToPath[propName];
      if entityId in s.entities && path in s.entities[entityId].props then
        Some(s.entities[entityId].props[path])
      else
        None
    else
      None
  }

  /** A lookup sees only the path index entry of its name and the one entity it
      names: any two states that agree on those give the same answer. */
  lemma LookupIsLocal(s: TickState, t: TickState, propName: string, entityId: EntityId)
    requires (propName in s.propNameToPath) == (propName in t.propNameToPath)
    requires propName in s.propNameToPath ==> s.propNameToPath[propName] == t.propNameToPath[propName]
    requires (entityId in s.entities) == (entityId in t.entities)
    requires entityId in s.entities ==> s.entities[entityId].props == t.entities[entityId].props
    ensures GetPropForEnt(s, propName, entityId) == GetPropForEnt(t, propName, entityId)
  {
  }

  /** The entity's class may be looked up without going out of bounds
      (`cls_by_id[cls_id]` panics otherwise). */
  predicate ClassIndexInRange(s: TickState, entityId: EntityId) {
    entityId in s.entities ==> s.entities[entityId].clsId < |s.clsById|
  }

  /** The entity's declared class, when both the entity and its class are known. */
  function ClassOf(s: TickState, entityId: EntityId): (r: Option<Class>)
    requires ClassIndexInRange(s, entityId)
    ensures r.Some? ==> entityId in s.entities && s.clsById[s.entities[entityId].clsId] == r
    ensures entityId in s.entities ==> r == s.clsById[s.entities[entityId].clsId]
    ensures entityId !in s.entities ==> r == None
  {
    if entityId in s.entities then s.clsById[s.entities[entityId].clsId] else None
  }
}
