/** Per-tick accumulation into output columns and projectile records. */
module Collect {
  import opened Options
  import opened Variants
  import opened Snapshot
  import opened Router
  import opened Projectiles

  /** One output column: a value, or nothing, per visited (tick, player) pair. */
  type PropColumn = seq<Option<Variant>>

  type Output = map<string, PropColumn>

  /** The column of a name, empty when it has not been created yet. */
  function ColumnOf(output: Output, name: string): PropColumn {
    if name in output then output[name] else []
  }

  /** `output.entry(name).or_insert_with(PropColumn::new).push(v)`: the column
      of `name`, created if need be, gains `v` at its end. */
  function Push(output: Output, name: string, v: Option<Variant>): (r: Output)
    ensures ColumnOf(r, name) == ColumnOf(output, name) + [v]
    ensures r.Keys == output.Keys + {name}
  {
    output[name := ColumnOf(output, name) + [v]]
  }

  /** Output after pushing `values[i]` onto the column of `names[i]`, for each
      `i` in turn. */
  function PushAll(output: Output, names: seq<string>, values: seq<Option<Variant>>): Output
    requires |names| == |values|
  {
    if names == [] then output
    else
      Push(PushAll(output, names[..|names| - 1], values[..|values| - 1]),
           names[|names| - 1], values[|values| - 1])
  }

  /** The values pushed under `name`, in order: one per occurrence of `name`. */
  function Picked(names: seq<string>, values: seq<Option<Variant>>, name: string): (r: PropColumn)
    requires |names| == |values|
    ensures |r| == multiset(names)[name]
  {
    if names == [] then []
    else
      assert names == names[..|names| - 1] + [names[|names| - 1]];
      Picked(names[..|names| - 1], values[..|values| - 1], name)
        + (if names[|names| - 1] == name then [values[|values| - 1]] else [])
  }

  /** A push leaves every other column as it was. */
  lemma PushLeavesOthers(output: Output, pushed: string, v: Option<Variant>, name: string)
    requires pushed != name
    ensures ColumnOf(Push(output, pushed, v), name) == ColumnOf(output, name)
  {
  }

  /** Pushing a row appends to each column exactly the values picked for it. */
  lemma {:induction false} PushAllColumn(output: Output, names: seq<string>, values: seq<Option<Variant>>,
                                         name: string)
    requires |names| == |values|
    ensures ColumnOf(PushAll(output, names, values), name) == ColumnOf(output, name) + Picked(names, values, name)
  {
    if names != [] {
      var init, vinit := names[..|names| - 1], values[..|values| - 1];
      var last, lastv := names[|names| - 1], values[|values| - 1];
      var prev := PushAll(output, init, vinit);
      var added: PropColumn := if last == name then [lastv] else [];
      PushAllColumn(output, init, vinit, name);
      assert ColumnOf(PushAll(output, names, values), name) == ColumnOf(prev, name) + added by {
        assert PushAll(output, names, values) == Push(prev, last, lastv);
        if last != name {
          PushLeavesOthers(prev, last, lastv, name);
          assert ColumnOf(prev, name) + [] == ColumnOf(prev, name);
        }
      }
      AppendAfter(ColumnOf(output, name), ColumnOf(prev, name), ColumnOf(PushAll(output, names, values), name),
                  Picked(init, vinit, name), added);
    }
  }

  /** Pushing the first `j + 1` values is pushing the first `j`, then value `j`. */
  lemma PushAllStep(output: Output, names: seq<string>, values: seq<Option<Variant>>, j: nat)
    requires |names| == |values| && j < |names|
    ensures PushAll(output, names[..j + 1], values[..j + 1])
            == Push(PushAll(output, names[..j], values[..j]), names[j], values[j])
  {
    assert names[..j + 1][..j] == names[..j];
    assert values[..j + 1][..j] == values[..j];
  }

  /** Pushing a row creates exactly the columns it names. */
  lemma {:induction false} PushAllKeys(output: Output, names: seq<string>, values: seq<Option<Variant>>)
    requires |names| == |values|
    ensures PushAll(output, names, values).Keys == output.Keys + set n | n in names
  {
    if names != [] {
      var init := names[..|names| - 1];
      PushAllKeys(output, init, values[..|values| - 1]);
      assert names == init + [names[|names| - 1]];
      assert (set n | n in names) == (set n | n in init) + {names[|names| - 1]};
    }
  }

  /** `n` copies of `v`. */
  function Repeat(v: Option<Variant>, n: nat): (r: PropColumn)
    ensures |r| == n
    ensures forall i :: 0 <= i < n ==> r[i] == v
  {
    if n == 0 then [] else Repeat(v, n - 1) + [v]
  }

  /** When every position named `name` holds `v`, the values picked for `name`
      are `v` once per occurrence. */
  lemma {:induction false} PickedUniform(names: seq<string>, values: seq<Option<Variant>>, name: string,
                                         v: Option<Variant>)
    requires |names| == |values|
    requires forall i :: 0 <= i < |names| && names[i] == name ==> values[i] == v
    ensures Picked(names, values, name) == Repeat(v, multiset(names)[name])
  {
    if names != [] {
      PickedUniform(names[..|names| - 1], values[..|values| - 1], name, v);
    }
  }

  /** The tick passes the filter: no ticks were asked for, or this one was. */
  predicate TickWanted(s: TickState) {
    s.wantedTicks == {} || s.tick in s.wantedTicks
  }

  /** The value `find_prop` gives; it is never an error with the shipped table. */
  function ResolvedProp(s: TickState, propName: string, entityId: EntityId, player: PlayerMetaData)
    : Option<Variant>
  {
    FindPropNeverFails(s, propName, entityId, player);
    FindProp(s, propName, entityId, player).value
  }

  /** How a player's value for a prop is found: `find_prop` on the current tick. */
  type Resolver = (string, EntityId, PlayerMetaData) -> Option<Variant>

  /** `find_prop` on the tick `s`, as a resolver. */
  function FindPropOn(s: TickState): Resolver {
    (propName: string, entityId: EntityId, player: PlayerMetaData) => ResolvedProp(s, propName, entityId, player)
  }

  /** The values one player gets for the props `props`, in order. */
  function PlayerRow(props: seq<string>, resolve: Resolver, entityId: EntityId, player: PlayerMetaData)
    : seq<Option<Variant>>
  {
    seq(|props|, i requires 0 <= i < |props| => resolve(props[i], entityId, player))
  }

  /** A player contributes to the column of `name` its value for `name`, once
      per occurrence of `name` among the props. */
  lemma PlayerRowPicked(props: seq<string>, resolve: Resolver, entityId: EntityId, player: PlayerMetaData,
                        name: string)
    ensures Picked(props, PlayerRow(props, resolve, entityId, player), name)
            == Repeat(resolve(name, entityId, player), multiset(props)[name])
  {
    PickedUniform(props, PlayerRow(props, resolve, entityId, player), name, resolve(name, entityId, player));
  }

  /** Output after pushing the rows of the players `ids`, in order. */
  function PushRows(s: TickState, resolve: Resolver, output: Output, ids: seq<EntityId>): Output
    requires forall i :: 0 <= i < |ids| ==> ids[i] in s.players
  {
    if ids == [] then output
    else
      var id := ids[|ids| - 1];
      PushAll(PushRows(s, resolve, output, ids[..|ids| - 1]), s.wantedPlayerProps, PlayerRow(s.wantedPlayerProps, resolve, id, s.players[id]))
  }

  /** The entries the players `ids` add to the column of `name`, in order. */
  function RowsFor(s: TickState, resolve: Resolver, name: string, ids: seq<EntityId>): PropColumn
    requires forall i :: 0 <= i < |ids| ==> ids[i] in s.players
  {
    if ids == [] then []
    else
      var id := ids[|ids| - 1];
      RowsFor(s, resolve, name, ids[..|ids| - 1]) + Picked(s.wantedPlayerProps, PlayerRow(s.wantedPlayerProps, resolve, id, s.players[id]), name)
  }

  /** A tick's rows append `RowsFor` to the column of every name; in particular
      a column whose name is not wanted is left as it was. */
  lemma {:induction false} PushRowsColumn(s: TickState, resolve: Resolver, output: Output, ids: seq<EntityId>, name: string)
    requires forall i :: 0 <= i < |ids| ==> ids[i] in s.players
    ensures ColumnOf(PushRows(s, resolve, output, ids), name) == ColumnOf(output, name) + RowsFor(s, resolve, name, ids)
  {
    if ids == [] {
      assert ColumnOf(output, name) + [] == ColumnOf(output, name);
    } else {
      var init, id := ids[..|ids| - 1], ids[|ids| - 1];
      var prev, row := PushRows(s, resolve, output, init), PlayerRow(s.wantedPlayerProps, resolve, id, s.players[id]);
      PushRowsColumn(s, resolve, output, init, name);
      PushAllColumn(prev, s.wantedPlayerProps, row, name);
      AppendAfter(ColumnOf(output, name), ColumnOf(prev, name), ColumnOf(PushRows(s, resolve, output, ids), name),
                  RowsFor(s, resolve, name, init), Picked(s.wantedPlayerProps, row, name));
    }
  }

  /** Appending `earlier` and then `later` appends `earlier + later`. */
  lemma AppendAfter(start: PropColumn, middle: PropColumn, end: PropColumn, earlier: PropColumn, later: PropColumn)
    requires middle == start + earlier && end == middle + later
    ensures end == start + (earlier + later)
  {
    assert start + (earlier + later) == (start + earlier) + later;
  }

  /** A tick with at least one player creates exactly the wanted columns. */
  lemma {:induction false} PushRowsKeys(s: TickState, resolve: Resolver, output: Output, ids: seq<EntityId>)
    requires forall i :: 0 <= i < |ids| ==> ids[i] in s.players
    ensures PushRows(s, resolve, output, ids).Keys
            == output.Keys + (if ids == [] then {} else set n | n in s.wantedPlayerProps)
  {
    if ids != [] {
      var init, id := ids[..|ids| - 1], ids[|ids| - 1];
      PushRowsKeys(s, resolve, output, init);
      PushAllKeys(PushRows(s, resolve, output, init), s.wantedPlayerProps, PlayerRow(s.wantedPlayerProps, resolve, id, s.players[id]));
    }
  }

  /** Each player adds as many entries as the name occurs among the wanted props. */
  lemma {:induction false} RowsForLength(s: TickState, resolve: Resolver, name: string, ids: seq<EntityId>)
    requires forall i :: 0 <= i < |ids| ==> ids[i] in s.players
    ensures |RowsFor(s, resolve, name, ids)| == |ids| * multiset(s.wantedPlayerProps)[name]
  {
    if ids != [] {
      RowsForLength(s, resolve, name, ids[..|ids| - 1]);
      assert |ids| * multiset(s.wantedPlayerProps)[name]
             == (|ids| - 1) * multiset(s.wantedPlayerProps)[name] + multiset(s.wantedPlayerProps)[name];
    }
  }

  /** For a name wanted once, entry `k` of a tick's rows is player `k`'s value:
      rows line up across columns. */
  lemma {:induction false} RowsForAligned(s: TickState, resolve: Resolver, name: string, ids: seq<EntityId>, k: nat)
    requires forall i :: 0 <= i < |ids| ==> ids[i] in s.players
    requires multiset(s.wantedPlayerProps)[name] == 1
    requires k < |ids|
    ensures |RowsFor(s, resolve, name, ids)| == |ids|
    ensures RowsFor(s, resolve, name, ids)[k] == resolve(name, ids[k], s.players[ids[k]])
  {
    var init, id := ids[..|ids| - 1], ids[|ids| - 1];
    RowsForLength(s, resolve, name, ids);
    RowsForLength(s, resolve, name, init);
    if k < |init| {
      RowsForAligned(s, resolve, name, init, k);
    } else {
      PlayerRowPicked(s.wantedPlayerProps, resolve, id, s.players[id], name);
    }
  }

  /** An element of a sequence without repetitions occurs in it once. */
  lemma {:induction false} DistinctOccursOnce(q: seq<string>, x: string)
    requires forall i, j :: 0 <= i < j < |q| ==> q[i] != q[j]
    requires x in q
    ensures multiset(q)[x] == 1
  {
    var init, last := q[..|q| - 1], q[|q| - 1];
    assert q == init + [last];
    if last == x {
      assert x !in init;
    } else {
      DistinctOccursOnce(init, x);
    }
  }

  /** Columns of one common length stay of one common length: when no prop is
      wanted twice, every wanted column gains one entry per player. */
  lemma ColumnsStayAligned(s: TickState, resolve: Resolver, output: Output, len: nat)
    requires forall i :: 0 <= i < |s.playerOrder| ==> s.playerOrder[i] in s.players
    requires forall i, j :: 0 <= i < j < |s.wantedPlayerProps| ==> s.wantedPlayerProps[i] != s.wantedPlayerProps[j]
    requires forall n :: n in s.wantedPlayerProps ==> |ColumnOf(output, n)| == len
    ensures forall n :: n in s.wantedPlayerProps ==>
      |ColumnOf(PushRows(s, resolve, output, s.playerOrder), n)| == len + |s.playerOrder|
  {
    forall n | n in s.wantedPlayerProps
      ensures |ColumnOf(PushRows(s, resolve, output, s.playerOrder), n)| == len + |s.playerOrder|
    {
      DistinctOccursOnce(s.wantedPlayerProps, n);
      PushRowsColumn(s, resolve, output, s.playerOrder, n);
      RowsForLength(s, resolve, n, s.playerOrder);
    }
  }

  /** The rows one tick pushes onto the projectile records. */
  function ProjectileRecords(s: TickState, ids: seq<EntityId>): seq<ProjectileRecord>
    requires forall i :: 0 <= i < |ids| ==> ProjectileReadable(s, ids[i])
  {
    if ids == [] then []
    else ProjectileRecords(s, ids[..|ids| - 1]) + [ProjectileRecordFor(s, ids[|ids| - 1])]
  }

  /** One record per projectile, in order, each stamped with the current tick. */
  lemma {:induction false} ProjectileRecordsAt(s: TickState, ids: seq<EntityId>, k: nat)
    requires forall i :: 0 <= i < |ids| ==> ProjectileReadable(s, ids[i])
    requires k < |ids|
    ensures |ProjectileRecords(s, ids)| == |ids|
    ensures ProjectileRecords(s, ids)[k] == ProjectileRecordFor(s, ids[k])
    ensures ProjectileRecords(s, ids)[k].tick == Some(s.tick)
  {
    var init := ids[..|ids| - 1];
    if k < |init| {
      ProjectileRecordsAt(s, init, k);
    } else if init != [] {
      ProjectileRecordsAt(s, init, 0);
    }
  }

  /** The parser's output side for a run: the read-only view of the current tick,
      the output columns and the projectile records, both only appended to. */
  class Parser {
    const state: TickState
    var output: Output
    var projectileRecords: seq<ProjectileRecord>

    constructor (state: TickState)
      ensures this.state == state && output == map[] && projectileRecords == []
    {
      this.state := state;
      output := map[];
      projectileRecords := [];
    }

    /** `collect_projectiles`: one record per tracked projectile, appended in
        order; earlier records are kept. */
    method CollectProjectiles()
      requires forall i :: 0 <= i < |state.projectiles| ==> ProjectileReadable(state, state.projectiles[i])
      modifies this`projectileRecords
      ensures projectileRecords == old(projectileRecords) + ProjectileRecords(state, state.projectiles)
      ensures |projectileRecords| == |old(projectileRecords)| + |state.projectiles|
      ensures projectileRecords[..|old(projectileRecords)|] == old(projectileRecords)
      ensures forall k :: |old(projectileRecords)| <= k < |projectileRecords| ==>
        projectileRecords[k].tick == Some(state.tick)
    {
      var i := 0;
      while i < |state.projectiles|
        invariant 0 <= i <= |state.projectiles|
        invariant projectileRecords == old(projectileRecords) + ProjectileRecords(state, state.projectiles[..i])
      {
        var projectileEntid := state.projectiles[i];
        assert state.projectiles[..i + 1][..i] == state.projectiles[..i];
        projectileRecords := projectileRecords + [ProjectileRecordFor(state, projectileEntid)];
        i := i + 1;
      }
      assert state.projectiles[..i] == state.projectiles;
      if state.projectiles != [] {
        ProjectileRecordsAt(state, state.projectiles, 0);
      }
      forall k | |old(projectileRecords)| <= k < |projectileRecords|
        ensures projectileRecords[k].tick == Some(state.tick)
      {
        ProjectileRecordsAt(state, state.projectiles, k - |old(projectileRecords)|);
      }
    }

    /** `find_prop` for one player, as `collect_entities` calls it; it cannot
        fail with the shipped table. */
    method FindPropValue(propName: string, entityId: EntityId, player: PlayerMetaData)
      returns (prop: Option<Variant>)
      ensures prop == FindPropOn(state)(propName, entityId, player)
    {
      var r := FindProp(state, propName, entityId, player);
      FindPropNeverFails(state, propName, entityId, player);
      prop := r.value;
    }

    /** The inner loop of `collect_entities`: push the value of every wanted
        prop of one player onto that prop's column, creating it on first use. */
    method CollectPlayerRow(entityId: EntityId, player: PlayerMetaData)
      modifies this`output
      ensures output == PushAll(old(output), state.wantedPlayerProps, PlayerRow(state.wantedPlayerProps, FindPropOn(state), entityId, player))
    {
      ghost var row := PlayerRow(state.wantedPlayerProps, FindPropOn(state), entityId, player);
      var j := 0;
      while j < |state.wantedPlayerProps|
        invariant 0 <= j <= |state.wantedPlayerProps|
        invariant output == PushAll(old(output), state.wantedPlayerProps[..j], row[..j])
      {
        var propName := state.wantedPlayerProps[j];
        var prop := FindPropValue(propName, entityId, player);
        assert row[j] == prop;
        PushAllStep(old(output), state.wantedPlayerProps, row, j);
        output := Push(output, propName, prop);
        j := j + 1;
      }
      assert state.wantedPlayerProps[..j] == state.wantedPlayerProps;
      assert row[..j] == row;
    }

    /** The outer loop of `collect_entities`: push one row per player, in the
        order the players are enumerated. */
    method CollectPlayers()
      requires forall i :: 0 <= i < |state.playerOrder| ==> state.playerOrder[i] in state.players
      modifies this`output
      ensures output == PushRows(state, FindPropOn(state), old(output), state.playerOrder)
    {
      var i := 0;
      while i < |state.playerOrder|
        invariant 0 <= i <= |state.playerOrder|
        invariant output == PushRows(state, FindPropOn(state), old(output), state.playerOrder[..i])
      {
        var entityId := state.playerOrder[i];
        ghost var before := output;
        CollectPlayerRow(entityId, state.players[entityId]);
        assert state.playerOrder[..i + 1][..i] == state.playerOrder[..i];
        assert PushRows(state, FindPropOn(state), old(output), state.playerOrder[..i + 1])
               == PushAll(before, state.wantedPlayerProps, PlayerRow(state.wantedPlayerProps, FindPropOn(state), entityId, state.players[entityId]));
        i := i + 1;
      }
      assert state.playerOrder[..i] == state.playerOrder;
    }

    /** `collect_entities`: skip an unwanted tick; otherwise collect projectiles
        when asked to, then push every wanted prop of every player. */
    method CollectEntities()
      requires PlayersEnumerated(state)
      requires TickWanted(state) && state.parseProjectiles ==>
        forall i :: 0 <= i < |state.projectiles| ==> ProjectileReadable(state, state.projectiles[i])
      modifies this`output, this`projectileRecords
      ensures !TickWanted(state) ==> output == old(output) && projectileRecords == old(projectileRecords)
      ensures TickWanted(state) ==> output == PushRows(state, FindPropOn(state), old(output), state.playerOrder)
      ensures TickWanted(state) ==>
        projectileRecords == old(projectileRecords)
          + (if state.parseProjectiles then ProjectileRecords(state, state.projectiles) else [])
      ensures TickWanted(state) ==> forall name ::
        ColumnOf(output, name) == ColumnOf(old(output), name) + RowsFor(state, FindPropOn(state), name, state.playerOrder)
    {
      if !(state.tick in state.wantedTicks) && |state.wantedTicks| != 0 {
        return;
      }
      assert TickWanted(state);
      if state.parseProjectiles {
        CollectProjectiles();
      } else {
        assert projectileRecords + [] == projectileRecords;
      }
      CollectPlayers();
      forall name
        ensures ColumnOf(output, name) == ColumnOf(old(output), name) + RowsFor(state, FindPropOn(state), name, state.playerOrder)
      {
        PushRowsColumn(state, FindPropOn(state), old(output), state.playerOrder, name);
      }
    }
  }
}
