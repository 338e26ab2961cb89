/**
 * The world registry: the archetypes, one location per spawned handle, and
 * the index from a group's sorted type ids to the archetype storing it.
 */
module Worlds {
  import opened Wrappers
  import opened Lib
  import opened ArchetypeStorage
  import opened ComponentSets
  import opened Queries

  /** A snapshot of a `World`. */
  datatype WorldState = WorldState(archetypes: seq<ArchetypeState>, locations: seq<Location>, index: map<seq<TypeId>, nat>)

  /** The default world: no archetypes, no locations, an empty index. */
  function EmptyWorld(): (w: WorldState)
    ensures WorldWf(w) && |w.archetypes| == 0 && |w.locations| == 0 && |w.index| == 0
  {
    WorldState([], [], map[])
  }

  /** Every handle's location names a row of an archetype that holds that handle. */
  predicate LocationsResolve(w: WorldState) {
    forall h | 0 <= h < |w.locations| ::
      var l := w.locations[h];
      l.archetypeIndex < |w.archetypes| && l.entityIndex < |w.archetypes[l.archetypeIndex].entities|
      && w.archetypes[l.archetypeIndex].entities[l.entityIndex] == h
  }

  /** Every occupied row holds a spawned handle whose location is that row. */
  predicate EntitiesLocated(w: WorldState) {
    forall a, i | 0 <= a < |w.archetypes| && 0 <= i < |w.archetypes[a].entities| ::
      w.archetypes[a].entities[i] < |w.locations| && w.locations[w.archetypes[a].entities[i]] == Location(i, a)
  }

  /** Each index entry maps a signature to an archetype whose sorted ids are that signature. */
  predicate IndexSound(w: WorldState) {
    forall key | key in w.index :: w.index[key] < |w.archetypes| && IdsOf(w.archetypes[w.index[key]].componentTypes) == key
  }

  /** Every archetype is indexed under its own signature. */
  predicate IndexComplete(w: WorldState) {
    forall a | 0 <= a < |w.archetypes| ::
      IdsOf(w.archetypes[a].componentTypes) in w.index && w.index[IdsOf(w.archetypes[a].componentTypes)] == a
  }

  /** The world invariant. */
  predicate WorldWf(w: WorldState) {
    && AllSettled(w.archetypes)
    && LocationsResolve(w)
    && EntitiesLocated(w)
    && IndexSound(w)
    && IndexComplete(w)
  }

  /** The archetype `spawn` writes into, and the archetype list and index around it. */
  datatype Choice = Choice(archetypes: seq<ArchetypeState>, index: map<seq<TypeId>, nat>, position: nat)

  /**
   * `spawn`'s lookup: the indexed archetype when the signature is known,
   * else a new empty archetype appended and indexed.
   */
  function Choose(w: WorldState, s: ComponentSet): (r: Choice)
    requires WorldWf(w) && WellFormed(s)
    ensures r.position < |r.archetypes| && Settled(r.archetypes[r.position])
    ensures IdsOf(r.archetypes[r.position].componentTypes) == ComponentIds(s)
  {
    match GetIndex(s, w.index)
    case Some(i) => Choice(w.archetypes, w.index, i)
    case None =>
      Choice(w.archetypes + [EmptyState(ComponentInfos(s))], w.index[ComponentIds(s) := |w.archetypes|], |w.archetypes|)
  }

  /** The two outcomes of the lookup, each as a plain value. */
  lemma ChooseCases(w: WorldState, s: ComponentSet)
    requires WorldWf(w) && WellFormed(s)
    ensures GetIndex(s, w.index).Some? ==>
              Choose(w, s) == Choice(w.archetypes, w.index, GetIndex(s, w.index).value)
              && GetIndex(s, w.index).value < |w.archetypes|
    ensures GetIndex(s, w.index).None? ==>
              Choose(w, s)
                == Choice(w.archetypes + [EmptyState(ComponentInfos(s))], w.index[ComponentIds(s) := |w.archetypes|], |w.archetypes|)
  {
  }

  /** An archetype whose signature is the group's has a column for each member and a member for each column. */
  lemma GroupFits(st: ArchetypeState, s: ComponentSet)
    requires Wf(st) && WellFormed(s) && IdsOf(st.componentTypes) == ComponentIds(s)
    ensures forall i | 0 <= i < |Members(s)| :: Members(s)[i].info.id in st.index
    ensures forall c | 0 <= c < |st.componentTypes| :: HasMember(s, st.componentTypes[c].id)
  {
    IndexOfLookup(st.componentTypes);
    var ids := ComponentIds(s);
    forall i | 0 <= i < |Members(s)| ensures Members(s)[i].info.id in st.index {
      var id := Members(s)[i].info.id;
      assert HasMember(s, id);
      var j :| 0 <= j < |ids| && ids[j] == id;
      assert st.componentTypes[j].id == id;
    }
    forall c | 0 <= c < |st.componentTypes| ensures HasMember(s, st.componentTypes[c].id) {
      assert ids[c] == st.componentTypes[c].id;
    }
  }

  /** The chosen archetype after the write and the appended handle. */
  function Filled(st: ArchetypeState, s: ComponentSet, entity: EntityId): (r: ArchetypeState)
    requires Settled(st) && WellFormed(s) && IdsOf(st.componentTypes) == ComponentIds(s)
    ensures Settled(r) && r.entities == st.entities + [entity] && r.componentTypes == st.componentTypes
  {
    GroupFits(st, s);
    WrittenStateKeeps(st, s);
    WrittenStateSettles(st, s, entity);
    WrittenState(st, s).(entities := st.entities + [entity])
  }

  /**
   * What the lookup guarantees, whatever the group: the old archetypes are
   * kept, at most one empty archetype is appended and then chosen, every
   * archetype is settled, and the index agrees with the archetype list.
   */
  predicate Chosen(w: WorldState, ch: Choice) {
    && |w.archetypes| <= |ch.archetypes| <= |w.archetypes| + 1
    && ch.position < |ch.archetypes|
    && (forall a | 0 <= a < |w.archetypes| :: ch.archetypes[a] == w.archetypes[a])
    && (|ch.archetypes| > |w.archetypes| ==> ch.position == |w.archetypes| && |ch.archetypes[ch.position].entities| == 0)
    && AllSettled(ch.archetypes)
    && IndexSound(WorldState(ch.archetypes, w.locations, ch.index))
    && IndexComplete(WorldState(ch.archetypes, w.locations, ch.index))
  }

  lemma ReuseChosen(w: WorldState, position: nat)
    requires WorldWf(w) && position < |w.archetypes|
    ensures Chosen(w, Choice(w.archetypes, w.index, position))
  {
  }

  lemma AppendChosen(w: WorldState, st: ArchetypeState, key: seq<TypeId>)
    requires WorldWf(w) && Settled(st) && |st.entities| == 0 && IdsOf(st.componentTypes) == key && key !in w.index
    ensures Chosen(w, Choice(w.archetypes + [st], w.index[key := |w.archetypes|], |w.archetypes|))
  {
    forall a | 0 <= a < |w.archetypes| ensures IdsOf(w.archetypes[a].componentTypes) != key {
    }
  }

  lemma ChooseChosen(w: WorldState, s: ComponentSet)
    requires WorldWf(w) && WellFormed(s)
    ensures Chosen(w, Choose(w, s))
  {
    ChooseCases(w, s);
    match GetIndex(s, w.index)
    case Some(i) => ReuseChosen(w, i);
    case None => AppendChosen(w, EmptyState(ComponentInfos(s)), ComponentIds(s));
  }

  /** The archetype that replaces the chosen one fits there: settled, same types, one more handle. */
  predicate Fits(w: WorldState, ch: Choice, filled: ArchetypeState)
    requires ch.position < |ch.archetypes|
  {
    && Settled(filled)
    && filled.componentTypes == ch.archetypes[ch.position].componentTypes
    && filled.entities == ch.archetypes[ch.position].entities + [|w.locations|]
  }

  /** The chosen archetype replaced by `filled`, and the new handle's location appended. */
  function Place(w: WorldState, ch: Choice, filled: ArchetypeState): (r: WorldState)
    requires ch.position < |ch.archetypes|
    ensures |r.archetypes| == |ch.archetypes| && r.archetypes[ch.position] == filled && r.index == ch.index
    ensures |r.locations| == |w.locations| + 1 && r.locations[..|w.locations|] == w.locations
    ensures r.locations[|w.locations|] == Location(|ch.archetypes[ch.position].entities|, ch.position)
    ensures forall a | 0 <= a < |r.archetypes| && a != ch.position :: r.archetypes[a] == ch.archetypes[a]
  {
    var r := WorldState(ch.archetypes[ch.position := filled],
                        w.locations + [Location(|ch.archetypes[ch.position].entities|, ch.position)],
                        ch.index);
    assert r.locations[..|w.locations|] == w.locations;
    r
  }

  lemma PlaceLocationsResolve(w: WorldState, ch: Choice, filled: ArchetypeState)
    requires WorldWf(w) && Chosen(w, ch) && Fits(w, ch, filled)
    ensures LocationsResolve(Place(w, ch, filled))
  {
    var w' := Place(w, ch, filled);
    forall h | 0 <= h < |w'.locations|
      ensures var l := w'.locations[h];
        l.archetypeIndex < |w'.archetypes| && l.entityIndex < |w'.archetypes[l.archetypeIndex].entities|
        && w'.archetypes[l.archetypeIndex].entities[l.entityIndex] == h
    {
      if h < |w.locations| {
        var l := w.locations[h];
        assert w'.locations[h] == w'.locations[..|w.locations|][h];
        if l.archetypeIndex == ch.position {
          assert ch.archetypes[ch.position] == w.archetypes[ch.position];
        }
      }
    }
  }

  lemma PlaceEntitiesLocated(w: WorldState, ch: Choice, filled: ArchetypeState)
    requires WorldWf(w) && Chosen(w, ch) && Fits(w, ch, filled)
    ensures EntitiesLocated(Place(w, ch, filled))
  {
    var w' := Place(w, ch, filled);
    var pos := ch.position;
    forall a, i | 0 <= a < |w'.archetypes| && 0 <= i < |w'.archetypes[a].entities|
      ensures w'.archetypes[a].entities[i] < |w'.locations| && w'.locations[w'.archetypes[a].entities[i]] == Location(i, a)
    {
      var e := w'.archetypes[a].entities[i];
      if a == pos && i == |ch.archetypes[pos].entities| {
        assert e == |w.locations|;
      } else {
        assert a < |w.archetypes| && w.archetypes[a].entities[i] == e;
        assert w'.locations[e] == w'.locations[..|w.locations|][e];
      }
    }
  }

  lemma PlaceIndexed(w: WorldState, ch: Choice, filled: ArchetypeState)
    requires Chosen(w, ch) && Fits(w, ch, filled)
    ensures IndexSound(Place(w, ch, filled)) && IndexComplete(Place(w, ch, filled))
  {
    var w' := Place(w, ch, filled);
    assert forall a | 0 <= a < |w'.archetypes| :: w'.archetypes[a].componentTypes == ch.archetypes[a].componentTypes;
  }

  /** Placing a fitting archetype at the lookup's choice keeps the world invariant. */
  lemma PlacePreservesWf(w: WorldState, ch: Choice, filled: ArchetypeState)
    requires WorldWf(w) && Chosen(w, ch) && Fits(w, ch, filled)
    ensures WorldWf(Place(w, ch, filled))
  {
    var w' := Place(w, ch, filled);
    assert forall a | 0 <= a < |w'.archetypes| :: Settled(w'.archetypes[a]);
    PlaceLocationsResolve(w, ch, filled);
    PlaceEntitiesLocated(w, ch, filled);
    PlaceIndexed(w, ch, filled);
  }

  /** The world `spawn` leaves behind. */
  function SpawnState(w: WorldState, s: ComponentSet): WorldState
    requires WorldWf(w) && WellFormed(s)
  {
    var ch := Choose(w, s);
    Place(w, ch, Filled(ch.archetypes[ch.position], s, |w.locations|))
  }

  /**
   * Reuse or creation: a known signature reuses its archetype and leaves the
   * index alone; a new one appends exactly one archetype, built from the
   * group's sorted infos, and indexes it at the old archetype count.
   */
  lemma SpawnChoosesArchetype(w: WorldState, s: ComponentSet)
    requires WorldWf(w) && WellFormed(s)
    ensures var w' := SpawnState(w, s);
      var pos := w'.locations[|w.locations|].archetypeIndex;
      && (ComponentIds(s) in w.index ==>
            |w'.archetypes| == |w.archetypes| && w'.index == w.index && pos == w.index[ComponentIds(s)])
      && (ComponentIds(s) !in w.index ==>
            && |w'.archetypes| == |w.archetypes| + 1 && pos == |w.archetypes|
            && w'.index == w.index[ComponentIds(s) := |w.archetypes|]
            && w'.archetypes[pos].componentTypes == ComponentInfos(s))
  {
    ChooseCases(w, s);
  }

  /**
   * What one spawn records: the handle is the old location count, one
   * location is appended naming the chosen archetype and its old row count,
   * that archetype's entity list grows by the handle, and every other
   * archetype is unchanged.
   */
  lemma SpawnRecords(w: WorldState, s: ComponentSet)
    requires WorldWf(w) && WellFormed(s)
    ensures var w' := SpawnState(w, s);
      var h := |w.locations|;
      && |w'.locations| == h + 1 && w'.locations[..h] == w.locations
      && var l := w'.locations[h];
      && l.archetypeIndex < |w'.archetypes|
      && l.entityIndex == (if l.archetypeIndex < |w.archetypes| then |w.archetypes[l.archetypeIndex].entities| else 0)
      && w'.archetypes[l.archetypeIndex].entities
           == (if l.archetypeIndex < |w.archetypes| then w.archetypes[l.archetypeIndex].entities else []) + [h]
      && forall a | 0 <= a < |w.archetypes| && a != l.archetypeIndex :: w'.archetypes[a] == w.archetypes[a]
  {
    ChooseChosen(w, s);
  }

  /** Each spawn hands out one more handle. */
  lemma SpawnCountsHandles(w: WorldState, s: ComponentSet)
    requires WorldWf(w) && WellFormed(s)
    ensures |SpawnState(w, s).locations| == |w.locations| + 1
  {
  }

  /** A spawn into a known signature adds no archetype. */
  lemma SpawnKeepsArchetypeCount(w: WorldState, s: ComponentSet)
    requires WorldWf(w) && WellFormed(s) && ComponentIds(s) in w.index
    ensures |SpawnState(w, s).archetypes| == |w.archetypes|
  {
    ChooseCases(w, s);
  }

  /** A spawn never changes an existing archetype's type list. */
  lemma SpawnKeepsSignatures(w: WorldState, s: ComponentSet)
    requires WorldWf(w) && WellFormed(s)
    ensures var w' := SpawnState(w, s);
      && |w.archetypes| <= |w'.archetypes|
      && forall a | 0 <= a < |w.archetypes| :: w'.archetypes[a].componentTypes == w.archetypes[a].componentTypes
  {
    var ch := Choose(w, s);
    ChooseChosen(w, s);
    var filled := Filled(ch.archetypes[ch.position], s, |w.locations|);
    var w' := Place(w, ch, filled);
    assert w' == SpawnState(w, s);
    forall a | 0 <= a < |w.archetypes| ensures w'.archetypes[a].componentTypes == w.archetypes[a].componentTypes {
      assert ch.archetypes[a] == w.archetypes[a];
      if a != ch.position {
        assert w'.archetypes[a] == ch.archetypes[a];
      }
    }
  }

  /**
   * Spawning a group gives the same world whatever the order its members are
   * listed in: `(A, B)` and `(B, A)` share an archetype and store the same row.
   */
  lemma SpawnPermuted(w: WorldState, s1: ComponentSet, s2: ComponentSet)
    requires WorldWf(w) && WellFormed(s1) && WellFormed(s2) && multiset(Members(s1)) == multiset(Members(s2))
    ensures SpawnState(w, s1) == SpawnState(w, s2)
  {
    InfosPermuted(Members(s1), Members(s2));
    GetIndexOrderIndependent(s1, s2, w.index);
    ComponentInfosOrderIndependent(s1, s2);
    var ch := Choose(w, s1);
    assert Choose(w, s2) == ch;
    var st := ch.archetypes[ch.position];
    GroupFits(st, s1);
    WrittenStatePermuted(st, s1, s2);
  }

  /** Row `row` of `f` holds the group: each member's value in its column, when the column has a buffer. */
  predicate RowHolds(f: ArchetypeState, s: ComponentSet, row: nat) {
    forall i | 0 <= i < |Members(s)| ::
      Members(s)[i].info.id in f.index && f.index[Members(s)[i].info.id] < |f.columns|
      && var col := f.columns[f.index[Members(s)[i].info.id]];
      col.hasBuffer ==> row < |col.slots| && col.slots[row] == Init(Members(s)[i].value)
  }

  /** Every occupied row of `st` is in `f` with the same value. */
  predicate RowsKept(st: ArchetypeState, f: ArchetypeState) {
    forall c, k | 0 <= c < |st.columns| && st.columns[c].hasBuffer && 0 <= k < |st.entities| && k < |st.columns[c].slots| ::
      c < |f.columns| && k < |f.columns[c].slots| && f.columns[c].slots[k] == st.columns[c].slots[k]
  }

  /** The row `write_archetype` fills: each member's value in its column, earlier rows kept. */
  lemma FilledRow(st: ArchetypeState, s: ComponentSet, entity: EntityId)
    requires Settled(st) && WellFormed(s) && IdsOf(st.componentTypes) == ComponentIds(s)
    ensures RowHolds(Filled(st, s, entity), s, |st.entities|) && RowsKept(st, Filled(st, s, entity))
  {
    FilledRowWritten(st, s, entity);
    FilledRowKept(st, s, entity);
  }

  lemma FilledRowWritten(st: ArchetypeState, s: ComponentSet, entity: EntityId)
    requires Settled(st) && WellFormed(s) && IdsOf(st.componentTypes) == ComponentIds(s)
    ensures RowHolds(Filled(st, s, entity), s, |st.entities|)
  {
    GroupFits(st, s);
    WrittenStateKeeps(st, s);
    IndexOfLookup(st.componentTypes);
    forall i | 0 <= i < |Members(s)|
      ensures var c := st.index[Members(s)[i].info.id];
        c < |st.columns| && st.componentTypes[c].id == Members(s)[i].info.id
    {
      var j :| 0 <= j < |st.componentTypes| && st.componentTypes[j].id == Members(s)[i].info.id;
    }
    forall i | 0 <= i < |Members(s)|
      ensures var c := st.index[Members(s)[i].info.id];
        var col := WrittenState(st, s).columns[c];
        col.hasBuffer ==> |st.entities| < |col.slots| && col.slots[|st.entities|] == Init(Members(s)[i].value)
    {
      WrittenStateRow(st, s, st.index[Members(s)[i].info.id], i);
    }
  }

  lemma FilledRowKept(st: ArchetypeState, s: ComponentSet, entity: EntityId)
    requires Settled(st) && WellFormed(s) && IdsOf(st.componentTypes) == ComponentIds(s)
    ensures RowsKept(st, Filled(st, s, entity))
  {
    GroupFits(st, s);
    WrittenStateKeeps(st, s);
  }

  /**
   * The new row holds the group: each member's value sits at the new row of
   * its column when the column has a buffer, and every row that was occupied
   * before keeps its value.
   */
  lemma SpawnWritesRow(w: WorldState, s: ComponentSet)
    requires WorldWf(w) && WellFormed(s)
    ensures var w' := SpawnState(w, s);
      var l := w'.locations[|w.locations|];
      var a' := w'.archetypes[l.archetypeIndex];
      && RowHolds(a', s, l.entityIndex)
      && (l.archetypeIndex < |w.archetypes| ==> RowsKept(w.archetypes[l.archetypeIndex], a'))
  {
    var ch := Choose(w, s);
    ChooseChosen(w, s);
    var st, p := ch.archetypes[ch.position], ch.position;
    var w' := SpawnState(w, s);
    FilledRow(st, s, |w.locations|);
    assert w'.locations[|w.locations|] == Location(|st.entities|, p);
    assert w'.archetypes[p] == Filled(st, s, |w.locations|);
    assert p < |w.archetypes| ==> st == w.archetypes[p];
  }

  /** `spawn` keeps the world invariant. */
  lemma SpawnPreservesWf(w: WorldState, s: ComponentSet)
    requires WorldWf(w) && WellFormed(s)
    ensures WorldWf(SpawnState(w, s))
  {
    var ch := Choose(w, s);
    ChooseChosen(w, s);
    PlacePreservesWf(w, ch, Filled(ch.archetypes[ch.position], s, |w.locations|));
  }

  /** What the lookup leaves, described case by case, is `Choose`'s result. */
  lemma LookupIsChoose(w: WorldState, s: ComponentSet, arches: seq<ArchetypeState>, index: map<seq<TypeId>, nat>, position: nat)
    requires WorldWf(w) && WellFormed(s)
    requires GetIndex(s, w.index).Some? ==>
               position == GetIndex(s, w.index).value && arches == w.archetypes && index == w.index
    requires GetIndex(s, w.index).None? ==>
               && position == |w.archetypes| && index == w.index[ComponentIds(s) := position]
               && arches == w.archetypes + [EmptyState(ComponentInfos(s))]
    ensures Choose(w, s) == Choice(arches, index, position)
    ensures position < |arches| && Settled(arches[position]) && IdsOf(arches[position].componentTypes) == ComponentIds(s)
  {
    ChooseCases(w, s);
  }

  /** The state after the lookup, the new location and the fill is `SpawnState`, and it is well formed. */
  lemma FillIsSpawn(w: WorldState, s: ComponentSet, looked: seq<ArchetypeState>, index: map<seq<TypeId>, nat>, position: nat,
                     arches: seq<ArchetypeState>, locations: seq<Location>)
    requires WorldWf(w) && WellFormed(s) && Choose(w, s) == Choice(looked, index, position)
    requires arches == looked[position := Filled(looked[position], s, |w.locations|)]
    requires locations == w.locations + [Location(|looked[position].entities|, position)]
    ensures WorldState(arches, locations, index) == SpawnState(w, s)
    ensures WorldWf(WorldState(arches, locations, index))
  {
    SpawnPreservesWf(w, s);
  }

  /**
   * What a query reads at a new row of an archetype with the sorted types
   * `sig`, in the column of type `t`: the group's value, or the placeholder
   * when the type is zero-sized.
   */
  function Reading(sig: seq<TypeInfo>, s: ComponentSet, t: TypeId): Value
    requires SortedById(sig) && t in IndexOf(sig)
  {
    IndexOfLookup(sig);
    if sig[IndexOf(sig)[t]].size == 0 then Unit
    else match ValueOf(Members(s), t) case Some(v) => v case None => Unit
  }

  /** The items a new row adds to a query for `types`: one, when the archetype holds every requested type. */
  function NewItems(sig: seq<TypeInfo>, s: ComponentSet, entity: EntityId, types: seq<TypeId>): seq<Item>
    requires SortedById(sig)
  {
    if forall t | t in types :: t in IndexOf(sig) then [Item(entity, Readings(sig, s, types))] else []
  }

  /** What a new row reads in each requested column. */
  function Readings(sig: seq<TypeInfo>, s: ComponentSet, types: seq<TypeId>): (r: seq<Value>)
    requires SortedById(sig) && forall t | t in types :: t in IndexOf(sig)
    ensures |r| == |types| && forall k | 0 <= k < |types| :: r[k] == Reading(sig, s, types[k])
  {
    seq(|types|, k requires 0 <= k < |types| => Reading(sig, s, types[k]))
  }

  /**
   * `f` is `st` with one row appended for `entity`: same types, every old
   * row kept, and each buffer holding the group's value at the new row.
   */
  predicate Appended(st: ArchetypeState, f: ArchetypeState, s: ComponentSet, entity: EntityId) {
    && Settled(st) && Settled(f)
    && f.componentTypes == st.componentTypes && f.index == st.index && f.capacity > 0
    && f.entities == st.entities + [entity]
    && (forall c, k | 0 <= c < |st.columns| && st.columns[c].hasBuffer && 0 <= k < |st.entities| ::
          f.columns[c].hasBuffer && k < |f.columns[c].slots| && f.columns[c].slots[k] == st.columns[c].slots[k])
    && (forall t | t in st.index ::
          && st.index[t] < |f.columns| && ValueOf(Members(s), t).Some?
          && (f.columns[st.index[t]].hasBuffer ==>
                |st.entities| < |f.columns[st.index[t]].slots|
                && f.columns[st.index[t]].slots[|st.entities|] == Init(ValueOf(Members(s), t).value)))
  }

  lemma FilledAppended(st: ArchetypeState, s: ComponentSet, entity: EntityId)
    requires Settled(st) && WellFormed(s) && IdsOf(st.componentTypes) == ComponentIds(s)
    ensures Appended(st, Filled(st, s, entity), s, entity)
  {
    FilledShape(st, s, entity);
    FilledKeeps(st, s, entity);
    FilledNewRow(st, s, entity);
  }

  lemma FilledShape(st: ArchetypeState, s: ComponentSet, entity: EntityId)
    requires Settled(st) && WellFormed(s) && IdsOf(st.componentTypes) == ComponentIds(s)
    ensures var f := Filled(st, s, entity);
      f.index == st.index && f.capacity > 0 && |f.columns| == |st.columns|
      && forall c | 0 <= c < |st.columns| :: f.columns[c].hasBuffer <==> st.componentTypes[c].size > 0
  {
    GroupFits(st, s);
  }

  lemma FilledKeeps(st: ArchetypeState, s: ComponentSet, entity: EntityId)
    requires Settled(st) && WellFormed(s) && IdsOf(st.componentTypes) == ComponentIds(s)
    ensures var f := Filled(st, s, entity);
      forall c, k | 0 <= c < |st.columns| && st.columns[c].hasBuffer && 0 <= k < |st.entities| ::
        f.columns[c].hasBuffer && k < |f.columns[c].slots| && f.columns[c].slots[k] == st.columns[c].slots[k]
  {
    FilledRow(st, s, entity);
    FilledShape(st, s, entity);
  }

  lemma FilledNewRow(st: ArchetypeState, s: ComponentSet, entity: EntityId)
    requires Settled(st) && WellFormed(s) && IdsOf(st.componentTypes) == ComponentIds(s)
    ensures var f := Filled(st, s, entity);
      forall t | t in st.index ::
        && st.index[t] < |f.columns| && ValueOf(Members(s), t).Some?
        && (f.columns[st.index[t]].hasBuffer ==>
              |st.entities| < |f.columns[st.index[t]].slots|
              && f.columns[st.index[t]].slots[|st.entities|] == Init(ValueOf(Members(s), t).value))
  {
    var f := Filled(st, s, entity);
    FilledRow(st, s, entity);
    GroupFits(st, s);
    IndexOfLookup(st.componentTypes);
    forall t | t in st.index
      ensures && st.index[t] < |f.columns| && ValueOf(Members(s), t).Some?
              && (f.columns[st.index[t]].hasBuffer ==>
                    |st.entities| < |f.columns[st.index[t]].slots|
                    && f.columns[st.index[t]].slots[|st.entities|] == Init(ValueOf(Members(s), t).value))
    {
      assert HasMember(s, t);
      var j :| 0 <= j < |Members(s)| && Members(s)[j].info.id == t;
      ValueOfMember(Members(s), j);
    }
  }

  /** The slice of type `t` after the append: the old slice, then what the new row reads. */
  lemma AppendedView(st: ArchetypeState, f: ArchetypeState, s: ComponentSet, entity: EntityId, t: TypeId)
    requires Appended(st, f, s, entity) && t in st.index
    ensures ColumnView(f, t) == ColumnView(st, t) + [Reading(st.componentTypes, s, t)]
  {
    IndexOfLookup(st.componentTypes);
    var c := st.index[t];
    var view, expected := ColumnView(f, t), ColumnView(st, t) + [Reading(st.componentTypes, s, t)];
    assert f.columns[c].hasBuffer <==> st.componentTypes[c].size > 0;
    forall i | 0 <= i < |view| ensures view[i] == expected[i] {
      if i < |st.entities| {
        assert st.columns[c].hasBuffer ==> f.columns[c].slots[i] == st.columns[c].slots[i];
      }
    }
  }

  /**
   * What the archetype contributes to a query after the append: what it
   * contributed before, then the new row's item when it holds every requested type.
   */
  lemma AppendedContribution(st: ArchetypeState, f: ArchetypeState, s: ComponentSet, entity: EntityId, types: seq<TypeId>)
    requires Appended(st, f, s, entity) && |types| > 0
    ensures Contribution(f, types) == Contribution(st, types) + NewItems(st.componentTypes, s, entity, types)
  {
    if Matches(f, types) {
      AppendedColumns(st, f, s, entity, types);
      var rows, expected := EntityRows(f, types), Contribution(st, types) + NewItems(st.componentTypes, s, entity, types);
      forall i | 0 <= i < |rows| ensures rows[i] == expected[i] {
        AppendedRow(st, f, s, entity, types, i);
      }
    } else {
      assert !Matches(st, types);
    }
  }

  /** Row `i` of the requested slices after the append. */
  lemma AppendedRow(st: ArchetypeState, f: ArchetypeState, s: ComponentSet, entity: EntityId, types: seq<TypeId>, i: nat)
    requires Appended(st, f, s, entity) && |types| > 0 && Matches(f, types) && i < |f.entities|
    ensures forall t | t in types :: t in st.index
    ensures i < |st.entities| ==> Matches(st, types) && RowAt(Columns(f, types), i) == RowAt(Columns(st, types), i)
    ensures i == |st.entities| ==> NewItems(st.componentTypes, s, entity, types) == [Item(entity, RowAt(Columns(f, types), i))]
  {
    AppendedColumns(st, f, s, entity, types);
    if i == |st.entities| {
      var row := RowAt(Columns(f, types), i);
      forall k | 0 <= k < |types| ensures row[k] == Reading(st.componentTypes, s, types[k]) {
        assert Columns(f, types)[k] == ColumnView(st, types[k]) + [Reading(st.componentTypes, s, types[k])];
      }
      assert row == Readings(st.componentTypes, s, types);
    }
  }

  /** Every requested slice after the append is the old slice followed by what the new row reads. */
  lemma AppendedColumns(st: ArchetypeState, f: ArchetypeState, s: ComponentSet, entity: EntityId, types: seq<TypeId>)
    requires Appended(st, f, s, entity) && Matches(f, types)
    ensures forall t | t in types :: t in st.index
    ensures forall k | 0 <= k < |types| ::
              types[k] in st.index && Columns(f, types)[k] == ColumnView(st, types[k]) + [Reading(st.componentTypes, s, types[k])]
  {
    forall k | 0 <= k < |types|
      ensures types[k] in st.index && Columns(f, types)[k] == ColumnView(st, types[k]) + [Reading(st.componentTypes, s, types[k])]
    {
      assert types[k] in types;
      AppendedView(st, f, s, entity, types[k]);
    }
  }

  /** What the chosen archetype contributes after the spawn's fill. */
  lemma FilledContribution(st: ArchetypeState, s: ComponentSet, entity: EntityId, types: seq<TypeId>)
    requires Settled(st) && WellFormed(s) && IdsOf(st.componentTypes) == ComponentIds(s) && |types| > 0
    ensures Contribution(Filled(st, s, entity), types) == Contribution(st, types) + NewItems(st.componentTypes, s, entity, types)
  {
    FilledAppended(st, s, entity);
    AppendedContribution(st, Filled(st, s, entity), s, entity, types);
  }

  /**
   * A spawn into a known signature's archetype adds its handle's item to that
   * archetype's part of `(Entity, &A, ...)`, after the archetype's old items,
   * and leaves every other archetype's part as it was; the item carries the
   * group's values (unit for zero-sized types) and is there only when the
   * group holds every requested type.
   */
  lemma SpawnSegmentsExisting(w: WorldState, s: ComponentSet, types: seq<TypeId>)
    requires WorldWf(w) && WellFormed(s) && |types| > 0 && ComponentIds(s) in w.index
    ensures AllSettled(SpawnState(w, s).archetypes)
    ensures var p := w.index[ComponentIds(s)];
      && p < |w.archetypes|
      && Segments(SpawnState(w, s).archetypes, types)
           == Segments(w.archetypes, types)[p := Segments(w.archetypes, types)[p]
                + NewItems(w.archetypes[p].componentTypes, s, |w.locations|, types)]
  {
    var w', h := SpawnState(w, s), |w.locations|;
    SpawnSplices(w, s);
    SpawnChoosesArchetype(w, s);
    var p := w.index[ComponentIds(s)];
    SegmentsGrownAt(w.archetypes, w'.archetypes, p, s, h, types);
  }

  /**
   * A spawn of a new signature appends one part to `(Entity, &A, ...)`,
   * after every earlier item, holding only the new handle's item (when the
   * group holds every requested type).
   */
  lemma SpawnSegmentsNew(w: WorldState, s: ComponentSet, types: seq<TypeId>)
    requires WorldWf(w) && WellFormed(s) && |types| > 0 && ComponentIds(s) !in w.index
    ensures AllSettled(SpawnState(w, s).archetypes)
    ensures Segments(SpawnState(w, s).archetypes, types)
              == Segments(w.archetypes, types) + [NewItems(ComponentInfos(s), s, |w.locations|, types)]
  {
    var w', h := SpawnState(w, s), |w.locations|;
    SpawnGrowsNew(w, s);
    SegmentsGrownAtEnd(w.archetypes, w'.archetypes, EmptyState(ComponentInfos(s)), s, h, types);
  }

  /** A spawn of a new signature appends one archetype holding just the new row. */
  lemma SpawnGrowsNew(w: WorldState, s: ComponentSet)
    requires WorldWf(w) && WellFormed(s) && ComponentIds(s) !in w.index
    ensures var w' := SpawnState(w, s);
      && AllSettled(w'.archetypes) && |w'.archetypes| == |w.archetypes| + 1
      && (forall a | 0 <= a < |w.archetypes| :: w'.archetypes[a] == w.archetypes[a])
      && Appended(EmptyState(ComponentInfos(s)), w'.archetypes[|w.archetypes|], s, |w.locations|)
  {
    var st, h, p := EmptyState(ComponentInfos(s)), |w.locations|, |w.archetypes|;
    SpawnNewShape(w, s);
    FilledAppended(st, s, h);
    var w' := SpawnState(w, s);
    forall a | 0 <= a < |w'.archetypes| ensures Settled(w'.archetypes[a]) {
      if a < p {
        assert w'.archetypes[a] == w.archetypes[a];
      }
    }
  }

  /** The archetype list after a spawn of a new signature: the old one, then the filled empty archetype. */
  lemma SpawnNewShape(w: WorldState, s: ComponentSet)
    requires WorldWf(w) && WellFormed(s) && ComponentIds(s) !in w.index
    ensures var w', st := SpawnState(w, s), EmptyState(ComponentInfos(s));
      && Settled(st) && IdsOf(st.componentTypes) == ComponentIds(s)
      && |w'.archetypes| == |w.archetypes| + 1
      && (forall a | 0 <= a < |w.archetypes| :: w'.archetypes[a] == w.archetypes[a])
      && w'.archetypes[|w.archetypes|] == Filled(st, s, |w.locations|)
  {
    ChooseCases(w, s);
    var st, h, p := EmptyState(ComponentInfos(s)), |w.locations|, |w.archetypes|;
    var ch := Choose(w, s);
    assert ch.position == p && ch.archetypes == w.archetypes + [st];
    var w' := Place(w, ch, Filled(st, s, h));
    assert w' == SpawnState(w, s);
  }

  /** Growing archetype `p` by one row grows its part of the query by that row's item. */
  lemma SegmentsGrownAt(before: seq<ArchetypeState>, after: seq<ArchetypeState>, p: nat,
                        s: ComponentSet, entity: EntityId, types: seq<TypeId>)
    requires AllSettled(before) && AllSettled(after) && |types| > 0
    requires p < |before| == |after| && Appended(before[p], after[p], s, entity)
    requires forall a | 0 <= a < |before| && a != p :: after[a] == before[a]
    ensures Segments(after, types)
              == Segments(before, types)[p := Segments(before, types)[p]
                   + NewItems(before[p].componentTypes, s, entity, types)]
  {
    AppendedContribution(before[p], after[p], s, entity, types);
  }

  /** Appending an archetype holding one row appends a part holding that row's item. */
  lemma SegmentsGrownAtEnd(before: seq<ArchetypeState>, after: seq<ArchetypeState>, st: ArchetypeState,
                           s: ComponentSet, entity: EntityId, types: seq<TypeId>)
    requires AllSettled(before) && AllSettled(after) && |types| > 0
    requires |after| == |before| + 1 && |st.entities| == 0 && Appended(st, after[|before|], s, entity)
    requires forall a | 0 <= a < |before| :: after[a] == before[a]
    ensures Segments(after, types) == Segments(before, types) + [NewItems(st.componentTypes, s, entity, types)]
  {
    AppendedContribution(st, after[|before|], s, entity, types);
    assert Contribution(st, types) == [];
    var expected := Segments(before, types) + [NewItems(st.componentTypes, s, entity, types)];
    forall a | 0 <= a < |after| ensures Segments(after, types)[a] == expected[a] {
      if a < |before| {
        assert after[a] == before[a];
      }
    }
  }

  /**
   * The archetype list after a spawn is the old one with the chosen
   * archetype, or a new empty one appended, grown by the new row.
   */
  lemma SpawnSplices(w: WorldState, s: ComponentSet)
    requires WorldWf(w) && WellFormed(s)
    ensures var w', h := SpawnState(w, s), |w.locations|;
      var p := w'.locations[h].archetypeIndex;
      && AllSettled(w'.archetypes)
      && p < |w'.archetypes| && |w.archetypes| <= |w'.archetypes| <= |w.archetypes| + 1
      && (|w'.archetypes| > |w.archetypes| ==> p == |w.archetypes|)
      && (p >= |w.archetypes| ==> p == |w.archetypes| && |w'.archetypes| == |w.archetypes| + 1)
      && (forall a | 0 <= a < |w.archetypes| && a != p :: w'.archetypes[a] == w.archetypes[a])
      && (p < |w.archetypes| ==> Appended(w.archetypes[p], w'.archetypes[p], s, h))
      && (p >= |w.archetypes| ==> Appended(EmptyState(ComponentInfos(s)), w'.archetypes[p], s, h))
  {
    var ch := Choose(w, s);
    ChooseChosen(w, s);
    ChooseCases(w, s);
    SpawnPreservesWf(w, s);
    var p, h := ch.position, |w.locations|;
    var st := if p < |w.archetypes| then w.archetypes[p] else EmptyState(ComponentInfos(s));
    assert st == ch.archetypes[p];
    FilledAppended(st, s, h);
  }

  /**
   * A live handle whose archetype holds every requested type is yielded by
   * `(Entity, &A, ...)`, with the values of its row.
   */
  lemma QueryYieldsHandle(w: WorldState, types: seq<TypeId>, h: EntityId)
    requires WorldWf(w) && |types| > 0 && h < |w.locations|
    requires forall t | t in types :: t in w.archetypes[w.locations[h].archetypeIndex].index
    ensures var l := w.locations[h];
      var a := w.archetypes[l.archetypeIndex];
      Item(h, RowAt(Columns(a, types), l.entityIndex)) in QueryEntity(w.archetypes, types)
  {
    var l := w.locations[h];
    var a := w.archetypes[l.archetypeIndex];
    var item := Item(h, RowAt(Columns(a, types), l.entityIndex));
    QueryEntityMembership(w.archetypes, types, item);
    assert Matches(a, types) && item == Item(a.entities[l.entityIndex], RowAt(Columns(a, types), l.entityIndex));
  }

  /**
   * Every item of `(Entity, &A, ...)` is a live handle whose archetype holds
   * every requested type, paired with the values of the row its location names.
   */
  lemma QueryYieldsOnlyMatching(w: WorldState, types: seq<TypeId>, item: Item)
    requires WorldWf(w) && |types| > 0 && item in QueryEntity(w.archetypes, types)
    ensures item.entity < |w.locations|
    ensures var l := w.locations[item.entity];
      && (forall t | t in types :: t in w.archetypes[l.archetypeIndex].index)
      && item.components == RowAt(Columns(w.archetypes[l.archetypeIndex], types), l.entityIndex)
  {
    QueryEntityMembership(w.archetypes, types, item);
    var a, i :| 0 <= a < |w.archetypes| && 0 <= i < |w.archetypes[a].entities| &&
      Matches(w.archetypes[a], types) && item == Item(w.archetypes[a].entities[i], RowAt(Columns(w.archetypes[a], types), i));
    assert w.locations[item.entity] == Location(i, a);
  }

  /**
   * The stores of a mutable query touch only column contents, so the
   * invariant still holds: handles, locations, types and the index are as they were.
   */
  lemma UpdatedPreservesWf(w: WorldState, t: TypeId, f: (EntityId, Value) -> Value)
    requires WorldWf(w)
    ensures WorldWf(w.(archetypes := Updated(w.archetypes, t, f)))
  {
    var w' := w.(archetypes := Updated(w.archetypes, t, f));
    assert forall a | 0 <= a < |w.archetypes| ::
      w'.archetypes[a].entities == w.archetypes[a].entities && w'.archetypes[a].componentTypes == w.archetypes[a].componentTypes;
  }

  /** One more archetype visited by the update loop. */
  lemma UpdatedStep(start: seq<ArchetypeState>, t: TypeId, f: (EntityId, Value) -> Value, k: nat)
    requires AllSettled(start) && k < |start|
    ensures var cur := Updated(start[..k], t, f) + start[k..];
      var next := Updated(start[..k + 1], t, f) + start[k + 1..];
      && cur[k] == start[k]
      && (MatchesOne(start[k], t) ==> cur[k := RowsUpdated(start[k], t, f)] == next)
      && (!MatchesOne(start[k], t) ==> cur == next)
  {
    var cur := Updated(start[..k], t, f) + start[k..];
    var next := Updated(start[..k + 1], t, f) + start[k + 1..];
    assert forall a | 0 <= a < |start| && a != k :: cur[a] == next[a];
  }

  /** The snapshots of a sequence of archetype objects. */
  function States(arches: seq<Archetype>): (r: seq<ArchetypeState>)
    reads arches
    ensures |r| == |arches| && forall i | 0 <= i < |arches| :: r[i] == arches[i].State()
  {
    if |arches| == 0 then [] else States(arches[..|arches| - 1]) + [arches[|arches| - 1].State()]
  }

  /**
   * `slot` numbers the archetype objects by their position, so no object
   * occurs twice.
   */
  predicate Numbered(arches: seq<Archetype>, slot: map<Archetype, nat>) {
    forall i | 0 <= i < |arches| :: arches[i] in slot && slot[arches[i]] == i
  }

  /**
   * The tail of `spawn` on the chosen archetype: `write_archetype`, then the
   * handle pushed onto its entity list.
   */
  method FillOne(a: Archetype, s: ComponentSet, entity: EntityId)
    requires WellFormed(s) && Settled(a.State()) && IdsOf(a.componentTypes) == ComponentIds(s)
    modifies a
    ensures a.State() == Filled(old(a.State()), s, entity)
  {
    ghost var st := a.State();
    GroupFits(st, s);
    WriteArchetype(s, a);
    ghost var written := a.State();
    assert written.entities == st.entities;
    a.entities := a.entities + [entity];
    assert a.State() == written.(entities := st.entities + [entity]);
  }

  /** `FillOne` on the archetype at `position`; no other archetype changes. */
  method Fill(arches: seq<Archetype>, ghost slot: map<Archetype, nat>, ghost looked: seq<ArchetypeState>,
              position: nat, a: Archetype, s: ComponentSet, entity: EntityId)
    requires looked == States(arches) && position < |arches| && a == arches[position] && Numbered(arches, slot) && WellFormed(s)
    requires Settled(looked[position]) && IdsOf(looked[position].componentTypes) == ComponentIds(s)
    modifies a
    ensures States(arches) == looked[position := Filled(looked[position], s, entity)]
  {
    FillOne(a, s, entity);
  }

  /** The stores through the references into the archetype at `position`; no other archetype changes. */
  method UpdateOne(arches: seq<Archetype>, ghost slot: map<Archetype, nat>, ghost looked: seq<ArchetypeState>,
                   position: nat, a: Archetype, t: TypeId, f: (EntityId, Value) -> Value)
    requires looked == States(arches) && position < |arches| && a == arches[position] && Numbered(arches, slot)
    requires Settled(looked[position]) && t in looked[position].index
    modifies a
    ensures States(arches) == looked[position := RowsUpdated(looked[position], t, f)]
  {
    a.UpdateRows(t, f);
  }

  /**
   * The loop a caller of `query_mut` writes: archetypes in order, and within
   * each non-empty archetype holding `t`, its rows in order.
   */
  method UpdateAll(arches: seq<Archetype>, ghost slot: map<Archetype, nat>, ghost start: seq<ArchetypeState>,
                   t: TypeId, f: (EntityId, Value) -> Value)
    requires start == States(arches) && Numbered(arches, slot) && AllSettled(start)
    modifies arches
    ensures States(arches) == Updated(start, t, f)
  {
    var k := 0;
    while k < |arches|
      invariant 0 <= k <= |arches|
      invariant States(arches) == Updated(start[..k], t, f) + start[k..]
    {
      var a := arches[k];
      UpdatedStep(start, t, f, k);
      if |a.entities| > 0 && ContainsType(a.State(), t) {
        UpdateOne(arches, slot, States(arches), k, a, t, f);
      }
      k := k + 1;
    }
    assert start[..k] == start;
  }

  class World {
    var archetypes: seq<Archetype>
    var locations: seq<Location>
    var index: map<seq<TypeId>, nat>
    ghost var slot: map<Archetype, nat>

    function State(): WorldState
      reads this, archetypes
    {
      WorldState(States(archetypes), locations, index)
    }

    ghost predicate Valid()
      reads this, archetypes
    {
      && Numbered(archetypes, slot)
      && WorldWf(State())
    }

    /** `World::default()`. */
    constructor ()
      ensures Valid() && State() == EmptyWorld()
    {
      archetypes := [];
      locations := [];
      index := map[];
      slot := map[];
    }

    /** Push a newly made archetype and index it under `key`. */
    method AddArchetype(made: Archetype, ghost made_state: ArchetypeState, key: seq<TypeId>) returns (position: nat)
      requires Numbered(archetypes, slot) && made !in archetypes && made.State() == made_state
      modifies this
      ensures locations == old(locations) && Numbered(archetypes, slot)
      ensures position == old(|archetypes|) && index == old(index)[key := position]
      ensures archetypes == old(archetypes) + [made]
      ensures States(archetypes) == old(States(archetypes)) + [made_state]
    {
      ghost var before, prior := archetypes, States(archetypes);
      position := |archetypes|;
      index := index[key := position];
      archetypes := archetypes + [made];
      slot := slot[made := position];
      assert archetypes[..|before|] == before;
      assert States(before) == prior;
    }

    /** A new archetype for the group's signature, pushed and indexed. */
    method Create(s: ComponentSet) returns (position: nat)
      requires WellFormed(s) && Numbered(archetypes, slot)
      modifies this
      ensures locations == old(locations) && Numbered(archetypes, slot)
      ensures position == old(|archetypes|) && index == old(index)[ComponentIds(s) := position]
      ensures |archetypes| == position + 1 && archetypes == old(archetypes) + [archetypes[position]] && fresh(archetypes[position])
      ensures States(archetypes) == old(States(archetypes)) + [EmptyState(ComponentInfos(s))]
    {
      ghost var before := States(archetypes);
      var made := MakeArchetype(s);
      assert States(archetypes) == before;
      position := AddArchetype(made, made.State(), ComponentIds(s));
    }

    /** `spawn`'s lookup: the indexed archetype, or a new one made, indexed and pushed. */
    method ArchetypeFor(ghost w: WorldState, s: ComponentSet) returns (position: nat)
      requires WellFormed(s) && Numbered(archetypes, slot) && State() == w
      modifies this
      ensures locations == old(locations) && Numbered(archetypes, slot)
      ensures GetIndex(s, w.index).Some? ==>
                && position == GetIndex(s, w.index).value && index == w.index
                && archetypes == old(archetypes) && States(archetypes) == w.archetypes
      ensures GetIndex(s, w.index).None? ==>
                && position == |w.archetypes| && index == w.index[ComponentIds(s) := position]
                && |archetypes| == position + 1 && archetypes == old(archetypes) + [archetypes[position]] && fresh(archetypes[position])
                && States(archetypes) == w.archetypes + [EmptyState(ComponentInfos(s))]
    {
      match GetIndex(s, index)
      case Some(i) =>
        position := i;
      case None =>
        position := Create(s);
    }

    /** `spawn`'s lookup, stated as `Choose` on the world before it. */
    method Lookup(ghost w: WorldState, s: ComponentSet) returns (position: nat)
      requires Valid() && State() == w && WellFormed(s)
      modifies this
      ensures locations == old(locations) && Numbered(archetypes, slot)
      ensures Choose(w, s) == Choice(States(archetypes), index, position)
      ensures position < |archetypes| && Settled(States(archetypes)[position])
      ensures IdsOf(States(archetypes)[position].componentTypes) == ComponentIds(s)
      ensures archetypes == old(archetypes)
              || (|archetypes| == old(|archetypes|) + 1 && archetypes == old(archetypes) + [archetypes[old(|archetypes|)]]
                  && fresh(archetypes[old(|archetypes|)]))
    {
      position := ArchetypeFor(w, s);
      LookupIsChoose(w, s, States(archetypes), index, position);
    }

    /**
     * The rest of `spawn` once the archetype is chosen: record the handle's
     * location, then fill the chosen archetype.
     */
    method Settle(ghost looked: seq<ArchetypeState>, s: ComponentSet, position: nat, entity: EntityId)
      requires WellFormed(s) && Numbered(archetypes, slot) && looked == States(archetypes)
      requires position < |looked| && Settled(looked[position]) && IdsOf(looked[position].componentTypes) == ComponentIds(s)
      modifies this`locations, archetypes[position]
      ensures archetypes == old(archetypes) && index == old(index) && slot == old(slot)
      ensures locations == old(locations) + [Location(|looked[position].entities|, position)]
      ensures States(archetypes) == looked[position := Filled(looked[position], s, entity)]
    {
      var entityIndex := |archetypes[position].entities|;
      assert entityIndex == |looked[position].entities|;
      Record(Location(entityIndex, position));
      FillChosen(looked, s, position, entity);
    }

    /** `write_archetype` and the pushed handle, on the archetype at `position` alone. */
    method FillChosen(ghost looked: seq<ArchetypeState>, s: ComponentSet, position: nat, entity: EntityId)
      requires WellFormed(s) && Numbered(archetypes, slot) && looked == States(archetypes)
      requires position < |looked| && Settled(looked[position]) && IdsOf(looked[position].componentTypes) == ComponentIds(s)
      modifies archetypes[position]
      ensures archetypes == old(archetypes) && index == old(index) && slot == old(slot) && locations == old(locations)
      ensures States(archetypes) == looked[position := Filled(looked[position], s, entity)]
    {
      var a := archetypes[position];
      assert a as object != this as object;
      Fill(archetypes, slot, looked, position, a, s, entity);
    }

    /** Appends the location of the handle being spawned. */
    method Record(location: Location)
      modifies this`locations
      ensures locations == old(locations) + [location]
      ensures States(archetypes) == old(States(archetypes))
    {
      locations := locations + [location];
    }

    /** `spawn`: store the group in the archetype of its signature and return the new handle. */
    method Spawn(s: ComponentSet) returns (entity: EntityId)
      requires Valid() && WellFormed(s)
      modifies this, archetypes
      ensures Valid() && State() == SpawnState(old(State()), s)
      ensures entity == old(|locations|)
      ensures archetypes == old(archetypes)
              || (|archetypes| == old(|archetypes|) + 1 && archetypes == old(archetypes) + [archetypes[old(|archetypes|)]]
                  && fresh(archetypes[old(|archetypes|)]))
    {
      ghost var w := State();
      entity := |locations|;
      var position := Lookup(w, s);
      ghost var looked := States(archetypes);
      assert archetypes[position] in archetypes;
      Settle(looked, s, position, entity);
      FillIsSpawn(w, s, looked, index, position, States(archetypes), locations);
    }

    /**
     * `query_mut` for `&mut T` or `(Entity, &mut T)` with `f(entity, value)`
     * stored through each reference it hands out.
     */
    method UpdateQueried(t: TypeId, f: (EntityId, Value) -> Value)
      requires Valid()
      modifies archetypes
      ensures Valid() && State() == old(State()).(archetypes := Updated(old(State()).archetypes, t, f))
    {
      ghost var w := State();
      UpdateAll(archetypes, slot, w.archetypes, t, f);
      UpdatedPreservesWf(w, t, f);
    }
  }
}
