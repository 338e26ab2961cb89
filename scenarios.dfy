/**
 * The crate's own usage scenarios, worked out on the model: a fresh world,
 * a run of spawns, then queries. A world is followed through the spawns by
 * a small summary (each archetype's sorted types, each archetype's part of
 * one query, and the handle count) that a spawn updates the same way the
 * world does.
 */
module Scenarios {
  import opened Wrappers
  import opened Lib
  import opened ArchetypeStorage
  import opened ComponentSets
  import opened Queries
  import opened Worlds

  /** What a run of spawns determines about one query `(Entity, &A, ...)`. */
  datatype Summary = Summary(signatures: seq<seq<TypeInfo>>, segments: seq<seq<Item>>, handles: nat)

  predicate SummaryWf(sum: Summary) {
    && |sum.segments| == |sum.signatures|
    && forall a | 0 <= a < |sum.signatures| :: SortedById(sum.signatures[a])
  }

  /** The summary describes the world for the query `types`. */
  predicate Summarizes(w: WorldState, types: seq<TypeId>, sum: Summary)
    requires AllSettled(w.archetypes) && |types| > 0
  {
    && SummaryWf(sum)
    && |w.locations| == sum.handles
    && |w.archetypes| == |sum.signatures|
    && (forall a | 0 <= a < |w.archetypes| :: w.archetypes[a].componentTypes == sum.signatures[a])
    && Segments(w.archetypes, types) == sum.segments
  }

  /** The first archetype whose sorted ids are `ids`, if any. */
  function FindSignature(sigs: seq<seq<TypeInfo>>, ids: seq<TypeId>): (r: Option<nat>)
    ensures r.Some? ==> r.value < |sigs| && IdsOf(sigs[r.value]) == ids
    ensures r.None? ==> forall a | 0 <= a < |sigs| :: IdsOf(sigs[a]) != ids
  {
    if |sigs| == 0 then None
    else if IdsOf(sigs[0]) == ids then Some(0)
    else match FindSignature(sigs[1..], ids)
      case Some(a) => Some(a + 1)
      case None => None
  }

  /**
   * One spawn on the summary: the archetype with the group's signature gets
   * the new handle's item at the end of its part; without one, a new
   * archetype is added with just that item.
   */
  function Step(sum: Summary, s: ComponentSet, types: seq<TypeId>): (r: Summary)
    requires SummaryWf(sum) && WellFormed(s)
    ensures SummaryWf(r) && r.handles == sum.handles + 1
  {
    match FindSignature(sum.signatures, ComponentIds(s))
    case Some(a) =>
      Summary(sum.signatures,
              sum.segments[a := sum.segments[a] + NewItems(sum.signatures[a], s, sum.handles, types)],
              sum.handles + 1)
    case None =>
      Summary(sum.signatures + [ComponentInfos(s)],
              sum.segments + [NewItems(ComponentInfos(s), s, sum.handles, types)],
              sum.handles + 1)
  }

  /** The summary's lookup finds the archetype the world's index names for the signature. */
  lemma FindSignatureAgrees(w: WorldState, types: seq<TypeId>, sum: Summary, ids: seq<TypeId>)
    requires WorldWf(w) && |types| > 0 && Summarizes(w, types, sum)
    ensures FindSignature(sum.signatures, ids).Some? <==> ids in w.index
    ensures ids in w.index ==> FindSignature(sum.signatures, ids) == Some(w.index[ids])
  {
    var found := FindSignature(sum.signatures, ids);
    if ids in w.index {
      var a := w.index[ids];
      assert IdsOf(sum.signatures[a]) == ids;
    }
    if found.Some? {
      assert IdsOf(w.archetypes[found.value].componentTypes) == ids;
    }
  }

  /** A spawn keeps the summary in step with the world. */
  lemma StepSummarizes(w: WorldState, s: ComponentSet, types: seq<TypeId>, sum: Summary)
    requires WorldWf(w) && WellFormed(s) && |types| > 0 && Summarizes(w, types, sum)
    ensures WorldWf(SpawnState(w, s)) && Summarizes(SpawnState(w, s), types, Step(sum, s, types))
  {
    SpawnPreservesWf(w, s);
    FindSignatureAgrees(w, types, sum, ComponentIds(s));
    if ComponentIds(s) in w.index {
      StepSummarizesExisting(w, s, types, sum);
    } else {
      StepSummarizesNew(w, s, types, sum);
    }
  }

  lemma StepSummarizesExisting(w: WorldState, s: ComponentSet, types: seq<TypeId>, sum: Summary)
    requires WorldWf(w) && WellFormed(s) && |types| > 0 && Summarizes(w, types, sum)
    requires ComponentIds(s) in w.index && FindSignature(sum.signatures, ComponentIds(s)) == Some(w.index[ComponentIds(s)])
    ensures WorldWf(SpawnState(w, s)) && Summarizes(SpawnState(w, s), types, Step(sum, s, types))
  {
    SpawnPreservesWf(w, s);
    SpawnCountsHandles(w, s);
    SpawnKeepsSignatures(w, s);
    SpawnKeepsArchetypeCount(w, s);
    SpawnSegmentsExisting(w, s, types);
    SummarizedReuse(w, SpawnState(w, s), s, types, sum);
  }

  /** The summary facts after a spawn into archetype `p`, on plain values. */
  lemma SummarizedReuse(w: WorldState, w': WorldState, s: ComponentSet, types: seq<TypeId>, sum: Summary)
    requires AllSettled(w.archetypes) && AllSettled(w'.archetypes) && WellFormed(s) && |types| > 0 && Summarizes(w, types, sum)
    requires ComponentIds(s) in w.index && FindSignature(sum.signatures, ComponentIds(s)) == Some(w.index[ComponentIds(s)])
    requires |w'.locations| == |w.locations| + 1 && |w'.archetypes| == |w.archetypes|
    requires forall a | 0 <= a < |w.archetypes| :: w'.archetypes[a].componentTypes == w.archetypes[a].componentTypes
    requires var p := w.index[ComponentIds(s)];
      p < |w.archetypes|
      && Segments(w'.archetypes, types)
           == Segments(w.archetypes, types)[p := Segments(w.archetypes, types)[p]
                + NewItems(w.archetypes[p].componentTypes, s, |w.locations|, types)]
    ensures Summarizes(w', types, Step(sum, s, types))
  {
  }

  lemma StepSummarizesNew(w: WorldState, s: ComponentSet, types: seq<TypeId>, sum: Summary)
    requires WorldWf(w) && WellFormed(s) && |types| > 0 && Summarizes(w, types, sum)
    requires ComponentIds(s) !in w.index && FindSignature(sum.signatures, ComponentIds(s)) == None
    ensures WorldWf(SpawnState(w, s)) && Summarizes(SpawnState(w, s), types, Step(sum, s, types))
  {
    SpawnPreservesWf(w, s);
    SpawnCountsHandles(w, s);
    SpawnGrowsNew(w, s);
    SpawnSegmentsNew(w, s, types);
    assert SpawnState(w, s).archetypes[|w.archetypes|].componentTypes == ComponentInfos(s);
    SummarizedNew(w, SpawnState(w, s), s, types, sum);
  }

  /** The summary facts after a spawn that appends an archetype, on plain values. */
  lemma SummarizedNew(w: WorldState, w': WorldState, s: ComponentSet, types: seq<TypeId>, sum: Summary)
    requires AllSettled(w.archetypes) && AllSettled(w'.archetypes) && WellFormed(s) && |types| > 0 && Summarizes(w, types, sum)
    requires FindSignature(sum.signatures, ComponentIds(s)) == None
    requires |w'.locations| == |w.locations| + 1 && |w'.archetypes| == |w.archetypes| + 1
    requires forall a | 0 <= a < |w.archetypes| :: w'.archetypes[a] == w.archetypes[a]
    requires w'.archetypes[|w.archetypes|].componentTypes == ComponentInfos(s)
    requires Segments(w'.archetypes, types) == Segments(w.archetypes, types) + [NewItems(ComponentInfos(s), s, |w.locations|, types)]
    ensures Summarizes(w', types, Step(sum, s, types))
  {
    StepNew(sum, s, types);
    TypesExtended(w.archetypes, w'.archetypes, sum.signatures, ComponentInfos(s));
  }

  lemma StepNew(sum: Summary, s: ComponentSet, types: seq<TypeId>)
    requires SummaryWf(sum) && WellFormed(s) && FindSignature(sum.signatures, ComponentIds(s)) == None
    ensures Step(sum, s, types)
              == Summary(sum.signatures + [ComponentInfos(s)], sum.segments + [NewItems(ComponentInfos(s), s, sum.handles, types)], sum.handles + 1)
  {
  }

  /** Appending an archetype with types `ts` appends `ts` to the list of type lists. */
  lemma TypesExtended(before: seq<ArchetypeState>, after: seq<ArchetypeState>, sigs: seq<seq<TypeInfo>>, ts: seq<TypeInfo>)
    requires |after| == |before| + 1 && |sigs| == |before| && after[|before|].componentTypes == ts
    requires forall a | 0 <= a < |before| :: after[a] == before[a] && before[a].componentTypes == sigs[a]
    ensures forall a | 0 <= a < |after| :: after[a].componentTypes == (sigs + [ts])[a]
  {
  }

  /** `spawn` on each group in turn: handle `k` is group `k`'s. */
  function SpawnAll(w: WorldState, groups: seq<ComponentSet>): (r: WorldState)
    requires WorldWf(w) && forall g | g in groups :: WellFormed(g)
    ensures WorldWf(r)
  {
    if |groups| == 0 then w
    else
      var w' := SpawnAll(w, groups[..|groups| - 1]);
      SpawnPreservesWf(w', groups[|groups| - 1]);
      SpawnState(w', groups[|groups| - 1])
  }

  /** `Step` on each group in turn. */
  function StepAll(sum: Summary, groups: seq<ComponentSet>, types: seq<TypeId>): (r: Summary)
    requires SummaryWf(sum) && forall g | g in groups :: WellFormed(g)
    ensures SummaryWf(r) && r.handles == sum.handles + |groups|
  {
    if |groups| == 0 then sum else Step(StepAll(sum, groups[..|groups| - 1], types), groups[|groups| - 1], types)
  }

  /** A run of spawns keeps the summary in step with the world. */
  lemma {:induction false} SpawnAllSummarized(w: WorldState, groups: seq<ComponentSet>, types: seq<TypeId>, sum: Summary)
    requires WorldWf(w) && (forall g | g in groups :: WellFormed(g)) && |types| > 0 && Summarizes(w, types, sum)
    ensures Summarizes(SpawnAll(w, groups), types, StepAll(sum, groups, types))
  {
    if |groups| > 0 {
      var init := groups[..|groups| - 1];
      SpawnAllSummarized(w, init, types, sum);
      StepSummarizes(SpawnAll(w, init), groups[|groups| - 1], types, StepAll(sum, init, types));
    }
  }

  /** The query on a world spawned from scratch is the concatenation of the summary's parts. */
  lemma QueryAfterSpawns(groups: seq<ComponentSet>, types: seq<TypeId>)
    requires (forall g | g in groups :: WellFormed(g)) && |types| > 0
    ensures QueryEntity(SpawnAll(EmptyWorld(), groups).archetypes, types)
              == Concat(StepAll(Summary([], [], 0), groups, types).segments)
  {
    assert Segments([], types) == [];
    SpawnAllSummarized(EmptyWorld(), groups, types, Summary([], [], 0));
  }

  /** Where a run of spawns put each handle: each archetype's sorted types and its handles in row order. */
  datatype Layout = Layout(signatures: seq<seq<TypeInfo>>, rows: seq<seq<EntityId>>)

  predicate LayoutWf(l: Layout, n: nat) {
    && |l.rows| == |l.signatures|
    && (forall a | 0 <= a < |l.signatures| :: SortedById(l.signatures[a]))
    && forall a, k | 0 <= a < |l.rows| && 0 <= k < |l.rows[a]| :: l.rows[a][k] < n
  }

  /** One spawn of a group with sorted types `sig` on the layout, with the lookup `Step` makes. */
  function Assign(l: Layout, sig: seq<TypeInfo>, h: EntityId): (r: Layout)
    requires LayoutWf(l, h) && SortedById(sig)
    ensures LayoutWf(r, h + 1)
  {
    match FindSignature(l.signatures, IdsOf(sig))
    case Some(a) => Layout(l.signatures, l.rows[a := l.rows[a] + [h]])
    case None => Layout(l.signatures + [sig], l.rows + [[h]])
  }

  /** Each group's sorted types. */
  function SignaturesOf(groups: seq<ComponentSet>): (r: seq<seq<TypeInfo>>)
    requires forall g | g in groups :: WellFormed(g)
    ensures |r| == |groups| && forall k | 0 <= k < |groups| :: r[k] == ComponentInfos(groups[k])
  {
    seq(|groups|, k requires 0 <= k < |groups| => ComponentInfos(groups[k]))
  }

  /** The layout after spawning groups with sorted types `sigs`, in order, into a fresh world. */
  function LayoutOf(sigs: seq<seq<TypeInfo>>): (r: Layout)
    requires forall k | 0 <= k < |sigs| :: SortedById(sigs[k])
    ensures LayoutWf(r, |sigs|)
  {
    if |sigs| == 0 then Layout([], [])
    else Assign(LayoutOf(sigs[..|sigs| - 1]), sigs[|sigs| - 1], |sigs| - 1)
  }

  /** The items of the handles `row`, spawned from `groups`, in an archetype with types `sig`. */
  function RowItems(sig: seq<TypeInfo>, row: seq<EntityId>, groups: seq<ComponentSet>, types: seq<TypeId>): seq<Item>
    requires SortedById(sig) && forall k | 0 <= k < |row| :: row[k] < |groups|
  {
    if |row| == 0 then []
    else RowItems(sig, row[..|row| - 1], groups, types) + NewItems(sig, groups[row[|row| - 1]], row[|row| - 1], types)
  }

  /** Each archetype's part of the query, from the layout. */
  function Items(l: Layout, groups: seq<ComponentSet>, types: seq<TypeId>): (r: seq<seq<Item>>)
    requires LayoutWf(l, |groups|)
    ensures |r| == |l.rows|
  {
    seq(|l.rows|, a requires 0 <= a < |l.rows| => RowItems(l.signatures[a], l.rows[a], groups, types))
  }

  /** Items of handles below `|groups|` do not depend on later groups. */
  lemma {:induction false} RowItemsPrefix(sig: seq<TypeInfo>, row: seq<EntityId>, groups: seq<ComponentSet>, more: seq<ComponentSet>, types: seq<TypeId>)
    requires SortedById(sig) && forall k | 0 <= k < |row| :: row[k] < |groups|
    ensures RowItems(sig, row, groups + more, types) == RowItems(sig, row, groups, types)
  {
    if |row| > 0 {
      RowItemsPrefix(sig, row[..|row| - 1], groups, more, types);
      assert (groups + more)[row[|row| - 1]] == groups[row[|row| - 1]];
    }
  }

  /** The summary of spawns from scratch is the layout with each handle's item in its archetype's part. */
  lemma {:induction false} StepAllLayout(groups: seq<ComponentSet>, types: seq<TypeId>)
    requires forall g | g in groups :: WellFormed(g)
    ensures var l := LayoutOf(SignaturesOf(groups));
      StepAll(Summary([], [], 0), groups, types) == Summary(l.signatures, Items(l, groups, types), |groups|)
  {
    if |groups| > 0 {
      var n := |groups| - 1;
      var init, g := groups[..n], groups[n];
      assert groups == init + [g];
      assert SignaturesOf(groups)[..n] == SignaturesOf(init);
      StepAllLayout(init, types);
      StepLayout(LayoutOf(SignaturesOf(init)), init, g, types);
    }
  }

  /** `Step` and `Assign` agree: the summary's parts are the layout's items, spawn after spawn. */
  lemma StepLayout(l: Layout, groups: seq<ComponentSet>, g: ComponentSet, types: seq<TypeId>)
    requires LayoutWf(l, |groups|) && WellFormed(g)
    ensures var sum := Summary(l.signatures, Items(l, groups, types), |groups|);
      var l' := Assign(l, ComponentInfos(g), |groups|);
      SummaryWf(sum) && Step(sum, g, types) == Summary(l'.signatures, Items(l', groups + [g], types), |groups| + 1)
  {
    forall a | 0 <= a < |l.rows|
      ensures RowItems(l.signatures[a], l.rows[a], groups + [g], types) == RowItems(l.signatures[a], l.rows[a], groups, types)
    {
      RowItemsPrefix(l.signatures[a], l.rows[a], groups, [g], types);
    }
    assert (groups + [g])[|groups|] == g;
    match FindSignature(l.signatures, ComponentIds(g))
    case Some(a) => StepLayoutReuse(l, groups, g, types, a);
    case None => StepLayoutNew(l, groups, g, types);
  }

  lemma StepLayoutReuse(l: Layout, groups: seq<ComponentSet>, g: ComponentSet, types: seq<TypeId>, a: nat)
    requires LayoutWf(l, |groups|) && WellFormed(g) && FindSignature(l.signatures, ComponentIds(g)) == Some(a)
    requires forall b | 0 <= b < |l.rows| ::
      RowItems(l.signatures[b], l.rows[b], groups + [g], types) == RowItems(l.signatures[b], l.rows[b], groups, types)
    requires (groups + [g])[|groups|] == g
    ensures var sum := Summary(l.signatures, Items(l, groups, types), |groups|);
      var l' := Assign(l, ComponentInfos(g), |groups|);
      SummaryWf(sum) && Step(sum, g, types) == Summary(l'.signatures, Items(l', groups + [g], types), |groups| + 1)
  {
    var sum := Summary(l.signatures, Items(l, groups, types), |groups|);
    var l' := Assign(l, ComponentInfos(g), |groups|);
    var items := Items(l', groups + [g], types);
    assert l'.rows[a][..|l'.rows[a]| - 1] == l.rows[a];
    assert items[a] == sum.segments[a] + NewItems(l.signatures[a], g, |groups|, types);
    assert forall b | 0 <= b < |items| && b != a :: items[b] == sum.segments[b];
  }

  lemma StepLayoutNew(l: Layout, groups: seq<ComponentSet>, g: ComponentSet, types: seq<TypeId>)
    requires LayoutWf(l, |groups|) && WellFormed(g) && FindSignature(l.signatures, ComponentIds(g)) == None
    requires forall b | 0 <= b < |l.rows| ::
      RowItems(l.signatures[b], l.rows[b], groups + [g], types) == RowItems(l.signatures[b], l.rows[b], groups, types)
    requires (groups + [g])[|groups|] == g
    ensures var sum := Summary(l.signatures, Items(l, groups, types), |groups|);
      var l' := Assign(l, ComponentInfos(g), |groups|);
      SummaryWf(sum) && Step(sum, g, types) == Summary(l'.signatures, Items(l', groups + [g], types), |groups| + 1)
  {
    var sum := Summary(l.signatures, Items(l, groups, types), |groups|);
    var l' := Assign(l, ComponentInfos(g), |groups|);
    var items := Items(l', groups + [g], types);
    var n := |groups|;
    assert l'.rows[|l.rows|] == [n];
    assert [n][..0] == [];
    var sig := ComponentInfos(g);
    assert l'.signatures[|l.rows|] == sig;
    assert RowItems(sig, [n], groups + [g], types) == RowItems(sig, [], groups + [g], types) + NewItems(sig, g, n, types);
    assert items[|l.rows|] == NewItems(sig, g, n, types);
    assert forall b | 0 <= b < |l.rows| :: items[b] == sum.segments[b];
  }

  /** The query on a world spawned from scratch, read off its layout. */
  lemma QueryFromLayout(groups: seq<ComponentSet>, types: seq<TypeId>)
    requires (forall g | g in groups :: WellFormed(g)) && |types| > 0
    ensures QueryEntity(SpawnAll(EmptyWorld(), groups).archetypes, types)
              == Concat(Items(LayoutOf(SignaturesOf(groups)), groups, types))
  {
    QueryAfterSpawns(groups, types);
    StepAllLayout(groups, types);
  }

  /** Every archetype of the layout has the types of some spawned group. */
  lemma {:induction false} LayoutSignaturesIn(sigs: seq<seq<TypeInfo>>)
    requires forall k | 0 <= k < |sigs| :: SortedById(sigs[k])
    ensures forall a | 0 <= a < |LayoutOf(sigs).signatures| :: LayoutOf(sigs).signatures[a] in sigs
  {
    if |sigs| > 0 {
      var init := sigs[..|sigs| - 1];
      LayoutSignaturesIn(init);
      assert forall s | s in init :: s in sigs;
    }
  }

  /** The archetypes of a world spawned from scratch carry the layout's signatures. */
  lemma SpawnedSignatures(groups: seq<ComponentSet>)
    requires forall g | g in groups :: WellFormed(g)
    ensures var w, l := SpawnAll(EmptyWorld(), groups), LayoutOf(SignaturesOf(groups));
      && |w.archetypes| == |l.signatures|
      && forall a | 0 <= a < |w.archetypes| :: w.archetypes[a].componentTypes == l.signatures[a]
  {
    var types: seq<TypeId> := [0];
    assert Segments([], types) == [];
    SpawnAllSummarized(EmptyWorld(), groups, types, Summary([], [], 0));
    StepAllLayout(groups, types);
  }

  /** Every archetype of a world spawned from scratch has the types of one of the groups. */
  lemma SpawnedFromGroups(groups: seq<ComponentSet>)
    requires forall g | g in groups :: WellFormed(g)
    ensures var w := SpawnAll(EmptyWorld(), groups);
      forall a | 0 <= a < |w.archetypes| :: w.archetypes[a].componentTypes in SignaturesOf(groups)
  {
    SpawnedSignatures(groups);
    LayoutSignaturesIn(SignaturesOf(groups));
  }

  /** No archetype of a world spawned from scratch holds `t` zero-sized when no group does. */
  lemma SpawnedSized(groups: seq<ComponentSet>, t: TypeId)
    requires forall g | g in groups :: WellFormed(g) && Sized(ComponentInfos(g), t)
    ensures SizedIn(SpawnAll(EmptyWorld(), groups).archetypes, t)
  {
    SpawnedFromGroups(groups);
    var sigs := SignaturesOf(groups);
    forall k | 0 <= k < |sigs| ensures Sized(sigs[k], t) {
      assert groups[k] in groups;
    }
  }

  /** `t` is stored with a nonzero size wherever a list of type descriptors mentions it. */
  predicate Sized(ts: seq<TypeInfo>, t: TypeId) {
    forall c | 0 <= c < |ts| && ts[c].id == t :: ts[c].size > 0
  }

  /** No archetype holds `t` as a zero-sized type. */
  predicate SizedIn(world: seq<ArchetypeState>, t: TypeId) {
    forall a | 0 <= a < |world| :: Sized(world[a].componentTypes, t)
  }

  /** An archetype with rows and a nonzero-sized column for `t` has storage for it. */
  lemma StoredWhenSized(a: ArchetypeState, t: TypeId)
    requires Settled(a) && t in a.index && |a.entities| > 0 && Sized(a.componentTypes, t)
    ensures Stored(a, t)
  {
    IndexOfLookup(a.componentTypes);
    assert ColumnFits(a.columns[a.index[t]], a.componentTypes[a.index[t]], a.capacity);
  }

  /** The store `*r = v` of the scenario's loop body, as a function of the row's handle and old value. */
  function SetTo(v: Value): (f: (EntityId, Value) -> Value)
    ensures forall e, x :: f(e, x) == v
  {
    (e: EntityId, x: Value) => v
  }

  /**
   * Storing `v` through every `&mut T` reference: afterwards `&T` reads `v`
   * on every row, when no archetype holds `T` as a zero-sized type.
   */
  lemma UpdatedSetsAll(world: seq<ArchetypeState>, t: TypeId, v: Value)
    requires AllSettled(world) && SizedIn(world, t)
    ensures |QueryRef(Updated(world, t, SetTo(v)), t)| == |QueryRef(world, t)|
    ensures forall p | 0 <= p < |QueryRef(world, t)| :: QueryRef(Updated(world, t, SetTo(v)), t)[p] == v
  {
    var f := SetTo(v);
    UpdatedReads(world, t, f);
    forall p | 0 <= p < |QueryRef(world, t)| ensures QueryRef(Updated(world, t, f), t)[p] == v {
      var r := MutRows(world, t)[p];
      StoredWhenSized(world[r.archetype], t);
    }
  }

  /** `UpdatedSetsAll` on a world spawned from scratch: it is enough that no group has a zero-sized `T`. */
  lemma SpawnedSetsAll(groups: seq<ComponentSet>, t: TypeId, v: Value)
    requires forall g | g in groups :: WellFormed(g) && Sized(ComponentInfos(g), t)
    ensures var w := SpawnAll(EmptyWorld(), groups);
      && |QueryRef(Updated(w.archetypes, t, SetTo(v)), t)| == |QueryRef(w.archetypes, t)|
      && forall p | 0 <= p < |QueryRef(w.archetypes, t)| :: QueryRef(Updated(w.archetypes, t, SetTo(v)), t)[p] == v
  {
    SpawnedSized(groups, t);
    UpdatedSetsAll(SpawnAll(EmptyWorld(), groups).archetypes, t, v);
  }

  // The component types of the crate's scenarios. Type ids are arbitrary
  // distinct numbers; the queries' results do not depend on their order.

  const NameId: TypeId := 1
  const AgeId: TypeId := 2
  const HeightId: TypeId := 3
  const SpeedId: TypeId := 4
  const TagId: TypeId := 5

  /** `Name(&'static str)`: a fat pointer, 16 bytes aligned to 8. */
  const NameInfo := TypeInfo(NameId, 16, 8)
  /** `Age(u32)`. */
  const AgeInfo := TypeInfo(AgeId, 4, 4)
  /** `Height(f32)`. */
  const HeightInfo := TypeInfo(HeightId, 4, 4)
  /** `Speed(f32)`. */
  const SpeedInfo := TypeInfo(SpeedId, 4, 4)
  /** The unit struct `Tag`: zero-sized. */
  const TagInfo := TypeInfo(TagId, 0, 1)

  function Name(text: string): Member { Member(NameInfo, Text(text)) }
  function Age(years: int): Member { Member(AgeInfo, Number(years)) }
  function Height(height: int): Member { Member(HeightInfo, Number(height)) }
  function Speed(speed: int): Member { Member(SpeedInfo, Number(speed)) }
  function Tag(): Member { Member(TagInfo, Unit) }

  /** The sorted descriptors of a group, given a sorted arrangement of its members' descriptors. */
  lemma SignatureIs(s: ComponentSet, sorted: seq<TypeInfo>)
    requires WellFormed(s) && SortedById(sorted) && multiset(sorted) == multiset(InfosOf(Members(s)))
    ensures ComponentInfos(s) == sorted && ComponentIds(s) == IdsOf(sorted)
  {
    SortedPermutationUnique(ComponentInfos(s), sorted);
  }

  /** A bare component's signature is its own type. */
  lemma BareSignature(m: Member)
    ensures WellFormed(Bare(m)) && ComponentInfos(Bare(m)) == [m.info] && ComponentIds(Bare(m)) == [m.info.id]
  {
    assert InfosOf(Members(Bare(m))) == [m.info];
    SignatureIs(Bare(m), [m.info]);
  }

  /** What a new row of a group reads in the column of a type the group holds. */
  lemma ReadingOf(sig: seq<TypeInfo>, s: ComponentSet, c: nat, i: nat)
    requires SortedById(sig) && WellFormed(s) && c < |sig| && i < |Members(s)| && Members(s)[i].info.id == sig[c].id
    ensures sig[c].id in IndexOf(sig)
    ensures Reading(sig, s, sig[c].id) == if sig[c].size == 0 then Unit else Members(s)[i].value
  {
    IndexOfLookup(sig);
    ValueOfMember(Members(s), i);
  }

  /** A new row is yielded, with the given values, when the archetype holds every requested type. */
  lemma NewItemsOf(sig: seq<TypeInfo>, s: ComponentSet, entity: EntityId, types: seq<TypeId>, values: seq<Value>)
    requires SortedById(sig) && |values| == |types|
    requires forall k | 0 <= k < |types| :: types[k] in IndexOf(sig) && Reading(sig, s, types[k]) == values[k]
    ensures NewItems(sig, s, entity, types) == [Item(entity, values)]
  {
    assert Readings(sig, s, types) == values;
  }

  /** A new row is not yielded when the archetype lacks a requested type. */
  lemma NewItemsNone(sig: seq<TypeInfo>, s: ComponentSet, entity: EntityId, types: seq<TypeId>, t: TypeId)
    requires SortedById(sig) && t in types && forall c | 0 <= c < |sig| :: sig[c].id != t
    ensures NewItems(sig, s, entity, types) == []
  {
    IndexOfLookup(sig);
  }

  /** A bare component's row, as seen by a query for one type. */
  lemma BareItems(m: Member, entity: EntityId, t: TypeId)
    ensures WellFormed(Bare(m))
    ensures NewItems([m.info], Bare(m), entity, [t])
              == if t == m.info.id then [Item(entity, [if m.info.size == 0 then Unit else m.value])] else []
  {
    BareSignature(m);
    if t == m.info.id {
      ReadingOf([m.info], Bare(m), 0, 0);
      NewItemsOf([m.info], Bare(m), entity, [t], [if m.info.size == 0 then Unit else m.value]);
    } else {
      NewItemsNone([m.info], Bare(m), entity, [t], t);
    }
  }

  /** Spawning one more group extends the layout by one `Assign`. */
  lemma LayoutSnoc(sigs: seq<seq<TypeInfo>>, sig: seq<TypeInfo>)
    requires (forall k | 0 <= k < |sigs| :: SortedById(sigs[k])) && SortedById(sig)
    ensures forall k | 0 <= k < |sigs + [sig]| :: SortedById((sigs + [sig])[k])
    ensures LayoutOf(sigs + [sig]) == Assign(LayoutOf(sigs), sig, |sigs|)
  {
    assert (sigs + [sig])[..|sigs|] == sigs;
  }

  lemma RowAppend(row: seq<EntityId>, h: EntityId, row': seq<EntityId>)
    requires |row'| == |row| + 1 && row'[..|row|] == row && row'[|row|] == h
    ensures row + [h] == row'
  {
  }

  lemma Snoc3<T>(a: T, b: T, c: T)
    ensures [a] + [b] + [c] == [a, b, c]
  {
  }

  lemma IdsOfOne(t: TypeInfo)
    ensures IdsOf([t]) == [t.id]
  {
  }

  /** Two spawns with one signature, then one with another: two archetypes, the first holding two rows. */
  lemma TwiceThenOther(s: seq<TypeInfo>, t: seq<TypeInfo>)
    requires SortedById(s) && SortedById(t) && IdsOf(s) != IdsOf(t)
    ensures LayoutOf([s, s, t]) == Layout([s, t], [[0, 1], [2]])
  {
    LayoutSnoc([], s);
    assert [] + [s] == [s];
    LayoutSnoc([s], s);
    RowAppend([0], 1, [0, 1]);
    LayoutSnoc([s, s], t);
    assert [s, s] + [t] == [s, s, t];
  }

  /** The first three spawns of `single_component_archetype`: two `Name`s, then a `Speed`. */
  lemma SingleLayoutStart()
    ensures LayoutOf([[NameInfo], [NameInfo], [SpeedInfo]]) == Layout([[NameInfo], [SpeedInfo]], [[0, 1], [2]])
  {
    IdsOfOne(NameInfo);
    IdsOfOne(SpeedInfo);
    TwiceThenOther([NameInfo], [SpeedInfo]);
  }

  /** The first five spawns of `single_component_archetype`: then a `Name` and a `Speed`. */
  lemma SingleLayoutMiddle()
    ensures LayoutOf([[NameInfo], [NameInfo], [SpeedInfo], [NameInfo], [SpeedInfo]])
              == Layout([[NameInfo], [SpeedInfo]], [[0, 1, 3], [2, 4]])
  {
    IdsOfOne(NameInfo);
    IdsOfOne(SpeedInfo);
    var s3 := [[NameInfo], [NameInfo], [SpeedInfo]];
    var s4 := s3 + [[NameInfo]];
    SingleLayoutStart();
    LayoutSnoc(s3, [NameInfo]);
    RowAppend([0, 1], 3, [0, 1, 3]);
    LayoutSnoc(s4, [SpeedInfo]);
    RowAppend([2], 4, [2, 4]);
    assert s4 + [[SpeedInfo]] == [[NameInfo], [NameInfo], [SpeedInfo], [NameInfo], [SpeedInfo]];
  }

  /** Where the six bare spawns of `single_component_archetype` go. */
  lemma SingleLayout()
    ensures LayoutOf([[NameInfo], [NameInfo], [SpeedInfo], [NameInfo], [SpeedInfo], [TagInfo]])
              == Layout([[NameInfo], [SpeedInfo], [TagInfo]], [[0, 1, 3], [2, 4], [5]])
  {
    IdsOfOne(NameInfo);
    IdsOfOne(SpeedInfo);
    IdsOfOne(TagInfo);
    var s5 := [[NameInfo], [NameInfo], [SpeedInfo], [NameInfo], [SpeedInfo]];
    SingleLayoutMiddle();
    LayoutSnoc(s5, [TagInfo]);
    assert s5 + [[TagInfo]] == [[NameInfo], [NameInfo], [SpeedInfo], [NameInfo], [SpeedInfo], [TagInfo]];
  }

  lemma Concat3<T>(x: seq<T>, y: seq<T>, z: seq<T>)
    ensures Concat([x, y, z]) == x + y + z
  {
    assert [x, y, z][1..] == [y, z];
    assert [y, z][1..] == [z];
    assert [z][1..] == [];
    assert Concat([z]) == z;
  }

  lemma RowItems1(sig: seq<TypeInfo>, h0: EntityId, groups: seq<ComponentSet>, types: seq<TypeId>)
    requires SortedById(sig) && h0 < |groups|
    ensures RowItems(sig, [h0], groups, types) == NewItems(sig, groups[h0], h0, types)
  {
    assert [h0][..0] == [];
  }

  lemma RowItems2(sig: seq<TypeInfo>, h0: EntityId, h1: EntityId, groups: seq<ComponentSet>, types: seq<TypeId>)
    requires SortedById(sig) && h0 < |groups| && h1 < |groups|
    ensures RowItems(sig, [h0, h1], groups, types)
              == NewItems(sig, groups[h0], h0, types) + NewItems(sig, groups[h1], h1, types)
  {
    assert [h0, h1][..1] == [h0];
    RowItems1(sig, h0, groups, types);
  }

  lemma RowItems3(sig: seq<TypeInfo>, h0: EntityId, h1: EntityId, h2: EntityId, groups: seq<ComponentSet>, types: seq<TypeId>)
    requires SortedById(sig) && h0 < |groups| && h1 < |groups| && h2 < |groups|
    ensures RowItems(sig, [h0, h1, h2], groups, types)
              == NewItems(sig, groups[h0], h0, types) + NewItems(sig, groups[h1], h1, types) + NewItems(sig, groups[h2], h2, types)
  {
    assert [h0, h1, h2][..2] == [h0, h1];
    RowItems2(sig, h0, h1, groups, types);
  }

  /** A group list's signatures, given each group's. */
  lemma SignaturesAre(groups: seq<ComponentSet>, sigs: seq<seq<TypeInfo>>)
    requires |groups| == |sigs| && forall k | 0 <= k < |groups| :: WellFormed(groups[k]) && ComponentInfos(groups[k]) == sigs[k]
    ensures forall g | g in groups :: WellFormed(g)
    ensures SignaturesOf(groups) == sigs
  {
  }

  /** The six groups of `single_component_archetype` have one type each. */
  lemma SingleSignatures(a: Member, b: Member, c: Member, d: Member, e: Member, f: Member)
    requires a.info == b.info == d.info == NameInfo && c.info == e.info == SpeedInfo && f.info == TagInfo
    ensures forall g | g in [Bare(a), Bare(b), Bare(c), Bare(d), Bare(e), Bare(f)] :: WellFormed(g)
    ensures SignaturesOf([Bare(a), Bare(b), Bare(c), Bare(d), Bare(e), Bare(f)])
              == [[NameInfo], [NameInfo], [SpeedInfo], [NameInfo], [SpeedInfo], [TagInfo]]
  {
    var groups := [Bare(a), Bare(b), Bare(c), Bare(d), Bare(e), Bare(f)];
    var sigs := [[NameInfo], [NameInfo], [SpeedInfo], [NameInfo], [SpeedInfo], [TagInfo]];
    forall k | 0 <= k < 6
      ensures WellFormed(groups[k]) && ComponentInfos(groups[k]) == sigs[k]
    {
      var m := [a, b, c, d, e, f][k];
      assert groups[k] == Bare(m) && sigs[k] == [m.info];
      BareSignature(m);
    }
    SignaturesAre(groups, sigs);
  }

  /** The query on a fresh world after spawns that leave three archetypes, archetype by archetype. */
  lemma QueryOnThree(groups: seq<ComponentSet>, types: seq<TypeId>, sigs: seq<seq<TypeInfo>>, l: Layout)
    requires (forall g | g in groups :: WellFormed(g)) && |types| > 0
    requires SignaturesOf(groups) == sigs && LayoutOf(sigs) == l && |l.rows| == 3
    ensures QueryEntity(SpawnAll(EmptyWorld(), groups).archetypes, types)
              == RowItems(l.signatures[0], l.rows[0], groups, types) + RowItems(l.signatures[1], l.rows[1], groups, types)
                 + RowItems(l.signatures[2], l.rows[2], groups, types)
  {
    QueryFromLayout(groups, types);
    ItemsOfThree(l, groups, types);
  }

  lemma ItemsOfThree(l: Layout, groups: seq<ComponentSet>, types: seq<TypeId>)
    requires LayoutWf(l, |groups|) && |l.rows| == 3
    ensures Concat(Items(l, groups, types))
              == RowItems(l.signatures[0], l.rows[0], groups, types) + RowItems(l.signatures[1], l.rows[1], groups, types)
                 + RowItems(l.signatures[2], l.rows[2], groups, types)
  {
    var items := Items(l, groups, types);
    assert items == [items[0], items[1], items[2]];
    Concat3(items[0], items[1], items[2]);
  }

  /** The query for one type `t` after the six spawns: each archetype's rows, archetype by archetype. */
  lemma SingleQuery(a: Member, b: Member, c: Member, d: Member, e: Member, f: Member, t: TypeId)
    requires a.info == b.info == d.info == NameInfo && c.info == e.info == SpeedInfo && f.info == TagInfo
    ensures forall g | g in [Bare(a), Bare(b), Bare(c), Bare(d), Bare(e), Bare(f)] :: WellFormed(g)
    ensures QueryEntity(SpawnAll(EmptyWorld(), [Bare(a), Bare(b), Bare(c), Bare(d), Bare(e), Bare(f)]).archetypes, [t])
              == (NewItems([NameInfo], Bare(a), 0, [t]) + NewItems([NameInfo], Bare(b), 1, [t]) + NewItems([NameInfo], Bare(d), 3, [t]))
                 + (NewItems([SpeedInfo], Bare(c), 2, [t]) + NewItems([SpeedInfo], Bare(e), 4, [t]))
                 + NewItems([TagInfo], Bare(f), 5, [t])
  {
    var groups := [Bare(a), Bare(b), Bare(c), Bare(d), Bare(e), Bare(f)];
    SingleSignatures(a, b, c, d, e, f);
    SingleLayout();
    var l := Layout([[NameInfo], [SpeedInfo], [TagInfo]], [[0, 1, 3], [2, 4], [5]]);
    QueryOnThree(groups, [t], [[NameInfo], [NameInfo], [SpeedInfo], [NameInfo], [SpeedInfo], [TagInfo]], l);
    RowItems3([NameInfo], 0, 1, 3, groups, [t]);
    RowItems2([SpeedInfo], 2, 4, groups, [t]);
    RowItems1([TagInfo], 5, groups, [t]);
    assert groups[0] == Bare(a) && groups[1] == Bare(b) && groups[2] == Bare(c);
    assert groups[3] == Bare(d) && groups[4] == Bare(e) && groups[5] == Bare(f);
  }

  /** One bare row seen by a query for `t`: its item when `t` is its type, nothing otherwise. */
  lemma BareRow(sig: seq<TypeInfo>, m: Member, entity: EntityId, t: TypeId, r: seq<Item>)
    requires sig == [m.info]
    requires r == if t == m.info.id then [Item(entity, [if m.info.size == 0 then Unit else m.value])] else []
    ensures SortedById(sig) && NewItems(sig, Bare(m), entity, [t]) == r
  {
    BareItems(m, entity, t);
  }

  lemma JoinFirst<T>(x: T, y: T, z: T)
    ensures ([x] + [y] + [z]) + ([] + []) + [] == [x, y, z]
  {
  }

  lemma JoinSecond<T>(x: T, y: T)
    ensures ([] + [] + []) + ([x] + [y]) + [] == [x, y]
  {
  }

  lemma JoinThird<T>(x: T)
    ensures ([] + [] + []) + ([] + []) + [x] == [x]
  {
  }

  lemma SingleNameRows(a: Member, b: Member, c: Member, d: Member, e: Member, f: Member)
    requires a.info == b.info == d.info == NameInfo && c.info == e.info == SpeedInfo && f.info == TagInfo
    ensures (NewItems([NameInfo], Bare(a), 0, [NameId]) + NewItems([NameInfo], Bare(b), 1, [NameId]) + NewItems([NameInfo], Bare(d), 3, [NameId]))
              + (NewItems([SpeedInfo], Bare(c), 2, [NameId]) + NewItems([SpeedInfo], Bare(e), 4, [NameId]))
              + NewItems([TagInfo], Bare(f), 5, [NameId])
            == [Item(0, [a.value]), Item(1, [b.value]), Item(3, [d.value])]
  {
    BareRow([NameInfo], a, 0, NameId, [Item(0, [a.value])]);
    BareRow([NameInfo], b, 1, NameId, [Item(1, [b.value])]);
    BareRow([NameInfo], d, 3, NameId, [Item(3, [d.value])]);
    BareRow([SpeedInfo], c, 2, NameId, []);
    BareRow([SpeedInfo], e, 4, NameId, []);
    BareRow([TagInfo], f, 5, NameId, []);
    JoinFirst(Item(0, [a.value]), Item(1, [b.value]), Item(3, [d.value]));
  }

  /** `(Entity, &Name)` after the six spawns: the three `Name`s, in spawn order. */
  lemma SingleNameQuery(a: Member, b: Member, c: Member, d: Member, e: Member, f: Member)
    requires a.info == b.info == d.info == NameInfo && c.info == e.info == SpeedInfo && f.info == TagInfo
    ensures forall g | g in [Bare(a), Bare(b), Bare(c), Bare(d), Bare(e), Bare(f)] :: WellFormed(g)
    ensures QueryEntity(SpawnAll(EmptyWorld(), [Bare(a), Bare(b), Bare(c), Bare(d), Bare(e), Bare(f)]).archetypes, [NameId])
              == [Item(0, [a.value]), Item(1, [b.value]), Item(3, [d.value])]
  {
    SingleQuery(a, b, c, d, e, f, NameId);
    SingleNameRows(a, b, c, d, e, f);
  }

  lemma SingleSpeedRows(a: Member, b: Member, c: Member, d: Member, e: Member, f: Member)
    requires a.info == b.info == d.info == NameInfo && c.info == e.info == SpeedInfo && f.info == TagInfo
    ensures (NewItems([NameInfo], Bare(a), 0, [SpeedId]) + NewItems([NameInfo], Bare(b), 1, [SpeedId]) + NewItems([NameInfo], Bare(d), 3, [SpeedId]))
              + (NewItems([SpeedInfo], Bare(c), 2, [SpeedId]) + NewItems([SpeedInfo], Bare(e), 4, [SpeedId]))
              + NewItems([TagInfo], Bare(f), 5, [SpeedId])
            == [Item(2, [c.value]), Item(4, [e.value])]
  {
    BareRow([NameInfo], a, 0, SpeedId, []);
    BareRow([NameInfo], b, 1, SpeedId, []);
    BareRow([NameInfo], d, 3, SpeedId, []);
    BareRow([SpeedInfo], c, 2, SpeedId, [Item(2, [c.value])]);
    BareRow([SpeedInfo], e, 4, SpeedId, [Item(4, [e.value])]);
    BareRow([TagInfo], f, 5, SpeedId, []);
    JoinSecond(Item(2, [c.value]), Item(4, [e.value]));
  }

  /** `(Entity, &Speed)` after the six spawns: the two `Speed`s. */
  lemma SingleSpeedQuery(a: Member, b: Member, c: Member, d: Member, e: Member, f: Member)
    requires a.info == b.info == d.info == NameInfo && c.info == e.info == SpeedInfo && f.info == TagInfo
    ensures forall g | g in [Bare(a), Bare(b), Bare(c), Bare(d), Bare(e), Bare(f)] :: WellFormed(g)
    ensures QueryEntity(SpawnAll(EmptyWorld(), [Bare(a), Bare(b), Bare(c), Bare(d), Bare(e), Bare(f)]).archetypes, [SpeedId])
              == [Item(2, [c.value]), Item(4, [e.value])]
  {
    SingleQuery(a, b, c, d, e, f, SpeedId);
    SingleSpeedRows(a, b, c, d, e, f);
  }

  lemma SingleTagRows(a: Member, b: Member, c: Member, d: Member, e: Member, f: Member)
    requires a.info == b.info == d.info == NameInfo && c.info == e.info == SpeedInfo && f.info == TagInfo
    ensures (NewItems([NameInfo], Bare(a), 0, [TagId]) + NewItems([NameInfo], Bare(b), 1, [TagId]) + NewItems([NameInfo], Bare(d), 3, [TagId]))
              + (NewItems([SpeedInfo], Bare(c), 2, [TagId]) + NewItems([SpeedInfo], Bare(e), 4, [TagId]))
              + NewItems([TagInfo], Bare(f), 5, [TagId])
            == [Item(5, [Unit])]
  {
    BareRow([NameInfo], a, 0, TagId, []);
    BareRow([NameInfo], b, 1, TagId, []);
    BareRow([NameInfo], d, 3, TagId, []);
    BareRow([SpeedInfo], c, 2, TagId, []);
    BareRow([SpeedInfo], e, 4, TagId, []);
    BareRow([TagInfo], f, 5, TagId, [Item(5, [Unit])]);
    JoinThird(Item(5, [Unit]));
  }

  /** `(Entity, &Tag)` after the six spawns: the one `Tag`, read as a zero-sized value. */
  lemma SingleTagQuery(a: Member, b: Member, c: Member, d: Member, e: Member, f: Member)
    requires a.info == b.info == d.info == NameInfo && c.info == e.info == SpeedInfo && f.info == TagInfo
    ensures forall g | g in [Bare(a), Bare(b), Bare(c), Bare(d), Bare(e), Bare(f)] :: WellFormed(g)
    ensures QueryEntity(SpawnAll(EmptyWorld(), [Bare(a), Bare(b), Bare(c), Bare(d), Bare(e), Bare(f)]).archetypes, [TagId])
              == [Item(5, [Unit])]
  {
    SingleQuery(a, b, c, d, e, f, TagId);
    SingleTagRows(a, b, c, d, e, f);
  }

  /** The groups `single_component_archetype` spawns, one component each. */
  function SingleGroups(): seq<ComponentSet> {
    [Bare(Name("First")), Bare(Name("Second")), Bare(Speed(42)), Bare(Name("Third")), Bare(Speed(69)), Bare(Tag())]
  }

  /**
   * `single_component_archetype`: three single-type archetypes; each query
   * yields its type's handles in spawn order with the values they were
   * spawned with.
   */
  lemma SingleComponentArchetype()
    ensures forall g | g in SingleGroups() :: WellFormed(g)
    ensures QueryEntity(SpawnAll(EmptyWorld(), SingleGroups()).archetypes, [NameId])
              == [Item(0, [Text("First")]), Item(1, [Text("Second")]), Item(3, [Text("Third")])]
    ensures QueryEntity(SpawnAll(EmptyWorld(), SingleGroups()).archetypes, [SpeedId])
              == [Item(2, [Number(42)]), Item(4, [Number(69)])]
    ensures QueryEntity(SpawnAll(EmptyWorld(), SingleGroups()).archetypes, [TagId])
              == [Item(5, [Unit])]
  {
    var a, b, c, d, e, f := Name("First"), Name("Second"), Speed(42), Name("Third"), Speed(69), Tag();
    SingleNameQuery(a, b, c, d, e, f);
    SingleSpeedQuery(a, b, c, d, e, f);
    SingleTagQuery(a, b, c, d, e, f);
  }

  /** A tuple row seen by a query for one type `t`, stored in column `c` and given as member `i`. */
  lemma RowOne(sig: seq<TypeInfo>, s: ComponentSet, entity: EntityId, t: TypeId, c: nat, i: nat)
    requires SortedById(sig) && WellFormed(s) && c < |sig| && sig[c].id == t && sig[c].size > 0
    requires i < |Members(s)| && Members(s)[i].info.id == t
    ensures NewItems(sig, s, entity, [t]) == [Item(entity, [Members(s)[i].value])]
  {
    ReadingOf(sig, s, c, i);
    NewItemsOf(sig, s, entity, [t], [Members(s)[i].value]);
  }

  /** A tuple row seen by a query for two types `t0`, `t1`. */
  lemma RowTwo(sig: seq<TypeInfo>, s: ComponentSet, entity: EntityId, t0: TypeId, c0: nat, i0: nat, t1: TypeId, c1: nat, i1: nat)
    requires SortedById(sig) && WellFormed(s) && c0 < |sig| && sig[c0].id == t0 && sig[c0].size > 0
    requires c1 < |sig| && sig[c1].id == t1 && sig[c1].size > 0
    requires i0 < |Members(s)| && Members(s)[i0].info.id == t0 && i1 < |Members(s)| && Members(s)[i1].info.id == t1
    ensures NewItems(sig, s, entity, [t0, t1]) == [Item(entity, [Members(s)[i0].value, Members(s)[i1].value])]
  {
    ReadingOf(sig, s, c0, i0);
    ReadingOf(sig, s, c1, i1);
    NewItemsOf(sig, s, entity, [t0, t1], [Members(s)[i0].value, Members(s)[i1].value]);
  }

  lemma IdsOfTwo(t0: TypeInfo, t1: TypeInfo)
    ensures IdsOf([t0, t1]) == [t0.id, t1.id]
  {
  }

  lemma IdsOfThree(t0: TypeInfo, t1: TypeInfo, t2: TypeInfo)
    ensures IdsOf([t0, t1, t2]) == [t0.id, t1.id, t2.id]
  {
  }

  lemma Concat2<T>(x: seq<T>, y: seq<T>)
    ensures Concat([x, y]) == x + y
  {
    assert [x, y][1..] == [y];
    assert [y][1..] == [];
    assert Concat([y]) == y;
  }

  lemma ItemsOfTwo(l: Layout, groups: seq<ComponentSet>, types: seq<TypeId>)
    requires LayoutWf(l, |groups|) && |l.rows| == 2
    ensures Concat(Items(l, groups, types))
              == RowItems(l.signatures[0], l.rows[0], groups, types) + RowItems(l.signatures[1], l.rows[1], groups, types)
  {
    var items := Items(l, groups, types);
    assert items == [items[0], items[1]];
    Concat2(items[0], items[1]);
  }

  /** The query on a fresh world after spawns that leave two archetypes, archetype by archetype. */
  lemma QueryOnTwo(groups: seq<ComponentSet>, types: seq<TypeId>, sigs: seq<seq<TypeInfo>>, l: Layout)
    requires (forall g | g in groups :: WellFormed(g)) && |types| > 0
    requires SignaturesOf(groups) == sigs && LayoutOf(sigs) == l && |l.rows| == 2
    ensures QueryEntity(SpawnAll(EmptyWorld(), groups).archetypes, types)
              == RowItems(l.signatures[0], l.rows[0], groups, types) + RowItems(l.signatures[1], l.rows[1], groups, types)
  {
    QueryFromLayout(groups, types);
    ItemsOfTwo(l, groups, types);
  }

  /** A `(Name, Age)` group: its sorted types are `Name`, `Age`. */
  lemma NameAgeSignature(s: ComponentSet)
    requires s.Tuple? && |s.members| == 2 && s.members[0].info == NameInfo && s.members[1].info == AgeInfo
    ensures WellFormed(s) && ComponentInfos(s) == [NameInfo, AgeInfo]
  {
    assert InfosOf(Members(s)) == [NameInfo, AgeInfo];
    SignatureIs(s, [NameInfo, AgeInfo]);
  }

  /** A `(Name, Height)` group: its sorted types are `Name`, `Height`. */
  lemma NameHeightSignature(s: ComponentSet)
    requires s.Tuple? && |s.members| == 2 && s.members[0].info == NameInfo && s.members[1].info == HeightInfo
    ensures WellFormed(s) && ComponentInfos(s) == [NameInfo, HeightInfo]
  {
    assert InfosOf(Members(s)) == [NameInfo, HeightInfo];
    SignatureIs(s, [NameInfo, HeightInfo]);
  }

  // two_components: two `(Name, Age)` spawns, then a bare `Name`.

  /** Where the three spawns of `two_components` go. */
  lemma TwoLayout()
    ensures LayoutOf([[NameInfo, AgeInfo], [NameInfo, AgeInfo], [NameInfo]])
              == Layout([[NameInfo, AgeInfo], [NameInfo]], [[0, 1], [2]])
  {
    IdsOfTwo(NameInfo, AgeInfo);
    IdsOfOne(NameInfo);
    TwiceThenOther([NameInfo, AgeInfo], [NameInfo]);
  }

  lemma TwoSignatures(a: Member, b: Member, c: Member, d: Member, e: Member)
    requires a.info == c.info == e.info == NameInfo && b.info == d.info == AgeInfo
    ensures forall g | g in [Tuple([a, b]), Tuple([c, d]), Bare(e)] :: WellFormed(g)
    ensures SignaturesOf([Tuple([a, b]), Tuple([c, d]), Bare(e)]) == [[NameInfo, AgeInfo], [NameInfo, AgeInfo], [NameInfo]]
  {
    var groups := [Tuple([a, b]), Tuple([c, d]), Bare(e)];
    NameAgeSignature(groups[0]);
    NameAgeSignature(groups[1]);
    BareSignature(e);
    SignaturesAre(groups, [[NameInfo, AgeInfo], [NameInfo, AgeInfo], [NameInfo]]);
  }

  /** Any query after spawns with `two_components`' signatures: the `(Name, Age)` archetype's rows, then the bare `Name`'s. */
  lemma TwoQuery(groups: seq<ComponentSet>, t: TypeId)
    requires forall g | g in groups :: WellFormed(g)
    requires SignaturesOf(groups) == [[NameInfo, AgeInfo], [NameInfo, AgeInfo], [NameInfo]]
    ensures QueryEntity(SpawnAll(EmptyWorld(), groups).archetypes, [t])
              == (NewItems([NameInfo, AgeInfo], groups[0], 0, [t]) + NewItems([NameInfo, AgeInfo], groups[1], 1, [t]))
                 + NewItems([NameInfo], groups[2], 2, [t])
  {
    TwoLayout();
    var l := Layout([[NameInfo, AgeInfo], [NameInfo]], [[0, 1], [2]]);
    QueryOnTwo(groups, [t], [[NameInfo, AgeInfo], [NameInfo, AgeInfo], [NameInfo]], l);
    RowItems2([NameInfo, AgeInfo], 0, 1, groups, [t]);
    RowItems1([NameInfo], 2, groups, [t]);
  }

  lemma JoinTwoNames<T>(x: T, y: T, z: T)
    ensures ([x] + [y]) + [z] == [x, y, z]
  {
  }

  lemma JoinTwoAges<T>(x: T, y: T)
    ensures ([x] + [y]) + [] == [x, y]
  {
  }

  lemma TwoNameRows(a: Member, b: Member, c: Member, d: Member, e: Member)
    requires a.info == c.info == e.info == NameInfo && b.info == d.info == AgeInfo
    ensures (NewItems([NameInfo, AgeInfo], Tuple([a, b]), 0, [NameId]) + NewItems([NameInfo, AgeInfo], Tuple([c, d]), 1, [NameId]))
              + NewItems([NameInfo], Bare(e), 2, [NameId])
            == [Item(0, [a.value]), Item(1, [c.value]), Item(2, [e.value])]
  {
    NameAgeSignature(Tuple([a, b]));
    NameAgeSignature(Tuple([c, d]));
    RowOne([NameInfo, AgeInfo], Tuple([a, b]), 0, NameId, 0, 0);
    RowOne([NameInfo, AgeInfo], Tuple([c, d]), 1, NameId, 0, 0);
    BareRow([NameInfo], e, 2, NameId, [Item(2, [e.value])]);
    JoinTwoNames(Item(0, [a.value]), Item(1, [c.value]), Item(2, [e.value]));
  }

  lemma TwoAgeRows(a: Member, b: Member, c: Member, d: Member, e: Member)
    requires a.info == c.info == e.info == NameInfo && b.info == d.info == AgeInfo
    ensures (NewItems([NameInfo, AgeInfo], Tuple([a, b]), 0, [AgeId]) + NewItems([NameInfo, AgeInfo], Tuple([c, d]), 1, [AgeId]))
              + NewItems([NameInfo], Bare(e), 2, [AgeId])
            == [Item(0, [b.value]), Item(1, [d.value])]
  {
    NameAgeSignature(Tuple([a, b]));
    NameAgeSignature(Tuple([c, d]));
    RowOne([NameInfo, AgeInfo], Tuple([a, b]), 0, AgeId, 1, 1);
    RowOne([NameInfo, AgeInfo], Tuple([c, d]), 1, AgeId, 1, 1);
    BareRow([NameInfo], e, 2, AgeId, []);
    JoinTwoAges(Item(0, [b.value]), Item(1, [d.value]));
  }

  /** The groups `two_components` spawns. */
  function TwoGroups(): seq<ComponentSet> {
    [Tuple([Name("John"), Age(18)]), Tuple([Name("Hannah"), Age(24)]), Bare(Name("Bob"))]
  }

  /**
   * `two_components`: `&Name` yields all three handles, the two tuples'
   * first, in spawn order; `&Age` yields only the two tuples.
   */
  lemma TwoComponents()
    ensures forall g | g in TwoGroups() :: WellFormed(g)
    ensures QueryEntity(SpawnAll(EmptyWorld(), TwoGroups()).archetypes, [NameId])
              == [Item(0, [Text("John")]), Item(1, [Text("Hannah")]), Item(2, [Text("Bob")])]
    ensures QueryEntity(SpawnAll(EmptyWorld(), TwoGroups()).archetypes, [AgeId])
              == [Item(0, [Number(18)]), Item(1, [Number(24)])]
  {
    var a, b, c, d, e := Name("John"), Age(18), Name("Hannah"), Age(24), Name("Bob");
    assert TwoGroups() == [Tuple([a, b]), Tuple([c, d]), Bare(e)];
    TwoSignatures(a, b, c, d, e);
    TwoQuery(TwoGroups(), NameId);
    TwoNameRows(a, b, c, d, e);
    TwoQuery(TwoGroups(), AgeId);
    TwoAgeRows(a, b, c, d, e);
  }

  // three_components: two `(Name, Age)` spawns, a `(Name, Height)`, then a `(Name, Height, Age)`.

  /** The first three spawns of `three_components`. */
  lemma ThreeLayoutStart()
    ensures LayoutOf([[NameInfo, AgeInfo], [NameInfo, AgeInfo], [NameInfo, HeightInfo]])
              == Layout([[NameInfo, AgeInfo], [NameInfo, HeightInfo]], [[0, 1], [2]])
  {
    IdsOfTwo(NameInfo, AgeInfo);
    IdsOfTwo(NameInfo, HeightInfo);
    TwiceThenOther([NameInfo, AgeInfo], [NameInfo, HeightInfo]);
  }

  /** Where the four spawns of `three_components` go: the last one opens a third archetype. */
  lemma ThreeLayout()
    ensures LayoutOf([[NameInfo, AgeInfo], [NameInfo, AgeInfo], [NameInfo, HeightInfo], [NameInfo, AgeInfo, HeightInfo]])
              == Layout([[NameInfo, AgeInfo], [NameInfo, HeightInfo], [NameInfo, AgeInfo, HeightInfo]], [[0, 1], [2], [3]])
  {
    IdsOfTwo(NameInfo, AgeInfo);
    IdsOfTwo(NameInfo, HeightInfo);
    IdsOfThree(NameInfo, AgeInfo, HeightInfo);
    var s3 := [[NameInfo, AgeInfo], [NameInfo, AgeInfo], [NameInfo, HeightInfo]];
    ThreeLayoutStart();
    LayoutSnoc(s3, [NameInfo, AgeInfo, HeightInfo]);
    Snoc3([NameInfo, AgeInfo], [NameInfo, HeightInfo], [NameInfo, AgeInfo, HeightInfo]);
    Snoc3([0, 1], [2], [3]);
    assert s3 + [[NameInfo, AgeInfo, HeightInfo]]
        == [[NameInfo, AgeInfo], [NameInfo, AgeInfo], [NameInfo, HeightInfo], [NameInfo, AgeInfo, HeightInfo]];
  }

  lemma SignaturesOfFour(g0: ComponentSet, g1: ComponentSet, g2: ComponentSet, g3: ComponentSet,
                         s0: seq<TypeInfo>, s1: seq<TypeInfo>, s2: seq<TypeInfo>, s3: seq<TypeInfo>)
    requires WellFormed(g0) && ComponentInfos(g0) == s0 && WellFormed(g1) && ComponentInfos(g1) == s1
    requires WellFormed(g2) && ComponentInfos(g2) == s2 && WellFormed(g3) && ComponentInfos(g3) == s3
    ensures forall g | g in [g0, g1, g2, g3] :: WellFormed(g)
    ensures SignaturesOf([g0, g1, g2, g3]) == [s0, s1, s2, s3]
  {
    var gs, ss := [g0, g1, g2, g3], [s0, s1, s2, s3];
    forall k | 0 <= k < 4
      ensures WellFormed(gs[k]) && ComponentInfos(gs[k]) == ss[k]
    {
      if k == 0 {} else if k == 1 {} else if k == 2 {} else {}
    }
    SignaturesAre(gs, ss);
  }

  lemma ThreeSignatures(a: Member, b: Member, c: Member, d: Member, e: Member, f: Member, g: Member, h: Member, k: Member)
    requires a.info == c.info == e.info == g.info == NameInfo && b.info == d.info == k.info == AgeInfo && f.info == h.info == HeightInfo
    ensures forall s | s in [Tuple([a, b]), Tuple([c, d]), Tuple([e, f]), Tuple([g, h, k])] :: WellFormed(s)
    ensures SignaturesOf([Tuple([a, b]), Tuple([c, d]), Tuple([e, f]), Tuple([g, h, k])])
              == [[NameInfo, AgeInfo], [NameInfo, AgeInfo], [NameInfo, HeightInfo], [NameInfo, AgeInfo, HeightInfo]]
  {
    NameAgeSignature(Tuple([a, b]));
    NameAgeSignature(Tuple([c, d]));
    NameHeightSignature(Tuple([e, f]));
    NameHeightAgeSignature(Tuple([g, h, k]));
    SignaturesOfFour(Tuple([a, b]), Tuple([c, d]), Tuple([e, f]), Tuple([g, h, k]),
      [NameInfo, AgeInfo], [NameInfo, AgeInfo], [NameInfo, HeightInfo], [NameInfo, AgeInfo, HeightInfo]);
  }

  /** Any query after spawns with `three_components`' signatures: the archetypes' rows in creation order. */
  lemma ThreeQuery(groups: seq<ComponentSet>, types: seq<TypeId>)
    requires forall s | s in groups :: WellFormed(s)
    requires SignaturesOf(groups)
               == [[NameInfo, AgeInfo], [NameInfo, AgeInfo], [NameInfo, HeightInfo], [NameInfo, AgeInfo, HeightInfo]]
    requires |types| > 0
    ensures QueryEntity(SpawnAll(EmptyWorld(), groups).archetypes, types)
              == (NewItems([NameInfo, AgeInfo], groups[0], 0, types) + NewItems([NameInfo, AgeInfo], groups[1], 1, types))
                 + NewItems([NameInfo, HeightInfo], groups[2], 2, types)
                 + NewItems([NameInfo, AgeInfo, HeightInfo], groups[3], 3, types)
  {
    ThreeLayout();
    var l := Layout([[NameInfo, AgeInfo], [NameInfo, HeightInfo], [NameInfo, AgeInfo, HeightInfo]], [[0, 1], [2], [3]]);
    QueryOnThree(groups, types, SignaturesOf(groups), l);
    RowItems2([NameInfo, AgeInfo], 0, 1, groups, types);
    RowItems1([NameInfo, HeightInfo], 2, groups, types);
    RowItems1([NameInfo, AgeInfo, HeightInfo], 3, groups, types);
  }

  lemma JoinNameAge<T>(x: T, y: T, z: T)
    ensures ([x] + [y]) + [] + [z] == [x, y, z]
  {
  }

  lemma JoinNameHeight<T>(x: T, y: T)
    ensures ([] + []) + [x] + [y] == [x, y]
  {
  }

  lemma JoinAgeHeight<T>(x: T)
    ensures ([] + []) + [] + [x] == [x]
  {
  }

  /** What each two-type query of `three_components` reads from a `(Name, Age)` row. */
  lemma NameAgeReads(a: Member, b: Member, entity: EntityId)
    requires a.info == NameInfo && b.info == AgeInfo
    ensures NewItems([NameInfo, AgeInfo], Tuple([a, b]), entity, [NameId, AgeId]) == [Item(entity, [a.value, b.value])]
    ensures NewItems([NameInfo, AgeInfo], Tuple([a, b]), entity, [NameId, HeightId]) == []
    ensures NewItems([NameInfo, AgeInfo], Tuple([a, b]), entity, [AgeId, HeightId]) == []
  {
    NameAgeSignature(Tuple([a, b]));
    RowTwo([NameInfo, AgeInfo], Tuple([a, b]), entity, NameId, 0, 0, AgeId, 1, 1);
    NewItemsNone([NameInfo, AgeInfo], Tuple([a, b]), entity, [NameId, HeightId], HeightId);
    NewItemsNone([NameInfo, AgeInfo], Tuple([a, b]), entity, [AgeId, HeightId], HeightId);
  }

  /** What each two-type query of `three_components` reads from a `(Name, Height)` row. */
  lemma NameHeightReads(e: Member, f: Member, entity: EntityId)
    requires e.info == NameInfo && f.info == HeightInfo
    ensures NewItems([NameInfo, HeightInfo], Tuple([e, f]), entity, [NameId, AgeId]) == []
    ensures NewItems([NameInfo, HeightInfo], Tuple([e, f]), entity, [NameId, HeightId]) == [Item(entity, [e.value, f.value])]
    ensures NewItems([NameInfo, HeightInfo], Tuple([e, f]), entity, [AgeId, HeightId]) == []
  {
    NameHeightSignature(Tuple([e, f]));
    NewItemsNone([NameInfo, HeightInfo], Tuple([e, f]), entity, [NameId, AgeId], AgeId);
    RowTwo([NameInfo, HeightInfo], Tuple([e, f]), entity, NameId, 0, 0, HeightId, 1, 1);
    NewItemsNone([NameInfo, HeightInfo], Tuple([e, f]), entity, [AgeId, HeightId], AgeId);
  }

  /**
   * What each two-type query of `three_components` reads from a row spawned as
   * `(Name, Height, Age)`: the values come in the query's order, not the tuple's.
   */
  lemma NameHeightAgeReads(g: Member, h: Member, k: Member, entity: EntityId)
    requires g.info == NameInfo && h.info == HeightInfo && k.info == AgeInfo
    ensures NewItems([NameInfo, AgeInfo, HeightInfo], Tuple([g, h, k]), entity, [NameId, AgeId]) == [Item(entity, [g.value, k.value])]
    ensures NewItems([NameInfo, AgeInfo, HeightInfo], Tuple([g, h, k]), entity, [NameId, HeightId]) == [Item(entity, [g.value, h.value])]
    ensures NewItems([NameInfo, AgeInfo, HeightInfo], Tuple([g, h, k]), entity, [AgeId, HeightId]) == [Item(entity, [k.value, h.value])]
  {
    NameHeightAgeSignature(Tuple([g, h, k]));
    RowTwo([NameInfo, AgeInfo, HeightInfo], Tuple([g, h, k]), entity, NameId, 0, 0, AgeId, 1, 2);
    RowTwo([NameInfo, AgeInfo, HeightInfo], Tuple([g, h, k]), entity, NameId, 0, 0, HeightId, 2, 1);
    RowTwo([NameInfo, AgeInfo, HeightInfo], Tuple([g, h, k]), entity, AgeId, 1, 2, HeightId, 2, 1);
  }

  /** The groups `three_components` spawns (heights are whole numbers here). */
  function ThreeGroups(): seq<ComponentSet> {
    [ Tuple([Name("John"), Age(18)]), Tuple([Name("Hannah"), Age(24)]), Tuple([Name("Bob"), Height(160)]),
      Tuple([Name("Alice"), Height(200), Age(19)]) ]
  }

  lemma ThreeSpawned()
    ensures forall s | s in ThreeGroups() :: WellFormed(s)
    ensures SignaturesOf(ThreeGroups())
              == [[NameInfo, AgeInfo], [NameInfo, AgeInfo], [NameInfo, HeightInfo], [NameInfo, AgeInfo, HeightInfo]]
  {
    var a, b, c, d := Name("John"), Age(18), Name("Hannah"), Age(24);
    var e, f, g, h, k := Name("Bob"), Height(160), Name("Alice"), Height(200), Age(19);
    assert ThreeGroups() == [Tuple([a, b]), Tuple([c, d]), Tuple([e, f]), Tuple([g, h, k])];
    ThreeSignatures(a, b, c, d, e, f, g, h, k);
  }

  lemma ThreeNameAgeQuery()
    ensures forall s | s in ThreeGroups() :: WellFormed(s)
    ensures QueryEntity(SpawnAll(EmptyWorld(), ThreeGroups()).archetypes, [NameId, AgeId])
              == [ Item(0, [Text("John"), Number(18)]), Item(1, [Text("Hannah"), Number(24)]),
                   Item(3, [Text("Alice"), Number(19)]) ]
  {
    ThreeSpawned();
    var groups := ThreeGroups();
    NameAgeReads(Name("John"), Age(18), 0);
    NameAgeReads(Name("Hannah"), Age(24), 1);
    NameHeightReads(Name("Bob"), Height(160), 2);
    NameHeightAgeReads(Name("Alice"), Height(200), Age(19), 3);
    ThreeQuery(groups, [NameId, AgeId]);
    JoinNameAge(Item(0, [Text("John"), Number(18)]), Item(1, [Text("Hannah"), Number(24)]), Item(3, [Text("Alice"), Number(19)]));
  }

  lemma ThreeNameHeightQuery()
    ensures forall s | s in ThreeGroups() :: WellFormed(s)
    ensures QueryEntity(SpawnAll(EmptyWorld(), ThreeGroups()).archetypes, [NameId, HeightId])
              == [Item(2, [Text("Bob"), Number(160)]), Item(3, [Text("Alice"), Number(200)])]
  {
    ThreeSpawned();
    var groups := ThreeGroups();
    NameAgeReads(Name("John"), Age(18), 0);
    NameAgeReads(Name("Hannah"), Age(24), 1);
    NameHeightReads(Name("Bob"), Height(160), 2);
    NameHeightAgeReads(Name("Alice"), Height(200), Age(19), 3);
    ThreeQuery(groups, [NameId, HeightId]);
    JoinNameHeight(Item(2, [Text("Bob"), Number(160)]), Item(3, [Text("Alice"), Number(200)]));
  }

  lemma ThreeAgeHeightQuery()
    ensures forall s | s in ThreeGroups() :: WellFormed(s)
    ensures QueryEntity(SpawnAll(EmptyWorld(), ThreeGroups()).archetypes, [AgeId, HeightId])
              == [Item(3, [Number(19), Number(200)])]
  {
    ThreeSpawned();
    var groups := ThreeGroups();
    NameAgeReads(Name("John"), Age(18), 0);
    NameAgeReads(Name("Hannah"), Age(24), 1);
    NameHeightReads(Name("Bob"), Height(160), 2);
    NameHeightAgeReads(Name("Alice"), Height(200), Age(19), 3);
    ThreeQuery(groups, [AgeId, HeightId]);
    JoinAgeHeight(Item(3, [Number(19), Number(200)]));
  }

  /**
   * `three_components`: each two-type query yields exactly the handles whose
   * archetype holds both types, with their values in the query's order, the
   * `(Name, Age)` archetype before the `(Name, Height)` one before the
   * `(Name, Age, Height)` one.
   */
  lemma ThreeComponents()
    ensures forall s | s in ThreeGroups() :: WellFormed(s)
    ensures QueryEntity(SpawnAll(EmptyWorld(), ThreeGroups()).archetypes, [NameId, AgeId])
              == [ Item(0, [Text("John"), Number(18)]), Item(1, [Text("Hannah"), Number(24)]),
                   Item(3, [Text("Alice"), Number(19)]) ]
    ensures QueryEntity(SpawnAll(EmptyWorld(), ThreeGroups()).archetypes, [NameId, HeightId])
              == [Item(2, [Text("Bob"), Number(160)]), Item(3, [Text("Alice"), Number(200)])]
    ensures QueryEntity(SpawnAll(EmptyWorld(), ThreeGroups()).archetypes, [AgeId, HeightId])
              == [Item(3, [Number(19), Number(200)])]
  {
    ThreeNameAgeQuery();
    ThreeNameHeightQuery();
    ThreeAgeHeightQuery();
  }

  // mut_query_shared: nine `(Name, Height, Age)` spawns, then a write through `&mut Name`.

  /** A `(Name, Height, Age)` group: its sorted types are `Name`, `Age`, `Height`. */
  lemma NameHeightAgeSignature(s: ComponentSet)
    requires s.Tuple? && |s.members| == 3
    requires s.members[0].info == NameInfo && s.members[1].info == HeightInfo && s.members[2].info == AgeInfo
    ensures WellFormed(s) && ComponentInfos(s) == [NameInfo, AgeInfo, HeightInfo]
  {
    LastTwoSwapped(s, NameInfo, AgeInfo, HeightInfo);
  }

  /** A three-member group listed as `p, r, q` where `p < q < r` by id sorts to `p, q, r`. */
  lemma LastTwoSwapped(s: ComponentSet, p: TypeInfo, q: TypeInfo, r: TypeInfo)
    requires s.Tuple? && |s.members| == 3 && p.id < q.id < r.id
    requires s.members[0].info == p && s.members[1].info == r && s.members[2].info == q
    ensures WellFormed(s) && ComponentInfos(s) == [p, q, r]
  {
    assert InfosOf(Members(s)) == [p, r, q];
    assert multiset([p, q, r]) == multiset([p, r, q]);
    SignatureIs(s, [p, q, r]);
  }

  /** Every group is a `(Name, Height, Age)` tuple. */
  predicate NameHeightAgeGroups(groups: seq<ComponentSet>) {
    forall k | 0 <= k < |groups| ::
      && groups[k].Tuple? && |groups[k].members| == 3
      && groups[k].members[0].info == NameInfo && groups[k].members[1].info == HeightInfo && groups[k].members[2].info == AgeInfo
  }

  /** The groups `mut_query_shared` spawns (heights are whole numbers here). */
  function SharedGroups(): (r: seq<ComponentSet>)
    ensures NameHeightAgeGroups(r)
  {
    [ Tuple([Name("Kristie"), Height(67), Age(9)]),
      Tuple([Name("Jordan"), Height(89), Age(10)]),
      Tuple([Name("Bob"), Height(101), Age(11)]),
      Tuple([Name("Michael"), Height(42), Age(12)]),
      Tuple([Name("Dave"), Height(34), Age(13)]),
      Tuple([Name("Paul"), Height(890), Age(14)]),
      Tuple([Name("Joseph"), Height(67), Age(15)]),
      Tuple([Name("Alex"), Height(67), Age(16)]),
      Tuple([Name("Steve"), Height(67), Age(17)]) ]
  }

  /**
   * `mut_query_shared`, for any run of `(Name, Height, Age)` spawns: after
   * `*name = Name("None")` through every `&mut Name` the mutable query hands
   * out, every `&Name` reads `"None"`.
   */
  lemma MutQueryShared(groups: seq<ComponentSet>)
    requires NameHeightAgeGroups(groups)
    ensures forall g | g in groups :: WellFormed(g)
    ensures var world := SpawnAll(EmptyWorld(), groups).archetypes;
      && |QueryRef(Updated(world, NameId, SetTo(Text("None"))), NameId)| == |QueryRef(world, NameId)|
      && forall p | 0 <= p < |QueryRef(world, NameId)| :: QueryRef(Updated(world, NameId, SetTo(Text("None"))), NameId)[p] == Text("None")
  {
    forall g | g in groups ensures WellFormed(g) && Sized(ComponentInfos(g), NameId) {
      NameHeightAgeSignature(g);
    }
    SpawnedSetsAll(groups, NameId, Text("None"));
  }

  /** `mut_query_shared` on its own nine spawns. */
  lemma MutQuerySharedScenario()
    ensures forall g | g in SharedGroups() :: WellFormed(g)
    ensures var world := SpawnAll(EmptyWorld(), SharedGroups()).archetypes;
      && |QueryRef(Updated(world, NameId, SetTo(Text("None"))), NameId)| == |QueryRef(world, NameId)|
      && forall p | 0 <= p < |QueryRef(world, NameId)| :: QueryRef(Updated(world, NameId, SetTo(Text("None"))), NameId)[p] == Text("None")
  {
    MutQueryShared(SharedGroups());
  }
}
