/**
 * The query engine. Every query keeps the archetypes that are non-empty and
 * contain all requested types, then yields one item per occupied row, in
 * archetype order and then row order. Items are read from the archetypes'
 * columns; a column of a zero-sized type is read through a placeholder.
 *
 * The world is seen here as the sequence of its archetypes' states.
 */
module Queries {
  import opened Lib
  import opened ArchetypeStorage

  /** Every archetype keeps its invariant and has all of its occupied rows written. */
  predicate AllSettled(world: seq<ArchetypeState>) {
    forall a | 0 <= a < |world| :: Settled(world[a])
  }

  /** The `filter` of every query: some rows, and every requested type present. */
  predicate Matches(a: ArchetypeState, types: seq<TypeId>)
    requires Wf(a)
  {
    |a.entities| > 0 && forall t | t in types :: ContainsType(a, t)
  }

  /** The filter of the single-type queries `&T` and `&mut T`. */
  predicate MatchesOne(a: ArchetypeState, t: TypeId)
    requires Wf(a)
  {
    |a.entities| > 0 && ContainsType(a, t)
  }

  lemma MatchesSingleton(a: ArchetypeState, t: TypeId)
    requires Wf(a)
    ensures Matches(a, [t]) <==> MatchesOne(a, t)
  {
    assert t in [t];
  }

  /**
   * The slice `from_raw_parts(ptr, entities.len())` over the column of type
   * `t`: the stored values, or the placeholder `Unit` when the column has no
   * buffer (a zero-sized type).
   */
  function ColumnView(a: ArchetypeState, t: TypeId): (r: seq<Value>)
    requires Settled(a) && t in a.index
    ensures |r| == |a.entities| && a.index[t] < |a.columns|
    ensures forall i | 0 <= i < |r| ::
              if a.columns[a.index[t]].hasBuffer then a.columns[a.index[t]].slots[i] == Init(r[i]) else r[i] == Unit
  {
    IndexOfLookup(a.componentTypes);
    var col := a.columns[a.index[t]];
    if col.hasBuffer then seq(|a.entities|, i requires 0 <= i < |a.entities| => col.slots[i].value)
    else seq(|a.entities|, _ => Unit)
  }

  /** The slices of the requested types, in the shape's order. */
  function Columns(a: ArchetypeState, types: seq<TypeId>): (r: seq<seq<Value>>)
    requires Settled(a) && forall t | t in types :: t in a.index
    ensures |r| == |types| && forall k | 0 <= k < |types| :: |r[k]| == |a.entities|
  {
    seq(|types|, k requires 0 <= k < |types| => ColumnView(a, types[k]))
  }

  /** Row `i` across several columns. */
  function RowAt(cols: seq<seq<Value>>, i: nat): seq<Value>
    requires forall k | 0 <= k < |cols| :: i < |cols[k]|
  {
    seq(|cols|, k requires 0 <= k < |cols| => cols[k][i])
  }

  /** The left-nested pairs built by successive `zip` calls. */
  datatype Zipped<L> = Base(head: L) | Zip(init: Zipped<L>, last: Value)

  /** `heads.zip(cols[0]).zip(cols[1])...`, all slices having the same length. */
  function ZipAll<L>(heads: seq<L>, cols: seq<seq<Value>>): (r: seq<Zipped<L>>)
    requires forall k | 0 <= k < |cols| :: |cols[k]| == |heads|
    ensures |r| == |heads|
  {
    if |cols| == 0 then seq(|heads|, i requires 0 <= i < |heads| => Base(heads[i]))
    else
      var inner := ZipAll(heads, cols[..|cols| - 1]);
      var last := cols[|cols| - 1];
      seq(|heads|, i requires 0 <= i < |heads| => Zip(inner[i], last[i]))
  }

  /** `impl_query!(@map ...)`: flatten the nested pairs into one flat tuple. */
  function Flatten<L>(z: Zipped<L>): (L, seq<Value>) {
    match z
    case Base(h) => (h, [])
    case Zip(init, last) => var (h, vs) := Flatten(init); (h, vs + [last])
  }

  /**
   * Zipping then flattening keeps the element order: row `i` is the head
   * followed by row `i` of each column, in the order the columns were zipped.
   */
  lemma {:induction false} FlattenZipAll<L>(heads: seq<L>, cols: seq<seq<Value>>, i: nat)
    requires forall k | 0 <= k < |cols| :: |cols[k]| == |heads|
    requires i < |heads|
    ensures Flatten(ZipAll(heads, cols)[i]) == (heads[i], RowAt(cols, i))
  {
    if |cols| > 0 {
      var init := cols[..|cols| - 1];
      FlattenZipAll(heads, init, i);
      assert RowAt(cols, i) == RowAt(init, i) + [cols[|cols| - 1][i]];
    }
  }

  /** One item of an `(Entity, &A, ...)` query. */
  datatype Item = Item(entity: EntityId, components: seq<Value>)

  /** The `flat_map` body of `(Entity, &A, ...)`: the handles zipped with each requested slice. */
  function EntityRows(a: ArchetypeState, types: seq<TypeId>): (r: seq<Item>)
    requires Settled(a) && |types| > 0 && Matches(a, types)
    ensures |r| == |a.entities|
    ensures forall i | 0 <= i < |r| :: r[i] == Item(a.entities[i], RowAt(Columns(a, types), i))
  {
    var zipped := ZipAll(a.entities, Columns(a, types));
    var r := seq(|zipped|, i requires 0 <= i < |zipped| => var (e, vs) := Flatten(zipped[i]); Item(e, vs));
    assert forall i | 0 <= i < |r| :: r[i] == Item(a.entities[i], RowAt(Columns(a, types), i)) by {
      forall i | 0 <= i < |r| ensures r[i] == Item(a.entities[i], RowAt(Columns(a, types), i)) {
        FlattenZipAll(a.entities, Columns(a, types), i);
      }
    }
    r
  }

  /** Zipping the first slice with the others and flattening gives the whole row. */
  lemma HeadRow(cols: seq<seq<Value>>, i: nat)
    requires |cols| > 0 && (forall k | 0 <= k < |cols| :: |cols[k]| == |cols[0]|) && i < |cols[0]|
    ensures var (h, vs) := Flatten(ZipAll(cols[0], cols[1..])[i]); [h] + vs == RowAt(cols, i)
  {
    FlattenZipAll(cols[0], cols[1..], i);
    assert RowAt(cols, i) == [cols[0][i]] + RowAt(cols[1..], i);
  }

  /** The `flat_map` body of `(&A, ...)`: the first slice zipped with the others. */
  function ComponentRows(a: ArchetypeState, types: seq<TypeId>): (r: seq<seq<Value>>)
    requires Settled(a) && |types| > 0 && Matches(a, types)
    ensures |r| == |a.entities|
    ensures forall i | 0 <= i < |r| :: r[i] == RowAt(Columns(a, types), i)
  {
    var cols := Columns(a, types);
    var zipped := ZipAll(cols[0], cols[1..]);
    var r := seq(|zipped|, i requires 0 <= i < |zipped| => var (h, vs) := Flatten(zipped[i]); [h] + vs);
    assert forall i | 0 <= i < |r| :: r[i] == RowAt(cols, i) by {
      forall i | 0 <= i < |r| ensures r[i] == RowAt(cols, i) {
        HeadRow(cols, i);
      }
    }
    r
  }

  /** `flat_map`: the per-archetype outputs, concatenated in archetype order. */
  function Concat<T>(ss: seq<seq<T>>): seq<T> {
    if |ss| == 0 then [] else ss[0] + Concat(ss[1..])
  }

  /** The items archetype `a` contributes to `(Entity, &A, ...)`: its rows if it passes the filter. */
  function Contribution(a: ArchetypeState, types: seq<TypeId>): seq<Item>
    requires Settled(a) && |types| > 0
  {
    if Matches(a, types) then EntityRows(a, types) else []
  }

  /** The items of `(Entity, &A, ...)`, one sequence per archetype, in archetype order. */
  function Segments(world: seq<ArchetypeState>, types: seq<TypeId>): seq<seq<Item>>
    requires AllSettled(world) && |types| > 0
  {
    seq(|world|, a requires 0 <= a < |world| => Contribution(world[a], types))
  }

  /** `Query for (Entity, &A, ...)`. */
  function QueryEntity(world: seq<ArchetypeState>, types: seq<TypeId>): seq<Item>
    requires AllSettled(world) && |types| > 0
  {
    Concat(Segments(world, types))
  }

  /** `Query for (&A, ...)`. */
  function QueryComponents(world: seq<ArchetypeState>, types: seq<TypeId>): seq<seq<Value>>
    requires AllSettled(world) && |types| > 0
  {
    Concat(seq(|world|, a requires 0 <= a < |world| =>
      if Matches(world[a], types) then ComponentRows(world[a], types) else []))
  }

  /** `Query for &T`, and what `QueryMut for &mut T` reads: the matching slices, concatenated. */
  function QueryRef(world: seq<ArchetypeState>, t: TypeId): seq<Value>
    requires AllSettled(world)
  {
    Concat(seq(|world|, a requires 0 <= a < |world| =>
      if MatchesOne(world[a], t) then ColumnView(world[a], t) else []))
  }

  /** A row handed out by a mutable query: an archetype position and a row in it. */
  datatype RowRef = RowRef(archetype: nat, row: nat)

  /** The rows `QueryMut for (Entity, &mut T)` and `&mut T` hand out, in order. */
  function MutRows(world: seq<ArchetypeState>, t: TypeId): seq<RowRef>
    requires AllSettled(world)
  {
    Concat(seq(|world|, a requires 0 <= a < |world| =>
      if MatchesOne(world[a], t) then seq(|world[a].entities|, i requires 0 <= i => RowRef(a, i)) else []))
  }

  /** Concatenation splits around any one of its parts. */
  lemma {:induction false} ConcatSplit<T>(ss: seq<seq<T>>, k: nat)
    requires k < |ss|
    ensures Concat(ss) == Concat(ss[..k]) + ss[k] + Concat(ss[k + 1..])
  {
    if k > 0 {
      ConcatSplit(ss[1..], k - 1);
      assert ss[1..][..k - 1] == ss[..k][1..];
      assert ss[1..][k..] == ss[k + 1..];
    } else {
      assert ss[..0] == [];
    }
  }

  /** An element of a concatenation is an element of one of its parts. */
  lemma {:induction false} ConcatMembership<T>(ss: seq<seq<T>>, x: T)
    ensures x in Concat(ss) <==> exists k | 0 <= k < |ss| :: x in ss[k]
  {
    if |ss| > 0 {
      ConcatMembership(ss[1..], x);
      if exists k | 0 <= k < |ss| :: x in ss[k] {
        var k :| 0 <= k < |ss| && x in ss[k];
        if k > 0 {
          assert x in ss[1..][k - 1];
        }
      }
      if exists k | 0 <= k < |ss[1..]| :: x in ss[1..][k] {
        var k :| 0 <= k < |ss[1..]| && x in ss[1..][k];
        assert x in ss[k + 1];
      }
    }
  }

  /**
   * Two concatenations of parts that pair up element by element under a
   * relation pair up element by element themselves.
   */
  lemma {:induction false} ConcatAligned<T, U>(ss: seq<seq<T>>, tt: seq<seq<U>>, rel: (T, U) -> bool)
    requires |ss| == |tt|
    requires forall k | 0 <= k < |ss| :: |ss[k]| == |tt[k]|
    requires forall k, i | 0 <= k < |ss| && 0 <= i < |ss[k]| :: rel(ss[k][i], tt[k][i])
    ensures |Concat(ss)| == |Concat(tt)|
    ensures forall p | 0 <= p < |Concat(ss)| :: rel(Concat(ss)[p], Concat(tt)[p])
  {
    if |ss| > 0 {
      ConcatAligned(ss[1..], tt[1..], rel);
      forall p | 0 <= p < |Concat(ss)| ensures rel(Concat(ss)[p], Concat(tt)[p]) {
        if p >= |ss[0]| {
          var q := p - |ss[0]|;
          assert Concat(ss)[p] == Concat(ss[1..])[q];
          assert Concat(tt)[p] == Concat(tt[1..])[q];
        }
      }
    }
  }

  /**
   * The output is the concatenation over archetypes in index order: what
   * comes before archetype `a`, then `a`'s own rows, then what comes after.
   */
  lemma QueryEntitySplit(world: seq<ArchetypeState>, types: seq<TypeId>, a: nat)
    requires AllSettled(world) && |types| > 0 && a < |world|
    ensures QueryEntity(world, types)
              == QueryEntity(world[..a], types) + Contribution(world[a], types) + QueryEntity(world[a + 1..], types)
  {
    var parts := Segments(world, types);
    ConcatSplit(parts, a);
    assert parts[..a] == Segments(world[..a], types);
    assert parts[a + 1..] == Segments(world[a + 1..], types);
  }

  /** The items one archetype contributes are its rows, if it passes the filter. */
  lemma ContributionMembership(a: ArchetypeState, types: seq<TypeId>, item: Item)
    requires Settled(a) && |types| > 0
    ensures item in Contribution(a, types) <==>
              Matches(a, types) && exists i | 0 <= i < |a.entities| :: item == Item(a.entities[i], RowAt(Columns(a, types), i))
  {
    if Matches(a, types) && exists i | 0 <= i < |a.entities| :: item == Item(a.entities[i], RowAt(Columns(a, types), i)) {
      var i :| 0 <= i < |a.entities| && item == Item(a.entities[i], RowAt(Columns(a, types), i));
      assert EntityRows(a, types)[i] == item;
    }
  }

  /**
   * Where each item comes from: an item of the query is exactly a row of a
   * matching archetype, with that row's handle and its values of the
   * requested types in the shape's order.
   */
  lemma QueryEntityMembership(world: seq<ArchetypeState>, types: seq<TypeId>, item: Item)
    requires AllSettled(world) && |types| > 0
    ensures item in QueryEntity(world, types) <==>
              exists a, i | 0 <= a < |world| && 0 <= i < |world[a].entities| ::
                Matches(world[a], types) && item == Item(world[a].entities[i], RowAt(Columns(world[a], types), i))
  {
    var parts := Segments(world, types);
    ConcatMembership(parts, item);
    forall a | 0 <= a < |world|
      ensures item in parts[a] <==>
                Matches(world[a], types)
                && exists i | 0 <= i < |world[a].entities| :: item == Item(world[a].entities[i], RowAt(Columns(world[a], types), i))
    {
      ContributionMembership(world[a], types, item);
    }
  }

  /** The `(&A, ...)` form yields the same component rows as `(Entity, &A, ...)`, without the handle. */
  lemma QueryComponentsDropsHandle(world: seq<ArchetypeState>, types: seq<TypeId>)
    requires AllSettled(world) && |types| > 0
    ensures |QueryComponents(world, types)| == |QueryEntity(world, types)|
    ensures forall p | 0 <= p < |QueryEntity(world, types)| ::
              QueryComponents(world, types)[p] == QueryEntity(world, types)[p].components
  {
    ConcatAligned(
      Segments(world, types),
      seq(|world|, a requires 0 <= a < |world| =>
        if Matches(world[a], types) then ComponentRows(world[a], types) else []),
      (it: Item, vs: seq<Value>) => vs == it.components);
  }

  /** Row `r` of the world as a single-type query reads it. */
  predicate ReadsRow(world: seq<ArchetypeState>, t: TypeId, r: RowRef, v: Value)
    requires AllSettled(world)
  {
    && r.archetype < |world| && MatchesOne(world[r.archetype], t) && r.row < |world[r.archetype].entities|
    && v == ColumnView(world[r.archetype], t)[r.row]
  }

  /**
   * The rows handed out by a mutable query line up with the values of the
   * `&T` query: the `p`-th row reference names the archetype and row the
   * `p`-th value was read from.
   */
  lemma MutRowsReadRef(world: seq<ArchetypeState>, t: TypeId)
    requires AllSettled(world)
    ensures |MutRows(world, t)| == |QueryRef(world, t)|
    ensures forall p | 0 <= p < |MutRows(world, t)| :: ReadsRow(world, t, MutRows(world, t)[p], QueryRef(world, t)[p])
  {
    ConcatAligned(
      seq(|world|, a requires 0 <= a < |world| =>
        if MatchesOne(world[a], t) then seq(|world[a].entities|, i requires 0 <= i => RowRef(a, i)) else []),
      seq(|world|, a requires 0 <= a < |world| =>
        if MatchesOne(world[a], t) then ColumnView(world[a], t) else []),
      (r: RowRef, v: Value) => ReadsRow(world, t, r, v));
  }

  /** Row `r` of the world as the `(Entity, &T)` query reads it. */
  predicate YieldsRow(world: seq<ArchetypeState>, t: TypeId, r: RowRef, it: Item)
    requires AllSettled(world)
  {
    && r.archetype < |world| && MatchesOne(world[r.archetype], t) && r.row < |world[r.archetype].entities|
    && it == Item(world[r.archetype].entities[r.row], [ColumnView(world[r.archetype], t)[r.row]])
  }

  /** Within one archetype, the `i`-th row reference yields the `i`-th item of `(Entity, &T)`. */
  lemma RowsYield(world: seq<ArchetypeState>, t: TypeId, a: nat)
    requires AllSettled(world) && a < |world|
    ensures var rows := if MatchesOne(world[a], t) then seq(|world[a].entities|, i requires 0 <= i => RowRef(a, i)) else [];
      var items := Contribution(world[a], [t]);
      |rows| == |items| && forall i | 0 <= i < |rows| :: YieldsRow(world, t, rows[i], items[i])
  {
    MatchesSingleton(world[a], t);
    if MatchesOne(world[a], t) {
      forall i | 0 <= i < |world[a].entities|
        ensures YieldsRow(world, t, RowRef(a, i), Contribution(world[a], [t])[i])
      {
        assert RowAt(Columns(world[a], [t]), i) == [ColumnView(world[a], t)[i]];
      }
    }
  }

  /**
   * The same rows line up with the items of the `(Entity, &T)` query: the
   * `p`-th item is the handle of the `p`-th row with the `p`-th value of `&T`.
   */
  lemma MutRowsReadEntity(world: seq<ArchetypeState>, t: TypeId)
    requires AllSettled(world)
    ensures |MutRows(world, t)| == |QueryEntity(world, [t])| == |QueryRef(world, t)|
    ensures forall p | 0 <= p < |MutRows(world, t)| ::
              var r := MutRows(world, t)[p];
              r.archetype < |world| && r.row < |world[r.archetype].entities|
              && QueryEntity(world, [t])[p] == Item(world[r.archetype].entities[r.row], [QueryRef(world, t)[p]])
  {
    var rows := seq(|world|, a requires 0 <= a < |world| =>
      if MatchesOne(world[a], t) then seq(|world[a].entities|, i requires 0 <= i => RowRef(a, i)) else []);
    var items := Segments(world, [t]);
    forall a | 0 <= a < |world|
      ensures |rows[a]| == |items[a]|
      ensures forall i | 0 <= i < |rows[a]| :: YieldsRow(world, t, rows[a][i], items[a][i])
    {
      RowsYield(world, t, a);
    }
    ConcatAligned(rows, items, (r: RowRef, it: Item) => YieldsRow(world, t, r, it));
    MutRowsReadRef(world, t);
  }

  /** The column of type `t` has storage; a zero-sized type's column has none. */
  predicate Stored(a: ArchetypeState, t: TypeId)
    requires Wf(a) && t in a.index
  {
    IndexOfLookup(a.componentTypes);
    a.columns[a.index[t]].hasBuffer
  }

  /**
   * The world after `f(entity, value)` has been stored through every
   * reference `QueryMut for (Entity, &mut T)` or `&mut T` hands out for `t`.
   */
  function Updated(world: seq<ArchetypeState>, t: TypeId, f: (EntityId, Value) -> Value): (r: seq<ArchetypeState>)
    requires AllSettled(world)
    ensures AllSettled(r) && |r| == |world|
    ensures forall a | 0 <= a < |world| :: SameShape(r[a], world[a]) && r[a].capacity == world[a].capacity
    ensures forall a | 0 <= a < |world| && !MatchesOne(world[a], t) :: r[a] == world[a]
  {
    seq(|world|, a requires 0 <= a < |world| =>
      if MatchesOne(world[a], t) then RowsUpdated(world[a], t, f) else world[a])
  }

  /** What the stores do to one archetype's slices: only the slice of `t` changes, and only where it has storage. */
  lemma UpdatedColumnView(a: ArchetypeState, t: TypeId, f: (EntityId, Value) -> Value, u: TypeId)
    requires Settled(a) && t in a.index && u in a.index
    ensures ColumnView(RowsUpdated(a, t, f), u)
              == if u == t && Stored(a, t)
                 then seq(|a.entities|, i requires 0 <= i < |a.entities| => f(a.entities[i], ColumnView(a, t)[i]))
                 else ColumnView(a, u)
  {
    IndexOfLookup(a.componentTypes);
    var a' := RowsUpdated(a, t, f);
    var view := ColumnView(a', u);
    var expected := if u == t && Stored(a, t)
                    then seq(|a.entities|, i requires 0 <= i < |a.entities| => f(a.entities[i], ColumnView(a, t)[i]))
                    else ColumnView(a, u);
    if u != t {
      assert a.componentTypes[a.index[u]].id == u && a.componentTypes[a.index[t]].id == t;
    }
    forall i | 0 <= i < |view| ensures view[i] == expected[i] {
      var k := a.index[u];
      if u == t && Stored(a, t) {
        assert a'.columns[k].slots[i] == Init(view[i]);
        assert a.columns[k].slots[i] == Init(ColumnView(a, t)[i]);
      } else {
        assert a'.columns[k] == a.columns[k];
      }
    }
  }

  /**
   * The stores are seen by a later query: the mutable query hands out the
   * same rows as before, and the value read at each is `f` of the handle and
   * the old value, except in a column without storage, which still reads
   * the placeholder.
   */
  lemma UpdatedReads(world: seq<ArchetypeState>, t: TypeId, f: (EntityId, Value) -> Value)
    requires AllSettled(world)
    ensures MutRows(Updated(world, t, f), t) == MutRows(world, t)
    ensures |QueryRef(Updated(world, t, f), t)| == |QueryRef(world, t)| == |MutRows(world, t)|
    ensures forall p | 0 <= p < |QueryRef(world, t)| ::
              var r := MutRows(world, t)[p];
              && r.archetype < |world| && r.row < |world[r.archetype].entities| && t in world[r.archetype].index
              && QueryRef(Updated(world, t, f), t)[p]
                   == if Stored(world[r.archetype], t) then f(world[r.archetype].entities[r.row], QueryRef(world, t)[p])
                      else QueryRef(world, t)[p]
  {
    var world' := Updated(world, t, f);
    assert forall a | 0 <= a < |world| :: MatchesOne(world'[a], t) == MatchesOne(world[a], t);
    assert MutRows(world', t) == MutRows(world, t) by {
      assert seq(|world'|, a requires 0 <= a < |world'| =>
               if MatchesOne(world'[a], t) then seq(|world'[a].entities|, i requires 0 <= i => RowRef(a, i)) else [])
          == seq(|world|, a requires 0 <= a < |world| =>
               if MatchesOne(world[a], t) then seq(|world[a].entities|, i requires 0 <= i => RowRef(a, i)) else []);
    }
    MutRowsReadRef(world, t);
    MutRowsReadRef(world', t);
    forall p | 0 <= p < |QueryRef(world, t)|
      ensures var r := MutRows(world, t)[p];
              QueryRef(world', t)[p]
                == if Stored(world[r.archetype], t) then f(world[r.archetype].entities[r.row], QueryRef(world, t)[p])
                   else QueryRef(world, t)[p]
    {
      var r := MutRows(world, t)[p];
      UpdatedColumnView(world[r.archetype], t, f, t);
    }
  }

  /** A query that does not ask for `t` sees nothing of the stores. */
  lemma UpdatedKeepsOtherQueries(world: seq<ArchetypeState>, t: TypeId, f: (EntityId, Value) -> Value, types: seq<TypeId>)
    requires AllSettled(world) && |types| > 0 && t !in types
    ensures QueryEntity(Updated(world, t, f), types) == QueryEntity(world, types)
  {
    var world' := Updated(world, t, f);
    forall a | 0 <= a < |world| ensures Contribution(world'[a], types) == Contribution(world[a], types) {
      UpdatedContribution(world[a], t, f, types);
    }
    assert Segments(world', types) == Segments(world, types);
  }

  lemma UpdatedContribution(a: ArchetypeState, t: TypeId, f: (EntityId, Value) -> Value, types: seq<TypeId>)
    requires Settled(a) && |types| > 0 && t !in types
    ensures MatchesOne(a, t) ==> Contribution(RowsUpdated(a, t, f), types) == Contribution(a, types)
  {
    if MatchesOne(a, t) && Matches(a, types) {
      var a' := RowsUpdated(a, t, f);
      UpdatedColumns(a, t, f, types);
      assert EntityRows(a', types) == EntityRows(a, types);
    }
  }

  lemma UpdatedColumns(a: ArchetypeState, t: TypeId, f: (EntityId, Value) -> Value, types: seq<TypeId>)
    requires Settled(a) && t in a.index && t !in types && forall u | u in types :: u in a.index
    ensures Columns(RowsUpdated(a, t, f), types) == Columns(a, types)
  {
    var a' := RowsUpdated(a, t, f);
    forall k | 0 <= k < |types| ensures ColumnView(a', types[k]) == ColumnView(a, types[k]) {
      assert types[k] in types;
      UpdatedColumnView(a, t, f, types[k]);
    }
  }
}
