/**
 * Archetype storage: one column per component type, kept sorted by type id,
 * a shared row capacity and the list of entities occupying the rows.
 *
 * Raw buffers are modelled as sequences of slots. A column that owns a
 * buffer has exactly `capacity` slots; a column of a zero-sized type never
 * owns one (its pointer stays null in the source).
 */
module ArchetypeStorage {
  import opened Lib

  /** Runtime description of a component type. The destructor is the one of the type named by `id`. */
  datatype TypeInfo = TypeInfo(id: TypeId, size: nat, align: nat)

  datatype Ordering = Less | Equal | Greater

  /** `PartialEq for TypeInfo`. */
  predicate SameType(a: TypeInfo, b: TypeInfo) {
    a.id == b.id
  }

  /** `Ord for TypeInfo`. */
  function Compare(a: TypeInfo, b: TypeInfo): Ordering {
    if a.id < b.id then Less else if a.id == b.id then Equal else Greater
  }

  /** Equality and ordering look at the type id only, never at the layout. */
  lemma CompareIgnoresLayout(a: TypeInfo, a': TypeInfo, b: TypeInfo, b': TypeInfo)
    requires a.id == a'.id && b.id == b'.id
    ensures SameType(a, b) == SameType(a', b') && Compare(a, b) == Compare(a', b')
    ensures SameType(a, b) <==> Compare(a, b) == Equal
  {
  }

  /** `Compare` is a total order: antisymmetric and transitive. */
  lemma CompareIsTotalOrder(a: TypeInfo, b: TypeInfo, c: TypeInfo)
    ensures Compare(a, b) == Less <==> Compare(b, a) == Greater
    ensures Compare(a, b) != Equal || Compare(b, a) == Equal
    ensures Compare(a, b) == Less && Compare(b, c) == Less ==> Compare(a, c) == Less
  {
  }

  /** Strictly ascending ids: the order the columns of an archetype are kept in. */
  predicate SortedById(ts: seq<TypeInfo>) {
    forall i, j | 0 <= i < j < |ts| :: ts[i].id < ts[j].id
  }

  predicate HasId(ts: seq<TypeInfo>, id: TypeId) {
    exists i | 0 <= i < |ts| :: ts[i].id == id
  }

  function IdsOf(ts: seq<TypeInfo>): (ids: seq<TypeId>)
    ensures |ids| == |ts| && forall i | 0 <= i < |ts| :: ids[i] == ts[i].id
  {
    seq(|ts|, i requires 0 <= i < |ts| => ts[i].id)
  }

  /**
   * `binary_search` over the sorted type list, as `Archetype::contains` does.
   * It finds an id exactly when the id occurs, because the list is sorted.
   */
  function BinarySearch(ts: seq<TypeInfo>, id: TypeId): (found: bool)
    requires SortedById(ts)
    ensures found <==> HasId(ts, id)
    decreases |ts|
  {
    if |ts| == 0 then false
    else
      var mid := |ts| / 2;
      if id < ts[mid].id then
        var r := BinarySearch(ts[..mid], id);
        assert r ==> HasId(ts, id) by {
          if r { var i :| 0 <= i < mid && ts[..mid][i].id == id; assert ts[i].id == id; }
        }
        r
      else if ts[mid].id < id then
        var r := BinarySearch(ts[mid + 1..], id);
        assert r ==> HasId(ts, id) by {
          if r { var i :| 0 <= i < |ts| - mid - 1 && ts[mid + 1..][i].id == id; assert ts[mid + 1 + i].id == id; }
        }
        assert HasId(ts, id) ==> r by {
          if HasId(ts, id) {
            var i :| 0 <= i < |ts| && ts[i].id == id;
            assert ts[mid + 1..][i - mid - 1].id == id;
          }
        }
        r
      else
        true
  }

  /** The column slot of a type: position `i` for the `i`-th id of the sorted list. */
  function IndexOf(ts: seq<TypeInfo>): map<TypeId, nat>
    requires SortedById(ts)
  {
    map i | 0 <= i < |ts| :: ts[i].id := i
  }

  lemma IndexOfLookup(ts: seq<TypeInfo>)
    requires SortedById(ts)
    ensures forall id :: id in IndexOf(ts) <==> HasId(ts, id)
    ensures forall i | 0 <= i < |ts| :: ts[i].id in IndexOf(ts) && IndexOf(ts)[ts[i].id] == i
  {
    forall i | 0 <= i < |ts|
      ensures ts[i].id in IndexOf(ts) && IndexOf(ts)[ts[i].id] == i
    {
      assert ts[i].id in IndexOf(ts);
    }
  }

  /** Contents of one row of a raw buffer: never written, or holding a value. */
  datatype Slot = Uninit | Init(value: Value)

  /** A column: whether it owns a buffer (a non-null pointer) and that buffer's slots. */
  datatype Column = Column(hasBuffer: bool, slots: seq<Slot>)

  /** A column whose pointer is null. */
  const NullColumn := Column(false, [])

  function Uninits(n: nat): (r: seq<Slot>)
    ensures |r| == n && forall i | 0 <= i < n :: r[i] == Uninit
  {
    seq(n, _ => Uninit)
  }

  /** A snapshot of every field of an `Archetype`. */
  datatype ArchetypeState = ArchetypeState(
    index: map<TypeId, nat>,
    componentTypes: seq<TypeInfo>,
    columns: seq<Column>,
    capacity: nat,
    entities: seq<EntityId>)

  /**
   * A column owns a buffer exactly when the archetype has allocated and the
   * type is not zero-sized; an owned buffer holds `capacity` slots.
   */
  predicate ColumnFits(c: Column, t: TypeInfo, capacity: nat) {
    && (c.hasBuffer <==> capacity > 0 && t.size > 0)
    && (if c.hasBuffer then |c.slots| == capacity else c.slots == [])
  }

  /** The archetype invariant. */
  predicate Wf(s: ArchetypeState) {
    && SortedById(s.componentTypes)
    && s.index == IndexOf(s.componentTypes)
    && |s.columns| == |s.componentTypes|
    && |s.entities| <= s.capacity
    && forall c | 0 <= c < |s.columns| :: ColumnFits(s.columns[c], s.componentTypes[c], s.capacity)
  }

  /** Every occupied row of every owned buffer has been written. */
  predicate Settled(s: ArchetypeState) {
    && Wf(s)
    && forall c, r | 0 <= c < |s.columns| && s.columns[c].hasBuffer && 0 <= r < |s.entities| ::
         s.columns[c].slots[r].Init?
  }

  /** Type list, index and entity list agree (what capacity operations and writes leave alone). */
  predicate SameShape(r: ArchetypeState, s: ArchetypeState) {
    r.index == s.index && r.componentTypes == s.componentTypes && r.entities == s.entities
      && |r.columns| == |s.columns|
  }

  /** `ComponentSet::make_archetype`'s result for a sorted type list. */
  function EmptyState(types: seq<TypeInfo>): (s: ArchetypeState)
    requires SortedById(types)
    ensures Settled(s) && s.capacity == 0 && s.entities == [] && s.componentTypes == types
    ensures |s.columns| == |types| && forall c | 0 <= c < |types| :: s.columns[c] == NullColumn
    ensures forall id :: id in s.index <==> HasId(types, id)
    ensures forall i | 0 <= i < |types| :: s.index[types[i].id] == i
  {
    IndexOfLookup(types);
    ArchetypeState(IndexOf(types), types, seq(|types|, _ => NullColumn), 0, [])
  }

  /** `Archetype::contains`: binary search over the sorted types, agreeing with the hash index. */
  function ContainsType(s: ArchetypeState, id: TypeId): (r: bool)
    requires Wf(s)
    ensures r <==> id in s.index
    ensures r <==> HasId(s.componentTypes, id)
  {
    IndexOfLookup(s.componentTypes);
    BinarySearch(s.componentTypes, id)
  }

  function Max(a: nat, b: nat): nat {
    if a < b then b else a
  }

  /** `alloc`'s effect on one column: a fresh buffer of `cap` slots unless the type is zero-sized. */
  function AllocColumn(c: Column, t: TypeInfo, cap: nat): Column {
    if t.size == 0 then c else Column(true, Uninits(cap))
  }

  /** `Archetype::alloc(cap)` on a never-allocated archetype. */
  function Allocated(s: ArchetypeState, cap: nat): (r: ArchetypeState)
    requires Wf(s) && s.capacity == 0
    ensures Wf(r) && SameShape(r, s) && r.capacity == cap
    ensures forall c, k | 0 <= c < |r.columns| && r.columns[c].hasBuffer && 0 <= k < |r.columns[c].slots| ::
              r.columns[c].slots[k] == Uninit
  {
    if cap == 0 then s
    else
      s.(columns := seq(|s.columns|, c requires 0 <= c < |s.columns| =>
                          AllocColumn(s.columns[c], s.componentTypes[c], cap)),
         capacity := cap)
  }

  /** `realloc`'s effect on one column: the old slots are kept and uninitialised ones appended. */
  function Regrown(c: Column, t: TypeInfo, next: nat): Column
    requires |c.slots| <= next
  {
    if t.size == 0 then c else Column(true, c.slots + Uninits(next - |c.slots|))
  }

  /** The growth policy of `reserve`: add at least half the capacity plus one. */
  function GrownCapacity(capacity: nat, n: nat): nat {
    capacity + Max(n, capacity / 2 + 1)
  }

  /** `Archetype::reserve(n)`. */
  function Reserved(s: ArchetypeState, n: nat): (r: ArchetypeState)
    requires Wf(s)
    ensures Wf(r) && SameShape(r, s)
    ensures r.capacity - |r.entities| >= n
    ensures r.capacity >= s.capacity
    ensures forall c, k | 0 <= c < |s.columns| && s.columns[c].hasBuffer && 0 <= k < |s.columns[c].slots| ::
              r.columns[c].hasBuffer && k < |r.columns[c].slots| && r.columns[c].slots[k] == s.columns[c].slots[k]
    ensures Settled(s) ==> Settled(r)
  {
    if s.capacity - |s.entities| >= n then s
    else if s.capacity == 0 then Allocated(s, n)
    else
      var next := GrownCapacity(s.capacity, n);
      s.(columns := seq(|s.columns|, c requires 0 <= c < |s.columns| =>
                          Regrown(s.columns[c], s.componentTypes[c], next)),
         capacity := next)
  }

  /** The three branches of `reserve`, with their exact resulting capacities. */
  lemma ReservePolicy(s: ArchetypeState, n: nat)
    requires Wf(s)
    ensures s.capacity - |s.entities| >= n ==> Reserved(s, n) == s
    ensures s.capacity - |s.entities| < n && s.capacity == 0 ==> Reserved(s, n).capacity == n
    ensures s.capacity - |s.entities| < n && s.capacity > 0 ==>
              Reserved(s, n).capacity == s.capacity + Max(n, s.capacity / 2 + 1)
              && Reserved(s, n).capacity > s.capacity + s.capacity / 2
  {
  }

  /** A write into row `row` of a column; a column without a buffer stores nothing. */
  function WriteSlot(c: Column, row: nat, v: Value): Column
    requires c.hasBuffer ==> row < |c.slots|
  {
    if c.hasBuffer then c.(slots := c.slots[row := Init(v)]) else c
  }

  /** `Archetype::write_to_end(v)` for a component of type `id`. */
  function WrittenAt(s: ArchetypeState, id: TypeId, v: Value): (r: ArchetypeState)
    requires Wf(s) && id in s.index && |s.entities| < s.capacity
    ensures Wf(r) && SameShape(r, s) && r.capacity == s.capacity
    ensures forall c | 0 <= c < |s.columns| && c != s.index[id] :: r.columns[c] == s.columns[c]
    ensures var k := s.index[id];
              && k < |s.columns| && r.columns[k].hasBuffer == s.columns[k].hasBuffer
              && (s.columns[k].hasBuffer ==>
                    r.columns[k].slots == s.columns[k].slots[|s.entities| := Init(v)])
              && (!s.columns[k].hasBuffer ==> r.columns[k] == s.columns[k])
  {
    IndexOfLookup(s.componentTypes);
    var k := s.index[id];
    s.(columns := s.columns[k := WriteSlot(s.columns[k], |s.entities|, v)])
  }

  /**
   * The stores made through the references a mutable query hands out for
   * type `id`: row `i` of `0..entities.len()` becomes `f(entities[i], value)`.
   * A column without a buffer is reached through a placeholder and keeps nothing.
   */
  function RowsUpdated(s: ArchetypeState, id: TypeId, f: (EntityId, Value) -> Value): (r: ArchetypeState)
    requires Settled(s) && id in s.index
    ensures Settled(r) && SameShape(r, s) && r.capacity == s.capacity
    ensures forall c | 0 <= c < |s.columns| && c != s.index[id] :: r.columns[c] == s.columns[c]
    ensures var k := s.index[id];
              && k < |s.columns| && r.columns[k].hasBuffer == s.columns[k].hasBuffer
              && (!s.columns[k].hasBuffer ==> r.columns[k] == s.columns[k])
              && (s.columns[k].hasBuffer ==> r.columns[k].slots == MappedSlots(s.columns[k].slots, s.entities, f))
  {
    IndexOfLookup(s.componentTypes);
    var k := s.index[id];
    var col := s.columns[k];
    if !col.hasBuffer then s
    else s.(columns := s.columns[k := col.(slots := MappedSlots(col.slots, s.entities, f))])
  }

  /** Rows `0..entities.len()` of a buffer after `f(entity, value)` is stored in each. */
  function MappedSlots(slots: seq<Slot>, entities: seq<EntityId>, f: (EntityId, Value) -> Value): (r: seq<Slot>)
    requires |entities| <= |slots| && forall i | 0 <= i < |entities| :: slots[i].Init?
    ensures |r| == |slots|
    ensures forall i | 0 <= i < |slots| ::
              r[i] == if i < |entities| then Init(f(entities[i], slots[i].value)) else slots[i]
  {
    seq(|slots|, i requires 0 <= i < |slots| => if i < |entities| then Init(f(entities[i], slots[i].value)) else slots[i])
  }

  /** One destructor invocation: column, row, and the value destroyed. */
  datatype DropCall = DropCall(column: nat, row: nat, value: Value)

  /** Destructor calls for rows `0..rows` of column `c`, in row order. */
  function RowDrops(c: nat, col: Column, rows: nat): seq<DropCall>
    requires rows <= |col.slots| && forall j | 0 <= j < rows :: col.slots[j].Init?
  {
    if rows == 0 then []
    else RowDrops(c, col, rows - 1) + [DropCall(c, rows - 1, col.slots[rows - 1].value)]
  }

  /** Destructor calls for columns `0..k`, skipping columns without a buffer. */
  function ColumnDrops(s: ArchetypeState, k: nat): seq<DropCall>
    requires Settled(s) && k <= |s.columns|
  {
    if k == 0 then []
    else
      ColumnDrops(s, k - 1)
        + (if s.columns[k - 1].hasBuffer then RowDrops(k - 1, s.columns[k - 1], |s.entities|) else [])
  }

  /** The destructor calls of `Drop for Archetype`, in the order they are made. */
  function DropLog(s: ArchetypeState): seq<DropCall>
    requires Settled(s)
  {
    if s.capacity == 0 then [] else ColumnDrops(s, |s.columns|)
  }

  /** Strict column-major order of destructor calls, which rules out repeats. */
  predicate Before(d: DropCall, e: DropCall) {
    d.column < e.column || (d.column == e.column && d.row < e.row)
  }

  /** What a destructor call for row `d.row` of column `d.column` must be, if it is made at all. */
  predicate LiveElement(s: ArchetypeState, d: DropCall)
    requires Wf(s)
  {
    && d.column < |s.columns| && s.columns[d.column].hasBuffer && d.row < |s.entities|
    && s.columns[d.column].slots[d.row] == Init(d.value)
  }

  lemma {:induction false} RowDropsExact(c: nat, col: Column, rows: nat)
    requires rows <= |col.slots| && forall j | 0 <= j < rows :: col.slots[j].Init?
    ensures |RowDrops(c, col, rows)| == rows
    ensures forall i | 0 <= i < rows :: RowDrops(c, col, rows)[i] == DropCall(c, i, col.slots[i].value)
  {
    if rows > 0 {
      RowDropsExact(c, col, rows - 1);
    }
  }

  lemma {:induction false} ColumnDropsCover(s: ArchetypeState, k: nat)
    requires Settled(s) && k <= |s.columns|
    ensures forall d :: d in ColumnDrops(s, k) <==> d.column < k && LiveElement(s, d)
  {
    if k > 0 {
      ColumnDropsCover(s, k - 1);
      var prev, col := ColumnDrops(s, k - 1), s.columns[k - 1];
      if col.hasBuffer {
        var rows := RowDrops(k - 1, col, |s.entities|);
        RowDropsExact(k - 1, col, |s.entities|);
        assert ColumnDrops(s, k) == prev + rows;
        forall d: DropCall ensures d in prev + rows <==> d.column < k && LiveElement(s, d) {
          if d in rows {
            var i :| 0 <= i < |rows| && rows[i] == d;
          }
          if d.column == k - 1 && LiveElement(s, d) {
            assert rows[d.row] == d;
          }
        }
      }
    }
  }

  lemma {:induction false} ColumnDropsOrdered(s: ArchetypeState, k: nat)
    requires Settled(s) && k <= |s.columns|
    ensures forall i, j | 0 <= i < j < |ColumnDrops(s, k)| :: Before(ColumnDrops(s, k)[i], ColumnDrops(s, k)[j])
  {
    if k > 0 && s.columns[k - 1].hasBuffer {
      ColumnDropsOrdered(s, k - 1);
      ColumnDropsCover(s, k - 1);
      var prev, col := ColumnDrops(s, k - 1), s.columns[k - 1];
      var rows := RowDrops(k - 1, col, |s.entities|);
      RowDropsExact(k - 1, col, |s.entities|);
      assert ColumnDrops(s, k) == prev + rows;
      forall i, j | 0 <= i < j < |prev + rows| ensures Before((prev + rows)[i], (prev + rows)[j]) {
        if j >= |prev| && i < |prev| {
          assert prev[i] in prev;
        }
      }
    } else if k > 0 {
      ColumnDropsOrdered(s, k - 1);
    }
  }

  /**
   * The destructor runs exactly once on every live element: each call names an
   * owned column and an occupied row holding that value, every such element is
   * named, and calls are in strict column-major order, so none repeats.
   */
  lemma DropLogExact(s: ArchetypeState)
    requires Settled(s)
    ensures forall d :: d in DropLog(s) <==> LiveElement(s, d)
    ensures forall i, j | 0 <= i < j < |DropLog(s)| :: Before(DropLog(s)[i], DropLog(s)[j])
  {
    ColumnDropsCover(s, |s.columns|);
    ColumnDropsOrdered(s, |s.columns|);
  }

  class Archetype {
    var index: map<TypeId, nat>
    var componentTypes: seq<TypeInfo>
    var columns: seq<Column>
    var capacity: nat
    var entities: seq<EntityId>

    function State(): ArchetypeState
      reads this
    {
      ArchetypeState(index, componentTypes, columns, capacity, entities)
    }

    predicate Valid()
      reads this
    {
      Wf(State())
    }

    /** The archetype built by `make_archetype`: no capacity, no rows, null columns. */
    constructor Empty(types: seq<TypeInfo>)
      requires SortedById(types)
      ensures Valid() && State() == EmptyState(types)
    {
      index := IndexOf(types);
      componentTypes := types;
      columns := seq(|types|, _ => NullColumn);
      capacity := 0;
      entities := [];
    }

    /** Allocate `cap` rows in every column of non-zero size; nothing when `cap` is 0. */
    method Alloc(cap: nat)
      requires Valid() && capacity == 0
      modifies this
      ensures Valid() && State() == Allocated(old(State()), cap)
    {
      if cap == 0 {
        return;
      }
      var c := 0;
      while c < |columns|
        invariant 0 <= c <= |columns| == |componentTypes|
        invariant index == old(index) && componentTypes == old(componentTypes)
        invariant entities == old(entities) && capacity == 0
        invariant forall k | 0 <= k < |columns| ::
                    columns[k] == if k < c then AllocColumn(old(columns[k]), componentTypes[k], cap) else old(columns[k])
      {
        if componentTypes[c].size != 0 {
          columns := columns[c := Column(true, Uninits(cap))];
        }
        c := c + 1;
      }
      capacity := cap;
    }

    /** Make room for at least `n` more rows, growing by `max(n, capacity / 2 + 1)`. */
    method Reserve(n: nat)
      requires Valid()
      modifies this
      ensures Valid() && State() == Reserved(old(State()), n)
    {
      if capacity - |entities| >= n {
        return;
      }
      if capacity == 0 {
        Alloc(n);
        return;
      }
      var next := capacity + Max(n, capacity / 2 + 1);
      var c := 0;
      while c < |columns|
        invariant 0 <= c <= |columns| == |componentTypes|
        invariant index == old(index) && componentTypes == old(componentTypes)
        invariant entities == old(entities) && capacity == old(capacity)
        invariant forall k | 0 <= k < |columns| ::
                    columns[k] == if k < c then Regrown(old(columns[k]), componentTypes[k], next) else old(columns[k])
      {
        if componentTypes[c].size != 0 {
          columns := columns[c := Column(true, columns[c].slots + Uninits(next - capacity))];
        }
        c := c + 1;
      }
      capacity := next;
    }

    /** Write `v` into row `entities.len()` of the column of type `id`. */
    method WriteToEnd(id: TypeId, v: Value)
      requires Valid() && id in index && |entities| < capacity
      modifies this
      ensures Valid() && State() == WrittenAt(old(State()), id, v)
    {
      IndexOfLookup(componentTypes);
      var k := index[id];
      // A zero-sized value is written through a null pointer: no storage changes.
      if columns[k].hasBuffer {
        columns := columns[k := columns[k].(slots := columns[k].slots[|entities| := Init(v)])];
      }
    }

    /**
     * Store `f(entity, value)` through every reference a mutable query hands
     * out into the column of type `id`, one occupied row after another.
     */
    method UpdateRows(id: TypeId, f: (EntityId, Value) -> Value)
      requires Settled(State()) && id in index
      modifies this
      ensures State() == RowsUpdated(old(State()), id, f)
    {
      IndexOfLookup(componentTypes);
      var k := index[id];
      if columns[k].hasBuffer {
        ghost var before := columns[k].slots;
        assert |entities| <= |before| && forall j | 0 <= j < |entities| :: before[j].Init?;
        var i := 0;
        while i < |entities|
          invariant 0 <= i <= |entities| <= |before|
          invariant forall j | 0 <= j < |entities| :: before[j].Init?
          invariant entities == old(entities) && index == old(index) && componentTypes == old(componentTypes)
          invariant capacity == old(capacity)
          invariant k < |columns| == |old(columns)| && columns == old(columns)[k := columns[k]]
          invariant columns[k].hasBuffer && |columns[k].slots| == |before|
          invariant forall j | 0 <= j < |before| ::
                      columns[k].slots[j] == if j < i then Init(f(entities[j], before[j].value)) else before[j]
        {
          columns := columns[k := columns[k].(slots := columns[k].slots[i := Init(f(entities[i], columns[k].slots[i].value))])];
          i := i + 1;
        }
        assert columns[k].slots == RowsUpdated(old(State()), id, f).columns[k].slots;
      }
    }

    /**
     * `Drop for Archetype`: for every column with a buffer, run the destructor on
     * rows `0..entities.len()`, then release it. Returns the destructor calls made.
     */
    method Drop() returns (calls: seq<DropCall>)
      requires Valid() && Settled(State())
      ensures calls == DropLog(State())
    {
      calls := [];
      if capacity == 0 {
        return;
      }
      var c := 0;
      while c < |columns|
        invariant 0 <= c <= |columns|
        invariant calls == ColumnDrops(State(), c)
      {
        if columns[c].hasBuffer {
          var j := 0;
          while j < |entities|
            invariant 0 <= j <= |entities|
            invariant calls == ColumnDrops(State(), c) + RowDrops(c, columns[c], j)
          {
            calls := calls + [DropCall(c, j, columns[c].slots[j].value)];
            j := j + 1;
          }
        }
        c := c + 1;
      }
    }
  }
}
