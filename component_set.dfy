/**
 * Component groups: a bare component or a tuple of components. A group knows
 * its canonical signature (its type ids in ascending order), how to look that
 * signature up in a world's index, how to build an empty archetype for it and
 * how to write itself into one row of an archetype.
 */
module ComponentSets {
  import opened Lib
  import opened Wrappers
  import opened ArchetypeStorage

  /** One component value of a group, with its type's descriptor. */
  datatype Member = Member(info: TypeInfo, value: Value)

  /** A spawnable group: a bare component `T`, or a tuple `(A, B, ...)` in the caller's order. */
  datatype ComponentSet = Bare(component: Member) | Tuple(members: seq<Member>)

  /** The largest tuple the source implements `ComponentSet` for. */
  const MaxArity: nat := 14

  function Members(s: ComponentSet): seq<Member> {
    match s
    case Bare(m) => [m]
    case Tuple(ms) => ms
  }

  function InfosOf(ms: seq<Member>): (r: seq<TypeInfo>)
    ensures |r| == |ms| && forall i | 0 <= i < |ms| :: r[i] == ms[i].info
  {
    seq(|ms|, i requires 0 <= i < |ms| => ms[i].info)
  }

  predicate DistinctIds(ts: seq<TypeInfo>) {
    forall i, j | 0 <= i < j < |ts| :: ts[i].id != ts[j].id
  }

  /** The groups the model covers: arity 1 to 14, and no component type twice. */
  predicate WellFormed(s: ComponentSet) {
    1 <= |Members(s)| <= MaxArity && DistinctIds(InfosOf(Members(s)))
  }

  /** Some member of the group has type `id`. */
  predicate HasMember(s: ComponentSet, id: TypeId) {
    exists i | 0 <= i < |Members(s)| :: Members(s)[i].info.id == id
  }

  /** The `@~count` recursion of the tuple macro. */
  function Count(ms: seq<Member>): (n: nat)
    ensures n == |ms|
  {
    if |ms| == 0 then 0 else 1 + Count(ms[1..])
  }

  /** `COMPONENT_COUNT`: a bare component counts as the one-tuple `(T,)`. */
  function ComponentCount(s: ComponentSet): (n: nat)
    ensures n == |Members(s)|
    decreases if s.Bare? then 1 else 0
  {
    match s
    case Bare(m) => ComponentCount(Tuple([m]))
    case Tuple(ms) => Count(ms)
  }

  /** Prefixing a smaller id keeps a list sorted. */
  lemma SortedCons(head: TypeInfo, rest: seq<TypeInfo>)
    requires SortedById(rest) && forall y | y in rest :: head.id < y.id
    ensures SortedById([head] + rest)
  {
    forall i, j | 0 <= i < j < |[head] + rest| ensures ([head] + rest)[i].id < ([head] + rest)[j].id {
      assert rest[j - 1] in rest;
    }
  }

  /** Insert `x` into a list sorted by id. */
  function Insert(x: TypeInfo, ts: seq<TypeInfo>): (r: seq<TypeInfo>)
    requires SortedById(ts) && !HasId(ts, x.id)
    ensures SortedById(r) && multiset(r) == multiset(ts) + multiset{x}
  {
    if |ts| == 0 then [x]
    else if x.id < ts[0].id then
      InsertFront(x, ts);
      [x] + ts
    else
      NotHasIdTail(x, ts);
      var rest := Insert(x, ts[1..]);
      InsertBehind(x, ts, rest);
      [ts[0]] + rest
  }

  lemma InsertFront(x: TypeInfo, ts: seq<TypeInfo>)
    requires SortedById(ts) && |ts| > 0 && x.id < ts[0].id
    ensures SortedById([x] + ts)
  {
    forall y | y in ts ensures x.id < y.id {
      var k :| 0 <= k < |ts| && ts[k] == y;
      assert k == 0 || ts[0].id < ts[k].id;
    }
    SortedCons(x, ts);
  }

  /** Facts for the case where `x` goes after the head of `ts`. */
  lemma InsertBehind(x: TypeInfo, ts: seq<TypeInfo>, rest: seq<TypeInfo>)
    requires SortedById(ts) && !HasId(ts, x.id) && |ts| > 0 && ts[0].id < x.id
    requires SortedById(rest) && multiset(rest) == multiset(ts[1..]) + multiset{x}
    ensures SortedById([ts[0]] + rest) && multiset([ts[0]] + rest) == multiset(ts) + multiset{x}
  {
    var head, tail := ts[0], ts[1..];
    assert ts == [head] + tail;
    forall y | y in rest ensures head.id < y.id {
      assert y in multiset(rest);
      if y != x {
        assert y in multiset(tail);
        var k :| 0 <= k < |tail| && tail[k] == y;
        assert ts[k + 1] == y;
      }
    }
    SortedCons(head, rest);
    assert multiset([head] + rest) == multiset{head} + multiset(rest);
    assert multiset(ts) == multiset{head} + multiset(tail);
  }

  lemma NotHasIdTail(x: TypeInfo, ts: seq<TypeInfo>)
    requires |ts| > 0 && !HasId(ts, x.id)
    ensures !HasId(ts[1..], x.id)
  {
    forall k | 0 <= k < |ts| - 1 ensures ts[1..][k].id != x.id { assert ts[1..][k] == ts[k + 1]; }
  }

  /** Sorting by id (the reference for `sort_unstable_by_key(|info| info.id)`). */
  function SortById(ts: seq<TypeInfo>): (r: seq<TypeInfo>)
    requires DistinctIds(ts)
    ensures SortedById(r) && multiset(r) == multiset(ts)
  {
    if |ts| == 0 then []
    else
      assert ts == [ts[0]] + ts[1..];
      var rest := SortById(ts[1..]);
      assert !HasId(rest, ts[0].id) by {
        forall i | 0 <= i < |rest| ensures rest[i].id != ts[0].id {
          assert rest[i] in multiset(ts[1..]);
          var k :| 0 <= k < |ts| - 1 && ts[1..][k] == rest[i];
          assert ts[k + 1] == rest[i];
        }
      }
      Insert(ts[0], rest)
  }

  /** Two non-empty lists sorted by id with the same elements start alike. */
  lemma SortedPermutationHead(a: seq<TypeInfo>, b: seq<TypeInfo>)
    requires SortedById(a) && SortedById(b) && multiset(a) == multiset(b) && |a| > 0
    ensures |b| > 0 && a[0] == b[0]
  {
    assert a[0] in multiset(b) && b[0] in multiset(a);
    HeadIsLeast(a);
    HeadIsLeast(b);
  }

  /** The head of a list sorted by id has the least id, and is the only element with it. */
  lemma HeadIsLeast(a: seq<TypeInfo>)
    requires SortedById(a) && |a| > 0
    ensures forall y | y in a :: a[0].id <= y.id && (y.id == a[0].id ==> y == a[0])
  {
    forall y | y in a ensures a[0].id <= y.id && (y.id == a[0].id ==> y == a[0]) {
      var k :| 0 <= k < |a| && a[k] == y;
      assert k == 0 || a[0].id < a[k].id;
    }
  }

  /** Removing the same first element keeps the multisets equal. */
  lemma TailMultiset(a: seq<TypeInfo>, b: seq<TypeInfo>)
    requires |a| > 0 && |b| > 0 && a[0] == b[0] && multiset(a) == multiset(b)
    ensures multiset(a[1..]) == multiset(b[1..])
  {
    assert a == [a[0]] + a[1..] && b == [b[0]] + b[1..];
    assert multiset(a[1..]) == multiset(a) - multiset{a[0]};
    assert multiset(b[1..]) == multiset(b) - multiset{b[0]};
  }

  /** Two lists sorted by id with the same elements are the same list. */
  lemma {:induction false} SortedPermutationUnique(a: seq<TypeInfo>, b: seq<TypeInfo>)
    requires SortedById(a) && SortedById(b) && multiset(a) == multiset(b)
    ensures a == b
  {
    if |a| == 0 {
      assert |multiset(b)| == 0;
    } else {
      SortedPermutationHead(a, b);
      TailMultiset(a, b);
      SortedPermutationUnique(a[1..], b[1..]);
      assert a == [a[0]] + a[1..] && b == [b[0]] + b[1..];
    }
  }

  /** `component_infos`: the members' type descriptors sorted by id. */
  function ComponentInfos(s: ComponentSet): (r: seq<TypeInfo>)
    requires WellFormed(s)
    ensures SortedById(r) && multiset(r) == multiset(InfosOf(Members(s)))
    decreases if s.Bare? then 1 else 0
  {
    match s
    case Bare(m) => ComponentInfos(Tuple([m]))
    case Tuple(ms) => SortById(InfosOf(ms))
  }

  /** The sorted descriptors name exactly the members' types. */
  lemma ComponentInfosMembers(s: ComponentSet)
    requires WellFormed(s)
    ensures |ComponentInfos(s)| == |Members(s)|
    ensures forall id :: HasId(ComponentInfos(s), id) <==> HasMember(s, id)
  {
    var r, infos := ComponentInfos(s), InfosOf(Members(s));
    assert |r| == |multiset(r)| == |multiset(infos)| == |infos|;
    forall id ensures HasId(r, id) <==> HasMember(s, id) {
      if HasId(r, id) {
        var i :| 0 <= i < |r| && r[i].id == id;
        assert r[i] in multiset(infos);
        var j :| 0 <= j < |infos| && infos[j] == r[i];
      }
      if HasMember(s, id) {
        var j :| 0 <= j < |Members(s)| && Members(s)[j].info.id == id;
        assert infos[j] in multiset(r);
        var i :| 0 <= i < |r| && r[i] == infos[j];
      }
    }
  }

  /**
   * The signature does not depend on the order the caller wrote the members
   * in: groups with the same members have the same sorted descriptors.
   */
  lemma ComponentInfosOrderIndependent(s1: ComponentSet, s2: ComponentSet)
    requires WellFormed(s1) && WellFormed(s2)
    requires multiset(InfosOf(Members(s1))) == multiset(InfosOf(Members(s2)))
    ensures ComponentInfos(s1) == ComponentInfos(s2)
  {
    SortedPermutationUnique(ComponentInfos(s1), ComponentInfos(s2));
  }

  /** `component_ids`: the signature, the ids of `component_infos` in the same order. */
  function ComponentIds(s: ComponentSet): (ids: seq<TypeId>)
    requires WellFormed(s)
    ensures ids == IdsOf(ComponentInfos(s)) && |ids| == |Members(s)|
    ensures forall i, j | 0 <= i < j < |ids| :: ids[i] < ids[j]
    ensures forall id :: id in ids <==> HasMember(s, id)
  {
    ComponentInfosMembers(s);
    var ids := IdsOf(ComponentInfos(s));
    assert forall id :: id in ids <==> HasId(ComponentInfos(s), id) by {
      forall id | HasId(ComponentInfos(s), id) ensures id in ids {
        var i :| 0 <= i < |ComponentInfos(s)| && ComponentInfos(s)[i].id == id;
        assert ids[i] == id;
      }
    }
    ids
  }

  /** `get_index`: the archetype index stored under the group's signature. */
  function GetIndex(s: ComponentSet, index: map<seq<TypeId>, nat>): (r: Option<nat>)
    requires WellFormed(s)
    ensures r.Some? <==> ComponentIds(s) in index
    ensures r.Some? ==> r.value == index[ComponentIds(s)]
  {
    var ids := IdsOf(ComponentInfos(s));
    if ids in index then Some(index[ids]) else None
  }

  /** Groups with the same members find the same archetype, whatever their order. */
  lemma GetIndexOrderIndependent(s1: ComponentSet, s2: ComponentSet, index: map<seq<TypeId>, nat>)
    requires WellFormed(s1) && WellFormed(s2)
    requires multiset(InfosOf(Members(s1))) == multiset(InfosOf(Members(s2)))
    ensures GetIndex(s1, index) == GetIndex(s2, index)
  {
    ComponentInfosOrderIndependent(s1, s2);
  }

  /** `make_archetype`: an empty archetype whose columns follow the signature's order. */
  method MakeArchetype(s: ComponentSet) returns (a: Archetype)
    requires WellFormed(s)
    ensures fresh(a) && a.State() == EmptyState(ComponentInfos(s))
  {
    a := new Archetype.Empty(ComponentInfos(s));
  }

  /** The value the group holds for type `id` (the last such member). */
  function ValueOf(ms: seq<Member>, id: TypeId): Option<Value> {
    if |ms| == 0 then None
    else if ms[|ms| - 1].info.id == id then Some(ms[|ms| - 1].value)
    else ValueOf(ms[..|ms| - 1], id)
  }

  /** Successive `write_to_end` calls, one per member in the caller's order. */
  function WriteMembers(st: ArchetypeState, ms: seq<Member>): (r: ArchetypeState)
    requires Wf(st) && |st.entities| < st.capacity
    requires forall i | 0 <= i < |ms| :: ms[i].info.id in st.index
    ensures Wf(r) && SameShape(r, st) && r.capacity == st.capacity
  {
    if |ms| == 0 then st
    else
      var last := ms[|ms| - 1];
      WrittenAt(WriteMembers(st, ms[..|ms| - 1]), last.info.id, last.value)
  }

  /** One `write_to_end` touches only the column of its own type. */
  lemma WrittenAtColumn(prev: ArchetypeState, id: TypeId, v: Value, c: nat)
    requires Wf(prev) && id in prev.index && |prev.entities| < prev.capacity && c < |prev.columns|
    ensures WrittenAt(prev, id, v).columns[c]
              == if prev.componentTypes[c].id == id then WriteSlot(prev.columns[c], |prev.entities|, v)
                 else prev.columns[c]
  {
    IndexOfLookup(prev.componentTypes);
    assert prev.index[prev.componentTypes[c].id] == c;
  }

  /**
   * After the writes, each column whose type the group holds has that value
   * in row `entities.len()`, and every other column is untouched.
   */
  lemma {:induction false} WriteMembersColumn(st: ArchetypeState, ms: seq<Member>, c: nat)
    requires Wf(st) && |st.entities| < st.capacity && c < |st.columns|
    requires forall i | 0 <= i < |ms| :: ms[i].info.id in st.index
    ensures WriteMembers(st, ms).columns[c]
              == match ValueOf(ms, st.componentTypes[c].id)
                 case None => st.columns[c]
                 case Some(v) => WriteSlot(st.columns[c], |st.entities|, v)
  {
    if |ms| > 0 {
      var init, last := ms[..|ms| - 1], ms[|ms| - 1];
      WriteMembersColumn(st, init, c);
      var prev := WriteMembers(st, init);
      WrittenAtColumn(prev, last.info.id, last.value, c);
      ColumnStep(st.columns[c], prev.columns[c], WriteMembers(st, ms).columns[c], |st.entities|,
                 ValueOf(init, st.componentTypes[c].id), st.componentTypes[c].id, last.info.id, last.value);
    }
  }

  /** Writing `v` for type `id` over a column that already holds the earlier writes. */
  lemma ColumnStep(col: Column, prev: Column, next: Column, row: nat, vo: Option<Value>, tid: TypeId, id: TypeId, v: Value)
    requires col.hasBuffer ==> row < |col.slots|
    requires prev == match vo case None => col case Some(w) => WriteSlot(col, row, w)
    requires next == if tid == id then WriteSlot(prev, row, v) else prev
    ensures next == match (if tid == id then Some(v) else vo)
                    case None => col
                    case Some(w) => WriteSlot(col, row, w)
  {
    if tid == id && col.hasBuffer && vo.Some? {
      assert col.slots[row := Init(vo.value)][row := Init(v)] == col.slots[row := Init(v)];
    }
  }

  lemma WriteMembersEffect(st: ArchetypeState, ms: seq<Member>)
    requires Wf(st) && |st.entities| < st.capacity
    requires forall i | 0 <= i < |ms| :: ms[i].info.id in st.index
    ensures forall c | 0 <= c < |st.columns| ::
              WriteMembers(st, ms).columns[c]
                == match ValueOf(ms, st.componentTypes[c].id)
                   case None => st.columns[c]
                   case Some(v) => WriteSlot(st.columns[c], |st.entities|, v)
  {
    forall c | 0 <= c < |st.columns|
      ensures WriteMembers(st, ms).columns[c]
                == match ValueOf(ms, st.componentTypes[c].id)
                   case None => st.columns[c]
                   case Some(v) => WriteSlot(st.columns[c], |st.entities|, v)
    {
      WriteMembersColumn(st, ms, c);
    }
  }

  /** `write_archetype`: reserve `COMPONENT_COUNT` rows, then write every member. */
  function WrittenState(st: ArchetypeState, s: ComponentSet): (r: ArchetypeState)
    requires Wf(st) && WellFormed(s)
    requires forall i | 0 <= i < |Members(s)| :: Members(s)[i].info.id in st.index
    ensures Wf(r) && r.entities == st.entities
  {
    WriteMembers(Reserved(st, ComponentCount(s)), Members(s))
  }

  lemma {:induction false} ValueOfMember(ms: seq<Member>, i: nat)
    requires i < |ms| && DistinctIds(InfosOf(ms))
    ensures ValueOf(ms, ms[i].info.id) == Some(ms[i].value)
  {
    if i < |ms| - 1 {
      assert InfosOf(ms[..|ms| - 1]) == InfosOf(ms)[..|ms| - 1];
      ValueOfMember(ms[..|ms| - 1], i);
    }
  }

  lemma {:induction false} ValueOfAbsent(ms: seq<Member>, id: TypeId)
    requires forall i | 0 <= i < |ms| :: ms[i].info.id != id
    ensures ValueOf(ms, id) == None
  {
    if |ms| > 0 {
      ValueOfAbsent(ms[..|ms| - 1], id);
    }
  }

  /** With distinct ids, the value found for a type does not depend on the members' order. */
  lemma ValueOfPermuted(ms1: seq<Member>, ms2: seq<Member>, id: TypeId)
    requires DistinctIds(InfosOf(ms1)) && DistinctIds(InfosOf(ms2)) && multiset(ms1) == multiset(ms2)
    ensures ValueOf(ms1, id) == ValueOf(ms2, id)
  {
    if exists i | 0 <= i < |ms1| :: ms1[i].info.id == id {
      var i :| 0 <= i < |ms1| && ms1[i].info.id == id;
      assert ms1[i] in multiset(ms2);
      var j :| 0 <= j < |ms2| && ms2[j] == ms1[i];
      ValueOfMember(ms1, i);
      ValueOfMember(ms2, j);
    } else {
      ValueOfAbsent(ms1, id);
      forall j | 0 <= j < |ms2| ensures ms2[j].info.id != id {
        assert ms2[j] in multiset(ms1);
      }
      ValueOfAbsent(ms2, id);
    }
  }

  lemma InfosOfConcat(a: seq<Member>, b: seq<Member>)
    ensures InfosOf(a + b) == InfosOf(a) + InfosOf(b)
  {
  }

  /** Reordering the members reorders their infos. */
  lemma {:induction false} InfosPermuted(ms1: seq<Member>, ms2: seq<Member>)
    requires multiset(ms1) == multiset(ms2)
    ensures multiset(InfosOf(ms1)) == multiset(InfosOf(ms2))
  {
    if |ms1| > 0 {
      var x := ms1[0];
      assert x in multiset(ms2);
      var j :| 0 <= j < |ms2| && ms2[j] == x;
      var rest := ms2[..j] + ms2[j + 1..];
      RemovedBoth(ms1, ms2, j);
      InfosPermuted(ms1[1..], rest);
      InfosRemoved(ms1, ms2, j);
    } else {
      assert |ms2| == |multiset(ms2)| == 0;
    }
  }

  /** Taking the first member off one list and the same member off the other keeps them permutations. */
  lemma RemovedBoth(ms1: seq<Member>, ms2: seq<Member>, j: nat)
    requires multiset(ms1) == multiset(ms2) && |ms1| > 0 && j < |ms2| && ms2[j] == ms1[0]
    ensures multiset(ms1[1..]) == multiset(ms2[..j] + ms2[j + 1..])
  {
    var x := ms1[0];
    assert ms1 == [x] + ms1[1..];
    assert ms2 == ms2[..j] + [x] + ms2[j + 1..];
    var before, after, one := multiset(ms1[1..]), multiset(ms2[..j] + ms2[j + 1..]), multiset([x]);
    calc {
      before + one;
      multiset(ms1);
      multiset(ms2);
      multiset(ms2[..j]) + one + multiset(ms2[j + 1..]);
      after + one;
    }
    forall y ensures before[y] == after[y] {
      assert (before + one)[y] == (after + one)[y];
    }
  }

  /** The infos of both lists, split around the member taken off. */
  lemma InfosRemoved(ms1: seq<Member>, ms2: seq<Member>, j: nat)
    requires |ms1| > 0 && j < |ms2| && ms2[j] == ms1[0]
    requires multiset(InfosOf(ms1[1..])) == multiset(InfosOf(ms2[..j] + ms2[j + 1..]))
    ensures multiset(InfosOf(ms1)) == multiset(InfosOf(ms2))
  {
    var x := ms1[0];
    assert ms1 == [x] + ms1[1..];
    assert ms2 == ms2[..j] + [x] + ms2[j + 1..];
    InfosOfConcat([x], ms1[1..]);
    InfosOfConcat(ms2[..j] + [x], ms2[j + 1..]);
    InfosOfConcat(ms2[..j], [x]);
    InfosOfConcat(ms2[..j], ms2[j + 1..]);
  }

  /** `write_archetype` gives the same archetype whatever the order the group lists its members in. */
  lemma WrittenStatePermuted(st: ArchetypeState, s1: ComponentSet, s2: ComponentSet)
    requires Wf(st) && WellFormed(s1) && WellFormed(s2) && multiset(Members(s1)) == multiset(Members(s2))
    requires forall i | 0 <= i < |Members(s1)| :: Members(s1)[i].info.id in st.index
    ensures forall i | 0 <= i < |Members(s2)| :: Members(s2)[i].info.id in st.index
    ensures WrittenState(st, s1) == WrittenState(st, s2)
  {
    forall i | 0 <= i < |Members(s2)| ensures Members(s2)[i].info.id in st.index {
      assert Members(s2)[i] in multiset(Members(s1));
    }
    assert |Members(s1)| == |multiset(Members(s1))| == |Members(s2)|;
    WriteMembersPermuted(Reserved(st, ComponentCount(s1)), Members(s1), Members(s2));
  }

  /** The successive writes of distinct types commute. */
  lemma WriteMembersPermuted(st: ArchetypeState, ms1: seq<Member>, ms2: seq<Member>)
    requires Wf(st) && |st.entities| < st.capacity
    requires DistinctIds(InfosOf(ms1)) && DistinctIds(InfosOf(ms2)) && multiset(ms1) == multiset(ms2)
    requires forall i | 0 <= i < |ms1| :: ms1[i].info.id in st.index
    requires forall i | 0 <= i < |ms2| :: ms2[i].info.id in st.index
    ensures WriteMembers(st, ms1) == WriteMembers(st, ms2)
  {
    var r1, r2 := WriteMembers(st, ms1), WriteMembers(st, ms2);
    forall c | 0 <= c < |st.columns| ensures r1.columns[c] == r2.columns[c] {
      WriteMembersPermutedColumn(st, ms1, ms2, c);
    }
    assert |r1.columns| == |r2.columns| == |st.columns|;
  }

  lemma WriteMembersPermutedColumn(st: ArchetypeState, ms1: seq<Member>, ms2: seq<Member>, c: nat)
    requires Wf(st) && |st.entities| < st.capacity && c < |st.columns|
    requires DistinctIds(InfosOf(ms1)) && DistinctIds(InfosOf(ms2)) && multiset(ms1) == multiset(ms2)
    requires forall i | 0 <= i < |ms1| :: ms1[i].info.id in st.index
    requires forall i | 0 <= i < |ms2| :: ms2[i].info.id in st.index
    ensures WriteMembers(st, ms1).columns[c] == WriteMembers(st, ms2).columns[c]
  {
    WriteMembersColumn(st, ms1, c);
    WriteMembersColumn(st, ms2, c);
    ValueOfPermuted(ms1, ms2, st.componentTypes[c].id);
  }

  /**
   * `write_archetype` keeps everything that was there: the entity list, the
   * types and every row already occupied; and it leaves room for the group.
   */
  lemma WrittenStateKeeps(st: ArchetypeState, s: ComponentSet)
    requires Settled(st) && WellFormed(s)
    requires forall i | 0 <= i < |Members(s)| :: Members(s)[i].info.id in st.index
    ensures var r := WrittenState(st, s);
      && r.entities == st.entities && r.componentTypes == st.componentTypes && r.index == st.index
      && r.capacity - |st.entities| >= ComponentCount(s) && r.capacity >= st.capacity
      && (forall c, k | 0 <= c < |st.columns| && st.columns[c].hasBuffer && 0 <= k < |st.entities| ::
            c < |r.columns| && k < |r.columns[c].slots| && r.columns[c].slots[k] == st.columns[c].slots[k])
  {
    forall c, k | 0 <= c < |st.columns| && st.columns[c].hasBuffer && 0 <= k < |st.entities| {
      WrittenStateKeepsRow(st, s, c, k);
    }
  }

  /** One occupied row of one buffer, as kept by `write_archetype`. */
  lemma WrittenStateKeepsRow(st: ArchetypeState, s: ComponentSet, c: nat, k: nat)
    requires Settled(st) && WellFormed(s)
    requires forall i | 0 <= i < |Members(s)| :: Members(s)[i].info.id in st.index
    requires c < |st.columns| && st.columns[c].hasBuffer && k < |st.entities|
    ensures var r := WrittenState(st, s);
      c < |r.columns| && k < |r.columns[c].slots| && r.columns[c].slots[k] == st.columns[c].slots[k]
  {
    var grown := Reserved(st, ComponentCount(s));
    WriteMembersColumn(grown, Members(s), c);
    SlotKept(grown.columns[c], |st.entities|, ValueOf(Members(s), st.componentTypes[c].id), k);
  }

  /** Writing row `row` of a column leaves every other row as it was. */
  lemma SlotKept(col: Column, row: nat, vo: Option<Value>, k: nat)
    requires col.hasBuffer && row < |col.slots| && k < row
    ensures var after := match vo case None => col case Some(v) => WriteSlot(col, row, v);
      after.hasBuffer && k < |after.slots| && after.slots[k] == col.slots[k]
  {
  }

  /** Row `entities.len()` of each column with a buffer receives the member of that column's type. */
  lemma WrittenStateRow(st: ArchetypeState, s: ComponentSet, c: nat, i: nat)
    requires Settled(st) && WellFormed(s)
    requires forall j | 0 <= j < |Members(s)| :: Members(s)[j].info.id in st.index
    requires c < |st.columns| && i < |Members(s)| && Members(s)[i].info.id == st.componentTypes[c].id
    ensures var r := WrittenState(st, s);
      r.columns[c].hasBuffer ==>
        |st.entities| < |r.columns[c].slots| && r.columns[c].slots[|st.entities|] == Init(Members(s)[i].value)
  {
    var grown := Reserved(st, ComponentCount(s));
    WriteMembersColumn(grown, Members(s), c);
    ValueOfMember(Members(s), i);
  }

  /**
   * When the group covers every type of the archetype, appending one handle
   * after the write leaves every occupied row of every buffer written.
   */
  lemma WrittenStateSettles(st: ArchetypeState, s: ComponentSet, e: EntityId)
    requires Settled(st) && WellFormed(s)
    requires forall i | 0 <= i < |Members(s)| :: Members(s)[i].info.id in st.index
    requires forall c | 0 <= c < |st.componentTypes| :: HasMember(s, st.componentTypes[c].id)
    ensures Settled(WrittenState(st, s).(entities := st.entities + [e]))
  {
    var r := WrittenState(st, s);
    forall c, k | 0 <= c < |r.columns| && r.columns[c].hasBuffer && 0 <= k <= |st.entities| {
      WrittenSlotInit(st, s, c, k);
    }
  }

  /** Row `k` of buffer `c` holds a value after `write_archetype`, for every `k` up to the new row. */
  lemma WrittenSlotInit(st: ArchetypeState, s: ComponentSet, c: nat, k: nat)
    requires Settled(st) && WellFormed(s)
    requires forall i | 0 <= i < |Members(s)| :: Members(s)[i].info.id in st.index
    requires forall c | 0 <= c < |st.componentTypes| :: HasMember(s, st.componentTypes[c].id)
    requires c < |st.columns| && k <= |st.entities|
    ensures var r := WrittenState(st, s);
      r.columns[c].hasBuffer ==> k < |r.columns[c].slots| && r.columns[c].slots[k].Init?
  {
    if k < |st.entities| {
      if st.columns[c].hasBuffer {
        WrittenStateKeepsRow(st, s, c, k);
      } else {
        WrittenStateKeeps(st, s);
      }
    } else {
      var i :| 0 <= i < |Members(s)| && Members(s)[i].info.id == st.componentTypes[c].id;
      WrittenStateRow(st, s, c, i);
    }
  }

  /** `write_archetype` on an archetype whose types include every member's. */
  method WriteArchetype(s: ComponentSet, a: Archetype)
    requires a.Valid() && WellFormed(s)
    requires forall i | 0 <= i < |Members(s)| :: Members(s)[i].info.id in a.index
    modifies a
    ensures a.Valid() && a.State() == WrittenState(old(a.State()), s)
    decreases if s.Bare? then 1 else 0
  {
    match s
    case Bare(m) =>
      WriteArchetype(Tuple([m]), a);
    case Tuple(ms) =>
      a.Reserve(ComponentCount(s));
      WriteEach(ms, a);
  }

  /** The `write_to_end` statements of `write_archetype`, one per member in order. */
  method WriteEach(ms: seq<Member>, a: Archetype)
    requires a.Valid() && |a.entities| + |ms| <= a.capacity
    requires forall i | 0 <= i < |ms| :: ms[i].info.id in a.index
    modifies a
    ensures a.Valid() && (|ms| > 0 ==> a.State() == WriteMembers(old(a.State()), ms))
    ensures |ms| == 0 ==> a.State() == old(a.State())
  {
    var k := 0;
    while k < |ms|
      invariant 0 <= k <= |ms|
      invariant a.Valid() && SameShape(a.State(), old(a.State())) && a.capacity == old(a.capacity)
      invariant k > 0 ==> a.State() == WriteMembers(old(a.State()), ms[..k])
      invariant k == 0 ==> a.State() == old(a.State())
    {
      assert ms[..k + 1][..k] == ms[..k];
      a.WriteToEnd(ms[k].info.id, ms[k].value);
      k := k + 1;
    }
    assert ms[..k] == ms;
  }

  /** A bare component behaves exactly as the one-tuple holding it. */
  lemma BareIsOneTuple(m: Member, st: ArchetypeState)
    requires Wf(st) && m.info.id in st.index
    ensures ComponentCount(Bare(m)) == ComponentCount(Tuple([m])) == 1
    ensures ComponentInfos(Bare(m)) == ComponentInfos(Tuple([m])) == [m.info]
    ensures WrittenState(st, Bare(m)) == WrittenState(st, Tuple([m]))
  {
  }
}
