# tecs: a verified model of an archetype entity-component store

This project models the core of `tecs`, a small archetype-based
entity-component store written in Rust, and proves properties of the model.
Entities are plain handles `0, 1, 2, …`, handed out in spawn order. A
*component group* is a bare component or a tuple of components; the model
covers groups whose types are distinct. Every group is stored in the *archetype* of its *signature*, which is
the group's type ids sorted in ascending order. An archetype holds one column
per component type, in signature order. It also has a shared row capacity and
the list of handles occupying its rows. A *query* walks the archetypes in
index order. It keeps those that have rows and hold every requested type, and
yields one item per row.

The model has these modules:

- `Lib` (`lib.dfy`): the handle type and the `Location` record.
- `ArchetypeStorage` (`archetype.rs`):
  - type descriptors and their id-only equality and order;
  - binary-search `contains`;
  - the `Archetype` class, whose `alloc`, `reserve`, `write_to_end` and
    destructor sweep are written as loops over columns and rows and proved
    against pure functions on an `ArchetypeState` snapshot.
  - Raw buffers are modelled as sequences of `Slot`s. A column of a
    zero-sized type never owns a buffer.
- `ComponentSets` (`component_set.rs`):
  - canonical signatures (a sort by id, proved unique);
  - `component_ids` and `get_index`;
  - `make_archetype`;
  - `write_archetype`, as a method that reserves and then writes each member
    with a loop;
  - the bare-component and one-tuple equivalence.
- `Queries` (`query.rs`):
  - every query shape as a pure function from the archetype list to its
    output: `&T`, `(Entity, &A, …)` with its zip and `@map` flattening, and
    `(&A, …)`;
  - the rows the `&mut T` and `(Entity, &mut T)` queries hand out;
  - the archetype list after a store has been made through each of those
    references.
- `Worlds` (`world.rs`):
  - the `World` class, whose `Spawn` is imperative (lookup or create, record
    the location, write, push the handle);
  - `Spawn` proved equal to the pure `SpawnState`, which keeps the world
    invariant;
  - `UpdateQueried`, the loop a caller of `query_mut` runs.
- `Simple` (`simple.rs`): the hand-written world with three fixed archetypes,
  its three `spawn_*` methods and its chained views.
- `Scenarios` (the tests in `lib.rs`): each test's run of spawns and queries,
  worked out on the model. To get there, a general theorem reduces any query
  on a world spawned from scratch to a per-archetype summary that each spawn
  updates.

Component values are modelled as an opaque `Value`:

- `Text` for `&'static str`;
- `Number` for the integer and float payloads of the tests;
- `Unit` for the placeholder a zero-sized column is read through.

Type ids are integers, and the world's index is a `map<seq<TypeId>, nat>`.

## Model

| member | source | states |
|---|---|---|
| ArchetypeStorage.CompareIgnoresLayout | src/archetype.rs:11-29 | equality and ordering of two type descriptors depend only on their ids, never on layout or destructor; two descriptors are equal exactly when `cmp` says `Equal` |
| ArchetypeStorage.CompareIsTotalOrder | src/archetype.rs:25-29 | the id order on descriptors is antisymmetric and transitive |
| ArchetypeStorage.BinarySearch | src/archetype.rs:61-65 | on a list sorted by id, binary search finds an id exactly when some descriptor in the list has that id |
| ArchetypeStorage.ContainsType | src/archetype.rs:60-65 | on a well-formed archetype, `contains` is true exactly when the id is a key of the archetype's index and exactly when a column has that type |
| ArchetypeStorage.IndexOfLookup | src/component_set.rs:37 | the index built from a sorted type list has exactly the list's ids as keys and maps each id to its position |
| ArchetypeStorage.EmptyState | src/component_set.rs:32-42 | the archetype `make_archetype` builds: capacity 0, no handles, one null column per type, the given sorted types, and an index from each id to its position |
| ArchetypeStorage.Archetype.Empty | src/component_set.rs:32-42 | the constructed archetype is valid and its fields are `EmptyState` of the sorted types |
| ArchetypeStorage.Allocated | src/archetype.rs:75-105 | `alloc(cap)` on an unallocated archetype gives capacity `cap`, keeps types, index and handles, gives each non-zero-sized column a buffer of `cap` unwritten slots and leaves zero-sized columns null; `alloc(0)` changes nothing |
| ArchetypeStorage.Archetype.Alloc | src/archetype.rs:75-105 | the loop over columns leaves the archetype valid and equal to `Allocated` of its old state |
| ArchetypeStorage.Reserved | src/archetype.rs:107-152 | after `reserve(n)` the free rows cover `n` and capacity has not decreased; the archetype stays well formed with the same types, index and handles; every slot of an existing buffer keeps its value; if every occupied row was written, it still is |
| ArchetypeStorage.ReservePolicy | src/archetype.rs:110-120 | the three branches of `reserve`: no change when the slack suffices; exactly `n` rows when unallocated; otherwise `capacity + max(n, capacity / 2 + 1)`, which exceeds `capacity + capacity / 2` |
| ArchetypeStorage.Archetype.Reserve | src/archetype.rs:107-152 | the realloc loop over columns leaves the archetype valid and equal to `Reserved` of its old state |
| ArchetypeStorage.WrittenAt | src/archetype.rs:154-161 | `write_to_end` sets row `entities.len()` of the type's column to the value when that column has a buffer; all other columns, rows, capacity, types and handles stay the same |
| ArchetypeStorage.Archetype.WriteToEnd | src/archetype.rs:154-161 | the in-place write leaves the archetype valid and equal to `WrittenAt` of its old state |
| ArchetypeStorage.RowsUpdated | src/query.rs:87-107 | stores through the `&mut T` references change only the column of `T`, and only when it owns a buffer; handles, types, capacity and every other column are unchanged, and every occupied row is still written |
| ArchetypeStorage.Archetype.UpdateRows | src/query.rs:64-108 | the loop over occupied rows leaves the archetype equal to `RowsUpdated` of its old state |
| ArchetypeStorage.RowDropsExact | src/archetype.rs:187-191 | the inner loop makes exactly one destructor call for each row `0..entities.len()` of a column, in row order, each with that row's value |
| ArchetypeStorage.ColumnDropsCover | src/archetype.rs:172-196 | the calls made for the first `k` columns are exactly the live elements of those columns: a column with a buffer, an occupied row, and the value stored there |
| ArchetypeStorage.ColumnDropsOrdered | src/archetype.rs:172-196 | those calls come in strict column-major order |
| ArchetypeStorage.DropLogExact | src/archetype.rs:164-197 | `Drop` runs the destructor exactly once on every live element and on nothing else, in strict column-major order; it makes no calls when capacity is 0 or a column has no buffer |
| ArchetypeStorage.Archetype.Drop | src/archetype.rs:164-197 | the nested loops return exactly the call log `DropLog` |
| ComponentSets.Count | src/component_set.rs:58-62 | the `@~count` recursion returns the number of members |
| ComponentSets.ComponentCount | src/component_set.rs:45-66 | `COMPONENT_COUNT` is the group's arity; a bare component counts 1, as the one-tuple does |
| ComponentSets.Insert | src/component_set.rs:83 | inserting a descriptor with a new id into a list sorted by id keeps the list sorted and adds exactly that element |
| ComponentSets.SortById | src/component_set.rs:83 | sorting by id gives a sorted permutation of the input |
| ComponentSets.SortedPermutationUnique | src/component_set.rs:83 | two lists sorted by id with the same elements are equal, so the result of the unstable sort is fully determined |
| ComponentSets.ComponentInfos | src/component_set.rs:77-85 | `component_infos` is sorted by id and is a permutation of the members' descriptors; a bare component goes through the one-tuple |
| ComponentSets.ComponentInfosMembers | src/component_set.rs:77-85 | the sorted descriptors have the group's arity and name exactly the members' types |
| ComponentSets.ComponentInfosOrderIndependent | src/component_set.rs:77-85 | groups with the same member types get the same sorted descriptors, whatever order the members were written in |
| ComponentSets.ComponentIds | src/component_set.rs:24-30 | `component_ids` is the id projection of `component_infos`: same length and order, strictly ascending, and containing exactly the members' type ids |
| ComponentSets.GetIndex | src/component_set.rs:14-22 | `get_index` returns the index's value for the sorted ids when that key is present, and `None` when it is absent |
| ComponentSets.GetIndexOrderIndependent | src/component_set.rs:14-22 | groups with the same member types find the same archetype, whatever their order |
| ComponentSets.MakeArchetype | src/component_set.rs:32-42 | `make_archetype` returns a fresh archetype equal to `EmptyState` of the group's sorted descriptors |
| ComponentSets.WriteMembers | src/component_set.rs:72-74 | the successive `write_to_end` calls keep the archetype well formed, with the same types, index, handles and capacity |
| ComponentSets.WriteMembersEffect | src/component_set.rs:72-74 | after those calls, each column whose type the group holds has that member's value at row `entities.len()`, and every other column is untouched |
| ComponentSets.WriteMembersPermuted | src/component_set.rs:72-74 | writes of distinct types commute: any order of the members gives the same archetype |
| ComponentSets.WrittenState | src/component_set.rs:68-75 | `write_archetype` (reserve `COMPONENT_COUNT` rows, then write every member) keeps the archetype well formed and its handle list unchanged |
| ComponentSets.WrittenStatePermuted | src/component_set.rs:68-75 | `write_archetype` gives the same archetype for every ordering of the group's members |
| ComponentSets.WrittenStateKeeps | src/component_set.rs:68-75 | `write_archetype` keeps types, index and handles; it leaves at least `COMPONENT_COUNT` free rows; capacity never decreases; every occupied row of every buffer keeps its value |
| ComponentSets.WrittenStateRow | src/component_set.rs:68-75 | row `entities.len()` of each column with a buffer receives the member of that column's type |
| ComponentSets.WrittenStateSettles | src/component_set.rs:68-75 | when the group covers every type of the archetype, appending the handle afterwards leaves every occupied row of every buffer written |
| ComponentSets.WriteArchetype | src/component_set.rs:68-75 | the method (bare components go through the one-tuple, then `reserve` and the member writes) leaves the archetype valid and equal to `WrittenState` of its old state |
| ComponentSets.WriteEach | src/component_set.rs:72-74 | the loop of `write_to_end` calls, given enough free rows, yields `WriteMembers` of the old state, or no change when there are no members |
| ComponentSets.BareIsOneTuple | src/component_set.rs:45-55 | a bare component has the count (1), the sorted descriptors and the write effect of the one-tuple holding it |
| Queries.MatchesSingleton | src/query.rs:180-186 | the tuple filter with one type is the filter of `&T` and `&mut T`: non-empty and containing the type |
| Queries.ColumnView | src/query.rs:50-57 | the slice of a column has `entities.len()` values; they are the stored values when the column has a buffer, and the placeholder otherwise |
| Queries.Columns | src/query.rs:191-211 | one slice per requested type, in the shape's order, each as long as the handle list |
| Queries.ZipAll | src/query.rs:188-212 | zipping the handles with equally long slices gives one nested pair per row |
| Queries.FlattenZipAll | src/query.rs:147-171 | `@map` after the zips gives, for row `i`, the head followed by row `i` of each slice, in the order the slices were zipped |
| Queries.EntityRows | src/query.rs:187-214 | a matching archetype yields exactly `entities.len()` items to `(Entity, &A, …)`; item `i` is `entities[i]` with row `i` of each requested column, in the shape's order |
| Queries.HeadRow | src/query.rs:233-255 | zipping the first slice with the rest and flattening gives the whole row |
| Queries.ComponentRows | src/query.rs:232-256 | a matching archetype yields to `(&A, …)` one row per handle: row `i` of each requested column, in order |
| Queries.QueryEntitySplit | src/query.rs:176-215 | the output of `(Entity, &A, …)` is what the archetypes before `a` yield, then `a`'s own items, then what the archetypes after `a` yield |
| Queries.QueryEntityMembership | src/query.rs:176-215 | an item is in the output exactly when it is row `i` of some archetype that has rows and holds every requested type, paired with that row's handle |
| Queries.QueryComponentsDropsHandle | src/query.rs:218-258 | `(&A, …)` yields as many rows as `(Entity, &A, …)`, and its `p`-th row is the components of the `p`-th item of `(Entity, &A, …)` |
| Queries.MutRowsReadRef | src/query.rs:41-108 | the `p`-th reference handed out by `&mut T` or `(Entity, &mut T)` names the archetype and row the `p`-th value of `&T` was read from |
| Queries.MutRowsReadEntity | src/query.rs:64-85 | `(Entity, &mut T)` yields as many items as `&T`; the `p`-th is the handle of the `p`-th referenced row together with the `p`-th value of `&T` |
| Queries.Updated | src/query.rs:64-108 | after the stores, every archetype keeps its handles, types, index and capacity and stays settled; only archetypes matching `T` are touched |
| Queries.UpdatedColumnView | src/query.rs:87-107 | after the stores, only the slice of `T` changes, and only when it has storage: its `i`-th value becomes `f(entities[i], old value)` |
| Queries.UpdatedReads | src/query.rs:87-107 | a later mutable query hands out the same rows; the value `&T` reads at each is `f(handle, old value)`, or still the placeholder where `T` is zero-sized |
| Queries.UpdatedKeepsOtherQueries | src/query.rs:64-108 | a query that does not ask for `T` sees nothing of the stores |
| Worlds.EmptyWorld | src/world.rs:7-12 | the default world has no archetypes, no locations and an empty index, and satisfies the world invariant |
| Worlds.World.constructor | src/world.rs:7-12 | `World::default()` is valid and equal to `EmptyWorld` |
| Worlds.Choose | src/world.rs:20-31 | the lookup picks a settled archetype whose sorted type ids are the group's signature |
| Worlds.ChooseCases | src/world.rs:20-31 | a known signature reuses its indexed archetype, with list and index unchanged; a new signature appends an empty archetype built from the sorted descriptors and indexes it at the old archetype count |
| Worlds.Filled | src/world.rs:40-43 | after `write_archetype` and the handle push, the chosen archetype is still settled, has the same types, and its handle list ends with the new handle |
| Worlds.FilledRow | src/world.rs:40-43 | the new row holds each member's value in the column of its type (when that column has a buffer), and every earlier occupied row keeps its value |
| Worlds.FilledAppended | src/world.rs:40-43 | the filled archetype is the old one with one row appended for the new handle: same types and index, old rows kept, and the group's value in each buffer at the new row |
| Worlds.Place | src/world.rs:33-43 | storing the filled archetype and recording the location appends exactly one location; it names the chosen archetype and that archetype's old row count, and no other archetype changes |
| Worlds.PlacePreservesWf | src/world.rs:33-43 | placing a fitting archetype at the lookup's choice keeps the world invariant |
| Worlds.SpawnChoosesArchetype | src/world.rs:20-31 | a known signature adds no archetype, leaves the index alone and reuses the indexed archetype; a new signature appends exactly one archetype with the sorted descriptors at position `old archetypes.len()` and indexes it there |
| Worlds.SpawnRecords | src/world.rs:17-46 | a spawn appends exactly one location; its entity index is the chosen archetype's old row count; that archetype's handle list grows by exactly the new handle `old locations.len()`; every other archetype is unchanged |
| Worlds.SpawnCountsHandles | src/world.rs:39 | each spawn adds exactly one location |
| Worlds.SpawnKeepsArchetypeCount | src/world.rs:20-21 | a spawn into a known signature adds no archetype |
| Worlds.SpawnKeepsSignatures | src/world.rs:17-46 | a spawn never changes the type list of an existing archetype |
| Worlds.SpawnPermuted | src/world.rs:17-46 | spawning a group gives the same world whatever the order its members are written in |
| Worlds.SpawnWritesRow | src/world.rs:33-43 | the row the new location names holds each member's value in the column of its type, and the reused archetype keeps every earlier row |
| Worlds.SpawnPreservesWf | src/world.rs:17-46 | `spawn` preserves the world invariant: every handle's location names a row holding that handle; every row's handle is located at that row; the index is sound and complete for the archetypes' signatures; every occupied row is written |
| Worlds.AppendedView | src/world.rs:40-43 | after a row is appended, the slice of each type is the old slice followed by what the new row reads |
| Worlds.AppendedContribution | src/world.rs:40-43 | after a row is appended, the archetype yields its old items followed by the new handle's item, exactly when it holds every requested type |
| Worlds.SpawnGrowsNew | src/world.rs:22-30 | a spawn of a new signature appends one archetype holding just the new row, and leaves every other archetype unchanged |
| Worlds.SpawnSplices | src/world.rs:17-46 | after a spawn, the archetype list is the old one with the chosen archetype grown by the new row, or with one new archetype appended that holds just that row |
| Worlds.SpawnSegmentsExisting | src/world.rs:17-46 | a spawn into a known signature adds the new handle's item at the end of that archetype's part of `(Entity, &A, …)` and leaves every other part unchanged |
| Worlds.SpawnSegmentsNew | src/world.rs:22-30 | a spawn of a new signature appends one part to `(Entity, &A, …)` holding only the new handle's item, after every earlier item |
| Worlds.QueryYieldsHandle | src/world.rs:48-50 | a live handle whose archetype holds every requested type is yielded by `(Entity, &A, …)` with the values of its row |
| Worlds.QueryYieldsOnlyMatching | src/world.rs:48-50 | every item of `(Entity, &A, …)` is a live handle whose archetype holds every requested type, with the values of the row its location names |
| Worlds.UpdatedPreservesWf | src/world.rs:52-57 | stores made through `query_mut` keep the world invariant |
| Worlds.FillOne | src/world.rs:40-43 | `write_archetype` then the push of the handle leave the archetype equal to `Filled` |
| Worlds.UpdateAll | src/world.rs:52-57 | the loop a caller of `query_mut` writes (archetypes in order, rows in order) leaves the archetypes equal to `Updated` |
| Worlds.World.AddArchetype | src/world.rs:26-27 | the index gains the key at position `old archetypes.len()` and the archetype is pushed there; locations are unchanged |
| Worlds.World.Create | src/world.rs:22-30 | a fresh empty archetype for the group's sorted descriptors is pushed and indexed under `component_ids` at `old archetypes.len()` |
| Worlds.World.ArchetypeFor | src/world.rs:20-31 | the lookup returns the indexed position with nothing changed, or creates, indexes and pushes a new archetype at the end |
| Worlds.World.Lookup | src/world.rs:20-31 | the lookup's result is `Choose` on the world before it |
| Worlds.World.Settle | src/world.rs:33-43 | after the lookup, one location is appended (the chosen archetype and its old row count) and only the chosen archetype is replaced by `Filled` |
| Worlds.World.Spawn | src/world.rs:17-46 | `spawn` returns `old locations.len()`, leaves the world valid and equal to `SpawnState` of the old world, and pushes at most one fresh archetype |
| Worlds.World.UpdateQueried | src/world.rs:52-57 | `query_mut` with a store through each reference leaves the world valid, with the archetypes equal to `Updated` and everything else unchanged |
| Simple.EmptySimple | src/simple.rs:43-49 | the default world satisfies the invariant, has no locations, and all three views are empty |
| Simple.World.constructor | src/simple.rs:43-49 | `World::default()` is `EmptySimple` |
| Simple.AppendKeepsWf | src/simple.rs:52-97 | appending handle `locations.len()` to one archetype and recording its row keeps the lockstep and location invariants |
| Simple.SpawnPositionKeepsWf | src/simple.rs:52-64 | `spawn_with_position` preserves the invariants |
| Simple.SpawnVelocityKeepsWf | src/simple.rs:66-78 | `spawn_with_velocity` preserves the invariants |
| Simple.SpawnPositionVelocityKeepsWf | src/simple.rs:80-97 | `spawn_with_position_and_velocity` preserves the invariants |
| Simple.SpawnPositionViews | src/simple.rs:114-127 | after `spawn_with_position`, `positions()` yields the new pair right after the position archetype's earlier pairs; the other two views are unchanged |
| Simple.SpawnVelocityViews | src/simple.rs:99-112 | after `spawn_with_velocity`, `velocities()` yields the new pair right after the velocity archetype's earlier pairs; the other two views are unchanged |
| Simple.SpawnPositionVelocityViews | src/simple.rs:99-139 | after `spawn_with_position_and_velocity`, every view yields the new handle last |
| Simple.PositionsFindHandles | src/simple.rs:114-127 | `positions()` yields a handle exactly when its location is not in the velocity-only archetype |
| Simple.VelocitiesFindHandles | src/simple.rs:99-112 | `velocities()` yields a handle exactly when its location is not in the position-only archetype |
| Simple.PositionsAndVelocitiesFindHandles | src/simple.rs:129-139 | `positions_and_velocities()` yields a handle exactly when it lives in the combined archetype |
| Simple.World.SpawnWithPosition | src/simple.rs:52-64 | returns `old locations.len()`, sets the state to `SpawnPosition` of the old state, and keeps the invariant |
| Simple.World.SpawnWithVelocity | src/simple.rs:66-78 | returns `old locations.len()`, sets the state to `SpawnVelocity` of the old state, and keeps the invariant |
| Simple.World.SpawnWithPositionAndVelocity | src/simple.rs:80-97 | returns `old locations.len()`, sets the state to `SpawnPositionVelocity` of the old state, and keeps the invariant |
| Scenarios.StepSummarizes | src/world.rs:17-46 | one spawn updates the per-archetype summary of a query the way it updates the world |
| Scenarios.SpawnAll | src/lib.rs:49-56 | a run of spawns from a well-formed world keeps the world invariant |
| Scenarios.SpawnAllSummarized | src/world.rs:17-46 | a run of spawns keeps the summary in step with the world |
| Scenarios.QueryAfterSpawns | src/query.rs:176-215 | the query on a world spawned from scratch is the concatenation of the summary's parts |
| Scenarios.QueryFromLayout | src/query.rs:176-215 | the query on a world spawned from scratch can be read off the layout: each archetype's handles in spawn order, each with its group's values |
| Scenarios.SpawnedSignatures | src/world.rs:20-31 | the archetypes of a world spawned from scratch are the distinct signatures of the groups, in order of first appearance |
| Scenarios.SpawnedFromGroups | src/world.rs:20-31 | every archetype of a world spawned from scratch has the sorted types of one of the groups |
| Scenarios.UpdatedSetsAll | src/query.rs:87-107 | storing `v` through every `&mut T` reference makes `&T` read `v` on every row when no archetype holds `T` as zero-sized |
| Scenarios.SpawnedSetsAll | src/lib.rs:152-171 | on a world spawned from scratch, it is enough for that that no group has a zero-sized `T` |
| Scenarios.NameHeightAgeSignature | src/component_set.rs:77-85 | `(Name, Height, Age)` is canonicalised to the sorted signature `[Name, Age, Height]` |
| Scenarios.SingleNameQuery | src/lib.rs:58-65 | for any Name, Name, Speed, Name, Speed, Tag spawns, `(Entity, &Name)` yields handles 0, 1, 3 with the names they were spawned with |
| Scenarios.SingleSpeedQuery | src/lib.rs:67-70 | the Speed query yields handles 2 and 4 with their speeds |
| Scenarios.SingleTagQuery | src/lib.rs:72-75 | the zero-sized Tag query yields exactly handle 5, read through the placeholder |
| Scenarios.SingleComponentArchetype | src/lib.rs:45-76 | `single_component_archetype`: the three queries yield the test's expected items |
| Scenarios.TwoComponents | src/lib.rs:78-101 | `two_components`: `&Name` yields 0, 1, 2 across both archetypes in archetype order; `&Age` yields only 0 and 1 |
| Scenarios.ThreeSpawned | src/lib.rs:107-112 | the four groups' signatures are `[Name, Age]` twice, `[Name, Height]` and `[Name, Age, Height]` |
| Scenarios.ThreeNameAgeQuery | src/lib.rs:114-121 | `(Entity, &Name, &Age)` yields 0, 1 and 3 with their names and ages |
| Scenarios.ThreeNameHeightQuery | src/lib.rs:123-131 | `(Entity, &Name, &Height)` yields 2 and 3 with their names and heights |
| Scenarios.ThreeAgeHeightQuery | src/lib.rs:133-138 | `(Entity, &Age, &Height)` yields only 3 |
| Scenarios.ThreeComponents | src/lib.rs:103-139 | `three_components`: the three queries yield the test's expected items |
| Scenarios.MutQueryShared | src/lib.rs:166-170 | after any run of `(Name, Height, Age)` spawns, storing `Name("None")` through every `&mut Name` makes every Name a later query reads equal `"None"` |
| Scenarios.MutQuerySharedScenario | src/lib.rs:152-171 | `mut_query_shared`: the same for the test's nine spawns |

## Left out

- Raw pointers, `Layout::from_size_align` (with its overflow `continue`
  branches), `alloc`, `realloc`, `dealloc` and `handle_alloc_error` are
  foreign allocator calls. Buffers are sequences of slots plus a capacity
  field, and allocation failure is out of scope.
- `TypeId`, `HashMap`, `SmallVec` and hashing are not modelled. Type ids are
  integers and the index is a map from id sequences. The scenario ids
  (Name 1, Age 2, Height 3, Speed 4, Tag 5) are arbitrary; only their
  distinctness matters to the queries' results.
- The `u32` casts of the handle and of the location fields (`src/world.rs:18`,
  `src/world.rs:35-36`, `src/lib.rs:13-19`) are modelled as unbounded
  naturals. Past 2^32 spawns the source would truncate; the model does not.
- Component payloads are opaque `Value`s. The `f32` payloads of the tests
  become whole numbers (Speed 42.0 is 42, Height 160.0 is 160), so floating
  point is not modelled.
- `drop_in_place` is recorded as a log of destructor calls (column, row,
  value). What a destructor does is not modelled, and neither is the release
  of the buffer.
- A zero-sized component is written through a null pointer
  (`src/archetype.rs:154-161`) and read through a dangling placeholder. The
  model stores nothing for it and reads `Unit`. Its destructor is never run,
  because `Drop` skips null columns; the model keeps that behaviour.
- Lifetimes, borrow checking and the aliasing of `&T` and `&mut T` are
  compile-time matters and are not modelled. The references handed out by
  `QueryMut` are modelled as the rows they name (`Queries.MutRows`). A
  caller's writes through them are a function `f(handle, old value)` applied
  row by row, as `Worlds.World.UpdateQueried` does.
- `World::entity` and `get` (the `gets` test, `src/lib.rs:141-150`) are not
  defined in the modelled files, so they are not part of this model.
- `Scenarios.MutQuerySharedScenario`: the test uses
  `query_mut::<(EntityId, &mut Name, &Age)>` and `query_mut::<(&Name,)>`, but
  `src/query.rs` does not implement these multi-component `QueryMut` shapes.
  The model uses the single-type `&mut Name` and `&Name` forms. Every group in
  the test holds an Age, so the extra filter selects the same rows. The
  lemmas show that every Name read afterwards is `"None"`. Like the test's
  `all`, they do not state how many rows there are.
- The macro arities are not enumerated one by one. A group is any sequence of
  1 to 14 members (`MaxArity`). The commented-out impls in `src/query.rs` and
  `src/archetype.rs` are not modelled.
- Queries: `Queries.QueryEntity` and `Queries.QueryComponents` accept any
  number of requested types from one upwards. The source implements queries of
  1 to 7 types only (`impl_query!` for A to G, `src/query.rs:262-268`), so the
  model covers more arities than the source compiles.
- Groups that repeat a component type, such as `(Name, Name)`, are excluded by
  `ComponentSets.WellFormed`, although the source compiles them. There the
  position index built by `HashMap::from_iter` keeps the last position of the
  repeated id (`src/component_set.rs:37`). Both writes then go to one column
  (`src/archetype.rs:155-159`), and the first value is overwritten without its
  destructor running. The other column of that type keeps an unwritten row,
  which `Drop` still destroys (`src/archetype.rs:187-191`). The model does not
  capture this behaviour.
- `Simple`: the views are modelled as sequences of (handle, value) pairs. A
  write through the `&mut` references they hand out is not modelled.
- `write_archetype` reserves `COMPONENT_COUNT` rows per spawn
  (`src/component_set.rs:69`), not one. One row would be enough for a
  spawn. The model follows the code, and `ComponentSets.WrittenStateKeeps`
  states the resulting slack. `Archetype::reserve` grows capacity faster for
  wider groups, but no observable result depends on it.
