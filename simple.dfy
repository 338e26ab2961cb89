/**
 * The hand-written world with three fixed archetypes: velocity only,
 * position only, and position with velocity. Each spawn pushes onto the
 * `Vec`s of one archetype and records where the new handle lives; the views
 * chain and zip those `Vec`s.
 */
module Simple {
  import Lib

  type EntityId = Lib.EntityId

  /** The unit component structs of the source. */
  datatype Position = Position
  datatype Velocity = Velocity

  datatype VelocityArchetype = VelocityArchetype(components: seq<Velocity>, entities: seq<EntityId>)
  datatype PositionArchetype = PositionArchetype(components: seq<Position>, entities: seq<EntityId>)
  datatype PositionVelocityArchetype =
    PositionVelocityArchetype(positions: seq<Position>, velocities: seq<Velocity>, entities: seq<EntityId>)

  /** Which of the three archetypes a handle lives in. */
  datatype EntityArchetype = OfVelocity | OfPosition | OfPositionVelocity

  datatype Location = Location(archetype: EntityArchetype, index: nat)

  /** A snapshot of every field of a `World`. */
  datatype SimpleState = SimpleState(
    velocityArchetype: VelocityArchetype,
    positionArchetype: PositionArchetype,
    positionVelocityArchetype: PositionVelocityArchetype,
    locations: seq<Location>)

  /** `World::default()`: three empty archetypes and no locations. */
  function EmptySimple(): (st: SimpleState)
    ensures Wf(st) && |st.locations| == 0
    ensures Velocities(st) == [] && Positions(st) == [] && PositionsAndVelocities(st) == []
  {
    SimpleState(VelocityArchetype([], []), PositionArchetype([], []), PositionVelocityArchetype([], [], []), [])
  }

  /** The handles stored in the archetype named by `kind`, in row order. */
  function EntitiesOf(st: SimpleState, kind: EntityArchetype): seq<EntityId> {
    match kind
    case OfVelocity => st.velocityArchetype.entities
    case OfPosition => st.positionArchetype.entities
    case OfPositionVelocity => st.positionVelocityArchetype.entities
  }

  /** Every archetype keeps one component per handle, in each of its `Vec`s. */
  predicate Lockstep(st: SimpleState) {
    && |st.velocityArchetype.entities| == |st.velocityArchetype.components|
    && |st.positionArchetype.entities| == |st.positionArchetype.components|
    && |st.positionVelocityArchetype.entities| == |st.positionVelocityArchetype.positions|
    && |st.positionVelocityArchetype.entities| == |st.positionVelocityArchetype.velocities|
  }

  /** Every handle's location names a row of its archetype that holds that handle. */
  predicate LocationsResolve(st: SimpleState) {
    forall e | 0 <= e < |st.locations| ::
      var l := st.locations[e];
      l.index < |EntitiesOf(st, l.archetype)| && EntitiesOf(st, l.archetype)[l.index] == e
  }

  /** Every occupied row holds a spawned handle whose location is that row. */
  predicate EntitiesLocated(st: SimpleState) {
    forall kind, i | 0 <= i < |EntitiesOf(st, kind)| ::
      EntitiesOf(st, kind)[i] < |st.locations| && st.locations[EntitiesOf(st, kind)[i]] == Location(kind, i)
  }

  predicate Wf(st: SimpleState) {
    Lockstep(st) && LocationsResolve(st) && EntitiesLocated(st)
  }

  /** `Iterator::zip`: pairs up to the shorter of the two sequences. */
  function Zip<A, B>(a: seq<A>, b: seq<B>): (r: seq<(A, B)>)
    ensures |r| == if |a| <= |b| then |a| else |b|
    ensures forall i | 0 <= i < |r| :: r[i] == (a[i], b[i])
  {
    seq(if |a| <= |b| then |a| else |b|, i requires 0 <= i < |a| && i < |b| => (a[i], b[i]))
  }

  /** `velocities()`: the velocity archetype's pairs, then the combined archetype's. */
  function Velocities(st: SimpleState): seq<(EntityId, Velocity)> {
    Zip(st.velocityArchetype.entities, st.velocityArchetype.components)
      + Zip(st.positionVelocityArchetype.entities, st.positionVelocityArchetype.velocities)
  }

  /** `positions()`: the position archetype's pairs, then the combined archetype's. */
  function Positions(st: SimpleState): seq<(EntityId, Position)> {
    Zip(st.positionArchetype.entities, st.positionArchetype.components)
      + Zip(st.positionVelocityArchetype.entities, st.positionVelocityArchetype.positions)
  }

  /** `positions_and_velocities()`: the combined archetype's rows, flattened to triples. */
  function PositionsAndVelocities(st: SimpleState): seq<(EntityId, Position, Velocity)> {
    var pairs := Zip(Zip(st.positionVelocityArchetype.entities, st.positionVelocityArchetype.positions),
                     st.positionVelocityArchetype.velocities);
    seq(|pairs|, i requires 0 <= i < |pairs| => (pairs[i].0.0, pairs[i].0.1, pairs[i].1))
  }

  /** What `spawn_with_position` leaves behind. */
  function SpawnPosition(st: SimpleState, value: Position): SimpleState {
    var entity := |st.locations|;
    var pa := st.positionArchetype;
    st.(locations := st.locations + [Location(OfPosition, |pa.components|)],
        positionArchetype := pa.(entities := pa.entities + [entity], components := pa.components + [value]))
  }

  /** What `spawn_with_velocity` leaves behind. */
  function SpawnVelocity(st: SimpleState, value: Velocity): SimpleState {
    var entity := |st.locations|;
    var va := st.velocityArchetype;
    st.(locations := st.locations + [Location(OfVelocity, |va.components|)],
        velocityArchetype := va.(entities := va.entities + [entity], components := va.components + [value]))
  }

  /** What `spawn_with_position_and_velocity` leaves behind. */
  function SpawnPositionVelocity(st: SimpleState, position: Position, velocity: Velocity): SimpleState {
    var entity := |st.locations|;
    var pv := st.positionVelocityArchetype;
    st.(locations := st.locations + [Location(OfPositionVelocity, |pv.positions|)],
        positionVelocityArchetype := pv.(entities := pv.entities + [entity],
                                         positions := pv.positions + [position],
                                         velocities := pv.velocities + [velocity]))
  }

  /**
   * A spawn into the archetype `kind` appends the handle `|locations|` to that
   * archetype, records its row, and leaves the other archetypes alone; this
   * keeps the world invariant.
   */
  lemma AppendKeepsWf(st: SimpleState, st': SimpleState, kind: EntityArchetype)
    requires Wf(st) && Lockstep(st')
    requires st'.locations == st.locations + [Location(kind, |EntitiesOf(st, kind)|)]
    requires EntitiesOf(st', kind) == EntitiesOf(st, kind) + [|st.locations|]
    requires forall other | other != kind :: EntitiesOf(st', other) == EntitiesOf(st, other)
    ensures Wf(st')
  {
    forall e | 0 <= e < |st'.locations|
      ensures var l := st'.locations[e];
        l.index < |EntitiesOf(st', l.archetype)| && EntitiesOf(st', l.archetype)[l.index] == e
    {
      if e < |st.locations| {
        assert st'.locations[e] == st.locations[e];
      }
    }
    forall k, i | 0 <= i < |EntitiesOf(st', k)|
      ensures EntitiesOf(st', k)[i] < |st'.locations| && st'.locations[EntitiesOf(st', k)[i]] == Location(k, i)
    {
      if k != kind || i < |EntitiesOf(st, k)| {
        assert EntitiesOf(st', k)[i] == EntitiesOf(st, k)[i];
      }
    }
  }

  /** `spawn_with_position` keeps every handle resolvable and the archetypes in lockstep. */
  lemma SpawnPositionKeepsWf(st: SimpleState, value: Position)
    requires Wf(st)
    ensures Wf(SpawnPosition(st, value))
  {
    AppendKeepsWf(st, SpawnPosition(st, value), OfPosition);
  }

  /** `spawn_with_velocity` keeps every handle resolvable and the archetypes in lockstep. */
  lemma SpawnVelocityKeepsWf(st: SimpleState, value: Velocity)
    requires Wf(st)
    ensures Wf(SpawnVelocity(st, value))
  {
    AppendKeepsWf(st, SpawnVelocity(st, value), OfVelocity);
  }

  /** `spawn_with_position_and_velocity` keeps every handle resolvable and the archetypes in lockstep. */
  lemma SpawnPositionVelocityKeepsWf(st: SimpleState, position: Position, velocity: Velocity)
    requires Wf(st)
    ensures Wf(SpawnPositionVelocity(st, position, velocity))
  {
    AppendKeepsWf(st, SpawnPositionVelocity(st, position, velocity), OfPositionVelocity);
  }

  lemma ZipSnoc<A, B>(a: seq<A>, b: seq<B>, x: A, y: B)
    requires |a| == |b|
    ensures Zip(a + [x], b + [y]) == Zip(a, b) + [(x, y)]
  {
  }

  /**
   * After `spawn_with_position`, `positions()` yields the new handle right
   * after the position archetype's earlier handles; the other views are unchanged.
   */
  lemma SpawnPositionViews(st: SimpleState, value: Position)
    requires Lockstep(st)
    ensures var st', n := SpawnPosition(st, value), |st.positionArchetype.entities|;
      && |Positions(st)| >= n
      && Positions(st') == Positions(st)[..n] + [(|st.locations|, value)] + Positions(st)[n..]
      && Velocities(st') == Velocities(st)
      && PositionsAndVelocities(st') == PositionsAndVelocities(st)
  {
    var pa := st.positionArchetype;
    ZipSnoc(pa.entities, pa.components, |st.locations|, value);
    var front := Zip(pa.entities, pa.components);
    assert Positions(st)[..|front|] == front;
    assert Positions(st)[|front|..] == Zip(st.positionVelocityArchetype.entities, st.positionVelocityArchetype.positions);
  }

  /**
   * After `spawn_with_velocity`, `velocities()` yields the new handle right
   * after the velocity archetype's earlier handles; the other views are unchanged.
   */
  lemma SpawnVelocityViews(st: SimpleState, value: Velocity)
    requires Lockstep(st)
    ensures var st', n := SpawnVelocity(st, value), |st.velocityArchetype.entities|;
      && |Velocities(st)| >= n
      && Velocities(st') == Velocities(st)[..n] + [(|st.locations|, value)] + Velocities(st)[n..]
      && Positions(st') == Positions(st)
      && PositionsAndVelocities(st') == PositionsAndVelocities(st)
  {
    var va := st.velocityArchetype;
    ZipSnoc(va.entities, va.components, |st.locations|, value);
    var front := Zip(va.entities, va.components);
    assert Velocities(st)[..|front|] == front;
    assert Velocities(st)[|front|..] == Zip(st.positionVelocityArchetype.entities, st.positionVelocityArchetype.velocities);
  }

  /** After `spawn_with_position_and_velocity`, every view yields the new handle last. */
  lemma SpawnPositionVelocityViews(st: SimpleState, position: Position, velocity: Velocity)
    requires Lockstep(st)
    ensures var st', e := SpawnPositionVelocity(st, position, velocity), |st.locations|;
      && Positions(st') == Positions(st) + [(e, position)]
      && Velocities(st') == Velocities(st) + [(e, velocity)]
      && PositionsAndVelocities(st') == PositionsAndVelocities(st) + [(e, position, velocity)]
  {
    var pv, e := st.positionVelocityArchetype, |st.locations|;
    ZipSnoc(pv.entities, pv.positions, e, position);
    ZipSnoc(pv.entities, pv.velocities, e, velocity);
    ZipSnoc(Zip(pv.entities, pv.positions), pv.velocities, (e, position), velocity);
  }

  /**
   * `positions()` yields exactly the handles that have a position, at the
   * row their location names; `velocities()` and `positions_and_velocities()`
   * likewise for the handles with a velocity, and with both.
   */
  lemma PositionsFindHandles(st: SimpleState, e: EntityId)
    requires Wf(st) && e < |st.locations|
    ensures (exists i | 0 <= i < |Positions(st)| :: Positions(st)[i].0 == e) <==> st.locations[e].archetype != OfVelocity
  {
    var l := st.locations[e];
    var front := Zip(st.positionArchetype.entities, st.positionArchetype.components);
    forall i | 0 <= i < |Positions(st)|
      ensures Positions(st)[i].0 < |st.locations| && st.locations[Positions(st)[i].0].archetype != OfVelocity
    {
      PositionsLocated(st, i);
    }
    if l.archetype == OfPosition {
      assert Positions(st)[l.index].0 == e;
    } else if l.archetype == OfPositionVelocity {
      assert Positions(st)[|front| + l.index].0 == e;
    }
  }

  lemma VelocitiesFindHandles(st: SimpleState, e: EntityId)
    requires Wf(st) && e < |st.locations|
    ensures (exists i | 0 <= i < |Velocities(st)| :: Velocities(st)[i].0 == e) <==> st.locations[e].archetype != OfPosition
  {
    var l := st.locations[e];
    var front := Zip(st.velocityArchetype.entities, st.velocityArchetype.components);
    forall i | 0 <= i < |Velocities(st)|
      ensures Velocities(st)[i].0 < |st.locations| && st.locations[Velocities(st)[i].0].archetype != OfPosition
    {
      VelocitiesLocated(st, i);
    }
    if l.archetype == OfVelocity {
      assert Velocities(st)[l.index].0 == e;
    } else if l.archetype == OfPositionVelocity {
      assert Velocities(st)[|front| + l.index].0 == e;
    }
  }

  lemma PositionsAndVelocitiesFindHandles(st: SimpleState, e: EntityId)
    requires Wf(st) && e < |st.locations|
    ensures (exists i | 0 <= i < |PositionsAndVelocities(st)| :: PositionsAndVelocities(st)[i].0 == e)
              <==> st.locations[e].archetype == OfPositionVelocity
  {
    var l := st.locations[e];
    forall i | 0 <= i < |PositionsAndVelocities(st)|
      ensures PositionsAndVelocities(st)[i].0 < |st.locations|
              && st.locations[PositionsAndVelocities(st)[i].0].archetype == OfPositionVelocity
    {
      assert PositionsAndVelocities(st)[i].0 == EntitiesOf(st, OfPositionVelocity)[i];
    }
    if l.archetype == OfPositionVelocity {
      assert PositionsAndVelocities(st)[l.index].0 == e;
    }
  }

  /** Item `i` of `positions()` is a handle living in one of the archetypes it chains. */
  lemma PositionsLocated(st: SimpleState, i: nat)
    requires Wf(st) && i < |Positions(st)|
    ensures Positions(st)[i].0 < |st.locations| && st.locations[Positions(st)[i].0].archetype != OfVelocity
  {
    var front := Zip(st.positionArchetype.entities, st.positionArchetype.components);
    if i < |front| {
      assert Positions(st)[i].0 == EntitiesOf(st, OfPosition)[i];
    } else {
      assert Positions(st)[i].0 == EntitiesOf(st, OfPositionVelocity)[i - |front|];
    }
  }

  /** Item `i` of `velocities()` is a handle living in one of the archetypes it chains. */
  lemma VelocitiesLocated(st: SimpleState, i: nat)
    requires Wf(st) && i < |Velocities(st)|
    ensures Velocities(st)[i].0 < |st.locations| && st.locations[Velocities(st)[i].0].archetype != OfPosition
  {
    var front := Zip(st.velocityArchetype.entities, st.velocityArchetype.components);
    if i < |front| {
      assert Velocities(st)[i].0 == EntitiesOf(st, OfVelocity)[i];
    } else {
      assert Velocities(st)[i].0 == EntitiesOf(st, OfPositionVelocity)[i - |front|];
    }
  }

  /** The hand-written `World`, its three archetypes and the location of every handle. */
  class World {
    var velocityArchetype: VelocityArchetype
    var positionArchetype: PositionArchetype
    var positionVelocityArchetype: PositionVelocityArchetype
    var locations: seq<Location>

    function State(): SimpleState
      reads this
    {
      SimpleState(velocityArchetype, positionArchetype, positionVelocityArchetype, locations)
    }

    /** `World::default()`. */
    constructor ()
      ensures State() == EmptySimple()
    {
      velocityArchetype := VelocityArchetype([], []);
      positionArchetype := PositionArchetype([], []);
      positionVelocityArchetype := PositionVelocityArchetype([], [], []);
      locations := [];
    }

    method SpawnWithPosition(value: Position) returns (entity: EntityId)
      modifies this
      ensures entity == old(|locations|) && State() == SpawnPosition(old(State()), value)
      ensures Wf(old(State())) ==> Wf(State())
    {
      ghost var before := State();
      entity := |locations|;
      var location := Location(OfPosition, |positionArchetype.components|);
      locations := locations + [location];
      positionArchetype := positionArchetype.(entities := positionArchetype.entities + [entity]);
      positionArchetype := positionArchetype.(components := positionArchetype.components + [value]);
      if Wf(before) {
        SpawnPositionKeepsWf(before, value);
      }
    }

    method SpawnWithVelocity(value: Velocity) returns (entity: EntityId)
      modifies this
      ensures entity == old(|locations|) && State() == SpawnVelocity(old(State()), value)
      ensures Wf(old(State())) ==> Wf(State())
    {
      ghost var before := State();
      entity := |locations|;
      var location := Location(OfVelocity, |velocityArchetype.components|);
      locations := locations + [location];
      velocityArchetype := velocityArchetype.(entities := velocityArchetype.entities + [entity]);
      velocityArchetype := velocityArchetype.(components := velocityArchetype.components + [value]);
      if Wf(before) {
        SpawnVelocityKeepsWf(before, value);
      }
    }

    method SpawnWithPositionAndVelocity(position: Position, velocity: Velocity) returns (entity: EntityId)
      modifies this
      ensures entity == old(|locations|) && State() == SpawnPositionVelocity(old(State()), position, velocity)
      ensures Wf(old(State())) ==> Wf(State())
    {
      ghost var before := State();
      entity := |locations|;
      var location := Location(OfPositionVelocity, |positionVelocityArchetype.positions|);
      locations := locations + [location];
      positionVelocityArchetype := positionVelocityArchetype.(entities := positionVelocityArchetype.entities + [entity]);
      positionVelocityArchetype := positionVelocityArchetype.(positions := positionVelocityArchetype.positions + [position]);
      positionVelocityArchetype := positionVelocityArchetype.(velocities := positionVelocityArchetype.velocities + [velocity]);
      if Wf(before) {
        SpawnPositionVelocityKeepsWf(before, position, velocity);
      }
    }
  }
}
