/**
 * Shared vocabulary of the crate root: entity handles, runtime type ids,
 * component payloads and the per-entity `Location` record.
 */
module Lib {
  /** `EntityId` (a `u32` in the source); handles are modelled as unbounded naturals. */
  type EntityId = nat

  /** A runtime type identity (`TypeId`), modelled as an integer. */
  type TypeId = int

  /**
   * Component payloads are opaque to the store. `Unit` is the only value of a
   * zero-sized component type, such as a marker tag.
   */
  datatype Value = Text(text: string) | Number(number: int) | Unit

  /** Where a handle's components live: a row of one archetype. */
  datatype Location = Location(entityIndex: nat, archetypeIndex: nat)
}
