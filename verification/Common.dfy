/** Values shared by every component: optional results, identities and numeric limits. */
module Common {

  datatype Option<+T> = None | Some(value: T)

  /** Random 128-bit identifiers; only their equality matters. */
  type Uuid = nat

  type Incarnation = Uuid
  type MachineId = Uuid
  type Connection = Uuid

  const I64_MAX: int := 0x7FFF_FFFF_FFFF_FFFF
  const U64_MAX: nat := 0xFFFF_FFFF_FFFF_FFFF

  /** The identity of one Relay connection: every field takes part in equality. */
  datatype Route = Route(revision: int, epoch: int, connection: Connection)
}
