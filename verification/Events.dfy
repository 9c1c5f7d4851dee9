/** The event record that the bus, the mesh and the projections pass around (src/bus/types.ts). */
module Events {
  import opened Json

  datatype Event = Event(
    id: string,
    hlc: string,
    hostId: string,
    actorId: string,
    kind: string,
    payload: Js,
    createdAt: int,
    durable: bool
  )
}
