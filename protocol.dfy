/**
 * The message envelopes exchanged between the game-side extension and the
 * proxy (shared/src/lib.rs), together with the Distributed Entity Sync (DES)
 * payloads they carry.  The DES payloads themselves live in a module that is
 * not part of this model; they appear here only with the fields the entity
 * sync core reads or writes, and their byte encodings are opaque.
 */
module Protocol {

  /** One byte of an encoded payload. */
  newtype byte = x: int | 0 <= x < 256

  /** An opaque encoded payload (a Rust `Vec<u8>`). */
  type Bytes = seq<byte>

  /** A peer of the session (a 64-bit id). */
  datatype PeerId = PeerId(id: nat)

  /** A game entity id; the host never hands out ids below 1. */
  type EntityId = x: int | x >= 1 witness 1

  /** A globally unique entity id chosen by the peer that starts tracking an entity. */
  datatype Gid = Gid(raw: nat)

  /** A local id assigned by the local diff model to each tracked entity. */
  type Lid = nat

  /**
   * A position in the world.  The source derives it from floating-point
   * camera coordinates; here it is an opaque value.
   */
  datatype WorldPos = WorldPos(x: int, y: int)

  /** A pair of floating-point coordinates, kept opaque. */
  datatype Coords = Coords(x: int, y: int)

  /** Where a remote message goes: one peer or every peer. */
  datatype Destination<P> = Peer(peer: P) | Broadcast

  /**
   * A request to be told about entities around `pos`.  Its radius is a
   * floating-point constant of the DES module and is not modelled.
   */
  datatype InterestRequest = InterestRequest(pos: WorldPos)

  /** A projectile fired by a locally tracked shooter, in serialized form. */
  datatype ProjectileFired = ProjectileFired(shooterLid: Lid, position: Coords, target: Coords, serialized: Bytes)

  /** The full state of one tracked entity, as sent to the proxy. */
  datatype FullEntityData = FullEntityData(gid: Gid, data: Bytes)

  /** An encoded diff of the local entities (its layout is opaque). */
  type Diff = Bytes

  /** DES messages between peers. */
  datatype RemoteDes =
    | InterestRequest(request: InterestRequest)
    | EntityUpdate(diff: Diff)
    | ExitedInterest
    | Reset
    | Projectiles(batch: seq<ProjectileFired>)

  /** DES messages from the proxy to the game. */
  datatype ProxyToDes = GotAuthority(full: FullEntityData)

  /** DES messages from the game to the proxy. */
  datatype DesToProxy =
    | InitOrUpdateEntity(full: FullEntityData)
    | RequestAuthority(pos: WorldPos)   // the radius constant is not modelled

  /** shared/src/lib.rs:28-31 */
  datatype RemoteMessage = RemoteDes(des: RemoteDes)

  /** shared/src/lib.rs:33-44: what the proxy sends to the game. */
  datatype NoitaInbound =
    | RawMessage(payload: Bytes)
    | Ready(myPeerId: PeerId)
    | ProxyToDes(proxyMsg: ProxyToDes)
    | RemoteMessage(source: PeerId, message: RemoteMessage)

  /** shared/src/lib.rs:46-55: what the game sends to the proxy. */
  datatype NoitaOutbound =
    | Raw(payload: Bytes)
    | DesToProxy(desMsg: DesToProxy)
    | RemoteMessage(reliable: bool, destination: Destination<PeerId>, message: RemoteMessage)

  /** shared/src/lib.rs:10-26: key/value and mod messages of the proxy protocol. */
  datatype ProxyKV = ProxyKV(key: string, value: string)
  datatype ProxyKVBin = ProxyKVBin(key: byte, value: Bytes)
  datatype ModMessage = ModMessage(peer: PeerId, value: Bytes)

  /** The errors the modelled core can report. */
  datatype Error =
    | PeerIdNotSet                          // my_peer_id before Ready
    | NetmanagerNotAvailable                // no connection installed
    | UnexpectedDuringInit                  // bootstrap saw a non-raw, non-Ready message
    | UnexpectedReady                       // a second Ready after bootstrap
    | ConnectionClosed                      // the proxy closed the stream before `Ready`
    | BadPeerId(text: string)               // a peer id that is not hexadecimal
    | ExpectedValidEntity                   // register_player_entity without an entity
    | AlreadyTracked(entity: EntityId)      // the local model refused to track an entity
    | TrackedWithoutData(lid: Lid)          // "entity just began being tracked"
    | SerializeFailed                       // serialize_entity failed
    | MultipleErrors(errors: seq<Error>)    // several modules failed in one fan-out
    | Wrapped(context: string, cause: Error) // an error with context added (`wrap_err`)
}
