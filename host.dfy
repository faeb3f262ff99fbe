/**
 * The game and the proxy connection as the extension sees them.  The game
 * world is a finite map from entity id to what the extension can ask about
 * an entity; the connection to the proxy is a queue of inbound messages
 * that will arrive and a log of the outbound messages sent so far.
 */
module Host {
  import opened Wrappers
  import opened Protocol

  /** A projectile component of an entity, reduced to the one field the extension reads. */
  datatype ProjectileComponent = ProjectileComponent(entityThatShot: Option<EntityId>)

  /**
   * What the extension can observe about one entity: whether it is alive,
   * its tags, its first projectile component (if any) and its serialized
   * form (None when serialization fails).
   */
  datatype HostEntity = HostEntity(
    alive: bool,
    tags: set<string>,
    projectile: Option<ProjectileComponent>,
    serialized: Option<Bytes>)

  type World = map<EntityId, HostEntity>

  /** An id the world does not know is not alive. */
  predicate Alive(w: World, e: EntityId)
  {
    e in w && w[e].alive
  }

  predicate HasTag(w: World, e: EntityId, tag: string)
  {
    e in w && tag in w[e].tags
  }

  /** The world after killing `e`. */
  function Killed(w: World, e: EntityId): (r: World)
    ensures r.Keys == w.Keys
    ensures !Alive(r, e)
    ensures forall k :: k in w && k != e ==> r[k] == w[k]
    ensures e in w ==> r[e].tags == w[e].tags
  {
    if e in w then w[e := w[e].(alive := false)] else w
  }

  /** The game's entity manager. */
  class HostWorld {
    var entities: World
    /** The largest entity id in use (`EntityID::max_in_use`). */
    var maxInUse: EntityId

    constructor (entities: World, maxInUse: EntityId)
      ensures this.entities == entities && this.maxInUse == maxInUse
    {
      this.entities := entities;
      this.maxInUse := maxInUse;
    }

    predicate IsAlive(e: EntityId)
      reads this
    {
      Alive(entities, e)
    }

    predicate Tagged(e: EntityId, tag: string)
      reads this
    {
      HasTag(entities, e, tag)
    }

    method Kill(e: EntityId)
      modifies this
      ensures entities == Killed(old(entities), e)
      ensures maxInUse == old(maxInUse)
    {
      entities := Killed(entities, e);
    }
  }

  /**
   * The connection to the proxy.  `inbox` is what the proxy will still
   * deliver, in order; once it is empty a blocking receive finds the
   * connection closed and a non-blocking one finds nothing.
   */
  class NetManager {
    var inbox: seq<NoitaInbound>
    var sent: seq<NoitaOutbound>

    constructor (inbox: seq<NoitaInbound>)
      ensures this.inbox == inbox && sent == []
    {
      this.inbox := inbox;
      sent := [];
    }

    method Send(m: NoitaOutbound)
      modifies this
      ensures sent == old(sent) + [m]
      ensures inbox == old(inbox)
    {
      sent := sent + [m];
    }

    /** `recv`: waits for the next message; fails when the proxy has closed the connection. */
    method Recv() returns (r: Result<NoitaInbound, Error>)
      modifies this
      ensures old(inbox) == [] ==> r == Err(ConnectionClosed) && inbox == []
      ensures old(inbox) != [] ==> r == Ok(old(inbox)[0]) && inbox == old(inbox)[1..]
      ensures sent == old(sent)
    {
      if inbox == [] {
        r := Err(ConnectionClosed);
      } else {
        r := Ok(inbox[0]);
        inbox := inbox[1..];
      }
    }

    /** `try_recv`: the next message if one is waiting. */
    method TryRecv() returns (r: Option<NoitaInbound>)
      modifies this
      ensures old(inbox) == [] ==> r == None && inbox == []
      ensures old(inbox) != [] ==> r == Some(old(inbox)[0]) && inbox == old(inbox)[1..]
      ensures sent == old(sent)
    {
      if inbox == [] {
        r := None;
      } else {
        r := Some(inbox[0]);
        inbox := inbox[1..];
      }
    }
  }
}
