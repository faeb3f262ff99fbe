/**
 * The extension's global state (ewext/src/lib.rs): the peer id set once by
 * the bootstrap, the installed connection to the proxy, the optional
 * entity-sync module and the map from peers to their player entities.
 * The process-wide statics of the source become fields of one object;
 * a `null` connection or module is the source's `None`.
 */
module Ext {
  import opened Wrappers
  import opened Protocol
  import opened Host
  import opened Collaborators
  import opened SyncSpec
  import opened Orchestrator
  import opened Session

  /** What a module hook passes on to the entity-sync module. */
  datatype Hook =
    | WorldInitHook
    | WorldUpdateHook(world: HostWorld, gids: EntityId -> Gid, env: FrameEnv)
    | ProjectileFiredHook(world: HostWorld, shooter: Option<EntityId>, projectile: Option<EntityId>,
                          position: Coords, target: Coords)

  /** Hands a DES message to the entity-sync module, if one is loaded (ewext/src/lib.rs:181-196). */
  method DeliverTo(sync: EntitySync?, m: NoitaInbound)
    requires IsDes(m)
    requires sync != null ==> sync.Valid()
    modifies sync
    ensures sync != null ==> sync.Valid() && sync.State() == DeliverOne(old(sync.State()), m)
  {
    if sync != null {
      match m
      case ProxyToDes(msg) =>
        sync.HandleProxyToDes(msg);
      case RemoteMessage(source, RemoteDes(des)) =>
        sync.HandleRemoteDes(source, des);
    }
  }

  /**
   * The receive loop of `netmanager_recv` (ewext/src/lib.rs:177-199): reads the
   * connection as Session.Dispatch prescribes and delivers each DES message
   * on the way.
   */
  method Drain(net: NetManager, sync: EntitySync?) returns (r: Result<Option<Bytes>, Error>)
    requires sync != null ==> sync.Valid()
    modifies net, sync
    ensures var d := Dispatch(old(net.inbox));
      && r == d.result && net.inbox == d.rest && net.sent == old(net.sent)
      && (sync != null ==> sync.Valid() && sync.State() == Deliver(old(sync.State()), d.delivered))
  {
    ghost var delivered: seq<NoitaInbound> := [];
    ghost var goal := Dispatch(net.inbox);
    while true
      invariant goal.delivered == delivered + Dispatch(net.inbox).delivered
      invariant goal.result == Dispatch(net.inbox).result && goal.rest == Dispatch(net.inbox).rest
      invariant sync != null ==> sync.Valid() && sync.State() == Deliver(old(sync.State()), delivered)
      invariant net.sent == old(net.sent)
      decreases |net.inbox|
    {
      ghost var before := net.inbox;
      var received := net.TryRecv();
      if received.None? {
        assert delivered + [] == delivered;
        return Ok(None);
      }
      var m := received.value;
      if m.RawMessage? {
        assert delivered + [] == delivered;
        return Ok(Some(m.payload));
      } else if m.Ready? {
        assert delivered + [] == delivered;
        return Err(UnexpectedReady);
      }
      DeliverTo(sync, m);
      DispatchStep(before);
      AppendAssoc(delivered, [m], Dispatch(net.inbox).delivered);
      if sync != null {
        DeliverSnoc(old(sync.State()), delivered, m);
      }
      delivered := delivered + [m];
    }
  }

  /**
   * The error collection of `with_every_module` (ewext/src/lib.rs:253-258):
   * every module's outcome is looked at, and a failure does not stop the
   * collection.
   */
  method CollectFailures(outcomes: seq<Outcome<Error>>) returns (errs: seq<Error>)
    ensures errs == Failures(outcomes)
  {
    errs := [];
    var i := 0;
    while i < |outcomes|
      invariant 0 <= i <= |outcomes|
      invariant Failures(outcomes) == errs + Failures(outcomes[i..])
    {
      assert outcomes[i..][1..] == outcomes[i + 1..];
      if outcomes[i].Fail? {
        AppendAssoc(errs, [outcomes[i].error], Failures(outcomes[i + 1..]));
        errs := errs + [outcomes[i].error];
      }
      i := i + 1;
    }
  }

  class Extension {
    /** The tag new entity-sync modules put on entities spawned for other peers. */
    const desTag: string
    /** `MY_PEER_ID`. */
    var myPeerId: Option<PeerId>
    /** `NETMANAGER`. */
    var netmanager: NetManager?
    /** `modules.entity_sync`. */
    var entitySync: EntitySync?
    /** `player_entity_map`. */
    var playerMap: BiMap

    ghost predicate Valid()
      reads this, entitySync
    {
      playerMap.Valid() && (entitySync != null ==> entitySync.Valid())
    }

    constructor (desTag: string)
      ensures this.desTag == desTag && myPeerId == None && netmanager == null && entitySync == null
      ensures playerMap == EmptyBiMap() && Valid()
    {
      this.desTag := desTag;
      myPeerId := None;
      netmanager := null;
      entitySync := null;
      playerMap := EmptyBiMap();
    }

    /** `my_peer_id` (ewext/src/lib.rs:49-54): the peer id, or an error while none is set. */
    function MyPeerId(): (r: Result<PeerId, Error>)
      reads this
      ensures r.Ok? <==> myPeerId.Some?
      ensures r.Ok? ==> myPeerId == Some(r.value)
      ensures r.Err? ==> r.error == PeerIdNotSet
    {
      if myPeerId.Some? then Ok(myPeerId.value) else Err(PeerIdNotSet)
    }

    /** `MY_PEER_ID.set` (ewext/src/lib.rs:47, 162): only the first value is kept. */
    method SetMyPeerId(id: PeerId)
      modifies this
      ensures old(myPeerId).Some? ==> myPeerId == old(myPeerId)
      ensures old(myPeerId).None? ==> myPeerId == Some(id)
      ensures netmanager == old(netmanager) && entitySync == old(entitySync) && playerMap == old(playerMap)
    {
      if myPeerId.None? {
        myPeerId := Some(id);
      }
    }

    /**
     * `netmanager_connect` (ewext/src/lib.rs:152-172) on a freshly opened connection:
     * reads up to the first `Ready` as Session.Bootstrap prescribes, and
     * installs the connection and sets the peer id only when that succeeds.
     */
    method NetmanagerConnect(conn: NetManager) returns (r: Result<seq<Bytes>, Error>)
      modifies this, conn
      ensures var b := Bootstrap(old(conn.inbox));
        && (b.Ok? ==> r == Ok(b.value.kvs) && netmanager == conn && conn.inbox == b.value.rest
                      && myPeerId == (if old(myPeerId).Some? then old(myPeerId) else Some(b.value.peer)))
        && (b.Err? ==> r == Err(b.error) && netmanager == old(netmanager) && myPeerId == old(myPeerId))
      ensures conn.sent == old(conn.sent)
      ensures entitySync == old(entitySync) && playerMap == old(playerMap)
    {
      var kvs: seq<Bytes> := [];
      var ready: Option<PeerId> := None;
      PrefixedAppend([], [], Bootstrap(conn.inbox));
      while ready.None?
        invariant ready.None? ==> Bootstrap(old(conn.inbox)) == Prefixed(kvs, Bootstrap(conn.inbox))
        invariant ready.Some? ==> Bootstrap(old(conn.inbox)) == Ok(Bootstrapped(kvs, ready.value, conn.inbox))
        invariant conn.sent == old(conn.sent)
        modifies conn
        decreases ready.None?, |conn.inbox|
      {
        ghost var before := conn.inbox;
        var received := conn.Recv();
        if received.Err? {
          return Err(received.error);
        }
        match received.value
        case RawMessage(payload) =>
          assert Bootstrap(before) == Prefixed([payload], Bootstrap(conn.inbox));
          PrefixedAppend(kvs, [payload], Bootstrap(conn.inbox));
          kvs := kvs + [payload];
        case Ready(id) =>
          assert Bootstrap(before) == Ok(Bootstrapped([], id, conn.inbox));
          assert kvs + [] == kvs;
          ready := Some(id);
        case _ =>
          return Err(UnexpectedDuringInit);
      }
      SetMyPeerId(ready.value);
      netmanager := conn;
      return Ok(kvs);
    }

    /**
     * `netmanager_recv` (ewext/src/lib.rs:174-200): drains the installed connection as
     * Session.Dispatch prescribes, handing DES messages to the entity-sync
     * module when one is loaded.
     */
    method NetmanagerRecv() returns (r: Result<Option<Bytes>, Error>)
      requires Valid()
      modifies netmanager, entitySync
      ensures netmanager == null ==> r == Err(NetmanagerNotAvailable)
      ensures netmanager == null && entitySync != null ==> entitySync.State() == old(entitySync.State())
      ensures netmanager != null ==>
        var d := Dispatch(old(netmanager.inbox));
        && r == d.result && netmanager.inbox == d.rest && netmanager.sent == old(netmanager.sent)
        && (entitySync != null ==> entitySync.State() == Deliver(old(entitySync.State()), d.delivered))
      ensures Valid()
    {
      if netmanager == null {
        return Err(NetmanagerNotAvailable);
      }
      r := Drain(netmanager, entitySync);
    }

    /**
     * `with_every_module` (ewext/src/lib.rs:242-267): fails without a connection;
     * otherwise runs the hook on every loaded module (the entity-sync
     * module, if there is one) and reports their errors through
     * Session.Aggregate.
     */
    method WithEveryModule(hook: Hook) returns (r: Outcome<Error>)
      requires Valid()
      requires hook.WorldUpdateHook? ==> Distinct(hook.env.inRange) && hook.world.maxInUse <= hook.env.maxInUseAfter
      modifies netmanager, entitySync, if hook.WorldUpdateHook? then {hook.world} else {}
      ensures Valid()
      ensures netmanager == null ==> r == Fail(NetmanagerNotAvailable)
      ensures netmanager == null || entitySync == null ==>
        && (entitySync != null ==> entitySync.State() == old(entitySync.State()))
        && (netmanager != null ==> netmanager.sent == old(netmanager.sent) && r == Pass)
        && (hook.WorldUpdateHook? ==> hook.world.entities == old(hook.world.entities) && hook.world.maxInUse == old(hook.world.maxInUse))
      ensures netmanager != null && entitySync != null && hook.WorldInitHook? ==>
        && r == Pass && entitySync.State() == old(entitySync.State())
        && netmanager.sent == old(netmanager.sent) + [SendDes(true, Broadcast, Reset)]
      ensures netmanager != null && entitySync != null && hook.WorldUpdateHook? ==>
        var t := Tick(entitySync.desTag, hook.gids, old(hook.world.maxInUse), hook.env,
                      Frame(old(entitySync.State()), old(hook.world.entities), old(netmanager.sent)));
        && r == t.result && entitySync.State() == t.frame.sync
        && hook.world.entities == t.frame.world && netmanager.sent == t.frame.sent
        && hook.world.maxInUse == (if t.result.Pass? then hook.env.maxInUseAfter else old(hook.world.maxInUse))
      ensures netmanager != null && entitySync != null && hook.ProjectileFiredHook? ==>
        var c := Capture(old(entitySync.localDiffModel), hook.world.entities, hook.shooter, hook.projectile,
                         hook.position, hook.target);
        && r == (if c.Ok? then Pass else Fail(c.error))
        && entitySync.pendingFiredProjectiles
           == old(entitySync.pendingFiredProjectiles) + (if c.Ok? && c.value.Some? then [c.value.value] else [])
        && entitySync.State().(pending := []) == old(entitySync.State()).(pending := [])
        && netmanager.sent == old(netmanager.sent)
    {
      if netmanager == null {
        return Fail(NetmanagerNotAvailable);
      }
      var outcomes: seq<Outcome<Error>> := [];
      if entitySync != null {
        var outcome: Outcome<Error>;
        match hook {
          case WorldInitHook =>
            outcome := entitySync.OnWorldInit(netmanager);
          case WorldUpdateHook(world, gids, env) =>
            outcome := entitySync.OnWorldUpdate(world, netmanager, gids, env);
          case ProjectileFiredHook(world, shooter, projectile, position, target) =>
            outcome := entitySync.OnProjectileFired(world, shooter, projectile, position, target);
        }
        outcomes := [outcome];
      }
      var errs := CollectFailures(outcomes);
      AggregateOutcomes(outcomes);
      r := Aggregate(errs);
    }

    /**
     * `module_on_projectile_fired` (ewext/src/lib.rs:277-297): does nothing while a
     * module hook is already running (`lockBusy`), and otherwise runs the
     * projectile hook.
     */
    method ModuleOnProjectileFired(lockBusy: bool, world: HostWorld, shooter: Option<EntityId>,
                                   projectile: Option<EntityId>, position: Coords, target: Coords)
      returns (r: Outcome<Error>)
      requires Valid()
      modifies netmanager, entitySync
      ensures Valid()
      ensures lockBusy ==> r == Pass
      ensures lockBusy || netmanager == null || entitySync == null ==>
        && (entitySync != null ==> entitySync.State() == old(entitySync.State()))
        && (netmanager != null ==> netmanager.sent == old(netmanager.sent))
      ensures !lockBusy && netmanager == null ==> r == Fail(NetmanagerNotAvailable)
      ensures !lockBusy && netmanager != null && entitySync == null ==> r == Pass
      ensures !lockBusy && netmanager != null && entitySync != null ==>
        var c := Capture(old(entitySync.localDiffModel), world.entities, shooter, projectile, position, target);
        && r == (if c.Ok? then Pass else Fail(c.error))
        && entitySync.pendingFiredProjectiles
           == old(entitySync.pendingFiredProjectiles) + (if c.Ok? && c.value.Some? then [c.value.value] else [])
        && entitySync.State().(pending := []) == old(entitySync.State()).(pending := [])
    {
      if lockBusy {
        return Pass;
      }
      r := WithEveryModule(ProjectileFiredHook(world, shooter, projectile, position, target));
    }

    /** `on_world_initialized` (ewext/src/lib.rs:227-238): loads a fresh entity-sync module. */
    method OnWorldInitialized()
      requires Valid()
      modifies this
      ensures entitySync != null && fresh(entitySync)
      ensures entitySync.desTag == desTag && entitySync.State() == InitialSync()
      ensures myPeerId == old(myPeerId) && netmanager == old(netmanager) && playerMap == old(playerMap)
      ensures Valid()
    {
      entitySync := new EntitySync(desTag);
    }

    /**
     * `register_player_entity` (ewext/src/lib.rs:448-456).  `parsed` is what
     * `PeerId::from_hex` made of `peerHex`; the entity is then required and
     * the pair is entered into the player map.
     */
    method RegisterPlayerEntity(peerHex: string, parsed: Option<PeerId>, entity: Option<EntityId>)
      returns (r: Outcome<Error>)
      requires Valid()
      modifies this
      ensures parsed.None? ==> r == Fail(BadPeerId(peerHex)) && playerMap == old(playerMap)
      ensures parsed.Some? && entity.None? ==> r == Fail(ExpectedValidEntity) && playerMap == old(playerMap)
      ensures parsed.Some? && entity.Some? ==>
        r == Pass && playerMap == old(playerMap).Insert(parsed.value, entity.value)
      ensures myPeerId == old(myPeerId) && netmanager == old(netmanager) && entitySync == old(entitySync)
      ensures Valid()
    {
      if parsed.None? {
        return Fail(BadPeerId(peerHex));
      }
      if entity.None? {
        return Fail(ExpectedValidEntity);
      }
      playerMap := playerMap.Insert(parsed.value, entity.value);
      return Pass;
    }
  }
}
