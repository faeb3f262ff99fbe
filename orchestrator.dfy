/**
 * The entity-sync orchestrator (`EntitySync`, ewext/src/modules/entity_sync.rs)
 * as a class whose fields its methods update in place.  Each method is
 * proved to leave the object, the world and the connection in the state
 * that the reference definitions of module SyncSpec prescribe.
 */
module Orchestrator {
  import opened Wrappers
  import opened Protocol
  import opened Host
  import opened Collaborators
  import opened SyncSpec

  /** `send_remotedes` (entity_sync.rs:249-261): sends one DES payload to a peer or to everybody. */
  method SendRemoteDes(net: NetManager, reliable: bool, destination: Destination<PeerId>, des: RemoteDes)
    modifies net
    ensures net.sent == old(net.sent) + [SendDes(reliable, destination, des)]
    ensures net.inbox == old(net.inbox)
  {
    net.Send(NoitaOutbound.RemoteMessage(reliable, destination, RemoteMessage.RemoteDes(des)));
  }

  /** The exit notices of a frame (entity_sync.rs:148-155). */
  method SendExitNotices(net: NetManager, lost: seq<PeerId>)
    modifies net
    ensures net.sent == old(net.sent) + ExitedMessages(lost)
    ensures net.inbox == old(net.inbox)
  {
    var k := 0;
    while k < |lost|
      invariant 0 <= k <= |lost|
      invariant net.sent == old(net.sent) + ExitedMessages(lost[..k])
      invariant net.inbox == old(net.inbox)
    {
      SendRemoteDes(net, true, Peer(lost[k]), ExitedInterest);
      assert lost[..k + 1][..k] == lost[..k];
      k := k + 1;
    }
    assert lost[..|lost|] == lost;
  }

  /** The projectile batch and the diff for every interested peer (entity_sync.rs:169-182). */
  method SendDiffs(net: NetManager, peers: seq<PeerId>, batch: seq<ProjectileFired>, diff: Diff)
    modifies net
    ensures net.sent == old(net.sent) + DiffMessages(peers, batch, diff)
    ensures net.inbox == old(net.inbox)
  {
    var j := 0;
    while j < |peers|
      invariant 0 <= j <= |peers|
      invariant net.sent == old(net.sent) + DiffMessages(peers[..j], batch, diff)
      invariant net.inbox == old(net.inbox)
    {
      SendRemoteDes(net, true, Peer(peers[j]), Projectiles(batch));
      SendRemoteDes(net, true, Peer(peers[j]), EntityUpdate(diff));
      assert peers[..j + 1][..j] == peers[..j];
      j := j + 1;
    }
    assert peers[..|peers|] == peers;
  }

  class EntitySync {
    /** The tag the DES module puts on entities it spawned for remote peers (`DES_TAG`). */
    const desTag: string
    /** The last entity id the scan for new entities stopped at. */
    var lookCurrentEntity: EntityId
    var interestTracker: InterestTracker
    var localDiffModel: LocalDiffModel
    var remoteModels: map<PeerId, RemoteDiffModel>
    var pendingFiredProjectiles: seq<ProjectileFired>

    function State(): SyncState
      reads this
    {
      SyncState(lookCurrentEntity, interestTracker, localDiffModel, remoteModels, pendingFiredProjectiles)
    }

    ghost predicate Valid()
      reads this
    {
      interestTracker.Valid() && localDiffModel.Valid()
    }

    /** `EntitySync::default` (entity_sync.rs:39-51). */
    constructor (desTag: string)
      ensures this.desTag == desTag
      ensures State() == InitialSync() && Valid()
    {
      this.desTag := desTag;
      lookCurrentEntity := 1;
      interestTracker := NewTracker();
      localDiffModel := NewLocalModel();
      remoteModels := map[];
      pendingFiredProjectiles := [];
    }

    /** The scan as a state of SyncSpec's reference definition. */
    function ScanNow(world: HostWorld, net: NetManager): ScanState
      reads this, world, net
    {
      ScanState(world.entities, localDiffModel, net.sent)
    }

    /**
     * `look_for_tracked` (entity_sync.rs:58-87): examines the ids after the
     * boundary up to the largest id in use; on success moves the boundary
     * there, on the first error stops and keeps it.
     */
    method LookForTracked(world: HostWorld, net: NetManager, gids: EntityId -> Gid) returns (r: Outcome<Error>)
      requires Valid()
      modifies this, world, net
      ensures var sc := ScanFrom(desTag, gids, old(lookCurrentEntity) + 1, old(world.maxInUse),
                                 ScanState(old(world.entities), old(localDiffModel), old(net.sent)));
        && world.entities == sc.state.world && localDiffModel == sc.state.local && net.sent == sc.state.sent
        && (sc.error.None? ==> r == Pass && lookCurrentEntity == old(world.maxInUse))
        && (sc.error.Some? ==> r == Fail(sc.error.value) && lookCurrentEntity == old(lookCurrentEntity))
      ensures interestTracker == old(interestTracker) && remoteModels == old(remoteModels)
      ensures pendingFiredProjectiles == old(pendingFiredProjectiles)
      ensures world.maxInUse == old(world.maxInUse) && net.inbox == old(net.inbox)
      ensures Valid()
    {
      var max := world.maxInUse;
      ghost var goal := ScanFrom(desTag, gids, lookCurrentEntity + 1, max, ScanNow(world, net));
      var i: EntityId := lookCurrentEntity + 1;
      while i <= max
        invariant ScanFrom(desTag, gids, i, max, ScanNow(world, net)) == goal
        invariant localDiffModel.Valid()
        invariant lookCurrentEntity == old(lookCurrentEntity) && interestTracker == old(interestTracker)
        invariant remoteModels == old(remoteModels) && pendingFiredProjectiles == old(pendingFiredProjectiles)
        invariant world.maxInUse == max && net.inbox == old(net.inbox)
        decreases max - i
      {
        ghost var before := ScanNow(world, net);
        ExamineSpec(desTag, gids, i, before);
        if !world.IsAlive(i) {
          i := i + 1;
          continue;
        }
        if world.Tagged(i, desTag) {
          world.Kill(i);
          i := i + 1;
          continue;
        }
        if SyncSpec.ShouldBeTracked(world.entities, i) {
          var tracked := localDiffModel.TrackEntity(i, gids(i), world.entities[i].serialized);
          if tracked.Err? {
            return Fail(tracked.error);
          }
          var (lid, model) := tracked.value;
          localDiffModel := model;
          var full := localDiffModel.FullEntityDataFor(lid);
          if full.None? {
            return Fail(TrackedWithoutData(lid));
          }
          net.Send(DesToProxy(InitOrUpdateEntity(full.value)));
        }
        i := i + 1;
      }
      lookCurrentEntity := max;
      return Pass;
    }

    /** `handle_proxytodes` (entity_sync.rs:89-96). */
    method HandleProxyToDes(msg: ProxyToDes)
      requires Valid()
      modifies this
      ensures State() == ApplyProxy(old(State()), msg)
      ensures Valid()
    {
      match msg
      case GotAuthority(full) =>
        localDiffModel := localDiffModel.GotAuthority(full);
    }

    /** `handle_remotedes` (entity_sync.rs:98-120). */
    method HandleRemoteDes(source: PeerId, msg: RemoteDes)
      requires Valid()
      modifies this
      ensures State() == Route(old(State()), source, msg)
      ensures Valid()
    {
      match msg
      case InterestRequest(request) =>
        interestTracker := interestTracker.HandleInterestRequest(source, request);
      case EntityUpdate(diff) =>
        var model := if source in remoteModels then remoteModels[source] else NewRemoteModel();
        remoteModels := remoteModels[source := model.ApplyDiff(diff)];
      case ExitedInterest =>
        remoteModels := remoteModels - {source};
      case Reset =>
        interestTracker := interestTracker.ResetInterestFor(source);
      case Projectiles(batch) =>
        var model := if source in remoteModels then remoteModels[source] else NewRemoteModel();
        remoteModels := remoteModels[source := model.SpawnProjectiles(batch)];
    }

    /** `on_world_init` (entity_sync.rs:124-127): tells every peer to reset what it knows of us. */
    method OnWorldInit(net: NetManager) returns (r: Outcome<Error>)
      modifies net
      ensures r == Pass
      ensures net.sent == old(net.sent) + [SendDes(true, Broadcast, Reset)]
      ensures net.inbox == old(net.inbox)
    {
      SendRemoteDes(net, true, Broadcast, Reset);
      return Pass;
    }

    /**
     * `on_world_update` (entity_sync.rs:129-204): one frame, as SyncSpec.Tick
     * prescribes.  The world's largest id in use is read at the start and
     * again at the end (entity_sync.rs:60 and 201); in between, the
     * collaborators may spawn entities, so the second reading, which the
     * frame's environment supplies, is never below the first.  A frame that
     * completes leaves the scan boundary at the world's largest id in use.
     */
    method OnWorldUpdate(world: HostWorld, net: NetManager, gids: EntityId -> Gid, env: FrameEnv) returns (r: Outcome<Error>)
      requires Valid() && Distinct(env.inRange)
      requires world.maxInUse <= env.maxInUseAfter
      modifies this, world, net
      ensures var t := Tick(desTag, gids, old(world.maxInUse), env, Frame(old(State()), old(world.entities), old(net.sent)));
        State() == t.frame.sync && world.entities == t.frame.world && net.sent == t.frame.sent && r == t.result
      ensures world.maxInUse == (if r.Pass? then env.maxInUseAfter else old(world.maxInUse))
      ensures r.Pass? ==> lookCurrentEntity == world.maxInUse
      ensures net.inbox == old(net.inbox)
      ensures Valid()
    {
      var looked := LookForTracked(world, net, gids);
      if looked.Fail? {
        return Fail(Wrapped(LookContext, looked.error));
      }
      r := UpdateInterest(net, env, world.entities);
      if r.Pass? {
        world.maxInUse := env.maxInUseAfter;
      }
    }

    /** The part of `on_world_update` after the scan up to the pending-authority update (entity_sync.rs:133-157). */
    method UpdateInterest(net: NetManager, env: FrameEnv, ghost w: World) returns (r: Outcome<Error>)
      requires Valid() && Distinct(env.inRange)
      modifies this, net
      ensures var t := Broadcasts(env, Frame(old(State()), w, old(net.sent)));
        t.frame.world == w && State() == t.frame.sync && net.sent == t.frame.sent && r == t.result
      ensures net.inbox == old(net.inbox)
      ensures Valid()
    {
      ghost var f := Frame(State(), w, net.sent);
      interestTracker := interestTracker.SetCenter(env.camera, env.inRange);
      if env.frameNum % 20 == 0 {
        SendRemoteDes(net, false, Broadcast, RemoteDes.InterestRequest(InterestRequest.InterestRequest(env.camera)));
      }
      assert net.sent == f.sent + InterestBroadcast(env.frameNum, env.camera);
      var (lost, tracker) := interestTracker.DrainLostInterest();
      interestTracker := tracker;
      SendExitNotices(net, lost);
      assert Frame(State(), w, net.sent) == Announced(env, f);
      if env.pendingAuthority.Fail? {
        return env.pendingAuthority;
      }
      r := ExchangeDiffs(net, env, w);
    }

    /** The part of `on_world_update` from the even/odd split to the end (entity_sync.rs:159-203). */
    method ExchangeDiffs(net: NetManager, env: FrameEnv, ghost w: World) returns (r: Outcome<Error>)
      requires Valid()
      modifies this, net
      ensures var t := Exchange(env, Frame(old(State()), w, old(net.sent)));
        t.frame.world == w &&
        State() == t.frame.sync && net.sent == t.frame.sent && r == t.result
      ensures net.inbox == old(net.inbox)
      ensures Valid()
    {
      if env.frameNum % 2 == 0 {
        if env.localUpdate.Fail? {
          return Fail(Wrapped(UpdateContext, env.localUpdate.error));
        }
        var (gotNew, tracker) := interestTracker.GotAnyNewInterested();
        interestTracker := tracker;
        if gotNew {
          localDiffModel := localDiffModel.ResetDiffEncoding();
        }
        var (baseline, model) := localDiffModel.MakeDiff();
        localDiffModel := model;
        var diff := env.encode(baseline);
        SendDiffs(net, interestTracker.interested, pendingFiredProjectiles, diff);
        pendingFiredProjectiles := [];
      } else {
        ApplyAllRemote();
      }
      if env.frameNum % 60 == 0 {
        net.Send(DesToProxy(RequestAuthority(env.camera)));
      }
      lookCurrentEntity := env.maxInUseAfter;
      return Pass;
    }

    /** `apply_entities` on every remote mirror (entity_sync.rs:185-187). */
    method ApplyAllRemote()
      modifies this
      ensures remoteModels == AppliedAll(old(remoteModels))
      ensures lookCurrentEntity == old(lookCurrentEntity) && interestTracker == old(interestTracker)
      ensures localDiffModel == old(localDiffModel) && pendingFiredProjectiles == old(pendingFiredProjectiles)
    {
      ghost var before := remoteModels;
      var keys := remoteModels.Keys;
      while keys != {}
        invariant keys <= before.Keys && remoteModels.Keys == before.Keys
        invariant forall p :: p in before ==> remoteModels[p] == if p in keys then before[p] else before[p].ApplyEntities()
        invariant lookCurrentEntity == old(lookCurrentEntity) && interestTracker == old(interestTracker)
        invariant localDiffModel == old(localDiffModel) && pendingFiredProjectiles == old(pendingFiredProjectiles)
        decreases keys
      {
        var p :| p in keys;
        remoteModels := remoteModels[p := remoteModels[p].ApplyEntities()];
        keys := keys - {p};
      }
    }

    /** `on_projectile_fired` (entity_sync.rs:206-246). */
    method OnProjectileFired(world: HostWorld, shooter: Option<EntityId>, projectile: Option<EntityId>,
                             position: Coords, target: Coords) returns (r: Outcome<Error>)
      modifies this
      ensures var c := Capture(old(localDiffModel), world.entities, shooter, projectile, position, target);
        && (c.Err? ==> r == Fail(c.error) && pendingFiredProjectiles == old(pendingFiredProjectiles))
        && (c.Ok? ==> r == Pass)
        && (c.Ok? && c.value.Some? ==> pendingFiredProjectiles == old(pendingFiredProjectiles) + [c.value.value])
        && (c.Ok? && c.value.None? ==> pendingFiredProjectiles == old(pendingFiredProjectiles))
      ensures lookCurrentEntity == old(lookCurrentEntity) && interestTracker == old(interestTracker)
      ensures localDiffModel == old(localDiffModel) && remoteModels == old(remoteModels)
    {
      var shooterLid := if shooter.Some? then localDiffModel.LidByEntity(shooter.value) else None;
      if shooterLid.None? {
        return Pass;
      }
      if projectile.None? {
        return Pass;
      }
      var p := projectile.value;
      if p !in world.entities || world.entities[p].projectile.None? {
        return Pass;
      }
      if world.entities[p].projectile.value.entityThatShot.Some? {
        return Pass;
      }
      var serialized := world.entities[p].serialized;
      if serialized.None? {
        return Fail(SerializeFailed);
      }
      pendingFiredProjectiles := pendingFiredProjectiles + [ProjectileFired(shooterLid.value, position, target, serialized.value)];
      return Pass;
    }
  }
}
