/**
 * The three collaborators of the entity-sync orchestrator whose source is
 * not part of this model: the interest tracker, the local diff model and
 * the per-peer remote diff model.  Each is a value (the orchestrator owns
 * them by value) with only the state and the contracts the orchestrator
 * relies on; everything they compute from floating-point geometry or from
 * the entity encoding is taken as an input.
 */
module Collaborators {
  import opened Wrappers
  import opened Protocol

  /** No element occurs twice. */
  predicate Distinct<T(==)>(s: seq<T>)
  {
    forall i, j :: 0 <= i < j < |s| ==> s[i] != s[j]
  }

  /** The elements of `s` that are not in `drop`, in order. */
  function Without(s: seq<PeerId>, drop: set<PeerId>): (r: seq<PeerId>)
    ensures forall x :: x in r <==> x in s && x !in drop
    ensures Distinct(s) ==> Distinct(r)
    ensures |r| <= |s|
  {
    if |s| == 0 then []
    else if s[0] in drop then Without(s[1..], drop)
    else
      assert forall x :: x in s[1..] ==> x in s;
      [s[0]] + Without(s[1..], drop)
  }

  /** The elements of `s` that are keys of `m`, in order. */
  function KeysIn<V>(s: seq<PeerId>, m: map<PeerId, V>): (r: seq<PeerId>)
    ensures forall x :: x in r <==> x in s && x in m
    ensures Distinct(s) ==> Distinct(r)
  {
    if |s| == 0 then []
    else if s[0] !in m then KeysIn(s[1..], m)
    else
      assert forall x :: x in s[1..] ==> x in s;
      [s[0]] + KeysIn(s[1..], m)
  }

  // ---------------------------------------------------------------------
  // Interest tracker

  /**
   * The interest tracker: the last interest request of each peer, the peers
   * currently interested in what this peer owns, the peers that lost
   * interest and have not been drained yet, and whether a peer became
   * interested since the last check.
   */
  datatype InterestTracker = InterestTracker(
    requests: map<PeerId, InterestRequest>,
    center: Option<WorldPos>,
    interested: seq<PeerId>,
    lost: seq<PeerId>,
    newInterest: bool)
  {
    /** Interested peers are distinct and each of them has sent an interest request. */
    ghost predicate Valid()
    {
      Distinct(interested) && forall p :: p in interested ==> p in requests
    }

    /** `handle_interest_request`: records (or refreshes) the peer's request. */
    function HandleInterestRequest(source: PeerId, request: InterestRequest): (r: InterestTracker)
      ensures r.requests == requests[source := request]
      ensures r.interested == interested && r.lost == lost && r.newInterest == newInterest
      ensures Valid() ==> r.Valid()
    {
      this.(requests := requests[source := request])
    }

    /** `reset_interest_for`: forgets the peer's request and its interest. */
    function ResetInterestFor(source: PeerId): (r: InterestTracker)
      ensures source !in r.requests && source !in r.interested
      ensures forall p :: p != source ==> (p in r.requests <==> p in requests)
      ensures forall p :: p != source ==> (p in r.interested <==> p in interested)
      ensures r.lost == lost && r.newInterest == newInterest
      ensures Valid() ==> r.Valid()
    {
      this.(requests := requests - {source}, interested := Without(interested, {source}))
    }

    /**
     * `set_center`: moves this peer's viewpoint to `pos`.  `inRange` lists
     * the peers whose announced area the tracker judges, by floating-point
     * geometry, to call for this peer's entities.  Those of them that have
     * sent a request become the interested peers; the previously interested
     * peers that drop out are queued as lost.
     */
    function SetCenter(pos: WorldPos, inRange: seq<PeerId>): (r: InterestTracker)
      requires Distinct(inRange)
      ensures r.Valid()
      ensures r.center == Some(pos) && r.requests == requests
      ensures forall p :: p in r.interested <==> p in inRange && p in requests
      ensures forall p :: p in r.lost <==> p in lost || (p in interested && p !in r.interested)
      ensures r.newInterest <==> newInterest || exists p :: p in r.interested && p !in interested
    {
      var now := KeysIn(inRange, requests);
      this.(center := Some(pos), interested := now,
            lost := lost + Without(interested, set p | p in now),
            newInterest := newInterest || exists p :: p in now && p !in interested)
    }

    /** `drain_lost_interest`: the peers that lost interest, each once; the queue is emptied. */
    function DrainLostInterest(): (r: (seq<PeerId>, InterestTracker))
      ensures r.0 == lost && r.1.lost == []
      ensures r.1.requests == requests && r.1.interested == interested && r.1.newInterest == newInterest
      ensures Valid() ==> r.1.Valid()
    {
      (lost, this.(lost := []))
    }

    /** `got_any_new_interested`: whether a peer became interested since the last call. */
    function GotAnyNewInterested(): (r: (bool, InterestTracker))
      ensures r.0 == newInterest && !r.1.newInterest
      ensures r.1.requests == requests && r.1.interested == interested && r.1.lost == lost
      ensures Valid() ==> r.1.Valid()
    {
      (newInterest, this.(newInterest := false))
    }
  }

  /** `InterestTracker::new`: nobody is interested yet. */
  function NewTracker(): (r: InterestTracker)
    ensures r.Valid() && r.interested == [] && r.lost == [] && !r.newInterest
  {
    InterestTracker(map[], None, [], [], false)
  }

  // ---------------------------------------------------------------------
  // Local diff model

  /** An entity this peer tracks and owns. */
  datatype TrackedEntity = TrackedEntity(entity: EntityId, gid: Gid)

  /**
   * The local diff model: the tracked entities by local id and the inverse
   * index, the next fresh local id, the full snapshots taken when tracking
   * started, the entities whose authority was handed over, and whether the
   * next diff must be encoded from a fresh baseline.
   */
  datatype LocalDiffModel = LocalDiffModel(
    entities: map<Lid, TrackedEntity>,
    lidOf: map<EntityId, Lid>,
    nextLid: Lid,
    snapshots: map<Lid, FullEntityData>,
    adopted: seq<FullEntityData>,
    baselineReset: bool)
  {
    /** `entities` and `lidOf` are inverse to each other and every local id is below `nextLid`. */
    ghost predicate Valid()
    {
      (forall e :: e in lidOf ==> lidOf[e] in entities && entities[lidOf[e]].entity == e)
      && (forall l :: l in entities ==> l < nextLid && entities[l].entity in lidOf && lidOf[entities[l].entity] == l)
      && (forall l :: l in snapshots ==> l in entities)
    }

    /** `lid_by_entity`: the local id of a tracked entity. */
    function LidByEntity(e: EntityId): (r: Option<Lid>)
      ensures r.Some? <==> e in lidOf
      ensures Valid() && r.Some? ==> r.value in entities && entities[r.value].entity == e
    {
      if e in lidOf then Some(lidOf[e]) else None
    }

    /** `full_entity_data_for`: the full snapshot of a tracked entity, if one was taken. */
    function FullEntityDataFor(lid: Lid): (r: Option<FullEntityData>)
      ensures r.Some? <==> lid in snapshots
    {
      if lid in snapshots then Some(snapshots[lid]) else None
    }

    /**
     * `track_entity`: starts tracking `e` under a fresh local id and takes
     * its full snapshot from `data`, the entity's serialized form (no
     * snapshot when that is missing).  An entity that is already tracked is
     * refused.
     */
    function TrackEntity(e: EntityId, gid: Gid, data: Option<Bytes>): (r: Result<(Lid, LocalDiffModel), Error>)
      ensures r.Err? <==> e in lidOf
      ensures r.Err? ==> r.error == AlreadyTracked(e)
      ensures r.Ok? ==> r.value.1.LidByEntity(e) == Some(r.value.0)
      ensures Valid() && r.Ok? ==> r.value.0 !in entities
      ensures r.Ok? ==> r.value.1.entities == entities[r.value.0 := TrackedEntity(e, gid)]
      ensures Valid() && r.Ok? ==> (r.value.1.FullEntityDataFor(r.value.0).Some? <==> data.Some?)
      ensures r.Ok? && data.Some? ==> r.value.1.FullEntityDataFor(r.value.0) == Some(FullEntityData(gid, data.value))
      ensures r.Ok? ==> forall x :: x != e ==> r.value.1.LidByEntity(x) == LidByEntity(x)
      ensures r.Ok? ==> r.value.1.adopted == adopted && r.value.1.baselineReset == baselineReset
      ensures Valid() && r.Ok? ==> r.value.1.Valid()
    {
      if e in lidOf then Err(AlreadyTracked(e))
      else
        var lid := nextLid;
        assert Valid() ==> lid !in entities;
        var shots := if data.Some? then snapshots[lid := FullEntityData(gid, data.value)] else snapshots;
        var m := this.(entities := entities[lid := TrackedEntity(e, gid)], lidOf := lidOf[e := lid],
                       nextLid := lid + 1, snapshots := shots);
        Ok((lid, m))
    }

    /** `got_authority`: takes over an entity whose authority the proxy handed to this peer. */
    function GotAuthority(full: FullEntityData): (r: LocalDiffModel)
      ensures r.adopted == adopted + [full]
      ensures r.entities == entities && r.lidOf == lidOf && r.snapshots == snapshots
      ensures r.baselineReset == baselineReset
      ensures Valid() ==> r.Valid()
    {
      this.(adopted := adopted + [full])
    }

    /** `reset_diff_encoding`: the next diff is encoded from a full baseline. */
    function ResetDiffEncoding(): (r: LocalDiffModel)
      ensures r.baselineReset
      ensures r.entities == entities && r.lidOf == lidOf && r.snapshots == snapshots && r.adopted == adopted
      ensures Valid() ==> r.Valid()
    {
      this.(baselineReset := true)
    }

    /** `make_diff` consumes a pending baseline reset; reports whether this diff is a full baseline. */
    function MakeDiff(): (r: (bool, LocalDiffModel))
      ensures r.0 == baselineReset && !r.1.baselineReset
      ensures r.1.entities == entities && r.1.lidOf == lidOf && r.1.snapshots == snapshots && r.1.adopted == adopted
      ensures Valid() ==> r.1.Valid()
    {
      (baselineReset, this.(baselineReset := false))
    }
  }

  /** `LocalDiffModel::default`: nothing tracked. */
  function NewLocalModel(): (r: LocalDiffModel)
    ensures r.Valid() && r.lidOf == map[] && r.entities == map[]
  {
    LocalDiffModel(map[], map[], 0, map[], [], false)
  }

  // ---------------------------------------------------------------------
  // Remote diff model

  /**
   * The mirror of one remote peer's entities: the diffs and projectile
   * batches received from that peer and how often they were materialized
   * into game entities.
   */
  datatype RemoteDiffModel = RemoteDiffModel(
    diffs: seq<Diff>,
    projectiles: seq<ProjectileFired>,
    materialisations: nat)
  {
    /** `apply_diff`. */
    function ApplyDiff(d: Diff): (r: RemoteDiffModel)
      ensures r.diffs == diffs + [d] && r.projectiles == projectiles && r.materialisations == materialisations
    {
      this.(diffs := diffs + [d])
    }

    /** `spawn_projectiles`. */
    function SpawnProjectiles(batch: seq<ProjectileFired>): (r: RemoteDiffModel)
      ensures r.projectiles == projectiles + batch && r.diffs == diffs && r.materialisations == materialisations
    {
      this.(projectiles := projectiles + batch)
    }

    /** `apply_entities`. */
    function ApplyEntities(): (r: RemoteDiffModel)
      ensures r.materialisations == materialisations + 1 && r.diffs == diffs && r.projectiles == projectiles
    {
      this.(materialisations := materialisations + 1)
    }
  }

  /** `RemoteDiffModel::default`. */
  function NewRemoteModel(): (r: RemoteDiffModel)
    ensures r.diffs == [] && r.projectiles == [] && r.materialisations == 0
  {
    RemoteDiffModel([], [], 0)
  }
}
