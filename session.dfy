/**
 * Reference definitions for the extension's session handling
 * (ewext/src/lib.rs): the bootstrap exchange with the proxy, the dispatch
 * of inbound messages, the aggregation of module errors and the map
 * between peers and their player entities.
 */
module Session {
  import opened Wrappers
  import opened Protocol
  import opened Collaborators
  import opened SyncSpec

  // ---------------------------------------------------------------------
  // Bootstrap (netmanager_connect, ewext/src/lib.rs:152-172)

  /** What a successful bootstrap yields: the raw payloads, this peer's id and the messages still queued. */
  datatype Bootstrapped = Bootstrapped(kvs: seq<Bytes>, peer: PeerId, rest: seq<NoitaInbound>)

  /**
   * Reading the proxy's messages up to the first `Ready`: raw messages are
   * collected, anything else fails, and a closed connection fails too.
   */
  function Bootstrap(inbox: seq<NoitaInbound>): Result<Bootstrapped, Error>
  {
    if |inbox| == 0 then Err(ConnectionClosed)
    else
      match inbox[0]
      case RawMessage(payload) =>
        (match Bootstrap(inbox[1..])
         case Ok(b) => Ok(b.(kvs := [payload] + b.kvs))
         case Err(e) => Err(e))
      case Ready(id) => Ok(Bootstrapped([], id, inbox[1..]))
      case _ => Err(UnexpectedDuringInit)
  }

  /** The bootstrap's outcome once `kvs` have already been collected. */
  function Prefixed(kvs: seq<Bytes>, b: Result<Bootstrapped, Error>): Result<Bootstrapped, Error>
  {
    if b.Ok? then Ok(b.value.(kvs := kvs + b.value.kvs)) else b
  }

  lemma PrefixedAppend(a: seq<Bytes>, b: seq<Bytes>, x: Result<Bootstrapped, Error>)
    ensures Prefixed(a, Prefixed(b, x)) == Prefixed(a + b, x)
    ensures Prefixed([], x) == x
  {
    if x.Ok? {
      AppendAssoc(a, b, x.value.kvs);
      assert [] + x.value.kvs == x.value.kvs;
    }
  }

  /** The payloads of a run of raw messages. */
  function Payloads(msgs: seq<NoitaInbound>): (r: seq<Bytes>)
    requires forall j :: 0 <= j < |msgs| ==> msgs[j].RawMessage?
    ensures |r| == |msgs|
    ensures forall j :: 0 <= j < |msgs| ==> r[j] == msgs[j].payload
  {
    if |msgs| == 0 then [] else [msgs[0].payload] + Payloads(msgs[1..])
  }

  /**
   * When the first message that is not raw is the `Ready` at `k`, the
   * bootstrap returns the payloads before it, in order, that `Ready`'s peer
   * id, and leaves the messages after it queued.
   */
  lemma {:induction false} BootstrapReady(inbox: seq<NoitaInbound>, k: nat)
    requires k < |inbox| && inbox[k].Ready?
    requires forall j :: 0 <= j < k ==> inbox[j].RawMessage?
    ensures Bootstrap(inbox) == Ok(Bootstrapped(Payloads(inbox[..k]), inbox[k].myPeerId, inbox[k + 1..]))
  {
    if k > 0 {
      BootstrapReady(inbox[1..], k - 1);
      assert inbox[1..][..k - 1] == inbox[..k][1..];
      assert inbox[1..][k - 1 + 1..] == inbox[k + 1..];
    }
  }

  /** When the first message that is not raw is neither raw nor `Ready`, the bootstrap fails. */
  lemma {:induction false} BootstrapRejects(inbox: seq<NoitaInbound>, k: nat)
    requires k < |inbox| && !inbox[k].RawMessage? && !inbox[k].Ready?
    requires forall j :: 0 <= j < k ==> inbox[j].RawMessage?
    ensures Bootstrap(inbox) == Err(UnexpectedDuringInit)
  {
    if k > 0 {
      BootstrapRejects(inbox[1..], k - 1);
    }
  }

  /** When the proxy closes the connection before `Ready`, the bootstrap fails. */
  lemma {:induction false} BootstrapClosed(inbox: seq<NoitaInbound>)
    requires forall j :: 0 <= j < |inbox| ==> inbox[j].RawMessage?
    ensures Bootstrap(inbox) == Err(ConnectionClosed)
  {
    if |inbox| > 0 {
      BootstrapClosed(inbox[1..]);
    }
  }

  // ---------------------------------------------------------------------
  // Dispatch (netmanager_recv, ewext/src/lib.rs:174-200)

  /** A message for the entity-sync module. */
  predicate IsDes(m: NoitaInbound)
  {
    m.ProxyToDes? || m.RemoteMessage?
  }

  /** The DES messages handed to entity sync, the call's result and the messages still queued. */
  datatype Drained = Drained(delivered: seq<NoitaInbound>, result: Result<Option<Bytes>, Error>, rest: seq<NoitaInbound>)

  /**
   * Reading the queue until the first raw message, which is returned; DES
   * messages on the way are delivered to entity sync, a `Ready` fails, and
   * an empty queue yields nothing.
   */
  function Dispatch(inbox: seq<NoitaInbound>): (r: Drained)
    ensures forall m :: m in r.delivered ==> IsDes(m)
  {
    if |inbox| == 0 then Drained([], Ok(None), [])
    else
      match inbox[0]
      case RawMessage(payload) => Drained([], Ok(Some(payload)), inbox[1..])
      case Ready(_) => Drained([], Err(UnexpectedReady), inbox[1..])
      case _ =>
        var d := Dispatch(inbox[1..]);
        d.(delivered := [inbox[0]] + d.delivered)
  }

  /** A message for entity sync at the head of the queue is delivered before the rest is dispatched. */
  lemma DispatchStep(inbox: seq<NoitaInbound>)
    requires |inbox| > 0 && IsDes(inbox[0])
    ensures Dispatch(inbox).delivered == [inbox[0]] + Dispatch(inbox[1..]).delivered
    ensures Dispatch(inbox).result == Dispatch(inbox[1..]).result
    ensures Dispatch(inbox).rest == Dispatch(inbox[1..]).rest
  {
  }

  /**
   * When the first message that is not for entity sync is at `k`, dispatch
   * delivers exactly the messages before it, in order, and returns that
   * message's payload, or fails if it is a `Ready`.
   */
  lemma {:induction false} DispatchStops(inbox: seq<NoitaInbound>, k: nat)
    requires k < |inbox| && !IsDes(inbox[k])
    requires forall j :: 0 <= j < k ==> IsDes(inbox[j])
    ensures Dispatch(inbox).delivered == inbox[..k] && Dispatch(inbox).rest == inbox[k + 1..]
    ensures inbox[k].RawMessage? ==> Dispatch(inbox).result == Ok(Some(inbox[k].payload))
    ensures inbox[k].Ready? ==> Dispatch(inbox).result == Err(UnexpectedReady)
  {
    if k > 0 {
      DispatchStops(inbox[1..], k - 1);
      assert [inbox[0]] + inbox[1..][..k - 1] == inbox[..k];
      assert inbox[1..][k - 1 + 1..] == inbox[k + 1..];
    }
  }

  /** A queue holding only messages for entity sync is delivered whole and the call yields nothing. */
  lemma {:induction false} DispatchDrains(inbox: seq<NoitaInbound>)
    requires forall j :: 0 <= j < |inbox| ==> IsDes(inbox[j])
    ensures Dispatch(inbox) == Drained(inbox, Ok(None), [])
  {
    if |inbox| > 0 {
      DispatchDrains(inbox[1..]);
      assert [inbox[0]] + inbox[1..] == inbox;
    }
  }

  /** The orchestrator's state after handling one delivered message. */
  function DeliverOne(s: SyncState, m: NoitaInbound): (r: SyncState)
    ensures r.look == s.look && r.pending == s.pending
    ensures s.tracker.Valid() && s.local.Valid() ==> r.tracker.Valid() && r.local.Valid()
  {
    match m
    case ProxyToDes(msg) => ApplyProxy(s, msg)
    case RemoteMessage(source, RemoteDes(des)) => Route(s, source, des)
    case _ => s
  }

  /** The orchestrator's state after handling the delivered messages in order. */
  function Deliver(s: SyncState, msgs: seq<NoitaInbound>): (r: SyncState)
    ensures r.look == s.look && r.pending == s.pending
    ensures s.tracker.Valid() && s.local.Valid() ==> r.tracker.Valid() && r.local.Valid()
    decreases |msgs|
  {
    if |msgs| == 0 then s else Deliver(DeliverOne(s, msgs[0]), msgs[1..])
  }

  /** Delivering one more message continues from where the earlier ones left the state. */
  lemma {:induction false} DeliverSnoc(s: SyncState, msgs: seq<NoitaInbound>, m: NoitaInbound)
    ensures Deliver(s, msgs + [m]) == DeliverOne(Deliver(s, msgs), m)
    decreases |msgs|
  {
    if |msgs| > 0 {
      assert (msgs + [m])[1..] == msgs[1..] + [m];
      DeliverSnoc(DeliverOne(s, msgs[0]), msgs[1..], m);
    }
  }

  // ---------------------------------------------------------------------
  // Module fan-out (with_every_module, ewext/src/lib.rs:242-267)

  /** The result of a fan-out from the errors its modules reported, in order. */
  function Aggregate(errs: seq<Error>): (r: Outcome<Error>)
    ensures |errs| == 0 <==> r.Pass?
    ensures |errs| == 1 ==> r == Fail(errs[0])
    ensures |errs| >= 2 ==> r == Fail(MultipleErrors(errs))
  {
    if |errs| == 1 then Fail(errs[0])
    else if |errs| > 1 then Fail(MultipleErrors(errs))
    else Pass
  }

  /** The errors among the modules' outcomes, in order. */
  function Failures(outcomes: seq<Outcome<Error>>): (r: seq<Error>)
    ensures |r| <= |outcomes|
    ensures forall j :: 0 <= j < |outcomes| && outcomes[j].Fail? ==> outcomes[j].error in r
    ensures forall e :: e in r ==> Fail(e) in outcomes
  {
    if |outcomes| == 0 then []
    else (if outcomes[0].Fail? then [outcomes[0].error] else []) + Failures(outcomes[1..])
  }

  /** A fan-out succeeds exactly when every module did, and a single failure is reported unchanged. */
  lemma {:induction false} AggregateOutcomes(outcomes: seq<Outcome<Error>>)
    ensures Aggregate(Failures(outcomes)).Pass? <==> forall j :: 0 <= j < |outcomes| ==> outcomes[j].Pass?
    ensures |outcomes| == 1 ==> Aggregate(Failures(outcomes)) == outcomes[0]
  {
    if |outcomes| > 0 {
      AggregateOutcomes(outcomes[1..]);
      assert forall j :: 1 <= j < |outcomes| ==> outcomes[j] == outcomes[1..][j - 1];
    }
  }

  // ---------------------------------------------------------------------
  // Player entities (register_player_entity, ewext/src/lib.rs:448-456)

  /** A one-to-one map between peers and their player entities (`BiHashMap<PeerId, EntityID>`). */
  datatype BiMap = BiMap(byPeer: map<PeerId, EntityId>, byEntity: map<EntityId, PeerId>)
  {
    ghost predicate Valid()
    {
      (forall p :: p in byPeer ==> byPeer[p] in byEntity && byEntity[byPeer[p]] == p)
      && (forall e :: e in byEntity ==> byEntity[e] in byPeer && byPeer[byEntity[e]] == e)
    }

    function EntityOf(p: PeerId): Option<EntityId>
    {
      if p in byPeer then Some(byPeer[p]) else None
    }

    function PeerOf(e: EntityId): Option<PeerId>
    {
      if e in byEntity then Some(byEntity[e]) else None
    }

    /**
     * `insert`: pairs `p` with `e`, dropping any earlier pair of either;
     * every other pair is kept.
     */
    function Insert(p: PeerId, e: EntityId): (r: BiMap)
      ensures r.EntityOf(p) == Some(e) && r.PeerOf(e) == Some(p)
      ensures Valid() ==> r.Valid()
      ensures Valid() ==> forall q :: q != p && EntityOf(q) != Some(e) ==> r.EntityOf(q) == EntityOf(q)
      ensures Valid() ==> forall q :: q != p && EntityOf(q) == Some(e) ==> r.EntityOf(q) == None
      ensures Valid() ==> forall x :: x != e && PeerOf(x) != Some(p) ==> r.PeerOf(x) == PeerOf(x)
    {
      var peers := if e in byEntity then byPeer - {byEntity[e]} else byPeer;
      var entities := if p in byPeer then byEntity - {byPeer[p]} else byEntity;
      BiMap(peers[p := e], entities[e := p])
    }
  }

  function EmptyBiMap(): (r: BiMap)
    ensures r.Valid() && r.byPeer == map[]
  {
    BiMap(map[], map[])
  }
}
