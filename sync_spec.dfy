/**
 * Reference definitions of what the entity-sync orchestrator
 * (ewext/src/modules/entity_sync.rs) does on each of its entry points, as
 * functions of its state and of the inputs the world and the collaborators
 * supply, with the properties the orchestrator promises proved about them.
 * Module Orchestrator implements these step by step and is proved against
 * them.
 */
module SyncSpec {
  import opened Wrappers
  import opened Protocol
  import opened Host
  import opened Collaborators

  // ---------------------------------------------------------------------
  // Scanning for new entities (look_for_tracked, entity_sync.rs:54-87)

  /** `should_be_tracked`: enemies and physics props are synchronised. */
  predicate ShouldBeTracked(w: World, e: EntityId)
  {
    HasTag(w, e, "enemy") || HasTag(w, e, "prop_physics")
  }

  /** An id the scan starts tracking: alive, not yet marked as a DES entity, and of a synchronised kind. */
  predicate Candidate(w: World, desTag: string, e: EntityId)
  {
    Alive(w, e) && !HasTag(w, e, desTag) && ShouldBeTracked(w, e)
  }

  /** An id the scan kills: an alive entity already carrying the DES tag (a leftover of a remote peer). */
  predicate Leftover(w: World, desTag: string, e: EntityId)
  {
    Alive(w, e) && HasTag(w, e, desTag)
  }

  /** What a scan carries along: the world, the local diff model and the messages sent so far. */
  datatype ScanState = ScanState(world: World, local: LocalDiffModel, sent: seq<NoitaOutbound>)

  /** The state a scan stopped in and, if it stopped early, the error. */
  datatype Scanned = Scanned(state: ScanState, error: Option<Error>)

  /** The message announcing a newly tracked entity to the proxy. */
  function InitMessage(full: FullEntityData): NoitaOutbound
  {
    DesToProxy(InitOrUpdateEntity(full))
  }

  /** Examining one id (one iteration of the loop at entity_sync.rs:61-83). */
  function ExamineId(desTag: string, gids: EntityId -> Gid, e: EntityId, s: ScanState): Scanned
  {
    if !Alive(s.world, e) then Scanned(s, None)
    else if HasTag(s.world, e, desTag) then Scanned(s.(world := Killed(s.world, e)), None)
    else if !ShouldBeTracked(s.world, e) then Scanned(s, None)
    else
      match s.local.TrackEntity(e, gids(e), s.world[e].serialized)
      case Err(err) => Scanned(s, Some(err))
      case Ok(tracked) =>
        var (lid, local) := tracked;
        match local.FullEntityDataFor(lid)
        case None => Scanned(s.(local := local), Some(TrackedWithoutData(lid)))
        case Some(full) => Scanned(s.(local := local, sent := s.sent + [InitMessage(full)]), None)
  }

  /** Examining the ids `i` to `max` in increasing order, stopping at the first error. */
  function ScanFrom(desTag: string, gids: EntityId -> Gid, i: EntityId, max: int, s: ScanState): Scanned
    decreases max - i
  {
    if i > max then Scanned(s, None)
    else
      var r := ExamineId(desTag, gids, i, s);
      if r.error.Some? then r else ScanFrom(desTag, gids, i + 1, max, r.state)
  }

  /** The ids from `i` to `max` that the scan starts tracking, in increasing order. */
  function Candidates(w: World, desTag: string, i: EntityId, max: int): seq<EntityId>
    decreases max - i
  {
    if i > max then []
    else (if Candidate(w, desTag, i) then [i] else []) + Candidates(w, desTag, i + 1, max)
  }

  /** The world after a scan of `i` to `max` that did not stop early: the leftovers are dead. */
  function Swept(w: World, desTag: string, i: EntityId, max: int): World
  {
    map k | k in w :: if i <= k <= max && Leftover(w, desTag, k) then w[k].(alive := false) else w[k]
  }

  /** The announcements sent for the entities `cands`, in order. */
  function InitMessages(w: World, gids: EntityId -> Gid, cands: seq<EntityId>): seq<NoitaOutbound>
    requires forall k :: k in cands ==> k in w && w[k].serialized.Some?
  {
    if |cands| == 0 then []
    else
      var k := cands[0];
      [InitMessage(FullEntityData(gids(k), w[k].serialized.value))] + InitMessages(w, gids, cands[1..])
  }

  /** Every candidate is new to the local model and can be serialized. */
  predicate Trackable(w: World, local: LocalDiffModel, cands: seq<EntityId>)
  {
    forall k :: k in cands ==> k in w && k !in local.lidOf && w[k].serialized.Some?
  }

  lemma {:induction false} CandidatesInRange(w: World, desTag: string, i: EntityId, max: int)
    ensures forall k :: k in Candidates(w, desTag, i, max) <==> i <= k <= max && Candidate(w, desTag, k)
    ensures Distinct(Candidates(w, desTag, i, max))
    decreases max - i
  {
    if i <= max {
      CandidatesInRange(w, desTag, i + 1, max);
    }
  }

  /** The candidates between `i` and `max` depend only on the entities with those ids. */
  lemma {:induction false} CandidatesFrame(w: World, v: World, desTag: string, i: EntityId, max: int)
    requires forall k: EntityId :: i <= k <= max ==> (k in w <==> k in v) && (k in w ==> w[k] == v[k])
    ensures Candidates(w, desTag, i, max) == Candidates(v, desTag, i, max)
    decreases max - i
  {
    if i <= max {
      CandidatesFrame(w, v, desTag, i + 1, max);
    }
  }

  lemma {:induction false} InitMessagesFrame(w: World, v: World, gids: EntityId -> Gid, cands: seq<EntityId>)
    requires forall k :: k in cands ==> k in w && w[k].serialized.Some?
    requires forall k :: k in cands ==> k in v && v[k] == w[k]
    ensures InitMessages(w, gids, cands) == InitMessages(v, gids, cands)
  {
    if |cands| > 0 {
      InitMessagesFrame(w, v, gids, cands[1..]);
    }
  }

  /** The world after examining `e` alone: killed if it is a leftover, unchanged otherwise. */
  function AfterExamine(w: World, desTag: string, e: EntityId): World
  {
    if Leftover(w, desTag, e) then Killed(w, e) else w
  }

  /** What examining one id does. */
  lemma ExamineSpec(desTag: string, gids: EntityId -> Gid, e: EntityId, s: ScanState)
    requires s.local.Valid()
    ensures var r := ExamineId(desTag, gids, e, s);
      && r.state.local.Valid()
      && r.state.local.baselineReset == s.local.baselineReset
      && r.state.world == AfterExamine(s.world, desTag, e)
      && (!Candidate(s.world, desTag, e) ==> r.error.None? && r.state.local == s.local && r.state.sent == s.sent)
      && (Candidate(s.world, desTag, e) ==>
            (r.error.None? <==> e !in s.local.lidOf && s.world[e].serialized.Some?))
      && (Candidate(s.world, desTag, e) && r.error.None? ==>
            && r.state.sent == s.sent + [InitMessage(FullEntityData(gids(e), s.world[e].serialized.value))]
            && r.state.local.lidOf.Keys == s.local.lidOf.Keys + {e})
  {
    var r := ExamineId(desTag, gids, e, s);
    if Candidate(s.world, desTag, e) && r.error.None? {
      var t := s.local.TrackEntity(e, gids(e), s.world[e].serialized).value;
      assert r.state.local == t.1;
      forall x ensures x in t.1.lidOf <==> x in s.local.lidOf || x == e {
        if x != e {
          assert t.1.LidByEntity(x) == s.local.LidByEntity(x);
        } else {
          assert t.1.LidByEntity(x).Some?;
        }
      }
    }
  }

  lemma SweptStep(w: World, desTag: string, i: EntityId, max: int)
    requires i <= max
    ensures Swept(AfterExamine(w, desTag, i), desTag, i + 1, max) == Swept(w, desTag, i, max)
  {
    var w1 := AfterExamine(w, desTag, i);
    assert w1.Keys == w.Keys;
    forall k | k in w ensures Swept(w1, desTag, i + 1, max)[k] == Swept(w, desTag, i, max)[k] {
      if k != i {
        assert w1[k] == w[k];
      }
    }
  }

  /** Whether or not it fails, a scan keeps the local model valid and changes nothing outside its range. */
  lemma {:induction false} ScanFrame(desTag: string, gids: EntityId -> Gid, i: EntityId, max: int, s: ScanState)
    requires s.local.Valid()
    ensures var r := ScanFrom(desTag, gids, i, max, s);
      && r.state.local.Valid()
      && r.state.local.baselineReset == s.local.baselineReset
      && r.state.world.Keys == s.world.Keys
      && (forall k :: k in s.world && !(i <= k <= max) ==> r.state.world[k] == s.world[k])
    decreases max - i
  {
    if i <= max {
      ExamineSpec(desTag, gids, i, s);
      ScanFrame(desTag, gids, i + 1, max, ExamineId(desTag, gids, i, s).state);
    }
  }

  /** The scan of `i` to `max` fails exactly when some candidate is already tracked or cannot be serialized. */
  lemma {:induction false} ScanFails(desTag: string, gids: EntityId -> Gid, i: EntityId, max: int, s: ScanState)
    requires s.local.Valid()
    ensures ScanFrom(desTag, gids, i, max, s).error.None?
        <==> Trackable(s.world, s.local, Candidates(s.world, desTag, i, max))
    decreases max - i
  {
    if i <= max {
      var step := ExamineId(desTag, gids, i, s);
      var w := s.world;
      var rest := Candidates(w, desTag, i + 1, max);
      ExamineSpec(desTag, gids, i, s);
      assert i !in rest
          && Candidates(step.state.world, desTag, i + 1, max) == rest
          && (Trackable(step.state.world, step.state.local, rest) <==> Trackable(w, step.state.local, rest)) by {
        CandidatesInRange(w, desTag, i + 1, max);
        CandidatesFrame(w, step.state.world, desTag, i + 1, max);
      }
      if step.error.None? {
        ScanFails(desTag, gids, i + 1, max, step.state);
      }
      if Candidate(w, desTag, i) {
        assert Candidates(w, desTag, i, max) == [i] + rest;
        CandidateStep(w, s.local, step.state.local, i, rest, step.error.None?);
      } else {
        assert Candidates(w, desTag, i, max) == rest;
      }
    }
  }

  /** A scan that does not stop early kills exactly the leftovers in range. */
  lemma {:induction false} ScanSweeps(desTag: string, gids: EntityId -> Gid, i: EntityId, max: int, s: ScanState)
    requires s.local.Valid()
    requires ScanFrom(desTag, gids, i, max, s).error.None?
    ensures ScanFrom(desTag, gids, i, max, s).state.world == Swept(s.world, desTag, i, max)
    decreases max - i
  {
    if i > max {
      assert s.world == Swept(s.world, desTag, i, max);
    } else {
      var step := ExamineId(desTag, gids, i, s);
      ExamineSpec(desTag, gids, i, s);
      ScanSweeps(desTag, gids, i + 1, max, step.state);
      SweptStep(s.world, desTag, i, max);
    }
  }

  /** A scan that does not stop early announces every candidate, in order. */
  lemma {:induction false} ScanAnnounces(desTag: string, gids: EntityId -> Gid, i: EntityId, max: int, s: ScanState)
    requires s.local.Valid()
    requires ScanFrom(desTag, gids, i, max, s).error.None?
    ensures Trackable(s.world, s.local, Candidates(s.world, desTag, i, max))
    ensures ScanFrom(desTag, gids, i, max, s).state.sent
         == s.sent + InitMessages(s.world, gids, Candidates(s.world, desTag, i, max))
    decreases max - i
  {
    ScanFails(desTag, gids, i, max, s);
    if i > max {
      assert s.sent + [] == s.sent;
    } else {
      var step := ExamineId(desTag, gids, i, s);
      var w, w1 := s.world, step.state.world;
      var cands := Candidates(w, desTag, i, max);
      var rest := Candidates(w, desTag, i + 1, max);
      ExamineSpec(desTag, gids, i, s);
      assert Candidates(w1, desTag, i + 1, max) == rest by {
        CandidatesFrame(w, w1, desTag, i + 1, max);
      }
      ScanAnnounces(desTag, gids, i + 1, max, step.state);
      assert (Candidate(w, desTag, i) ==> cands == [i] + rest) && (!Candidate(w, desTag, i) ==> cands == rest);
      assert Trackable(w, s.local, rest) && InitMessages(w1, gids, rest) == InitMessages(w, gids, rest) by {
        CandidatesInRange(w, desTag, i + 1, max);
        InitMessagesFrame(w, w1, gids, rest);
      }
      var tail := InitMessages(w, gids, rest);
      if Candidate(w, desTag, i) {
        var m := InitMessage(FullEntityData(gids(i), w[i].serialized.value));
        InitMessagesCons(w, gids, i, rest);
        assert step.state.sent == s.sent + [m];
        AppendAssoc(s.sent, [m], tail);
      }
    }
  }

  /**
   * What a scan that does not stop early does to each id of its window: a
   * dead id is left alone, an alive id carrying the DES tag is killed and
   * not tracked, and an alive untagged id becomes tracked exactly when it
   * is an enemy or a physics prop.
   */
  lemma ScanWindow(desTag: string, gids: EntityId -> Gid, lo: EntityId, max: int, s: ScanState, k: EntityId)
    requires s.local.Valid()
    requires ScanFrom(desTag, gids, lo, max, s).error.None?
    requires lo <= k <= max
    ensures var r := ScanFrom(desTag, gids, lo, max, s).state;
      && r.world.Keys == s.world.Keys
      && (!Alive(s.world, k) ==> (k in s.world ==> r.world[k] == s.world[k]) && (k in r.local.lidOf <==> k in s.local.lidOf))
      && (Leftover(s.world, desTag, k) ==> !Alive(r.world, k) && (k in r.local.lidOf <==> k in s.local.lidOf))
      && (Alive(s.world, k) && !HasTag(s.world, k, desTag) ==>
            (k in r.local.lidOf <==> k in s.local.lidOf || HasTag(s.world, k, "enemy") || HasTag(s.world, k, "prop_physics")))
  {
    var r := ScanFrom(desTag, gids, lo, max, s).state;
    ScanFrame(desTag, gids, lo, max, s);
    assert r.world == Swept(s.world, desTag, lo, max) by {
      ScanSweeps(desTag, gids, lo, max, s);
    }
    assert r.local.lidOf.Keys == s.local.lidOf.Keys + set j | j in Candidates(s.world, desTag, lo, max) by {
      ScanTracks(desTag, gids, lo, max, s);
    }
    assert k in Candidates(s.world, desTag, lo, max) <==> Candidate(s.world, desTag, k) by {
      CandidatesInRange(s.world, desTag, lo, max);
    }
  }

  lemma AppendAssoc<T>(a: seq<T>, b: seq<T>, c: seq<T>)
    ensures (a + b) + c == a + (b + c)
  {
  }

  lemma InitMessagesCons(w: World, gids: EntityId -> Gid, i: EntityId, rest: seq<EntityId>)
    requires i in w && w[i].serialized.Some?
    requires forall k :: k in rest ==> k in w && w[k].serialized.Some?
    ensures InitMessages(w, gids, [i] + rest)
         == [InitMessage(FullEntityData(gids(i), w[i].serialized.value))] + InitMessages(w, gids, rest)
  {
    assert ([i] + rest)[1..] == rest;
  }

  /** A scan that does not stop early starts tracking exactly the candidates. */
  lemma {:induction false} ScanTracks(desTag: string, gids: EntityId -> Gid, i: EntityId, max: int, s: ScanState)
    requires s.local.Valid()
    requires ScanFrom(desTag, gids, i, max, s).error.None?
    ensures ScanFrom(desTag, gids, i, max, s).state.local.lidOf.Keys
         == s.local.lidOf.Keys + set k | k in Candidates(s.world, desTag, i, max)
    decreases max - i
  {
    if i <= max {
      var step := ExamineId(desTag, gids, i, s);
      var w := s.world;
      var rest := Candidates(w, desTag, i + 1, max);
      ExamineSpec(desTag, gids, i, s);
      assert Candidates(step.state.world, desTag, i + 1, max) == rest by {
        CandidatesFrame(w, step.state.world, desTag, i + 1, max);
      }
      ScanTracks(desTag, gids, i + 1, max, step.state);
      if Candidate(w, desTag, i) {
        assert Candidates(w, desTag, i, max) == [i] + rest;
        assert i !in rest by {
          CandidatesInRange(w, desTag, i + 1, max);
        }
        CandidateStep(w, s.local, step.state.local, i, rest, true);
      } else {
        assert Candidates(w, desTag, i, max) == rest;
      }
    }
  }

  /** Bookkeeping for one tracked candidate `i` followed by the candidates `rest`. */
  lemma CandidateStep(w: World, local: LocalDiffModel, local1: LocalDiffModel, i: EntityId, rest: seq<EntityId>, ok: bool)
    requires i !in rest
    requires ok <==> i in w && i !in local.lidOf && w[i].serialized.Some?
    requires ok ==> local1.lidOf.Keys == local.lidOf.Keys + {i}
    ensures ok ==> (Trackable(w, local1, rest) <==> Trackable(w, local, rest))
    ensures Trackable(w, local, [i] + rest) <==> ok && Trackable(w, local, rest)
    ensures ok ==> local1.lidOf.Keys + (set k | k in rest) == local.lidOf.Keys + set k | k in [i] + rest
  {
  }

  // ---------------------------------------------------------------------
  // The orchestrator's state and the routing of inbound messages

  /** The state of the orchestrator (the fields of `EntitySync`, entity_sync.rs:28-37). */
  datatype SyncState = SyncState(
    look: EntityId,
    tracker: InterestTracker,
    local: LocalDiffModel,
    remote: map<PeerId, RemoteDiffModel>,
    pending: seq<ProjectileFired>)

  /** `EntitySync::default` (entity_sync.rs:39-51): the scan starts after id 1 and nothing is known. */
  function InitialSync(): (r: SyncState)
    ensures r.look == 1 && r.remote == map[] && r.pending == []
    ensures r.tracker.Valid() && r.local.Valid() && r.local.lidOf == map[]
  {
    SyncState(1, NewTracker(), NewLocalModel(), map[], [])
  }

  /** The mirror of `p`'s entities, or a fresh one (`entry(p).or_default()`). */
  function ModelOf(remote: map<PeerId, RemoteDiffModel>, p: PeerId): RemoteDiffModel
  {
    if p in remote then remote[p] else NewRemoteModel()
  }

  /** `handle_proxytodes` (entity_sync.rs:89-96). */
  function ApplyProxy(s: SyncState, msg: ProxyToDes): (r: SyncState)
    ensures r.local.adopted == s.local.adopted + [msg.full]
    ensures r.local.lidOf == s.local.lidOf && r.local.entities == s.local.entities
    ensures r.look == s.look && r.tracker == s.tracker && r.remote == s.remote && r.pending == s.pending
  {
    match msg
    case GotAuthority(full) => s.(local := s.local.GotAuthority(full))
  }

  /**
   * `handle_remotedes` (entity_sync.rs:98-120): entity updates and
   * projectiles go to the sender's mirror, created on demand; leaving the
   * interest area drops the sender's mirror; interest requests and resets
   * go to the interest tracker.  No other peer's mirror is touched.
   */
  function Route(s: SyncState, source: PeerId, msg: RemoteDes): (r: SyncState)
    ensures r.look == s.look && r.local == s.local && r.pending == s.pending
    ensures forall p :: p != source ==> (p in r.remote <==> p in s.remote)
    ensures forall p :: p != source && p in s.remote ==> r.remote[p] == s.remote[p]
    ensures msg.EntityUpdate? ==> source in r.remote && r.remote[source] == ModelOf(s.remote, source).ApplyDiff(msg.diff)
    ensures msg.Projectiles? ==> source in r.remote && r.remote[source] == ModelOf(s.remote, source).SpawnProjectiles(msg.batch)
    ensures msg.ExitedInterest? ==> source !in r.remote
    ensures msg.InterestRequest? ==> r.tracker == s.tracker.HandleInterestRequest(source, msg.request)
    ensures msg.Reset? ==> r.tracker == s.tracker.ResetInterestFor(source)
    ensures msg.InterestRequest? || msg.Reset? ==> r.remote == s.remote
    ensures !(msg.InterestRequest? || msg.Reset?) ==> r.tracker == s.tracker
    ensures s.tracker.Valid() ==> r.tracker.Valid()
  {
    match msg
    case InterestRequest(request) => s.(tracker := s.tracker.HandleInterestRequest(source, request))
    case EntityUpdate(diff) => s.(remote := s.remote[source := ModelOf(s.remote, source).ApplyDiff(diff)])
    case ExitedInterest => s.(remote := s.remote - {source})
    case Reset => s.(tracker := s.tracker.ResetInterestFor(source))
    case Projectiles(batch) => s.(remote := s.remote[source := ModelOf(s.remote, source).SpawnProjectiles(batch)])
  }

  /** A peer that left and came back starts over with a fresh mirror: only the new diff is in it. */
  lemma RouteRestartsMirror(s: SyncState, source: PeerId, d: Diff)
    ensures Route(Route(s, source, ExitedInterest), source, EntityUpdate(d)).remote[source].diffs == [d]
  {
    var r := Route(s, source, ExitedInterest);
    assert ModelOf(r.remote, source) == NewRemoteModel();
  }

  /** Mirror-bound messages from two different peers can be handled in either order. */
  lemma RouteCommutes(s: SyncState, p: PeerId, q: PeerId, m: RemoteDes, n: RemoteDes)
    requires p != q
    requires !m.InterestRequest? && !m.Reset? && !n.InterestRequest? && !n.Reset?
    ensures Route(Route(s, p, m), q, n) == Route(Route(s, q, n), p, m)
  {
    var a, b := Route(Route(s, p, m), q, n), Route(Route(s, q, n), p, m);
    assert a.remote.Keys == b.remote.Keys;
    assert forall x :: x in a.remote ==> a.remote[x] == b.remote[x];
  }

  // ---------------------------------------------------------------------
  // Outbound messages of a frame

  /** `send_remotedes` (entity_sync.rs:249-261): a DES payload wrapped in a remote message. */
  function SendDes(reliable: bool, destination: Destination<PeerId>, des: RemoteDes): (r: NoitaOutbound)
    ensures r.RemoteMessage? && r.reliable == reliable && r.destination == destination
    ensures r.message.des == des
  {
    NoitaOutbound.RemoteMessage(reliable, destination, RemoteMessage.RemoteDes(des))
  }

  /** One reliable `ExitedInterest` per peer that lost interest, in order. */
  function ExitedMessages(lost: seq<PeerId>): seq<NoitaOutbound>
  {
    if |lost| == 0 then []
    else ExitedMessages(lost[..|lost| - 1]) + [SendDes(true, Peer(lost[|lost| - 1]), ExitedInterest)]
  }

  /** What an interested peer receives on an even frame: the projectile batch, then the diff. */
  function DiffPair(p: PeerId, batch: seq<ProjectileFired>, diff: Diff): seq<NoitaOutbound>
  {
    [SendDes(true, Peer(p), Projectiles(batch)), SendDes(true, Peer(p), EntityUpdate(diff))]
  }

  function DiffMessages(peers: seq<PeerId>, batch: seq<ProjectileFired>, diff: Diff): seq<NoitaOutbound>
  {
    if |peers| == 0 then []
    else DiffMessages(peers[..|peers| - 1], batch, diff) + DiffPair(peers[|peers| - 1], batch, diff)
  }

  /** ExitedMessages sends exactly one reliable exit notice to each lost peer, in order. */
  lemma {:induction false} ExitedMessagesShape(lost: seq<PeerId>)
    ensures |ExitedMessages(lost)| == |lost|
    ensures forall k :: 0 <= k < |lost| ==> ExitedMessages(lost)[k] == SendDes(true, Peer(lost[k]), ExitedInterest)
  {
    if |lost| > 0 {
      var init := lost[..|lost| - 1];
      ExitedMessagesShape(init);
      assert forall k :: 0 <= k < |init| ==> init[k] == lost[k];
    }
  }

  /**
   * DiffMessages sends each peer, in order, its projectile batch at an
   * even position and then the shared diff right after it.
   */
  lemma {:induction false} DiffMessagesShape(peers: seq<PeerId>, batch: seq<ProjectileFired>, diff: Diff)
    ensures |DiffMessages(peers, batch, diff)| == 2 * |peers|
    ensures forall j :: 0 <= j < 2 * |peers| ==>
      DiffMessages(peers, batch, diff)[j]
        == SendDes(true, Peer(peers[j / 2]), if j % 2 == 0 then Projectiles(batch) else EntityUpdate(diff))
  {
    if |peers| > 0 {
      var init := peers[..|peers| - 1];
      DiffMessagesShape(init, batch, diff);
      assert forall k :: 0 <= k < |init| ==> init[k] == peers[k];
    }
  }

  /** The interest broadcast of the frame, if it is due (entity_sync.rs:136-146). */
  function InterestBroadcast(frameNum: int, camera: WorldPos): seq<NoitaOutbound>
  {
    if frameNum % 20 == 0 then [SendDes(false, Broadcast, RemoteDes.InterestRequest(InterestRequest.InterestRequest(camera)))]
    else []
  }

  /** The authority request of the frame, if it is due (entity_sync.rs:190-199). */
  function AuthorityRequest(frameNum: int, camera: WorldPos): seq<NoitaOutbound>
  {
    if frameNum % 60 == 0 then [DesToProxy(RequestAuthority(camera))] else []
  }

  /** Every remote mirror materialized once. */
  function AppliedAll(remote: map<PeerId, RemoteDiffModel>): (r: map<PeerId, RemoteDiffModel>)
    ensures r.Keys == remote.Keys
    ensures forall p :: p in remote ==> r[p] == remote[p].ApplyEntities()
  {
    map p | p in remote :: remote[p].ApplyEntities()
  }

  // ---------------------------------------------------------------------
  // One frame (on_world_update, entity_sync.rs:129-204)

  /**
   * What the game and the collaborators supply for one frame: the frame
   * number, the camera position, the peers whose announced areas the
   * interest tracker judges to call for this peer's entities, the outcomes
   * of the collaborators' fallible steps, the encoding of the local
   * entities' changes (given whether it starts from a fresh baseline), and
   * the largest entity id in use once the collaborators have run (the
   * orchestrator requires it to be at least the reading taken before the
   * scan, since spawning entities only raises it).
   */
  datatype FrameEnv = FrameEnv(
    frameNum: int,
    camera: WorldPos,
    inRange: seq<PeerId>,
    pendingAuthority: Outcome<Error>,
    localUpdate: Outcome<Error>,
    encode: bool -> Diff,
    maxInUseAfter: EntityId)

  /** The orchestrator together with the world it acts on and the messages sent so far. */
  datatype Frame = Frame(sync: SyncState, world: World, sent: seq<NoitaOutbound>)

  datatype Ticked = Ticked(frame: Frame, result: Outcome<Error>)

  const LookContext: string := "Error in look_for_tracked"
  const UpdateContext: string := "Failed to update locally tracked entities"

  /** A whole frame: the scan, then the broadcasts, then the exchange of diffs. */
  function Tick(desTag: string, gids: EntityId -> Gid, maxInUse: EntityId, env: FrameEnv, f: Frame): Ticked
    requires Distinct(env.inRange)
  {
    var sc := ScanFrom(desTag, gids, f.sync.look + 1, maxInUse, ScanState(f.world, f.sync.local, f.sent));
    if sc.error.Some? then
      Ticked(Frame(f.sync.(local := sc.state.local), sc.state.world, sc.state.sent), Fail(Wrapped(LookContext, sc.error.value)))
    else
      Broadcasts(env, Frame(f.sync.(look := maxInUse, local := sc.state.local), sc.state.world, sc.state.sent))
  }

  /** Moving the interest centre, the interest broadcast and the exit notices (entity_sync.rs:133-155). */
  function Announced(env: FrameEnv, f: Frame): Frame
    requires Distinct(env.inRange)
  {
    var (lost, tracker) := f.sync.tracker.SetCenter(env.camera, env.inRange).DrainLostInterest();
    Frame(f.sync.(tracker := tracker), f.world, f.sent + InterestBroadcast(env.frameNum, env.camera) + ExitedMessages(lost))
  }

  /** The frame after the scan: announcements, then the pending-authority update, then the exchange (entity_sync.rs:133-157). */
  function Broadcasts(env: FrameEnv, f: Frame): Ticked
    requires Distinct(env.inRange)
  {
    var g := Announced(env, f);
    if env.pendingAuthority.Fail? then Ticked(g, env.pendingAuthority) else Exchange(env, g)
  }

  /** Sending diffs on even frames, materializing remote entities on odd ones (entity_sync.rs:159-188). */
  function Exchange(env: FrameEnv, f: Frame): Ticked
  {
    if env.frameNum % 2 == 0 then
      if env.localUpdate.Fail? then Ticked(f, Fail(Wrapped(UpdateContext, env.localUpdate.error)))
      else
        var (gotNew, tracker) := f.sync.tracker.GotAnyNewInterested();
        var (baseline, local) := (if gotNew then f.sync.local.ResetDiffEncoding() else f.sync.local).MakeDiff();
        Finish(env, Frame(f.sync.(tracker := tracker, local := local, pending := []), f.world,
                          f.sent + DiffMessages(tracker.interested, f.sync.pending, env.encode(baseline))))
    else
      Finish(env, f.(sync := f.sync.(remote := AppliedAll(f.sync.remote))))
  }

  /** The authority request and the new scan boundary (entity_sync.rs:190-203). */
  function Finish(env: FrameEnv, f: Frame): Ticked
  {
    Ticked(Frame(f.sync.(look := env.maxInUseAfter), f.world, f.sent + AuthorityRequest(env.frameNum, env.camera)), Pass)
  }

  // ---------------------------------------------------------------------
  // Properties of a frame

  /** The candidates of the frame's scan window `(look, maxInUse]`. */
  function WindowCandidates(desTag: string, maxInUse: EntityId, f: Frame): seq<EntityId>
  {
    Candidates(f.world, desTag, f.sync.look + 1, maxInUse)
  }

  /** The interest tracker once the centre has moved. */
  function Centered(env: FrameEnv, f: Frame): InterestTracker
    requires Distinct(env.inRange)
  {
    f.sync.tracker.SetCenter(env.camera, env.inRange)
  }

  /**
   * How a frame ends: it fails in the scan exactly when a candidate of the
   * window is already tracked or cannot be serialized (with the scan's
   * context added and the boundary kept); otherwise it fails with the
   * collaborators' errors, in source order; and a frame that succeeds moves
   * the boundary to the largest id in use at its end.
   */
  lemma TickOutcome(desTag: string, gids: EntityId -> Gid, maxInUse: EntityId, env: FrameEnv, f: Frame)
    requires Distinct(env.inRange) && f.sync.local.Valid()
    ensures var t := Tick(desTag, gids, maxInUse, env, f);
      var scanOk := Trackable(f.world, f.sync.local, WindowCandidates(desTag, maxInUse, f));
      && (!scanOk ==> t.result.Fail? && t.result.error.Wrapped? && t.result.error.context == LookContext
                      && t.frame.sync.look == f.sync.look && t.frame.sync.tracker == f.sync.tracker
                      && t.frame.sync.remote == f.sync.remote && t.frame.sync.pending == f.sync.pending)
      && (scanOk && env.pendingAuthority.Fail? ==> t.result == env.pendingAuthority && t.frame.sync.look == maxInUse)
      && (scanOk && env.pendingAuthority.Pass? && env.frameNum % 2 == 0 && env.localUpdate.Fail? ==>
            t.result == Fail(Wrapped(UpdateContext, env.localUpdate.error)) && t.frame.sync.look == maxInUse)
      && (t.result.Pass? <==> scanOk && env.pendingAuthority.Pass? && (env.frameNum % 2 == 0 ==> env.localUpdate.Pass?))
      && (t.result.Pass? ==> t.frame.sync.look == env.maxInUseAfter)
  {
    ScanFails(desTag, gids, f.sync.look + 1, maxInUse, ScanState(f.world, f.sync.local, f.sent));
  }

  /** The scan of a frame touches only its window `(look, maxInUse]`: every other entity is as it was. */
  lemma TickFrame(desTag: string, gids: EntityId -> Gid, maxInUse: EntityId, env: FrameEnv, f: Frame)
    requires Distinct(env.inRange) && f.sync.local.Valid()
    ensures var t := Tick(desTag, gids, maxInUse, env, f);
      && t.frame.sync.local.Valid()
      && t.frame.world.Keys == f.world.Keys
      && (forall k :: k in f.world && !(f.sync.look < k <= maxInUse) ==> t.frame.world[k] == f.world[k])
  {
    var s0 := ScanState(f.world, f.sync.local, f.sent);
    TickKeepsScan(desTag, gids, maxInUse, env, f);
    ScanFrame(desTag, gids, f.sync.look + 1, maxInUse, s0);
  }

  /**
   * When the scan of a frame succeeds, the leftovers of the window are dead
   * and exactly the window's candidates have become tracked.
   */
  lemma TickSweeps(desTag: string, gids: EntityId -> Gid, maxInUse: EntityId, env: FrameEnv, f: Frame)
    requires Distinct(env.inRange) && f.sync.local.Valid()
    requires Trackable(f.world, f.sync.local, WindowCandidates(desTag, maxInUse, f))
    ensures var t := Tick(desTag, gids, maxInUse, env, f);
      && t.frame.world == Swept(f.world, desTag, f.sync.look + 1, maxInUse)
      && t.frame.sync.local.lidOf.Keys == f.sync.local.lidOf.Keys + set k | k in WindowCandidates(desTag, maxInUse, f)
  {
    var s0 := ScanState(f.world, f.sync.local, f.sent);
    var sc := ScanFrom(desTag, gids, f.sync.look + 1, maxInUse, s0);
    var cands := WindowCandidates(desTag, maxInUse, f);
    assert sc.state.world == Swept(f.world, desTag, f.sync.look + 1, maxInUse)
        && sc.state.local.lidOf.Keys == f.sync.local.lidOf.Keys + set k | k in cands by {
      ScanFails(desTag, gids, f.sync.look + 1, maxInUse, s0);
      ScanSweeps(desTag, gids, f.sync.look + 1, maxInUse, s0);
      ScanTracks(desTag, gids, f.sync.look + 1, maxInUse, s0);
    }
    TickKeepsScan(desTag, gids, maxInUse, env, f);
  }

  /** The world and the tracked entities at the end of a frame are those the scan left. */
  lemma TickKeepsScan(desTag: string, gids: EntityId -> Gid, maxInUse: EntityId, env: FrameEnv, f: Frame)
    requires Distinct(env.inRange)
    ensures var sc := ScanFrom(desTag, gids, f.sync.look + 1, maxInUse, ScanState(f.world, f.sync.local, f.sent));
      var t := Tick(desTag, gids, maxInUse, env, f);
      && t.frame.world == sc.state.world
      && t.frame.sync.local.lidOf == sc.state.local.lidOf
      && (sc.state.local.Valid() ==> t.frame.sync.local.Valid())
  {
    var sc := ScanFrom(desTag, gids, f.sync.look + 1, maxInUse, ScanState(f.world, f.sync.local, f.sent));
    if sc.error.None? {
      BroadcastsKeep(env, Frame(f.sync.(look := maxInUse, local := sc.state.local), sc.state.world, sc.state.sent));
    }
  }

  /** After the scan, a frame changes neither the world nor which entities are tracked. */
  lemma BroadcastsKeep(env: FrameEnv, g: Frame)
    requires Distinct(env.inRange)
    ensures var t := Broadcasts(env, g);
      && t.frame.world == g.world
      && t.frame.sync.local.lidOf == g.sync.local.lidOf
      && (g.sync.local.Valid() ==> t.frame.sync.local.Valid())
  {
  }

  /** The messages of a frame that succeeds, in the order they are sent. */
  function FrameMessages(desTag: string, gids: EntityId -> Gid, maxInUse: EntityId, env: FrameEnv, f: Frame): seq<NoitaOutbound>
    requires Distinct(env.inRange)
    requires Trackable(f.world, f.sync.local, WindowCandidates(desTag, maxInUse, f))
  {
    var c := Centered(env, f);
    InitMessages(f.world, gids, WindowCandidates(desTag, maxInUse, f))
    + InterestBroadcast(env.frameNum, env.camera)
    + ExitedMessages(c.lost)
    + (if env.frameNum % 2 == 0
       then DiffMessages(c.interested, f.sync.pending, env.encode(c.newInterest || f.sync.local.baselineReset))
       else [])
    + AuthorityRequest(env.frameNum, env.camera)
  }

  /** A frame that succeeds appends exactly FrameMessages to what was sent before. */
  lemma TickMessages(desTag: string, gids: EntityId -> Gid, maxInUse: EntityId, env: FrameEnv, f: Frame)
    requires Distinct(env.inRange) && f.sync.local.Valid()
    requires Tick(desTag, gids, maxInUse, env, f).result.Pass?
    ensures Trackable(f.world, f.sync.local, WindowCandidates(desTag, maxInUse, f))
    ensures Tick(desTag, gids, maxInUse, env, f).frame.sent == f.sent + FrameMessages(desTag, gids, maxInUse, env, f)
  {
    var s0 := ScanState(f.world, f.sync.local, f.sent);
    var lo := f.sync.look + 1;
    ScanFails(desTag, gids, lo, maxInUse, s0);
    ScanAnnounces(desTag, gids, lo, maxInUse, s0);
    ScanFrame(desTag, gids, lo, maxInUse, s0);
    var sc := ScanFrom(desTag, gids, lo, maxInUse, s0);
    var c := Centered(env, f);
    var a := InitMessages(f.world, gids, WindowCandidates(desTag, maxInUse, f));
    var b := InterestBroadcast(env.frameNum, env.camera);
    var e := ExitedMessages(c.lost);
    var d := if env.frameNum % 2 == 0
             then DiffMessages(c.interested, f.sync.pending, env.encode(c.newInterest || f.sync.local.baselineReset))
             else [];
    var q := AuthorityRequest(env.frameNum, env.camera);
    assert sc.state.sent == f.sent + a;
    AppendAssoc(f.sent, a, b);
    AppendAssoc(f.sent + a + b, e, d);
    assert f.sent + a + b + e == f.sent + (a + b + e) by {
      AppendAssoc(f.sent, a + b, e);
    }
    assert f.sent + a + b + e + d + q == f.sent + (a + b + e + d + q) by {
      AppendAssoc(f.sent, a + b + e, d);
      AppendAssoc(f.sent, a + b + e + d, q);
    }
  }

  lemma {:induction false} InitMessagesKind(w: World, gids: EntityId -> Gid, cands: seq<EntityId>)
    requires forall k :: k in cands ==> k in w && w[k].serialized.Some?
    ensures forall m :: m in InitMessages(w, gids, cands) ==> m.DesToProxy? && m.desMsg.InitOrUpdateEntity?
  {
    if |cands| > 0 {
      InitMessagesKind(w, gids, cands[1..]);
    }
  }

  /** The exit notices go, reliably, to exactly the lost peers. */
  lemma {:induction false} ExitedMessagesMembers(lost: seq<PeerId>)
    ensures forall p :: SendDes(true, Peer(p), ExitedInterest) in ExitedMessages(lost) <==> p in lost
    ensures forall m :: m in ExitedMessages(lost) ==>
      m.RemoteMessage? && m.reliable && m.destination.Peer? && m.message.des.ExitedInterest?
  {
    if |lost| > 0 {
      var init := lost[..|lost| - 1];
      ExitedMessagesMembers(init);
      assert lost == init + [lost[|lost| - 1]];
    }
  }

  /** The projectile batches and diffs go, reliably, to exactly the given peers. */
  lemma {:induction false} DiffMessagesMembers(peers: seq<PeerId>, batch: seq<ProjectileFired>, diff: Diff)
    ensures forall p :: SendDes(true, Peer(p), Projectiles(batch)) in DiffMessages(peers, batch, diff) <==> p in peers
    ensures forall p :: SendDes(true, Peer(p), EntityUpdate(diff)) in DiffMessages(peers, batch, diff) <==> p in peers
    ensures forall m :: m in DiffMessages(peers, batch, diff) ==>
      m.RemoteMessage? && m.reliable && m.destination.Peer?
      && (m.message.des.Projectiles? || m.message.des.EntityUpdate?)
  {
    if |peers| > 0 {
      var init := peers[..|peers| - 1];
      DiffMessagesMembers(init, batch, diff);
      assert peers == init + [peers[|peers| - 1]];
    }
  }

  /**
   * A frame broadcasts its interest request, unreliably and to every peer,
   * exactly on frames divisible by 20, and sends no other interest request.
   * (`%` differs between Rust and Dafny only in the sign of a non-zero
   * remainder, so divisibility reads the same in both.)
   */
  lemma TickInterestCadence(desTag: string, gids: EntityId -> Gid, maxInUse: EntityId, env: FrameEnv, f: Frame)
    requires Distinct(env.inRange)
    requires Trackable(f.world, f.sync.local, WindowCandidates(desTag, maxInUse, f))
    ensures var broadcast := SendDes(false, Broadcast, RemoteDes.InterestRequest(InterestRequest.InterestRequest(env.camera)));
      && (broadcast in FrameMessages(desTag, gids, maxInUse, env, f) <==> env.frameNum % 20 == 0)
      && (forall m :: (m in FrameMessages(desTag, gids, maxInUse, env, f) && m.RemoteMessage?
                       && m.message.des.InterestRequest?) ==> m == broadcast)
  {
    var c := Centered(env, f);
    InitMessagesKind(f.world, gids, WindowCandidates(desTag, maxInUse, f));
    ExitedMessagesMembers(c.lost);
    DiffMessagesMembers(c.interested, f.sync.pending, env.encode(c.newInterest || f.sync.local.baselineReset));
  }

  /** A frame asks the proxy for authority around the camera exactly on frames divisible by 60. */
  lemma TickAuthorityCadence(desTag: string, gids: EntityId -> Gid, maxInUse: EntityId, env: FrameEnv, f: Frame)
    requires Distinct(env.inRange)
    requires Trackable(f.world, f.sync.local, WindowCandidates(desTag, maxInUse, f))
    ensures (DesToProxy(RequestAuthority(env.camera)) in FrameMessages(desTag, gids, maxInUse, env, f)) <==> env.frameNum % 60 == 0
    ensures forall m :: (m in FrameMessages(desTag, gids, maxInUse, env, f) && m.DesToProxy?
                         && m.desMsg.RequestAuthority?) ==> m == DesToProxy(RequestAuthority(env.camera))
  {
    var c := Centered(env, f);
    var ask := DesToProxy(RequestAuthority(env.camera));
    var cands := WindowCandidates(desTag, maxInUse, f);
    var d := if env.frameNum % 2 == 0
             then DiffMessages(c.interested, f.sync.pending, env.encode(c.newInterest || f.sync.local.baselineReset))
             else [];
    var rest := InitMessages(f.world, gids, cands) + InterestBroadcast(env.frameNum, env.camera) + ExitedMessages(c.lost) + d;
    assert FrameMessages(desTag, gids, maxInUse, env, f) == rest + AuthorityRequest(env.frameNum, env.camera);
    assert forall m :: m in rest ==> !(m.DesToProxy? && m.desMsg.RequestAuthority?) by {
      InitMessagesKind(f.world, gids, cands);
      ExitedMessagesMembers(c.lost);
      DiffMessagesMembers(c.interested, f.sync.pending, env.encode(c.newInterest || f.sync.local.baselineReset));
    }
  }

  /**
   * A frame tells a peer, reliably, that it left the interest area exactly
   * when the peer was queued as lost or was interested and no longer is.
   */
  lemma TickExitNotices(desTag: string, gids: EntityId -> Gid, maxInUse: EntityId, env: FrameEnv, f: Frame, p: PeerId)
    requires Distinct(env.inRange)
    requires Trackable(f.world, f.sync.local, WindowCandidates(desTag, maxInUse, f))
    ensures var t := f.sync.tracker;
      (SendDes(true, Peer(p), ExitedInterest) in FrameMessages(desTag, gids, maxInUse, env, f))
        <==> (p in t.lost || (p in t.interested && !(p in env.inRange && p in t.requests)))
    ensures forall m :: (m in FrameMessages(desTag, gids, maxInUse, env, f) && m.RemoteMessage?
                         && m.message.des.ExitedInterest?) ==> m.reliable && m.destination.Peer?
  {
    var c := Centered(env, f);
    InitMessagesKind(f.world, gids, WindowCandidates(desTag, maxInUse, f));
    ExitedMessagesMembers(c.lost);
    DiffMessagesMembers(c.interested, f.sync.pending, env.encode(c.newInterest || f.sync.local.baselineReset));
  }

  /**
   * On even frames every interested peer (one that asked and is in range)
   * receives, reliably, the pending projectiles and the shared diff; nobody
   * else receives either, and on odd frames no diff or projectile batch is
   * sent at all.
   */
  lemma TickDiffs(desTag: string, gids: EntityId -> Gid, maxInUse: EntityId, env: FrameEnv, f: Frame, p: PeerId)
    requires Distinct(env.inRange)
    requires Trackable(f.world, f.sync.local, WindowCandidates(desTag, maxInUse, f))
    ensures var diff := env.encode(Centered(env, f).newInterest || f.sync.local.baselineReset);
      var fm := FrameMessages(desTag, gids, maxInUse, env, f);
      var due := env.frameNum % 2 == 0 && p in env.inRange && p in f.sync.tracker.requests;
      && (SendDes(true, Peer(p), Projectiles(f.sync.pending)) in fm <==> due)
      && (SendDes(true, Peer(p), EntityUpdate(diff)) in fm <==> due)
  {
    var c := Centered(env, f);
    InitMessagesKind(f.world, gids, WindowCandidates(desTag, maxInUse, f));
    ExitedMessagesMembers(c.lost);
    DiffMessagesMembers(c.interested, f.sync.pending, env.encode(c.newInterest || f.sync.local.baselineReset));
  }

  /** Entity updates and projectile batches go out reliably and only on even frames. */
  lemma TickDiffsReliable(desTag: string, gids: EntityId -> Gid, maxInUse: EntityId, env: FrameEnv, f: Frame)
    requires Distinct(env.inRange)
    requires Trackable(f.world, f.sync.local, WindowCandidates(desTag, maxInUse, f))
    ensures forall m :: (m in FrameMessages(desTag, gids, maxInUse, env, f) && m.RemoteMessage?
                         && (m.message.des.EntityUpdate? || m.message.des.Projectiles?))
                        ==> env.frameNum % 2 == 0 && m.reliable
  {
    var c := Centered(env, f);
    InitMessagesKind(f.world, gids, WindowCandidates(desTag, maxInUse, f));
    ExitedMessagesMembers(c.lost);
    DiffMessagesMembers(c.interested, f.sync.pending, env.encode(c.newInterest || f.sync.local.baselineReset));
  }
  /**
   * After a successful frame the projectile queue is empty on even frames
   * and untouched on odd ones, and on odd frames (only) every remote mirror
   * has been materialized once.
   */
  lemma TickQueueAndMirrors(desTag: string, gids: EntityId -> Gid, maxInUse: EntityId, env: FrameEnv, f: Frame)
    requires Distinct(env.inRange)
    requires Tick(desTag, gids, maxInUse, env, f).result.Pass?
    ensures var t := Tick(desTag, gids, maxInUse, env, f);
      && (env.frameNum % 2 == 0 ==> t.frame.sync.pending == [] && t.frame.sync.remote == f.sync.remote)
      && (env.frameNum % 2 != 0 ==> t.frame.sync.pending == f.sync.pending && t.frame.sync.remote == AppliedAll(f.sync.remote))
  {
  }

  // ---------------------------------------------------------------------
  // Capturing fired projectiles (on_projectile_fired, entity_sync.rs:206-246)

  /**
   * What firing a projectile adds to the queue: nothing unless the shooter
   * is tracked by this peer, the projectile exists and has a projectile
   * component, and that component does not already name a shooter; in that
   * case the serialized projectile, or the serializer's error.
   */
  function Capture(local: LocalDiffModel, w: World, shooter: Option<EntityId>, projectile: Option<EntityId>,
                   position: Coords, target: Coords): (r: Result<Option<ProjectileFired>, Error>)
    ensures var guards := shooter.Some? && shooter.value in local.lidOf
                          && projectile.Some? && projectile.value in w && w[projectile.value].projectile.Some?
                          && w[projectile.value].projectile.value.entityThatShot.None?;
      && (r.Ok? && r.value.Some? <==> guards && w[projectile.value].serialized.Some?)
      && (r.Err? <==> guards && w[projectile.value].serialized.None?)
      && (r.Err? ==> r.error == SerializeFailed)
      && (r.Ok? && r.value.Some? ==>
            r.value.value == ProjectileFired(local.lidOf[shooter.value], position, target, w[projectile.value].serialized.value))
  {
    match shooter.Some? && shooter.value in local.lidOf
    case false => Ok(None)
    case true =>
      var shooterLid := local.lidOf[shooter.value];
      match projectile
      case None => Ok(None)
      case Some(p) =>
        if p !in w then Ok(None)
        else
          match w[p].projectile
          case None => Ok(None)
          case Some(component) =>
            if component.entityThatShot.Some? then Ok(None)
            else
              match w[p].serialized
              case None => Err(SerializeFailed)
              case Some(bytes) => Ok(Some(ProjectileFired(shooterLid, position, target, bytes)))
  }
}
