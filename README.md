# Distributed Entity Sync glue of noita_entangled_worlds, in Dafny

This project models and verifies the game-side glue of Distributed Entity Sync (DES). DES is the subsystem through which each peer of a Noita Entangled Worlds session takes over the enemies and physics props that spawn near it. It tells interested peers how those entities change and mirrors the entities other peers own. The model covers three parts.

- **The `EntitySync` orchestrator** (`ewext/src/modules/entity_sync.rs`). In module `SyncSpec`, each entry point is a reference function of the orchestrator's state and of what the game and the collaborators supply.
  - `ScanFrom` covers the scan for new entities.
  - `Route` and `ApplyProxy` cover inbound routing.
  - `Tick` covers one frame.
  - `Capture` covers projectile capture.

  The properties the orchestrator promises are proved as lemmas about these functions. Module `Orchestrator` holds the class `EntitySync`, whose fields are updated in place and whose sends go out one at a time. Each of its methods is proved to reach exactly the state the matching reference function prescribes.
- **The session glue** (`ewext/src/lib.rs`). Module `Session` holds the reference definitions:
  - the bootstrap exchange with the proxy (`Bootstrap`);
  - the receive loop (`Dispatch`, `Deliver`);
  - the error aggregation of the module fan-out (`Aggregate`, `Failures`);
  - the peer-to-player bimap.

  Module `Ext` holds the class `Extension`. It gathers the process-wide state (`MY_PEER_ID`, `NETMANAGER`, the loaded modules and the player map) into one object, and its methods are proved against those definitions.
- **The message envelopes and the game-effect names** (`shared/src/lib.rs`). Module `Protocol` declares the `NoitaInbound`/`NoitaOutbound`/`RemoteMessage` envelopes and the DES payloads they carry. The DES payloads are declared only with the fields the core reads or writes. Module `GameEffect` declares `GameEffectEnum`, which has 88 variants. It also declares the derived static-string table `ToStr` and the derived parser `Parse`. `Parse` runs on its own literal table of arms, `MatchArms`, grouped by string length. The proofs check each group of arms against `ToStr`, and from that derive that `ToStr` is injective and that `Parse` inverts it. Module `EffectData` declares the `GameEffectData` payload. Module `EffectNames` proves that every string in the table is the SCREAMING_SNAKE_CASE form of its variant's Rust identifier (`OnFire` gives `ON_FIRE`, `MovementSlower2X` gives `MOVEMENT_SLOWER2_X`, `_Last` gives `LAST`). That form is defined independently in module `Heck`, with `ShoutTable` as the generated bridge.

Modules `Host` and `Collaborators` stand for code this model does not contain.
- `Host` is the game world as a finite map from entity id to what the extension asks about an entity: alive, tags, the first projectile component, and its serialized form. It also holds the proxy connection as a queue of messages still to arrive plus a log of messages sent.
- `Collaborators` holds the interest tracker, the local diff model and the remote diff model. Their source is not part of this model. Each is a value with only the state and the small contracts the orchestrator relies on.

Inputs from the world that the source reads through foreign calls become parameters:
- the frame number, the camera position and the largest entity id in use (`FrameEnv`, `HostWorld.maxInUse`);
- the random gid given to a newly tracked entity (`gids`);
- the outcome of `PeerId::from_hex` (`parsed`);
- whether a module hook is already running (`lockBusy`).

A frame's interest geometry depends on floating-point positions and radii. It enters the model as the list of peers whose announced areas the tracker judges to be in range (`FrameEnv.inRange`). The encoding of the local diff enters as a function of whether it starts from a fresh baseline (`FrameEnv.encode`).

## Model

| member | source | states |
|---|---|---|
| SyncSpec.ScanFails | ewext/src/modules/entity_sync.rs:61-81 | the scan of the window (boundary, max] succeeds iff every id it starts tracking was untracked and serializes; otherwise it fails (the missing full entity data) |
| SyncSpec.CandidatesInRange | ewext/src/modules/entity_sync.rs:60-70 | the ids the scan starts tracking are exactly the ids in the window that are alive, lack the DES tag and are enemies or physics props, each listed once |
| SyncSpec.ScanWindow | ewext/src/modules/entity_sync.rs:54-56 | for every id in the window: a dead id is left alone and not tracked; an alive DES-tagged id is killed and not newly tracked; an alive untagged id ends up tracked iff it was tracked before or has tag `enemy` or `prop_physics` |
| SyncSpec.ScanAnnounces | ewext/src/modules/entity_sync.rs:73-81 | a successful scan appends exactly one `InitOrUpdateEntity` per newly tracked entity, in id order, carrying its gid and serialized form, and nothing else |
| SyncSpec.ScanTracks | ewext/src/modules/entity_sync.rs:70-73 | after a successful scan the tracked entities are the old ones plus exactly the window's candidates |
| SyncSpec.ScanSweeps | ewext/src/modules/entity_sync.rs:63-69 | after a successful scan the world is the old world with every alive DES-tagged id of the window killed and nothing else changed |
| SyncSpec.ScanFrame | ewext/src/modules/entity_sync.rs:61 | the scan keeps the local model well formed, keeps the set of world ids and leaves every id outside the window untouched, even when it fails |
| SyncSpec.ExamineSpec | ewext/src/modules/entity_sync.rs:62-82 | one id: a non-candidate changes neither the local model nor the log; a candidate is tracked and announced with one message iff it was untracked and serializes |
| SyncSpec.InitialSync | ewext/src/modules/entity_sync.rs:39-51 | a new orchestrator starts its scan after id 1, tracks nothing, mirrors nobody and has an empty projectile queue |
| SyncSpec.ApplyProxy | ewext/src/modules/entity_sync.rs:89-96 | `GotAuthority` hands the entity to the local model's adopted list and changes nothing else |
| SyncSpec.Route | ewext/src/modules/entity_sync.rs:98-120 | `EntityUpdate`/`Projectiles` from `source` reach `source`'s mirror, created empty if missing; `ExitedInterest` removes only `source`'s mirror; no other peer's mirror changes; `InterestRequest`/`Reset` reach only the interest tracker |
| SyncSpec.RouteRestartsMirror | ewext/src/modules/entity_sync.rs:103-111 | after an `ExitedInterest`, the next update from the same peer starts a fresh mirror holding only that diff |
| SyncSpec.RouteCommutes | ewext/src/modules/entity_sync.rs:103-118 | mirror-bound messages from two different peers commute |
| SyncSpec.SendDes | ewext/src/modules/entity_sync.rs:249-261 | every DES payload goes out wrapped in exactly one `RemoteMessage`, with the given reliability flag and destination |
| SyncSpec.ExitedMessagesShape | ewext/src/modules/entity_sync.rs:148-155 | one reliable `ExitedInterest` per drained peer, addressed to that peer, in drain order |
| SyncSpec.DiffMessagesShape | ewext/src/modules/entity_sync.rs:169-182 | for each interested peer, in order, a reliable `Projectiles` and then a reliable `EntityUpdate` carrying the same diff |
| SyncSpec.AppliedAll | ewext/src/modules/entity_sync.rs:185-187 | every remote mirror, and only those, is materialized once |
| SyncSpec.TickOutcome | ewext/src/modules/entity_sync.rs:129-204 | a failed scan fails the frame with the "Error in look_for_tracked" context and keeps the boundary; a failed pending-authority update or (on even frames) local update fails it after the scan; the frame succeeds iff none of these fails, and then the boundary is the largest id in use at the end of the frame |
| SyncSpec.TickMessages | ewext/src/modules/entity_sync.rs:136-199 | a successful frame sends exactly: the scan's announcements, the interest broadcast if due, the exit notices, on even frames the projectile and diff pair per interested peer, and the authority request if due, in that order |
| SyncSpec.TickInterestCadence | ewext/src/modules/entity_sync.rs:136-146 | the unreliable broadcast `InterestRequest` at the camera is sent iff the frame number is divisible by 20, and it is the frame's only interest request |
| SyncSpec.TickAuthorityCadence | ewext/src/modules/entity_sync.rs:190-197 | `RequestAuthority` at the camera is sent iff the frame number is divisible by 60, and it is the frame's only authority request |
| SyncSpec.TickExitNotices | ewext/src/modules/entity_sync.rs:148-155 | a peer gets a reliable `ExitedInterest` iff it had already lost interest or was interested and is no longer both in range and requesting |
| SyncSpec.TickDiffs | ewext/src/modules/entity_sync.rs:159-182 | a peer gets the queued projectiles and the frame's diff (from a fresh baseline when someone newly became interested or a reset was pending) iff the frame is even and the peer is in range and has asked |
| SyncSpec.TickDiffsReliable | ewext/src/modules/entity_sync.rs:159-182 | entity updates and projectile batches are sent only on even frames and always reliably |
| SyncSpec.TickQueueAndMirrors | ewext/src/modules/entity_sync.rs:183-187 | after a successful frame the projectile queue is empty on even frames and unchanged on odd ones; the mirrors are materialized once on odd frames only |
| SyncSpec.TickFrame | ewext/src/modules/entity_sync.rs:129-204 | a frame keeps the local model well formed and touches no world entity outside the scan window |
| SyncSpec.TickSweeps | ewext/src/modules/entity_sync.rs:61-83 | in a frame whose scan succeeds, the world and the tracked set change exactly as the scan prescribes |
| SyncSpec.Capture | ewext/src/modules/entity_sync.rs:217-241 | a fired projectile is queued iff the shooter is tracked here, the projectile exists, has a projectile component and that names no shooter, and it serializes; with the same guards and no serialized form the capture fails; otherwise nothing happens |
| Orchestrator.SendRemoteDes | ewext/src/modules/entity_sync.rs:249-261 | appends exactly that one envelope to the connection's log |
| Orchestrator.SendExitNotices | ewext/src/modules/entity_sync.rs:148-155 | appends exactly the exit notices of the drained peers |
| Orchestrator.SendDiffs | ewext/src/modules/entity_sync.rs:169-182 | appends exactly the projectile and diff pairs for the interested peers |
| Orchestrator.EntitySync.constructor | ewext/src/modules/entity_sync.rs:39-51 | the new orchestrator is in the initial state |
| Orchestrator.EntitySync.LookForTracked | ewext/src/modules/entity_sync.rs:58-87 | the loop leaves the world, the local model and the log as the reference scan does; on success the boundary becomes the largest id in use read at the start; on failure it reports the scan's error and keeps the boundary |
| Orchestrator.EntitySync.HandleProxyToDes | ewext/src/modules/entity_sync.rs:89-96 | the new state is the reference `ApplyProxy` of the old one |
| Orchestrator.EntitySync.HandleRemoteDes | ewext/src/modules/entity_sync.rs:98-120 | the new state is the reference `Route` of the old one |
| Orchestrator.EntitySync.OnWorldInit | ewext/src/modules/entity_sync.rs:124-127 | sends one reliable broadcast `Reset` and succeeds |
| Orchestrator.EntitySync.OnWorldUpdate | ewext/src/modules/entity_sync.rs:129-204 | its state, the world, the log and the result are those of the reference frame `Tick`; a completed frame raises the world's largest id in use to the second reading and leaves the scan boundary there |
| Orchestrator.EntitySync.UpdateInterest | ewext/src/modules/entity_sync.rs:133-157 | the part of the frame after the scan matches the reference `Broadcasts` |
| Orchestrator.EntitySync.ExchangeDiffs | ewext/src/modules/entity_sync.rs:159-203 | the even/odd part of the frame matches the reference `Exchange` |
| Orchestrator.EntitySync.ApplyAllRemote | ewext/src/modules/entity_sync.rs:185-187 | every mirror is materialized once, and nothing else changes |
| Orchestrator.EntitySync.OnProjectileFired | ewext/src/modules/entity_sync.rs:206-246 | queues exactly the entry `Capture` yields, or reports its error with the queue unchanged, and changes no other field |
| Session.BootstrapReady | ewext/src/lib.rs:156-164 | when the first message that is not raw is a `Ready`, the bootstrap returns the raw payloads before it in order, that `Ready`'s peer id and the messages after it |
| Session.BootstrapRejects | ewext/src/lib.rs:165 | any other message before `Ready` makes the bootstrap fail |
| Session.BootstrapClosed | ewext/src/lib.rs:159 | a connection closed before `Ready` makes the bootstrap fail |
| Session.Dispatch | ewext/src/lib.rs:177-199 | only `ProxyToDes` and `RemoteMessage` items are ever delivered to entity sync |
| Session.DispatchStops | ewext/src/lib.rs:177-180 | when the first message not for entity sync is at k, exactly the messages before it are delivered, in order; a raw message there is returned and a `Ready` there fails the loop |
| Session.DispatchDrains | ewext/src/lib.rs:177-199 | a queue of DES messages only is delivered whole and the loop returns nothing |
| Session.Deliver | ewext/src/lib.rs:181-196 | delivering messages keeps the boundary and the projectile queue, and keeps the collaborators well formed |
| Session.Aggregate | ewext/src/lib.rs:259-265 | no error gives success; one error is reported unchanged; two or more are reported together as a `MultipleErrors` listing them all |
| Session.Failures | ewext/src/lib.rs:253-258 | every failing module's error is collected, and only those |
| Session.AggregateOutcomes | ewext/src/lib.rs:253-265 | the fan-out succeeds iff every module succeeded; a single module's outcome is reported unchanged |
| Session.BiMap.Insert | ewext/src/lib.rs:453 | after inserting (p, e), p maps to e and e to p; the map stays one-to-one; earlier partners of p and e are dropped and every other pair is kept |
| Session.EmptyBiMap | ewext/src/lib.rs:62-66 | the player map starts empty and one-to-one |
| Ext.DeliverTo | ewext/src/lib.rs:181-196 | a DES message changes a loaded module's state as the reference delivery does, and a message is dropped when no module is loaded |
| Ext.Drain | ewext/src/lib.rs:177-199 | the loop's result, the connection left behind and the module's state are those of the reference `Dispatch`/`Deliver` |
| Ext.CollectFailures | ewext/src/lib.rs:253-258 | the loop collects exactly the modules' errors, in order, without stopping at a failure |
| Ext.Extension.constructor | ewext/src/lib.rs:43-66 | no peer id, no connection, no module and an empty player map |
| Ext.Extension.MyPeerId | ewext/src/lib.rs:49-54 | yields the peer id once it is set, and fails while it is unset |
| Ext.Extension.SetMyPeerId | ewext/src/lib.rs:162 | only the first id set is kept |
| Ext.Extension.NetmanagerConnect | ewext/src/lib.rs:152-172 | on a successful bootstrap: the raw payloads are returned, the connection is installed with the rest of its queue, and the peer id is set unless already set; on failure the error is returned with neither the connection nor the peer id changed |
| Ext.Extension.NetmanagerRecv | ewext/src/lib.rs:174-200 | the result, the queue left behind and the module's state are those of the reference dispatch; without a connection it fails |
| Ext.Extension.WithEveryModule | ewext/src/lib.rs:242-275 | fails without a connection; with no module it succeeds and changes nothing; with the module, the result and state are exactly those of the module's hook (`Reset` broadcast, reference frame, or projectile capture) |
| Ext.Extension.ModuleOnProjectileFired | ewext/src/lib.rs:277-297 | does nothing and succeeds while a hook is already running; otherwise runs the projectile hook on the module, with the effect `Capture` prescribes |
| Ext.Extension.OnWorldInitialized | ewext/src/lib.rs:227-238 | loads a fresh entity-sync module in its initial state, replacing any earlier one |
| Ext.Extension.RegisterPlayerEntity | ewext/src/lib.rs:448-456 | an unparsable peer id or a missing entity fails with the player map unchanged; otherwise the pair is inserted into the bimap |
| GameEffect.Parse | shared/src/lib.rs:58-59 | a parsed string is the static string of the variant it yields; a string no variant has does not parse |
| GameEffect.MatchArmsSound | shared/src/lib.rs:58-148 | every arm of the literal parse table maps the static string of its variant to that variant |
| GameEffect.MatchArmsCover | shared/src/lib.rs:58-148 | the static string of every variant reaches that variant's arm |
| GameEffect.ToStrInjective | shared/src/lib.rs:58-148 | two variants have the same static string iff they are the same variant |
| GameEffect.ToStrInjectiveAll | shared/src/lib.rs:58-148 | distinct variants have distinct static strings |
| GameEffect.ParseToStr | shared/src/lib.rs:58-59 | parsing a variant's static string yields that variant |
| GameEffect.ParseIffImage | shared/src/lib.rs:58-59 | a string parses to v iff it is v's static string, and fails iff it is no variant's static string |
| EffectNames.ToStrIsScreamingSnake | shared/src/lib.rs:59-148 | every static string is the SCREAMING_SNAKE_CASE form of the variant's Rust identifier |
| Collaborators.InterestTracker.HandleInterestRequest | ewext/src/modules/entity_sync.rs:100-102 | (assumed) records the peer's request and changes nothing else |
| Collaborators.InterestTracker.ResetInterestFor | ewext/src/modules/entity_sync.rs:112 | (assumed) forgets the peer's request and interest, and keeps every other peer's |
| Collaborators.InterestTracker.SetCenter | ewext/src/modules/entity_sync.rs:134 | (assumed) the interested peers become those in range that asked; a peer that drops out is queued as lost; news of a newly interested peer is recorded |
| Collaborators.InterestTracker.DrainLostInterest | ewext/src/modules/entity_sync.rs:148 | (assumed) yields the lost peers and empties that queue |
| Collaborators.InterestTracker.GotAnyNewInterested | ewext/src/modules/entity_sync.rs:163 | (assumed) reports and clears the news of a newly interested peer |
| Collaborators.LocalDiffModel.LidByEntity | ewext/src/modules/entity_sync.rs:217 | (assumed) an entity has a local id iff it is tracked |
| Collaborators.LocalDiffModel.FullEntityDataFor | ewext/src/modules/entity_sync.rs:77-79 | (assumed) the full data exists iff a snapshot was taken |
| Collaborators.LocalDiffModel.TrackEntity | ewext/src/modules/entity_sync.rs:73 | (assumed) fails on an entity already tracked; otherwise gives it a fresh local id and a snapshot iff it serializes, leaving other entities' ids alone |
| Collaborators.LocalDiffModel.GotAuthority | ewext/src/modules/entity_sync.rs:93 | (assumed) adopts the handed-over entity |
| Collaborators.LocalDiffModel.ResetDiffEncoding | ewext/src/modules/entity_sync.rs:165 | (assumed) the next diff starts from a full baseline |
| Collaborators.LocalDiffModel.MakeDiff | ewext/src/modules/entity_sync.rs:167 | (assumed) consumes a pending baseline reset |
| Collaborators.RemoteDiffModel.ApplyDiff | ewext/src/modules/entity_sync.rs:107 | (assumed) records the diff |
| Collaborators.RemoteDiffModel.SpawnProjectiles | ewext/src/modules/entity_sync.rs:117 | (assumed) records the projectile batch |
| Collaborators.RemoteDiffModel.ApplyEntities | ewext/src/modules/entity_sync.rs:186 | (assumed) counts one materialization |
| Host.Killed | ewext/src/modules/entity_sync.rs:67 | the killed id is no longer alive and keeps its tags; every other entity is unchanged |
| Host.NetManager.Recv | ewext/src/lib.rs:159 | yields the next queued message, or fails once the proxy has closed the connection |
| Host.NetManager.TryRecv | ewext/src/lib.rs:177 | yields the next queued message, or nothing when the queue is empty |

## Left out

- Foreign calls that can fail are not modelled as failing. These are the camera position, the frame number, `max_in_use`, component lookup, `EntityID::try_from`, `NetManager::new`, `recv`/`try_recv` I/O errors, `send` and `flush`, the `RefCell` borrow in `ExtState::with_global`, and the Lua argument decoding. The model covers only the failures that the core's own logic decides.
- `apply_entities` failing on odd frames is not modelled: the collaborator's source is not part of this model.
- What `update_pending_authority` and `update_tracked_entities` do to the local model is not modelled. Only their outcome enters, through `FrameEnv.pendingAuthority` and `FrameEnv.localUpdate`.
- Entities spawned by the collaborators during a frame enter only as the largest id in use at the end of the frame (`FrameEnv.maxInUseAfter`). `OnWorldUpdate` requires that value to be at least the reading taken before the scan. A frame that fails keeps the first reading in `HostWorld.maxInUse`.
- The interest geometry is not modelled: floating-point camera positions, `WorldPos::from_f64`, the interest and authority radii, and the tracker's distance test. Positions are opaque values, and the in-range peers are an input.
- The internals of the interest tracker and the diff models, `serialize_entity`, and the bitcode byte format are not part of this model. The collaborators carry assumed contracts only, and a serialized entity is an opaque byte sequence or none.
- Hash-map iteration order is not modelled. The interested peers are a list in the tracker's order, and materialization visits the mirrors in an unspecified order.
- The random `Gid` of a newly tracked entity is an arbitrary input function `gids`.
- `DES_TAG` is a constructor parameter: its value lives in the diff model, which is not part of this model.
- Process-level concerns are not modelled: Lua registration, `luaopen_ewext0`, `print_error`, the inline-assembly and particle-world functions, `bench_fn`, `test_fn`, `probe`, `__gc`, `game_print` logging, `netmanager_send`/`netmanager_flush`, `des_item_thrown` and `des_death_notify`. `IN_MODULE_LOCK` and the mutexes are not modelled; a running hook appears only as the `lockBusy` input.
- `EffectData.GameEffectData` is declared but has no operation in the core.
- `module_on_world_init` and `module_on_world_update` are the one-line `with_every_module` calls with the init and update hooks; `Ext.Extension.WithEveryModule` models them directly.
- Ext.Extension.MyPeerId: the source panics (`expect`) while the peer id is unset. The model reports `PeerIdNotSet` instead.
- Ext.Extension.NetmanagerRecv: the source panics (`unwrap`) when no connection is installed. The model reports `NetmanagerNotAvailable` instead.
- Ext.Extension.NetmanagerConnect: after a failed bootstrap the connection is dropped, so what remains of its queue is left unstated.
- Ext.Extension.WithEveryModule: the source's module list holds at most the one entity-sync module, so the model runs the hook on it or on nothing, and the two-or-more-errors case cannot arise. `Session.Aggregate` and `Session.AggregateOutcomes` state the rule for any number of module outcomes.
- Ext.Extension.RegisterPlayerEntity: `PeerId::from_hex` is not part of this model. Its outcome is the `parsed` parameter.
- The envelope field facts need no proof. They hold by the datatype declarations of `Protocol`: an outbound `RemoteMessage` has a reliability flag, a destination and exactly one `RemoteMessage`, and an inbound one has its source peer. `SyncSpec.SendDes` states the outbound half for every DES send.
