# A verified model of the rollback engine of bevy_ggrs

bevy_ggrs lets a Bevy game be rewound and replayed. A session asks for three things: save the
world, load an earlier frame, advance one frame. This project models the engine that serves those
requests, and proves what rollback netcode rests on: rewinding and replaying gives the same game
as having had the right inputs all along.

## How the project is built

The model has two layers.

* **Values.** `WorldModel` says what saving, loading and advancing do to a world, as functions.
  `Step` is one request, `RunFrom` a run of requests; the panics of the original are an outcome.
  The fresh entity handles that a load gives out are a parameter, so every statement holds for
  every allocator and every hash-map order.
* **The engine in place.** `Engine.World` has the fields of the Bevy world, one snapshot queue per
  plugin, and one method per system, which update them step by step as the systems do.
  `GgrsSnapshots.Snapshots` is the storage with its two deques; `Timestep.FixedTimestep` is the
  accumulator, whose update steps the session and hands its requests to the engine. Each method is
  proved to compute the function of the value layer. `Engine.World.HandleRequests` computes
  `RunFrom` and reports the checksums of its saves, and `Driver.PlayTurn` shows that on the batches
  a session emits it never reaches a panic.

Game logic is an arbitrary function from what a game can see (visible entities by registration
index, their values, parents and references, a resource, a resource that refers to an entity, the
clock) and the inputs to a script of commands: spawn, set, clear, refer, despawn, despawn softly.
`Simulation` is the reference: the same game played straight through, with no snapshots, handles or
rollbacks.

The main results: rewinding and replaying is transparent if and only if the saved references are
restorable (`Transparency`, `Recovery`), always for games that despawn softly and harmlessly
(`LosslessGames`), and harmlessness is exactly what soft despawn needs, over the batches a session
emits (`SoftStreams`, `StreamLosses`) as over single requests (`SoftDespawn`, `Overwriting`); no
permitted request panics (`Runs`, `Sessions`, `Driver`); loads take nobody along (`Hierarchy`,
`Bystanders`); the last checksum reported for a past frame is that of the straight simulation
(`DesyncDetection`). `Scenarios` has legal streams of batches in which the conditions fail.

| file | contents |
|---|---|
| `SnapshotQueue`, `FrameOrder`, `GgrsSnapshots` | snapshot storage: closed forms, ordered map, wraparound, the class |
| `Population`, `Ordering`, `WorldModel` | entities and hierarchies, the register, the engine as functions |
| `WorldQueries`, `Engine`, `Driver` | the engine in place |
| `Soundness`, `Reconciliation`, `Restoration` | invariants of every request, and what a load restores |
| `Runs`, `RunProperties`, `Sessions`, `SyncTesting` | whole runs, the batch grammar, sync tests |
| `Hierarchy`, `Bystanders`, `References` | parent links, hidden entities and references over whole runs |
| `Stretches` | what lasts between two loads: stored snapshots, the whereabouts of an identity, handles out of use |
| `FlatWorlds`, `SoftDespawn`, `Overwriting` | worlds without hierarchies, soft despawn, and what a second mark does |
| `SoftStreams`, `StreamLosses` | soft despawn over batches, and exactly when it loses somebody |
| `Remapping`, `Recovery`, `Incoherence`, `Scenarios` | references and hierarchies after a load: exact conditions, why they fail, and streams in which they do |
| `Simulation`, `Transparency`, `LosslessGames`, `Streams`, `SyncDeterminism` | the reference semantics and rollback transparency |
| `Mixing`, `Checksums`, `DesyncDetection`, `GameClock`, `Timestep` | checksums, what they detect, and time |

## What is assumed of a session

A session is an environment. `Runs.Permitted` lists all that is assumed: it has a prediction
window of at least 1; a frame is saved before it is advanced; a load asks for a frame that is not
below the horizon (0, every frame confirmed at an earlier save or advance, and the start of the
window of every frame saved) and not the current one; 2^31 - 1 frames are not exceeded. Of the
entity allocator it asks that respawned entities get handles that were never used before.
`Sessions.InRange` states the same for whole batches, as `max(0, confirmed, frame - window)`. A
frame confirmed by the very batch that loads does not count yet, because the confirmed frame is
refreshed before the load runs.

## Where the code and its documentation differ

* `docs/architecture.md:85` says a respawned entity is recorded as new to old. The code
  (`src/snapshot/entity.rs:85`) records old to new, and the model follows the code.
* `src/snapshot/set.rs:36-39` promises that all references are coherent once the mapping stage is
  done. That is not so in general. `Remapping` proves the exact condition for components,
  resources and parents, as a condition on the world before the load; `Incoherence` shows that a
  second load of a snapshot violates it, whatever lies between the two; in
  `Scenarios.LoadStalesReference` the load of a legal batch leaves a reference stale.
* `src/snapshot/set.rs:27-30` promises that data is back in its exact state. Values and resources
  are, for strategies that meet their contract. References and hierarchies are if and only if they
  are restorable, which is a condition on the world before the load (`Recovery.Restorable`).
  Rollback transparency holds under exactly that condition; in `Scenarios.SecondLoadOrphansChild` the
  load of a legal batch leaves the wrong game state.
* `src/snapshot/despawn.rs:116-117` promises that what is despawned softly can be resurrected. That
  fails for a child that is hidden when its parent is hidden later: the second mark replaces the
  first (`src/snapshot/despawn.rs:133-141`), a load of a frame in between despawns the child, and a
  load of an earlier frame respawns it blank (`Scenarios.SecondMarkLosesChild`). Let a batch leave the
  session at frame `f`. It costs nobody if and only if whoever it marked a second time is known to no
  stored snapshot from `max(0, settled, f + 1 - window)` on, the lowest frame that the batch after the
  next may ask for (`SoftStreams.SoftStreamsNeverLose`, `StreamLosses.StreamGuardIsExact`). A snapshot
  at `f - window` does not matter: the next batch is the last that may load it, and it finds everybody.
* `src/time.rs:28-30` and `docs/architecture.md:102` say each frame takes exactly one over the rate.
  The elapsed time is exact up to rounding down to a nanosecond, and a frame takes the period
  rounded down or up.

## Model

| member | source | states |
|---|---|---|
| GgrsSnapshots.Snapshots.SetDepth | src/snapshot/mod.rs:123-138 | sets the capacity and nothing else: what is stored is not truncated |
| GgrsSnapshots.Snapshots.Push | src/snapshot/mod.rs:147-181 | both deques together become the queue of `Pushed`: newer frames give way by the wraparound-aware test, then the oldest are evicted to the depth |
| GgrsSnapshots.Snapshots.Confirm | src/snapshot/mod.rs:185-202 | pops from the back what lies before the confirmed frame |
| GgrsSnapshots.Snapshots.Rollback | src/snapshot/mod.rs:210-226 | pops to the wanted frame; fails exactly when it is not stored |
| GgrsSnapshots.Snapshots.Peek | src/snapshot/mod.rs:236-243 | is lookup in the ordered map behind the queue |
| GgrsSnapshots.Snapshots.DiscardOldSnapshots | src/snapshot/mod.rs:246-258 | prunes up to the confirmed frame when there is one, else changes nothing |
| GgrsSnapshots.Snapshots.SyncDepth | src/snapshot/mod.rs:263-273 | follows the prediction window when there is one |
| GgrsSnapshots.Snapshots.Save | src/snapshot/component_snapshot.rs:134-144 | the chain of every plugin: of what was stored, exactly the frames from the confirmed one to just below the saved one are worth keeping, and with the new one the newest up to the window are kept |
| GgrsSnapshots.Snapshots.constructor | src/snapshot/mod.rs:110-119 | a new store is empty and 60 deep |
| SnapshotQueue.PushIsInsert | src/snapshot/mod.rs:145-181 | as an ordered map, a push forgets what is not older, inserts, and keeps the `depth` newest |
| SnapshotQueue.ConfirmIsRestrict | src/snapshot/mod.rs:183-202 | confirming keeps exactly the frames at or above the confirmed one |
| SnapshotQueue.SavePrunes | src/snapshot/component_snapshot.rs:134-144 | a whole save as an ordered map: forget what is below the confirmed frame or not older, insert, keep the `depth` newest |
| SnapshotQueue.RollbackIsRestrict | src/snapshot/mod.rs:204-226 | a rollback keeps exactly the frames at or below the wanted one, has it in front, and succeeds iff it is stored |
| SnapshotQueue.ColumnRecorded | src/snapshot/mod.rs:147-202 | saving every part into its own queue is saving the whole world: all queues stay in step |
| SnapshotQueue.ColumnRolledBack | src/snapshot/mod.rs:210-226 | all queues roll back, or miss the frame, together |
| FrameOrder.WrapAwareTestIsComparison | src/snapshot/mod.rs:159-164 | on wrapped 32-bit counters the test decides the order of the unbounded frames up to distance 2^31 - 1 |
| FrameOrder.WrapBoundIsTight | src/snapshot/mod.rs:159-164 | at distance 2^31 every frame has a neighbour that the test gets wrong |
| FrameOrder.TestIsSerialComparison | src/snapshot/mod.rs:159-164 | the test is serial number comparison in the sense of section 3.2 of RFC 1982, except at the distance the RFC leaves open |
| FrameOrder.WrappedPushRefinesPush | src/snapshot/mod.rs:154-178 | a push on wrapped frames is the wrapped push on unbounded frames |
| WorldQueries.GatherEntities | src/snapshot/entity.rs:39-51 | one entry per visible entity, whatever the query order |
| WorldQueries.GatherValues | src/snapshot/component_snapshot.rs:66-84 | stored values of exactly the visible entities that have the component |
| WorldQueries.GatherLikes | src/snapshot/component_snapshot.rs:66-84 | the same for a component that holds an entity reference, by clone |
| WorldQueries.GatherParents | src/snapshot/childof_snapshot.rs:46-64 | the parent links of the visible entities that have one |
| WorldQueries.MatchEntities | src/snapshot/entity.rs:75-91 | visiting identities in any order, what is despawned, respawned and recorded in the map |
| WorldQueries.PlanReconciliation | src/snapshot/entity.rs:62-98 | the outcome is independent of the visiting order up to the choice of fresh handles |
| WorldQueries.ObserveBodies | src/snapshot/rollback.rs:77-83 | looking up the index of a visible entity never fails, and the result is the view by index |
| WorldQueries.ObserveLinks | src/snapshot/rollback.rs:77-83 | whom the visible entities refer to, by parent link or by component, both by index |
| WorldQueries.CollectFamily | src/snapshot/despawn.rs:115-120 | collects an entity and exactly its descendants |
| WorldQueries.FindByIndex | src/snapshot/rollback.rs:72-75 | the visible entity registered under an index, if there is one |
| Population.FamilyIsLeast | src/snapshot/despawn.rs:115-120 | a family is the least set with the roots that is closed under children |
| Ordering.RegisterKeepsBijection | src/snapshot/rollback.rs:65-70 | pushing a new identity keeps the two fields inverse to each other and every index stable |
| Engine.World.constructor | src/snapshot/mod.rs:334-336 | a new world is a fresh start: sound, empty, at frame 0, with eight separate empty queues |
| Engine.World.SaveEntities | src/snapshot/entity.rs:39-51 | the queue becomes the one with the current identities recorded |
| Engine.World.SaveValues | src/snapshot/component_snapshot.rs:66-84 | the queue becomes the one with the current component values recorded |
| Engine.World.SaveLikes | src/snapshot/component_snapshot.rs:66-84 | the same for the component that holds a reference |
| Engine.World.SaveParents | src/snapshot/childof_snapshot.rs:46-64 | the queue becomes the one with the current parent links recorded |
| Engine.World.SaveResources | src/snapshot/resource_snapshot.rs:65-73 | each resource queue records a stored copy, or that there is none |
| Engine.World.SaveWorld | src/snapshot/component_snapshot.rs:133-146 | a save request computes `SaveWorld`, with all queues in step |
| Engine.World.UpdateChecksum | src/snapshot/checksum.rs:88-99 | the total is a word of twice the width with a neutral high half, whose low half combines the hash of the component accumulator with that of the two counts, all by what game logic sees |
| Engine.World.ResurrectEntities | src/snapshot/despawn.rs:69-87 | lifts exactly the marks made after the loaded frame |
| Engine.World.OnRollbackAdded | src/snapshot/rollback.rs:40-70 | registers a new identity at the end; a respawned one keeps its identity and is not registered again |
| Engine.World.ReconcileEntities | src/snapshot/entity.rs:62-98 | the population and the entity map after reconciliation |
| Engine.World.DespawnAll | src/snapshot/entity.rs:80-82 | despawned entities go with all their descendants, and nobody else goes |
| Engine.World.RespawnAll | src/snapshot/entity.rs:83-86 | missing identities come back under fresh handles with their identity and nothing else, without being registered again |
| Engine.World.LoadEntities | src/snapshot/entity.rs:55-99 | the same from the stored snapshot; fails exactly when the frame is not stored |
| Engine.World.LoadValues | src/snapshot/component_snapshot.rs:95-123 | update, remove or insert, entity by entity |
| Engine.World.LoadLikes | src/snapshot/component_snapshot.rs:95-123 | the same by clone, for the component that holds a reference |
| Engine.World.LoadImmutableValues | src/snapshot/component_snapshot.rs:218-245 | the load of immutable components: its queue rolls back, and what is saved is re-inserted, the rest removed |
| Engine.World.LoadParents | src/snapshot/childof_snapshot.rs:68-100 | parents through the entity map; the link of a child whose saved parent the map does not know is left alone |
| Engine.World.LoadResource | src/snapshot/resource_snapshot.rs:77-93 | update, remove or insert, by presence |
| Engine.World.LoadClones | src/snapshot/resource_snapshot.rs:77-93 | the register, the clock and the resource that holds a reference are the saved ones |
| Engine.World.MapComponent | src/snapshot/component_map.rs:77-88 | maps the references held by living keys of the map, and no others |
| Engine.World.MapResource | src/snapshot/resource_map.rs:74-83 | maps the reference in the resource whenever there is one |
| Engine.World.LoadWorld | src/snapshot/set.rs:92-103 | a load request computes `LoadWorld` in phase order; it fails exactly when the frame is not stored, and then in the first plugin |
| Engine.World.UpdateTime | src/time.rs:63-76 | the clock moves to the run time of the frame, and refuses to go backwards |
| Engine.World.DespawnConfirmedEntities | src/snapshot/despawn.rs:89-112 | the cached early return and the scan |
| Engine.World.DespawnRollback | src/snapshot/despawn.rs:129-143 | marks the whole family while the frame is unconfirmed, else despawns it |
| Engine.World.RunGameLogic | src/snapshot/set.rs:109-117 | game logic sees the view and its commands are run in order |
| Engine.World.AdvanceWorld | src/schedule_systems.rs:251-268 | an advance request computes `AdvanceWorld`, or fails exactly where the original panics |
| Engine.World.EnterSession | src/schedule_systems.rs:190-220 | under each kind of session, the prediction window and the confirmed frame are the numbers it reports; without a report they stay |
| Engine.World.HandleRequest | src/schedule_systems.rs:189-270 | one request is one `Step`, with fresh handles, keeps the world sound, and a save reports the checksum of the state being saved |
| Engine.World.HandleRequests | src/schedule_systems.rs:170-289 | the interpreter computes the run of the requests, in order, with the reports of its saves, and stops exactly where the original would panic |
| Engine.GenuineRunsAreSound | src/schedule_systems.rs:189-270 | any requests at all, permitted or not, leave the world structurally sound |
| Driver.PlayTurn | docs/architecture.md:21 | on a batch in range the engine never panics, is where the model's legal stream is, one batch further, and has reported the same checksums |
| Soundness.EarlyReturnAgreesWithScan | src/snapshot/despawn.rs:94-111 | skipping the scan when nothing new is confirmed changes nothing, also when the confirmed frame moves backwards |
| Soundness.SaveKeepsSound | src/snapshot/component_snapshot.rs:133-146 | a save keeps the invariant and stores the current frame |
| Soundness.AdvanceKeepsSound | src/schedule_systems.rs:251-268 | an advance keeps the invariant for any game logic, moves one frame on and stores nothing |
| Reconciliation.SurvivorKey | src/snapshot/entity.rs:77-79 | a survivor is recorded as current to saved, and nothing else writes that key |
| Reconciliation.RespawnKey | src/snapshot/entity.rs:83-86 | a respawned entity is recorded as saved to fresh, under a handle that is no longer in use |
| Reconciliation.EntityMapKeys | src/snapshot/entity.rs:75-98 | those are all the keys of the map |
| Reconciliation.ReconciledDistinct | src/snapshot/entity.rs:62-98 | one entity per identity, hidden ones included |
| Reconciliation.LoadKeepsSound | src/schedule_systems.rs:238-250 | a load keeps the invariant and leaves its frame stored in front |
| Restoration.ReconcileExact | src/snapshot/set.rs:19-24 | the visible identities after reconciliation are exactly the keys of the snapshot |
| Restoration.RestoreStored | src/snapshot/strategy.rs:19-40 | under the strategy contract, restoring what was stored, presence or absence, gives it back whatever was there |
| Restoration.DefaultUpdateIsLawful | src/snapshot/strategy.rs:35-39 | a strategy with the default update meets the contract iff load undoes store |
| Restoration.LoadersAgree | src/snapshot/component_snapshot.rs:218-245 | the mutable and the immutable loader produce the same world |
| Restoration.CaptureStores | src/snapshot/component_snapshot.rs:71-75 | a save contains stored values only, which is all the loaders need to agree |
| Restoration.CaptureRecordsView | src/snapshot/component_snapshot.rs:66-84 | a save records what game logic sees |
| Restoration.LoadRestoresBodies | src/snapshot/set.rs:27-33 | save, then anything, then load: all that game logic saw is back, references aside |
| Recovery.LoadRestoresView | src/snapshot/set.rs:27-33 | and the whole of it, hierarchy and references included, iff the saved references are restorable |
| References.RunsAreCoherent | src/snapshot/component_map.rs:77-85 | over every run, no reference is to a handle still to be handed out, and a saved reference to somebody the snapshot knows is to the handle it has for them |
| Recovery.LinkRestored | src/snapshot/childof_snapshot.rs:75-93 | a child is linked to its saved parent after the load iff that parent is still on its saved handle, or gone, or the child is linked to it anyway |
| Recovery.NoLinkGained | src/snapshot/childof_snapshot.rs:80-92 | no load gives a parent to an entity that was saved without a living one |
| Recovery.StrangeParentLeftAlone | src/snapshot/childof_snapshot.rs:84-90 | a saved parent that is no saved entity: a child that is there keeps exactly the link it had, a respawned one gets none |
| Recovery.StrangeReferencesReturn | src/snapshot/rollback_entity_map.rs:48-51 | a reference to nobody the snapshot knows is back exactly as it was saved, in components and in the resource |
| Bystanders.HiddenStay | src/snapshot/despawn.rs:78-80 | what was marked at or before the loaded frame is still there after the load, hidden and untouched |
| Bystanders.LoadDespawnsExtrasOnly | src/snapshot/entity.rs:80-82 | what goes with an extra entity is itself an extra: a load despawns nobody else |
| Bystanders.RunsAreTidy | src/snapshot/entity.rs:80-82 | and that holds over every run |
| Runs.PermittedLoadIsStored | src/snapshot/mod.rs:206-214 | every frame from the horizon to the last saved one is stored |
| Runs.OldestRecorded | src/snapshot/mod.rs:147-202 | eviction and pruning remove no more than the window and the confirmed frame allow |
| Runs.StepServes | src/schedule_systems.rs:189-270 | a permitted request is served: no panic is reached |
| Runs.StepKept | src/schedule_systems.rs:189-270 | and it keeps the run invariant |
| Hierarchy.RunsAreLinkSafe | src/snapshot/childof_snapshot.rs:68-100 | over every run, whatever is despawned: a child of a hidden parent is hidden by the same mark, and every snapshot that knows a child knows its parent as its parent |
| Hierarchy.LoadDragsNothing | src/snapshot/entity.rs:80-82 | despawning extras, with their descendants, never takes a saved entity along |
| Runs.RunNeverPanics | src/schedule_systems.rs:189-270 | no conforming run panics, and all of them keep the run invariant: sound, gapless down to the horizon, exact clock |
| RunProperties.OrderIsStable | src/snapshot/rollback.rs:57-88 | over every run the register is a bijection, older registers are prefixes of newer ones, and every visible entity has an index |
| RunProperties.ConfirmedMarksAreGone | src/snapshot/despawn.rs:89-112 | over every run, on the session's own numbers: an advance despawns exactly what was marked at or before the confirmed frame reported, and afterwards every mark is above it |
| RunProperties.RequestTakesOver | src/schedule_systems.rs:197-220 | after every request that is served, permitted or not, window and confirmed frame are those the session reported for it |
| RunProperties.SavesPruneExactly | src/snapshot/mod.rs:246-258 | over every run, after a save the stored frames are the saved one and exactly those stored before that are older, inside the session's window and not below its confirmed frame |
| RunProperties.LoadsReconcile | src/snapshot/entity.rs:55-99 | over every run, a load leaves exactly the saved identities visible, one entity each, and exactly what was marked at or before its frame hidden, untouched |
| RunProperties.LoadsRestoreHierarchy | src/snapshot/childof_snapshot.rs:75-93 | over every run, exactly when a load links a saved child to its saved parent; a child saved without a parent gets none |
| RunProperties.LoadsLeaveStrangersAlone | src/snapshot/childof_snapshot.rs:84-90 | over every run, what a load does about a saved parent that is no saved entity: nothing |
| RunProperties.LoadsRemapComponents | src/snapshot/component_map.rs:77-85 | over every run, exactly when a load leaves a component's reference right |
| RunProperties.LoadsRemapResources | src/snapshot/resource_map.rs:74-80 | over every run, exactly when a load leaves a resource's reference right |
| Sessions.LegalStreamsAreServed | docs/architecture.md:21 | every legal stream of batches is served; after each batch the stored frames are an interval that ends before the current frame and starts at or below what may still be asked for |
| Sessions.AppendTurn | docs/architecture.md:21 | a batch in range is served request by request and leaves the next frame unsaved |
| SyncTesting.SyncTestNeverMisses | src/schedule_systems.rs:206-209 | a sync test of any length with a check distance from 1 to the window never misses a snapshot, although the confirmed frame falls and rises in each batch |
| SyncTesting.SyncTestIsLegal | src/schedule_systems.rs:85-118 | what a sync test emits is a legal stream of batches |
| SyncDeterminism.StateIsFunctionOfFrame | src/schedule_systems.rs:189-270 | in a run that plays fixed inputs the game state depends on the frame alone |
| SyncDeterminism.ReplaysReproduceStates | src/schedule_systems.rs:85-118 | any two moments of a sync test at the same frame show the same game state |
| DesyncDetection.SyncTestNeverMismatches | src/schedule_systems.rs:85-118 | no two saves of a sync test of deterministic logic report different checksums for one frame |
| Simulation.ExecuteView | src/schedule_systems.rs:251-268 | a command run on entities does to the view what the reference semantics says |
| Simulation.ScriptsCompose | src/schedule_systems.rs:251-268 | a script is run from front to back |
| Transparency.AdvanceIsGameStep | src/schedule_systems.rs:251-268 | an advance is one step of the reference game, whatever handles and confirmed frame are in play |
| Transparency.RollbackTransparency | src/schedule_systems.rs:189-270 | after any conforming run whose loads found restorable references, the game state and every stored snapshot is the straight simulation of the latest inputs |
| Transparency.TransparencyIsExact | src/schedule_systems.rs:189-270 | the next permitted request keeps that iff it is not a load of references that cannot be restored |
| LosslessGames.UnlinkedGamesRestore | src/schedule_systems.rs:189-270 | games in which nobody refers to anybody always meet the condition |
| LosslessGames.SoftGamesRestore | src/snapshot/despawn.rs:114-121 | so do softly despawning games with harmless marks, whatever their hierarchies and references |
| LosslessGames.SoftGamesAreTransparent | src/snapshot/despawn.rs:114-121 | hence their rollbacks are always transparent |
| LosslessGames.SoftStreamsAreTransparent | docs/architecture.md:21 | and over batches, under the weaker guard for batches, they show the corrected inputs played straight through |
| Transparency.SameInputsSameView | src/schedule_systems.rs:189-270 | runs with the same latest inputs show the same state, whatever handles, rollbacks and confirmed frames they had |
| Streams.LegalStreamsAreTransparent | docs/architecture.md:21 | the same for batches: the state is that of the corrected inputs played straight through |
| Checksums.EverySaveIsReported | src/schedule_systems.rs:223-236 | the n-th report of a run is the frame and the checksum of the game state at its n-th save, and there are no others |
| DesyncDetection.LatestReportsAreExact | docs/architecture.md:96-98 | the last checksum reported for a past frame is that of the straight simulation of the latest inputs up to it |
| DesyncDetection.SoftPeersAgree | docs/architecture.md:98 | peers of a softly and harmlessly despawning game agree outright, hierarchies and references included |
| DesyncDetection.PeersAgree | docs/architecture.md:98 | for every past frame up to which two peers have settled on the same inputs, the last checksums their saves reported are equal; with the same inputs they show the same state |
| SoftDespawn.RunSoft | src/snapshot/despawn.rs:27-28 | over every run of softly despawning logic whose marks are harmless, everything a permitted load may need still exists under its own handle |
| SoftDespawn.FlatRunsAreHarmless | src/snapshot/despawn.rs:129-143 | without hierarchies every mark is harmless |
| SoftDespawn.SoftDespawnNeverLoses | src/snapshot/despawn.rs:114-121 | in such runs, hierarchies included, no load respawns anything, the map is the identity on saved entities, and each is back under its own handle with its unregistered component |
| Overwriting.SoftDespawnIsExact | src/snapshot/despawn.rs:133-141 | for single requests, where a load may follow a load: the next permitted advance keeps that iff its marks are harmless, and otherwise somebody is doomed |
| Overwriting.DoomedIsRespawned | src/snapshot/despawn.rs:70-88 | two loads, with any saves and advances between them, leave a doomed entity under another handle, without its unregistered component |
| Stretches.EntryStays | src/snapshot/mod.rs:147-202 | without loads, a stored snapshot stays the same as long as it may be asked for |
| Stretches.ConfinedStays | src/schedule_systems.rs:251-268 | saves and advances bring no identity back and move none to another handle |
| Stretches.DeadStays | src/snapshot/entity.rs:83-86 | a handle out of use stays so, whatever is requested |
| SoftStreams.SoftStreamsNeverLose | src/snapshot/despawn.rs:114-121 | over legal streams with harmless batches no load respawns anything, and each saved entity is back under its own handle with its unregistered component |
| SoftStreams.HarmlessRunsAreHarmlessStreams | src/snapshot/despawn.rs:133-141 | what is harmless for single requests is harmless for batches |
| StreamLosses.StreamGuardIsExact | src/snapshot/despawn.rs:133-141 | a batch after a harmless stream is harmless iff no two legal batches after it respawn anybody |
| StreamLosses.DoomedIsLost | src/snapshot/despawn.rs:70-88 | any two legal replays from the two frames lose a doomed entity, to the end of the second |
| StreamLosses.DoomedCanBeLost | docs/architecture.md:21 | if the older frame is within reach of the batch after the next, there are two such replays |
| Scenarios.SecondMarkLosesChild | src/snapshot/despawn.rs:129-143 | a legal stream in which a second mark loses a child |
| Remapping.MappedHandle | src/snapshot/rollback_entity_map.rs:48-51 | the mapper's answer for a saved handle is right iff, before the load, the target was on it or nowhere |
| Remapping.ComponentReferenceCoherent | src/snapshot/component_map.rs:77-85 | a component reference is right after the load iff, before it, the target was on its saved handle, or nowhere while the holder was there |
| Remapping.ResourceReferenceCoherent | src/snapshot/resource_map.rs:74-80 | a resource reference is right iff, before the load, the target was on its saved handle or nowhere |
| Remapping.ParentRestored | src/snapshot/childof_snapshot.rs:75-93 | exactly when a child points at its parent's live entity after a load |
| Remapping.OrphanRestored | src/snapshot/childof_snapshot.rs:81-83 | a child saved without a parent has none |
| Incoherence.SecondLoadStalesComponents | src/snapshot/set.rs:36-39 | after a second load of a snapshot, whatever was requested in between, a component's reference to an entity that the first load respawned, and that is still there, is stale |
| Incoherence.SecondLoadStalesResources | src/snapshot/set.rs:36-39 | and so is a resource's |
| Scenarios.LoadStalesReference | src/snapshot/component_map.rs:81-85 | a legal stream whose last load leaves a component reference stale, and so not the simulated state |
| Scenarios.SecondLoadOrphansChild | src/snapshot/childof_snapshot.rs:84-90 | a legal stream whose last load respawns a child without its living parent, and so not the simulated state |
| Scenarios.SuchGamesExist | src/snapshot/despawn.rs:129-143 | there are games and fresh worlds, at every frame rate, for which these streams are legal |
| Mixing.XorIsLawful | src/snapshot/component_checksum.rs:88-89 | exclusive or on 64-bit words is commutative, associative and self-inverse |
| Mixing.DoubledIsLawful | src/snapshot/checksum.rs:88-94 | and so is it on words of twice the width |
| Mixing.FoldAnyOrder | src/snapshot/component_checksum.rs:81-90 | the accumulator is independent of iteration order |
| Mixing.FoldSeqIgnoresOrder | src/snapshot/checksum.rs:88-94 | so is the fold of the parts |
| Checksums.ComponentChecksum | src/snapshot/component_checksum.rs:77-95 | the component checksum, over any query order, is the canonical fold by registration index |
| Checksums.EntityChecksum | src/snapshot/entity_checksum.rs:29-43 | the entity checksum depends on the numbers of visible and of registered entities only, widened to a part |
| Checksums.FoldParts | src/snapshot/checksum.rs:88-99 | the total, for every order of the parts |
| Checksums.OneChangeShows | src/snapshot/component_checksum.rs:81-90 | changing one entity's component changes the accumulator iff it changes the hash of the component tagged with the registration index |
| Checksums.AccumulatorIsFold | src/snapshot/component_checksum.rs:77-90 | the accumulator combines, over the set of carriers, each one's component hash tagged with its own registration index |
| Checksums.SwapShows | src/snapshot/component_checksum.rs:84-89 | two entities that exchange their components: exactly when the accumulator misses it |
| Checksums.TotalShows | src/snapshot/checksum.rs:88-99 | between states with the same counts the total changes iff the hash of the component accumulator does, and with the same accumulator hash iff that of the counts does |
| GameClock.GgrsTimeIsExact | src/time.rs:63-76 | over every run, loads included, elapsed time is frame times a second over the rate, rounded down, and the delta is what elapsed since the frame before; nothing overflows; deltas differ by at most 1 ns |
| Runs.RuntimeExact | src/time.rs:71-73 | the 64-bit product never wraps within the range of the frame counter |
| Timestep.PeriodPositive | src/schedule_systems.rs:34-38 | exactly for which rates the period is not zero, so that the loop ends |
| Timestep.PeriodIs | src/schedule_systems.rs:34-38 | the period is a second over the rate in nanoseconds, rounded down, and eleven tenths of a second over the rate when running slow |
| Timestep.FixedTimestep.RunGgrsSchedules | src/schedule_systems.rs:18-83 | spends whole periods and keeps the rest; in each step the engine interprets what the session requests; running slow is up to the last step; without a session a whole period resets the timestep data, the frame to 0, the confirmed frame to -1 and the window to 8 |
| Timestep.TimeIsConserved | src/schedule_systems.rs:31-80 | over every run, real time is what the steps consumed, plus what was thrown away without a session, plus the accumulator, which is below the last period |
| Timestep.Drift | src/schedule_systems.rs:31-38 | n steps fall short of n seconds over the rate by less than n ns, and n slow steps of eleven tenths of that; neither ever exceeds it |

## Left out

- RollbackTransparency: asks that loads find restorable references, because the game state is wrong otherwise (`Scenarios`); `TransparencyIsExact` proves the condition exact.
- SoftDespawnNeverLoses: asks that marks are harmless, because entities are lost otherwise (`Scenarios.SecondMarkLosesChild`); `SoftDespawnIsExact` proves the guard exact.
- SoftStreamsNeverLose: asks the same of batches; `StreamGuardIsExact` proves the guard exact.
- StreamGuardIsExact: asks for room for two more frames on the frame counter, because the two batches need it.
- RunGgrsSchedules: what a session requests in each step, and who is ahead after it, are parameters; polling and local inputs are left out.
- Resource checksums, and parts that a game adds itself: `FoldParts` folds any number of parts, of which the component's and the entities' are modelled.
- GGRS sessions, sockets, input prediction and polling: an environment that emits batches.
- Spectator sessions beyond their window of 0 and confirmed frame: they never load.
- A new session after the reset without one, session swaps in a run, and adding `Rollback` to a living entity.
- Re-parenting: a parent is given at spawn.
- Bevy scheduling, executors, commands and change detection: every flush is immediate, in the phase order of `src/snapshot/set.rs`.
- `ReflectStrategy`: any strategy that meets the contract is covered.
- SeaHash: any hash function is covered; nothing is claimed about collisions.
- `RollbackApp`, plugin wiring, logging, examples and benches.
- 32-bit overflow of the arithmetic on confirmed frames: those are unbounded integers; frame counters are bounded.
- Scripts of game logic are data: a command on an index without a visible entity does nothing.
