# AIStore: the control plane, the engines and the chunkers, in Dafny

AIStore keeps content-addressed artifacts: a metadata service over PostgreSQL, storage nodes that hold
chunks, and four client engines that push, pull, repair and collect. This project models the control
plane and the engines as they are written, and proves what their design rests on: that committed data
survives every interleaving of pushes, garbage collections with crashes, repairs and lifecycle runs; that
a pull publishes exactly the object; that both thread pools terminate; that FastCDC re-synchronises; that
placement disturbs as little as possible; that canonical descriptors are injective, and what they hold at
each byte; that a pushed file is pulled as it was. Calls, chunk boundaries and selections are also described
on the raw rows, bytes and numbers, apart from the functions that compute them. One defect of the service is
proved too, with a run that reaches it and the exact condition under which it strikes.

`dafny verify dfyconfig.toml` checks everything.

## How it is laid out

| modules | what they model |
|---|---|
| `Common`, `Ordering`, `Arithmetic`, `Sums` | identifiers, byte-wise order, the one ascending enumeration of a set, sums |
| `Tables`, `Outcomes` | one map or set per table of the schema; for every repository method its reply and the tables it commits; the one change each method can make |
| `Repository`, `Statements` | the repository as a class whose methods work statement by statement and loop by loop, proved against `Tables` |
| `Invariant`, `Evolution` | the database invariant and what one call can never undo |
| `Calls` | what the calls mean on the raw rows, without the queries that define them: when each succeeds and what it leaves |
| `ControlPlane`, `Runs` | database, node disks, GC engine and pushes as one transition system with crashes and restarts; theorems over whole runs |
| `CollectionRuns`, `FreshVersions` | what a whole GC run collects; that no version is retired before its time |
| `OpenWork`, `OtherClients`, `Deployments` | what an open session or replication run can rely on; what other clients may do between two requests; a deployment with a lossy network in which they do it |
| `Wedge` | the defect |
| `SweepTheorems`, `Lifecycle`, `LifecycleRun`, `Retention` | the metadata sweep; ranking, retention and composition of lifecycle runs |
| `ChunkStores`, `GcEngines` | a node's files and inventory pages; the paging, classify and delete loop against arbitrary servers |
| `RepairRuns`, `Repair` | plan and completion over whole runs; the repair engine inside a deployment |
| `BoundedQueues`, `PushQueue`, `PushEngine`, `PushPlan` | the bounded queue, its producer and workers, what a push confirms and what it records |
| `UploadWorkers`, `PushRuns` | one upload task inside a deployment; a whole push interleaved with everything else, up to its finalization |
| `PullResume`, `PullWindow`, `PullShared`, `PullEngine` | resuming from an untrusted partial file, the sliding window of downloads, its shared state, a whole pull |
| `Shapes`, `RoundTrips` | which descriptors pass the size checks; push then pull |
| `Chunking`, `FastCdc`, `FastCdcChunkers`, `FixedSizeChunkers`, `ObjectLayouts` | chunking byte by byte under any cut rule, the gear hash, the two chunkers as classes, layouts |
| `Placement` | rendezvous hashing |
| `Encoding`, `CanonicalBytes`, `CanonicalFormats`, `Serializers` | the canonical descriptors by pieces and byte for byte, and the code that writes them |

Threads are interleaved steps: one event per critical section, per short write, per finished replica, with
guards where the source waits on a condition variable. Repository calls are single steps, as the service
holds one mutex around each of them (src/service/metadata_service.cpp:786).

## The defect

`replication_runs.layout_id` references `object_layouts` with `ON DELETE RESTRICT`
(migrations/009_multi_node_replication.sql:129-136), and replication runs are never deleted. The sweep that
completes a GC run deletes every layout that is not live
(src/metadata/postgres_metadata_repository.cpp:2544-2642, 4356-4411). So as soon as some
replication run, finished or not, names a layout that is no longer live, that statement fails, the
transaction rolls back, and the GC run stays open. An open GC run in turn blocks new upload sessions, replication runs, lifecycle runs
and other GC runs, so nothing can clear the situation. `Wedge.CompletionSucceedsIff` gives the exact
condition, `Wedge.StuckIsReachable` a history of ten ordinary calls that gets there whatever the hash
functions are, and `Wedge.StuckForever` and `Wedge.StuckBlocksEverything` that no call ever gets out.

## Assumptions

- SHA-256 is a function. Nothing assumes that it has no collisions: results that rest on content addressing
  end in "or these two byte strings collide". The digest that ranks nodes is a function of chunk and node.
- Storage nodes lose chunks only when asked to remove them. In the pull theorems sources may fail freely.
- A crashed GC engine takes no further step: two live engines with one run ID are outside the model, and so
  is a delete request that arrives after its engine has died.
- Worker counts, window and queue capacity are parameters; the theorems that need it assume at least one
  worker and a positive window or capacity.

## Model

| member | source | states |
|---|---|---|
| Runs.ReachableWorldsSatisfyInv | src/metadata/postgres_metadata_repository.cpp:1759-3683 | in every world reachable from an empty deployment the database invariant holds, a collecting engine's pending deletes are all collectible, confirmations of open sessions are on disk, and committed sessions still have their rows |
| Runs.CommittedPushIsDurable | src/metadata/postgres_metadata_repository.cpp:344-369 | once a push has committed, every chunk of its layout stays on every desired node until the version is retired, under any later events, crashes included |
| Runs.LayoutsOfActiveVersionsStay | src/metadata/postgres_metadata_repository.cpp:344-369 | while some version of an object is not retired, all layouts of the object stay in the database, live, with object and chunk rows |
| Runs.ReplicasOfActiveVersionsStay | src/metadata/postgres_metadata_repository.cpp:344-369 | a chunk of a layout of an active version, once stored on a node, by whomever, stays there under any later events until the version is retired |
| Runs.FinalizeRetry | src/metadata/postgres_metadata_repository.cpp:2069-2164 | retrying a committed session changes nothing and succeeds if and only if the version is not retired and the descriptor is the committed one; otherwise it is Conflict or VersionRetired |
| Runs.FirstAnswerIsRepeated | src/metadata/postgres_metadata_repository.cpp:2076-2164 | whatever happens after a commit, a retry gives the first answer again until retirement |
| Runs.OpenGcRunsAreAlone | src/metadata/postgres_metadata_repository.cpp:2403-2476 | at most one GC run is open, and none together with an open session or replication run |
| Runs.CompletionGuardsNeverFire | src/metadata/postgres_metadata_repository.cpp:2593-2593 | in reachable worlds the guards inside the completing steps never fire, and a replication run never loses its layout, neither for its plan nor for its completion |
| Runs.GcDecisionsAreStable | src/metadata/postgres_metadata_repository.cpp:2488-2542 | while a GC run stays open, through any other events, no layout becomes live or dead and a classification keeps giving the same answers |
| Runs.RetirementIsTerminal | src/metadata/postgres_metadata_repository.cpp:2725-2740 | a retired version stays retired and is never pinned, tagged, referenced by a manifest or replicated again |
| CollectionRuns.RunCollectsPage | src/gc/gc_engine.cpp:30-128 | a GC run that starts, classifies a page, deletes what is pending and completes, with anything else happening in between: a chunk of the page is on the node's disk afterwards if and only if it was there before and some layout with it belongs to an object with an active version |
| CollectionRuns.RunForgetsPage | src/metadata/postgres_metadata_repository.cpp:2544-2642 | if the completion is accepted, the location rows of the page's chunks on the node are left under the same condition |
| FreshVersions.FreshCommitSurvives | src/metadata/postgres_metadata_repository.cpp:2279-2304 | a version first finalized at `now` keeps that time and is retired by no sequence of events in which every lifecycle run with a maximum age a for its kind takes place less than a after `now` |
| FreshVersions.YoungVersionIsKept | src/metadata/postgres_metadata_repository.cpp:2989-2991 | one lifecycle run never retires a version younger than the maximum age of its kind |
| ControlPlane.StepKeepsInv | src/service/metadata_service.cpp:786-786 | every event of the transition system keeps the invariant |
| ControlPlane.CatalogDbStep | src/metadata/postgres_metadata_repository.cpp:965-1469 | registering nodes, artifacts, locations, manifests and tags, and likewise policies and pins, keeps the database invariant, opens or closes no GC run, commits no session and undoes nothing that must last |
| ControlPlane.DeleteKeepsInv | src/gc/gc_engine.cpp:91-115 | deleting a pending chunk hurts no committed push |
| ControlPlane.CommitKeepsInv | src/metadata/postgres_metadata_repository.cpp:2270-2400 | committing a push whose replicas are all confirmed makes the session durable, since no GC run can have been open meanwhile |
| ControlPlane.CollectibleKept | src/metadata/postgres_metadata_repository.cpp:344-369 | a step between two states with an open GC run moves neither liveness nor collectibility |
| Wedge.CompletionSucceedsIff | migrations/009_multi_node_replication.sql:129-136 | an open apply run completes if and only if every replication run names a live layout; otherwise the call fails and changes nothing |
| Wedge.StuckBlocksEverything | src/metadata/postgres_metadata_repository.cpp:1770-1781 | while a run is stuck, no session, replication, lifecycle or other GC run can start, and completing fails |
| Wedge.StuckForever | migrations/009_multi_node_replication.sql:129-136 | a stuck run is still stuck after any sequence of events |
| Wedge.StuckIsReachable | src/metadata/postgres_metadata_repository.cpp:2544-2642 | register, push an empty file, repair, retire, collect: for all hash functions this ends stuck, for ever |
| SweepTheorems.SweepKeepsLiveness | src/metadata/postgres_metadata_repository.cpp:4356-4411 | the sweep leaves the set of live layouts as it is |
| SweepTheorems.SweepKeepsWhatLiveLayoutsNeed | src/metadata/postgres_metadata_repository.cpp:4356-4411 | it removes no object, chunk row or location that a live layout needs |
| SweepTheorems.SweepIsComplete | src/metadata/postgres_metadata_repository.cpp:4356-4411 | afterwards nothing is left to sweep on that node |
| SweepTheorems.SecondSweepDoesNothing | src/metadata/postgres_metadata_repository.cpp:4356-4411 | a second sweep of the node changes and counts nothing |
| SweepTheorems.DryRunBounds | src/metadata/postgres_metadata_repository.cpp:4286-4354 | dry-run counts equal the real ones for locations and layouts and are lower bounds for objects and chunk rows |
| SweepTheorems.CompletedRunSweptClean | src/metadata/postgres_metadata_repository.cpp:2544-2642 | completing an apply run leaves nothing to sweep on its node, the same layouts live, and counts at least what a dry run would have |
| Invariant.SweepKeepsValid | src/metadata/postgres_metadata_repository.cpp:4356-4411 | every reference between layouts, objects, chunks, locations and sessions survives the sweep |
| Invariant.LiveIffObjectInUse | src/metadata/postgres_metadata_repository.cpp:344-369 | in a valid database the second disjunct of the live-layout predicate never adds a layout |
| Calls.ClassificationMeans | src/metadata/postgres_metadata_repository.cpp:2488-2542 | on the raw tables, both when a classification succeeds and that a chunk is called collectible if and only if nobody needs it |
| Calls.FinalizationSucceedsIff | src/metadata/postgres_metadata_repository.cpp:2021-2401 | in a valid database a first finalization succeeds if and only if sizes fit the chunker, no ID has two sizes, every chunk has its row and is available on each selected node, the version is neither retired nor its own parent, and rows with the same IDs have the same contents |
| Calls.FirstFinalization | src/metadata/postgres_metadata_repository.cpp:2270-2400 | the rows after it: the new version carries the time of the call, the rest is as it was but for the session, its record, the object and the layout |
| Calls.GcStartsIff | src/metadata/postgres_metadata_repository.cpp:2403-2476 | a GC run with a new ID starts if and only if the node's name is well formed and no GC run, replication run or upload session is open |
| Calls.CompletionSweepsExactly | src/metadata/postgres_metadata_repository.cpp:4356-4411 | row by row which locations, layouts, objects, chunk rows and finalization records a completed run leaves, that it changes nothing else, and that its counts are the numbers of rows gone |
| Calls.DryRunCountsExactly | src/metadata/postgres_metadata_repository.cpp:4286-4354 | what the four dry-run counts count, on the raw tables |
| Calls.NewReplicationRun | src/metadata/postgres_metadata_repository.cpp:3256-3417 | placement and layout of a newly started run: n is in the placement if and only if it is registered as active; the layout is the restorable one of the version's object with the least ID |
| Calls.ReplicationStartsIff | src/metadata/postgres_metadata_repository.cpp:3256-3417 | such a run starts if and only if the factor is 1 to 8, no GC or replication run is open, the version is active with a restorable layout, and there are at least factor and at most 64 active nodes |
| Calls.ReplicationCompletesIff | src/metadata/postgres_metadata_repository.cpp:3562-3683 | an open run completes if and only if every chunk is available on every node selected for it |
| Calls.SessionCreatedIff | src/metadata/postgres_metadata_repository.cpp:1759-1940 | when a session with a new ID is created; one that exists is left alone and answered for only if it is the same |
| Calls.NegotiatedIff | src/metadata/postgres_metadata_repository.cpp:1595-1757 | when a batch is negotiated, and that exactly its chunks are then added with their sizes |
| Calls.LocationRegistered | src/metadata/postgres_metadata_repository.cpp:1429-1469 | a registered location has its state and no other replica is affected |
| Calls.ManifestRegisteredIff | src/metadata/postgres_metadata_repository.cpp:1145-1209 | when a manifest with a new ID is registered; one that exists is left alone |
| Calls.AbortedIff | src/metadata/postgres_metadata_repository.cpp:1980-2019 | when a session can be aborted; aborting twice is aborting once |
| Calls.LifecycleRunsIff | src/metadata/postgres_metadata_repository.cpp:2810-2914 | when a lifecycle run takes place, and that nothing but its record and the retirements changes |
| Calls.PinsAndTags | src/metadata/postgres_metadata_repository.cpp:2716-2798 | unpinning undoes pinning and says whether there was a pin; when a version can be tagged, and that a tag moves |
| Invariant.AcceptedIff | src/metadata/postgres_metadata_repository.cpp:2223-2268 | the chunk checks of a finalization pass if and only if each chunk of the layout has its row with the right size and is available on every desired node |
| Invariant.CommitKeepsValid | src/metadata/postgres_metadata_repository.cpp:2270-2400 | a first finalization keeps the database invariant |
| Invariant.LifecycleKeepsValid | src/metadata/postgres_metadata_repository.cpp:2810-3141 | so does a lifecycle run |
| Invariant.RetiredVersionsAreFree | src/metadata/postgres_metadata_repository.cpp:2981-2997 | what a lifecycle run retires exists and is not pinned, tagged or referenced |
| Invariant.ProtectedFromRetirement | src/metadata/postgres_metadata_repository.cpp:2981-2997 | a version that is pinned, tagged or in a manifest is retired by no policy at no time |
| Evolution.SweepKeepsCommits | migrations/011_retired_finalization_reclamation.sql:10-17 | deleting layouts clears no finalization record of a version that is not retired |
| Lifecycle.RetentionGuarantee | src/metadata/postgres_metadata_repository.cpp:2916-3030 | a retired version is unprotected and has at least keep_last_n versions of its artifact and kind ranked before it that the run does not retire |
| Lifecycle.RetiredIff | src/metadata/postgres_metadata_repository.cpp:2916-3030 | a candidate is retired if and only if nothing protects it, its age has reached the maximum if there is one, and keep_last_n candidates of its artifact and kind have a greater creation time, or an equal one and a smaller ID |
| Lifecycle.NewestAreKept | src/metadata/postgres_metadata_repository.cpp:2916-3030 | a retired version has keep_last_n others of its artifact and kind, at least as new, that the run keeps |
| Lifecycle.RuleByName | src/metadata/postgres_metadata_repository.cpp:2904-2914 | the kind named in the metadata decides which rule applies, the generic one if none is named, and an unknown name is an error |
| Lifecycle.EarlierRunIsAbsorbed | src/metadata/postgres_metadata_repository.cpp:2981-3030 | on candidates: running early and later retires what running once later does |
| Lifecycle.ReapplyRetiresNothing | src/metadata/postgres_metadata_repository.cpp:2981-3030 | on candidates: a second run at the same instant retires nothing |
| Lifecycle.BeforeStrictOrder | src/metadata/postgres_metadata_repository.cpp:2916-2934 | the sort comparator is a strict order; that it puts the newest first is Lifecycle.RetiredIff |
| Retention.RunsCompose | src/metadata/postgres_metadata_repository.cpp:2810-3141 | on the database: two applied runs retire what the later one alone retires, and the second can run |
| Retention.AppliedRunRetires | src/metadata/postgres_metadata_repository.cpp:2810-3141 | an applied run retires exactly the expired versions, a condition on the raw tables, and changes nothing else |
| Retention.ReapplyRetiresNothing | src/metadata/postgres_metadata_repository.cpp:2810-3141 | on the database: applying again at the same instant retires nothing more |
| Retention.RepeatedRunChangesNothing | src/metadata/postgres_metadata_repository.cpp:2810-2827 | a dry run retires nothing; repeating a run ID replays its result or is a conflict |
| Retention.RetiringRemovesCandidates | src/metadata/postgres_metadata_repository.cpp:2859-2914 | after a retirement the candidate query returns the earlier rows less the retired ones |
| LifecycleRun.Evaluate | src/metadata/postgres_metadata_repository.cpp:2916-3028 | sorting, ranking, deciding and counting in loops gives the set-based decisions, and scanned = protected + retained + candidates |
| LifecycleRun.AssignRanks | src/metadata/postgres_metadata_repository.cpp:2935-2953 | the running rank is one plus the number of versions of the same artifact and kind that come before |
| Repository.MetadataRepository.FinalizeUpload | src/metadata/postgres_metadata_repository.cpp:2021-2401 | the loops and inserts reply and commit what Tables.FinalizeUpload says, in all branches; after a first finalization at `now` a version that is new has the session's and the descriptor's key and `now` as its time of creation, object, layout, record and session are set, and no other row is touched; the call breaks no reference and undoes nothing that must last |
| Repository.MetadataRepository.CreateUploadSession | src/metadata/postgres_metadata_repository.cpp:1759-1940 | the guards, the replay of an identical session and the loop over the placement give the specified reply; the invariant is kept |
| Repository.MetadataRepository.AbortUploadSession | src/metadata/postgres_metadata_repository.cpp:1980-2019 | succeeds exactly for a session that is not committed, and from then on nothing can be negotiated or finalized for it; the invariant is kept |
| Repository.MetadataRepository.NegotiateChunks | src/metadata/postgres_metadata_repository.cpp:1595-1757 | the batch loops insert new rows only, or none at all on a size conflict; the invariant is kept |
| Repository.MetadataRepository.StartGcRun | src/metadata/postgres_metadata_repository.cpp:2403-2476 | a started or resumed open run is the only one, no session or replication run is open and none can start any more, and no chunk becomes or stops being collectible |
| Repository.MetadataRepository.ClassifyGcChunks | src/metadata/postgres_metadata_repository.cpp:2488-2542 | in a valid database a page is classified if and only if it has 1 to 256 different IDs and the run is open, and a chunk is called collectible if and only if every layout with it belongs to an object all of whose versions are retired |
| Repository.MetadataRepository.CompleteGcRun | src/metadata/postgres_metadata_repository.cpp:2544-2642 | a completed apply run has left nothing to sweep on its node and the same layouts live, with counts no less than those of a dry run; exactly the rows that nobody needs are gone, and the counts are their numbers; a refused one has changed nothing; the invariant is kept |
| Repository.MetadataRepository.StartReplicationRun | src/metadata/postgres_metadata_repository.cpp:3256-3417 | a run that is newly started is placed on exactly the active nodes, in ID order, and works on the restorable layout of the version's object with the least ID; the invariant is kept, so every run has a placement that selects and a layout of its version |
| Repository.MetadataRepository.GetReplicationPlan | src/metadata/postgres_metadata_repository.cpp:3429-3560 | the loops over chunks, targets and sources give the specified plan, or refuse it when a target is disabled |
| Repository.MetadataRepository.CompleteReplicationRun | src/metadata/postgres_metadata_repository.cpp:3562-3683 | the nested replica loop decides whether every desired replica is available; the invariant is kept |
| Repository.MetadataRepository.RunLifecycle | src/metadata/postgres_metadata_repository.cpp:2810-3141 | reading, sorting, ranking and inserting amount to the set-based run; an applied run retires exactly the active versions that are not pinned, tagged or in a manifest, have reached the maximum age if there is one, and have keep_last_n newer versions of their artifact and kind; the invariant is kept |
| Repository.MetadataRepository.RegisterManifest | src/metadata/postgres_metadata_repository.cpp:1145-1209 | retired and missing versions are refused; afterwards no policy retires a version of the manifest; the invariant is kept |
| Repository.MetadataRepository.SetTag | src/metadata/postgres_metadata_repository.cpp:1074-1113 | after tagging no policy ever retires the version while the tag is there; the invariant is kept |
| Repository.MetadataRepository.PinVersion | src/metadata/postgres_metadata_repository.cpp:2716-2763 | after pinning no policy ever retires the version while the pin is there; the invariant is kept |
| Statements.CheckChunks | src/metadata/postgres_metadata_repository.cpp:2223-2268 | the loop over unique chunks in ID order reports the first problem |
| Statements.CheckShape | src/metadata/postgres_metadata_repository.cpp:2166-2206 | the size loop accepts exactly the layouts that the session's chunking allows |
| Statements.CheckSizes | src/metadata/postgres_metadata_repository.cpp:2208-2221 | the map of seen sizes detects exactly a chunk ID with two sizes |
| Statements.InsertUpload | src/metadata/postgres_metadata_repository.cpp:2270-2400 | the inserts in their order: object and layout rows conflict before the parent check, version and finalization rows after it; otherwise all are made, and a new version row carries the time of the call |
| LifecycleRun.CheckPolicy | src/metadata/lifecycle.cpp:42-76 | the loop over the kinds accepts exactly the policies whose rules are in range |
| Statements.CollectSizes | src/metadata/postgres_metadata_repository.cpp:1595-1618 | a batch is refused exactly for an empty chunk or conflicting sizes |
| Statements.SelectRestorableLayouts | src/metadata/postgres_metadata_repository.cpp:3319-3340 | the layouts whose every chunk has an available location on a readable node, in ID order |
| Statements.CheckReplicas | src/metadata/postgres_metadata_repository.cpp:3618-3647 | the completion loop passes exactly when every desired replica is available |
| Statements.ReadCandidates | src/metadata/postgres_metadata_repository.cpp:2859-2914 | the rows are the candidates, each once, unless some kind is unknown |
| GcEngines.GcEngine.Collect | src/gc/gc_engine.cpp:30-128 | whatever the servers answer it ends and deletes only what was called collectible, nothing in a dry run; against well-behaved servers it succeeds, classifies every stored chunk exactly once, leaves exactly the chunks that are not collectible, and counts everything; completion is requested once, after the last page, with these counters, and its reply is the result |
| GcEngines.GcEngine.CollectOpenRun | src/gc/gc_engine.cpp:48-127 | the paging loop itself, ending because the cursor climbs the finite set of IDs |
| GcEngines.GcEngine.CollectNextPage | src/gc/gc_engine.cpp:48-125 | one turn of the loop: the cursor climbs, and what was classified, deleted and counted is what lies up to it |
| GcEngines.CrashedRunCanStartOver | src/gc/gc_engine.cpp:30-128 | a crashed run has deleted only collectible chunks, so starting over ends with the same inventory |
| GcEngines.WellBehavedServicesExist | src/storage/local_chunk_store.cpp:305-392 | for every inventory and classification there are servers that behave as the visiting theorem assumes |
| GcEngines.GcEngine.CollectPage | src/gc/gc_engine.cpp:58-115 | one page: refused if not increasing or with a wrong cursor, otherwise classified and deleted from |
| GcEngines.GcEngine.DeleteCollectible | src/gc/gc_engine.cpp:91-115 | deletions follow the decisions in order, a mismatched reply stops them, and only confirmed deletions are counted |
| GcEngines.HexValueClimbs | src/client/storage_node_client.cpp:180-187 | chunk IDs are ordered as the numbers they denote, so a climbing cursor can move only finitely often |
| GcEngines.PageContinuesVisit | src/storage/local_chunk_store.cpp:367-389 | a page of what remains continues the visit despite the engine's own deletions, and the last page completes it |
| ChunkStores.LocalChunkStore.Put | src/storage/local_chunk_store.cpp:195-233 | success leaves content that hashes to the ID; any failure, short write or crash, also one after the last write and before the rename, leaves the inventory as it was |
| ChunkStores.LocalChunkStore.Get | src/storage/local_chunk_store.cpp:235-275 | reads succeed exactly on stored content with the right hash |
| ChunkStores.LocalChunkStore.Remove | src/storage/local_chunk_store.cpp:283-303 | removes exactly that chunk and says whether it was there |
| ChunkStores.LocalChunkStore.ListChunks | src/storage/local_chunk_store.cpp:305-392 | the page is the first chunks beyond the cursor in order, with a next cursor exactly when there are more |
| ChunkStores.TemporaryFilesAreNotListed | src/storage/local_chunk_store.cpp:337-343 | temporary files that a crash leaves never show up in the inventory |
| Repair.RepairEngine.Repair | src/replication/repair_engine.cpp:35-132 | the whole run with others acting between requests and messages getting lost: on success the run is closed, every chunk of its layout is on every selected node unless the version was retired, and verified + written = chunks times replication factor; completion is refused only if somebody declared one of these replicas bad |
| Repair.RepairEngine.RepairChunk | src/replication/repair_engine.cpp:52-122 | one chunk: afterwards every desired replica is stored and registered, with exact counters |
| Repair.RepairEngine.FetchChunk | src/replication/repair_engine.cpp:81-105 | the sources in the pool are asked in order, one request each; the first answer that is neither a miss nor a remote failure decides, the bytes are those it supplied and have the hash and size asked for, and failovers are counted exactly |
| RepairRuns.PlanIsSound | src/metadata/postgres_metadata_repository.cpp:3429-3560 | in a valid database a plan lists every chunk of the layout with its row, replication-factor many distinct nodes that are not disabled, and as sources exactly the nodes that can serve it; the nodes are those that rendezvous selection picks from the run's placement |
| RepairRuns.PlanGivenIff | src/metadata/postgres_metadata_repository.cpp:3429-3560 | a plan is given if and only if the run is open and no selected node is unregistered or disabled |
| RepairRuns.FreshPlanHasSources | src/metadata/postgres_metadata_repository.cpp:3256-3560 | right after its start the plan of a run is given and every chunk has a source |
| RepairRuns.RepairCompletes | src/metadata/postgres_metadata_repository.cpp:3562-3683 | from any state satisfying the invariant and through any events: if each desired replica of the plan is available or gets registered, and nobody downgrades one, completing the run succeeds |
| OpenWork.OpenWorkIsUndisturbed | src/metadata/postgres_metadata_repository.cpp:1759-3417 | a replication run or upload session that is open in the end was open all the time, and meanwhile no GC run, retirement, lost row or deleted chunk could happen |
| OpenWork.RegisteredIsAvailable | src/metadata/postgres_metadata_repository.cpp:1429-1469 | while such work is open, a replica that is available or gets registered stays available unless some client downgrades it |
| OtherClients.ClientsAct | src/service/metadata_service.cpp:786-786 | whatever sequence of events other clients cause, it keeps the invariant and what a client relies on between two of its requests |
| OtherClients.ActedLonger | src/service/metadata_service.cpp:786-786 | what is relied on composes: two turns of the others are as one |
| Deployments.ClientsActLawfully | src/service/metadata_service.cpp:786-786 | the environment that repair and upload workers are proved against admits every strategy of other clients that consists of events of the transition system |
| BoundedQueues.BoundedQueue.Push | src/push/push_engine.cpp:142-153 | blocks, refuses or appends, and never exceeds the capacity |
| BoundedQueues.BoundedQueue.Pop | src/push/push_engine.cpp:155-167 | first in first out; a closed queue is drained before it ends |
| BoundedQueues.BoundedQueue.Cancel | src/push/push_engine.cpp:176-183 | closes and empties the queue |
| PushQueue.StepKeepsInv | src/push/push_engine.cpp:264-283 | every step keeps: each popped task is finished or with exactly one worker, the others untouched, the queue in order |
| PushQueue.SomeThreadCanStep | src/push/push_engine.cpp:134-198 | no deadlock: with a worker, some thread can always take a step that is not a failure until all have finished |
| PushQueue.SchedulesAreBounded | src/push/push_engine.cpp:264-283 | all threads terminate under every schedule |
| PushQueue.CapacityIsNeverExceeded | src/push/push_engine.cpp:134-153 | the queue never exceeds its capacity |
| PushQueue.SuccessfulPush | src/push/push_engine.cpp:335-475 | without a recorded failure nothing was cancelled, every task went once to every desired node, and puts + verifications = unique chunks times replication factor |
| UploadWorkers.UploadWorker.ProcessUploadTask | src/push/push_engine.cpp:218-262 | with other clients and workers acting between its requests and messages getting lost: if it succeeds, the chunk is confirmed and registered on every desired node, one put or verification each, and puts are repairs exactly at listed nodes |
| PushEngine.PushConfirmsLayout | src/push/push_engine.cpp:312-503 | after a push without failures every chunk of the submitted descriptor is confirmed on every desired node |
| PushRuns.CompletedPushIsAccepted | src/push/push_engine.cpp:312-503 | a push run inside a live deployment, its producer, workers and other clients interleaved: if its threads finish without a failure and its session is still open, finalization accepts it, except when a replica was declared bad, the version is retired or its own parent, rows with the same IDs and other contents exist, or two chunks of the file collide |
| PushRuns.CompletedPushIsDurable | src/push/push_engine.cpp:312-503 | its finalization makes the session durable: every chunk of the file stays on every node desired for it under any later events until the version is retired |
| PushRuns.PushKeepsSound | src/push/push_engine.cpp:312-475 | every step of the push or of others keeps: confirmed replicas are confirmed in the deployment and registered, negotiated chunks have their rows with the right sizes |
| PushPlan.RecordChunks | src/push/push_engine.cpp:387-427 | the layout is recorded chunk by chunk, and negotiation sees each chunk ID exactly once in batches of at most four |
| PushPlan.PushedDescriptorIsAccepted | src/metadata/postgres_metadata_repository.cpp:2166-2221 | what a push submits always passes layout validation and the shape check, and the size check too unless two chunks of the file collide |
| Shapes.ShapeMeans | src/metadata/postgres_metadata_repository.cpp:2166-2206 | the size checks pass exactly descriptors whose chunk sizes are those of some input split by the session's chunker (for FastCDC with some gear table), except that an empty layout's FastCDC parameters are not compared |
| Shapes.FixedShapeMeans | src/metadata/postgres_metadata_repository.cpp:2166-2206 | for a fixed chunk size: a layout passes if and only if its sizes are those of any input of the object's length |
| Shapes.RefusedShapes | src/metadata/postgres_metadata_repository.cpp:2166-2206 | an open session refuses a descriptor as an invalid argument exactly when its chunker could not have produced it |
| PullResume.PartialFile.ResumeFromPartial | src/pull/pull_engine.cpp:281-323 | from arbitrary bytes the file is cut to exactly the verified leading chunks |
| PullResume.PartialFile.WriteAll | src/pull/pull_engine.cpp:116-144 | short writes add up to the whole write; on failure some prefix was written |
| PullResume.IntactChunksHold | src/pull/pull_engine.cpp:292-320 | the reused chunks are intact, and the next one is not: no reusable chunk is thrown away |
| PullResume.PrefixUnique | src/pull/pull_engine.cpp:267-272 | the chunk list determines the bytes, or the two files contain a collision at one of its chunks |
| PullWindow.StepKeepsInv | src/pull/pull_engine.cpp:325-428 | every step keeps: each claimed, unwritten chunk is in exactly one place, and the file is the verified prefix plus the part being written |
| PullWindow.WindowIsNeverExceeded | src/pull/pull_engine.cpp:370-394 | claimed but unwritten chunks never exceed the window, under any schedule |
| PullWindow.SomeThreadCanStep | src/pull/pull_engine.cpp:325-428 | no deadlock: some thread can take a step that is no failure, or a download is in progress for which the writer waits (or which it no longer needs), and the right bytes would be delivered |
| PullWindow.SchedulesAreBounded | src/pull/pull_engine.cpp:357-428 | all threads terminate under every schedule |
| PullWindow.SuccessfulPull | src/pull/pull_engine.cpp:511-588 | when all threads end without failure the file is the concatenation of the chunks, and the counters account for every chunk not reused |
| PullWindow.OnlyFailuresFail | src/pull/pull_engine.cpp:343-355 | a pull fails only if a download or a write fails |
| PullShared.SharedDownloadState.TryClaim | src/pull/pull_engine.cpp:359-384 | the claiming critical section is the Claim step |
| PullShared.SharedDownloadState.Deliver | src/pull/pull_engine.cpp:417-421 | the delivering critical section is the Deliver step |
| PullShared.SharedDownloadState.TryTake | src/pull/pull_engine.cpp:538-557 | the writer's critical section takes the next chunk or notices a failure |
| PullShared.SharedDownloadState.AdvanceTo | src/pull/pull_engine.cpp:564-568 | moving the write index is the Advance step |
| PullEngine.Download | src/pull/pull_engine.cpp:391-415 | sources are tried in order, bytes with a wrong hash are failed over, a wrong size is an error |
| PullEngine.PublishedFileIsTheObject | src/pull/pull_engine.cpp:476-619 | whatever was left behind and whatever the schedule, a published file has exactly the layout's chunks, size and object hash, and downloaded + reused = total |
| PullEngine.PublishedBytesAreUnique | src/pull/pull_engine.cpp:590-619 | a published file is the object itself, or differs from it in a chunk where the two collide |
| RoundTrips.PulledIsPushed | src/pull/pull_engine.cpp:476-619 | push then pull: whatever was left behind and whatever the schedule, a pull of a pushed file that ends without failure publishes, and publishes the pushed bytes, or a chunk of the two files collides |
| Chunking.ScanConcat | src/chunking/fastcdc_chunker.cpp:91-105 | splitting the input over update calls makes no difference |
| Chunking.SplitPartitions | src/chunking/fastcdc_chunker.cpp:135-148 | chunks are not empty and concatenate to the input |
| Chunking.SplitUnique | src/chunking/fastcdc_chunker.cpp:150-172 | the chunks are the only partition whose members satisfy the cut rule at their end and not before |
| Chunking.EmittedChunksAreFinal | src/chunking/fastcdc_chunker.cpp:91-105 | appending data changes no chunk already emitted |
| Chunking.Resynchronizes | src/chunking/fastcdc_chunker.cpp:135-148 | inputs with a common suffix that starts at a boundary in both have the same later chunks |
| Chunking.RecordedLayoutIsValid | src/metadata/object_layout.cpp:47-69 | the recorded layout is contiguous and passes validation |
| Chunking.RecordedSizesAgree | src/metadata/postgres_metadata_repository.cpp:2208-2221 | a chunk ID is recorded with two sizes only if the two chunks collide |
| FastCdc.GearHashIsSum | src/chunking/fastcdc_chunker.cpp:100-104 | the gear hash is the sum of table values shifted by their distance, modulo 2^64 |
| FastCdc.LowBitsAreLocal | src/chunking/fastcdc_chunker.cpp:100-104 | its low k bits depend on the last k bytes only |
| FastCdc.CutDecisionIsLocal | src/chunking/fastcdc_chunker.cpp:150-172 | a cut depends on the buffered length and the last log2(avg)+1 bytes only |
| FastCdc.ResynchronizesAfterEdit | src/chunking/fastcdc_chunker.cpp:150-172 | after different prefixes, a common window and a common cut, all later chunks agree |
| FastCdc.ChunkSizeBounds | src/chunking/fastcdc_chunker.cpp:150-172 | every chunk is at most max, and all but the last at least min |
| FastCdc.FastCdcDivision | src/chunking/fastcdc_chunker.cpp:68-76 | with 2^k the average size: the chunks and the rest are the one division of the input in which every chunk has min to max bytes, ends at the first byte from min on where the unbounded gear sum is divisible by 2^(k+1) below the average size and by 2^(k-1) from there on, or at max, and the rest has no such byte |
| FastCdc.ParametersMean | src/chunking/fastcdc_chunker.cpp:38-66 | parameters are valid if and only if 64 <= min <= avg <= max <= 8 MiB and avg is 2^k, and then k is 6 to 23 |
| FastCdcChunkers.FastCdcChunker.Update | src/chunking/fastcdc_chunker.cpp:91-105 | the buffer, hash and offset updates amount to one scan step per byte |
| FastCdcChunkers.FastCdcChunker.Finalize | src/chunking/fastcdc_chunker.cpp:107-121 | the rest becomes the last chunk, once |
| FastCdcChunkers.ProcessBufferedBytes | src/chunking/fastcdc_chunker.cpp:150-172 | with 2^k the average size, the nested comparisons cut if and only if the minimum size is reached and the hash is divisible by 2^(k+1) below the average size, by 2^(k-1) from there to the maximum size, and by nothing in particular from then on |
| FastCdcChunkers.FastCdcChunker.ValidateParameters | src/chunking/fastcdc_chunker.cpp:38-66 | accepts exactly the valid parameters |
| FastCdcChunkers.MakeGearTable | src/chunking/fastcdc_chunker.cpp:14-31 | the loop fills the table with successive values of the generator |
| FastCdcChunkers.FastCdcChunker.Create | src/chunking/fastcdc_chunker.cpp:78-89 | constructs a chunker with the standard table exactly for valid parameters |
| FixedSizeChunkers.FixedSizeChunker.Update | src/chunking/fixed_size_chunker.cpp:17-42 | copying whole pieces amounts to one scan step per byte |
| FixedSizeChunkers.FixedSizeChunker.Finalize | src/chunking/fixed_size_chunker.cpp:44-58 | the rest becomes the last chunk, once |
| FixedSizeChunkers.FillPiece | src/chunking/fixed_size_chunker.cpp:28-41 | filling the buffer by a piece equals filling it byte by byte |
| FixedSizeChunkers.FixedChunkSizes | src/chunking/fixed_size_chunker.cpp:17-58 | every chunk but the last has the chunk size |
| ObjectLayouts.Validate | src/metadata/object_layout.cpp:32-69 | succeeds exactly on contiguous layouts of non-empty chunks that fit in 64 bits, and yields their total size |
| ObjectLayouts.LayoutTiles | src/metadata/object_layout.cpp:47-69 | every byte of the object lies in exactly one chunk |
| Placement.SelectReplicaNodes | src/metadata/placement.cpp:50-114 | validation, ranking, sorting and taking give the specified selection |
| Placement.SelectionIsTop | src/metadata/placement.cpp:78-113 | distinct nodes, each preferred to every node left out; smaller selections are prefixes |
| Placement.SelectionIsWinners | src/metadata/placement.cpp:93-113 | a list is the selection if and only if its nodes are in order and each wins against all nodes left out: the greater digest, read as a 256-bit number, wins, and the smaller ID between equal digests |
| Placement.RemovingUnselected | src/metadata/placement.cpp:78-113 | losing a node that was not selected changes nothing |
| Placement.RemovingSelected | src/metadata/placement.cpp:78-113 | losing a selected one keeps the rest in order and adds exactly the next at the end |
| CanonicalBytes.LayoutBytesInjective | src/metadata/object_layout_descriptor.cpp:145-197 | equal bytes mean equal object, strategy, parameters and chunk list |
| CanonicalBytes.VersionBytesInjective | src/metadata/artifact_model.cpp:199-234 | equal bytes mean equal artifact, object, parent and metadata map |
| CanonicalBytes.ManifestBytesInjective | src/metadata/manifest_model.cpp:135-156 | equal bytes mean equal entries |
| CanonicalFormats.LayoutFormat | src/metadata/object_layout_descriptor.cpp:145-197 | the format byte for byte: magic, version 1, object ID, code 1 or 2, parameters, total size, chunk count, then 48 bytes per chunk with ID, offset and size, each decoding big-endian to its value, and nothing else |
| CanonicalFormats.VersionFormat | src/metadata/artifact_model.cpp:199-234 | likewise for versions: magic, version 1, UUID, object ID, parent flag and ID, then length-prefixed keys and values, exactly those of the metadata, by ascending key |
| CanonicalFormats.ManifestFormat | src/metadata/manifest_model.cpp:135-156 | likewise for manifests: roles by ascending name, each with the ID of its version |
| CanonicalBytes.KindsNeverCoincide | src/metadata/manifest_model.cpp:21-21 | bytes of different kinds never coincide |
| CanonicalBytes.IdsIdentify | src/metadata/object_layout_descriptor.cpp:199-205 | two layouts have the same ID, or a layout, version and manifest share one, if and only if they are the same layout or their canonical bytes collide |
| Serializers.SerializeLayout | src/metadata/object_layout_descriptor.cpp:145-197 | the buffer ends up with the canonical bytes |
| Serializers.SerializeVersion | src/metadata/artifact_model.cpp:199-234 | likewise for versions, with the metadata in key order |
| Serializers.SerializeManifest | src/metadata/manifest_model.cpp:135-156 | likewise for manifests |
| Encoding.AppendBigEndian | src/metadata/object_layout_descriptor.cpp:34-44 | the shifting loop appends the big-endian digits |
| Encoding.AppendHex | src/metadata/object_layout_descriptor.cpp:58-72 | the nibble loop appends two digits per byte |
| Encoding.BigEndianInjective | src/metadata/object_layout_descriptor.cpp:34-44 | integers that fit their width are read back |
| Encoding.CompactUuidInjective | src/metadata/artifact_model.cpp:66-78 | dropping the hyphens of a valid UUID loses nothing |

## Left out

- HTTP, routing, JSON, the command line, benchmarks and the demo: input and output with no hard property.
- PostgreSQL itself: each repository method is one atomic step on the tables; timestamps other than a
  version's creation and a run's evaluation are ignored. A layout row and its chunk rows are one row, since
  they are inserted and deleted together, and validation of stored descriptors on loading is not modelled.
- `create_version`, `register_object_layout`, `register_chunks` and `set_version_state` as free-standing
  steps: they take no coordination lock and no route reaches them. All versions are committed.
- Uniqueness of (node, storage path) in `storage_locations`: the engines derive the path from the chunk ID.
- Names of policies, artifact names and projects, endpoints of nodes, run records and statistics that are
  only stored; character checks of IDs other than node IDs, and BIGINT range checks.
- The upload session's legacy target node: it is the first node of the placement.
- Lifecycle.Decide: ages are real numbers, so the rounding of the source's doubles and of its millisecond clock is not modelled.
- GcEngines.StatsOf: byte counters wrap at 2^64 as in the source; chunk counters are unbounded.
- GcEngines.GcEngine.Collect: assumes nothing about the servers for its safety part; that it visits every chunk once assumes that nobody puts chunks on the node meanwhile, which is what exclusion provides.
- PullWindow.SomeThreadCanStep: that a download in progress ever ends is up to the network and not part of this model, nor are lost wake-ups, since waiting is a guard.
- Repair.RepairEngine.Repair: a lost request or answer ends the repair, as in the source, while the pull engine fails over to the next source; the statistics that the completing call stores with the run are not modelled.
- UploadWorkers.UploadWorker.ProcessUploadTask: the registered storage path is not modelled.
- PushRuns.CompletedPushIsAccepted: storing and registering one replica is one step of the interleaving; UploadWorkers.UploadWorker.Put lets others act between the two. A push that finds its session committed or aborted by somebody else is outside this result.
- ControlPlane.UploadStep: a push is represented by what it confirmed and by its calls; which of these calls its threads make is the subject of PushRuns and UploadWorkers.
- File descriptors, fsync, symbolic links and destination checks of the pull; only bytes, truncation, short writes, crashes and the final rename are kept.
- The service's rescan of an already committed session, which records the layout as a push does and sends nothing.
