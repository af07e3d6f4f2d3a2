# Mnemosyne: a verified model of residency, fleet routing and usage accounting

Mnemosyne runs one language-model engine on a GPU node and swaps the resident
model on demand; a Fleet gateway places requests on many such nodes from the
snapshots they publish; and each node accounts for the tokens it served. This
project models those parts in Dafny and proves what their clients rely on.

**The residency coordinator** (`ResidencyCore`, `Coordinator`,
`ResidencyProtocol`, `ResidencyInvariant`, `ResidencySteps`,
`ResidencyTheorems`, `ResidencyOutcomes`, `ResidencyModes`, `ResidencyHazard`). `ResidencyCore` says what each critical
section does to the coordinator's fields; the class in `Coordinator` is the
imperative program, each section proved against that specification.
`ResidencyProtocol` interleaves the sections of any number of clients, of the one
driver task and of the maintenance barrier in every order, with engine starts,
stops and probes free to succeed, fail or hang. An inductive invariant over all
steps gives lease conservation, one-resident safety, first-come service, driver
liveness and the capacity bounds. They hold on all runs in which no cleanly
failing swap overlaps a waiting unload or eviction. That hypothesis is exact:
`HazardExact` shows that a failed swap can cost a permit its engine if and only if
it was such a one, and `CoordinatorCanWedge` that every fresh coordinator has a
run after which no permit is ever granted again. The cause is that a clean
failure reopens admission (cuda_residency.py:424) behind a barrier that has
already counted the permits (cuda_residency.py:634-665) and does not count them
again before it stops the engine (cuda_residency.py:710-720). Once a shutdown has
begun no hypothesis is needed, and the agreement of the fields a status report
shows needs none at all.

**The wire contract** (`FleetWire`, `FleetRanges`). The snapshot a node builds from its
coordinator, and the gateway's cross-field rules: in every state that any run
reaches the snapshot is accepted exactly when what it refers to is still in the
catalogue and the queue limit was not lowered below the present depth.

**The gateway** (`FleetRegistry`, `FleetScheduler`, `FleetQueue`, `Scheduler`,
`StaleAccounting`, `FleetRouting`, `FleetProxy`). The replay fence on snapshots; selection as a
lexicographic minimum that does not depend on iteration order; bounded first-come
queues without lost wake-ups; the bound on bursts against one snapshot; the
two-process argument that stale snapshots plus local reservations never
under-count a request that holds its reservation; and failover with at most one
node that may have worked.

**Usage** (`UsageStream`, `UsageTotals`, `UsageOutbox`, `UsageDelivery`). The incremental parser
and the stream forwarder do not depend on chunking; event ids make accounting
exactly-once over every interleaving of commits, ambiguous retries, pruning,
crashes and partly failing ledger writes.

**Deployment identity** (`Identity`). The argument filters that keep capacity out
of a deployment's identity.

Three more statements one might expect are false of the code, and are replaced by
the exact condition under which they hold. A waiter can be left without a driver,
but only by a shutdown cancelled before its first critical section while somebody
waits and no driver will look again (`NobodyStranded`, `DesertionExact`,
`DesertionStrands`). This one is false of the interleaving model rather than of the
program as it stands: the witness lets a request and a cancellation land between
the driver's return (cuda_residency.py:383) and its `finally` section
(cuda_residency.py:456), and while the shutdown waits for the condition's lock
(cuda_residency.py:624). No section here holds that lock across an await, so the
lock is free whenever it is asked for; the theorem says what would happen if one
did. A request that occupies a node is not
always accounted for: once its reservation is returned early, as when a client
hangs up, nothing counts it until the next poll (`AccountedExactly`,
`EarlyReturnIsMissed`). The capacity filter is not idempotent (`NotIdempotent`,
`IdempotentExactly`).

## Model

| member | source | states |
|---|---|---|
| ResidencySteps.StepKeeps | cuda_residency.py:220-755 | every step of client, driver or barrier except the hazardous one keeps the ledger of permits, queue and futures and the consistency of mode, target, epoch, driver and barrier |
| ResidencySteps.RunKeeps | cuda_residency.py:220-755 | the invariant holds at the end of every hazard-free run |
| ResidencySteps.StartHolds | cuda_residency.py:136-179 | a new coordinator satisfies the invariant |
| ResidencySteps.CancelKeeps | cuda_residency.py:335-351 | cancelling a queued, granted or failed waiter keeps the invariant; a granted one gives its permit back |
| ResidencySteps.ReturnKeeps | cuda_residency.py:530-543 | a genuine release is never dropped by the stale-epoch guard: the count falls by one |
| ResidencySteps.FailTransitionKeeps | cuda_residency.py:414-432 | a failed swap keeps the invariant unless it is a clean one behind a non-stopping barrier |
| ResidencySteps.DecisionKeeps | cuda_residency.py:372-407 | the driver's decision, granting, parking, draining or swapping, keeps the invariant |
| ResidencySteps.CommitControl | cuda_residency.py:434-454 | a committed swap leaves mode, resident, engine, driver and barrier in agreement, ready or behind a closed barrier, and touches no permit |
| ResidencySteps.ExitControl | cuda_residency.py:455-460 | after a driver left, whoever queued in the meantime has a successor unless the node is stopping |
| ResidencySteps.DrainExpiresControl | cuda_residency.py:638-664 | a drain that times out, reopening admission or merely recording it when stopping, leaves mode, resident, running engine and admission in agreement |
| ResidencySteps.ReopensControl | cuda_residency.py:740-754 | a barrier that stopped the engine reopens with no permit out and all fields in agreement |
| ResidencyTheorems.InvIsSafe | cuda_residency.py:462-481 | under the invariant each outstanding permit is for the resident and its engine is running |
| ResidencyTheorems.RunHonours | cuda_residency.py:237-299 | lease conservation and one-resident safety at every step of every hazard-free run: the count is the number of outstanding permits, all carry the current epoch, and epoch, engine and resident change only when none is out |
| ResidencyTheorems.ShutdownRunsAreSafe | cuda_residency.py:602-611 | once a shutdown has begun, every continuation is free of the hazard and safe at every step, whatever swaps fail in it and whatever maintenance came before |
| ResidencyTheorems.RunsWithoutUnloadAreSafe | cuda_residency.py:569-611 | so is, from its start, a run whose only maintenance is shutdown |
| ResidencyTheorems.ReachableStatesAgree | cuda_residency.py:184-208 | in every state a hazard-free run reaches, ready means a resident, idle none, a target means draining, unloading or loading, outstanding permits mean an authoritative resident, and a swap in progress means no permit is out |
| ResidencyModes.StepPresents | cuda_residency.py:184-208 | every step, the hazardous one too, keeps mode, resident, target and admission in agreement |
| ResidencyModes.AlwaysCoherent | cuda_residency.py:545-567 | so in every state any run reaches, hazardous or not, what a status report shows is coherent |
| ResidencyTheorems.NoOvertaking | cuda_residency.py:252-279 | whoever is granted a permit in a step arrived after all granted before and before all still queued |
| ResidencyTheorems.GrantsFollowOrder | cuda_residency.py:496-515 | permits go out in arrival order on both the fast path and the driver's path |
| ResidencyTheorems.RequestCurrentShape | cuda_residency.py:308-327 | a request for the current resident takes a permit only from an empty queue below the limit, and otherwise leaves everything as it was |
| ResidencyTheorems.NobodyStranded | cuda_residency.py:455-460 | in every hazard-free run in which no shutdown is cancelled before its first section while somebody waits and no driver will look again, a pending waiter is queued and has a live driver or a shutdown about to fail it, and a driver asleep without a pending notification waits for permits that are out |
| ResidencyHazard.DesertionExact | cuda_residency.py:602-633 | cancelling a shutdown before its first section can leave a waiter to nobody if and only if at that moment somebody waits and there is no driver, or one that has already returned |
| ResidencyHazard.DesertionStrands | cuda_residency.py:605-633 | such a cancellation is reachable in the model from every fresh coordinator, with a request queued while a driver was leaving |
| ResidencyTheorems.CapacityStep | cuda_residency.py:210-235 | no grant passes the effective limit, which is the largest number within derived capacity and configured ceiling; no append passes the queue depth, derived capacity changes only at zero, and above a lowered limit the count only falls |
| ResidencyTheorems.WithinLimit | cuda_residency.py:496-515 | without a lowering reconfiguration the count never exceeds that limit, over whole runs |
| ResidencyCore.Limit | cuda_residency.py:210-214 | the limit fits the derived capacity and the configured ceiling, and one more does not |
| ResidencyOutcomes.WithinSettings | cuda_residency.py:210-235 | on every hazard-free run that never shrinks the settings the count is at most the derived capacity and at most the configured ceiling |
| ResidencyOutcomes.RequestExactly | cuda_residency.py:252-279 | a request is leased at once if and only if the node takes requests, is ready with that model, has nobody queued and room for one more; refused as closed or full exactly when it is; and else queued last |
| ResidencyOutcomes.RequestCurrentExactly | cuda_residency.py:308-327 | a request that names no model is leased if and only if a resident is ready, unqueued and has room |
| ResidencyOutcomes.ReconfigurationExactly | cuda_residency.py:220-235 | a reconfiguration puts its ceiling and depth in force and leaves permits and queue alone |
| ResidencyOutcomes.DecisionExactly | cuda_residency.py:372-407 | the driver leaves, serves, swaps or waits exactly when admission, head, resident, room and count say so, and swaps to the head's model |
| ResidencyOutcomes.GrantIsMaximal | cuda_residency.py:496-515 | what it grants is the longest run of waiters for the resident that fits |
| ResidencyOutcomes.DriverShows | cuda_residency.py:394-407 | while it waits or swaps for the head's model, the node shows that model as its target |
| ResidencyOutcomes.FailureTellsTheHead | cuda_residency.py:517-521 | after a failed swap the head run for that model is told, nobody else is, and the next waiter wants another model |
| ResidencyOutcomes.SwapOutcomes | cuda_residency.py:414-454 | a failed swap reopens the node if and only if it was cleaned up and the node is not stopping; a successful one makes its model resident in a new epoch, ready if and only if admission is open |
| ResidencyOutcomes.BarrierOutcomes | cuda_residency.py:638-754 | an unload that stopped the engine reopens the node empty, a shutdown never does, and a drain that timed out puts the node back as it was |
| ResidencyOutcomes.GivingUpCloses | cuda_residency.py:698-738 | a barrier that gives up leaves the node closed and not vouched for, with its diagnostic |
| ResidencyTheorems.DecisionShape | cuda_residency.py:385-392 | a decision grants exactly a prefix of the queue within the limit, or grants nothing |
| ResidencyHazard.HazardExact | cuda_residency.py:414-432 | after a failed swap some continuation without a further hazardous failure takes the engine from under a permit if and only if the failure was clean behind a waiting unload or eviction |
| ResidencyHazard.HazardIsReachable | cuda_residency.py:665-696 | one request, one unload and one cleanly failing swap bring any fresh coordinator to the hazard |
| ResidencyHazard.WreckIsFinal | cuda_residency.py:537-543 | after the stop under a live permit, whose release the epoch guard then ignores, no run grants another permit |
| ResidencyHazard.CoordinatorCanWedge | cuda_residency.py:710-754 | every fresh coordinator has a run that ends so |
| Coordinator.CudaResidencyCoordinator.AcquireSection | cuda_residency.py:252-279 | the section refuses, leases, reports a full queue or queues as specified, purge included |
| Coordinator.CudaResidencyCoordinator.CancelWaiterSection | cuda_residency.py:335-351 | the new state of a cancellation, by the state of the waiter's future |
| Coordinator.CudaResidencyCoordinator.PurgeCancelled | cuda_residency.py:353-358 | the loop leaves exactly the waiters not cancelled, in order |
| Coordinator.CudaResidencyCoordinator.DecideSection | cuda_residency.py:372-407 | one turn of the driver: new state, verdict and waiters granted |
| Coordinator.CudaResidencyCoordinator.GrantHeadLocked | cuda_residency.py:496-515 | the loop grants the matching head run up to the limit and skips cancelled waiters |
| Coordinator.CudaResidencyCoordinator.FailHeadLocked | cuda_residency.py:517-521 | the loop fails the head run of one deployment and leaves the rest of the queue |
| Coordinator.CudaResidencyCoordinator.FailAllLocked | cuda_residency.py:523-528 | the loop empties the queue and fails every future still pending |
| Coordinator.CudaResidencyCoordinator.FailTransitionSection | cuda_residency.py:416-431 | the new state after a failed swap, reopening admission if cleanup succeeded |
| Coordinator.CudaResidencyCoordinator.CloseSection | cuda_residency.py:624-637 | closing admission fails every waiter and reports whether permits remain |
| FleetWire.Round6 | fleet_protocol.py:285 | rounding to six decimals moves a number by at most half a millionth |
| FleetWire.CapacityIsAccepted | fleet_protocol.py:250-286 | every capacity the node computes passes the gateway's capacity rules, saturation within 1e-6 included |
| FleetWire.SnapshotMirrors | vllm_manager.py:2943-2979 | the advertised deployments mirror the catalogue entry by entry: identity, warmth, queue count, acceptable capacity |
| FleetWire.EffectiveLimit | fleet_protocol.py:266-270 | the published limit is within derived capacity and ceiling and equals one of them |
| FleetWire.EntriesDescribe | vllm_manager.py:2943-2978 | each entry says what its profile is: eligible and authoritative if and only if pinned and portable, immutable if and only if pinned, loadable, with the resident's capacity when warm and the profile's own when cold |
| FleetWire.RootShows | vllm_manager.py:2931-2941 | the root limit is the largest number of permits that fits the coordinator's settings, and free permits are shown exactly while the node takes requests in rest and has room |
| FleetWire.HealthShows | vllm_manager.py:2907-2934 | the node says it takes requests exactly when its coordinator does and the engine process does not contradict it, and is degraded when it does |
| FleetWire.NeverOverSubscribed | vllm_manager.py:2935-2941 | on hazard-free runs that never shrink the settings no snapshot shows more active requests than its limit |
| FleetWire.SnapshotAccepted | fleet/src/mnemosyne_fleet/protocol.py:293-392 | a snapshot of a coordinator whose fields agree passes all validators if and only if what it refers to is catalogued and the queue is within its limit |
| FleetWire.HealthIsAccepted | vllm_manager.py:2907-2941 | health, availability and a transition target agree as the gateway demands, also when the engine process is missing or unexpected |
| FleetWire.ReachableSnapshotsAccepted | vllm_manager.py:2904-3035 | in every state that any run on in-range settings and engine reports reaches, hazardous or not, the snapshot is accepted if and only if what it refers to is catalogued and the queue is within its limit |
| FleetRanges.RunRanged | fleet/src/mnemosyne_fleet/protocol.py:86-96 | with in-range settings and engine reports the active count, the queue and the capacity stay within the protocol's ranges over every run |
| FleetWire.OccupantsCounted | cuda_residency.py:545-567 | a coordinator that keeps its invariant shows exactly the requests that hold a permit or a place in its queue |
| FleetRegistry.NodeRegistry.Accept | fleet/src/mnemosyne_fleet/registry.py:145-184 | one poll's verdict: a rejected snapshot changes neither record nor fence, and other nodes are untouched |
| FleetRegistry.HistoryIsFenced | fleet/src/mnemosyne_fleet/registry.py:145-184 | over every sequence of offers the accepted history is a row of blocks with distinct instances and growing sequence numbers, and the retired ids are exactly those of earlier blocks |
| FleetRegistry.AcceptedExactly | fleet/src/mnemosyne_fleet/registry.py:145-183 | a first report, a newer one of the current process, and one of a process never seen while fewer than 1024 are retired are accepted, and no other; what is accepted becomes the record |
| FleetRegistry.AtMost1025Processes | fleet/src/mnemosyne_fleet/registry.py:159-175 | at most 1025 instances are ever believed, and none is returned to |
| FleetScheduler.CandidateDeployment | fleet/src/mnemosyne_fleet/scheduler.py:147-162 | the loop returns the first deployment that fits strictly |
| FleetScheduler.Select | fleet/src/mnemosyne_fleet/scheduler.py:189-264 | none exactly when no live node qualifies, otherwise the only candidate least in (tier, load, last selected, node), for every iteration order |
| FleetScheduler.Least | fleet/src/mnemosyne_fleet/scheduler.py:256-264 | the minimum loop returns a member that no other precedes |
| FleetScheduler.QualifiesExactly | fleet/src/mnemosyne_fleet/scheduler.py:413-435 | a node qualifies if and only if the model matrix reports it eligible, the request has not tried it and its snapshot has room beyond the local reservations |
| FleetScheduler.ChosenIsReportedEligible | fleet/src/mnemosyne_fleet/scheduler.py:469 | a chosen node is reported eligible at that instant, is not excluded, and offers the strict deployment |
| FleetScheduler.ChosenPrefersWarm | fleet/src/mnemosyne_fleet/scheduler.py:226-239 | warm first: a free permit on the resident is preferred to queueing for it, that to an empty node, and that to a swap |
| FleetScheduler.ChosenIsLeastLoaded | fleet/src/mnemosyne_fleet/scheduler.py:241-253 | within a tier the chosen node has the least outstanding work, unaccounted reservations included, for its weight |
| FleetScheduler.ChosenAmongTies | fleet/src/mnemosyne_fleet/scheduler.py:256-264 | among nodes equal in warmth and load the chosen one was selected least recently, and then comes first by name |
| FleetRouting.ServingIsEligible | fleet/src/mnemosyne_fleet/scheduler.py:413-435 | a pinned and portable profile of a node whose coordinator takes requests is reported eligible from that node's snapshot |
| FleetRouting.ServingQualifies | fleet/src/mnemosyne_fleet/scheduler.py:197-253 | and a request for it qualifies there while the node's queue has room for what the gateway sent |
| FleetRouting.ClosedIsNotChosen | fleet/src/mnemosyne_fleet/scheduler.py:200-206 | a node that does not take requests is never chosen |
| FleetScheduler.PlacementFits | fleet/src/mnemosyne_fleet/scheduler.py:215-239 | after a placement the unaccounted reservations fit the advertised availability (tier 1) or queue room (tiers 2 to 4) |
| FleetScheduler.LessIsPlaceable | fleet/src/mnemosyne_fleet/scheduler.py:189-253 | time passing and further reservations never make a placeable request out of one that was not |
| FleetQueue.AdmitNarrows | fleet/src/mnemosyne_fleet/scheduler.py:84-95 | marking a request admitted never un-counts it against an installed snapshot |
| FleetQueue.AdmittedIsLeftToPolls | fleet/src/mnemosyne_fleet/scheduler.py:84-95 | a request marked admitted is left to every poll that starts later, and only that request |
| FleetQueue.ArrivalExactly | fleet/src/mnemosyne_fleet/scheduler.py:280-298 | a newcomer is placed if and only if nobody waits and some node qualifies, refused if and only if it is not placed and the queue is full, and else queued last; a placement reserves the demanded deployment on the chosen process under its alias |
| FleetQueue.ResumptionExactly | fleet/src/mnemosyne_fleet/scheduler.py:300-317 | a woken waiter is placed if and only if it heads its queue and some node qualifies |
| FleetQueue.ReleaseExactly | fleet/src/mnemosyne_fleet/scheduler.py:357-360 | a release takes away that reservation and no other and wakes everybody |
| FleetQueue.StepKeeps | fleet/src/mnemosyne_fleet/scheduler.py:266-360 | every arrival, wake-up, time-out, release, admission, poll and tick keeps queues bounded, every placeable parked head covered by a pending wake, and selections dated by the counter |
| FleetQueue.DropOrders | fleet/src/mnemosyne_fleet/scheduler.py:325-328 | a waiter that leaves does not change the order of the others |
| FleetQueue.NoLostWakeup | fleet/src/mnemosyne_fleet/scheduler.py:280-328 | in every run, when all waiters are parked and no change callback is due, no queue's head could be placed |
| FleetQueue.NoOvertaking | fleet/src/mnemosyne_fleet/scheduler.py:280-328 | over every run a waiter that did not give up is served only after everyone ahead has left |
| FleetQueue.TiesGoRound | fleet/src/mnemosyne_fleet/scheduler.py:353-354 | in every state that satisfies the queue invariant, a node just chosen yields to any node that ties with it |
| FleetQueue.PlacementBound | fleet/src/mnemosyne_fleet/scheduler.py:300-355 | against one unchanged snapshot any run keeps a node's unaccounted reservations within the larger of availability, queue room and the starting count |
| SchedulerSections.Scheduler.SelectLocked | fleet/src/mnemosyne_fleet/scheduler.py:189-264 | selection on the scheduler's own fields decides as specified |
| SchedulerSections.Scheduler.AcquireSection | fleet/src/mnemosyne_fleet/scheduler.py:280-298 | a newcomer is placed at once only if nobody waits, else refused at full depth, else queued last |
| SchedulerSections.Scheduler.ResumeSection | fleet/src/mnemosyne_fleet/scheduler.py:300-317 | a woken waiter is placed only from the head, and then everyone is notified |
| StaleAccounting.StepKeeps | fleet/src/mnemosyne_fleet/scheduler.py:84-95 | the two-process invariant survives every step, restarts and failed polls included |
| StaleAccounting.AccountedExactly | fleet/src/mnemosyne_fleet/scheduler.py:135-145 | a request that occupies the node is in the installed snapshot or among the unaccounted reservations if and only if that snapshot saw it or its reservation is still held; the installed snapshot is of the running process |
| StaleAccounting.UnaccountedExactly | fleet/src/mnemosyne_fleet/scheduler.py:135-145 | over every run the reservations added to a snapshot are exactly those held on its process whose first headers did not come before its poll started |
| StaleAccounting.CountedTwiceOnlyIfLate | fleet/src/mnemosyne_fleet/scheduler.py:84-95 | so no request whose headers came before the poll is counted beside the snapshot that shows it |
| StaleAccounting.NothingAddedOnceAnswered | fleet/src/mnemosyne_fleet/scheduler.py:135-145 | and once all headers came before the poll nothing is added to what the snapshot shows |
| StaleAccounting.EarlyReturnIsMissed | fleet/src/mnemosyne_fleet/proxy.py:298-305 | a reservation returned while the node still works leaves that work uncounted |
| StaleAccounting.NeverUndercounts | fleet/src/mnemosyne_fleet/registry.py:92-93 | over every run a request that holds both its reservation and a place on the node is accounted for |
| StaleAccounting.OutstandingIsEnough | fleet/src/mnemosyne_fleet/scheduler.py:245 | over every run the outstanding work by which nodes are compared is at least the number of such requests |
| FleetProxy.Attempt | fleet/src/mnemosyne_fleet/proxy.py:220-405 | each upstream outcome is classified, logged and its reservation returned unless a stream still owns it |
| FleetProxy.Handle | fleet/src/mnemosyne_fleet/proxy.py:167-218 | the retry loop does what the recursive account of a conversation says, reply and log, and hands over an uncompleted owner on the reply's route exactly when the reply streams |
| FleetProxy.RouteOwnership.Complete | fleet/src/mnemosyne_fleet/proxy.py:494-513 | only the first completion returns the reservation |
| FleetProxy.Serve | fleet/src/mnemosyne_fleet/proxy.py:540-553 | however a stream ends, its owner is completed once, with a failure exactly when it did not drain |
| FleetProxy.WatchAttempt | fleet/src/mnemosyne_fleet/proxy.py:333-348 | one attempt holds one reservation, admits it only past the admission boundary, and returns it unless it streams |
| FleetProxy.ScheduledIsHonest | fleet/src/mnemosyne_fleet/scheduler.py:197-206 | grants that come from selection never name a node the request has tried |
| FleetProxy.AtMostOneNodeWorks | fleet/src/mnemosyne_fleet/proxy.py:167-218 | for grants that come from selection, nodes tried are distinct and no more than enrolled, only the last attempt can have worked, and reservations are held one at a time and returned before the next |
| FleetProxy.Converse | fleet/src/mnemosyne_fleet/proxy.py:494-553 | a request handled, served however its stream ends, and completed any number of times more: all that is done keeps to the phases, the reservation is back once and late completions do nothing |
| FleetProxy.GivingUpExactly | fleet/src/mnemosyne_fleet/proxy.py:206-218 | after all attempts the answer is 429 if and only if every node proved busy, and 503 if and only if all were retried but not all busy |
| FleetProxy.VerdictExactly | fleet/src/mnemosyne_fleet/proxy.py:298-405 | an attempt is retried if and only if no connection came about or the manager proved itself busy; otherwise its outcome gives the reply |
| FleetProxy.RepliesExactly | fleet/src/mnemosyne_fleet/proxy.py:167-218 | every attempt before the last was proved harmless; if the last was too, all attempts were used or the scheduler refused the next; otherwise readable headers stream with their status, cancellations raise and the rest is an upstream failure |
| FleetProxy.RecordExactly | fleet/src/mnemosyne_fleet/proxy.py:247-405 | what is recorded of an attempt: admission exactly past the boundary, return exactly unless it streams, and the status and failure code of its outcome |
| UsageStream.EarlierEndsEarlier | usage_normalization.py:149 | a boundary that starts earlier never ends later |
| UsageStream.BoundaryIs | usage_normalization.py:149 | a boundary is two newlines, each LF or CR LF, and nothing else is |
| UsageStream.SearchIsStable | usage_normalization.py:186-189 | more input never moves a boundary already found |
| UsageStream.SplitResumes | usage_normalization.py:182-192 | splitting can stop anywhere and resume with the rest |
| UsageStream.SplitIsComplete | usage_normalization.py:186-192 | neither an event nor the rest contains a boundary |
| UsageStream.ChunkingInvariance | usage_normalization.py:182-192 | feeding a then b leaves the parser as feeding a+b does: buffer, latest usage and merged counters |
| UsageStream.OnlyBytesMatter | usage_normalization.py:194-201 | the finished usage depends only on the concatenated stream |
| UsageStream.MergedIsLast | usage_normalization.py:211-216 | each Anthropic counter keeps the value of the last event that carried it |
| UsageStream.MergedDecides | usage_normalization.py:217-224 | the totals of a Messages stream are always those of its merged counters |
| UsageStream.LatestIsLast | usage_normalization.py:221-224 | the totals of any other stream are those of the last event that reports usage |
| UsageTotals.OpenAITotals | usage_normalization.py:115-124 | the prompt is `prompt_tokens`, or `input_tokens` where that is absent, the completion likewise, and the total is the reported one or the sum |
| UsageTotals.MessagesTotals | usage_normalization.py:106-124 | the prompt is the sum of the three input counters and the completion the output counter |
| UsageTotals.BlockIs | usage_normalization.py:76-94 | usage is looked for on top, then in the response, message and delta envelopes, and last in the event itself |
| UsageTotals.OpenAIStream | usage_normalization.py:203-224 | after a stream whose last reporting event counts p and q tokens the parser has prompt p and completion q |
| UsageTotals.MessagesStream | usage_normalization.py:211-224 | after a Messages stream the prompt is the sum of the three input counters as last reported, and the completion the output counter as last reported |
| UsageTotals.UsageOf | usage_normalization.py:182-201 | feeding a response in any chunks and finishing returns the totals of its events |
| UsageStream.StreamingUsageParser.Feed | usage_normalization.py:182-192 | the feeding loop does to the parser's fields what the split says |
| UsageStream.EventEndIsStable | vllm_manager.py:3605-3612 | more input never moves the end of the first complete event |
| UsageStream.EventEndIs | vllm_manager.py:3605-3613 | the first event ends with the leftmost LF LF or CR LF CR LF, and is complete if and only if there is one |
| UsageStream.CutResumes | vllm_manager.py:3603-3614 | cutting the forwarded stream does not depend on chunks |
| UsageStream.CutConserves | vllm_manager.py:3613-3614 | events and tail concatenate to the upstream bytes |
| UsageStream.HidesExactly | vllm_manager.py:3166-3173 | the hidden events are exactly those with a usage object and an empty list of choices |
| UsageStream.HidesInPlace | vllm_manager.py:3615-3626 | each event is shown or hidden in its place, independently of the others |
| UsageStream.NothingIsLost | vllm_manager.py:3615-3635 | a client that may see usage events receives exactly the upstream bytes |
| UsageStream.WrapStream | vllm_manager.py:3597-3635 | for every chunking an untracked stream passes unchanged, a tracked one delivers what its bytes alone determine, and all of it if usage was asked for or not forced |
| UsageStream.ForwardEvents | vllm_manager.py:3604-3626 | the inner loop forwards every complete event to be shown and leaves a buffer without one |
| UsageOutbox.Known | catalog.py:899-904 | the conflict test finds an event id exactly if some row has it |
| UsageOutbox.Catalog.RecordUsageBatch | catalog.py:856-943 | one transaction logs new events once, credits each alias with the sum of its new rows and enqueues the sidecar's rows |
| UsageOutbox.Catalog.CreditAggregate | catalog.py:925-933 | the update loop adds each aggregate to its model row and touches no other |
| UsageOutbox.Catalog.EnqueueOutbox | catalog.py:956-976 | rows are appended in order, duplicates of an event id ignored |
| UsageOutbox.Catalog.DeleteOutbox | catalog.py:998-1009 | exactly the named rows disappear |
| UsageOutbox.AggregatesStep | catalog.py:917-924 | the running aggregate stays the sum over the new rows of each alias |
| UsageDelivery.CommitKeeps | vllm_manager.py:867-912 | a committed batch, first or repeated, keeps tables distinct, totals exact and nothing lost |
| UsageDelivery.PeekTakesOldest | catalog.py:978-996 | a flush reads up to its limit of rows and none it leaves is older |
| UsageDelivery.PruneDropsOldest | catalog.py:1018-1034 | pruning leaves as many rows as allowed and drops only rows older than all it keeps |
| UsageDelivery.PruneKeeps | catalog.py:1018-1034 | pruning keeps the invariant: what it drops is recorded as pruned and nothing else is lost |
| UsageDelivery.WriteKeeps | pg_writer.py:83-105 | a ledger write that inserts any part of its batch and fails or succeeds keeps the invariant |
| UsageDelivery.DeleteKeeps | vllm_manager.py:991-999 | a finished flush deletes only rows that are in the ledger, also across pruning and other flushes |
| UsageDelivery.StepOwes | vllm_manager.py:887-907 | whatever is in the outbox, in a flush or in the ledger was committed with the sidecar on |
| UsageDelivery.ExactlyOnce | vllm_manager.py:3246-3299 | in every run no event is logged or delivered twice, totals equal the sums of a model's events, an event committed with the sidecar on is in the outbox, in the ledger or was pruned, and no other is in outbox or ledger |
| Identity.PartitionFinds | vllm_manager.py:563 | testing for a name or a `name=` prefix is looking at the partition at the first equals sign |
| Identity.StripValidFlags | vllm_manager.py:547-584 | the loop computes the specified filter |
| Identity.SemanticExtraArgs | fleet_protocol.py:174-231 | the capacity filter, written differently, is the same filter with the capacity options as its flags |
| Identity.OnlyWellFormedDropped | vllm_manager.py:547-584 | the arguments fall into pieces without loss, the result is the kept pieces in order, and each other piece is one well-formed option |
| Identity.InsertionIsInvisible | fleet_protocol.py:181-184 | inserting a well-formed option wherever the scan looks leaves the result unchanged |
| Identity.IdentityIgnoresCapacity | vllm_manager.py:587-670 | inserting a capacity option leaves the whole load configuration unchanged |
| Identity.CapacityMayChange | vllm_manager.py:587-670 | replacing one capacity option by another leaves the load configuration unchanged |
| Identity.ConfigKeeps | vllm_manager.py:587-670 | arguments that no filter knows enter the configuration unchanged and in order, beside the context, pooling, trust and defaults of the profile |
| Identity.ConfigSeparates | vllm_manager.py:587-670 | so two profiles of one backend that differ in such arguments have different configurations |
| Identity.CapacityDroppedExactly | fleet_protocol.py:186-228 | a capacity option is dropped if and only if its value is a positive number |
| Identity.IdempotentExactly | fleet_protocol.py:192-231 | filtering twice equals filtering once if and only if the arguments hold no kept option name that only dropped options separate from a kept value for it |
| Identity.NotIdempotent | fleet_protocol.py:216-228 | `--parallel --parallel 4 8` reduces to `--parallel 8` and then to nothing |

## Left out

- HTTP, routing, authentication, configuration, downloads, model search, image requests, the user interface, the Swift client and packaging: input and output or simple validation.
- Clocks and deadlines of the coordinator: a time-out may strike at any wait, so the theorems hold for all settings; the idle threshold of eviction is a free condition.
- The coordinator's change counter, last-use time and observer callbacks: nothing in the model reads them.
- Asyncio scheduling below the level of a critical section: a section under the condition runs without interruption, a time-out handler is one step with its section (the maintenance caller may also be cancelled before any of its sections), and a second cancellation inside the cancellation of a waiter is not modelled.
- Cancellation of the driver task itself: nothing in the coordinator cancels it.
- The coordinator's fields are one record in the class of `Coordinator`; a profile carries its deployment identity, so the two cannot be passed in disagreement.
- SHA-256 and canonical JSON: an identity document stands for its digest, so digests never collide; the order in which a snapshot lists deployments is that of the catalogue, not sorted by alias.
- Field formats of a snapshot (identifier syntax, time stamps, versions, usage delivery) and the size and encoding checks of a poll: only the cross-field rules and numeric ranges are modelled.
- Load scores, weights and saturation are real numbers without rounding error, apart from the rounding to six decimals that the code does itself.
- Node names are numbered in their alphabetical order, and process instance ids in the order of their start; only equality of instance ids is used by the gateway.
- Requests that reach a process other than the one they were reserved on: the accounting theorems are about those that reach it.
- The step that takes a snapshot in `StaleAccounting` supposes it to count at least the Fleet requests inside the node; `OccupantsCounted` proves it of a coordinator that keeps its invariant, but the two models are not one state machine.
- Polls of one node follow one another, as the polling loop has it; two concurrent polls of one node are not modelled.
- Route and ticket identifiers are fresh when issued; the gateway's route metadata store is not modelled.
- SQLite and Postgres are tables changed by atomic transactions; a ledger write may insert any part of its batch before it fails. Usage rows without an event id, request counters and last-use stamps of models are not modelled.
- The usage row recorded in the middle of a stream: with several completing events it depends on the chunks, since the parser is fed the whole chunk first.
- Agreement between the parser's boundary pattern and the forwarder's two searches: they cut mixed line ends differently, and each is treated on its own.
- Decoding of events, JSON and integers: arbitrary functions; the insertion results ask only that the text of an option does not read as a number.
- How a normalized usage becomes a row of the analytics table, and which protocol an endpoint speaks: the entry and the protocol are inputs.
- Reading single values such as context length and pooling out of the filtered arguments: arbitrary functions of those arguments.
- Derivation of CUDA capacity from engine reports: any positive capacity may come back.
