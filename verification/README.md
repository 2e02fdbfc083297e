# DeskPilot runtime protocols in Dafny

A verified model of the stateful protocols behind DeskPilot's durable effect-DAG runtime.
`dafny verify dfyconfig.toml` checks the whole project.

Each protocol comes in up to three layers:

* a specification: a state value and one function per transaction
  (`ClusterAdmission`, `LocalAdmission`, `Outbox`, `GraphControl`, `AuditLog`, `AuditExport`, `CursorCodec`, `Alerts`, `Saga`,
  `CostLedger`, `Gateway`);
* proofs about every run of it: what is kept, what is ordered, what ends (`ClusterGrants`, `ClusterSafety`, `LocalSafety`,
  `LocalFairness`, `LocalQuiescence`, `OutboxSafety`, `OutboxOrder`, `GraphControlSafety`, `AuditProofs`, `SagaProofs`,
  `SagaTheorems`, `SagaRecovery`, `GatewayCircuit`), and what each transaction does, stated over again in the fields of the rows
  alone and without the specification's functions (`ClusterLeases`, `LocalOutcomes`, `OutboxOutcomes`, `GraphControlOutcomes`,
  `AlertOutcomes`, `SagaAnswers`);
* a class whose fields change in place, as the program's do, each method proved to take exactly the specified step
  (`ClusterStore`, `LocalController`, `OutboxStore`, `OutboxOperations`, `GraphControlStore`, `AuditStore`, `AlertStore`, `SagaProcessor`,
  `GatewayService`).

What is modelled:

* **Cluster admission.** Durable tickets with leases and fences, least-recently-granted scheduling, capacity limits.
* **Process-local admission.** Per-graph queues, a rotating ring, three counters and the nested drain loop.
* **Outbox and inbox.** Claims under a lease and a fence, head-of-line order, retries, dead letters, two requeue
  operations, one of them under an idempotency key of the audit log, and the deduplicating consumer.
* **Graph-control mailbox.** One cancel command per graph under two fences, the graph lease and the delivery claim.
* **Audit chain and export.** Hash-chained appends, idempotent mutations, cursor paging frozen to a head, and the
  cursor's base64url text.
* **Alerts.** Reconciling a table of alert states with a snapshot, and the notification log.
* **Saga.** Stages 3 to 8 of the file-move saga, compensation, checkpoints, and recovery at every transaction boundary.
* **Gateway.** Pricing, the task cost ledger, the bounded retry and fallback loop, and a provider's circuit.

A run is a sequence of transactions, each one atomic step, in any order. Clocks never go back. What comes from outside
(a broker, a provider, the policy engine, an approver, the file system) is an input of the step. A message, claim,
handle or permit, once handed out, may be used at any later time by a holder that does not know it was superseded.

What the proofs found out about the code, each with its exact condition:

* The local controller is described as work-conserving. A batch that becomes head because the drain just served its
  predecessor is not looked at again in that drain, so the drain conserves work under all limits exactly while no graph
  has two batches waiting (`LocalQuiescence.ConservesWorkIff`; a concrete state in `LocalFairness.DrainCanLeaveSlotsIdle`).
* A requeue can break the order of a task's messages. It can exactly when a later message was delivered before every
  delivery of the requeued one, or the requeued one was never delivered and a claim on a later message is out
  (`OutboxOrder.RequeueHarmfulIff`); every other message stays in order (`OutboxSafety.FirstDeliveriesInOrder`).
* The task cost limit holds against providers exactly if no accepted report costs more than its reservation
  (`CostLedger.BudgetHoldsIff`). The gateway checks the output bound of a report only; a report of more input tokens
  than the request has bytes can overdraw (`CostLedger.UncheckedInputOverdraws`).
* Recovery of a saga continues from some crash points and refuses the others, and it refuses several at which nothing but
  the next checkpoint is missing. `SagaRecovery.RecoveryIsExact` says which; where it continues, it is the same run.

* A circuit's half-open probe is meant to be the only call let in. The record does not say which call is the probe, and the
  end of any call gives its place back, so a call older than the circuit's opening that is cancelled or fails while the probe
  is out lets a second probe in. That is the only way (`GatewayCircuit.GuardedIff`, `ProbeIsAlone`), and under every policy a
  run gets there (`GatewayCircuit.TwoProbesAtOnce`).

Every lemma turns automatic induction off, so that each inductive proof is in its body.

## Model

| member | source | states |
|---|---|---|
| `ClusterSafety.CapacityOverRuns` | backend/src/deskpilot/application/effect_dag_cluster_admission.py:450-640 | In every state of every run, under any interleaving of configuration, registration, renewal, scheduling, cancellation, withdrawal, release and clock ticks, the granted and unexpired tickets fit the stored global, per-graph and per-tool limits. |
| `ClusterSafety.StepKeepsInv` | backend/src/deskpilot/application/effect_dag_cluster_admission.py:90-773 | Each transaction keeps capacity, grant numbering, fairness and the shape of batches. |
| `ClusterSafety.ConfigureKeepsInv` | backend/src/deskpilot/application/effect_dag_cluster_admission.py:114-151 | A configuration change is accepted only when no ticket is live, so the new limits cannot already be exceeded. |
| `ClusterSafety.ScheduleKeepsCounts` | backend/src/deskpilot/application/effect_dag_cluster_admission.py:564-640 | One scheduling pass stays within the limits, hands out consecutive sequences and keeps the fairness of the whole grant history. |
| `ClusterGrants.GrantKeepsCapacity` | backend/src/deskpilot/application/effect_dag_cluster_admission.py:564-614 | A grant chosen by the pass fits the graph and tool limits it was checked against. |
| `ClusterGrants.NextIsLeastRecent` | backend/src/deskpilot/application/effect_dag_cluster_admission.py:564-599 | The graph granted next is, among the graphs with a grantable head, one granted least recently. |
| `ClusterLeases.PassFollowsTheRules` | backend/src/deskpilot/application/effect_dag_cluster_admission.py:450-640 | What a pass does to the tickets, over every run: it expires what is due, then grants one ticket after another while fewer than the global limit are held, each the first to fit of the oldest batch of the graph granted least recently, for its own lease length from now, stops only when none is ready, and withdraws what served batches still waited for. |
| `ClusterLeases.GrantsAreWholeLeases` | backend/src/deskpilot/application/effect_dag_cluster_admission.py:600-614 | Each ticket that a pass of any run turns from pending to granted expires its own lease length from now; unless that is zero it then holds a slot under an honoured handle, and the slots held grow by exactly the number of grants. |
| `ClusterLeases.StepIsLawful` | backend/src/deskpilot/application/effect_dag_cluster_admission.py:153-773 | Each transaction, ticket by ticket: which status it may take and by which action exactly, which actions start a lease and that it ends its length from now, and the fields of a new ticket; nothing else changes. |
| `ClusterLeases.PermitLastsItsLease` | backend/src/deskpilot/application/effect_dag_cluster_admission.py:711-773 | Over every run: a granted permit that is neither renewed nor given back is honoured until its expiry and not from then on. |
| `ClusterLeases.GrantedForItsLease` | backend/src/deskpilot/application/effect_dag_cluster_admission.py:600-614 | Over every run: from the pass that granted it, such a permit is honoured for exactly its lease length. |
| `ClusterLeases.LimitsAreSetByRule` | backend/src/deskpilot/application/effect_dag_cluster_admission.py:90-151 | A configuration change is taken exactly when no ticket waits or holds under a running lease; a pass under other limits is refused whole; nothing else sets them. |
| `ClusterGrants.GrantKeepsFairness` | backend/src/deskpilot/application/effect_dag_cluster_admission.py:564-614 | Every grant extends a history in which a graph granted twice let each waiting candidate have its turn between. |
| `ClusterSafety.SequencesIncrease` | backend/src/deskpilot/application/effect_dag_cluster_admission.py:599-640 | Grant sequences are unique over a run, and sequences handed out later are larger. |
| `ClusterSafety.BoundedBypass` | backend/src/deskpilot/application/effect_dag_cluster_admission.py:564-614 | While a graph stays a candidate and is not granted, every other graph is granted at most once. |
| `ClusterSafety.BypassLength` | backend/src/deskpilot/application/effect_dag_cluster_admission.py:564-614 | Hence the wait in grants is at most the number of distinct other graphs served. |
| `ClusterSafety.LapsedForever` | backend/src/deskpilot/application/effect_dag_cluster_admission.py:711-743 | A granted ticket that outlived its lease never holds a slot again, whatever is tried on it later. |
| `ClusterSafety.PollIsExhaustive` | backend/src/deskpilot/application/effect_dag_cluster_admission.py:1100-1142 | A batch is entirely pending or has no pending ticket, so the three outcomes the polling loop tests are exhaustive. |
| `ClusterSafety.FailedAcquireLeavesNothing` | backend/src/deskpilot/application/effect_dag_cluster_admission.py:667-709 | After a failed acquisition withdraws its batch, none of its tickets is pending or granted, and no other batch changed. |
| `ClusterSafety.ScheduleKeepsBatches` | backend/src/deskpilot/application/effect_dag_cluster_admission.py:562-624 | A pass that grants part of a batch withdraws the rest, and a batch it does not serve keeps one common expiry. |
| `ClusterStore.AdmissionStore.Configure` | backend/src/deskpilot/application/effect_dag_cluster_admission.py:90-151 | The guarded configuration transaction: refused exactly when it differs and a live ticket exists; new state and invariant. |
| `ClusterStore.AdmissionStore.RegisterBatch` | backend/src/deskpilot/application/effect_dag_cluster_admission.py:153-187 | Inserts one pending ticket per candidate with a common expiry; new state and invariant. |
| `ClusterStore.AdmissionStore.RenewPendingBatch` | backend/src/deskpilot/application/effect_dag_cluster_admission.py:189-215 | Moves the expiry of the live pending tickets of the batch and owner; the returned count is exactly theirs. |
| `ClusterStore.AdmissionStore.ScheduleOnce` | backend/src/deskpilot/application/effect_dag_cluster_admission.py:450-640 | The imperative pass with running counters and a granting loop computes the specified pass; it refuses exactly a differing stored configuration, returns the number of grants, and each grant is a whole lease: the slots held grow by that number. |
| `ClusterStore.AdmissionStore.GrantWhileRoom` | backend/src/deskpilot/application/effect_dag_cluster_admission.py:562-614 | The while loop over counters, groups and last-grant figures performs exactly the specified sequence of grants. |
| `ClusterStore.AdmissionStore.WithdrawRest` | backend/src/deskpilot/application/effect_dag_cluster_admission.py:616-624 | The loop over waiting rows withdraws exactly the unserved siblings of served batches. |
| `ClusterStore.AdmissionStore.CancelPending` | backend/src/deskpilot/application/effect_dag_cluster_admission.py:642-665 | Cancels exactly the pending tickets of a graph and returns their number. |
| `ClusterStore.AdmissionStore.WithdrawAll` | backend/src/deskpilot/application/effect_dag_cluster_admission.py:667-709 | Withdraws the pending and releases the granted tickets of one batch and owner in two updates, and returns exactly their number. |
| `ClusterStore.AdmissionStore.RenewHandle` | backend/src/deskpilot/application/effect_dag_cluster_admission.py:711-743 | Renews exactly a live grant with matching owner and fence; refused otherwise. |
| `ClusterStore.AdmissionStore.ReleaseHandle` | backend/src/deskpilot/application/effect_dag_cluster_admission.py:745-773 | Releases exactly a live grant with matching owner and fence; refused otherwise. |
| `ClusterStore.GroupHeads` | backend/src/deskpilot/application/effect_dag_cluster_admission.py:554-561 | Grouping the waiting rows by graph keeps for each graph exactly its oldest batch. |
| `LocalSafety.StepKeepsOk` | backend/src/deskpilot/application/effect_dag_admission.py:147-293 | Every operation keeps the ring and queues consistent, every limit respected, every queued batch open and without grants, and every permit in the hands of the one batch it names. |
| `LocalFairness.CapacityOverRuns` | backend/src/deskpilot/application/effect_dag_admission.py:249-293 | Over every run the permits out fit the global, per-graph and per-tool limits. |
| `LocalFairness.PermitsAreAccountedFor` | backend/src/deskpilot/application/effect_dag_admission.py:283-293 | Every permit out is in exactly one resolved batch result; none is lost or handed out twice. |
| `LocalFairness.GrantedSubset` | backend/src/deskpilot/application/effect_dag_admission.py:147-183 | A resolved batch got a non-empty part of what it asked for, each candidate at most once. |
| `LocalFairness.RoundRobin` | backend/src/deskpilot/application/effect_dag_admission.py:249-281 | Between two examinations of one graph, every other graph that stayed in the ring was examined, and each examination granted or was justified by the graph limit or the tool limits at that moment; across drains. |
| `LocalFairness.DrainQuiescence` | backend/src/deskpilot/application/effect_dag_admission.py:249-293 | After a drain with a slot free, a waiting graph that could still be granted had two batches waiting before it; the drain served the first and took exactly it out of the queue. |
| `LocalQuiescence.ConservesWorkIff` | backend/src/deskpilot/application/effect_dag_admission.py:102-108 | In every state of every run, a drain leaves no batch that fits beside a free slot, whatever the limits the permits out obey, if and only if no graph has two batches waiting. |
| `LocalFairness.IdleDrain` | backend/src/deskpilot/application/effect_dag_admission.py:249-281 | A drain grants nothing if and only if every slot was taken or every head batch was blocked before it. |
| `LocalFairness.DrainCanLeaveSlotsIdle` | backend/src/deskpilot/application/effect_dag_admission.py:102-108 | The controller is called work-conserving; a concrete state shows a drain that leaves a grantable batch waiting beside two free slots. |
| `LocalOutcomes.RunIsLawful` | backend/src/deskpilot/application/effect_dag_admission.py:147-293 | What every operation of every run leaves, in queues, permits and futures: a returned permit is out no more, a cancelled graph has every open batch woken, a withdrawn batch has left its queue, and then the free slots are offered: if a slot is free and some head fits, an open batch is served; a head that still fits beside a free slot has just become first; queues lose only served heads; the permits out are the old ones and those of the batches served. |
| `LocalOutcomes.ReturnedSlotIsOffered` | backend/src/deskpilot/application/effect_dag_admission.py:232-247 | If a permit is returned and some head batch fits beside the others, a batch that was open is resolved with a permit. |
| `LocalOutcomes.OutcomesHaveTheirCause` | backend/src/deskpilot/application/effect_dag_admission.py:147-230 | Over every run a decided batch stays decided, and a batch ends cancelled or withdrawn if and only if the cancellation of its graph or its own withdrawal found it open. |
| `LocalAdmission.ScanRaises` | backend/src/deskpilot/application/effect_dag_admission.py:249-281 | A pass that grants raises the number of permits out by one and one that does not changes only the ring: the termination measure of the drain. |
| `LocalController.AdmissionController.ExamineNext` | backend/src/deskpilot/application/effect_dag_admission.py:254-275 | One look at the front graph, by the counters, is the specified examination; the counters stay those of the permits out. |
| `LocalController.AdmissionController.GrantFront` | backend/src/deskpilot/application/effect_dag_admission.py:264-276 | The grant takes the first request that fits, appends the permit and raises all three counters by one. |
| `LocalController.AdmissionController.DrainLocked` | backend/src/deskpilot/application/effect_dag_admission.py:249-293 | The nested drain loops terminate, never lose a head waiter and compute the specified drain. |
| `LocalController.AdmissionController.Submit` | backend/src/deskpilot/application/effect_dag_admission.py:147-171 | Queues a batch and joins the ring at most once. |
| `LocalController.AdmissionController.CancelWaiting` | backend/src/deskpilot/application/effect_dag_admission.py:185-195 | Every open batch of the graph is woken as cancelled, its permits stay out, and the free slots are offered to the other graphs. |
| `LocalController.AdmissionController.GiveUp` | backend/src/deskpilot/application/effect_dag_admission.py:207-230 | A caller that stops waiting: a decided batch is left alone and its permits returned to it; an open one leaves its queue and perhaps the ring, and the free slots are offered to the others. |
| `LocalController.AdmissionController.Return` | backend/src/deskpilot/application/effect_dag_admission.py:232-247 | Returning a permit twice changes nothing; the not-active error cannot occur; the freed slot is offered: if some head fits, an open batch is served, and only a head that has just become first may still fit. |
| `OutboxSafety.StepKeepsInv` | backend/src/deskpilot/application/outbox_publisher.py:168-375 | Every transaction, however stale its publisher, keeps decisions exclusive, claims fenced, delivery order and inbox receipts. |
| `OutboxSafety.ClaimedAfterPredecessors` | backend/src/deskpilot/application/outbox_publisher.py:196-230 | Whoever holds a claim, every earlier message of its task is published or dead-lettered, or it was requeued since, after a delivery or unsafely. |
| `OutboxSafety.FirstDeliveriesInOrder` | backend/src/deskpilot/application/outbox_publisher.py:196-296 | If a message is published and its latest requeue, if any, was not unsafe, no delivery of a later message of its task precedes its first delivery. |
| `OutboxSafety.UnsafeWereRequeued` | backend/src/deskpilot/application/outbox_publisher.py:345-375 | Only requeued messages can be out of order. |
| `OutboxOrder.RequeueHarmfulIff` | backend/src/deskpilot/application/outbox_publisher.py:345-375 | In every state of every run, requeueing a dead letter is unsafe, because a later message was delivered before every delivery of it or it was never delivered and a claim on a later message is out, if and only if some continuation without another requeue of it publishes both out of order. |
| `OutboxOrder.UnclaimedSuccessorsAreSafe` | backend/src/deskpilot/application/outbox_publisher.py:345-375 | What the table alone shows: while no later message of the task was ever claimed, a requeue is safe. |
| `OutboxOrder.RequeueBreaksOrder` | backend/src/deskpilot/application/outbox_publisher.py:345-375 | Unsafe requeues happen: a concrete run dead-letters a message and publishes its successor, and a requeue there can publish out of order. |
| `OutboxSafety.DecisionsAreExclusive` | backend/src/deskpilot/application/outbox_publisher.py:272-343 | A row is never both published and dead-lettered, a dead one has used up exactly its attempts, an undecided one has some left, and a published row was delivered. |
| `OutboxSafety.OneHonouredClaim` | backend/src/deskpilot/application/outbox_publisher.py:272-296 | At most one claim on a message can be reported on at any time. |
| `OutboxSafety.LostClaimForever` | backend/src/deskpilot/application/outbox_publisher.py:272-343 | Over every run, a claim that lost its lease, its fence or its delivery is never honoured again. |
| `OutboxOutcomes.RunIsLawful` | backend/src/deskpilot/application/outbox_publisher.py:168-375 | Every transaction of every run, field by field: a claim takes the first due messages, neither published nor dead, free, due and first undecided of their task, oldest first; a report within its lease publishes, retries or dead-letters its one row; a requeue starts a dead letter over; anything else changes nothing. |
| `OutboxOutcomes.ClaimCountsForItsLease` | backend/src/deskpilot/application/outbox_publisher.py:228-343 | Over every run a claim counts from its transaction on exactly until its lease has run out or it has been reported, whatever everyone else does. |
| `OutboxOutcomes.ReportOutcome` | backend/src/deskpilot/application/outbox_publisher.py:272-343 | Within the lease and as the first report, an answer publishes the message and an error retries it after the doubled, capped delay or, on the last attempt, dead-letters it; any other report changes nothing. |
| `OutboxOutcomes.RetryComesWhenDue` | backend/src/deskpilot/application/outbox_publisher.py:306-343 | After an honoured failure with attempts to spare the message is undecided; no batch of the run takes it before the base delay, doubled for each earlier attempt up to sixteen and capped, is over, and from then on every batch takes it that is not full, once its predecessors are decided. |
| `OutboxOutcomes.PublishingOutcome` | backend/src/deskpilot/application/outbox_publisher.py:105-146 | One publishing pass: each due message claimed is published, retried or dead-lettered by its own answer if that came within the lease of the batch and is untouched if it came later; the fenced figure counts exactly those. |
| `OutboxSafety.ExactlyOnceEffect` | backend/src/deskpilot/application/inbox_consumer.py:36-84 | Under unlimited redelivery, crashes and competing publishers, the handler effect has happened exactly once where a receipt exists and never elsewhere. |
| `OutboxSafety.ConsumedOnce` | backend/src/deskpilot/application/inbox_consumer.py:36-84 | After any consumption that returns, the effect has happened exactly once. |
| `OutboxSafety.ReceiptsGrow` | backend/src/deskpilot/application/inbox_consumer.py:36-84 | Receipts are never lost along a run. |
| `OutboxStore.MessageStore.ClaimPending` | backend/src/deskpilot/application/outbox_publisher.py:168-270 | Selects the first claimable heads in claim order up to the batch size and claims each under the next fence. |
| `OutboxStore.MessageStore.ClaimSelected` | backend/src/deskpilot/application/outbox_publisher.py:228-262 | The guarded update claims the row exactly if it is still claimable at the selected fence. |
| `OutboxStore.MessageStore.MarkDone` | backend/src/deskpilot/application/outbox_publisher.py:272-296 | Accepted exactly while the claim holds the row; the fields of the published row, and that nothing else changed. |
| `OutboxStore.MessageStore.MarkError` | backend/src/deskpilot/application/outbox_publisher.py:298-343 | The guarded update: fenced off exactly when the claim does not hold the row now; otherwise retried with the doubled, capped delay while attempts are left and dead-lettered on the last one; the fields of the new row and that nothing else changed. |
| `OutboxStore.MessageStore.PublishPending` | backend/src/deskpilot/application/outbox_publisher.py:105-146 | The publishing loop with its four counters, while time passes between claim and report. |
| `OutboxStore.FiguresAreChanges` | backend/src/deskpilot/application/outbox_publisher.py:105-146 | The reported figures are the changes made: rows newly published, rows newly dead, and one delivery for each accepted message. |
| `OutboxStore.MessageStore.RequeueByPublisher` | backend/src/deskpilot/application/outbox_publisher.py:345-375 | Requeues exactly a dead, unpublished row, resetting it under a larger fence. |
| `OutboxStore.MessageStore.RequeueByOperator` | backend/src/deskpilot/application/effect_runtime_operations.py:482-514 | The operator requeue, field by field, reaches the same state as the publisher requeue, with the same guard. |
| `OutboxOperations.RequeueIsIdempotent` | backend/src/deskpilot/application/effect_runtime_operations.py:453-546 | One requeue for each key: the same request, at any later time and even if the message is dead again, gets the first answer and changes neither outbox nor log; another request under the key is a conflict. |
| `OutboxOperations.OperationOutcome` | backend/src/deskpilot/application/effect_runtime_operations.py:453-546 | What a keyed requeue comes to: a record under its key answers for it and nothing changes; without one a dead letter is requeued and the log gains the one event that says so, and anything else is not found and changes nothing. |
| `OutboxOperations.OperationsDesk.RequeueDeadLetter` | backend/src/deskpilot/application/effect_runtime_operations.py:453-546 | The keyed lookup, the guarded requeue and its audit event as one transaction; on an honest log it is never rejected. |
| `OutboxStore.MessageStore.ConsumeOne` | backend/src/deskpilot/application/inbox_consumer.py:36-84 | Receipt and effect commit together unless the receipt exists, also when a competitor wins between lookup and insert; a handler that raises or violates a constraint leaves neither. |
| `Backoff.DelaysGrow` | backend/src/deskpilot/application/outbox_publisher.py:305-311 | A later attempt never waits less, and no attempt waits longer than the ceiling. |
| `GraphControlSafety.StepKeepsInv` | backend/src/deskpilot/application/effect_graph_control_router.py:103-459 | Every mailbox and lease transaction keeps both fences in order and every claim bound to a lease its graph really had. |
| `GraphControlSafety.OneHonouredHandle` | backend/src/deskpilot/application/effect_graph_control_router.py:348-459 | At any time at most one delivery of a command can renew, apply or give back. |
| `GraphControlSafety.LostForever` | backend/src/deskpilot/application/effect_graph_control_router.py:348-459 | A delivery that was rerouted, expired, retried or applied never becomes valid again. |
| `GraphControlSafety.AppliedIsFinal` | backend/src/deskpilot/application/effect_graph_control_router.py:377-414 | The claim fence never falls, and an applied command never changes again. |
| `GraphControlSafety.AppliedUnderARealLease` | backend/src/deskpilot/application/effect_graph_control_router.py:377-414 | An applied command was applied by the newest claim on it, and the graph fence it records is its target fence, under which that owner really held the graph. |
| `GraphControlSafety.LeasesAreGenerations` | backend/src/deskpilot/application/task_service.py:2422-2501 | No two owners ever hold one graph under one fence. |
| `GraphControlSafety.ClaimsGoToTheLiveOwner` | backend/src/deskpilot/application/effect_graph_control_router.py:263-312 | A claim is handed only to the owner whose unexpired lease the graph has at that moment, under its fence (as `GraphControlOutcomes.LiveTargetIsHolder` spells out), and is honoured at once. |
| `GraphControlSafety.RoutingTargetsTheLiveOwner` | backend/src/deskpilot/application/effect_graph_control_router.py:170-226 | Routing leaves nothing stuck: a routable command within the limit becomes pending for the holder of its graph (as `GraphControlOutcomes.LiveTargetIsHolder` spells out), or for nobody. |
| `GraphControlOutcomes.LiveTargetIsHolder` | backend/src/deskpilot/application/effect_graph_control_router.py:461-478 | The target a graph answers to is an owner and fence if and only if that owner holds the graph under that positive fence with a lease that runs, and none otherwise. |
| `GraphControlOutcomes.RunIsLawful` | backend/src/deskpilot/application/effect_graph_control_router.py:103-459 | Every mailbox and lease transaction of every run, field by field: routing points the first routable commands at the holder of their graph, a claim hands the first waiting ones over exactly if the claimer holds the graph under the fence they are pointed at, and renewing, applying and giving back act exactly on a delivery in hand. |
| `GraphControlOutcomes.DeliveryCountsForItsLease` | backend/src/deskpilot/application/effect_graph_control_router.py:256-459 | Over every run a delivery counts, as long as its holder does nothing with it, exactly until the end of the lease it got. |
| `GraphControlOutcomes.RoutedCommandIsDelivered` | backend/src/deskpilot/application/effect_graph_control_router.py:170-312 | Delivery: the owner that holds the graph under an unexpired lease, at the routing and at its own claim, is handed the command with a delivery that counts at once, unless commands before it fill its batch. |
| `GraphControlStore.Mailbox.InsertOrReadCancel` | backend/src/deskpilot/application/effect_graph_control_router.py:103-161 | Inserts the one cancel command of a graph or reads the one that is there. |
| `GraphControlStore.Mailbox.RoutePending` | backend/src/deskpilot/application/effect_graph_control_router.py:170-226 | The routing loop points exactly the first routable commands, in order, up to the limit, at the present holder of their graph: unexpired, under its own fence, or nobody. |
| `GraphControlStore.Mailbox.ClaimForOwner` | backend/src/deskpilot/application/effect_graph_control_router.py:228-312 | The claiming loop hands over exactly the selected commands whose graph the claimer holds, unexpired and under the fence they are pointed at, each under the next claim fence until the end of its lease. |
| `GraphControlStore.Mailbox.RenewClaim` | backend/src/deskpilot/application/effect_graph_control_router.py:348-375 | Extends exactly an honoured claim. |
| `GraphControlStore.Mailbox.MarkApplied` | backend/src/deskpilot/application/effect_graph_control_router.py:377-414 | Applies exactly an honoured claim and records its target fence. |
| `GraphControlStore.Mailbox.GiveBackClaim` | backend/src/deskpilot/application/effect_graph_control_router.py:416-459 | Returns exactly an honoured claim, for retry after a capped delay or as superseded. |
| `AuditProofs.AppendExtends` | backend/src/deskpilot/application/effect_runtime_operations.py:1625-1691 | Appending to an honest log is never refused, keeps the chain and changes nothing recorded. |
| `AuditProofs.AppendGains` | backend/src/deskpilot/application/effect_runtime_operations.py:1625-1691 | An append is refused exactly on a head that disagrees with its record or a record that is not whole, and otherwise adds exactly the record asked for under the next sequence, linked to the head, and moves the head to it. |
| `AuditProofs.HeadDeterminesHistory` | backend/src/deskpilot/application/effect_runtime_operations.py:1929-1955 | Two tables accepted up to the same head sequence and digest agree on every digest-covered field of every record. |
| `AuditProofs.HeadCarriesItsSequence` | backend/src/deskpilot/application/effect_runtime_operations.py:1929-1955 | Equal head digests imply equal head sequences. |
| `AuditProofs.EqualHeadsEqualHistory` | backend/src/deskpilot/application/effect_runtime_operations.py:1625-1691 | Two honest logs with equal heads have equally many records, equal in every field the digests cover. |
| `AuditProofs.UncoveredFieldsMayDiffer` | backend/src/deskpilot/application/effect_runtime_operations.py:1929-1955 | Record identifier and idempotency key are outside the digest: two honest logs with one head can differ in them. |
| `AuditProofs.FrozenExportIsComplete` | backend/src/deskpilot/application/effect_runtime_operations.py:291-385 | Following the cursors with any page limits, each request on a later state of the log, is never refused, yields the records of the first page from sequence 1 in order, each once, and stops exactly when all are out. |
| `AuditExport.TextExportIsComplete` | backend/src/deskpilot/application/effect_runtime_operations.py:291-385 | The same for the texts the program hands out and reads back: every cursor text of an export is decoded to the position it was made at. |
| `AuditExport.FirstPageIsServed` | backend/src/deskpilot/application/effect_runtime_operations.py:291-385 | A first request on an honest log is answered exactly for page limits of 1 to 500, with the first records, the frozen head and time, and whether more follows. |
| `AuditExport.AcceptedTextPage` | backend/src/deskpilot/application/effect_runtime_operations.py:1859-1927 | What an accepted page proves of any table whatsoever: its start and its head are whole records with the digest texts named, its events are the rows between, each whole and linked to the one before, and it has reached the head or is full. |
| `AuditExport.PageNamesItsExport` | backend/src/deskpilot/application/effect_runtime_operations.py:291-385 | Whatever cursor a request brings, a page it gets has at most the limit of 1 to 500 events, belongs to the one export its time and frozen head name, and its digest covers it. |
| `AuditExport.PageSaysOfItself` | backend/src/deskpilot/application/effect_runtime_operations.py:340-385 | What each page says of its export, its bounds and whether more follows, and that its digest covers all of it. |
| `AuditExport.HonestIsExportable` | backend/src/deskpilot/application/effect_runtime_operations.py:2039-2132 | Every cursor the exporter makes passes every check of the decoder. |
| `AuditExport.AnyCursorReadsTheLog` | backend/src/deskpilot/application/effect_runtime_operations.py:291-385 | Any accepted cursor, whoever made it, obtains on an honest log only a stretch of that log that starts where it says and ends at a record whose digest it names. |
| `AuditProofs.ExportedInOrder` | backend/src/deskpilot/application/effect_runtime_operations.py:291-385 | The k-th exported event is the record with sequence k + 1. |
| `AuditProofs.PageOnHonest` | backend/src/deskpilot/application/effect_runtime_operations.py:1859-1927 | On any later state of the log a page holds exactly the next records below the frozen head, and its cursor continues there. |
| `AuditProofs.AcceptedPageIsLinked` | backend/src/deskpilot/application/effect_runtime_operations.py:1887-1910 | On any table whatsoever, an accepted page is a stretch of valid records, each carrying the digest of the one before. |
| `AuditProofs.AcceptedExportIsAChain` | backend/src/deskpilot/application/effect_runtime_operations.py:1859-1927 | A table whose whole export is accepted is a valid chain from record 1 to the exported head. |
| `AuditProofs.MutationIsIdempotent` | backend/src/deskpilot/application/effect_runtime_operations.py:1708-1731 | A mutation recorded under a key is returned, unchanged, for every later equal request, and is a conflict for a different one. |
| `AuditProofs.MutationOutcome` | backend/src/deskpilot/application/effect_runtime_operations.py:1708-1731 | A keyed mutation is recorded, with the fields asked for, exactly if no record carries the key under its action; otherwise that record answers: the same request gets it back, another one a conflict, and nothing is recorded. |
| `AuditProofs.MutationKeepsKeysUnique` | backend/src/deskpilot/application/effect_runtime_operations.py:453-540 | A keyed mutation is never rejected on an honest log and keeps each key used once per action. |
| `AuditStore.OperationsAudit.AppendAudit` | backend/src/deskpilot/application/effect_runtime_operations.py:1625-1691 | Refuses exactly a head that disagrees with the record it names; otherwise links a new record to it. |
| `AuditStore.OperationsAudit.IdempotentEvent` | backend/src/deskpilot/application/effect_runtime_operations.py:1708-1731 | Finds the one event under an action and key, and tells a different request and a broken record apart. |
| `AuditStore.OperationsAudit.RecordOnce` | backend/src/deskpilot/application/effect_runtime_operations.py:1708-1731 | Replays, conflicts or records, as the keyed lookup decides, keeping the log honest. |
| `AuditStore.OperationsAudit.ValidateExportPage` | backend/src/deskpilot/application/effect_runtime_operations.py:1859-1927 | The validating loop and its anchors, compared as digest texts, accept exactly the pages the specification accepts. |
| `AuditStore.OperationsAudit.ExportAudit` | backend/src/deskpilot/application/effect_runtime_operations.py:291-385 | One export request: the frozen head or the decoded cursor text, the page with its digest, and the next cursor text. |
| `CursorCodec.StrippedRoundTrip` | backend/src/deskpilot/application/effect_runtime_operations.py:2040-2075 | Stripping the base64url padding loses nothing: padding by length restores it and every byte string comes back. |
| `CursorCodec.EncodingIsInjective` | backend/src/deskpilot/application/effect_runtime_operations.py:2060-2061 | Two byte strings never share a cursor text. |
| `CursorCodec.KnownVectors` | backend/src/deskpilot/application/effect_runtime_operations.py:2060-2061 | The encoding agrees with the vectors of RFC 4648, section 10, without their padding. |
| `CursorCodec.UrlAlphabet` | backend/src/deskpilot/application/effect_runtime_operations.py:2067-2071 | The two symbols in which the URL-safe alphabet differs, and that the decoder takes either pair. |
| `CursorCodec.CursorRoundTrip` | backend/src/deskpilot/application/effect_runtime_operations.py:2039-2132 | Every cursor the exporter makes is accepted and gives back its material, if and only if its JSON is at most 1536 bytes. |
| `CursorCodec.AcceptedExactly` | backend/src/deskpilot/application/effect_runtime_operations.py:2062-2132 | A text is accepted if and only if its bytes read back as material in good order together with the digest of that material, which has no key. |
| `Alerts.LogReplaysToTable` | backend/src/deskpilot/application/effect_runtime_operations.py:1455-1623 | Folding all notifications in sequence order gives exactly each alert domain, severity, activity, count and revision; the notifications form a sealed chain. |
| `Alerts.HeadDeterminesTable` | backend/src/deskpilot/application/effect_runtime_operations.py:1554-1623 | The head seal of the notification chain determines the whole log and with it everything visible in the alert table. |
| `AlertStore.AlertBoard.AppendNotification` | backend/src/deskpilot/application/effect_runtime_operations.py:1554-1623 | Refuses exactly a head that disagrees with the last notification; otherwise links the new one to it. |
| `Alerts.CodeLifecycle` | backend/src/deskpilot/application/effect_runtime_operations.py:1455-1552 | Per code the transitions read opened, updated any number of times, resolved, repeated; the revision is their number and the last tells whether it is active. |
| `Alerts.ActiveIsReported` | backend/src/deskpilot/application/effect_runtime_operations.py:1473-1550 | After a reconciliation the active alerts are exactly the snapshot alerts with the snapshot values, and nothing known is forgotten. |
| `Alerts.NotifiedIffChanged` | backend/src/deskpilot/application/effect_runtime_operations.py:1473-1550 | A reconciliation notifies of a code if and only if its visible state changed, and then once. |
| `AlertOutcomes.RunIsLawful` | backend/src/deskpilot/application/effect_runtime_operations.py:1455-1623 | Every reconciliation of every run, field by field: the new state of each reported, changed, reopened, missing or unknown alert with its times and revision, and the notifications it adds: one for each code with something to tell, carrying its new state, reported codes before missing ones, in code order. |
| `AlertStore.AlertBoard.ReconcileAlerts` | backend/src/deskpilot/application/effect_runtime_operations.py:1455-1552 | The two loops over sorted codes compute the specified reconciliation and keep the log replayable. |
| `AlertStore.AlertBoard.ObserveAlert` | backend/src/deskpilot/application/effect_runtime_operations.py:1476-1535 | One reported alert: created, reopened, updated or left alone, and announced accordingly. |
| `AlertStore.AlertBoard.ResolveAlert` | backend/src/deskpilot/application/effect_runtime_operations.py:1536-1550 | One alert no longer reported: resolved and announced if it was active. |
| `SagaTheorems.StoreIsFold` | backend/src/deskpilot/application/processor.py:1577-1640 | At every step of every run whose last outcome is known, the store is exactly the fold of the moves applied and not undone, and no stage runs out of turn. |
| `SagaTheorems.CompensationRestoresStore` | backend/src/deskpilot/application/processor.py:1591-1625 | A compensated saga restored the initial store; the moves before the failed node were undone in strictly reverse order, the failed node is failed, later ones never started. |
| `SagaTheorems.BackwardReversesOnward` | backend/src/deskpilot/application/processor.py:1592-1598 | The i-th undoing in the log is of the i-th last applied move. |
| `SagaTheorems.ReverseMoveEnabled` | backend/src/deskpilot/application/processor.py:2428-2470 | If nothing outside touches the store, each reverse move can be made at exactly the version its receipt names. |
| `SagaTheorems.CompensationCompletes` | backend/src/deskpilot/application/processor.py:2662-2761 | From any moment of going back, if the environment cooperates, the saga ends compensated with the initial store. |
| `SagaTheorems.CompletionAppliesAll` | backend/src/deskpilot/application/processor.py:1626-1653 | A completed saga applied every move, once and in order. |
| `SagaTheorems.FirstFailureTouchesNothing` | backend/src/deskpilot/application/processor.py:2527-2541 | A saga that ended as failed or denied, without compensation, has touched nothing. |
| `SagaTheorems.RunsEnd` | backend/src/deskpilot/application/processor.py:1041-1090 | A measure decreases at every step, so a run has at most so many steps. |
| `SagaAnswers.RunIsLawful` | backend/src/deskpilot/application/processor.py:1107-1653 | Where every answer leads, over every run, in rows, files and place: for each stage and each answer of file system, policy, approver and runner, what becomes of the call, the approval, the node, the graph, the task, the files and the next stage. |
| `SagaAnswers.RequiredApprovalIsAskedFor` | backend/src/deskpilot/application/processor.py:1422-1437 | In every run, a policy that requires an approval leaves the task waiting with the approval of that call awaiting its decision, and no file moved. |
| `SagaAnswers.EveryMoveWasAuthorized` | backend/src/deskpilot/application/processor.py:1349-1576 | Whenever a step of a run moves a file, the policy answered on that very move just before: it allowed it, or it required an approval that was granted in between and is used up by the move. |
| `SagaAnswers.RefusalMovesNothing` | backend/src/deskpilot/application/processor.py:1405-1437 | A denial, a rejected or an expired approval moves nothing; if the saga goes on it goes back to the node before. |
| `SagaAnswers.AgreementCompletes` | backend/src/deskpilot/application/processor.py:1041-1653 | If each operation can be made after those before it, nobody refuses and every approval asked for is granted, the saga completes and has made all the operations, in order. |
| `SagaRecovery.RecoveryIsExact` | backend/src/deskpilot/application/processor.py:780-983 | For a crash after any transaction of any stage of any run: recovery continues exactly at the ends of stages that do not end the task, after a call request, after a committed effect and after a failing call with something to undo; the rows are then those the finished stage leaves and the runtime is the one memory reaches. Everywhere else it refuses. |
| `SagaRecovery.CheckpointsRecover` | backend/src/deskpilot/application/processor.py:780-983 | Between stages and while an approval is awaited, the saved checkpoint is accepted and recovers exactly the runtime in memory. |
| `SagaRecovery.OnlyTheBindingRefuses` | backend/src/deskpilot/application/processor.py:786-787 | The binding to the last event is needed: after an allowing decision, or a recorded step, every other check still accepts the checkpoint from before. |
| `SagaRecovery.SavesNeverRegress` | backend/src/deskpilot/application/task_service.py:595-614 | The guard against saving an earlier stage never stops the processor. |
| `SagaRecovery.FailureCheckpointAgrees` | backend/src/deskpilot/application/processor.py:2606-2631 | The checkpoint written inside the failing transaction, from the runtime before it, is the checkpoint of the runtime the process continues with. |
| `SagaRecovery.RunningCallIsRefused` | backend/src/deskpilot/application/processor.py:884-901 | The checkpoint written with the start of a call is bound to the last event, and is refused while the call runs for the call status alone. |
| `SagaProofs.RunStageKeepsInv` | backend/src/deskpilot/application/processor.py:1107-1653 | Every stage, for every answer of policy, runner and file system, keeps the saga invariant; what each answer leads to is `SagaAnswers.RunIsLawful`. |
| `SagaProofs.MoveRoundTrip` | backend/src/deskpilot/application/processor.py:2428-2470 | A possible move is undone by its reverse, which is possible at the same version. |
| `SagaProcessor.TaskProcessor.Run` | backend/src/deskpilot/application/processor.py:1041-1090 | The stage loop terminates, stops only at a requested stop, at a suspension or at the end, goes on when the approval is already granted, and each of its steps is a specified step. |
| `SagaProcessor.TaskProcessor.RunOne` | backend/src/deskpilot/application/processor.py:1107-1653 | One stage of the record with its fields changed in place is the specified stage, commits exactly the specified transactions in order, and leads where its answer says: a required approval suspends the task. |
| `SagaProcessor.TaskProcessor.FinishEffectFailure` | backend/src/deskpilot/application/processor.py:2587-2660 | The failing transaction: node, graph and call rows, and the checkpoint for what memory does next. |
| `SagaProcessor.TaskProcessor.HandleEffectCallFailure` | backend/src/deskpilot/application/processor.py:2662-2761 | Turns back to the previous node, or ends the task, exactly as the mode and position say; the node transition only if its own transaction did not make it. |
| `SagaProcessor.TaskProcessor.HandlePreDispatchFailure` | backend/src/deskpilot/application/processor.py:2489-2549 | The same for a node that failed before dispatch. |
| `SagaProcessor.TaskProcessor.StartCall` | backend/src/deskpilot/application/task_service.py:5255-5361 | The start of a call: its status, the approval it uses up, the node, two events and the checkpoint bound to them. |
| `SagaProcessor.TaskProcessor.FinishUnknown` | backend/src/deskpilot/application/processor.py:2551-2585 | An unknown outcome blocks the graph, names the failed node, saves it and leaves the task to reconciliation. |
| `SagaProcessor.TaskProcessor.DeclineCall` | backend/src/deskpilot/application/task_service.py:4814-4843 | A rejected or expired approval cancels call and task in one transaction and deletes the checkpoint. |
| `SagaProcessor.TaskProcessor.ApproveCall` | backend/src/deskpilot/application/task_service.py:4756-4813 | A granted approval resumes the task and binds its checkpoint to the new events. |
| `SagaProcessor.TaskProcessor.ClearCurrentAttempt` | backend/src/deskpilot/application/processor.py:2785-2808 | Derives the attempt and call of the current node and drops every fact of the previous one. |
| `Pricing.CostWithinBound` | backend/src/deskpilot/domain/model_routing.py:79-103 | Reported usage within the token bounds costs, rounded up, no more than the rounded-up bound. |
| `Pricing.CeilCovers` | backend/src/deskpilot/domain/model_routing.py:214-215 | Rounding up gives the least whole number of micro-dollars that covers the amount. |
| `Pricing.CostIsLeast` | backend/src/deskpilot/domain/model_routing.py:79-93 | The bill is the least whole number of micro-dollars that covers fresh input, cached input and output tokens, each at its own rate. |
| `Pricing.BoundIsLeast` | backend/src/deskpilot/domain/model_routing.py:95-103 | The reservation is the least whole number of micro-dollars that covers every token at its full rate. |
| `Pricing.DearCacheBreaksBound` | backend/src/deskpilot/domain/model_routing.py:70-77 | The rule on cached rates is needed: without it the bound can be missed. |
| `CostLedger.BudgetHoldsIff` | backend/src/deskpilot/application/model_gateway.py:897-966 | Whatever providers can report: every run of every interleaving under every limit stays within it if and only if no report that is billed can cost more than its call reserved. |
| `CostLedger.NeverOverdrawn` | backend/src/deskpilot/application/model_gateway.py:897-966 | If no provider counts more input tokens than the byte bound, then under any interleaving reserved is the sum of the outstanding reservations and spent plus reserved stays within the limit. |
| `CostLedger.CountersAreAccounts` | backend/src/deskpilot/application/model_gateway.py:897-966 | Over every run, against providers that report anything: spent is the sum of the bills, reserved the sum of the bounds of the calls still out, and a call is let in exactly when its bound fits beside both. |
| `CostLedger.UncoveredOverdraws` | backend/src/deskpilot/application/model_gateway.py:951-966 | For every rate table, bound and usage: a billed report above its reservation overdraws a budget of exactly that reservation. |
| `CostLedger.ClampNeverActs` | backend/src/deskpilot/application/model_gateway.py:940-966 | The clamp at zero never acts. |
| `CostLedger.ReportedUsageIsCovered` | backend/src/deskpilot/application/model_gateway.py:951-966 | A report within the byte bound is never billed above its reservation; one above the output bound is not billed at all. |
| `CostLedger.UncheckedInputOverdraws` | backend/src/deskpilot/application/model_gateway.py:1188-1217 | The code checks the output bound but not the input bound: for every call that pays for input there is an accepted report without output that overdraws. |
| `GatewayService.ModelGateway.Complete` | backend/src/deskpilot/application/model_gateway.py:261-375 | For every provider behaviour: at most the allowed calls, total sleep within its budget, no provider twice without a sleep between, every reservation and probe returned on every exit; the first attempt is made at once of the first candidate that serves, every attempt but the last failed in a way worth another, and the last decides: a response exactly if a valid answer came in time, priced, or the error it made. |
| `GatewayService.ModelGateway.SelectProvider` | backend/src/deskpilot/application/model_gateway.py:597-669 | Picks the first available affordable untried candidate, claiming its probe, or reports that none is available, with exactly the kind of error the source gives. |
| `GatewayService.RefusalTells` | backend/src/deskpilot/application/model_gateway.py:597-669 | Which error is told when nobody is picked: no route, pricing required, budget exceeded, all tried, rate limited or circuit open, each with its exact condition. |
| `GatewayService.ModelGateway.ProviderIsAvailable` | backend/src/deskpilot/application/model_gateway.py:782-812 | Availability by cooldown and circuit, and the claim of the one half-open probe. |
| `GatewayService.ModelGateway.ReserveCost` | backend/src/deskpilot/application/model_gateway.py:897-929 | Reserves the estimate exactly if it fits what the task has left, else gives the probe back; on the counters it is the ledger step of a reservation. |
| `GatewayService.ModelGateway.ReleaseCost` | backend/src/deskpilot/application/model_gateway.py:940-949 | Lowers the reserved counter of the task, not below zero: the ledger step of a release. |
| `GatewayService.ModelGateway.SettleCost` | backend/src/deskpilot/application/model_gateway.py:951-966 | Turns a reservation into the priced cost: the ledger step of a finished call. |
| `GatewayService.ModelGateway.RecordFailure` | backend/src/deskpilot/application/model_gateway.py:995-1036 | Counters, cooldown, failure count and circuit after a failure, exactly; the probe ends. |
| `GatewayService.ModelGateway.RecordSuccess` | backend/src/deskpilot/application/model_gateway.py:968-993 | Closes the circuit, ends the probe and counts the request and its cost. |
| `GatewayService.ModelGateway.NextAvailabilityDelay` | backend/src/deskpilot/application/model_gateway.py:862-879 | The least single wait on the route, zero if there is none. |
| `Gateway.SoonestIsLeast` | backend/src/deskpilot/application/model_gateway.py:862-879 | The least single wait is positive, is a cooldown, circuit deadline or probe wait of some provider of the route, and bounds all of them; it is not the time a provider becomes available. |
| `Gateway.VerdictIsRight` | backend/src/deskpilot/application/model_gateway.py:300-350 | An answer succeeds exactly if it is a well-formed response within the output bound that came before the deadline; otherwise which error it makes, and which errors are worth another attempt. |
| `Gateway.DelayIsDoubled` | backend/src/deskpilot/application/model_gateway.py:881-895 | The wait after a failure is the base, doubled for each earlier attempt and capped, or what the provider asked for if that is longer. |
| `GatewayCircuit.OpensAtThreshold` | backend/src/deskpilot/application/model_gateway.py:995-1036 | Over every interleaving of calls the circuit opens, for the recovery time, exactly on a failure while half-open or one that makes the failures since the last response reach the threshold. |
| `GatewayCircuit.StaysShut` | backend/src/deskpilot/application/model_gateway.py:782-812 | An open circuit lets no call in before its recovery is over, whatever the calls still under way come to, short of a response. |
| `GatewayCircuit.GuardedIff` | backend/src/deskpilot/application/model_gateway.py:782-812 | At most one half-open probe is out and the record knows it, after every step but exactly one kind: the end of another, older call while the probe is out. |
| `GatewayCircuit.ProbeIsAlone` | backend/src/deskpilot/application/model_gateway.py:782-812 | Over every run without such an end, at most one probe is out at a time. |
| `GatewayCircuit.FreedProbeIsDoubled` | backend/src/deskpilot/application/model_gateway.py:1042-1046 | After such an end the run can go on to a second probe while the first is still out. |
| `GatewayCircuit.TwoProbesAtOnce` | backend/src/deskpilot/application/model_gateway.py:1042-1046 | Under every policy a run from the start reaches two probes at once. |
| `Gateway.DelayHonoursProvider` | backend/src/deskpilot/application/model_gateway.py:881-895 | Waits never shrink with the attempt, are never shorter than the provider asked, and stay under the ceiling otherwise. |

## Left out

- The PostgreSQL claim and shard statements of the scheduler, the outbox and the mailbox; the generic path is modelled.
- Sessions, serialization retries and revision conflicts: a transaction is one atomic step.
- Retention and cleanup: receipts and grant history are kept, and graphs and tasks are never deleted.
- Identifiers are natural numbers in the order of their texts, and a configuration stands for its digest.
- SHA-256 is a value that holds what it covers; JSON text, UTF-8 and timestamp parsing are parameters of the cursor codec.
- Delivery envelopes, topics and payloads of messages.
- ClusterStore.GroupHeads: keeps only the oldest batch of each graph, which is all the source reads of its groups.
- The admission snapshots, heartbeat tasks and background loops of both controllers.
- GraphControlStore.Mailbox.RoutePending: lease acquisition, renewal and release belong to the task service and appear as steps of the runs, not as methods.
- The mailbox router's handler, heartbeat and polling, and the direct takeover in `process_once`.
- AuditProofs.AcceptedExportIsAChain: follows cursor values; on a table that is not honest the text checks agree with it only if digest texts do not collide.
- AuditExport.TextExportIsComplete: the texts of digests, times and JSON are parameters; the non-export page repeats the same checks and is left out.
- Alerts.LogReplaysToTable: the links of notifications to audit events, their snapshot digests, and paging through them, which repeats the audit pages.
- The saga's stages 0 to 2, pausing, reconciliation by an operator, the v2 DAG dispatcher, and the graph lease on each transition.
- SagaRecovery.RecoveryIsExact: what a refusal leads to, the failed task and the reconciliation of calls left running, is not modelled, nor is a pause between stages.
- SagaTheorems.StoreIsFold: assumes that a move keeps the file's version and that nothing else touches the files.
- GatewayService.ModelGateway.Complete: one request on its own; concurrent requests meet in `CostLedger`. Latency averages and latency-aware order, capability and privacy filters are not modelled: the candidates arrive filtered and ordered.
- GatewayCircuit.OpensAtThreshold: one provider on its own; the loop that chooses among providers is `GatewayService`.
- Gateway streaming, structured completion, health checks, routing snapshots and reconfiguration.
- A request without a cost limit reserves and spends nothing on its task's account, as in the source; the ledger results are for tasks with one fixed limit.
