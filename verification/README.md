# FleetFeast: a verified model of its state machines, logs and arithmetic

This project models, in Dafny, the parts of FleetFeast where correctness rests on state kept
over many calls, and proves what those parts promise:

- **Orders, jobs and timelines** (`OrderLifecycle`, `CourierJobs`, `DispatchRoutes`,
  `Deliverability`, `JobHistory`, `OrderTimeline`, `OrderHistory`, `OrderPolicy`,
  `PersistentTimeline`, `DurableEvents`): the order state machine, the courier-job state machine
  linked to it only by two-call HTTP routes, the event log, the two timeline repositories and
  the durable event bus.
- **Offline actions** (`Numerals`, `OfflineQueue`, `OfflineRuns`): the insertion-ordered queue
  with its idempotency index, recovered identifiers, persisted mirror and flush driver.
- **Refresh tokens** (`AppSessions`, `AppSessionHistory`, `SessionStores`, `IdentityAuth`,
  `IdentityHistory`): two implementations of token families, and two stores under one of them.
- **Compliance log** (`ComplianceChain`): the hash chain, for an arbitrary hash function.
- **Dispatch engine** (`DispatchEngine`, `DispatchPolicy`, `TextOrder`, `Sorting`): scoring, the
  in-place sort, assignment and reassignment.
- **Money and text** (`Reconciliation`, `Payments`, `PaymentHistory`, `QueryText`, `Percentile`).

A service is a class whose fields are the state the service (or its repository) keeps. Each
method body follows the program statement by statement and is proved equal to a specification
function over the old state; the theorems are about those functions and quantify over every run.
What such a function decides is stated a second time without it: in terms of the events an order
has (`OrderPolicy`), of the calls and requests a run consists of (`JobHistory`,
`PaymentHistory`, `AppSessionHistory`, `IdentityHistory`), of metres and orders instead of
points (`DispatchPolicy`), and of the records handed in
(`Reconciliation.OutcomeTellsTheRecords`). Times are integers handed in by the caller. Random
identifiers and tokens are arguments, and a step that would draw a taken one is not enabled. A
whole service call is one atomic step. Answers of outside parties (the dispatch client, the
dispatch callback, the payment provider, look-ups in repositories of other modules) are
arguments too.

What the proofs show about the code that its documentation does not say:

- An order assigned to courier a can still be delivered exactly when its job exists and is
  available, or is a's own and not dropped off, or the order half of a's pick-up request is
  still to come; otherwise it can only be cancelled (`AssignedOrdersAreDeliveredIff`; for
  orders in any state, `DeliveryIsPossibleIff`). It fails in three ways: the dispatch client
  answers before anyone lists jobs, so that no job is ever made (`NoJobIsReachable`); another
  courier accepts the job first (`SplitIsReachable`); or, without any client, the order half of
  a pick-up overtakes that of the acceptance (`OvertakenAcceptanceIsReachable`).
- The stored timeline of an order equals the in-memory one exactly when the clock never ran
  backwards between two calls that changed that order (`PersistentViewAgrees`); a clock set
  back by two milliseconds tells them apart (`ClockSetBackTellsThemApart`).
- A session token saved again under another family makes the two session stores differ
  (`MovedTokenTellsThemApart`, `RevocationAgreesIff`).
- An offline action in flight when the process dies is never settled
  (`CrashedActionsAreNeverSettled`), and flushing settles every action exactly when none was in
  flight at the start (`FlushingDrains`).
- Cutting events off the end of the compliance log is not evident: of the logs that end in any
  hash of the chain, exactly its prefixes verify (`OnlyPrefixesPass`).
- The counts of the evidence report are exact exactly when no action type names a property
  that plain objects inherit, such as "constructor" (`CountsAreExactIff`,
  `ConstructorIsMiscounted`).
- The order of the dispatch candidates does not matter exactly when the best candidates share
  their reason codes and, if they reach the minimum score, every candidate under their
  identifier is available, rested and equally far in steps of eight metres
  (`AssignmentIgnoresOrderIff`). Distinct identifiers suffice (`AssignmentIgnoresOrder`); a
  repeated one can break it (`RepeatedIdentifiersDependOnOrder`).

## Model

| member | source | states |
|---|---|---|
| `OrderLifecycle.OrderService.PublishEvent` | core-api/src/modules/order-orchestration/order-service.ts:373-379 | an event reaches the bus and the timeline together |
| `OrderLifecycle.OrderService.CreateOrder` | core-api/src/modules/order-orchestration/order-service.ts:69-108 | an unknown checkout or a different quote hash is refused and changes nothing; otherwise one order and one creation event appear |
| `OrderLifecycle.OrderService.MerchantAcceptOrder` | core-api/src/modules/order-orchestration/order-service.ts:110-138 | new state and answer are those of the acceptance decision |
| `OrderLifecycle.OrderService.HandleMerchantDecisionTimeout` | core-api/src/modules/order-orchestration/order-service.ts:140-169 | new state and answer are those of the timeout decision |
| `OrderLifecycle.OrderService.RequestDispatchFor` | core-api/src/modules/order-orchestration/order-service.ts:171-198 | new state and answer are those of the dispatch request |
| `OrderLifecycle.OrderService.AssignCourierTo` | core-api/src/modules/order-orchestration/order-service.ts:200-231 | new state and answer are those of the assignment; repeating it is a no-op |
| `OrderLifecycle.OrderService.MarkOrderPickedUp` | core-api/src/modules/order-orchestration/order-service.ts:233-263 | new state and answer are those of the pick-up; another courier changes nothing |
| `OrderLifecycle.OrderService.MarkOrderDelivered` | core-api/src/modules/order-orchestration/order-service.ts:265-295 | new state and answer are those of the delivery; another courier changes nothing |
| `OrderLifecycle.OrderService.RequestOrderCancellation` | core-api/src/modules/order-orchestration/order-service.ts:306-351 | request event before the save and cancellation event after it amount to one decision of the policy |
| `OrderTimeline.InMemoryOrderTimelineRepository.Append` | core-api/src/modules/order-orchestration/in-memory-order-timeline-repository.ts:6-9 | the entry is added to its own order's list only |
| `OrderTimeline.OrderTimelineService.ProjectEvent` | core-api/src/modules/order-orchestration/order-timeline-service.ts:28-35 | the timelines change by the event's entry, or not at all for an event without one |
| `OrderTimeline.OrderTimelineService.RebuildFromEventLog` | core-api/src/modules/order-orchestration/order-timeline-service.ts:41-59 | the rebuilt timelines depend on the log alone; the counts are those of entries and of orders named |
| `OrderTimeline.TimelineIsTheOrdersEvents` | core-api/src/modules/order-orchestration/order-timeline-service.ts:61-91 | a projected timeline is exactly the order's own projectable events, entry by entry |
| `OrderTimeline.ProjectAllConcat` | core-api/src/modules/order-orchestration/order-timeline-service.ts:28-59 | incremental projection and projection of a whole log agree |
| `OrderHistory.DecisionIsRecorded` | core-api/src/modules/order-orchestration/order-service.ts:53-58 | whatever a command decides, its events extend the order's word in the grammar and replay to the changed order |
| `OrderHistory.CallKeepsConsistent` | core-api/src/modules/order-orchestration/order-service.ts:110-351 | every order call keeps log, stored orders and timelines in agreement |
| `OrderHistory.EveryRunIsRecorded` | core-api/src/modules/order-orchestration/order-service.ts:69-351 | in every run an order's events are a lifecycle word without repeated types, replay to the stored status, courier, reason and canceller, and name only the stored courier |
| `OrderHistory.TimelineShowsTheStatus` | core-api/src/modules/order-orchestration/order-timeline-service.ts:11-20 | between calls the last timeline entry has the status of the order |
| `OrderHistory.RebuildChangesNothing` | core-api/src/modules/order-orchestration/order-timeline-service.ts:41-59 | after any run with foreign events a rebuild finds the same timelines, one per order placed, one entry per projectable event |
| `OrderPolicy.CallsTakeEffectInTurn` | core-api/src/modules/order-orchestration/order-service.ts:110-351 | in every run the events a call adds follow from the events the order has: the next lifecycle step only at its turn and for the courier named last, a cancellation only while that actor may still cancel |
| `OrderPolicy.CallsAreRefusedExactly` | core-api/src/modules/order-orchestration/order-service.ts:53-58 | in every run a cancellation answers the order exactly when it is cancelled already, or neither picked up nor, for a consumer, sent to dispatch; other calls fail only for an unknown order |
| `OrderPolicy.CancellationsAreLawful` | core-api/src/modules/order-orchestration/order-service.ts:306-351 | in every run a consumer has cancelled no order sent to dispatch, nobody one picked up, the system only one just placed; the request names the reason and canceller the order has |
| `OrderPolicy.PlacingCreates` | core-api/src/modules/order-orchestration/order-service.ts:69-108 | placing under a fresh identifier creates an order with that one event |
| `OrderPolicy.OrdersKeepTheirPlacement` | core-api/src/modules/order-orchestration/order-service.ts:69-108 | in every run an order keeps checkout, quote, consumer and merchant it was placed with, and its times are those of its first and last event |
| `OrderPolicy.TimelineShowsTheWholeStory` | core-api/src/modules/order-orchestration/order-timeline-service.ts:11-20 | in every run each timeline entry shows type, time, reason and canceller of its event, and the status the order had reached with it, a request for cancellation as such |
| `OrderPolicy.TimelineTellsTheCancellation` | core-api/src/modules/order-orchestration/order-timeline-service.ts:61-91 | in every run the last entry of a cancelled order tells why and by whom, and the last entry is of the last update |
| `Sorting.SortByIsStable` | core-api/src/platform/persistence/repositories/persistent-order-timeline-repository.ts:27-36 | sorting keeps equivalent entries in their original order |
| `PersistentTimeline.PersistentOrderTimelineRepository.Append` | core-api/src/platform/persistence/repositories/persistent-order-timeline-repository.ts:16-25 | the entry goes to the inherited list and under its key into the documents |
| `PersistentTimeline.PersistentOrderTimelineRepository.GetByOrderId` | core-api/src/platform/persistence/repositories/persistent-order-timeline-repository.ts:27-36 | the order's documents in a stable sort by time |
| `PersistentTimeline.RebuildFromEventLog` | core-api/src/platform/persistence/repositories/persistent-order-timeline-repository.ts:38-45 | nothing is cleared: documents and inherited lists both receive the whole log again |
| `PersistentTimeline.ProjectEvent` | core-api/src/modules/order-orchestration/order-timeline-service.ts:28-35 | an event's entry reaches documents and inherited lists, or neither |
| `PersistentTimeline.DocumentsFollowTheLog` | core-api/src/modules/order-orchestration/order-timeline-service.ts:28-59 | the documents written step by step along a run are those of writing its whole log at once |
| `PersistentTimeline.StoredViewIsTheSortedTimeline` | core-api/src/platform/persistence/repositories/persistent-order-timeline-repository.ts:7-45 | in every run no document hides another entry, the stored view is the in-memory timeline stably sorted, and an additive rebuild changes nothing |
| `PersistentTimeline.PersistentViewAgrees` | core-api/src/platform/persistence/repositories/persistent-order-timeline-repository.ts:27-36 | the repositories answer alike for an order exactly when the times of the calls that changed it are nondecreasing |
| `PersistentTimeline.ClockSetBackTellsThemApart` | core-api/src/platform/persistence/repositories/persistent-order-timeline-repository.ts:27-36 | an order placed at 5 and accepted at 3 has different timelines in the two repositories |
| `PersistentTimeline.SteadyClockMakesThemEqual` | core-api/src/platform/persistence/repositories/persistent-order-timeline-repository.ts:27-36 | with nondecreasing timestamps both repositories answer alike in every run |
| `PersistentTimeline.KeyTextIsInjective` | core-api/src/platform/persistence/repositories/persistent-order-timeline-repository.ts:7-9 | equal key texts have equal order, time and type, whatever the order identifier contains |
| `DocumentStore.InMemoryDocumentStore.Put` | core-api/src/platform/persistence/in-memory-document-store.ts:10-14 | one namespace changes by one insertion-ordered put, the others not at all |
| `DurableEvents.DurableEventBus.HydrateFromOutbox` | core-api/src/platform/events/durable-event-bus.ts:38-47 | the stored events come before anything published |
| `DurableEvents.DurableEventBus.PublishLater` | core-api/src/platform/events/durable-event-bus.ts:21-30 | publishing only queues; nothing is visible before hydration |
| `DurableEvents.DurableEventBus.RunPublishTask` | core-api/src/platform/events/durable-event-bus.ts:22-25 | the oldest queued event becomes visible and stored |
| `DurableEvents.DurableEventBus.Flush` | core-api/src/platform/events/durable-event-bus.ts:32-36 | afterwards the events are the hydrated ones followed by the queued ones, and equal what is stored |
| `DurableEvents.PublishOrderIsKept` | core-api/src/platform/events/durable-event-bus.ts:21-57 | under every interleaving nothing is lost, duplicated or reordered |
| `DurableEvents.RestartHydratesToTheSameEvents` | core-api/src/platform/events/durable-event-bus.ts:38-47 | after any run, restarts included, a new bus hydrates to the same event sequence |
| `CourierJobs.CourierJobService.SyncDispatchPendingOrders` | core-api/src/modules/dispatch/courier-job-service.ts:159-182 | exactly the dispatch-pending orders without a job get an available one |
| `CourierJobs.CourierJobService.AcceptJob` | core-api/src/modules/dispatch/courier-job-service.ts:59-86 | new jobs and answer are those of synchronising and deciding |
| `CourierJobs.CourierJobService.PickupJob` | core-api/src/modules/dispatch/courier-job-service.ts:88-117 | new jobs and answer are those of synchronising and deciding |
| `CourierJobs.CourierJobService.DropoffJob` | core-api/src/modules/dispatch/courier-job-service.ts:119-148 | new jobs and answer are those of synchronising and deciding |
| `JobHistory.JobCallsSucceedInTurn` | core-api/src/modules/dispatch/courier-job-service.ts:59-148 | which job calls succeed, and which error the others answer, by stage and holder of the job |
| `JobHistory.JobCallsStoreTheAnswer` | core-api/src/modules/dispatch/courier-job-service.ts:59-182 | a success stores the job it answers, a failure only synchronises, and no other job is touched |
| `JobHistory.StampsComeFromCalls` | core-api/src/modules/dispatch/courier-job-service.ts:59-148 | in every interleaving a job has exactly the stamps of the stages passed, each the time of a call of that stage by its courier |
| `JobHistory.ClientIsAskedWhilePending` | core-api/src/server.ts:2875-2909 | the dispatch client is asked exactly while the order waits for dispatch |
| `DispatchRoutes.NextIsSafe` | core-api/src/server.ts:2549-2577 | every single service call, first or second half of a route, keeps orders behind their jobs |
| `DispatchRoutes.OrdersNeverOutrunTheirJobs` | core-api/src/server.ts:2549-2577 | under every interleaving a picked-up or delivered order has a job held by the same courier that is at least as far |
| `DispatchRoutes.JobsAreNeverTakenOver` | core-api/src/modules/dispatch/courier-job-service.ts:59-182 | between any two points of a run no job is lost, set back, or moved to another courier |
| `Deliverability.DeliveryIsPossibleIff` | core-api/src/server.ts:2549-2577 | in every reachable state some continuation delivers an order exactly when order, job and requests in progress show it to be deliverable |
| `Deliverability.AssignedOrdersAreDeliveredIff` | core-api/src/modules/dispatch/courier-job-service.ts:88-182 | an assigned order can be delivered exactly when its job is available, or the courier's own and not dropped off, or the courier's pick-up is still to reach the order; otherwise it stays assigned or is cancelled |
| `Deliverability.NoJobIsReachable` | core-api/src/modules/dispatch/courier-job-service.ts:159-182 | an order the client assigns before jobs are listed has no job and is not deliverable |
| `Deliverability.SplitIsReachable` | core-api/src/server.ts:2875-2909 | for any two couriers, one may be assigned the order while the other holds the job, and the order is not deliverable |
| `Deliverability.OvertakenAcceptanceIsReachable` | core-api/src/server.ts:2549-2577 | one courier's own requests, interleaved without any client, leave an assigned order with a dropped-off job that is not deliverable |
| `RouteSimulation.WholeRoutesRunInLockStep` | core-api/src/server.ts:2549-2577 | with whole routes and no dispatch client, order status and courier correspond exactly to job status and courier, both ways |
| `RouteSimulation.Server.AcceptJobRoute` | core-api/src/server.ts:2549-2557 | the handler is the two calls of the route, the second only after a successful first |
| `RouteSimulation.Server.PickupJobRoute` | core-api/src/server.ts:2559-2567 | the handler is the two calls of the route, the second only after a successful first |
| `RouteSimulation.Server.DropoffJobRoute` | core-api/src/server.ts:2569-2577 | the handler is the two calls of the route, the second only after a successful first |
| `RouteSimulation.Server.RequestDispatchRoute` | core-api/src/server.ts:2875-2909 | the handler is the request followed by the client's answer, applied only to a dispatch-pending order; the order answered is the stored one |
| `Numerals.ShowParsesBack` | apps/mobile/shared-kmp/src/commonMain/kotlin/com/fleetfeast/mobile/shared/offline_queue.kt:80-94 | parsing a printed number gives it back, negative ones included |
| `Numerals.ParsesIffDecimal` | apps/mobile/shared-kmp/src/commonMain/kotlin/com/fleetfeast/mobile/shared/offline_queue.kt:80-94 | a text parses exactly if it is digits behind at most one sign, and the sign counts |
| `OfflineQueue.LoadKeepsTheListIffDistinct` | apps/mobile/shared-kmp/src/commonMain/kotlin/com/fleetfeast/mobile/shared/offline_queue.kt:7-16 | loading keeps exactly the stored list if and only if its identifiers are distinct |
| `OfflineQueue.LoadKeepsTheLast` | apps/mobile/shared-kmp/src/commonMain/kotlin/com/fleetfeast/mobile/shared/offline_queue.kt:7-16 | of several stored actions with one identifier, and of several with one key, the last is kept |
| `OfflineQueue.NextFollowsTheLargest` | apps/mobile/shared-kmp/src/commonMain/kotlin/com/fleetfeast/mobile/shared/offline_queue.kt:80-94 | the next sequence number follows the largest in use, and is 1 when there is none |
| `OfflineQueue.RestartIsExact` | apps/mobile/shared-kmp/src/commonMain/kotlin/com/fleetfeast/mobile/shared/offline_queue.kt:116-123 | a queue rebuilt from its snapshot has the same actions, order, index and next sequence |
| `OfflineQueue.NewIdIsFresh` | apps/mobile/shared-kmp/src/commonMain/kotlin/com/fleetfeast/mobile/shared/offline_queue.kt:27-39 | the next identifier is never that of a stored action |
| `OfflineQueue.EnqueueAppendsOrFinds` | apps/mobile/shared-kmp/src/commonMain/kotlin/com/fleetfeast/mobile/shared/offline_queue.kt:18-39 | a known idempotency key finds its action and changes nothing; a new one appends one pending action |
| `OfflineQueue.FlushIsOneAttempt` | apps/mobile/shared-kmp/src/commonMain/kotlin/com/fleetfeast/mobile/shared/courier_workflow.kt:22-44 | a flush is one attempt at the first ready action, leaves all others, and reports its outcome |
| `OfflineQueue.FailureRetriesIff` | apps/mobile/shared-kmp/src/commonMain/kotlin/com/fleetfeast/mobile/shared/offline_queue.kt:60-74 | a reported failure makes a stored action ready again exactly if it may be retried and has attempts left, otherwise failed |
| `OfflineQueue.SuccessIsRecorded` | apps/mobile/shared-kmp/src/commonMain/kotlin/com/fleetfeast/mobile/shared/offline_queue.kt:54-58 | a reported success makes a stored action succeeded; reports on unknown actions change nothing |
| `OfflineQueue.OfflineActionQueue.EnqueueAction` | apps/mobile/shared-kmp/src/commonMain/kotlin/com/fleetfeast/mobile/shared/offline_queue.kt:18-39 | new state and action are those of the enqueue specification |
| `OfflineQueue.OfflineActionQueue.LeaseNext` | apps/mobile/shared-kmp/src/commonMain/kotlin/com/fleetfeast/mobile/shared/offline_queue.kt:41-52 | the first pending or retry-scheduled action goes in flight with one attempt more |
| `OfflineQueue.OfflineActionQueue.MarkActionSucceeded` | apps/mobile/shared-kmp/src/commonMain/kotlin/com/fleetfeast/mobile/shared/offline_queue.kt:54-58 | an unknown identifier changes nothing and answers false |
| `OfflineQueue.OfflineActionQueue.MarkActionFailed` | apps/mobile/shared-kmp/src/commonMain/kotlin/com/fleetfeast/mobile/shared/offline_queue.kt:60-74 | a retry is scheduled only for a retryable failure below the bound |
| `OfflineQueue.PersistentOfflineActionQueue.EnqueueAction` | apps/mobile/shared-kmp/src/commonMain/kotlin/com/fleetfeast/mobile/shared/offline_queue.kt:125-129 | the change is written through: the stored list is the snapshot |
| `OfflineQueue.PersistentOfflineActionQueue.LeaseNext` | apps/mobile/shared-kmp/src/commonMain/kotlin/com/fleetfeast/mobile/shared/offline_queue.kt:131-138 | a lease is written through; without one nothing changes |
| `OfflineQueue.PersistentOfflineActionQueue.MarkActionSucceeded` | apps/mobile/shared-kmp/src/commonMain/kotlin/com/fleetfeast/mobile/shared/offline_queue.kt:140-147 | an update is written through |
| `OfflineQueue.PersistentOfflineActionQueue.MarkActionFailed` | apps/mobile/shared-kmp/src/commonMain/kotlin/com/fleetfeast/mobile/shared/offline_queue.kt:149-156 | an update is written through |
| `OfflineQueue.FlushNextOfflineAction` | apps/mobile/shared-kmp/src/commonMain/kotlin/com/fleetfeast/mobile/shared/courier_workflow.kt:22-44 | with the flag on the driver performs one flush, after which the stored list is the snapshot; with it off, or nothing ready, nothing changes |
| `OfflineRuns.EarlierActionsAreSettled` | apps/mobile/shared-kmp/src/commonMain/kotlin/com/fleetfeast/mobile/shared/offline_queue.kt:41-52 | an action is dispatched only when all enqueued earlier are succeeded or failed, and a flush idles only when all are |
| `OfflineRuns.DeliveryIsOrderedBoundedAndOnce` | apps/mobile/shared-kmp/src/commonMain/kotlin/com/fleetfeast/mobile/shared/offline_queue.kt:41-74 | in every run dispatches follow enqueue order, each action is dispatched at most its remaining attempts, exactly so often before it fails, its counter counts them, and it is delivered at most once |
| `OfflineRuns.FlushingDrains` | apps/mobile/shared-kmp/src/commonMain/kotlin/com/fleetfeast/mobile/shared/courier_workflow.kt:22-44 | flushing as often as the sum of remaining attempts leaves nothing ready, and settles every action exactly when none was in flight at the start |
| `OfflineRuns.CrashLeavesInFlight` | apps/mobile/shared-kmp/src/commonMain/kotlin/com/fleetfeast/mobile/shared/offline_queue.kt:131-138 | from every coherent queue with a ready action, reloading after a stored lease gives a coherent queue with that action in flight |
| `OfflineRuns.CrashedActionsAreNeverSettled` | apps/mobile/shared-kmp/src/commonMain/kotlin/com/fleetfeast/mobile/shared/offline_queue.kt:41-44 | no run over the queue reloaded after such a crash touches that action again |
| `AppSessions.InMemoryRefreshSessionStore.RevokeFamilyAt` | packages/app-auth/src/index.ts:278-293 | exactly the records the index lists for the family become used |
| `AppSessions.AppSessionAuthService.RefreshAppSession` | packages/app-auth/src/index.ts:337-371 | every refusal, and what is written before each answer |
| `AppSessions.AppSessionAuthService.IssueAppSession` | packages/app-auth/src/index.ts:330-335 | a session opens with one record in a new family |
| `AppSessionHistory.TokensStemFromSteps` | packages/app-auth/src/index.ts:384-427 | in every run each token has the times, trace and random values of the step that issued it, the principal its family was opened for, and was used when a token of its family was presented |
| `AppSessionHistory.OpeningIssuesAToken` | packages/app-auth/src/index.ts:330-335 | opening a session stores an unused token, alone in its family |
| `AppSessionHistory.RefreshSucceedsIff` | packages/app-auth/src/index.ts:337-359 | in every run a refresh succeeds exactly with an unused token issued less than the time to live ago, from the device the session was opened on if any; the other answers are exact too |
| `AppSessions.FamiliesRotate` | packages/app-auth/src/index.ts:251-294 | in every reachable state a family has at most one unused token, all its records share user, role, persona and device, and the index is exact |
| `AppSessions.ReplayEndsTheFamily` | packages/app-auth/src/index.ts:356-359 | after a detected replay no refresh in that family ever succeeds |
| `AppSessions.TokensAreRedeemedOnce` | packages/app-auth/src/index.ts:361-370 | a redeemed token is never redeemed again, and leaves the new one as the only unused of its family |
| `SessionStores.StoresAnswerAlike` | core-api/src/platform/persistence/repositories/persistent-session-store.ts:14-47 | after any same operations in which a token keeps one family both stores hold equal records |
| `SessionStores.RevocationAgreesIff` | core-api/src/modules/identity/in-memory-session-store.ts:36-51 | revoking a family agrees in both stores exactly when the index lists no unrevoked token of another family |
| `SessionStores.MovedTokenTellsThemApart` | core-api/src/modules/identity/in-memory-session-store.ts:14-20 | a token moved between families is revoked in one store only |
| `SessionStores.InMemorySessionStore.SaveSession` | core-api/src/modules/identity/in-memory-session-store.ts:14-20 | the record is stored and indexed |
| `SessionStores.InMemorySessionStore.MarkSessionUsed` | core-api/src/modules/identity/in-memory-session-store.ts:26-34 | one known record becomes used |
| `SessionStores.InMemorySessionStore.RevokeSessions` | core-api/src/modules/identity/in-memory-session-store.ts:36-51 | exactly the records the index lists become revoked |
| `SessionStores.PersistentSessionStore.SaveSession` | core-api/src/platform/persistence/repositories/persistent-session-store.ts:14-16 | the record is put under its token |
| `SessionStores.PersistentSessionStore.MarkSessionUsed` | core-api/src/platform/persistence/repositories/persistent-session-store.ts:22-32 | one known record becomes used |
| `SessionStores.PersistentSessionStore.RevokeSessions` | core-api/src/platform/persistence/repositories/persistent-session-store.ts:34-47 | exactly the scanned records of the family become revoked, in place |
| `IdentityAuth.AuthService.IssueSession` | core-api/src/modules/identity/auth-service.ts:180-220 | one session is saved, in the given or a new family, and one event published |
| `IdentityAuth.AuthService.Login` | core-api/src/modules/identity/auth-service.ts:77-105 | every refusal in order; otherwise one new session in a new family and its event |
| `IdentityAuth.AuthService.Refresh` | core-api/src/modules/identity/auth-service.ts:107-143 | every refusal, the store operations and events of each; the token is spent even when its user is gone |
| `IdentityAuth.AllButTheNewestAreUsed` | core-api/src/modules/identity/auth-service.ts:107-143 | in every run, of two tokens of a family the older is used, and both belong to one user |
| `IdentityAuth.ReplayRevokesTheFamily` | core-api/src/modules/identity/auth-service.ts:124-130 | after a detected replay every later refresh in that family is refused |
| `IdentityAuth.BothStoresRotateAlike` | core-api/src/modules/identity/auth-service.ts:107-143 | in every run the service over the scanning store holds the records it holds over the indexed one |
| `IdentityAuth.EverySessionIsAnnounced` | core-api/src/modules/identity/auth-service.ts:207-214 | in every run there is one event per session, in order, naming its user, and saying login exactly for the first of a family |
| `IdentityHistory.LoginSucceedsIff` | core-api/src/modules/identity/auth-service.ts:77-102 | a login succeeds exactly for the right password, and code if privileged; each refusal has its exact cause |
| `IdentityHistory.LoginIssuesAToken` | core-api/src/modules/identity/auth-service.ts:77-105 | a login with the right credentials stores an unused token of thirty days and publishes one event; any other changes nothing |
| `IdentityHistory.RefreshSpendsTheToken` | core-api/src/modules/identity/auth-service.ts:107-143 | a refresh spends the token even when its user is gone, issues one exactly when not, a replay revokes, other refusals change nothing |
| `IdentityHistory.SessionsStemFromLogins` | core-api/src/modules/identity/auth-service.ts:180-205 | in every run each session stems from an authenticated login of its user and was issued thirty days before it expires |
| `IdentityHistory.RefreshSucceedsIff` | core-api/src/modules/identity/auth-service.ts:107-130 | in every run a refresh succeeds exactly with an unused, unrevoked token issued at most thirty days ago |
| `ComplianceChain.ComplianceAuditService.AppendEvent` | core-api/src/modules/risk-compliance/compliance-audit-service.ts:27-86 | the new event names the hash of the latest, is announced, and keeps a verified log verified |
| `ComplianceChain.VerifyChain` | core-api/src/modules/risk-compliance/compliance-audit-service.ts:126-154 | the walk accepts exactly the logs in which every event carries its own hash and its predecessor's |
| `ComplianceChain.ComplianceAuditService.GenerateEvidenceReport` | core-api/src/modules/risk-compliance/compliance-audit-service.ts:92-124 | integrity is the verifier's, the counts are exact exactly when no action type names an inherited property, and the report is announced |
| `ComplianceChain.CountsAreExactIff` | core-api/src/modules/risk-compliance/compliance-audit-service.ts:96-100 | every action type has its number of events and the counts sum to the total, if and only if no action type names a property that plain objects inherit |
| `ComplianceChain.ConstructorIsMiscounted` | core-api/src/modules/risk-compliance/compliance-audit-service.ts:96-100 | the action type "constructor" is reported under a text instead of a count |
| `ComplianceChain.AppendedLogsVerify` | core-api/src/modules/risk-compliance/compliance-audit-service.ts:27-86 | after any appends the log verifies |
| `ComplianceChain.AppendsAreCarried` | core-api/src/modules/risk-compliance/compliance-audit-service.ts:27-58 | each append adds one event with its own input, identifier and time under their hash, naming the hash of the one before |
| `ComplianceChain.DifferenceGivesCollision` | core-api/src/modules/risk-compliance/compliance-audit-service.ts:126-158 | from two different accepted logs with one final hash a hash collision can be read off |
| `ComplianceChain.TamperingIsEvident` | core-api/src/modules/risk-compliance/compliance-audit-service.ts:126-158 | for a collision-free hash a log is the original exactly when it verifies with the same final hash |
| `ComplianceChain.OnlyPrefixesPass` | core-api/src/modules/risk-compliance/compliance-audit-service.ts:126-154 | among the logs that end in some hash of the chain or are empty, exactly its prefixes are accepted |
| `DispatchEngine.SortScores` | dispatch-engine/internal/dispatch/engine.go:35-40 | the array is rearranged in place, best first, losing and adding nothing |
| `DispatchEngine.ScoreCandidates` | dispatch-engine/internal/dispatch/engine.go:26-43 | a ranking of one score per candidate |
| `DispatchEngine.DedupeReasonCodes` | dispatch-engine/internal/dispatch/engine.go:242-262 | the loop with a seen set computes the deduplication |
| `DispatchEngine.DedupeKeepsFirstOccurrences` | dispatch-engine/internal/dispatch/engine.go:242-262 | each non-empty code is kept once, in order of first occurrence |
| `DispatchEngine.Assign` | dispatch-engine/internal/dispatch/engine.go:45-99 | the answer is the choice for some ranking of the candidates |
| `DispatchEngine.AssignmentIgnoresOrderIff` | dispatch-engine/internal/dispatch/engine.go:26-99 | all permutations and all rankings get one answer exactly when the best candidates share their reasons and whoever may be looked up under their identifier stands for them |
| `DispatchEngine.AssignmentIgnoresOrder` | dispatch-engine/internal/dispatch/engine.go:45-99 | for distinct identifiers every permutation of the candidates gets the same answer |
| `DispatchEngine.CourierIffSomeoneQualifies` | dispatch-engine/internal/dispatch/engine.go:57-70 | a courier is assigned exactly when some available, rested candidate under the cap scores at least 15 |
| `DispatchEngine.AssignedCourierIsTheBest` | dispatch-engine/internal/dispatch/engine.go:57-70 | the assigned courier is eligible and strictly better than every other candidate, and the time estimate rounds the distance up |
| `DispatchPolicy.AssignmentFollowsBurden` | dispatch-engine/internal/dispatch/engine.go:45-99 | a courier is answered exactly when a free one is within a burden limit of distance and load, and it is the least burdened, with the estimate of its distance and the codes of its distance and load |
| `DispatchPolicy.NobodyIsPassedOver` | dispatch-engine/internal/dispatch/engine.go:57-70 | no free courier as near and as little loaded as the assigned one, and better in one of them, is passed over |
| `DispatchPolicy.AnIdleCourierHasAHundred` | dispatch-engine/internal/dispatch/engine.go:161-222 | a courier without way or orders has 100 points without pressure |
| `DispatchPolicy.ScoresDifferByBurden` | dispatch-engine/internal/dispatch/engine.go:209-213 | positive scores differ by one point per hundred metres, an order counting twelve hundred |
| `DispatchPolicy.PressureLiftsScores` | dispatch-engine/internal/dispatch/engine.go:209-213 | pressure never lowers a score, and between 0 and 1 lifts a positive one by fifteen points times the difference |
| `DispatchPolicy.ObstacleIsNamed` | dispatch-engine/internal/dispatch/engine.go:181-207 | a courier who is not free scores nothing and is named with the first reason that applies |
| `DispatchPolicy.FallbackIsDecidedByPressure` | dispatch-engine/internal/dispatch/engine.go:72-98 | without a courier the merchant delivers, support takes over or the order stays unassigned, by permission and pressure at most 0.9 |
| `DispatchPolicy.SanitizedText` | dispatch-engine/internal/dispatch/engine.go:224-232 | names drop blanks around them, turn inner dashes and spaces into underscores, and are "na" when nothing is left |
| `DispatchPolicy.AssignmentsAreNamed` | dispatch-engine/internal/dispatch/engine.go:57-70 | an assignment is named after its order and its courier |
| `DispatchEngine.TwoIsTheLargestSafeLoad` | dispatch-engine/internal/dispatch/engine.go:161-222 | an eligible candidate within a load reaches 15 points at every distance and pressure exactly for loads up to two |
| `DispatchEngine.TwoOrdersGuaranteeACourier` | dispatch-engine/internal/dispatch/engine.go:161-222 | an eligible candidate with at most two active orders guarantees a courier at every distance and pressure |
| `DispatchEngine.RepeatedIdentifiersDependOnOrder` | dispatch-engine/internal/dispatch/engine.go:52-60 | two entries of one courier, one of them unavailable, get different answers in different orders |
| `DispatchEngine.Reassign` | dispatch-engine/internal/dispatch/engine.go:101-159 | the previous courier is never the answer; the rest follows from an assignment among the others |
| `DispatchPolicy.ReassignmentPassesOn` | dispatch-engine/internal/dispatch/engine.go:126-158 | a courier found is passed on unchanged and marked; the reason comes first; escalation empties the answer |
| `DispatchPolicy.EscalationIff` | dispatch-engine/internal/dispatch/engine.go:134-150 | an order without a courier escalates exactly from the third attempt on, unless the merchant may deliver |
| `Reconciliation.SettlementReconciliationService.Reconcile` | core-api/src/modules/settlement/settlement-reconciliation-service.ts:18-72 | the outcome is computed from both record lists, announced and kept in the history |
| `Reconciliation.LastRecordCounts` | core-api/src/modules/settlement/settlement-reconciliation-service.ts:19-25 | an entity is known exactly when some record names it, with the amount of its last record |
| `Reconciliation.OutcomeTellsTheRecords` | core-api/src/modules/settlement/settlement-reconciliation-service.ts:27-60 | told from the record lists: an entity is reported once, with the amounts that count, exactly when they differ beyond the tolerance; totals are the sums of what counts |
| `Reconciliation.TotalOfDistinctRecords` | core-api/src/modules/settlement/settlement-reconciliation-service.ts:105-107 | without repeated entities a total is the sum of all amounts |
| `Reconciliation.EveryDeviationIsReportedOnce` | core-api/src/modules/settlement/settlement-reconciliation-service.ts:29-48 | exactly the entities beyond tolerance are reported, once each, with amounts, variance and the reason that tells the missing side |
| `Reconciliation.ReconciliationConservesMoney` | core-api/src/modules/settlement/settlement-reconciliation-service.ts:51-57 | the totals differ by the reported variances up to the tolerance per unreported entity |
| `Payments.InMemoryPaymentIntentRepository.FindByOrderAndMethod` | core-api/src/modules/payments/in-memory-payment-intent-repository.ts:15-23 | the first match in insertion order |
| `Payments.PaymentService.AuthorizePayment` | core-api/src/modules/payments/payment-service.ts:97-151 | refusals change nothing; otherwise intent, event and audit record appear together |
| `Payments.PaymentService.CapturePayment` | core-api/src/modules/payments/payment-service.ts:153-210 | a known key, a captured intent and a first capture each change exactly what they should |
| `Payments.PaymentService.MarkCashExpected` | core-api/src/modules/payments/payment-service.ts:212-255 | refusals change nothing; otherwise intent, event and audit record appear together |
| `Payments.PaymentService.ConfirmCashCollection` | core-api/src/modules/payments/payment-service.ts:257-331 | the order's first cash intent is captured, and a different amount is reported and recorded |
| `Payments.PaymentService.RequestRefundFor` | core-api/src/modules/payments/payment-service.ts:333-374 | every refusal in order; otherwise one requested refund and its audit record |
| `Payments.PaymentService.ApproveRefundOf` | core-api/src/modules/payments/payment-service.ts:376-419 | approving twice changes nothing; the answer is the stored refund |
| `Payments.ServeIsSound` | core-api/src/modules/payments/payment-service.ts:97-419 | every request keeps the books sound; intents keep order and amount and stay captured, keys keep their results |
| `Payments.CapturesMatchTheAuditTrail` | core-api/src/modules/payments/payment-service.ts:153-331 | in every run an intent's capture is announced at most once, truthfully, and the intent is captured exactly when the audit trail says so |
| `Payments.RefundsAreCovered` | core-api/src/modules/payments/payment-service.ts:333-419 | in every run a refund is positive, within its intent's amount, and on a captured intent of the same order |
| `Payments.RepeatedKeyReturnsTheFirstResult` | core-api/src/modules/payments/payment-service.ts:153-172 | after a success under a key every later capture under it returns the first result and changes nothing |
| `PaymentHistory.CaptureSucceedsIff` | core-api/src/modules/payments/payment-service.ts:153-209 | under a new key a capture succeeds exactly when intent and order exist and the intent is captured already or its order accepted or waiting for dispatch; what changes is exact |
| `PaymentHistory.RefundIsAcceptedIff` | core-api/src/modules/payments/payment-service.ts:333-374 | a refund is accepted exactly on a captured intent of that order for a positive amount up to the intent's |
| `PaymentHistory.FirstApprovalCompletes` | core-api/src/modules/payments/payment-service.ts:376-419 | the first approval completes a refund and names its approver; later ones change nothing |
| `PaymentHistory.NewIntentsAreAcceptedIff` | core-api/src/modules/payments/payment-service.ts:97-255 | a payment is authorised exactly for a known order and no cash, cash expected exactly for a known order; the intent made carries the request |
| `PaymentHistory.CashIsCollectedIff` | core-api/src/modules/payments/payment-service.ts:257-331 | cash is collected exactly for an order with a cash intent; the earliest is captured, and a mismatch announced and recorded exactly when amounts differ |
| `PaymentHistory.BooksStemFromRequests` | core-api/src/modules/payments/payment-service.ts:97-419 | in every run each intent, refund, approval and announced capture stems from a request for it, the capture from one with a capturable order |
| `PaymentHistory.EventsAndTrailAreTruthful` | core-api/src/modules/payments/payment-service.ts:97-419 | in every run each audit record was announced, with the reason of its kind and the order of its target, and each event tells what the books hold |
| `PaymentHistory.AuditTrailStemsFromRequests` | core-api/src/modules/payments/payment-service.ts:97-419 | in every run each audit record stems from a request of its kind at its time |
| `QueryText.EncodeQueryComponent` | apps/mobile/shared-kmp/src/commonMain/kotlin/com/fleetfeast/mobile/shared/http_transport.kt:83-100 | the builder loop over signed bytes produces the encoding |
| `QueryText.DecodeEncodes` | apps/mobile/shared-kmp/src/commonMain/kotlin/com/fleetfeast/mobile/shared/http_transport.kt:83-114 | percent-decoding gives every byte sequence back |
| `QueryText.EncodedAlphabet` | apps/mobile/shared-kmp/src/commonMain/kotlin/com/fleetfeast/mobile/shared/http_transport.kt:102-110 | an encoded component consists of unreserved characters and percent signs |
| `QueryText.OnlyUnreservedBytesStay` | apps/mobile/shared-kmp/src/commonMain/kotlin/com/fleetfeast/mobile/shared/http_transport.kt:83-114 | exactly letters, digits and the four marks stay; any other byte becomes a percent sign and two upper-case hexadecimal digits |
| `QueryText.QueryParsesBack` | apps/mobile/shared-kmp/src/commonMain/kotlin/com/fleetfeast/mobile/shared/http_transport.kt:66-71 | splitting and decoding the query text recovers every entry, in order |
| `QueryText.SortingIgnoresIteration` | apps/mobile/shared-kmp/src/commonMain/kotlin/com/fleetfeast/mobile/shared/http_transport.kt:66-68 | the text does not depend on the iteration order of the map |
| `QueryText.UrlIsJoined` | apps/mobile/shared-kmp/src/commonMain/kotlin/com/fleetfeast/mobile/shared/http_transport.kt:60-74 | one slash between base and path, whoever brings it, and behind a question mark a text that reads as the entries in ascending key order |
| `QueryText.UrlDeterminesTheQuery` | apps/mobile/shared-kmp/src/commonMain/kotlin/com/fleetfeast/mobile/shared/http_transport.kt:60-74 | two query maps give one URL exactly when they have the same entries |
| `Percentile.NearestRank` | core-api/src/modules/observability/slo-service.ts:91-99 | the result is a value, at least 95% are at most it and fewer than 95% are below it |

## Left out

- HTTP parsing and payload validation (of which only the refusal of empty courier identifiers is kept), the BFF servers, the web and mobile applications: input and output.
- JWT signing and verification, OIDC, password hashing, random bytes, SHA-256 itself and the text of JSON: library calls. The compliance proofs hold for every hash function of the hashed fields.
- PostgreSQL, Redis, gRPC and the event broker: the insertion-ordered in-memory document store gives the storage semantics, without its delete operation. A durable bus without a document store is the in-memory bus and is not modelled apart.
- Interleavings inside one service method, between its own awaits.
- Event-bus subscribers: best-effort side effects that touch none of the modelled state.
- The interleaving of events of different services on the shared bus, outside orders and their timelines: each service's own events are kept apart.
- The order of the counters in an evidence report: a plain object lists integer-like names first.
- Listing and filtering operations (orders, jobs, reconciliation history, audit trail per order): they only read. The order in which jobs are listed is not modelled.
- Aliasing of records: a record handed out by a store is a value here, while the in-memory session store hands out the very object it later updates.
- Failing repository writes, among them the alert for a failed compliance append.
- Event types outside the timeline map that happen to name a property of every JavaScript object.
- The time field of payment events, the identifiers of audit records and the metadata copied into them.
- Floating-point rounding: scores, pressures and latencies are real numbers; 32-bit overflow of distances and estimates; overflow of the 64-bit offline sequence number; non-ASCII decimal digits in stored offline identifiers.
- Trimming in assignment texts knows the Latin-1 white space only, not the other Unicode spaces.
- The key order of the query text: any total order of keys is allowed, which covers the UTF-16 order the code uses; malformed UTF-16 is not modelled.
- A bound on the sum of several refunds of one intent: the code checks each request alone, so none holds.
- Lock-step of orders and jobs for cancelled orders and after an assignment by the dispatch client: the code lets the job go on alone; only the one-sided theorems hold there.
- Roles, menus, store hours, delivery zones, templates, receipts, support tickets, risk thresholds, payouts, and the rest of the service-level report: they would add easy members only.
