# Verified model of the messaging platform's core

This project states and proves what the platform's core promises, in Dafny. It models the parts in which a
mistake is expensive and hard to see: messages sent twice or never, caps exceeded, journeys that loop, segments
that address the wrong people, events counted twice, and measurements that flatter.

| part | files | what is modelled |
|---|---|---|
| Send loop | `SendProtocol`, `SendBudget`, `SendSolo`, `SendWorker`, `SendBatch`, `DlqMarker` | Workers on a redelivering queue as atomic Redis commands that interleave and crash: leases, the retry budget, the dead-letter fence; batches over many keys, flushed before they are acknowledged; and the bytes of the dead-letter marker. |
| In-app delivery | `InAppProtocol`, `InAppSafety`, `InAppTheorems`, `InAppSuppression`, `InAppService` | Decide, authorize, event, revoke, save, publish and pause as transactions, split where the code holds no lock: decide looks at one candidate per step. |
| Journeys | `Digraph`, `JourneyModel`, `JourneyValidation`, `JourneyGraph`, `JourneyChecks`, `JourneyAdapter`, `JourneyPublication` | The validator with its loops, the version-1 adapter, and publication over whole histories. |
| Segments | `SegmentDsl`, `SegmentCompiler`, `SegmentReading`, `SegmentText`, `ClickHouseQuery` | The compiler with its argument list, an independent reader of SQL's Boolean structure that starts from the printed characters, and the rewriting to named parameters. |
| Event receipts | `EventReceipts`, `ReceiptSafety`, `ReceiptTheorems`, `ReceiptDeadlock`, `ReceiptService` | Concurrent receipt transactions with event, identity, cursor and profile locks, for any collation; when they deadlock; the code of one transaction and its retries. |
| Measuring | `LatencyHistogram`, `LoadAccounting` | The load generator's histogram, schedule, queue and books. |
| Rate limits | `TokenBucket` | The bucket script and the layered check. |
| Installation | `Bootstrap` | Claim, lease, setup, replay on the one installation row. |
| Shared | `Wrappers`, `Collections`, `Arithmetic`, `Decimals` | Options, set sizes, division, numbers as text. |

## How to read it

Databases and Redis are maps, transactions and scripts are atomic steps that respect the locks the code takes,
and time is one clock that does not run backwards, except in the token bucket. A protocol is a function from a state and an event to a
state; an event that is not possible in a state changes nothing, so every sequence of events is a run, and the
theorems speak about all of them. Code that updates state in place is a class. Its methods are proved equal to
the protocol's steps, or to a function of the old state where no protocol is involved; where others may act
between two of its commands (`KeyStore`, `SendLoop`, `Service`, `LoadGenerator`), the method takes what they do
as an argument and runs it in between. A receipt transaction (`ReceiptDb`) is written for itself alone, and
`CommitIsTheLoop` shows that interleaved transactions commit the same.

Hashes, tokens, UUIDs and revision hashes are taken to be injective and fresh; they stand for what they hash.
Answers of providers, databases' failures, arrival times and orders of equal rows are arguments, so the results
hold for all of them.

Five results say where the code does not do what one might expect.

- The validator reports a cycle also for an edge that enters a node from a source that does not exist
  (`StrayEdgeIsReportedAsCycle`); the exact condition is part of `ValidateGraph`.
- A clock that goes backwards between API nodes can overdraw a token bucket (`BackwardClocksOverdraw`). Stored
  tokens stay in their range if and only if each backward step is covered by the bucket it finds
  (`RunsStayInRangeIffCovered`).
- A decision under way can miss a suppression stored meanwhile (`HideCanBeMissed`). It still reserves the
  suppressed campaign if and only if it had already chosen it (`ChosenBeforeIsReserved`); decisions begun later
  never do (`SuppressedIsNotReserved`).
- Receipt transactions can deadlock although they sort what they insert (`TiesDeadlock`): the sort compares with
  `localeCompare`, which by ECMA-262 puts canonically equal texts at one place, while the database keeps them apart
  (`TwoSpellingsDeadlock`). They never do if and only if the sort tells all identities in use apart
  (`NoDeadlockIffApart`). The database ends one of the two transactions, which is tried again as long as it has
  attempts left (`PersistTrackReceipts`).
- The retry budget is exceeded by one for each crash between a provider call and the write that follows it, and
  no fewer (`RetryBudgetIsTight`).

## Model

| member | source | states |
|---|---|---|
| `SendProtocol.RetryBudget` | apps/worker/internal/channel/sendloop.go:163-262 | In every run of any number of workers, redeliveries and crashes, the provider is called at most `maxSendAttempts` times plus once per crash that falls between a call and the next Redis write. |
| `SendBudget.RetryBudgetIsTight` | apps/worker/internal/channel/sendloop.go:200-230 | The budget cannot be improved: for every number k of such crashes some run calls the provider exactly `maxSendAttempts` + k times. |
| `SendProtocol.LeaseExclusion` | apps/worker/internal/channel/sendloop.go:168-198 | At most one worker is between winning the lease and giving it up, and the key then holds that worker's own lease. |
| `SendProtocol.SettledForever` | apps/worker/internal/channel/sendloop.go:174-198 | Once a key holds a `dlq_pending`, sent or failed marker, no later run calls the provider for it, and the marker changes at most from a pending record to its matching terminal value. |
| `SendProtocol.OneDeadLetter` | apps/worker/internal/channel/dlq_pending.go:32-41 | All persistence attempts of a key carry one record, so one failure id; the marker is committed at most once, exactly when the key reads `failed` with an exhausted class, and then the record is stored. |
| `SendProtocol.PendingIsResumable` | apps/worker/internal/channel/dlq_pending.go:68-87 | Whoever reads a pending marker passes the field checks and goes on to persist that very record. |
| `SendProtocol.AcknowledgedVerdicts` | apps/worker/internal/channel/sendloop.go:174-198 | Any two acknowledged results of one key, however far apart in a run, carry the same verdict, and an exhausted one is acknowledged only after its dead letter was stored. |
| `SendProtocol.RowlessAck` | apps/worker/internal/channel/sendloop.go:183-194 | A message is acknowledged without a row only when the log already holds a row for it. |
| `SendProtocol.EveryRunKeepsInv` | apps/worker/internal/channel/sendloop.go:115-262 | The invariant behind these results holds after every sequence of commands, crashes, lease expiries and flushes. |
| `SendProtocol.StepLeavesOthers` | apps/worker/internal/channel/sendloop.go:163-262 | One worker's command never takes from another what that one relies on: its lease, its counter, its pending record. |
| `SendSolo.EveryCommandProgresses` | apps/worker/internal/channel/sendloop.go:163-262 | Every command brings its handler closer to its end, whatever the answers are. |
| `SendSolo.AloneIsHandleOne` | apps/worker/internal/channel/sendloop.go:117-262 | From every reachable state, a worker left alone ends with exactly the outcome, keys, provider calls and dead-letter record that the decision table gives for the keys it started from. |
| `SendWorker.KeyStore.HandleOne` | apps/worker/internal/channel/sendloop.go:117-262 | The handler, with other workers interleaved before each command, is a run of the protocol, ends having returned, and calls the provider at most once; an unparsable message is acknowledged and touches nothing. |
| `SendWorker.KeyStore.Work` | apps/worker/internal/channel/sendloop.go:163-182 | Back-off, lease acquisition and the two ways on: every path returns and extends the history only by protocol steps. |
| `SendWorker.KeyStore.SetNX` | apps/worker/internal/channel/sendloop.go:168-174 | The lease is taken exactly when the key is absent. |
| `SendWorker.KeyStore.Attempt` | apps/worker/internal/channel/sendloop.go:224-262 | From the won lease to the return the provider is called once exactly when the budget is not exhausted and credentials are found; an exhausted budget ends with the key fenced by a dead letter of that count. |
| `SendWorker.KeyStore.RetryFail` | apps/worker/internal/channel/sendloop.go:205-223 | A transient failure calls no provider and raises the counter by one. Below the limit the lease is gone and the back-off is the answer's or the table's; at the limit the key is fenced by a dead letter of that class and count. |
| `SendWorker.KeyStore.Settle` | apps/worker/internal/channel/sendloop.go:200-249 | A verdict is written under the key and both counters are cleared; nothing that others do meanwhile moves it. |
| `SendWorker.KeyStore.ResumeDLQ` | apps/worker/internal/channel/dlq_pending.go:68-99 | Check, persist, compare-and-set: a result is returned without retry only after persistence and commit, with the row of the record. |
| `SendWorker.KeyStore.MarkPending` | apps/worker/internal/channel/dlq_pending.go:58-65 | The marker replaces exactly the caller's own lease. |
| `SendWorker.KeyStore.CommitDLQ` | apps/worker/internal/channel/dlq_pending.go:88-97 | The terminal marker replaces exactly the pending marker that was read, and clears both counters; otherwise nothing changes and the item stays pending. |
| `SendWorker.KeyStore.Duplicate` | apps/worker/internal/channel/sendloop.go:174-198 | A key already taken never leads to a provider call; what is acknowledged is the terminal verdict under the key. |
| `SendWorker.OthersRespectLease` | apps/worker/internal/channel/sendloop.go:163-182 | While a worker is between winning its lease and giving it up, no schedule of the others changes the key, its counter or its back-off. |
| `SendWorker.FenceStays` | apps/worker/internal/channel/dlq_pending.go:32-41 | A key fenced with a dead letter stays fenced with it, until it reads that letter's own verdict. |
| `SendWorker.OthersLeaveMe` | apps/worker/internal/channel/sendloop.go:163-262 | Whatever the other workers do, a handler stays where it is and log and dead-letter store only grow. |
| `SendBatch.ReturnedIsOwed` | apps/worker/internal/channel/sendloop.go:134-137 | What a handler returns for acknowledgement is backed by a row that is, or is about to be, in the log. |
| `SendBatch.OwedStays` | apps/worker/internal/channel/send_batch.go:18-32 | That debt, once established, survives everything that happens before the flush and after it. |
| `SendBatch.SendLoop.ProcessSendBatch` | apps/worker/internal/channel/send_batch.go:13-34 | For a batch with any idempotency keys: a failed flush or acknowledgement removes nothing from the pending set; otherwise exactly the messages not to be retried leave it, and each that parsed is accounted for by a durable row. |
| `SendBatch.SendLoop.FlushLog` | apps/worker/internal/channel/sendloop.go:283-301 | The rows of the batch reach the log of every key, whatever other workers do meanwhile. |
| `DlqMarker.EscapeGrowsSixfold` | apps/worker/internal/channel/dlq_pending.go:53-57 | JSON escaping makes any bytes at most six times as long. |
| `DlqMarker.EscapeRoundTrip` | apps/worker/internal/channel/dlq_pending.go:53-78 | A written JSON string reads back as the text with invalid bytes replaced, up to exactly its closing quote. |
| `DlqMarker.DetailIsBounded` | apps/worker/internal/channel/dlq_pending.go:50-52 | However long and whatever a failure detail is, its written form stays under a fixed number of bytes. |
| `DlqMarker.MarkersReadBack` | apps/worker/internal/channel/dlq_pending.go:49-83 | A marker written with the classes and counts the loop passes in is readable exactly when it is at most 8192 bytes, and then yields what was written. |
| `DlqMarker.MarkersFit` | apps/worker/internal/channel/dlq_pending.go:49-83 | With a message id of at most 300 bytes, a UUID in particular, every marker fits and passes every check. |
| `InAppTheorems.CapsHoldAtAuthorization` | apps/api/src/in-app/delivery.service.ts:158-197 | Caps checked at the reservation hold at the authorization: total, local day (even across midnight), one per session, cooldown. |
| `InAppTheorems.OneOpenDelivery` | apps/api/src/in-app/delivery.service.ts:86-129 | At most one delivery of an installation is reserved, authorized or presented. |
| `InAppTheorems.OneDeliveryPerRequest` | apps/api/src/in-app/delivery.service.ts:99-118 | A request key of an installation belongs to one delivery. |
| `InAppTheorems.AuthorizationsSpaced` | apps/api/src/in-app/delivery.service.ts:172-178 | Any two authorizations of one installation are at least 30 seconds apart. |
| `InAppTheorems.DisplayedIsCurrent` | apps/api/src/in-app/delivery.service.ts:241-277 | Whatever is authorized or presented belongs to a campaign now published at exactly that version, with the config it was published with, even when the decision read the campaign before a pause or republication. |
| `InAppTheorems.PresentedWasAuthorized` | apps/api/src/in-app/delivery.service.ts:359-371 | Presented or completed implies an authorization time and a stored presented event. |
| `InAppTheorems.RevokedStaysShut` | apps/api/src/in-app/delivery.service.ts:428-437 | After both statements of revoke nothing of the installation is open, being decided, or can be reserved. |
| `InAppTheorems.ClosedIsForever` | apps/api/src/in-app/delivery.service.ts:405-418 | Closed deliveries never change again, and an authorization time is never moved or removed. |
| `InAppTheorems.OnlyAuthorizeGrants` | apps/api/src/in-app/delivery.service.ts:359-364 | Only the authorize transaction stamps an authorization, and only on a reserved delivery. |
| `InAppTheorems.VersionMeansOneConfig` | apps/api/src/in-app/campaign.service.ts:42-52 | What a campaign version was configured as never changes in any continuation. |
| `InAppSuppression.SuppressedIsNotReserved` | apps/api/src/in-app/delivery.service.ts:149-157 | While a suppression lasts, no decision that begins after it was stored reserves that campaign for the installation. |
| `InAppSuppression.ChosenBeforeIsReserved` | apps/api/src/in-app/delivery.service.ts:149-194 | A decision already under way reserves the suppressed campaign if and only if it had chosen it when the suppression was stored. |
| `InAppSuppression.HideCanBeMissed` | apps/api/src/in-app/delivery.service.ts:149-194 | A run in which that happens: a second hide extends the suppression between the decision's look and its insert. |
| `InAppSuppression.AloneChoosesTheFirst` | apps/api/src/in-app/delivery.service.ts:136-197 | A decision that nobody interrupts chooses the first candidate that passes all tests, or none if none passes or an authorization was too recent. |
| `InAppProtocol.DecisionMoves` | apps/api/src/in-app/delivery.service.ts:86-197 | Only its own look moves a decision, and only its own commit or abort releases it, whatever the others do. |
| `InAppSuppression.StepKeepsSuppressions` | apps/api/src/in-app/delivery.service.ts:400-403 | No step shortens or removes a suppression. |
| `InAppSafety.EveryRunKeepsInv` | apps/api/src/in-app/delivery.service.ts:80-438 | The invariant behind these results holds after every sequence of transactions, with decide and revoke split where the code holds no lock. |
| `InAppSafety.EligibleHasRoom` | apps/api/src/in-app/delivery.service.ts:136-178 | What the loop tests before a reservation is exactly the room that the later authorization needs. |
| `InAppSafety.ReportKeeps` | apps/api/src/in-app/delivery.service.ts:310-427 | Late, repeated and out-of-order events keep every invariant; they never grant display. |
| `InAppSafety.PausedKeeps` | apps/api/src/in-app/campaign.service.ts:187-196 | Pausing cancels the open deliveries of the campaign and bumps its version without breaking the invariant. |
| `InAppSafety.LookKeepsDeciding` | apps/api/src/in-app/delivery.service.ts:136-178 | What a look chooses has room under every cap at that moment, and keeps it until the insert. |
| `InAppService.Service.Save` | apps/api/src/in-app/campaign.service.ts:42-52 | Saving needs the expected version and an unpublished campaign, and gives the config a new version. |
| `InAppService.Service.Transition` | apps/api/src/in-app/campaign.service.ts:153-197 | Publishing records the reviewed config under the current version once; pausing bumps the version and cancels the open deliveries, in one transaction. |
| `InAppService.Service.DecideBegin` | apps/api/src/in-app/delivery.service.ts:86-135 | Revocation, reused request keys, the delivery a repeated request gets again, expiry of overdue deliveries and the one-open-delivery test, then the unlocked read of the campaigns. |
| `InAppService.Service.Look` | apps/api/src/in-app/delivery.service.ts:136-178 | The loop body with its early exits is one look of the protocol and leaves fewer candidates. |
| `InAppService.Service.Decide` | apps/api/src/in-app/delivery.service.ts:80-206 | The whole decision, with any other transactions before each look and before the insert, is a run of the protocol in which it takes only looks and then its commit, or its abort on a reused id. |
| `InAppService.Service.Authorize` | apps/api/src/in-app/delivery.service.ts:228-286 | Authorization re-checks revocation, publication, version, window and expiry, stamps once, and is repeatable. |
| `InAppService.Service.Event` | apps/api/src/in-app/delivery.service.ts:334-419 | Duplicate, late, unauthorized and unpresented reports are refused as written; accepted ones store the event, extend suppressions and move the state. |
| `InAppService.Service.Accepts` | apps/api/src/in-app/delivery.service.ts:355-387 | The refusals of a new report, in order, are exactly those of the protocol. |
| `InAppService.Service.Revoke` | apps/api/src/in-app/delivery.service.ts:428-437 | Revoke is two statements with anything in between. |
| `JourneyValidation.CollectNodes` | packages/journey-model/src/validation.ts:138-143 | No issue exactly when all ids are valid and distinct; the table holds exactly the valid ids. |
| `JourneyValidation.CheckEdges` | packages/journey-model/src/validation.ts:146-161 | No issue exactly when every edge fits and ids and outputs are unique; the adjacency table lists each node's targets in order. |
| `JourneyValidation.CheckPorts` | packages/journey-model/src/validation.ts:162-164 | No issue exactly when every output port of every node has an edge. |
| `JourneyValidation.CountIncoming` | packages/journey-model/src/validation.ts:166-167 | The initial in-degree of a node is the number of edges into it, repeats counted. |
| `JourneyValidation.FinishNode` | packages/journey-model/src/validation.ts:169-173 | Finishing a node takes its edges off and queues exactly the nodes that have none left. |
| `JourneyValidation.Kahn` | packages/journey-model/src/validation.ts:166-173 | The queue ends as a topological order of distinct nodes to which nothing could be added. |
| `Digraph.CoversIffAcyclic` | packages/journey-model/src/validation.ts:166-174 | Such an order covers all nodes exactly when they lie on no cycle and no edge enters them from outside; parallel edges and self-loops included. |
| `Digraph.WalksAreShort` | packages/journey-model/src/validation.ts:165-174 | Without a cycle no walk repeats a node, so walks are no longer than the number of nodes. |
| `JourneyGraph.Reach` | packages/journey-model/src/validation.ts:175-181 | The search ends on every graph and marks exactly what is reachable from the start. |
| `JourneyGraph.ValidateGraph` | packages/journey-model/src/validation.ts:136-183 | Silent exactly on well-formed graphs; the cycle issue and each unreachable issue appear exactly when they should. |
| `JourneyGraph.StrayEdgeIsReportedAsCycle` | packages/journey-model/src/validation.ts:166-174 | An edge from a source that is no node makes the cycle issue appear although there is no cycle. |
| `JourneyGraph.EveryRunEnds` | packages/journey-model/src/validation.ts:165-182 | In a graph without issues no choice of ports gets stuck or repeats a node, and every run ends within as many steps as nodes. |
| `JourneyGraph.OneWayOut` | packages/journey-model/src/validation.ts:157-164 | At each node and port of a graph without issues exactly one edge leaves. |
| `JourneyAdapter.AdapterIsWellFormed` | packages/journey-model/src/index.ts:103-117 | A version-1 list of messages and delays becomes an accepted graph exactly when its ids are valid and distinct; always when it has none. |
| `JourneyAdapter.AdapterKeepsTheList` | packages/journey-model/src/index.ts:103-117 | Every run through the adapted graph visits the original nodes in order, kinds unchanged, and ends right after the last. |
| `JourneyAdapter.TheWholeListRuns` | packages/journey-model/src/index.ts:103-117 | The run through the whole list exists. |
| `JourneyAdapter.FreshIdsAreOk` | packages/journey-model/src/index.ts:110 | Generated ids are valid and distinct for every array length. |
| `Decimals.DecimalInjective` | packages/journey-model/src/index.ts:110-114 | Different numbers have different decimal texts. |
| `JourneyChecks.CheckVariants` | packages/journey-model/src/validation.ts:115-122 | No error exactly for 2 to 4 variants with distinct nonblank ids, labels, and weights of 1 to 100 that make 100. |
| `JourneyChecks.CheckContent` | packages/journey-model/src/validation.ts:78-103 | No error exactly when one channel is filled and its required content is there. |
| `JourneyChecks.ValidateJourney` | packages/journey-model/src/validation.ts:61-134 | Errors exactly when the definition must not be published; warnings never count. |
| `JourneyChecks.AdapterKeepsValidity` | packages/journey-model/src/index.ts:103-117 | A version-1 definition and its graph are publishable in the same cases, up to ids and the longest re-entry wait. |
| `JourneyPublication.CollectPublishedABNodes` | packages/journey-model/src/published.ts:3-11 | For every id the variants of its first published split, and nothing else. |
| `JourneyPublication.ValidatePublishedABNodes` | packages/journey-model/src/published.ts:14-24 | Exactly the nodes whose split was published with another ordered allocation are reported. |
| `JourneyPublication.AgreeingStaysFrozen` | packages/journey-model/src/published.ts:13-24 | Comparing with the first published allocation is enough to agree with every published one. |
| `JourneyPublication.AllocationIsFrozen` | apps/api/src/journeys/journeys.controller.ts:186-202 | In every history all published versions with a split id carry the same ordered ids and weights for it. |
| `JourneyPublication.VersionsAreCounted` | apps/api/src/journeys/journeys.controller.ts:188-207 | Versions are exactly 1..n, the active one is the latest, and published definitions never change. |
| `JourneyPublication.ArchivedIsForever` | apps/api/src/journeys/journeys.controller.ts:247-258 | An archived journey never changes again. |
| `JourneyPublication.ActivationPublishesTheSeenDraft` | apps/api/src/journeys/journeys.controller.ts:180-202 | An activation publishes exactly the draft whose revision the caller gave, under a new highest version. |
| `JourneyPublication.PublishedRunsEnd` | apps/api/src/journeys/journeys.controller.ts:186-202 | In every published graph every run ends within as many steps as nodes. |
| `JourneyPublication.EveryHistoryKeepsInv` | apps/api/src/journeys/journeys.controller.ts:115-273 | Over every history each blast version has exactly one entry job and every version was publishable. |
| `JourneyPublication.JourneyRecord.DefinitionIssues` | apps/api/src/journeys/journeys.controller.ts:352-359 | Errors exactly when the definition is not publishable against the published history. |
| `JourneyPublication.JourneyRecord.UpdateDraft` | apps/api/src/journeys/journeys.controller.ts:125-132 | Only drafts and paused journeys can be edited. |
| `JourneyPublication.JourneyRecord.ActivateVersion` | apps/api/src/journeys/journeys.controller.ts:171-217 | Status, revision, issues, numbering, snapshot and entry job in one transaction, or no change. |
| `JourneyPublication.JourneyRecord.PauseJourney` | apps/api/src/journeys/journeys.controller.ts:227-236 | Only an active journey can be paused. |
| `JourneyPublication.JourneyRecord.ArchiveJourney` | apps/api/src/journeys/journeys.controller.ts:238-258 | Archiving works from every status. |
| `SegmentCompiler.Params.JsonExtract` | packages/segment-dsl/src/index.ts:213-221 | The text and the pushed arguments are those of the extraction, with three arguments for promoted keys. |
| `SegmentCompiler.Params.CompileAttribute` | packages/segment-dsl/src/index.ts:213-264 | Succeeds exactly on supported attribute conditions and pushes each value in the order of its placeholder. |
| `SegmentCompiler.Params.CompileChannel` | packages/segment-dsl/src/index.ts:266-286 | Succeeds exactly on supported channel conditions with whitelisted platforms. |
| `SegmentCompiler.Params.CompileEvents` | packages/segment-dsl/src/index.ts:303-314 | The scope is bound twice, first for the merge map inside the join, then for the events, in text order. |
| `SegmentCompiler.Params.CompileEvent` | packages/segment-dsl/src/index.ts:299-340 | Succeeds exactly on supported event conditions; first and last use the window as a bound, not as a filter. |
| `SegmentCompiler.Params.CompileGroup` | packages/segment-dsl/src/index.ts:178-190 | Empty groups and unknown operators fail; otherwise the conditions are joined in order inside parentheses. |
| `SegmentCompiler.Compile` | packages/segment-dsl/src/index.ts:150-176 | Succeeds exactly on supported segments; text and arguments are those of the bound text, whatever was pushed when. |
| `SegmentReading.SplitThrough` | packages/segment-dsl/src/index.ts:150-190 | Splitting at a connective passes through text that exposes none or lies inside parentheses. |
| `SegmentReading.ReadJoin` | packages/segment-dsl/src/index.ts:150-190 | Reading joined conditions gives the connective over their readings. |
| `SegmentReading.ConditionIsShut` | packages/segment-dsl/src/index.ts:213-340 | No condition text exposes a connective, and every one but push reachability is a single leaf. |
| `SegmentReading.SegmentReadsAsWritten` | packages/segment-dsl/src/index.ts:150-190 | Read with AND binding tighter than OR, the WHERE text is tenant and app and active and the top operator over the groups' operators over their conditions; it compiles exactly when supported. |
| `SegmentReading.CompiledTextMeansTheSegment` | packages/segment-dsl/src/index.ts:150-190 | Under every truth assignment of its leaves the text is true exactly when the segment holds. |
| `SegmentText.ScanFindsTokens` | packages/segment-dsl/src/index.ts:150-190 | Scanning the printed characters, quotes aside, finds exactly the connectives, parentheses and placeholders that were put there, and nothing else. |
| `SegmentText.PrintedTextReadsAsWritten` | packages/segment-dsl/src/index.ts:150-340 | The printed WHERE text, scanned and read character by character, is the segment's tree: no word, quoted value or placeholder hides or adds a connective or a parenthesis. |
| `SegmentReading.ArgumentsBindInOrder` | packages/segment-dsl/src/index.ts:138-144 | Binding the k-th placeholder to the k-th argument gives back the bound text. |
| `ClickHouseQuery.ToClickHouse` | packages/segment-dsl/src/index.ts:85-105 | Fails exactly when marks and arguments differ in number; the parameters are the arguments under distinct names. |
| `ClickHouseQuery.CompiledQueriesRewrite` | packages/segment-dsl/src/index.ts:85-105 | On compiler output it never fails, and each value stands, by parameter name and type, at the place it was written for. |
| `ReceiptSafety.EveryRunKeepsInv` | apps/api/src/ingestion/event-receipts.ts:38-152 | The invariant behind the receipt results holds in every interleaving of transactions, aborts and customer changes. |
| `ReceiptTheorems.ReceiptsNeverChange` | apps/api/src/ingestion/event-receipts.ts:11-15 | A committed receipt, its customer, number, event and time never change, nor does its job. |
| `ReceiptTheorems.NumbersHaveNoGaps` | apps/api/src/ingestion/event-receipts.ts:108-137 | Each customer's receipts carry exactly 1..cursor, once each and in order of receipt time, and every receipt has its one matching job. |
| `ReceiptTheorems.CommitRegistersTheBatch` | apps/api/src/ingestion/event-receipts.ts:48-66 | After a commit every event of the batch has a receipt; a new one is the first event with its folded id, for an active customer. |
| `ReceiptTheorems.CommitKeepsBatchOrder` | apps/api/src/ingestion/event-receipts.ts:104-115 | Within a batch a customer's numbers follow the batch order. |
| `ReceiptTheorems.NothingNewMeansAllKnown` | apps/api/src/ingestion/event-receipts.ts:66-70 | A transaction that ends early found a receipt for every event of its batch. |
| `ReceiptDeadlock.NoDeadlockIffApart` | apps/api/src/ingestion/event-receipts.ts:56-94 | For every collation and every set of identities: over all runs of requests that name only these, some transaction under way can always take its next step if and only if the sort gives different identities of the set different places. |
| `ReceiptDeadlock.SomeoneCanGoOn` | apps/api/src/ingestion/event-receipts.ts:56-94 | In any reachable state in which the identities that wait to be registered stand apart in the sort, some transaction under way can take its next step: event locks, inserted identities and customer cursors are each taken in ascending order. |
| `ReceiptDeadlock.TiesDeadlock` | apps/api/src/ingestion/event-receipts.ts:73-79 | For any two different identities at the same place of the sort, a run of two requests with opposite batch orders deadlocks; when one is aborted, the other goes on. |
| `ReceiptDeadlock.TwoSpellingsDeadlock` | apps/api/src/ingestion/event-receipts.ts:73-79 | The input: an external id with a letter and its accent as one character, and the same with two; `localeCompare` must treat them as equal, the unique index does not. |
| `ReceiptSafety.UniqueIsFirst` | apps/api/src/ingestion/event-receipts.ts:51-55 | What is kept of a batch is the first event of each id, folded. |
| `ReceiptSafety.CommitLeavesTx` | apps/api/src/ingestion/event-receipts.ts:56-99 | A commit disturbs no other transaction: neither what it found missing nor the numbers it wrote. |
| `ReceiptService.ResolvingFollowsMerges` | apps/api/src/ingestion/event-receipts.ts:177-186 | Resolving yields a customer exactly when the merges lead to it and it is active; on circles it fails. |
| `ReceiptService.ReceiptDb.FollowMerges` | apps/api/src/ingestion/event-receipts.ts:177-186 | The loop ends on every merge graph. |
| `ReceiptService.ReceiptDb.ResolveUser` | apps/api/src/ingestion/event-receipts.ts:161-187 | External before anonymous identity, inserted when unknown, then along the merges. |
| `ReceiptService.ReceiptDb.FirstOfEach` | apps/api/src/ingestion/event-receipts.ts:51-55 | The first event of each folded id, in order. |
| `ReceiptService.ReceiptDb.WriteReceipts` | apps/api/src/ingestion/event-receipts.ts:104-143 | One numbered receipt, one job and one cursor step per event, in order. |
| `ReceiptService.ReceiptDb.PersistOnce` | apps/api/src/ingestion/event-receipts.ts:38-152 | One transaction commits the whole new part of the batch for active customers, or leaves every table as it was. |
| `ReceiptService.ReceiptDb.PersistTrackReceipts` | apps/api/src/ingestion/event-receipts.ts:16-36 | At most three transactions; only a changed identity or a deadlock is followed by another, and any other failure ends at once with every table as it was. |
| `ReceiptService.CommitIsTheLoop` | apps/api/src/ingestion/event-receipts.ts:104-145 | In every interleaving a commit adds exactly what the loop writes when it runs alone on the rows of that moment, for the times of its writes; commits of others between its writes make no difference. |
| `LatencyHistogram.BoundOfOwnBucket` | apps/worker/cmd/loadgen/latency.go:38-50 | The bound of a value's own bucket is not below it and exceeds it by less than one bucket width. |
| `LatencyHistogram.BoundIsClose` | apps/worker/cmd/loadgen/latency.go:38-63 | A bucket bound is at least the duration and at most the duration times 1 + 1/1024 plus one microsecond. |
| `LatencyHistogram.BucketInRange` | apps/worker/cmd/loadgen/latency.go:13-16 | Every duration up to 60 seconds has an index inside the array. |
| `LatencyHistogram.IndexGrows` | apps/worker/cmd/loadgen/latency.go:38-41 | Longer durations never fall into earlier buckets. |
| `LatencyHistogram.RankedBucket` | apps/worker/cmd/loadgen/latency.go:79-84 | The first bucket whose running count reaches a rank is the bucket of the sample of that rank. |
| `LatencyHistogram.SomeSampleIsRanked` | apps/worker/cmd/loadgen/latency.go:77 | Every rank from 1 to the count is held by some sample. |
| `LatencyHistogram.NothingIsLost` | apps/worker/cmd/loadgen/latency.go:52-64 | Buckets and overflow together count every sample. |
| `LatencyHistogram.LatencyRecorder.Record` | apps/worker/cmd/loadgen/latency.go:52-64 | Each recording adds one sample; the counts stay those of the samples. |
| `LatencyHistogram.LatencyRecorder.Percentile` | apps/worker/cmd/loadgen/latency.go:73-86 | The reported percentile is at least the ranked sample, at most the maximum, and close unless the sample overflowed. |
| `TokenBucket.TokensStayInRange` | apps/api/src/rate-limit/rate-limit.service.ts:16-34 | With a clock that does not go back, the stored tokens lie between 0 and the burst. |
| `TokenBucket.InRangeIffCovered` | apps/api/src/rate-limit/rate-limit.service.ts:16-34 | From an amount in range, one request leaves it in range if and only if the bucket covers the time by which the clock went back. |
| `TokenBucket.RunsStayInRangeIffCovered` | apps/api/src/rate-limit/rate-limit.service.ts:16-34 | Over any requests the amount never leaves its range if and only if every backward step of the clock was covered by the bucket it found. |
| `TokenBucket.BackwardClocksOverdraw` | apps/api/src/rate-limit/rate-limit.service.ts:23 | A run of two requests in which it is not covered: the bucket ends ten tokens below nothing. |
| `TokenBucket.AdmissionIsBounded` | apps/api/src/rate-limit/rate-limit.service.ts:16-34 | What is admitted in any stretch of requests is at most the burst plus what the time refills. |
| `TokenBucket.EvictionsDoNotMatter` | apps/api/src/rate-limit/rate-limit.service.ts:34-35 | Evicting a key after its idle time changes no decision and no later state. |
| `TokenBucket.RetryAfterIsExact` | apps/api/src/rate-limit/rate-limit.service.ts:27-32 | A rejected request repeated alone is admitted exactly when it costs no more than a burst and the reported wait has passed. |
| `TokenBucket.RateLimiter.TakeTokens` | apps/api/src/rate-limit/rate-limit.service.ts:9-37 | The script, as one step on the stored bucket. |
| `TokenBucket.RateLimiter.Check` | apps/api/src/rate-limit/rate-limit.service.ts:64-107 | Layers are charged in turn up to the first refusal; later ones stay untouched, and an admission reports the tightest layer, the first of equals. |
| `Bootstrap.OneWorkspace` | apps/api/src/auth/bootstrap.service.ts:156-203 | Over every run at most one workspace is created, and there is one exactly when the installation is secured. |
| `Bootstrap.SecuredIsForever` | apps/api/src/auth/bootstrap.service.ts:75-101 | Once secured, row and workspaces never change again. |
| `Bootstrap.LeaseIsExclusive` | apps/api/src/auth/bootstrap.service.ts:126-154 | Until a lease runs out only a new setup token or the setup itself ends it; other claims fail. |
| `Bootstrap.OnlyTheHolderCompletes` | apps/api/src/auth/bootstrap.service.ts:179-194 | Only the cookie that holds an unexpired lease completes the setup, and no lease outlives 15 minutes. |
| `Bootstrap.SupersededCookiesAreUseless` | apps/api/src/auth/bootstrap.service.ts:83-91 | A cookie superseded by a rotation or a later claim never again completes, replays, extends or reads anything. |
| `Bootstrap.ExpiredLeasesStayExpired` | apps/api/src/auth/bootstrap.service.ts:206-225 | A lease that ran out is never revived. |
| `Bootstrap.ReplaysReturnTheStoredResult` | apps/api/src/auth/bootstrap.service.ts:170-178 | After the setup exactly the same cookie, key and request get the stored result, until the lease would have ended. |
| `Bootstrap.EveryRunKeepsInv` | apps/api/src/auth/bootstrap.service.ts:75-225 | The row is consistent in every reachable state. |
| `Bootstrap.Installation.EnsureInstallation` | apps/api/src/auth/bootstrap.service.ts:75-101 | A new token rotates and drops every lease unless secured. |
| `Bootstrap.Installation.ClaimLease` | apps/api/src/auth/bootstrap.service.ts:126-154 | The refusals in order, then a lease bound to the new cookie. |
| `Bootstrap.Installation.CompleteSetup` | apps/api/src/auth/bootstrap.service.ts:160-203 | Replay, refusal, rollback or completion, as one locked transaction. |
| `Bootstrap.Installation.ExtendLease` | apps/api/src/auth/bootstrap.service.ts:206-225 | Only the holder of an unexpired lease extends it. |
| `Bootstrap.Installation.SetupResult` | apps/api/src/auth/bootstrap.service.ts:228-236 | The stored result for the same cookie and key inside the lease. |
| `LoadAccounting.FinishedRunsBalance` | apps/worker/cmd/loadgen/main.go:399-420 | At the end of every run, late and cancelled ones included, scheduled = expected = enqueued + dropped, enqueued = started = the four outcomes, and each request has exactly one fate. |
| `LoadAccounting.TenantRowsBalance` | apps/worker/cmd/loadgen/tenants.go:109-140 | Each tenant's row counts its own requests; what it did not start was dropped. |
| `LoadAccounting.QuotaCounts` | apps/worker/cmd/loadgen/tenants.go:98-107 | A tenant's quota is the number of requests assigned to it round robin. |
| `LoadAccounting.QuotasSumUp` | apps/worker/cmd/loadgen/tenants.go:98-107 | The quotas add up to the whole run. |
| `LoadAccounting.FinishedRunsPassTheGates` | apps/worker/cmd/loadgen/main.go:562-579 | The accounting gates never fire on a finished run. |
| `LoadAccounting.EvaluateAccounting` | apps/worker/cmd/loadgen/main.go:562-579 | No violation exactly when the books of the run and of every tenant balance. |
| `LoadAccounting.OffsetIsTheQuotient` | apps/worker/cmd/loadgen/main.go:452-454 | The split form of the offset equals the plain quotient. |
| `LoadAccounting.OffsetsStayIn64Bits` | apps/worker/cmd/loadgen/main.go:452-454 | In a run whose duration fits in 64 bits, both products of the split form and their sum fit too. |
| `LoadAccounting.OffsetsLieInTheWindow` | apps/worker/cmd/loadgen/main.go:272-279 | Every scheduled request starts inside the window, in order. |
| `LoadAccounting.EveryRunKeepsInv` | apps/worker/cmd/loadgen/main.go:352-415 | The counters and tenant rows are right at every moment of every interleaving. |
| `LoadAccounting.LoadGenerator.constructor` | apps/worker/cmd/loadgen/tenants.go:98-107 | The tenants start with their quotas and the run with its initial books. |
| `LoadAccounting.LoadGenerator.TryEnqueue` | apps/worker/cmd/loadgen/main.go:476-486 | A full queue drops, a free place enqueues; both are one scheduling step of the run. |
| `LoadAccounting.LoadGenerator.Produce` | apps/worker/cmd/loadgen/main.go:399-415 | With the workers running between its steps, the producer is a run of the protocol: offers up to the first request that is late or cancelled, which drops itself and all later ones, and then the close. |
| `LoadAccounting.LoadGenerator.TakeJob` | apps/worker/cmd/loadgen/main.go:356-362 | Receiving the oldest request counts it as started, for the run and its tenant. |
| `LoadAccounting.LoadGenerator.FinishJob` | apps/worker/cmd/loadgen/main.go:372-394 | Each outcome is counted once, for the run and its tenant. |
| `LoadAccounting.LoadGenerator.RunLoad` | apps/worker/cmd/loadgen/main.go:356-420 | A whole run with any interleaving: once the workers are done, all books balance. |
| `LoadAccounting.LoadGenerator.RecordForTenant` | apps/worker/cmd/loadgen/tenants.go:109-131 | The tenant of a request is its number modulo the tenants. |

## Left out

- `SendProtocol.LeaseExclusion`: assumes that a live handler finishes within its lease; a lease expires only after its owner crashed, because the terminal writes are not fenced.
- `SendProtocol.RetryBudget`: assumes that markers and counters do not reach their seven-day expiry and that Redis commands either take effect or the worker crashes.
- `SendBatch.SendLoop.ProcessSendBatch`: every key that a batch names has a store, which is in its initial state when the key was never used; an acknowledgement succeeds for the whole batch or not at all.
- `SendProtocol.PendingIsResumable`: compares the record's fields; the bytes of the marker and their limit of 8192 are in `DlqMarker`, where ids of up to 300 bytes always fit.
- `SendSolo.AloneIsHandleOne`: one answer per kind of outside call, which is all a handler ever asks for.
- `DlqMarker.MarkersReadBack`: reads the fields in the order in which they are written and the UUID in its canonical form; other JSON layouts and surrogate pairs in escapes are not modelled.
- `InAppTheorems.AuthorizationsSpaced`: authorize and event happen at one instant each; the transaction clock of decide is kept apart from the wall clock, those of the others are not.
- `InAppService.Service.DecideBegin`: the HTML artifact in the answer, and the limits of 100 campaigns and 100 candidates, are not modelled. The decision's clock is read when it holds the installation's lock; PostgreSQL reads it at BEGIN, before the wait for that lock, and an earlier clock makes the tests of caps, spacing and suppressions stricter.
- `JourneyChecks.ValidateJourney`: branch conditions are valid or not, without their fields; weights and durations are whole numbers; text is Unicode code points.
- `JourneyPublication.JourneyRecord.ArchiveJourney`: journey states and node executions that archiving ends belong to the journey engine.
- `SegmentCompiler.Compile`: the text is made of words, quoted texts, parentheses, connectives and placeholders; a numeric list item carries its own text.
- `SegmentReading.CompiledTextMeansTheSegment`: what a single ClickHouse expression means is left to its truth assignment.
- `ReceiptDeadlock.SomeoneCanGoOn`: covers event locks, inserted identities and cursors; all servers collate alike, an anonymous id has one spelling, and profile rows are otherwise locked only for single updates.
- `ReceiptService.ReceiptDb.PersistOnce`: one transaction with nothing in between (`CommitIsTheLoop` is the interleaved case); device, last-seen times and receipt text formats are not modelled, and identities are resolved in batch order.
- `LatencyHistogram.LatencyRecorder.Percentile`: the percentile is a fraction of whole numbers, and counters do not wrap at 64 bits.
- `TokenBucket.RetryAfterIsExact`: tokens are real numbers, without floating-point rounding.
- `LoadAccounting.OffsetsLieInTheWindow`: the planned number of requests is computed exactly instead of in floating point.
- `LoadAccounting.EvaluateAccounting`: the gates on rates, latency and drop ratio compare numbers with limits and are not modelled.
- `LoadAccounting.EveryRunKeepsInv`: a counter and the row of its tenant change in one step; the code updates them one after the other.
- `Bootstrap.Installation.CompleteSetup`: creating the workspace is one insert that may fail; accounts, keys and passwords are not modelled.
- Queue transport, trimming and reclaim timing of `packages/libqueue-go`: a message may be delivered any number of times.
- Provider clients and the mapping from HTTP answers to failure classes: the class is an arbitrary answer.
- Dead-letter replay, reconciliation, migration, seeding and monitoring tools: operator tools around the protocol.
- Compilation of in-app bundles and the bridge script: dominated by HTML and CSS parsers.
- One-time passwords, envelope encryption and hashing: cryptography.
- Calendar rules of time zones: a day start per zone that never moves backwards.
- Console, documentation sites, request schemas, roles, listing endpoints, analytics and health checks: no state of their own worth a proof.
