# Verified model of the trust core

A Dafny 4.11 model of the code that decides what may run, what may spend and what may take effect: the cost gate, the
task router, the approval queue with earned autonomy, and the state machines beside them (schedule reconciliation, the
Redis error circuit breaker, approval-gated chains, data encryption keys, credential refresh, just-in-time Hands tools,
the signup extraction batch). `dafny verify dfyconfig.toml` checks all of it.

## How it is built

Code that changes objects in place is a class whose methods are proved against functions on values (`ReservationLedger`,
`ReservationStore`, `CostGate`, `AutonomyStore`, `ApprovalStore`, `ApprovalQueue`, `DedupStore`, `Router`, `BatchStore`,
`Registry`, `CircuitBreaker`, `DekRecordStore`, `DekStore`, `HandsKeyStore`, `RefreshingVault`); pure code is functions and lemmas. Where
several calls race, the same functions are the steps of a machine: each asynchronous method is cut at its awaits, the
parts of different calls interleave in any order, and any call may throw or lose its process between two parts. A run is
any sequence of steps; a step that is not due, or that a store refuses, changes nothing. A store that commits and then
fails to answer is the step followed by the end of its call; the methods that run alone take a `Link`: heard from, not
carried out, or carried out but never heard from.

- Money: `Sums`, `Pricing`, `Gate`, `Reservations`, `DurableStore`, `CostGate`, `TwoTier`, `Refusals`, `Extraction`.
- Tasks: `Tagging`, `Autonomy`, `TaskProtocol`, `QueueProtocol`, `Stories` (both, written out), `ApprovalQueue` and `Router`
  (straight through), `TaskSystem` (all replicas and approvers at once), `Traces`, `TaskSafety`, `TaskHistory`,
  `TaskTheorems`, `TaskFacts` (what each event of any run means), `Executor`.
- Machines: `Schedule`, `CircuitBreaker`, `ChainEngine`, `Dek`, `Refresh`.

`TaskProtocol` says what one submission has done at each of its awaits (`SoFar`) and would do in full (`FullStory`).
`Router.SubmitTask` is proved to do exactly that when it runs alone, and `TaskSystem` runs any number of them at once over
shared stores; both are statements about the same functions. The gate appears in `TaskSystem` by its contract: an answer
carries a reservation exactly when the task may run, which is what `CostGate.EvaluateAndReserve` proves of the gate.

The lemmas named `...InFull` say what an operation does in the terms of its inputs alone: in the literal limits, ceilings,
ids and drafts, and not through the functions the operation is built from. The theorems about runs rest on those functions;
these lemmas say that the functions are the right ones.

## What the code does otherwise than its comments say

- A local "no" can be wrong. costGate.ts:88-92 says that the local ledger never overestimates. The durable company counter
  is per UTC month (durable/reservationStore.ts:42-63) and the local ledger never resets, so last month's spending still
  counts locally (`Refusals.NewMonthMakesLocalRefusalWrong`). Nor does it matter only what was spent: the Postgres store
  goes on checking the ceiling its row recorded, so after a tenant lowers its ceiling even a process that has counted
  nothing refuses what the store would admit (`Refusals.LoweredCeilingMakesLocalRefusalWrong`). For either store and any
  configuration, local refusals can be trusted exactly when the store's least room over the ceilings it checks is at most
  the local least room, or is below zero (`Refusals.RefusalsSoundIff`). `TwoTier.LocalTotalsAreExact` says by how much a
  local total differs from the durable one.
- An edited ceiling reaches the in-memory store at once and the Postgres store only with a new counter row
  (durable/reservationStore.ts:211-233): a row's recorded ceiling never changes (`DurableSpec.RecordedCeilingStays`), and
  only company rows (by the month) and task-type-day rows (by the day) are ever renewed (`DurableSpec.RowsRenewed`). The
  two stores admit the same amounts exactly when their least rooms are equal or both below zero
  (`DurableSpec.StoresAgreeIff`).
- reserveAtomic books the rows of the application's `utcDay()` (durable/reservationStore.ts:207), and settling and
  releasing move the rows of `created_at`'s day (:290, :307), by the database's clock. Over the turn of a day or a month
  one row keeps money that has left it, and another loses money it never held and then admits too much
  (`DurableSpec.MonthTurnMissesItsRow`). Counters stay balanced exactly when every resolution that changes an amount finds
  the two days equal (`DurableSpec.BalancedThroughoutIff`).
- In `runExtractionBatch`, once the settlement has taken hold, `release` can only throw: the batch then stays marked as
  running with its money spent, when `settle`'s own answer is lost as well as when `complete` fails; and when the gate
  throws after reserving, the money stays reserved (`Extraction.WhatIsLeft`). No reservation is ever both settled and
  released.
- A queued task is not always a budget signal (scheduledDispatchProcessor.ts:53-57): a stale price table or an unknown model
  queues too, whatever the ceilings (`Gate.RefusalIsAboutMoneyIff`).
- "Escalating backoff never exceeds this" (redisErrorCircuitBreaker.ts:36) holds exactly when the initial cooldown is
  within the maximum, because the first cooldown is not clamped (`BreakerSpec.NeverExceedsMaxIff`).
- `syncTenantSchedule` is idempotent exactly when no two desired jobs share an id at different rates, or else each sync
  undoes the last, and every desired id has the tenant's prefix, or else it is added again on each sync
  (`TenantScheduler.SecondSyncIsQuietIff`, `TenantScheduler.ConflictsOscillate`). Two tenants' slices are disjoint exactly
  when neither prefix extends the other (`TenantScheduler.SlicesAreDisjointIff`).
- handsTool.ts:49-53 says that every vault failure is caught and reported. A key lookup that throws and a handle that has
  expired before use are neither, so draft mode misses exactly those: the effect stays in place after a failed key exactly
  when the failure is one of these and nothing else was missing (`HandsExecutor.FailuresListedIff`,
  `HandsExecutor.DraftModeFailsIff`).
- `advanceChain` accepts a report for any step of a chain that is not over. It keeps the chain in order exactly when the
  report is on the current step, or repeats an approved gate while another waits (`ChainEngine.DirectAdvanceIsSafeIff`).

## Model

| member | source | states |
|---|---|---|
| Estimator.EstimateErrsUpward | packages/cost-gate/src/estimator.ts:21-61 | tokens cover the payload, prose is taken for 1200 and a short structure for 300; the bound the gate uses is 20% or 40% above the priced cost |
| Estimator.ShorterPayloadCostsNoMore | packages/cost-gate/src/estimator.ts:21-61 | a shorter payload never has a higher upper bound, and is priced whenever the longer one is |
| Gate.VerdictCharacterised | packages/cost-gate/src/gate.ts:53-129 | each verdict given exactly when: PROCEED iff affordable, DOWNGRADE iff only the same provider's model one tier down is, QUEUE on any estimator failure; a downgrade is strictly cheaper |
| Gate.VerdictInFull | packages/cost-gate/src/gate.ts:53-129 | from the table's date, its prices and the three caps: a stale table queues every request for that reason alone, an unlisted model queues, PROCEED iff the price is trusted and every cap leaves room; a refusal names the first level without room |
| Gate.RefusalIsAboutMoneyIff | apps/api/src/scheduler/scheduledDispatchProcessor.ts:53-60 | a QUEUE or SKIP is about ceilings iff the request could be priced |
| Gate.VerdictMonotone | packages/cost-gate/src/gate.ts:53-129 | raising ceilings, lower totals or a shorter payload never worsens the rank of the verdict |
| Gate.AffordableMonotone | packages/cost-gate/src/ceilings.ts:41-82 | what fits under stricter ceilings with more spent fits under looser ones with less |
| LedgerHistory.PoolsConserveMoney | packages/cost-gate/src/reservations.ts:22-98 | role totals and task-type totals each add up to the company total, for settled and for reserved money |
| LedgerHistory.EntryMovesPool | packages/cost-gate/src/reservations.ts:28-66 | writing one reservation moves a pool by exactly that reservation's part |
| Reservations.BumpKeepsCounters | packages/cost-gate/src/reservations.ts:41-50 | after the three in-place bumps the running counters are again the sums over the whole history |
| Reservations.UnsettledKeepsCounters | packages/cost-gate/src/reservations.ts:28-55 | reserving and releasing move no settled money |
| Reservations.ReservationLedger.Reserve | packages/cost-gate/src/reservations.ts:28-39 | the history gains exactly this reserved entry and the counters still match |
| Reservations.ReservationLedger.Settle | packages/cost-gate/src/reservations.ts:41-50 | settles a reserved entry at the actual cost; an unknown or resolved one is rejected and no field changes |
| Reservations.ReservationLedger.Release | packages/cost-gate/src/reservations.ts:52-55 | the same for releasing |
| Reservations.ReservationLedger.SumReserved | packages/cost-gate/src/reservations.ts:92-98 | the loop returns the reserved pool of the history |
| Reservations.ReservationLedger.ReadSpent | packages/cost-gate/src/reservations.ts:68-90 | the figures the ceiling check reads are settled plus reserved money of the history |
| DurableReservationStore.ReservationStore.ReserveAtomic | packages/cost-gate/src/durable/reservationStore.ts:115-146 | grants exactly when the company's month, the role, the task type and its day all leave room, by the passed configuration in memory and by the recorded ceiling in Postgres where there is a row; then all four rows and the reservation are written; otherwise nothing, and the first level without room is named |
| DurableReservationStore.ReservationStore.Settle | packages/cost-gate/src/durable/reservationStore.ts:273-293 | only an open reservation of this tenant; the rows of its recorded day, if there are any, move by actual minus reserved |
| DurableReservationStore.ReservationStore.Release | packages/cost-gate/src/durable/reservationStore.ts:295-309 | only an open reservation of this tenant; its amount leaves the rows of its recorded day |
| DurableSpec.AdmissionInFull | packages/cost-gate/src/durable/reservationStore.ts:65-128 | the four checks, in order, over the configuration's own fields, the daily cap being the task type's own or else the default |
| DurableSpec.ReserveInFull | packages/cost-gate/src/durable/reservationStore.ts:130-146 | exactly the four named rows gain the amount, new ones record the ceilings passed; no other row changes |
| DurableSpec.ResolveInFull | packages/cost-gate/src/durable/reservationStore.ts:148-198 | status, real cost, and the difference on the existing rows of the recorded day; no other row changes |
| DurableSpec.RefusedResolution | packages/cost-gate/src/durable/reservationStore.ts:273-309 | an unknown, another tenant's or a resolved reservation is not touched |
| DurableSpec.RunIsBalanced | packages/cost-gate/src/durable/reservationStore.ts:115-198 | in the in-memory store after any run, and in the Postgres store while the clocks agree at each reservation, every counter row equals the open and settled money of its scope |
| DurableSpec.BalancedThroughoutIff | packages/cost-gate/src/durable/reservationStore.ts:206-309 | counters equal the money behind them throughout a run iff every settlement or release that changes an amount finds its reservation recorded on the day it was booked |
| DurableSpec.RunIsAccounted | packages/cost-gate/src/durable/reservationStore.ts:206-309 | in every run a counter plus what resolutions moved past it is the open and settled money of its scope |
| DurableSpec.MonthTurnMissesItsRow | packages/cost-gate/src/durable/reservationStore.ts:206-309 | a run over the turn of a month with no overrun, after which a month under a $10 ceiling holds $20 |
| DurableSpec.SpendingBound | packages/cost-gate/src/durable/reservationStore.ts:206-271 | in every run, settled plus reserved money of every scope is at most its recorded ceiling plus the summed overruns plus what the two clocks made its counter lose sight of |
| DurableSpec.CeilingIsExact | apps/router/src/router.ts:131 | under fixed ceilings, when no settlement exceeds its reservation, no role or task type ever exceeds its ceiling, nor does a company month or task-type day while the clocks agree |
| DurableSpec.ConfiguredCapsHold | packages/cost-gate/src/durable/reservationStore.ts:65-80 | the same against the configuration itself: company month, role, task type, and the task type's own daily cap or the default |
| DurableSpec.RecordedCeilingStays | packages/cost-gate/src/durable/reservationStore.ts:211-233 | once a scope has a row in the Postgres store, no later operation of any run changes its ceiling |
| DurableSpec.RowsRenewed | packages/cost-gate/src/durable/reservationStore.ts:42-63 | two days share a row: of the company iff in one month, of a task type's day iff the same day, of a role or task type always |
| DurableSpec.StoresAgreeIff | packages/cost-gate/src/durable/reservationStore.ts:115-146 | the two stores admit the same amounts iff their least rooms over the four levels are equal or both below zero |
| DurableSpec.EditedCeilingWaitsForANewRow | packages/cost-gate/src/durable/reservationStore.ts:206-271 | a run after which the two stores answer the same request differently |
| DurableSpec.StoresAgreeOnUnchangedCeilings | packages/cost-gate/src/durable/reservationStore.ts:115-146 | in particular they agree whenever existing rows record the configured ceilings |
| CostGate.CostGate.EvaluateAndReserve | packages/cost-gate/src/costGate.ts:135-212 | a reservation comes back exactly with PROCEED or DOWNGRADE, and then store and ledger both hold the upper bound of the model that runs for this tenant, role and task type; a stale table reserves nothing; every returned verdict is audited, every returned SKIP announced; a resolver, store or audit log that throws leaves nothing, a reservation nobody mirrors, or one in both halves nobody was told of |
| CostGate.DecidedInFull | packages/cost-gate/src/costGate.ts:135-212 | the same of one evaluation as a value: nothing reserved at a stale price, and whatever is reserved reserved in full |
| CostGate.CostGate.Settle | packages/cost-gate/src/costGate.ts:214-219 | unknown here, store down, answer lost, refused, or done in both halves; the store has the settlement unless it was not reached or refused, this process only when it heard so |
| CostGate.CostGate.Release | packages/cost-gate/src/costGate.ts:221-226 | the same for releasing |
| CostGate.CostGate.LedgerFor | packages/cost-gate/src/costGate.ts:122-129 | one ledger per tenant, created on first use, never shared |
| TwoTier.ReachableIsInOrder | packages/cost-gate/src/costGate.ts:135-232 | the simulation invariant between every local ledger and the durable store holds in every interleaving, with crashes |
| TwoTier.LocalTotalsAreExact | packages/cost-gate/src/costGate.ts:72-92 | a local total plus the durable money not mirrored here is the durable total plus the signed surplus of half-done resolutions plus, for the company, what belongs to another month; so local is at most durable iff that surplus is at most the unmirrored money |
| TwoTier.DecisionInFull | packages/cost-gate/src/costGate.ts:135-212 | a decision that lets a request run asks the store for this tenant, role, task type and upper bound, under the configuration passed; a refusal asks nothing |
| TwoTier.LocalHalfNeverFails | packages/cost-gate/src/costGate.ts:214-226 | once the durable half of settle or release is done, the local half is never refused |
| TwoTier.OverCeilingVerdictIsSound | packages/cost-gate/src/costGate.ts:88-92 | a process with nothing half-done or from another month, under the ceilings the store checks, is right to queue or skip for lack of room: the store would refuse the requested and the downgraded estimate |
| Refusals.RefusalsSoundIff | packages/cost-gate/src/costGate.ts:88-92 | for either store and any configuration, every amount the store admits fits locally iff the store's least room is at most the local least room, or is below zero |
| Refusals.AlwaysSoundIff | packages/cost-gate/src/costGate.ts:88-92 | with the in-memory store, local refusals are sound under every configuration iff no local total exceeds its durable total |
| Refusals.LoweredCeilingMakesLocalRefusalWrong | packages/cost-gate/src/costGate.ts:88-92 | for any ceiling lowered from room for two tasks to room for none, a run with the Postgres store after which a process that counts nothing queues a task the store would admit |
| Refusals.NewMonthMakesLocalRefusalWrong | packages/cost-gate/src/costGate.ts:88-92 | under any ceiling with room for one task and not two, a run with either store after which, no call under way, a process still counts last month's money and queues a task the store would admit |
| SystemSpending.StoreIsARun | packages/cost-gate/src/costGate.ts:135-232 | the store shared by any number of processes is what one run of its operations makes of an empty store |
| SystemSpending.SystemKeepsCeilings | packages/cost-gate/src/costGate.ts:72-87 | however many processes decide, reserve, settle, release and crash: the spending bound, and the exact ceilings under fixed ones |
| Extraction.RunExtractionBatch | apps/api/src/extraction/runExtractionBatch.ts:67-143 | whatever throws where, start and gate included, and whichever answers are lost: the reservation is settled, released or left, never two of them, and the batch is marked as the call ends |
| Extraction.RunGranted | apps/api/src/extraction/runExtractionBatch.ts:114-142 | the same for the part under try and catch, from a reservation held in both halves |
| Extraction.WhatIsLeft | apps/api/src/extraction/runExtractionBatch.ts:67-143 | which failures leave money spent with the batch still running, which leave it reserved for good; a failed batch's money was never reserved or was released |
| Extraction.StatusTellsMoney | apps/api/src/extraction/runExtractionBatch.ts:114-142 | the stored reservation is settled at the cost, released or open, as its money was paid, returned or kept |
| Tagging.DeriveTags | apps/router/src/tagging.ts:12-22 | exactly the tags of the rules and the caller, once each, in code-unit order |
| Tagging.TagsInFull | apps/router/src/tagging.ts:12-22 | which tags a task carries: the caller's, and each of the five of the rules exactly on its hint |
| Tagging.BeforeIff | apps/router/src/tagging.ts:21 | the order is by the first code unit that differs, a beginning before what it begins |
| Tagging.DeniedByName | packages/approval-queue/src/denyList.ts:9-19 | denied exactly with one of the five tags of the deny list |
| Tagging.LockedWorkIsDenied | packages/approval-queue/src/denyList.ts:9-19 | derived tags are denied autonomy exactly when the work is locked, professionally verified, or explicitly tagged from the deny list |
| Autonomy.ActiveIsEarned | packages/approval-queue/src/durable/autonomyStore.ts:46-150 | autonomy is active only after the threshold of countable approvals without a rejection, then a human's acceptance, and no revocation since |
| Autonomy.OfferIffStreak | packages/approval-queue/src/durable/autonomyStore.ts:98-110 | while inactive, an offer stands exactly when the unbroken count has reached the threshold |
| Autonomy.ActiveIff | packages/approval-queue/src/durable/autonomyStore.ts:112-145 | active exactly after a standing offer was accepted with neither a rejected spot check nor a revocation since |
| Autonomy.CountInFull | packages/approval-queue/src/durable/autonomyStore.ts:98-145 | the count is of the countable approvals since the last rejection, or revocation of active autonomy |
| Autonomy.AutonomyStore.RecordApproval | packages/approval-queue/src/durable/autonomyStore.ts:98-110 | counts an approval that is not denied, and reports an offer exactly when this approval made it |
| Autonomy.AutonomyStore.AcceptOffer | packages/approval-queue/src/durable/autonomyStore.ts:118-122 | refused without a pending offer |
| Autonomy.AutonomyStore.Revoke | packages/approval-queue/src/durable/autonomyStore.ts:131-145 | resets exactly the active targets and reports exactly those |
| ApprovalStore.ApprovalStore.Resolve | packages/approval-queue/src/durable/approvalStore.ts:57-65 | only a pending action of this tenant, once; otherwise nothing changes |
| ApprovalStore.ApprovalStore.ResolveRecommendation | packages/approval-queue/src/durable/approvalStore.ts:67-74 | only a pending recommendation of this tenant, once |
| ApprovalQueue.ApprovalQueue.SubmitProposedAction | packages/approval-queue/src/queue.ts:81-113 | skips review exactly when autonomous, not denied, not sampled and without effect; otherwise stored; no effect runs |
| ApprovalQueue.ApprovalQueue.Resolve | packages/approval-queue/src/queue.ts:115-185 | the verdict takes hold first; an approved or modified action's effect runs once, on the draft or the edit, a rejected one's never; then autonomy, events and audit, each stated outright, up to the await that throws |
| ApprovalQueue.VerdictInFull | packages/approval-queue/src/queue.ts:115-185 | effect calls, autonomy and announcements of every verdict in the action's own terms; a rejected spot check revokes, any other rejection resets the count |
| ApprovalQueue.ApprovalQueue.SubmitRecommendation | packages/approval-queue/src/queue.ts:189-205 | stored and audited, no effect |
| ApprovalQueue.ApprovalQueue.ResolveRecommendation | packages/approval-queue/src/queue.ts:210-222 | announces guidance and nothing else |
| ApprovalQueue.ApprovalQueue.RevokeAutonomy | packages/approval-queue/src/queue.ts:238-249 | announces exactly the task types that were active |
| DedupStore.DedupStore.GetOrCreate | apps/router/src/durable/dedupStore.ts:54-62 | the first caller's task wins and everyone else is given it |
| Router.Router.SubmitTask | apps/router/src/router.ts:44-217 | a seen key is replayed; otherwise calls, stored row and queued item are those of a run that is over, or stands at the throwing await; a call that returns has made exactly the calls of its tale, filed exactly its guidance or proposal, and returned its status; no effect runs |
| Router.Router.ExecuteTask | apps/router/src/router.ts:110-131 | row, start, outcome, then release on failure or settlement at the reported or else the reserved amount |
| Router.Router.ReviewTask | apps/router/src/router.ts:133-216 | guidance for the CEO, a proposed action otherwise, nothing without a queue, then the last row |
| Stories.StoryInFull | apps/router/src/router.ts:44-217 | the machine's story written out: keys, model, money, guidance, proposal, tags and status from the task and its answers alone |
| TaskProtocol.AdvanceTellsNews | apps/router/src/router.ts:44-217 | await by await a submission does its story in order, nothing skipped, repeated or swapped |
| Stories.VerdictInFull | packages/approval-queue/src/queue.ts:115-185 | the same of a verdict: effect on the draft or the edit, what autonomy is told, the audit entry |
| QueueProtocol.ContinueTellsNews | packages/approval-queue/src/queue.ts:115-185 | await by await a verdict is carried out in order |
| TaskInvariant.ReachableIsInOrder | apps/router/src/router.ts:44-217 | in every run the dedup rows, reservations, queue items and every task's events are where its run says they are |
| TaskInvariant.StoresAccept | apps/router/src/router.ts:110-209 | no store refuses a run: its reservation is still held when it resolves it, its item not there when it proposes it |
| TaskHistory.ReachableTellsTrace | packages/approval-queue/src/queue.ts:81-185 | autonomy is what the history of approvals, rejections, offers and revocations makes it, every read of it is true, every caller of a key is answered with its task |
| TaskTheorems.ExecutesAtMostOncePerKey | apps/router/src/router.ts:55-72 | in every run the executor starts at most once per tenant and dedup key, and every caller of a key gets the same task |
| TaskTheorems.StartsOnce | apps/router/src/router.ts:115 | two executor starts for one key are the same start |
| TaskTheorems.InStory | apps/router/src/router.ts:44-217 | every event of a task stands in its task's story, right after the task's events before it |
| TaskTheorems.GateComesFirst | apps/router/src/router.ts:77-115 | with a gate and a model, the executor starts only after a grant and on the granted model |
| TaskTheorems.EffectsAreAuthorised | packages/approval-queue/src/queue.ts:115-157 | every effect that starts was preceded by a fully connected success of a task that is not the CEO's and asked for it, its queueing and a human approval or edit; it carries that draft, and starts once |
| TaskTheorems.EffectIsAuthorised | packages/approval-queue/src/queue.ts:115-157 | the evidence for one effect, from the invariant, and its place in its item's history |
| TaskTheorems.QueuedActionIsJustified | apps/router/src/router.ts:140-192 | an action is queued with an effect only after such a success |
| TaskTheorems.VerdictsAreFinal | packages/approval-queue/src/durable/approvalStore.ts:121-143 | at most one human verdict takes hold per action |
| TaskTheorems.AutoApprovalIsEarned | packages/approval-queue/src/queue.ts:81-101 | a skipped review had autonomy that was active when read and earned by then; the task is not locked, professionally verified or deny-listed, and no effect of it ever starts |
| TaskTheorems.RowsFormATaskWord | apps/router/src/router.ts:75-216 | ledger rows begin one of five words; a call that returned wrote a whole one, ending in its status, of the counted length, with that status stored |
| TaskTheorems.QueuedOrSkippedIsRefusal | apps/api/src/scheduler/scheduledDispatchProcessor.ts:53-60 | queued and skipped are returned exactly on the gate's QUEUE and SKIP |
| TaskTheorems.ReservationsResolveOnce | apps/router/src/router.ts:118-131 | in no run is a reservation settled and released, or either twice |
| TaskTheorems.ReturnedCallsResolveTheirMoney | apps/router/src/router.ts:118-131 | a returned call released its grant if the executor failed, and otherwise settled it at the reported or else the reserved amount |
| TaskFacts.GuidanceInFull | apps/router/src/router.ts:153-165 | all guidance comes from a successful CEO task, filed under its tenant, with the executor's draft and the task's tags |
| TaskFacts.ProposalInFull | apps/router/src/router.ts:131-192 | every queued action, with or without effect: tenant, task type, draft, tags, effect, spot check, and the money settled by then |
| TaskFacts.SkippedInFull | packages/approval-queue/src/queue.ts:81-101 | a review is skipped only for an active type, unsampled, with no deny-listed tag and no effect to run |
| TaskFacts.ReturnedInFull | apps/router/src/router.ts:44-217 | a returned call did its whole tale in that order, and returned the status it ends in |
| TaskFacts.VerdictIsCarriedOut | packages/approval-queue/src/queue.ts:115-185 | by its audit entry, an approved or edited effect has started on the right draft and finished, a rejected one never starts, and autonomy was told |
| TaskFacts.RecordIsTrue | packages/approval-queue/src/queue.ts:128-166 | what autonomy is told is the verdict given, for the action's own type, denied or spot check exactly when it was |
| TaskFacts.VerdictTakesHoldIff | packages/approval-queue/src/durable/approvalStore.ts:57-65 | a verdict takes hold iff the action was queued for this tenant and had none before |
| TaskFacts.GuidanceTakesHoldIff | packages/approval-queue/src/durable/approvalStore.ts:67-74 | the same for guidance |
| TaskFacts.RecordedInFull | packages/approval-queue/src/durable/autonomyStore.ts:98-145 | what every event makes of every task type's autonomy |
| HandsExecutor.CallHandsTool | apps/router/src/handsTool.ts:79-108 | which endings of a tool call report the service, and which the agent sees as errors |
| HandsExecutor.Preflight | apps/router/src/openMultiAgentExecutor.ts:96-115 | fails exactly when a lookup throws; otherwise the agent is offered exactly its own connected tools, and the services of the rest are missing |
| HandsExecutor.Execute | apps/router/src/openMultiAgentExecutor.ts:79-149 | for any keys and tool calls: fails or rejects, or lists exactly the services missing before or reported during the run, each once |
| HandsExecutor.FailuresListedIff | apps/router/src/handsTool.ts:49-106 | every failed key is listed exactly when no lookup throws, and no handle expires, on a service not missing anyway |
| HandsExecutor.ThrowingLookupGoesUnlisted | apps/router/src/handsTool.ts:79-83 | two runs whose only key failure, a lookup that throws or an expired handle, is not listed |
| HandsExecutor.MissingHandsMeanDraft | apps/router/src/router.ts:115-151 | for every execution, one tool unconnected at pre-flight or one key found missing or undecryptable means that no effect is proposed |
| HandsExecutor.DraftModeFailsIff | apps/router/src/router.ts:115-151 | for every execution: the effect asked for is proposed iff it succeeded, is not the CEO's and had nothing missing; a failed key leaves it in place iff its call escapes the wrapper and nothing else was missing |
| Cadences.CadenceInFull | packages/jobs/src/cadenceSchedule.ts:18-33 | each cadence in milliseconds or as its pattern, and clamped |
| Cadences.ClampExactlyTheFast | packages/jobs/src/cadenceFloors.ts:21-50 | the clamp changes exactly the cadences that would fire more than daily, to one that does not |
| TenantScheduler.SyncTenantSchedule | packages/jobs/src/tenantScheduler.ts:64-96 | for any desired list: the resulting registry, the reports in order, and exactly the stale ids removed, each once |
| TenantScheduler.Existing | packages/jobs/src/tenantScheduler.ts:70-71 | the snapshot is exactly the tenant's slice |
| TenantScheduler.SyncReconciles | packages/jobs/src/tenantScheduler.ts:48-96 | the slice becomes exactly the desired ids at the desired rates; everything outside it is unchanged |
| TenantScheduler.LastEntryWins | packages/jobs/src/tenantScheduler.ts:74-85 | for any list, a job's rate and payload are those of the last entry for its id not registered at its rate already, or else the old ones |
| TenantScheduler.SyncedInFull | packages/jobs/src/tenantScheduler.ts:64-96 | with distinct ids, each job has the rate and payload asked for, or is left as it was if it was registered at that rate |
| TenantScheduler.ReportsPartition | packages/jobs/src/tenantScheduler.ts:74-85 | added and unchanged together are the desired ids, each once |
| TenantScheduler.SecondSyncIsQuietIff | packages/jobs/src/tenantScheduler.ts:56-96 | for any list, a second sync adds and removes nothing iff no two desired jobs share an id at different rates and every id is in the tenant's slice |
| TenantScheduler.ConflictsOscillate | packages/jobs/src/tenantScheduler.ts:76-85 | a list for which each sync undoes the one before |
| TenantScheduler.SlicesAreDisjointIff | packages/jobs/src/tenantScheduler.ts:52-54 | two slices are disjoint iff neither prefix extends the other |
| TenantScheduler.ColonFreeTenantsAreDisjoint | packages/jobs/src/tenantScheduler.ts:52-54 | distinct colon-free tenants never share a job |
| DesiredSchedule.ComputeDesiredSchedule | apps/api/src/scheduler/computeDesiredSchedule.ts:35-61 | one clamped job per owned cadence task in order, as the last agent listing it, and a note per clamped task |
| DesiredSchedule.ScheduleEndToEnd | apps/api/src/scheduler/computeDesiredSchedule.ts:35-61 | with distinct tasks and colon-free agents, after compute and sync the slice holds one job per owned cadence task, none more than daily, ids distinct, notes exactly for the faster ones |
| DesiredSchedule.RegistryInFull | apps/api/src/scheduler/computeDesiredSchedule.ts:35-61 | end to end, each cadence task's job carries this tenant, the last agent that lists it and the task, at its cadence or daily |
| DesiredSchedule.ColonsCollide | apps/api/src/scheduler/computeDesiredSchedule.ts:53-57 | with a colon in an agent id two tasks can share a job |
| RedisErrorCircuitBreaker.CircuitBreaker.HandleError | packages/jobs/src/redisErrorCircuitBreaker.ts:68-95 | the four variables and the pause after an error are those of the machine below |
| RedisErrorCircuitBreaker.CircuitBreaker.HandleResume | packages/jobs/src/redisErrorCircuitBreaker.ts:95-100 | the same for a resume |
| BreakerSpec.ErrorInFull | packages/jobs/src/redisErrorCircuitBreaker.ts:64-95 | one error: trips on the threshold of errors no further back than the window; pauses twice as long, up to the maximum, before twice the last cooldown has passed since the resume, else the initial time |
| BreakerSpec.TripInFull | packages/jobs/src/redisErrorCircuitBreaker.ts:76-83 | how a run records a trip, its pause and its streak of quick re-trips |
| BreakerSpec.TripsExactlyOnBursts | packages/jobs/src/redisErrorCircuitBreaker.ts:68-74 | trips exactly on the threshold of errors within the window since the last resume; fewer timestamps are ever kept |
| BreakerSpec.CooldownBacksOff | packages/jobs/src/redisErrorCircuitBreaker.ts:76-83 | after k quick re-trips in a row the pause is the smaller of initial times 2^k and the maximum |
| BreakerSpec.TripsPerInterval | packages/jobs/src/redisErrorCircuitBreaker.ts:68-103 | an interval of length T holds at most T/initial + 1 trips |
| BreakerSpec.NeverExceedsMaxIff | packages/jobs/src/redisErrorCircuitBreaker.ts:36 | no pause ever exceeds the maximum iff the initial cooldown is within it |
| ChainEngine.DriveInFull | packages/chains/src/chainEngine.ts:51-127 | every event on every well-placed chain: step, status, index, result, time stamp; expiry strictly after its time |
| ChainEngine.RefusalsInFull | packages/chains/src/chainEngine.ts:23-110 | what each operation refuses, with which error |
| ChainEngine.RunsKeepPlace | packages/chains/src/chainEngine.ts:23-127 | driven through its own next step: all before the index completed and approved where gated, all after untouched, completed iff at the end |
| ChainEngine.DriveTerminates | packages/chains/src/chainEngine.ts:51-127 | every event that changes anything lowers the measure; terminal states absorb |
| ChainEngine.RunsAreShort | packages/chains/src/chainEngine.ts:51-127 | a chain of n steps changes at most 2n times |
| ChainEngine.DirectAdvanceIsSafeIff | packages/chains/src/chainEngine.ts:51-91 | a direct report keeps the chain in order iff it is on the current step or repeats an approved gate while one waits |
| DekRecords.DekRecordStore.PutIfAbsent | packages/vault/src/durable/dekRecordStore.ts:51-55 | inserts only where nothing is stored |
| DekRecords.DekStore.GetOrCreateDek | packages/vault/src/dekStore.ts:56-70 | whoever inserted, the key returned is the one inside the stored record, which is never replaced |
| DekRecords.DekStore.DiscardAndRecreateDek | packages/vault/src/dekStore.ts:80-89 | overwrites one tenant's record with a key that decrypts |
| DekRecords.OnlyOwnKeyDecrypts | packages/vault/src/dekStore.ts:56-89 | a key comes back only under the master key that hid it |
| DekRace.DecryptsUnderCurrentKey | packages/vault/src/dekStore.ts:56-70 | a call returns the key of its record under the master key of the moment, and an error under another |
| DekRace.CallsReturnCurrentKeys | packages/vault/src/dekStore.ts:56-89 | in every run the "vanished" error is unreachable, and a returned key was current at some moment of its call |
| DekRace.RacersAgree | packages/vault/src/dekStore.ts:56-70 | without recreation all successful callers of a tenant return the key inside the stored record |
| DekRace.LaterCallsAgree | packages/vault/src/dekStore.ts:80-89 | with recreation, callers that begin after the last write still do |
| DekRace.RecreationSplitsCallers | packages/vault/src/dekStore.ts:80-89 | a run in which a recreation leaves two callers with different keys |
| CredentialRefresh.HandsKeyStore.PerformRefresh | packages/vault/src/vault.ts:593-654 | the record changes iff the provider answered and the store wrote: to revoked iff it said the token is dead, else to the new token with the old refresh token and scope; a lost answer or a failing audit log gives an error with the record changed |
| RefreshingVault.RefreshingVault.GetOrRefreshCredential | packages/vault/src/vault.ts:569-583 | joins the key's running refresh or starts one and puts it in the map |
| RefreshingVault.RefreshingVault.CheckExpiry | packages/vault/src/vault.ts:548-562 | the expiry check and the join are one step of the machine below |
| RefreshingVault.RefreshingVault.Finalize | packages/vault/src/vault.ts:577-579 | the clean-up is one step of the machine below |
| SingleFlight.AtMostOneRefreshPerKey | packages/vault/src/vault.ts:564-583 | at most one refresh per process and key is between start and settling |
| SingleFlight.GrantsAreFresh | packages/vault/src/vault.ts:536-583 | a handed-out token was more than a minute from expiry when checked, or is the provider's own for the joined refresh, with its expiry and the old refresh token and scope; joiners get one outcome |
| SingleFlight.ExpiredCallersJoin | packages/vault/src/vault.ts:569-583 | an expired caller joins the refresh that is running for its key |

## Left out

- Money is a non-negative `real`: floating-point rounding and negative amounts are not modelled.
- Ids, prose and the ids of roles and task types are naturals where the code only compares them; the string keys
  `tenant|key` of the in-memory stores are pairs, so a separator inside an id is not modelled. An absent optional field and
  an empty model string are both `None`.
- Titles, names, timestamps, notes and error texts are not modelled; a failed brain-key lookup has the error text 0.
- TaskSystem: the gate answers by its contract; its own awaits are modelled in `TwoTier`.
- TaskSystem: the in-memory dedup store hands out one shared object, so a replayed caller can see a status before it is
  saved; the model has the stored row. The stored row does not keep `missingHands`.
- Router.Router.SubmitTask: the ledger, the gate and the executor are calls recorded in `log`; what each answers is a
  parameter, and so is the await that throws. The role, task type and payload sent to the gate are not recorded.
- RefreshingVault.RefreshingVault.CheckExpiry: promises are ids, and a caller's awaiting is a recorded stage; revocation racing
  a refresh is not modelled, so `PerformRefresh` starts from an active record.
- CostGate.CostGate.EvaluateAndReserve: listeners do not throw. A resolver, store or audit log may, before or after it did
  its work.
- TaskSystem: that the store behind its gates is a run of `DurableSpec` is stated of the gate's own system
  (`SystemSpending.StoreIsARun`), not again of routers and gates together.
- DurableReservationStore.ReservationStore.ReserveAtomic: SQL, row locks and row-level security; the operation is one step.
- TenantScheduler.SyncTenantSchedule: one sync at a time; BullMQ's own interpretation of intervals and cron patterns is taken
  from the two patterns and four intervals the code passes.
- Encryption is an inverse pair that fails under any other key; associated data and the opaque Hands keys are not modelled.
- `routeTier`, `modelsForTier`, price-table loading, `newChainExpiryAt` and construction guards: easy members.
- The scheduled dispatch processor beyond its row count and budget signal: pausing a tenant, instrumentation, notifications.
- Paused-batch store, charter, tier and template data, routes, authentication, the web application.
