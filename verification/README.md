# Model of an options-trading sentinel

The project models the parts of a paper-first options trading system that have to be right every
time, in the system's own terms:

- **Shadow ledger** (`Dicts`, `Domain`, `FillModels`, `LedgerState`, `LedgerInvariant`, `LedgerRuns`,
  `LedgerSnapshots`, `ShadowLedger`): a long-option cash ledger with reservations, partial fills,
  average-cost positions, expiry, idempotent commands and snapshots. `LedgerState` says what every
  operation leaves behind, a raised error keeping the changes made before it; the class `ShadowLedger`
  updates its fields in place and is proved to leave exactly that.
- **Admission** (`RiskEngine`, `LedgerHistory`, `Admission`, `ProtocolLimits`): the risk evaluator, the
  service lock, risk engine and ledger together, and the execution protocol over its ledger.
- **Closed-position review** (`Folds`, `Sorting`, `Outcomes`, `OutcomeTracking`, `OutcomeOrder`,
  `OutcomeAgreement`): the recomputation of results from fills alone and its agreement with the ledger.
- **Shadow broker** (`ShadowBroker`, `ShadowRecovery`, `SimulatedBroker`): dirty flag, durable snapshots,
  restarts.
- **Execution protocol** (`OrderStates`, `ExecutionStore`, `ExecutionProtocol`, `ExecutionSafety`,
  `ExecutionResolution`): several service processes over one store, one event per await.
- **Append-only logs** (`AuditLog`, `Journal`, `JournalRecords`, `Federal`, `FederalRegistry`): bounded
  scans and compare-and-append under concurrent writers.
- **Deduplicator**, **Safety**, **Replay**, **MarketCalendar**, **SchemaSimplifier**, **SchemaUnfolding**
  and **SchemaStandard**: the remaining state machines and the two arithmetic or recursive kernels.

`dafny verify dfyconfig.toml` checks everything. Lemmas carry `{:induction false}` wherever Dafny would
otherwise try an induction of its own.

## Assumptions

- Money is `real`; averages divide exactly. `Decimal` rounding is not modelled.
- Digests and UUIDs are opaque and injective: a fingerprint or intent id is modelled by the fields it
  digests, an order id by its intent id, a drawn UUID by the next unused number.
- A moment is the UTC time together with its New York market date; both never go back in runs, restarts
  included.
- Every reading of the account is a snapshot under a newly drawn id (app/domain/models.py:129-130).
- An instrument id stands for one contract (`Listing`). The ledger checks this for quotes
  (app/broker/shadow_ledger.py:380), callers must respect it elsewhere.
- Where several orders are involved, the intent id of a placement is derived from its idempotency key
  (app/execution/service.py:366-369).
- The broker reports only on orders it was asked for: `record_broker_update` is called for sent intents
  only.
- Time-outs, lost connections, cancellations, crashes and other processes are inputs of the model, not
  exceptions to it.

## Where code and documentation, or code and expectation, part

- docs/SIMULATION.md lets an order use observations effective "at or after" submission; the code skips
  a quote effective at the submission (app/broker/shadow_ledger.py:394-396). The model follows the code
  (`LedgerHistory.SameInstantNeverFills`).
- A service cancellation is stored as a row with its target's order id under another intent
  (app/execution/service.py:636-639). The closed-position review cannot read a journal that holds such a
  row (`OutcomeAgreement.CancellationBlocksReview`); `ReadableExactly` says exactly which it can.
- The simulated broker sets its dirty flag only while persisting, so that a refused operation which
  already changed something leaves it clean but not durable; `SimulatedBroker.CleanExactly` says before
  the call which operations those are.
- The lock of `save_order` is one process's own; between two processes the filled quantity of an order
  record may shrink (`JournalRecords.RaceShrinksFills`, exact condition in `StoredSteadily`).
- With the retry-idempotent store two cancellations of one target may share an intent. That none is sent
  twice rests on the journal's one command per intent (app/db/models.py:44-49) and on each attempt's own
  account snapshot, whose id its command carries (app/execution/service.py:630).
- `reconcile_submission` and `record_broker_update` do not take the execution lock, hence the premise of
  `UnknownIsResolvedByEvidence` that calls run one at a time.
- The schema reduction tells keywords by name alone and drops a property called `title`
  (`SchemaStandard.PropertyNamedTitleIsLost`), and it ignores what stands beside a `$ref`
  (`SchemaStandard.SiblingOfReferenceIsLost`), which section 8.2.3.1 of JSON Schema Core 2020-12 lets
  apply. `SchemaStandard.StandardExactly` says on which schemas it agrees with the standard.
- The deduplicator may accept a live key again after `capacity` others; `AcceptedAgainExactly` says when.

## Model

| member | source | states |
|---|---|---|
| FillModels.EvaluateSound | app/broker/fill_models.py:50-79 | With either model a decision to fill is for a positive quantity within what remains, at a positive price inside the limit of the order's side |
| FillModels.ConservativeIsWithinOptimistic | app/broker/fill_models.py:112-162 | Whatever the conservative model fills the optimistic one would have filled too, in at least that quantity and at no worse a price |
| LedgerInvariant.NothingNegative | app/broker/shadow_ledger.py:828-851 | In every reachable state cash, buying power and each instrument's unreserved quantity are non-negative |
| LedgerInvariant.BuyAffordable | app/broker/shadow_ledger.py:690-703 | A buy fill the models allow never costs more than the cash, because its own reservation covers it |
| LedgerInvariant.SellCovered | app/broker/shadow_ledger.py:783-791 | A working sell never exceeds what is owned, so the oversell guard cannot fire |
| LedgerInvariant.EntryEffect | app/broker/shadow_ledger.py:736-781 | Averaging up adds exactly the money paid to the cost of the position |
| LedgerInvariant.ExitEffect | app/broker/shadow_ledger.py:783-808 | Selling releases exactly the cost of what is sold and books the rest as realized result, closing the position or not |
| LedgerInvariant.FillKeeps | app/broker/shadow_ledger.py:678-734 | A fill on any workable order passes every guard and keeps reservations covered and the books balanced |
| LedgerRuns.StepKeeps | app/broker/shadow_ledger.py:355-600 | Each operation keeps the whole invariant, never ends in one of the ledger's own guards, and raises the open option risk only when it submits |
| LedgerRuns.RunsAreSafe | app/broker/shadow_ledger.py:690-709 | Over every run, with either fill model, the invariant holds and no guard of the fill path is reached |
| LedgerRuns.RunsBalance | app/broker/shadow_ledger.py:699-709 | Over every run cash plus open cost equals initial cash, deposits and realized result, and realized result is that of closed and of open positions together |
| LedgerSnapshots.DiscrepanciesExact | app/broker/shadow_ledger.py:853-870 | The consistency check reports nothing if and only if the books are clean |
| LedgerSnapshots.ReachableReconciles | app/broker/shadow_ledger.py:602-622 | Every reachable ledger reconciles |
| LedgerSnapshots.ExportIsRestored | app/broker/shadow_ledger.py:214-323 | A snapshot of a reachable state is accepted under the same binding at any later time and rebuilds exactly that state |
| LedgerSnapshots.RestartIsInvisible | app/broker/shadow_ledger.py:245-323 | Stopping after any run and continuing on a restored ledger gives every later reply and state of the uninterrupted run |
| LedgerService.ShadowLedger.DepositFunds | app/broker/shadow_ledger.py:355-362 | The deposit in place, refused amounts changing nothing |
| LedgerService.ShadowLedger.ConsumeQuote | app/broker/shadow_ledger.py:364-415 | The quote in place: guards, marking, and one offer to every working order in order of submission |
| LedgerService.ShadowLedger.Review | app/broker/shadow_ledger.py:417-455 | The review in place, with the warnings its proposal deserves |
| LedgerService.ShadowLedger.SubmitOrder | app/broker/shadow_ledger.py:457-500 | The submission in place: idempotent by key, open or rejected by capacity |
| LedgerService.ShadowLedger.CancelOrder | app/broker/shadow_ledger.py:502-523 | The cancellation in place, idempotent, terminal orders unchanged |
| LedgerService.ShadowLedger.ProcessExpirations | app/broker/shadow_ledger.py:525-600 | The expiry in place, including what a refused settlement leaves half done |
| LedgerService.ShadowLedger.FillOrder | app/broker/shadow_ledger.py:678-734 | One fill in place: guards, cash, position, order, fill record |
| LedgerService.ShadowLedger.EnterPosition | app/broker/shadow_ledger.py:736-781 | The buy side of a fill in place |
| LedgerService.ShadowLedger.ExitPosition | app/broker/shadow_ledger.py:783-808 | The sell side of a fill in place |
| LedgerService.ShadowLedger.ReserveTotal | app/broker/shadow_ledger.py:828-839 | The loop computes the reserved buying power |
| LedgerService.ShadowLedger.AvailableToClose | app/broker/shadow_ledger.py:841-851 | The loop computes owned less reserved quantity |
| LedgerService.ShadowLedger.RestoreState | app/broker/shadow_ledger.py:245-323 | A refused snapshot changes nothing, an accepted one replaces the state, and whatever is accepted has clean books |
| RiskEngine.SelectExact | app/risk/engine.py:197-221 | The rules listed as passed or failed are exactly those evaluated so |
| RiskEngine.AllowedExactly | app/risk/engine.py:70-195 | A decision allows if and only if identity and freshness hold and, for an entry, every limit and liquidity rule does |
| LedgerHistory.ApplyQuiet | app/broker/shadow_ledger.py:355-600 | Nothing but a submission opens an instrument, accepts a buy or changes an order's terms; orders that stopped working never change |
| LedgerHistory.SameInstantNeverFills | app/broker/shadow_ledger.py:389-396 | A pass with a quote leaves alone every order submitted at or after the quote's effective instant |
| Admission.StepHolds | app/execution/service.py:302-466 | Each event between judgement, last gate and delivery keeps the limits and keeps the old account snapshot an upper bound |
| Admission.LimitsAlwaysHold | app/execution/service.py:302-466 | Over every run, although risk was judged on an earlier snapshot: open option risk, open instruments and the buys accepted on each market date never exceed the configured maxima |
| ProtocolLimits.StepFollows | app/execution/service.py:302-466 | In the await-by-await protocol a claim to place an order comes only from the same claim before, from an allowed post-review judgement, or from the open last gate |
| ProtocolLimits.ServiceKeepsLimits | app/execution/service.py:302-466 | The same limits hold of the ledger under the await-by-await protocol of one service, its awaits completed, broken, cancelled or crashed and mixed with every other ledger call |
| Outcomes.TakeOrders | app/learning/outcomes.py:253-272 | The loop over order rows computes the fold the review is specified by |
| Outcomes.TakeFills | app/learning/outcomes.py:273-284 | The loop over fill rows, first append sequence kept |
| Outcomes.MatchFills | app/learning/outcomes.py:285-311 | The loop matching fills to orders, stopping at the first conflict |
| Outcomes.RunCycles | app/learning/outcomes.py:313-335 | The loop over time-ordered fills that opens and completes flat-to-flat cycles |
| Outcomes.Derive | app/learning/outcomes.py:250-336 | The whole review |
| OutcomeTracking.BuyTrade | app/learning/outcomes.py:320-327 | A buy extends or opens its instrument's cycle by exactly its quantity and value |
| OutcomeTracking.SellTrade | app/learning/outcomes.py:328-335 | A sell within the balance shortens the cycle and completes it exactly when it is flat |
| OutcomeTracking.FillTracks | app/broker/shadow_ledger.py:678-734 | One ledger fill and one step of the review keep average-cost books and cycles in step |
| OutcomeTracking.RunsAreTracked | app/learning/outcomes.py:313-386 | Over every run in which expiry closes no position the cycles recomputed from fills agree with the ledger, instrument by instrument |
| OutcomeAgreement.ReadableExactly | app/learning/outcomes.py:253-272 | Order rows can be read if and only if no visible row is overfilled and no order id carries two different terms |
| OutcomeAgreement.CancellationBlocksReview | app/execution/service.py:636-639 | Storing a cancellation under its target's order id makes every review of that journal fail: one order id, two intents |
| OutcomeAgreement.ReadInOrder | app/learning/outcomes.py:317-318 | Sorting the newest-first rows by time and append sequence gives back the ledger's own order of fills, if they were appended in it |
| OutcomeAgreement.SortedAt | app/learning/outcomes.py:317-318 | It keeps each instrument's fills in the ledger's order however fills of different instruments were appended |
| OutcomeOrder.Interleaved | app/learning/outcomes.py:313-335 | Trades whose order differs only between instruments complete the same cycles, instrument by instrument |
| OutcomeAgreement.ReviewAgrees | app/learning/outcomes.py:250-336 | On a tracked ledger's journal, each fill once and in any append order that keeps the equal-time fills of one instrument, the review succeeds, recomputes for every instrument exactly the ledger's cycles, and their results add up to the ledger's closed realized result |
| OutcomeAgreement.RunsAreReviewed | app/broker/shadow_ledger.py:769-808 | The same after every run in which expiry closes no position |
| ShadowBroker.RobinhoodShadowBroker.Persist | app/broker/shadow.py:253-264 | Recording sets the flag, writes the whole state, and clears the flag only after success |
| ShadowBroker.RobinhoodShadowBroker.RecordCommand | app/broker/base.py:392-416 | A command is recorded once; a reused id or key with other content, or a failed durable write, is refused |
| ShadowBroker.RobinhoodShadowBroker.PlaceOrder | app/broker/shadow.py:455-470 | Clean check, write denial, flag, command record, ledger, snapshot, in this order, for every way its awaits can end |
| ShadowBroker.RobinhoodShadowBroker.CancelOrder | app/broker/shadow.py:472-487 | The same for a cancellation |
| ShadowBroker.RobinhoodShadowBroker.ReviewProposal | app/broker/shadow.py:347-354 | The local part of a review |
| ShadowBroker.RobinhoodShadowBroker.ConsumeQuote | app/broker/shadow.py:489-495 | A quote, persisted |
| ShadowBroker.RobinhoodShadowBroker.DepositCash | app/broker/shadow.py:497-508 | A deposit, persisted |
| ShadowBroker.RobinhoodShadowBroker.ExpireOptions | app/broker/shadow.py:510-526 | An expiry, persisted, or half done and flagged |
| ShadowBroker.RobinhoodShadowBroker.Restore | app/broker/shadow.py:186-247 | A new process takes over the last snapshot of its predecessors if and only if the ledger's and the commands' checks pass |
| ShadowRecovery.RecordKeeps | app/broker/base.py:392-416 | Recording keeps ids and keys of commands one to one |
| ShadowRecovery.CleanIsDurable | app/broker/shadow.py:249-264 | Over runs with any number of restarts: whenever the flag is clear the last recorded snapshot equals the state in memory, commands included, however the operations before ended |
| ShadowRecovery.CrashLosesAtMostOne | app/broker/shadow.py:455-526 | After every run, itself full of restarts, the durable state is that of a prefix after which at most one operation changed anything |
| ShadowRecovery.RestartRecovers | app/broker/shadow.py:186-247 | At each restart the next process is accepted, starts clean, and holds the state of such a prefix |
| SimulatedBroker.SettlesExactly | app/broker/shadow_ledger.py:562-600 | An expiry is refused exactly when a due position has a negative price, and has then settled something exactly when another due position comes first |
| SimulatedBroker.CleanExactly | app/broker/simulated.py:135-228 | The simulated broker's clear flag means durable after an operation if and only if the operation is not one of two that can be told before the call: a new, stored command that the ledger's own checks refuse, or an expiry with a due negative price where an order expires or a due position comes before it |
| SimulatedBroker.WrongInstrumentForgotten | app/broker/simulated.py:168-179 | A placement for the wrong instrument leaves it clean but not durable, where the shadow broker stays flagged |
| OrderStates.LifecyclesAdvance | app/execution/state_machine.py:13-54 | A lifecycle only moves forward, repeats no state but PARTIAL, and ends for good in the terminal states |
| OrderStates.BrokerStatesFollowSubmission | app/execution/state_machine.py:13-54 | No order reaches a state only a broker can give without having been SUBMITTING |
| OrderStates.UnknownNeedsEvidence | app/execution/state_machine.py:56-83 | SUBMISSION_UNKNOWN is followed only by a transition with evidence, into an open or terminal state |
| ExecutionStore.OneIntentPerPrint | app/execution/service.py:150-161 | An intent is accepted if and only if its fingerprint has none or, under the retrying rule, has this very one |
| ExecutionStore.NewIntent | app/execution/service.py:150-161 | Accepting an intent indexes it and no other fingerprint |
| ExecutionStore.OneCommandPerIntent | app/execution/postgres_store.py:165-183 | The journal accepts a command if and only if it matches its durable intent and the intent has no command yet, under whatever capability schema, or this very one |
| ExecutionStore.InMemoryExecutionStore.KeepIntent | app/execution/service.py:150-161 | The store refuses exactly the repeated fingerprint and otherwise records the intent |
| ExecutionStore.InMemoryExecutionStore.KeepCommand | app/execution/service.py:163-170 | A command is refused under a used id or without its intent |
| ExecutionStore.InMemoryExecutionStore.KeepOrder | app/execution/service.py:172-177 | An order is refused without its intent and otherwise replaces the last |
| ExecutionStore.InMemoryExecutionStore.FindCommand | app/execution/service.py:227-236 | The first command recorded for an intent |
| ExecutionSafety.StepKeeps | app/execution/service.py:302-829 | Every event of any process, completed, broken, cancelled or crashed at any await, keeps the invariant behind the next three rows |
| ExecutionSafety.AtMostOneWrite | app/execution/service.py:302-680 | Over every interleaving of several services on one store, of either kind, no fingerprint is ever sent to the broker twice, neither a placement nor a cancellation, also after SUBMISSION_UNKNOWN or a permitted retry |
| ExecutionSafety.PlacementsAreReady | app/execution/service.py:331-466 | The broker is called only at the gate, and a placement only with accepted side-effect-free review, decision, intent, exact command and SUBMITTING order durable in this order, and with mode, kill switch, health, safety state, latch, approval and risk in order at that instant |
| ExecutionSafety.WritesStayOnRecord | app/execution/service.py:422-424 | Every broker write keeps a durable intent and order record |
| ExecutionResolution.LatchSilences | app/execution/service.py:738-741 | A latched process sends no further placement or cancellation until it restarts |
| ExecutionResolution.InterruptionSilences | app/execution/service.py:694-741 | Nor does one whose task was cancelled while the broker's answer was out or not yet on record |
| ExecutionResolution.UnknownIsResolvedByEvidence | app/execution/service.py:694-829 | With calls one at a time, each interruptible at any await, a stored SUBMISSION_UNKNOWN is left only by filing a reconciled match or an update that carries evidence |
| ExecutionResolution.RecordedTransitionsAreLegal | app/execution/service.py:877-904 | In every run each recorded transition is one the table allows |
| AuditLog.InMemoryAuditRepository.ListPayloads | app/db/repository.py:104-130 | The matching rows before the cursor, newest first, cut to the limit |
| AuditLog.NewestAfter | app/db/repository.py:104-130 | What follows the first rows of a listing is the listing before their last sequence |
| Journal.ExecutionJournal.Scan | app/execution/postgres_store.py:337-367 | Whatever is appended between pages the scan returns exactly the matching rows of the log at the first page, newest first, or fails if and only if there are more than the bound; the records still allowed decrease |
| Journal.ExecutionJournal.TakePage | app/execution/postgres_store.py:357-367 | One page: ordered, collected, or over the bound |
| JournalRecords.ImmutableTable.Existing | app/execution/postgres_store.py:105-118 | The lookup fails exactly when some row holds one of the keys with other content, and otherwise tells whether the payload stands |
| JournalRecords.ImmutableTable.SaveImmutable | app/execution/postgres_store.py:98-130 | Against writers committing between lookup and insert: success if and only if no other content holds a key, the payload then stands exactly once, and the insert never fails otherwise |
| JournalRecords.StoredSteadily | app/execution/postgres_store.py:194-216 | An accepted order record keeps exact terms and monotone filled quantity if and only if it also follows what other processes appended after the read |
| JournalRecords.RaceShrinksFills | app/execution/postgres_store.py:194-216 | Two processes that read the same unfilled order may record a fill and then less of it, since each holds only its own lock |
| JournalRecords.OrderTable.SaveOrder | app/execution/postgres_store.py:194-216 | The order record in place, judged against the last one of its intent |
| JournalRecords.OrderTable.ListLatestOrders | app/execution/postgres_store.py:369-381 | Exactly the last record of each intent whose order no later one carries, newest first, from complete evidence or not at all |
| Federal.OneChild | app/federal/service.py:361-376 | In a valid chain no two revisions of a relationship cite the same parent |
| Federal.LastKnownIsHead | app/federal/service.py:413-424 | The known revision appended last is the one no revision known by then builds on |
| RegistryService.AttemptsKeep | app/federal/service.py:175-197 | Whatever revisions are prepared on stale reads and in whatever order their compare-and-appends run, the log stays a valid chain |
| RegistryService.OneSucceeds | app/federal/service.py:175-197 | At most one of several revisions citing the same parent is ever in the log |
| RegistryService.HistoryIsChain | app/federal/service.py:361-376 | Each relationship's own history passes the chain check when the log does |
| RegistryService.FederalRegistry.AtomicAppend | app/federal/service.py:188-198 | Appends if and only if the cited parent is the relationship's last revision and clock and birth agree |
| RegistryService.FederalRegistry.ValidateChain | app/federal/service.py:361-376 | The loop accepts exactly the valid chains |
| RegistryService.FederalRegistry.AllRevisions | app/federal/service.py:252-275 | The paged scan returns the whole history as of the first page, under concurrent writers, or fails over its limit |
| RegistryService.FederalRegistry.Revise | app/federal/service.py:282-302 | Under concurrent writers it succeeds if and only if the history read is within its limit, ends in the expected revision, which is not newer than the draft, and nobody else has built on that by the time of the append; the new last row cites it and inherits its birth; the stored chain is never found broken |
| RegistryService.FederalRegistry.Create | app/federal/service.py:277-281 | The first revision of a relationship: it succeeds if and only if nobody else has one by the time of the append |
| RegistryService.FederalRegistry.Snapshot | app/federal/service.py:402-424 | Per relationship the unique revision known at the instant on which no known one builds |
| Deduplicator.EventDeduplicator.Accept | app/sentinel/events.py:51-64 | The table in place: expiry, move to end, insertion, eviction |
| Deduplicator.TablesOk | app/sentinel/events.py:51-64 | Every reachable table is ordered by last presentation, carries acceptance times, and holds with a key every live key presented after it |
| Deduplicator.NeverOverfull | app/sentinel/events.py:62-63 | The table never exceeds the capacity |
| Deduplicator.RejectedWasAccepted | app/sentinel/events.py:58-60 | A rejected key was accepted at most the time to live ago |
| Deduplicator.AcceptedAgainExactly | app/sentinel/events.py:51-64 | A key accepted at most the time to live ago is accepted again if and only if, right after some presentation since its last, at least capacity other keys presented since were live |
| Deduplicator.AcceptedAgainOnlyWhenCrowded | app/sentinel/events.py:51-64 | So only if at least capacity other keys were presented since it last was |
| Deduplicator.CrowdingNeedNotEvict | app/sentinel/events.py:54-57 | That many presented keys do not suffice, because expiry makes room |
| Safety.SafetyController.DegradeTo | app/safety/runtime_state.py:65-71 | Degrading in place, NORMAL refused, never to a milder state |
| Safety.SafetyController.ObserveEvidence | app/safety/runtime_state.py:91-122 | One observation in place |
| Safety.SafetyController.ResumeEntries | app/safety/runtime_state.py:82-90 | Resuming in place |
| Safety.HistoryOf | app/safety/runtime_state.py:65-122 | In every history the fields tell exactly the current healthy stretch, and a stretch stands only in ENTRY_DISABLED or NORMAL and never while paused |
| Safety.NormalIsEarned | app/safety/runtime_state.py:91-122 | NORMAL stands only at the end of an unbroken run of at least two healthy, unpaused observations, one of them at least the window after the first |
| Safety.NormalExactly | app/safety/runtime_state.py:91-122 | On a clock that does not go back NORMAL is exactly a matured stretch that began unhalted or with a clearance |
| Safety.HaltNeedsClearance | app/safety/runtime_state.py:110-111 | A halt is left if and only if a healthy observation clears it while entries are not paused, into the first moment of a new stretch |
| Safety.HaltLasts | app/safety/runtime_state.py:110-111 | A halt outlasts every history without a healthy observation that clears it |
| MarketCalendar.EasterIsSunday | app/clock/market_calendar.py:50-63 | In every year the computus yields a Sunday from 22 March to 25 April |
| MarketCalendar.NthIsNth | app/clock/market_calendar.py:36-39 | The n-th weekday of a month is that weekday in the month's n-th seven days |
| MarketCalendar.LastIsLast | app/clock/market_calendar.py:42-47 | The last weekday of a month is that weekday in the month's last seven days |
| MarketCalendar.HolidaysCounted | app/clock/market_calendar.py:89-109 | Every holiday is a weekday of its year; from 2022 there are ten distinct ones, nine in a year that begins on a Saturday, one fewer before |
| SchemaSimplifier.Simplify | app/reasoning/ollama.py:258-301 | Terminates on every schema, cyclic ones included, and its result has no reference and no omitted keyword at any depth |
| SchemaSimplifier.CompatibleSchema | app/reasoning/ollama.py:231-306 | The same for the whole reduction, whose result is an object |
| SchemaUnfolding.SimplifiedIsUnfolded | app/reasoning/ollama.py:258-301 | The result is the schema with every reference replaced by its target, followed naively, each path using each reference once |
| SchemaUnfolding.UnfoldedIsSimplified | app/reasoning/ollama.py:265-268 | The trail never mistakes a schema with a finite unfolding for a cyclic one |
| SchemaUnfolding.SimplifiesExactly | app/reasoning/ollama.py:231-306 | It succeeds if and only if a finite unfolding exists, and then is that unfolding |
| SchemaStandard.StandardExactly | app/reasoning/ollama.py:258-301 | A schema that unfolds by the standard is reduced to that unfolding if no reached name is called like an omitted keyword or $ref, nothing kept stands beside a reference and no data looks like a schema; and only if so, unless alternatives spell a decimal |
| SchemaStandard.PropertyNamedTitleIsLost | app/reasoning/ollama.py:296-300 | A property called like an annotation is dropped although it may stay required |
| SchemaStandard.SiblingOfReferenceIsLost | app/reasoning/ollama.py:263-276 | A constraint beside a reference is dropped |
| Replay.ReplayEngine.Observe | app/replay/engine.py:102-108 | The guards against future and repeated events |
| Replay.ReplayEngine.RunEvents | app/replay/engine.py:162-202 | The run in place |
| Replay.OrderIrrelevant | app/replay/engine.py:55-62 | The result, errors included, is the same for every permutation of the events, on any engine |
| Replay.FreshFold | app/replay/engine.py:102-118 | On a fresh engine no visibility check ever fails, nothing delivered is hidden, and each output is its handler's on exactly the events up to its own |
| Replay.FreshRun | app/replay/engine.py:162-193 | A fresh engine succeeds if and only if ids are unique and nothing lies before its clock |
| Replay.NoAnticipation | app/replay/engine.py:162-193 | Running only what is available by a time gives a prefix of the full run, events and outputs |

## Left out

- OutcomeTracking.RunsAreTracked: covers runs in which expiry closes no position, because a settlement is no fill and the review sees fills only, and in which submissions carry fresh intents.
- OutcomeAgreement.ReviewAgrees: covers journals of ledger orders, pending rows and fills, in which two fills of one instrument made at one instant keep the ledger's order, because a sell that closes a position and a buy of the same instant would otherwise change places; journals holding cancellation rows are shown unreadable instead.
- ProtocolLimits.ServiceKeepsLimits: is for one service over its ledger, because the execution lock is one process's own.
- SimulatedBroker.CleanExactly: takes cancellations of the own namespace only, since the ledger does not check it for them.
- ExecutionResolution.UnknownIsResolvedByEvidence: is not claimed for overlapping calls, because updates and reconciliations take no lock.
- SchemaStandard.StandardExactly: is one-way for schemas whose alternatives spell a decimal, because a collapsed alternative hides what else stood in it.
- ShadowBroker.RobinhoodShadowBroker.ReviewProposal: models the local half of a review, not the broker-observed half and its evidence record.
- Replay.ReplayEngine.RunEvents: models the run up to its digests; result hashes, modes and outcome horizons are not modelled.
- RegistryService.FederalRegistry.Snapshot: stops at the latest revisions; evidence status, ticker filter and page cursor are not modelled.
- The protocol merges consecutive awaits that only read the broker, whose answers are arbitrary.
- Fills and positions handed to `record_broker_update`, timestamps of execution records and command schemas beyond their identity.
- `broker_order_id` lookups, position ids, market-event hashes, return percentages and evidence hashes.
- Terminal order states are not claimed to be absorbing in the store: an interrupted write may overwrite one (app/execution/service.py:720-724).
- The number of recorded entries per date is not bounded, since a late fill also counts (app/broker/shadow_ledger.py:705-706); accepted buys are.
- `tick` of the review worker, which stores what `_derive` returns.
- Network, authorization, user interface, configuration, notification, model calls and the database engine.
- `Decimal` contexts, the time-zone database, field validation and real hashing.
- The controller, of which only matters that it never clears a halt.
