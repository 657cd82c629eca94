# Verified model of the doda backend's core protocols

A Dafny 4.11 project that models the parts of the backend that form a small distributed system, and proves
what they keep over every input, every run and every interleaving. `dafny verify dfyconfig.toml` checks it.

| files | what they model |
|---|---|
| `ActionStates`, `ActionService` | the guarded state machine of an Action, the unit of work that moves it, its one-time approvals |
| `TelegramRelay`, `OutboxRelay` | the send with its retries, the consumer loop, the outbox publisher |
| `ActionProtocol`, `ActionSafety`, `ActionTheorems` | one action under concurrent approvals, cancellations, compensations, consumers, relays and crashes, as steps over committed rows, row locks, a stream and in-flight transactions; the invariant; the theorems |
| `ActionTransactions`, `ActionRun` | what single transactions and the connector's sends achieve when nothing gets in their way; runs in full, from the proposal to a delivered message that SUCCEEDED, or was completed as FAILED |
| `ActionSystem` | any number of actions with idempotency keys and a shared audit log; the trace checker and the stuck-action lookup |
| `Json`, `JsonPrinting`, `JsonReading`, `JsonCanonical` | `json.dumps`, an independent JSON reader that reads it back, canonical JSON, and why equal texts or hashes mean equal payloads |
| `AuditChain`, `AuditWriters`, `AuditPages` | the audit hash chain and its verifier and evidence package; concurrent writers; the cursor reader |
| `Pricing`, `Budget` | prices and rounding, in exact and in floating point arithmetic; the monthly ledger, interleaved turns, the usage report |
| `ChatTurn`, `TurnOutcome`, `TurnLog`, `TurnMessages`, `TurnLedger`, `History` | one chat turn with tool rounds, fallback, hang-up and settlement; that its inputs determine its result; what its log and its messages hold, told of the gateway's events; its effect on the ledger; the history replayed to the model |
| `Sse`, `Streaming`, `ClientView` | the event stream's printer, the client's incremental parser, the response body, and what the client reads in it |
| `Membership`, `MembershipEffects`, `Directory`, `WorkspaceEntry` | membership tables and operations; what they do to authority and when they are refused; the authorization resolver and the listings |
| `LastOwner`, `MembershipRace` | the last-owner check under its row locks; adding a workspace member while the customer membership is removed |
| `Wrappers`, `Roles` | shared types |

Code that changes state is written as methods (classes `UnitOfWork`, `Outbox`, `AuditSession`, `Ledger`,
`Directory`, and the loops of the relay, the parser, the chain verifier and the chat turn), each proved
against a specification function or a relation over its log; the theorems are about those.

## Assumptions

- SHA-256 is an arbitrary function without collisions on the texts that occur (`CollisionFree`); `Faithful`
  is what that gives for audit rows, and `RecomputedHashIsFaithful` derives the one from the other.
- Unique constraints, primary keys, foreign keys (where there are any: `customer_membership_id` has none),
  append-only triggers and row locks work as PostgreSQL documents them; a raised exception rolls its
  transaction back.
- `created_at` increases in write order. Integers are unbounded, as in Python. Floating point operations
  round as IEEE 754 prescribes for doubles, without overflow or underflow.
- A floating point number inside JSON is represented by the text `repr` gives it; strings hold Unicode
  scalar values.
- Only failures that `telegram_client.py` itself classifies as transient are taken to be undelivered.

## Where the code does not do what its text says

- `consume_approval` writes EXPIRED, REJECTED and a `transition_rejected` event and then raises, so none of
  it ever commits: `FailedChecksLeaveNoTrace`, `ConsumeHoldsIff`. An action whose approval has expired
  awaits approval for ever once no consume that read the clock in time is left, and its nonce is still
  handed out: `ExpiredStaysPending`, `ReplayHandsOutPendingNonces`.
- `complete_compensation` never checks for COMPENSATING and takes a RUNNING action to FAILED:
  `CompensationCompletedIff`. So a delivered message can end FAILED, and only that way:
  `SucceededIffDelivered`, `DeliveredCanBeFailed`, and `DeliveredThenFailed` gives the run.
- `verify_audit_chain` never reads the tip row: a deleted tail and a resealed last row go unseen, anything
  else is reported once: `DeletedRowsReported`, `ResealedRowReported`.
- An evidence package stops at 200 events: `EvidenceOfIntactChain` says exactly when it is complete.
- `get_usage_report` leaves out REFUNDED events despite its docstring: `ReportMatchesLedgerIff` says exactly
  when it still adds up to the ledger, `ReportCanFallShort` that it need not.
- The members' roster shows stored rows, so it differs from the resolver for auditors with a stale row and
  owners with a plain member's row: `RosterAgreesIff`, `RosterCanDisagree`.
- `stream_message` settles on every exit, except when the model it fell back to has no price: then settling
  itself raises. `StreamMessage` says exactly when and `SettlingCanRaise` gives a turn. If the turn had
  yielded nothing, its whole transaction is rolled back; if it had begun, its reservation stays:
  `TurnsLeaveNothingReserved`.
- A role change or removal acts on a role loaded before the owners are counted; when a plain member was
  promoted in between, the customer can lose its last owner: `StaleRoleLosesOwner`, `LosesLastOwnerIff`.
- `remove_customer_member` deletes the workspace memberships it selected, so one that is being added
  meanwhile is left orphaned: `OrphanReached`, `LeavesOrphanIff`.

## Model

| member | source | states |
|---|---|---|
| `ActionService.UnitOfWork.ApplyTransition` | backend/src/doda/application/action_service.py:176-275 | one transition: checked against the status under the lock, the receipt demanded for SUCCEEDED, one audit note; otherwise a rejected note and no change of status |
| `ActionService.UnitOfWork.ValidateAction` | backend/src/doda/application/action_service.py:321-341 | low risk goes to READY with its outbox row in the same unit of work, other risk waits for approval |
| `ActionService.UnitOfWork.RequestApproval` | backend/src/doda/application/action_service.py:360-375 | a fresh approval carries the action's payload hash and expires after ten minutes; what that comes to is `ActionTransactions.ApprovedIff` |
| `ActionService.UnitOfWork.SubmitActionForExecution` | backend/src/doda/application/action_service.py:344-357 | validation, then an approval exactly when one is needed |
| `ActionService.UnitOfWork.ConsumeApproval` | backend/src/doda/application/action_service.py:378-419 | the whole new state of consuming an approval, and which error each failed check raises |
| `ActionService.UnitOfWork.RequestCancellation` | backend/src/doda/application/action_service.py:278-293 | decided by the loaded status, checked against the locked one |
| `ActionService.UnitOfWork.CompleteCompensation` | backend/src/doda/application/action_service.py:296-318 | only two outcomes are accepted, and the transition table has the last word |
| `ActionService.TransitionedIff` | backend/src/doda/application/action_service.py:176-275 | a transition goes through if and only if the table allows it from the locked status and SUCCEEDED has its receipt; what the session holds in either case |
| `ActionService.ConsumeRefused` | backend/src/doda/application/action_service.py:390-407 | what the session holds when a consume raises: nothing for a wrong nonce, EXPIRED before REJECTED otherwise |
| `ActionService.ConsumedIff` | backend/src/doda/application/action_service.py:378-419 | an approval is consumed if and only if it is pending, its nonce and payload hash match, it has not expired and the locked status may become READY; then action, approval, outbox and audit change together |
| `ActionService.CompensationCompletedIff` | backend/src/doda/application/action_service.py:296-318 | goes through exactly for COMPENSATING, and also for RUNNING to FAILED; what it leaves, and when the outcome itself is refused |
| `ActionService.CancellationRequestedIff` | backend/src/doda/application/action_service.py:278-293 | exactly which pairs of loaded and locked status let a cancellation through, and what it leaves |
| `ActionService.SubmittedDraft` | backend/src/doda/application/action_service.py:321-375 | submitting a draft never fails: READY with one outbox row and no approval, or AWAITING_APPROVAL with a pending one, with the nonce and the payload's hash, that expires in ten minutes |
| `ActionStates.TransitionTable` | backend/src/doda/domain/action/state_machine.py:12-41 | from where each status is entered; every status but DRAFT can be entered, and of the terminal ones only FAILED can be left |
| `ActionStates.AutoApprovedIff` | backend/src/doda/domain/action/models.py:30-40 | what needs no approval is exactly what is below the floor of the sending tool |
| `ActionStates.EnforceMinimumRiskLevel` | backend/src/doda/domain/action/tool_policy.py:43-51 | never below the tool's floor nor below what was asked for, and one of the two |
| `TelegramRelay.ClassifyIff` | backend/src/doda/infrastructure/telegram_client.py:58-90 | exactly which HTTP outcomes are transient, delivered, and an exception of another kind |
| `TelegramRelay.SendWithRetries` | backend/src/doda/infrastructure/telegram_relay.py:142-179 | at most three attempts, all before the last transient, and all three if the last is; so at most one possibly delivered; the result is the last attempt's |
| `TelegramRelay.RelayOnce` | backend/src/doda/infrastructure/telegram_relay.py:218-251 | acknowledges the entries that did not raise, in order, and counts them |
| `TelegramRelay.AckedIff` | backend/src/doda/infrastructure/telegram_relay.py:218-251 | an entry is acknowledged if and only if processing it did not raise |
| `TelegramRelay.TelegramOfIff` | backend/src/doda/infrastructure/telegram_relay.py:182-215 | a payload names a message if and only if its logical value is an object with both strings, and which message |
| `TelegramRelay.SentMessageDeterminedByPayload` | backend/src/doda/infrastructure/telegram_relay.py:182-215 | payloads with the same logical value send the same chat id and text, or nothing |
| `OutboxRelay.Outbox.RelayOnce` | backend/src/doda/infrastructure/outbox_relay.py:49-75 | puts one copy of each picked row on the stream, in order, and leaves exactly those published with one attempt more |
| `OutboxRelay.PickedOldestFirst` | backend/src/doda/infrastructure/outbox_relay.py:53-59 | unpublished, unlocked rows, oldest first, up to the batch size |
| `OutboxRelay.PolledOnce` | backend/src/doda/infrastructure/outbox_relay.py:49-75 | no later poll picks a row that an earlier one picked |
| `OutboxRelay.AllPublished` | backend/src/doda/infrastructure/outbox_relay.py:49-75 | a poll with room for all publishes every row that is not locked |
| `ActionSafety.NextKeepsInv` | backend/src/doda/infrastructure/telegram_relay.py:112-251 | every step of the protocol (load, lock, commit, dispatch, send, crash, claim, publish, mark, relay crash) keeps the invariant over rows and in-flight transactions |
| `ActionTheorems.ReachedOk` | backend/src/doda/application/action_service.py:72-419 | the invariant and the immutable fields of the action hold after every run |
| `ActionTheorems.OutboxRowIffEverReady` | backend/src/doda/application/action_service.py:328-337 | an action has an outbox row if and only if it ever reached READY, and then exactly one, under concurrent approvals of one nonce |
| `ActionTheorems.AtMostOneDelivery` | backend/src/doda/infrastructure/telegram_relay.py:112-251 | over every run at most one call to Telegram can have been delivered, and RUNNING is entered exactly once if there was any |
| `ActionTheorems.SucceededWasDelivered` | backend/src/doda/infrastructure/telegram_relay.py:182-215 | SUCCEEDED implies exactly one delivered send, with its receipt in the last audit event |
| `ActionTheorems.SucceededIffDelivered` | backend/src/doda/infrastructure/telegram_relay.py:129-215 | once RUNNING is over, SUCCEEDED if and only if the message was delivered and the connector had the last word: a delivered message of a FAILED action is a person's doing |
| `ActionTheorems.DeliveredCanBeFailed` | backend/src/doda/application/action_service.py:296-318 | any running action whose message was delivered can be completed as FAILED by hand |
| `ActionTheorems.FailedChecksLeaveNoTrace` | backend/src/doda/application/action_service.py:390-407 | no run reaches EXPIRED or REJECTED, and no rejected transition is ever committed |
| `ActionTheorems.ConsumeHoldsIff` | backend/src/doda/application/action_service.py:378-419 | a consume gets past its checks under the lock if and only if all of them hold, expiry included; otherwise nothing but its own transaction changes |
| `ActionTheorems.ExpiredStaysPending` | backend/src/doda/application/action_service.py:399-407 | once the approval has expired and no consume that read the clock in time remains, no run changes the action, its approval or its trail |
| `ActionTheorems.NeverApprovedStaysPending` | backend/src/doda/application/action_service.py:360-375 | an action for which no consume reads the clock in time awaits approval for ever and sends nothing |
| `ActionTheorems.SendsAreApproved` | backend/src/doda/application/action_service.py:378-419 | any send was approved once: nonce match, in time, by the proposer or a workspace admin at AAL2, for the hash of the very payload sent, whatever risk was declared |
| `ActionTheorems.ReplayHandsOutPendingNonces` | backend/src/doda/application/action_service.py:148-173 | in every reachable state a replayed request gets the nonce if and only if the action awaits approval and the caller proposed it; the nonce is of use exactly until the approval expires |
| `ActionTheorems.CopiesComeFromCrashes` | backend/src/doda/infrastructure/outbox_relay.py:49-75 | a published row has a stream copy, and each extra copy comes from a relay crash before commit |
| `ActionTheorems.CancelledStaysUnsent` | backend/src/doda/application/action_service.py:278-293 | after a committed cancellation nothing is ever sent and the status never changes |
| `ActionTheorems.PathEntersOnce` | backend/src/doda/application/action_service.py:214-248 | on a legal trail from DRAFT every status is entered at most once |
| `ActionTheorems.TerminalStays` | backend/src/doda/domain/action/state_machine.py:12-41 | no run leaves a terminal status, FAILED included although the table lets it be retried |
| `ActionTransactions.OnlyTheProposer` | backend/src/doda/application/authz_service.py:138-165 | without being a workspace admin, only the user who proposed an action may approve or cancel it, or is handed its nonce |
| `ActionTransactions.TransactionCommits` | backend/src/doda/application/action_service.py:176-275 | an undisturbed transaction commits what its operation leaves in the session, or nothing |
| `ActionTransactions.ApprovedIff` | backend/src/doda/application/action_service.py:360-419 | from the proposal on, an approval takes the action to READY with its outbox row if and only if it comes within ten minutes, with the nonce, by the proposer or a workspace admin, at AAL2; otherwise nothing has happened |
| `ActionTransactions.CancelledIff` | backend/src/doda/application/action_service.py:278-293 | the proposer or a workspace admin takes READY to CANCELLED and RUNNING to COMPENSATING; anything else changes nothing |
| `ActionTransactions.CompensatedIff` | backend/src/doda/application/action_service.py:296-318 | COMPENSATING to COMPENSATED or FAILED and RUNNING to FAILED; anything else changes nothing |
| `ActionTransactions.DrivenIff` | backend/src/doda/infrastructure/telegram_relay.py:112-140 | the connector takes up a READY Telegram action with a copy on the stream, and no other |
| `ActionTransactions.ResolvedIff` | backend/src/doda/infrastructure/telegram_relay.py:182-215 | what the connector decided is entered with its receipt if and only if the action is still RUNNING, or COMPENSATING and to fail |
| `ActionTransactions.DispatchedIff` | backend/src/doda/infrastructure/telegram_relay.py:182-215 | sent exactly with a token and a payload that names the message; otherwise decided as failed with nothing sent |
| `ActionTransactions.SendsAreRetries` | backend/src/doda/infrastructure/telegram_relay.py:142-179 | the protocol's sends are exactly the attempts `SendWithRetries` makes, and their result is what is decided |
| `ActionTransactions.RelayedIff` | backend/src/doda/infrastructure/outbox_relay.py:49-75 | an undisturbed relay publishes the row once and marks it; one that crashes after publishing leaves the copy and the row as it was |
| `ActionTransactions.LocksAreGivenBack` | backend/src/doda/application/action_service.py:176-275 | in every reachable state the row lock belongs to a transaction that gives it back by committing or crashing, and a row has one attempt exactly when it is published |
| `ActionRun.DeliveredThenFailed` | backend/src/doda/application/action_service.py:296-318 | for every proposed Telegram message that is approved there are a reached RUNNING state whose message was delivered and a reached FAILED one |
| `ActionRun.DeliveredThenSucceeded` | backend/src/doda/infrastructure/telegram_relay.py:182-215 | for every such message there is a reached SUCCEEDED state whose message was delivered, with the receipt in the trail |
| `ActionRun.SomeRequest` | backend/src/doda/infrastructure/telegram_relay.py:182-215 | there are such messages |
| `ActionSystem.EveryActionIsReached` | backend/src/doda/application/action_service.py:72-145 | with many actions and replayed idempotency keys, every action is one the single-action protocol reaches, no two share a key, and the shared log holds each trail unbroken, a contiguous legal path from DRAFT |
| `ActionSystem.SystemRunKeepsInv` | backend/src/doda/application/action_service.py:116-134 | the system invariant holds after every run |
| `ActionSystem.SubmittedOnce` | backend/src/doda/application/action_service.py:72-145 | a request changes nothing if its customer and workspace have an action with its key, and is accepted otherwise |
| `ActionSystem.StepIsStamped` | backend/src/doda/application/audit_service.py:51-78 | a step only adds to the log, and stamps what it adds with its own time |
| `ActionSystem.CheckTraceCompleteness` | backend/scripts/verify_trace_completeness_job.py:48-70 | the report the loop builds, which is the one `ReportedExactly` describes |
| `ActionSystem.MismatchesIff` | backend/scripts/verify_trace_completeness_job.py:57-70 | an event is reported as often as it is logged if it mismatches, and not at all otherwise |
| `ActionSystem.ReportedExactly` | backend/scripts/verify_trace_completeness_job.py:48-70 | the report is exactly the events for which some action has their id and another trace, once each and in the log's order |
| `ActionSystem.NothingToReport` | backend/scripts/verify_trace_completeness_job.py:53-70 | in every reachable state the report is empty |
| `ActionSystem.TraceCheckerSilent` | backend/scripts/verify_trace_completeness_job.py:53-70 | the checker has nothing to report in any reachable state |
| `ActionSystem.SinceIffEntered` | backend/scripts/_ops_lib.py:37-44 | a time stamp is found if and only if the action entered the status |
| `ActionSystem.SinceIsLatest` | backend/scripts/_ops_lib.py:37-44 | and it is the stamp of the latest event that entered the status |
| `ActionSystem.StuckLookupNeverMisses` | backend/scripts/_ops_lib.py:23-44 | the "event missing" case is unreachable, and no action in the status is left out |
| `JsonReading.PrintedIsRead` | backend/src/doda/application/hashing.py:12-13 | an independent reader reads every well-formed value back from its text, whatever follows it: escapes, surrogate pairs, numbers, nesting, separators |
| `JsonReading.LoadsWhatIsPrinted` | backend/src/doda/application/hashing.py:12-13 | loading what was dumped gives the value back |
| `JsonReading.PrintInjective` | backend/src/doda/application/hashing.py:12-13 | so a JSON text determines its value and where it ends |
| `JsonReading.QuoteInjective` | backend/src/doda/application/hashing.py:12-13 | a quoted string determines its characters |
| `JsonCanonical.CanonicalDeterminesValue` | backend/src/doda/application/hashing.py:12-13 | two payloads have the same canonical text if and only if they have the same logical value, whatever the order of keys at any depth |
| `JsonCanonical.CanonicalReadsBack` | backend/src/doda/application/hashing.py:12-13 | the canonical text loads to a value with the same meaning |
| `JsonCanonical.LessIff` | backend/src/doda/application/hashing.py:12-13 | keys are sorted by code points, a prefix first |
| `JsonCanonical.NormalUnique` | backend/src/doda/application/hashing.py:12-13 | sorting keys at every depth gives one normal form per logical value |
| `JsonCanonical.HashBindsPayload` | backend/src/doda/application/hashing.py:16-17 | without collisions, equal hashes if and only if equal payloads |
| `AuditChain.RecomputedHashIsFaithful` | backend/src/doda/application/audit_service.py:81-97 | the recomputed hash binds exactly the covered fields, not id and created_at |
| `AuditChain.VerifyAuditChain` | backend/src/doda/application/audit_service.py:117-156 | the loop reports exactly the rows whose predecessor hash or own hash is wrong, and counts all rows |
| `AuditChain.ReportedAsOften` | backend/src/doda/application/audit_service.py:132-155 | for every list of events, a violation is reported exactly as often as there are rows that deserve it |
| `AuditChain.IntactIff` | backend/src/doda/application/audit_service.py:132-155 | nothing is reported if and only if every row continues the row before it and matches its own hash |
| `AuditChain.EndHashDeterminesHistory` | backend/src/doda/application/audit_service.py:132-155 | two lists that verify and end in the same hash have equal length and equal covered fields row by row |
| `AuditChain.HashesDistinct` | backend/src/doda/application/audit_service.py:51-78 | all hashes of an intact chain are distinct |
| `AuditChain.AlteredRowReported` | backend/src/doda/application/audit_service.py:140-155 | altering one row's content gives exactly one violation, at that row |
| `AuditChain.ResealedRowReported` | backend/src/doda/application/audit_service.py:140-155 | resealing a row gives exactly one violation, at its successor, and none for the last row |
| `AuditChain.DeletedRowsReported` | backend/src/doda/application/audit_service.py:140-155 | deleting rows gives exactly one violation, after the gap, and none for a deleted tail |
| `AuditChain.PackageShowsTampering` | backend/src/doda/application/audit_service.py:201-225 | for every list of events, an evidence package reports every violation of the whole chain, and exports the first 200 events of the trace as stored, in order, each with its own check |
| `AuditChain.EvidenceOfIntactChain` | backend/src/doda/application/audit_service.py:201-225 | on an intact chain the chain report is empty and every exported event checks out; the export is complete if and only if the trace has at most 200 events |
| `AuditWriters.AuditSession.RecordAuditEvent` | backend/src/doda/application/audit_service.py:29-78 | appends one sealed event to that customer's chain, moves its tip, and touches no other customer |
| `AuditWriters.ChainsNeverFork` | backend/src/doda/application/audit_service.py:41-78 | under any interleaving of writers, commits and rollbacks each chain holds the committed calls in commit order, verifies without a violation and ends in the tip |
| `AuditWriters.CommitOnlyExtends` | backend/src/doda/application/audit_service.py:41-78 | a commit leaves the books of customers it did not write to exactly as they were, and only adds its own calls behind the committed rows of the others, whose hashes stay |
| `AuditWriters.StrippedDeterminesChain` | backend/src/doda/application/audit_service.py:41-78 | two verified chains that record the same calls are the same, hashes included |
| `AuditWriters.WaitsIffWritten` | backend/src/doda/application/audit_service.py:41-49 | a call waits if and only if another open transaction has written to the same customer |
| `AuditWriters.EndsCleanly` | backend/src/doda/application/audit_service.py:41-49 | a transaction that ends gives back its locks and no others; one that is rolled back leaves no trace |
| `AuditPages.WalkReadsEverythingOnce` | backend/src/doda/application/audit_query_service.py:31-57 | walking pages until an empty one returns every event that matched at the start exactly once, newest first, while new events keep arriving |
| `AuditPages.SelectionIsNewestFirst` | backend/src/doda/application/audit_query_service.py:44-57 | the selection holds exactly the matching rows in the query's order |
| `AuditPages.PageHoldsWhatWasAsked` | backend/src/doda/application/audit_query_service.py:31-57 | every row of a page has the asked value in every field and lies behind the cursor; at most `limit` and at most 200 rows |
| `AuditPages.PageLeavesOut` | backend/src/doda/application/audit_query_service.py:44-57 | a matching row is left out only for a full page of newer ones |
| `AuditPages.OlderIsTotal` | backend/src/doda/application/audit_query_service.py:44-57 | rows are ordered by time and then by id, any two of them |
| `Pricing.RoundHalfEvenIff` | backend/src/doda/infrastructure/ai_pricing.py:70-79 | rounding of the exact quotient: within half a cent, and even on a tie, which determines the result |
| `Pricing.RoundRealExact` | backend/src/doda/infrastructure/ai_pricing.py:79-79 | rounding a real number, as `round` does, agrees with rounding the exact quotient it stands for |
| `Pricing.CostCentsIff` | backend/src/doda/infrastructure/ai_pricing.py:70-79 | the cost is the cents nearest to input tokens at the input price plus output tokens at the output price, even on a tie |
| `Pricing.PricePerMillion` | backend/src/doda/infrastructure/ai_pricing.py:43-65 | a million tokens cost the list price, for every model |
| `Pricing.FloatAgrees` | backend/src/doda/infrastructure/ai_pricing.py:76-79 | rounding the float quotient gives the same cents unless the exact quotient is as close to a tie as the float is off |
| `Pricing.InputTokensIff` | backend/src/doda/infrastructure/ai_pricing.py:82-89 | the least positive number of three-character tokens that covers the text |
| `Pricing.TurnOvershoot` | backend/src/doda/infrastructure/ai_pricing.py:70-79 | a turn that stays within its rounds' tokens costs at most (N+1)/2 cents above the estimate, despite rounding, in exact arithmetic |
| `Pricing.FloatTurnOvershoot` | backend/src/doda/infrastructure/ai_pricing.py:70-79 | the very same bound for float costs that are off by less than 1/(2(N+1)) cents |
| `Pricing.FloatCentsNearExact` | backend/src/doda/infrastructure/ai_pricing.py:70-79 | the code's two divisions, two products, sum and scaling, each rounded, are off by less than a millionth of a cent, up to ten million dollars |
| `Pricing.FloatCentsOvershoot` | backend/src/doda/infrastructure/ai_pricing.py:70-79 | so the float code itself keeps the (N+1)/2 cents |
| `Budget.Ledger.ReserveBudget` | backend/src/doda/application/ai_budget_service.py:94-109 | granted exactly when reserved, spent and estimate fit the hard cap; nothing changes otherwise |
| `Budget.Ledger.ReconcileAndRecord` | backend/src/doda/application/ai_budget_service.py:229-285 | gives the estimate back, books the actual cost and records one usage event |
| `Budget.LedgerMatchesTurns` | backend/src/doda/application/ai_budget_service.py:229-240 | under any interleaving reserved_cents is the sum of the open turns' estimates, actual_cents the sum of the usage events, and the clamp at zero never bites |
| `Budget.OvershootBounded` | backend/src/doda/application/ai_budget_service.py:94-109 | spending passes the cap by at most k(N+1)/2 cents for the k turns open at the last reservation, and not at all right after a reservation |
| `Budget.ReportRowsExact` | backend/src/doda/application/ai_budget_service.py:159-206 | every row of the report holds its group's cost and count of RECONCILED events, and no group has two rows |
| `Budget.ReportKeys` | backend/src/doda/application/ai_budget_service.py:159-206 | one row for each group that has a RECONCILED event, and no other |
| `Budget.KeyTellsGroup` | backend/src/doda/application/ai_budget_service.py:159-206 | a group is one workspace's use of one model of one provider |
| `Budget.ReportMatchesLedgerIff` | backend/src/doda/application/ai_budget_service.py:159-206 | the report adds up to the ledger if and only if no refunded turn cost anything |
| `Budget.ReportCanFallShort` | backend/src/doda/application/ai_budget_service.py:159-206 | a run after which the report falls short of the ledger |
| `ChatTurn.StreamCall` | backend/src/doda/application/conversation_service.py:434-456 | one gateway call streams, bills and collects exactly what its events say, up to a hang-up |
| `ChatTurn.EmptyTextMeansSilence` | backend/src/doda/application/conversation_service.py:441-447 | an empty message means that nothing was streamed, so falling back mixes no providers |
| `ChatTurn.ProposeWrite` | backend/src/doda/application/conversation_service.py:499-529 | a write call is proposed once, answered with a status message and ends the rounds |
| `ChatTurn.RunRounds` | backend/src/doda/application/conversation_service.py:429-567 | the rounds with one provider: which calls are made, what they leave in the conversation, and how they end |
| `ChatTurn.StreamMessage` | backend/src/doda/application/conversation_service.py:279-637 | every turn ends; it is refused, it raises, or its settling raises, under exactly stated conditions; otherwise it reserves once and settles once, on every exit, with the tokens its calls' events report: all of them, or on a hang-up those read before the chunk at which the client left; at most N+1 calls and one provider switch; one provider speaks; at most one proposal and no call after it; a normal end has one final message and exactly the conversation its calls add up to; the log is in order |
| `TurnOutcome.TurnDetermined` | backend/src/doda/application/conversation_service.py:279-637 | any two logs that meet the contract for the same inputs have the same outcome, calls, usage, text, messages and settlement |
| `TurnLog.SettledTokens` | backend/src/doda/application/conversation_service.py:434-456 | a turn settles the input tokens and the output tokens its calls report: all of them, but for what the last call reports after the chunk at which the client left |
| `TurnLog.TurnReads` | backend/src/doda/application/conversation_service.py:365-637 | what a settled turn's log holds, entry by entry: reservation first, one settlement, then only the done chunk, with the last message saved; the bounds on calls, proposals, provider switches and speakers |
| `TurnMessages.StructuredReplaces` | backend/src/doda/application/conversation_service.py:441-447 | structured output takes the place of what was streamed before it, later text is added |
| `TurnMessages.ToolsAround` | backend/src/doda/application/conversation_service.py:434-456 | every tool call that is ready is asked for, in order |
| `TurnMessages.FirstWriteIff` | backend/src/doda/application/conversation_service.py:499-529 | what is proposed is the first write call |
| `TurnMessages.AskedAt` | backend/src/doda/application/conversation_service.py:429-567 | one saved message per call asked for, with the call's text and id |
| `TurnMessages.ResultsAround` | backend/src/doda/application/conversation_service.py:429-567 | one saved result per read tool, with what it said, in order |
| `TurnMessages.AnswerSays` | backend/src/doda/application/conversation_service.py:429-637 | the one final message is the last call's text, the notice of the proposed action, or that the rounds were used up |
| `TurnLedger.TurnOpensAndCloses` | backend/src/doda/application/conversation_service.py:379-423 | a turn's effect on the ledger is one reservation and one settlement of the same estimate, at the workspace, provider and model it ended with, for the cents nearest to what its tokens cost there; REFUNDED exactly when it did not end normally; without settlement exactly when settling raised |
| `TurnLedger.EstimateIff` | backend/src/doda/application/conversation_service.py:365-379 | what a turn reserves: the price of one round, times the rounds, unless above the DEEP ceiling |
| `TurnLedger.RefusedForLackOfRoom` | backend/src/doda/application/ai_budget_service.py:94-109 | in any interleaving, a turn that has an estimate and is refused found no room for its estimate at the moment it asked |
| `TurnLedger.TurnWithinEstimate` | backend/src/doda/application/conversation_service.py:365-369 | a turn that keeps to its provider and its rounds' tokens meets the hypothesis of the overshoot bound |
| `TurnLedger.TurnsLeaveNothingReserved` | backend/src/doda/application/conversation_service.py:379-635 | however the turns of a customer interleave, each granted what the ledger allowed: at the end only turns whose settling raised after they had begun are still reserved, and the month's cost is what its events say |
| `TurnLedger.TurnsStayNearCap` | backend/src/doda/application/ai_budget_service.py:94-109 | at every moment of such an interleaving the overshoot bound holds |
| `TurnLedger.SerialTurnsStayNearCap` | backend/src/doda/application/ai_budget_service.py:63-109 | with one customer's turns one after the other, as the row lock of the ledger has it, spending passes the cap by at most (N+1)/2 cents at every moment, however many turns there are |
| `TurnLedger.SettlingCanRaise` | backend/src/doda/application/conversation_service.py:607-635 | a turn that has begun and never settles, whatever log it leaves |
| `TurnLedger.NothingStaysReserved` | backend/src/doda/application/conversation_service.py:607-635 | the same for any effective ledger steps in which every turn has closed |
| `History.MessagesToHistory` | backend/src/doda/application/conversation_service.py:233-272 | one turn per message, in order, of the longest suffix that fits, or of the last message alone; never empty for some messages |
| `History.LongestFittingUnique` | backend/src/doda/application/conversation_service.py:243-251 | there is only one such suffix |
| `History.CostIsLength` | backend/src/doda/application/conversation_service.py:243-251 | the budget counts the characters of contents and stored arguments |
| `History.ReplaysMessage` | backend/src/doda/application/conversation_service.py:253-272 | role, text, tool call and ids of a replayed message |
| `History.ResultAnswersCall` | backend/src/doda/application/conversation_service.py:253-272 | a stored result is replayed under the id of the stored call it answers |
| `Sse.StreamConversationMessage` | frontend/src/lib/api.ts:799-819 | the nested loops yield the complete frames of all text received and keep the rest |
| `Sse.DrainAppend` | frontend/src/lib/api.ts:803-818 | parsing what has arrived and going on later is parsing everything at once |
| `Sse.RoundTrip` | backend/src/doda/api/conversations.py:190-197 | however the encoded frames are cut, the client yields exactly their kinds and data in order and ends with an empty buffer |
| `Sse.ParsedDeterminesFrames` | backend/src/doda/api/conversations.py:190-191 | what the client sees determines the frames sent |
| `Streaming.StreamBody` | backend/src/doda/api/conversations.py:233-272 | one frame per chunk until the client is gone, then closes the turn; an error frame if the turn raises |
| `Streaming.SentIff` | backend/src/doda/api/conversations.py:247-249 | sending stops at the first check that finds the client gone |
| `Streaming.SentOfTurn` | backend/src/doda/api/conversations.py:233-272 | of a turn's log everything it yields is sent, but for the chunk at which the client hung up; the text sent is the text streamed |
| `Streaming.ClientSeesTheTurn` | backend/src/doda/api/conversations.py:233-272 | from a turn's log to the client's events, under any cutting: one event per chunk sent, a done event if and only if the turn was answered, an error event if and only if it failed after it had begun |
| `ClientView.ClientReadsTheTurn` | frontend/src/lib/api.ts:799-819 | under any cutting, the client's events, their data read as JSON, say what the turn yielded, one for one, up to the chunk at which it hung up; the reply it puts together is the text the turn streamed; an error event has code, trace id and the retry flag |
| `Membership.ReachableIsGood` | backend/src/doda/application/customer_service.py:45-214 | in every state reachable from the empty store memberships are unique, the index holds (user, customer) exactly when a membership exists, the tenant index mirrors the workspaces, no workspace membership is orphaned or crosses customers, and every customer has an owner |
| `Membership.ApplyKeepsGood` | backend/src/doda/application/workspace_service.py:45-184 | each committed operation keeps all of that |
| `MembershipEffects.RoleAfter` | backend/src/doda/application/customer_service.py:103-214 | an operation changes the named user's role in the named customer to what was asked for, and no other role |
| `MembershipEffects.RemovalRevokes` | backend/src/doda/application/customer_service.py:166-214 | removing a member takes all authority in that customer and touches nobody else's |
| `MembershipEffects.AddedMayEnter` | backend/src/doda/application/workspace_service.py:65-113 | an added member enters in the role given, an owner as administrator |
| `MembershipEffects.AuditorAndBack` | backend/src/doda/application/authz_service.py:104-123 | demotion to auditor closes every workspace at once, promotion back restores exactly what was |
| `MembershipEffects.DemotedStaysListed` | backend/src/doda/application/workspace_service.py:365-406 | meanwhile the roster still lists the member in the old role |
| `MembershipEffects.RosterCanDisagree` | backend/src/doda/application/workspace_service.py:365-406 | a reachable state where roster and resolver disagree |
| `WorkspaceEntry.EntryAfter` | backend/src/doda/application/authz_service.py:52-130 | after any operation, the resolver's answer, denial included, for every user and workspace: what was asked for where the operation names them, and what it was everywhere else |
| `WorkspaceEntry.WorkspaceRemovalRevokes` | backend/src/doda/application/workspace_service.py:138-151 | a removed workspace member is out, unless an owner; nobody else notices |
| `WorkspaceEntry.WorkspaceRoleTakesEffect` | backend/src/doda/application/workspace_service.py:116-135 | a plain member enters in the role asked for; nobody else notices |
| `WorkspaceEntry.ArchivedIsClosed` | backend/src/doda/application/workspace_service.py:154-184 | archiving closes a workspace to all who may not see archived ones, restoring opens it to those entitled; no other workspace notices |
| `WorkspaceEntry.MemberChangesRefusedIff` | backend/src/doda/application/customer_service.py:138-183 | exactly when a role change and a removal are refused |
| `WorkspaceEntry.NewRowsRefusedIff` | backend/src/doda/application/customer_service.py:45-135 | exactly when creating and inviting are refused |
| `WorkspaceEntry.AddingRefusedIff` | backend/src/doda/application/workspace_service.py:65-97 | exactly when adding a workspace member is refused, and for which reason |
| `Directory.ResolvesIff` | backend/src/doda/application/authz_service.py:52-130 | exactly who may enter a workspace, and in which role |
| `Directory.Directory.CreateCustomerWithOwner` | backend/src/doda/application/customer_service.py:45-76 | customer, first owner and index row together, or nothing |
| `Directory.Directory.InviteCustomerMember` | backend/src/doda/application/customer_service.py:103-135 | one membership and its index row, or a duplicate refused with no change |
| `Directory.Directory.ChangeCustomerMemberRole` | backend/src/doda/application/customer_service.py:138-163 | the last owner cannot be demoted; otherwise only the role changes |
| `Directory.Directory.RemoveCustomerMember` | backend/src/doda/application/customer_service.py:166-214 | the last owner cannot be removed; otherwise the member, all derived workspace memberships and the index row go |
| `Directory.Directory.CreateWorkspace` | backend/src/doda/application/workspace_service.py:45-62 | a new open workspace of the customer and its tenant index row together, or nothing |
| `Directory.Directory.AddWorkspaceMember` | backend/src/doda/application/workspace_service.py:65-113 | refuses another customer's member, an auditor and a duplicate; otherwise adds one row |
| `Directory.Directory.ChangeWorkspaceMemberRole` | backend/src/doda/application/workspace_service.py:116-135 | changes only that row's role |
| `Directory.Directory.RemoveWorkspaceMember` | backend/src/doda/application/workspace_service.py:138-151 | removes only that row |
| `Directory.Directory.SetArchived` | backend/src/doda/application/workspace_service.py:154-184 | archives or restores only that workspace |
| `Directory.Directory.ListMyWorkspaces` | backend/src/doda/application/workspace_service.py:241-332 | lists a workspace in a role if and only if the resolver lets the user in with that role, each exactly once |
| `Directory.Directory.ListWorkspaceMembers` | backend/src/doda/application/workspace_service.py:365-406 | the workspace's rows, and the owners without one as administrators, each user once |
| `Directory.RosterAgreesIff` | backend/src/doda/application/workspace_service.py:365-406 | a listed role is the resolved one except for auditors and for owners with a lesser row |
| `Directory.EntrantsAreListed` | backend/src/doda/application/workspace_service.py:365-406 | whoever may enter is listed |
| `LastOwner.AnOwnerStays` | backend/src/doda/application/customer_service.py:79-100 | however removals, demotions and promotions interleave around the row locks, an owner stays, as long as the loaded roles are current |
| `LastOwner.LosesLastOwnerIff` | backend/src/doda/application/customer_service.py:138-183 | the only step that leaves no owner is writing the only owner over a stale role |
| `LastOwner.StaleRoleLosesOwner` | backend/src/doda/application/customer_service.py:166-183 | a run from one owner to none through a stale role |
| `MembershipRace.LeavesOrphanIff` | backend/src/doda/application/customer_service.py:166-191 | a step leaves a workspace membership behind if and only if it adds one whose customer membership is gone, or deletes a customer membership that has got one since the selection |
| `MembershipRace.NothingLeftBehind` | backend/src/doda/application/workspace_service.py:65-97 | every run without such a step leaves none behind |
| `MembershipRace.OrphanReached` | backend/src/doda/application/customer_service.py:166-191 | a run that does |

## Left out

- HTTP, FastAPI routing, schemas, error envelopes, OIDC, provider SDKs: a gateway call is an abstract list of events with an ending, a Telegram call an outcome.
- UI, deployment, load tests, seed scripts, migrations and row-level security; the constraints migrations install are guards of the model.
- Liveness: stuck RUNNING actions, entries never acknowledged and the relay's reading of new entries only; the theorems are about safety.
- Kill switches, notifications, tasks, reminders, sessions, language and secret detection, provider preference tiers: branches that do not touch the state modelled here.
- Reading of pages of actions and conversations, ordering of report rows by cost, the month's bounds and a turn that crosses them.
- Pricing.RoundHalfEvenIff: about exact quotients, with prices in whole cents per million tokens; `FloatCentsNearExact` with `FloatAgrees` carries it over to the code's floats, except where the exact quotient is within a millionth of a cent of a tie. Cached input tokens carry no price and are not modelled.
- Pricing.TurnOvershoot: exact quotients likewise; `FloatCentsOvershoot` is its float form.
- Pricing.FloatTurnOvershoot: its bound on the error is met by the code's floats up to ten million dollars and 499,998 rounds: `FloatCentsNearExact`, `FloatCentsOvershoot`.
- ActionTheorems.ExpiredStaysPending: the clock is read before the row lock is taken, so a consume that read it in time may commit after expiry; such a consume is an ordinary one.
- An exception before a turn's first chunk, or a database failure inside it, rolls the request's whole transaction back: for the ledger such a turn never ran.
- ChatTurn.StreamMessage: the history sent with each call, its growth over the rounds and the pairing of replayed tool calls with results are not in the log.
- JsonReading.PrintedIsRead: JSON.parse and json.loads are represented by one reader; NaN and infinities, which JSON.parse refuses, do not occur in what is sent to the client.
- History.MessagesToHistory: takes the messages `list_messages` returned; its limit is not modelled.
- OutboxRelay.Outbox.RelayOnce: in the protocol of one action the batch is taken row by row, since rows of different actions do not interact.
- ActionTheorems.AtMostOneDelivery: the audit notes of the protocol carry no hashes; that they chain is `AuditWriters.ChainsNeverFork`.
- Membership.ReachableIsGood: each operation is one committed step; the two pairs of operations that can go wrong when they overlap are `LastOwner` and `MembershipRace`. Names and display names are left out, and a query without ORDER BY gives its rows in any order.
- AuditWriters.ChainsNeverFork: values that are not native JSON (`default=str`) and lone surrogates do not occur in the metadata modelled.
