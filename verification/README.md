# Verification of the credential broker

The broker in `broker/src` hands out managed provider keys. It is a set of concurrent request handlers and cron
sweeps over one SQL database and a key provider whose calls can fail ambiguously; its correctness lies in guarded
`UPDATE ... WHERE` statements, compare-and-swap claims, fencing tokens and atomic batches. This project models those
protocols in Dafny and proves what they keep over every run.

How to read it:

* A table is a map, one SQL statement or batch is one function from tables to tables, and a protocol is a transition
  system (`Next`, `Run`) whose steps are single statements or provider calls. Workers interleave and crash between any
  two steps; a statement may throw with or without its effect. The results hold for every sequence of actions.
* Beside each transition system stands a class whose methods update the tables in place, in the branch structure of the
  TypeScript code, each proved equal to the function the theorems are about.
* Beside the safety laws stand the outcomes: what each operation leaves when it runs alone, for every state it may meet and
  every answer it may get, and which steps alone may bring a row into a state. They are told from rows, numbers and
  replies, not from the step functions.
* Where a property needs a condition, the condition is exact. For a run: the property holds at each of its moments, and
  after what is already under way, if and only if the condition does. For a bound, such as the lag of a clock: the
  property holds of all runs within it if and only if it is small enough. Concrete runs show how conditions fail.

| module | what it is about |
|---|---|
| `QqIssuance` | at most one key per QQ subject, under crashes, lost create calls, resumes and concurrent sweeps |
| `QqOutcomes` | what each request, sweep and failure of QQ issuance answers and leaves |
| `ManagedOperation` | the operation's statements, its reconcile, its sweeps and its resume |
| `OperationGate` | the retry gate over all runs, with create calls that may take effect at any later time |
| `OperationOutcomes` | which step brings an operation into which state, and what each leaves of its row, attempts and keys |
| `ProviderListing` | when "no key of this name" can be trusted |
| `ReferralRewards`, `ReferralGate` | the reward ledger: statuses, caps, and the gate that reserves or names a reason |
| `Settlement`, `SettlementLimits`, `SettlementDrain` | fenced settlement: phases, limit arithmetic, the claim loop |
| `SettlementOutcomes` | what a settlement worker leaves, undisturbed, failing or without its claim |
| `KeyDelivery` | acknowledging a delivered key against the sweep that claims deliveries nobody acknowledged |
| `KeyOutcomes` | what that sweep and the finalize batch leave, and that no owner goes before its key |
| `KeyRemoval` | the same against the operation sweep, which claims nothing |
| `AckSettlement` | the whole acknowledgement: settlement job, repair, later checks and the endpoint |
| `RateLimiter`, `RuntimeLatch`, `DailyCap` | sliding windows, the warning latch, the daily issuance cap |
| `IpCanonical`, `AddressOutcomes`, `NetworkIdentity` | address spelling, and counting by keyed digests instead of addresses |
| `NetworkMigration` | runs through the migration, with key rotations and finalisers that stop anywhere |

Assumptions about the outside: the provider's definitive 4xx creates nothing and a confirmed cleanup removes the key;
key hashes, issue references and fencing tokens are fresh and non-empty; HMAC and SHA-256 are injective and their
secrets configured; times are integer milliseconds and money integer cents.

Where the code does not meet a stated aim for all inputs, the model keeps the code and the exact condition is proved:

* `OperationGate`: a listing that concludes absence while a create call of the operation is pending. Two ways lead there,
  each shown by a run: a timeout sweep ahead of its claimant, and a catch block that reconciles a call whose answer was
  lost. A code that waited for both would need no condition (`WaitingIsPrudent`).
* `QqIssuance`: a fresh request bound to an operation whose failure path frees the row of a create call that has a live
  key or may still make one. Two paths do: without a key the catch block frees the row of a lost call, and with one it
  skips the cleanup when the reconcile reports the operation retryable. That report is true in prudent runs and false in
  a run of `OperationGate`. Runs of other requests, resumes included, meet the condition.
* `KeyRemoval`: an operation sweep that passes its check for a delivery which may still be acknowledged: by an ACK already
  validated, by one still in time, or by the delivery sweep.
* `AckSettlement`: a delivery has room for one settlement job, so an ACK is refused, and stays refused, when another
  reserved reward lacks one; and an ACK whose owner cannot be activated may be answered with success.
* `NetworkMigration`: a pending count that throws reads as zero and lets a finaliser purge rows it should have kept.
* `DailyCap`: a resume that finds no room when it writes, which is nearly the cap itself; what a caller can rely on is that
  a resume whose check passed, with no other request of its day passing in between, has room (`UndisturbedResumeHasRoom`).
* `RateLimiter`: clocks that lag beyond the retention margin.
* `SettlementLimits`: stale raises. `ProviderListing`: names beyond the listing's horizon. `NetworkIdentity`: events of
  unknown keys or later days.

The unfenced fix-up of the invitee phase (`managed-referral-settlement.ts:971`) cannot undo a completed job, although
its own text does not check for one: the schema's CHECK on `completed_at` makes the statement fail.

## Model

| member | source | states |
|---|---|---|
| QqIssuance.AtMostOneKeyPerSubject | broker/src/qq-managed-issue.ts:108-491 | over every guarded interleaving of fresh requests, resumes, sweeps, crashes and late provider effects, a subject never has two keys that are live or may still be created |
| QqIssuance.CreateOnlyWhenNothingIsLive | broker/src/qq-managed-issue.ts:264-293 | when a request of a guarded run is about to call create, no earlier call of its subject has a live key or can still make one |
| QqIssuance.RunKeepsInv | broker/src/qq-managed-issue.ts:108-491 | the invariant of guarded runs behind it: a row shields every call that may have a key, and each request owns what its flags say |
| QqIssuance.ReserveRows | broker/src/qq-managed-issue.ts:931-1053 | reserving and reclaiming stale reservations only ever touches rows whose subject has nothing exposed |
| QqIssuance.StartPathOk | broker/src/qq-managed-issue.ts:1071-1099 | a request reaches the create call only through a row that says so |
| QqIssuance.ReleaseWithoutKeyOk | broker/src/qq-managed-issue.ts:1572-1641 | the failure paths without a key free a row only when no key can come of the call, or the step is not guarded |
| QqIssuance.CleanupPathOk | broker/src/qq-managed-issue.ts:1739-1838 | after a failed attach or delivery the row is freed only with the key gone, or else the step is not guarded; without a cleanup it is flagged |
| QqIssuance.SweepKeepsInv | broker/src/scheduled.ts:356-516 | the delivery sweep, at any of its steps, keeps the invariant |
| QqIssuance.BoundRequestsEscape | broker/src/qq-managed-issue.ts:452-474 | a concrete run with two exposed calls for one subject: a bound request whose call is lost |
| QqIssuance.SkippedCleanupEscapes | broker/src/qq-managed-issue.ts:1751-1756 | another: a bound request that skips the cleanup its operation reported, and frees the row of a live key |
| QqIssuance.TakeBackStaleOk | broker/src/qq-managed-issue.ts:757-776 | a resume makes an old delivery-pending row an untouched reservation again, once its key is gone |
| QqIssuance.OneKeyExactlyInGuardedRuns | broker/src/qq-managed-issue.ts:422-486 | for every run: the law holds throughout, and after any guarded continuation, exactly when no failure path freed a started row, with or without a key, while its create call had a live key or could still make one |
| QqIssuance.UnboundRunsAreGuarded | broker/src/qq-managed-issue.ts:452-755 | runs of fresh requests without an operation and of resumes are guarded, so the law covers them without a condition |
| QqIssuance.QqBroker.InsertQqReservation | broker/src/qq-managed-issue.ts:945-973 | inserts the reservation exactly when the subject has no row |
| QqIssuance.QqBroker.ReclaimStaleQqReservation | broker/src/qq-managed-issue.ts:1023-1052 | takes over exactly the untouched reservation that was read |
| QqIssuance.QqBroker.MarkQqChildKeyCreationStarted | broker/src/qq-managed-issue.ts:1071-1099 | marks exactly its own untouched reservation |
| QqIssuance.QqBroker.AttachManagedCredential | broker/src/qq-managed-issue.ts:1140-1169 | attaches the key exactly to its own started, unattached row |
| QqIssuance.QqBroker.UpdateHolding | broker/src/qq-managed-issue.ts:1171-1254 | activation, delivery-pending and cleanup move exactly the row that holds the key |
| QqIssuance.QqBroker.ResetStaleQqReservationForRetry | broker/src/qq-managed-issue.ts:757-776 | resets exactly the delivery-pending row that holds the key |
| QqIssuance.QqBroker.ReleaseReservation | broker/src/qq-managed-issue.ts:1572-1641 | the three DELETEs, chosen by the request's flags |
| QqIssuance.QqBroker.FinishChildKeyFailure | broker/src/qq-managed-issue.ts:1739-1838 | release or flag after the provider's cleanup answer |
| QqIssuance.QqBroker.AdvanceReserving | broker/src/qq-managed-issue.ts:193-275 | the reserving half of the try block, and what a resume does before it, equals the step function the invariant is proved of |
| QqIssuance.QqBroker.AdvanceKey | broker/src/qq-managed-issue.ts:295-420 | the half that owns a key equals its step function, of which `QqOutcomes` says what it leaves |
| QqIssuance.QqBroker.AdvanceCleanup | broker/src/qq-managed-issue.ts:1739-1761 | the cleanup of a key at the provider, left out by a bound request that was told the operation is retryable |
| QqOutcomes.StatusFollowsAck | broker/src/qq-managed-issue.ts:315-420 | in every run a request turns a row active only if its client cannot acknowledge and delivery-pending only if it can, and only its own row with its own key |
| QqOutcomes.RowsBecomeActiveOnlyBy | broker/src/qq-managed-issue.ts:315-420 | in every run a row becomes active only so, or by the acknowledgement of its pending delivery |
| QqOutcomes.RepliedKeyIsOwn | broker/src/qq-managed-issue.ts:264-420 | in every run the key a request replies with is one its own create call made |
| QqOutcomes.FreshRequestIsIssued | broker/src/qq-managed-issue.ts:193-420 | on a subject without a row, with every answer returning: the reply names the key, and the row holds it, delivery-pending exactly when the client can acknowledge and active otherwise |
| QqOutcomes.UndisturbedRequestIsIssued | broker/src/qq-managed-issue.ts:108-420 | the same as a run of the system, from the request on |
| QqOutcomes.TakenOverReservationIsIssued | broker/src/qq-managed-issue.ts:1023-1052 | the same for a subject whose reservation is 15 minutes old and was not gone on with |
| QqOutcomes.SettledRowRefuses | broker/src/qq-managed-issue.ts:1101-1110 | a row that is not being issued refuses the request and stays |
| QqOutcomes.BusyRowRefuses | broker/src/qq-managed-issue.ts:1112-1134 | so does a younger reservation, and an older one whose create call was started |
| QqOutcomes.StaleKeyIsFlagged | broker/src/qq-managed-issue.ts:1711-1737 | an old reservation that holds a key is flagged for cleanup, and the request refused |
| QqOutcomes.CapTakesReservationBack | broker/src/qq-managed-issue.ts:193-222 | at the daily cap the reservation is taken back and the request refused |
| QqOutcomes.FailedCallDecides | broker/src/qq-managed-issue.ts:422-486 | a create call without a key frees its row when it was definitively rejected, or lost under a bound request, and leaves it started otherwise |
| QqOutcomes.FailureBeforeStartGivesUp | broker/src/qq-managed-issue.ts:1572-1604 | a failure before the row is marked started gives the row up |
| QqOutcomes.FailureAsksForCleanup | broker/src/qq-managed-issue.ts:422-486 | whichever statement fails between key and reply, the key is to be cleaned up |
| QqOutcomes.LostRowAsksForCleanup | broker/src/qq-managed-issue.ts:295-304 | and so it is when the row has moved on |
| QqOutcomes.CleanupDecides | broker/src/qq-managed-issue.ts:1739-1838 | a confirmed cleanup frees the row; an unconfirmed one leaves it, flagged with the key |
| QqOutcomes.OldDeliveryIsTakenBack | broker/src/qq-managed-issue.ts:757-776 | a resume goes on after an old delivery only once the cleanup of its key is confirmed |
| QqOutcomes.SweepDecides | broker/src/scheduled.ts:255-470 | a swept key takes its rows with it exactly when its removal is confirmed, and flags them otherwise; no other row changes |
| OperationGate.GateHoldsExactlyInPrudentRuns | broker/src/managed-operation.ts:410-469 | for every run: in AUTHENTICATED, ISSUE_READY, CLEAN or RETRY_READY no key bears any attempt name of the operation, now and whatever pending calls do later, exactly when no listing concluded absence while such a call was pending |
| OperationGate.RetryGate | broker/src/managed-operation.ts:410-469 | the gate in prudent runs, after any late effects of their calls |
| OperationGate.ImprudenceOpensGate | broker/src/managed-operation.ts:593-645 | after one imprudent conclusion the pending call alone can break the gate |
| OperationGate.ConclusionMakesRetryReady | broker/src/managed-operation.ts:593-645 | a listing that concludes absence leaves the operation in RETRY_READY |
| OperationGate.AttemptStartsOnlyAfterAllAreGone | broker/src/managed-operation.ts:410-469 | when an attempt can start in a prudent run, no earlier attempt of the operation has a key or can still get one |
| OperationGate.AtMostOneKeyPerOperation | broker/src/managed-operation.ts:549-645 | in prudent runs at most one attempt of an operation has a key or may get one, and it has at most one |
| OperationGate.PatientRunsArePrudentExactlyWithoutLateCalls | broker/src/managed-operation.ts:686-693 | where the timeout paths wait for the claimant, only a call whose request has left can make a conclusion imprudent |
| OperationGate.WaitingIsPrudent | broker/src/managed-operation.ts:686-693 | if requests also wait for their call, every run is prudent |
| OperationGate.ImpatientSweepOpensGate | broker/src/managed-operation.ts:686-693 | a run with prompt requests in which an impatient sweep lets a key outlive RETRY_READY |
| OperationGate.LateCallOpensGate | broker/src/qq-managed-issue.ts:430-441 | a run with patient sweeps in which a lost create call lands after its own catch block reconciled |
| OperationGate.PrudentReportIsTrue | broker/src/qq-managed-issue.ts:440-443 | in prudent runs a reconcile that reports the operation retryable is right: no key of it is left and none can come |
| OperationGate.ImpatientReportIsFalse | broker/src/qq-managed-issue.ts:440-443 | after an impatient sweep the catch block's reconcile reports so although it found the key and could not remove it |
| OperationGate.AttemptRowsAreExact | broker/src/managed-operation.ts:549-589 | attempt_count equals current_attempt_index and the attempt rows are exactly 1 to it, so the row repair is never needed |
| OperationGate.EachIndexHasOneClaimant | broker/src/managed-operation.ts:410-469 | a successful start finds its row and owns its index; later starts get larger indices |
| OperationGate.FailedExactlyWithReason | broker/src/managed-operation.ts:138-150 | FAILED exactly when a reason is set, and the client action is the one of the state |
| OperationGate.FailedIsLeftOnlyThroughAck | broker/src/managed-operation.ts:998-1021 | a step leaves FAILED only for ACTIVE and only with an acknowledged delivery of that operation |
| ManagedOperation.ReconcileStep | broker/src/managed-operation.ts:593-645 | a reconcile touches only its operation, and leaves it retryable only with the key verified gone and the attempt cleaned |
| OperationGate.TameKeepsSealed | broker/src/managed-operation.ts:246-334 | any step on the rows of one operation keeps superseded and resting attempts without a key or a pending call, unless a listing concluded imprudently |
| ManagedOperation.SettleStep | broker/src/managed-operation.ts:336-354 | the post-create transition, with its fallback reconcile, touches its operation only, and makes it retryable only with the key verified gone |
| ManagedOperation.SweepDeliveryStep | broker/src/managed-operation.ts:707-754 | the sweep of an overdue delivery, for every answer: which of four states it leaves exactly when, and RETRY_READY only with the key gone |
| OperationGate.CallKeepsBase | broker/src/openrouter-management.ts:381-414 | asking for a key, which may take effect at any later time, keeps that each key bears the name of the one attempt whose call made it |
| OperationGate.LandingKeepsBase | broker/src/managed-operation.ts:133-136 | a call that lands adds the only key under its attempt's name |
| OperationGate.RestsGone | broker/src/managed-operation.ts:493-645 | an operation comes to rest only with its current attempt gone, by a prudent conclusion or by releasing an attempt that never called |
| OperationGate.SweepIsRun | broker/src/managed-operation.ts:694-706 | the reconciling sweep loop is a run of the system, so the results above cover it |
| OperationGate.PreparingIsRun | broker/src/managed-operation-resume.ts:130-183 | up to its start, a resume is a run of the system |
| OperationGate.ResumeStartsOnlyAfterAllAreGone | broker/src/managed-operation-resume.ts:130-212 | whatever state resume finds and whatever it reads, a prudent one starts an attempt only when no earlier attempt has a key or can get one, and not beside a conflicting delivery its query shows |
| OperationOutcomes.StatesAreReachedOnlyBy | broker/src/managed-operation.ts:138-1021 | in every run: which step alone may bring an operation into each of the eleven states; ACTIVE only by its claimant's post-create step or an acknowledged delivery |
| OperationOutcomes.ActiveIsLeftOnlyForFailed | broker/src/managed-operation.ts:246-355 | in every run ACTIVE is left only for FAILED, by a terminal failure or the fifth failed cleanup |
| OperationOutcomes.OverdueDeliveryIsDecided | broker/src/managed-operation.ts:712-754 | an overdue delivery: ACTIVE if acknowledged, CREATE_UNKNOWN without a credential, RETRY_READY with the key removed and verified gone, CLEANUP_REQUIRED otherwise; with what becomes of attempt and key |
| OperationOutcomes.OverdueDeliveryIsDecidedExactly | broker/src/managed-operation.ts:712-754 | each of the four exactly under its condition |
| OperationOutcomes.AbsentIsRetryable | broker/src/managed-operation.ts:602-622 | nothing listed and nothing recorded: the attempt is cleaned and a waiting operation retryable |
| OperationOutcomes.RemovedIsRetryable | broker/src/managed-operation.ts:623-645 | a key removed and verified gone likewise |
| OperationOutcomes.UnverifiedStaysToBeCleanedUp | broker/src/managed-operation.ts:605-640 | removed but not verified, or not removed under a listing that showed nothing: a waiting operation is left in CLEANUP_REQUIRED |
| OperationOutcomes.FailedCleanupIsCounted | broker/src/managed-operation.ts:630-637 | a listed key that is not confirmed removed is counted, and the fifth failure ends the operation |
| OperationOutcomes.UnlistedIsReconciling | broker/src/managed-operation.ts:601-602 | a listing that fails leaves a waiting operation in RECONCILING |
| OperationOutcomes.AttemptStarts | broker/src/managed-operation.ts:410-469 | when an attempt starts, and its row and name |
| OperationOutcomes.CreatedIsSettled | broker/src/managed-operation.ts:336-354 | after the create: ACTIVE or DELIVERY_PENDING from CREATING, and a reconcile of what moved on |
| OperationOutcomes.UnstartedAttemptIsReleased | broker/src/managed-operation.ts:493-518 | which attempt is released, and what it makes retryable |
| OperationOutcomes.AcknowledgedOperationIsActive | broker/src/managed-operation.ts:998-1021 | an acknowledged delivery activates DELIVERY_PENDING or FAILED and clears the reason |
| OperationOutcomes.RivalStopsResume | broker/src/managed-operation.ts:362-397 | a resume does nothing while another operation of the person, on a device that may be the same, has a delivery that is not closed |
| OperationOutcomes.WaitingOperationIsReconciledFirst | broker/src/managed-operation-resume.ts:137-150 | a waiting operation is reconciled and goes on only if that made it retryable |
| OperationOutcomes.LiveDeliveryEndsResume | broker/src/managed-operation-resume.ts:152-170 | an acknowledged delivery activates, a live one is left alone |
| OperationOutcomes.OverdueDeliveryIsTakenBack | broker/src/managed-operation-resume.ts:170-183 | any other is closed and its operation reconciled as one whose creation is unknown |
| OperationOutcomes.ResumeStartsNext | broker/src/managed-operation-resume.ts:185-212 | a startable operation with its context starts the next attempt |
| OperationOutcomes.SweepCountsExactly | broker/src/managed-operation.ts:694-706 | the sweep reconciles its list in order and counts exactly what it moved and what it made retryable |
| ManagedOperation.OperationTables.StartManagedOperationAttempt | broker/src/managed-operation.ts:410-469 | succeeds exactly when state, count, row and key name allow it, and then claims the next index |
| ManagedOperation.OperationTables.ReleaseUnstartedOperationAttempt | broker/src/managed-operation.ts:493-518 | exactly the two guarded statements, and says whether the operation became retryable |
| ManagedOperation.OperationTables.ReconcileUnknownAttempt | broker/src/managed-operation.ts:549-591 | the code with its early returns equals the reconcile the gate is proved of |
| ManagedOperation.OperationTables.ReconcileAttemptTarget | broker/src/managed-operation.ts:593-645 | likewise for every provider answer |
| ManagedOperation.OperationTables.SweepUnknown | broker/src/managed-operation.ts:694-706 | the loop and its two counters |
| ManagedOperation.OperationTables.HandleManagedOperationResume | broker/src/managed-operation-resume.ts:130-212 | the handler from the authorised row on, with its conflict query and context check, equals the resume the result is about |
| ManagedOperation.OperationTables.ResumeWaitingOperation | broker/src/managed-operation-resume.ts:137-150 | reconciles the four waiting states and goes on only from RETRY_READY |
| ManagedOperation.OperationTables.ResumeDeliveredOperation | broker/src/managed-operation-resume.ts:152-183 | activates on an acknowledged delivery, leaves a live one, closes and takes back an overdue one and reconciles |
| ManagedOperation.OperationTables.ResumeIssuance | broker/src/managed-operation-resume.ts:185-212 | the context check of Discord and the start of the next attempt |
| ManagedOperation.OperationTables.MarkOperationActiveOnAck | broker/src/managed-operation.ts:998-1021 | moves exactly DELIVERY_PENDING or FAILED to ACTIVE, clears the reason, and only for an acknowledged delivery |
| ManagedOperation.OperationTables.TransitionManagedOperation | broker/src/managed-operation.ts:312-334 | the guarded state UPDATE with its client action |
| ManagedOperation.OperationTables.FailManagedOperation | broker/src/managed-operation.ts:246-255 | the unguarded move to FAILED, always with a reason |
| ManagedOperation.OperationTables.FinishClean | broker/src/managed-operation.ts:641-644 | attempt cleaned, then CLEAN, then RETRY_READY, each under its own guard |
| ProviderListing.FindManagedChildKeyByName | broker/src/openrouter-management.ts:613-645 | returns the first entry of that name among the first 2000, and nothing exactly when there is none |
| ProviderListing.NotFoundIsTrueExactlyWithinHorizon | broker/src/openrouter-management.ts:613-645 | "not found" is true for every name exactly when each entry beyond the horizon repeats a name within it |
| ProviderListing.ShortListingsAreSafe | broker/src/openrouter-management.ts:613-645 | with at most 2000 keys "not found" means there is none |
| ReferralRewards.RunKeepsPairs | broker/src/referral.ts:449-536 | every reward of every run has a pair (reserved, pending), (failed, failed), (skipped, skipped) or (credited, any) |
| ReferralRewards.CreditedIsNeverLeft | broker/src/referral.ts:2128-2188 | a credited invitee is never left nor deleted, and with it a credited or skipped referrer keeps its status |
| ReferralRewards.SelectedRowMovesLegally | broker/src/referral.ts:2328-2450 | each statement's SET is a legal move of any row its WHERE selects |
| ReferralRewards.WriteIsLegal | broker/src/referral.ts:2534-2678 | each statement on the whole table moves every row legally and deletes only skipped or failed ones |
| ReferralRewards.RunKeepsCaps | broker/src/referral.ts:1461-1508 | at most three counted rewards per referrer, one per referred person and installation, and the daily maximum for QQ per UTC day |
| ReferralRewards.OnlyReserveRaisesCounts | broker/src/referral.ts:1461-1508 | no statement but the reservation raises any of these counts |
| ReferralRewards.RoomInEveryGroup | broker/src/referral.ts:1461-1508 | the conditions of the insert leave room in every capped group of the new row |
| ReferralRewards.CapsInNumbers | broker/src/referral.ts:1461-1508 | the caps of every run in numbers, from the empty ledger on |
| ReferralRewards.ReservationIsRefusedOnlyAtCaps | broker/src/referral.ts:1461-1508 | a reservation is refused only for a cap that is reached or an operation that has its row |
| ReferralRewards.RowsAreBroughtByInserts | broker/src/referral.ts:1339-1547 | the row an insert brings, and that nothing else brings one |
| ReferralRewards.ReferrerIsCredited | broker/src/managed-referral-settlement.ts:533-552 | which reward a settlement credits to its referrer, and as what |
| ReferralRewards.InviteeIsCredited | broker/src/managed-referral-settlement.ts:389-412 | likewise for the invitee |
| ReferralRewards.MissingReferrerIsSkipped | broker/src/managed-referral-settlement.ts:791-813 | likewise the skip, which keeps the first reason |
| ReferralRewards.ReservationEnds | broker/src/referral.ts:449-536 | which reservation of an issue request fails or is credited |
| ReferralRewards.OperationFailsItsReward | broker/src/managed-operation.ts:256-310 | an ended operation fails the reservation it names or bears |
| ReferralRewards.DeliveryFailsItsRewards | broker/src/scheduled.ts:312-400 | a failed delivery fails the reservations of its place, but none of an operation under way |
| ReferralRewards.ReconcileDecidesWhatItSaw | broker/src/referral.ts:2534-2632 | the reconciler decides a reservation only as it saw it |
| ReferralRewards.LeaseTakesAll | broker/src/referral.ts:2128-2188 | what a lease of the legacy update takes |
| ReferralRewards.LeaseIsExclusive | broker/src/referral.ts:2128-2188 | a lease keeps every later one out until it runs out |
| ReferralRewards.LeasedWorkEnds | broker/src/referral.ts:2328-2410 | what is being applied under a lease is credited, or failed with its reason |
| ReferralRewards.RetentionDeletesOldTerminal | broker/src/referral.ts:2662-2678 | which rows retention deletes |
| ReferralRewards.RewardTable.Update | broker/src/referral.ts:2128-2188 | a bulk UPDATE row by row, with its change count |
| ReferralRewards.RewardTable.DeleteTerminalRewards | broker/src/referral.ts:2662-2678 | retention deletes exactly the old skipped or failed rows |
| ReferralRewards.RewardTable.InsertReserved | broker/src/referral.ts:1339-1547 | reserves exactly when there is room and the operation has no row |
| ReferralGate.AcceptsExactlyWhenConflict | broker/src/referral.ts:1339-1664 | for an operation without an earlier row the insert refuses exactly when the cascade names a reason other than the fallback |
| ReferralGate.AcceptsExactlyWithoutReason | broker/src/referral.ts:1405-1509 | the insert's guard holds exactly when none of the reasons, stated on their own, holds |
| ReferralGate.CascadeReasonHolds | broker/src/referral.ts:1549-1664 | the reason returned is true of the tables |
| ReferralGate.ConflictExactlyWithoutReason | broker/src/referral.ts:1549-1664 | the fallback is reached exactly when no reason holds |
| ReferralGate.DecisionIsTruthful | broker/src/referral.ts:247-447 | every refusal of a reservation request gives a true reason, attempt rates included, and every reservation meets all conditions |
| ReferralGate.DecisionIsExact | broker/src/referral.ts:247-447 | which of several reasons decides: attempts, the code, its velocity, then the cascade |
| ReferralGate.FirstReasonIsNamed | broker/src/referral.ts:1549-1664 | the cascade names the first reason of its order that holds |
| ReferralGate.DecisionIsRecorded | broker/src/referral.ts:1912-1983 | the one row a decision leaves beside those that were there |
| ReferralGate.AttemptCountsAreWhole | broker/src/referral.ts:1009-1190 | for an operation without an earlier row the attempt-rate checks, which leave its own rows out, count all attempts of the person, installation or address |
| ReferralGate.ReferralDesk.IsAttemptRateLimited | broker/src/referral.ts:1009-1086 | by person or installation first, then by the address columns that the write mode compares |
| ReferralGate.RecordedOutcomeIsReused | broker/src/referral.ts:215-278 | asking again for the same operation returns the recorded outcome |
| ReferralGate.ReferralDesk.ReserveIssueReferralReward | broker/src/referral.ts:247-447 | the request's branches: outcome and the one row it records |
| ReferralGate.ReferralDesk.GetOperationReferralReward | broker/src/referral.ts:215-245 | finds a row exactly when the operation has one, and reports what it recorded |
| ReferralGate.ReferralDesk.InsertSkipped | broker/src/referral.ts:1912-1983 | records one skipped row with the code's owner and the reason |
| Settlement.PhasesFollowLedger | broker/src/managed-referral-settlement.ts:366-612 | one job per reward; referrer_pending implies the invitee credited; completed implies the referrer credited or skipped |
| Settlement.PhaseNeverFalls | broker/src/managed-referral-settlement.ts:952-1025 | no step of any run lowers a job's phase, the unfenced fix-ups included |
| Settlement.OneFenceHolder | broker/src/managed-referral-settlement.ts:284-326 | at most one worker holds the fence of a job |
| Settlement.SupersededForever | broker/src/managed-referral-settlement.ts:284-326 | a token that lost its job never gets it back |
| Settlement.TakenOverWorkerChangesNothing | broker/src/managed-referral-settlement.ts:389-443 | after a takeover no step of the old worker changes a row, its commit batch included, but for the three unfenced statements |
| Settlement.CommitInviteeKept | broker/src/managed-referral-settlement.ts:389-443 | the invitee batch moves ledger and job together and legally |
| Settlement.CommitReferrerKept | broker/src/managed-referral-settlement.ts:533-599 | the referrer batch likewise |
| Settlement.SkipKept | broker/src/managed-referral-settlement.ts:791-813 | skipping a missing referrer, unfenced, completes a job only with the referrer settled |
| Settlement.SettlementTables.ClaimJob | broker/src/managed-referral-settlement.ts:305-326 | claims exactly a claimable job and returns its row |
| Settlement.SettlementTables.CommitInviteeBatch | broker/src/managed-referral-settlement.ts:389-443 | the statements of the batch in order, budget UPDATE on the entitlement included, and which of them changed a row |
| Settlement.SettlementTables.CommitReferrerBatch | broker/src/managed-referral-settlement.ts:533-599 | the statements of the batch in order, budget UPDATE on the entitlement included, and which of them changed a row |
| SettlementOutcomes.InviteeIsSettled | broker/src/managed-referral-settlement.ts:328-457 | an undisturbed worker on a reserved invitee with a key: credited under it, and the job waits for the referrer at once |
| SettlementOutcomes.ReferrerIsSettled | broker/src/managed-referral-settlement.ts:459-613 | an undisturbed worker on a credited invitee whose referrer has a key: the referrer credited under it, and the job completed |
| SettlementOutcomes.MissingReferrerIsSettled | broker/src/managed-referral-settlement.ts:791-848 | without such a key the reward is skipped with its reason, and the job completed |
| SettlementOutcomes.InviteeContextDecides | broker/src/managed-referral-settlement.ts:615-674 | where the invitee phase goes from the state of its reward |
| SettlementOutcomes.ReferrerContextDecides | broker/src/managed-referral-settlement.ts:459-476 | where the referrer phase goes from the state of its reward and the claim |
| SettlementOutcomes.JobIsGivenBack | broker/src/managed-referral-settlement.ts:855-872 | a job given back waits one minute, doubling with its attempts up to an hour |
| SettlementOutcomes.ForeignCreditStays | broker/src/managed-referral-settlement.ts:389-443 | a reward credited under another key is neither credited again nor lets its job move |
| SettlementOutcomes.UnfencedBatchChangesNothing | broker/src/managed-referral-settlement.ts:389-443 | a batch without its claim or its entitlement changes no row |
| SettlementOutcomes.MissedJobIsMade | broker/src/managed-referral-settlement.ts:205-282 | a missed job is made for what its reward waits for, and no other |
| SettlementOutcomes.WorkerBegins | broker/src/managed-referral-settlement.ts:284-326 | which job a worker claims, and for how long |
| SettlementLimits.InviteeConverges | broker/src/managed-referral-settlement.ts:328-457 | any number of half-done invitee tries and a success leave limit, budget and ledger as one clean try |
| SettlementLimits.ReferrerConverges | broker/src/managed-referral-settlement.ts:459-613 | likewise for the referrer phase |
| SettlementLimits.LimitsNeverFall | broker/src/managed-referral-settlement.ts:340-366 | no limit and no budget falls over any run |
| SettlementLimits.LimitsMatchLedger | broker/src/managed-referral-settlement.ts:745-758 | a settled invitee has at least 9 cents, a referrer at least 7 and 2 per credited reward, nobody more than 13 |
| SettlementLimits.LimitsAreEarned | broker/src/managed-referral-settlement.ts:477-484 | in every run a limit and a budget are at most 7 cents and 2 per reward of the referrer whose invitee was credited, or 9 for someone invited |
| SettlementLimits.CommittedReferrerPhase | broker/src/managed-referral-settlement.ts:459-613 | a committed referrer phase leaves limit and budget at the greatest of the old ones and 7 + 2 x the rewards counted, this one included, and credits the reward |
| SettlementLimits.CommittedInviteePhase | broker/src/managed-referral-settlement.ts:328-457 | a committed invitee phase likewise with 9 |
| SettlementLimits.StoppedPhaseChangesAtMostTheLimit | broker/src/managed-referral-settlement.ts:340-366 | a phase that stops early leaves at most the limit raised |
| SettlementLimits.LegacyUpdateLeaves | broker/src/referral.ts:609-752 | the legacy update likewise, for the rewards under its key |
| SettlementLimits.FateDecides | broker/src/managed-referral-settlement.ts:485-531 | when a try commits, and where it stops otherwise |
| SettlementLimits.ReflectedIsCapped | broker/src/managed-referral-settlement.ts:745-758 | the count behind a referrer's target never exceeds three |
| SettlementLimits.LegacyTryKeepsInv | broker/src/referral.ts:609-752 | the legacy lease, raise and bulk credit keep the same bounds |
| SettlementLimits.StaleRaiseLowersLimit | broker/src/managed-referral-settlement.ts:340-358 | a raise decided before another try committed lowers the limit exactly when it raises to less |
| SettlementLimits.StaleRaiseExample | broker/src/managed-referral-settlement.ts:340-358 | two overlapping tries on one key after which the limit is lower |
| SettlementLimits.SettlementDesk.ProcessInviteePhase | broker/src/managed-referral-settlement.ts:328-457 | claim check, read, raise, verify and fenced commit equal the try the theorems are about; when it advances, the key is raised to 9 and the invitee credited |
| SettlementLimits.SettlementDesk.ProcessReferrerPhase | broker/src/managed-referral-settlement.ts:459-613 | likewise; when it completes, limit and budget are raised to 7 + 2 x the rewards counted, and the reward is credited |
| SettlementLimits.SettlementDesk.RaiseLimit | broker/src/managed-referral-settlement.ts:339-365 | the shared part: read, raise if below the target, read again |
| SettlementDrain.ClaimedAtMostTwice | broker/src/managed-referral-settlement.ts:79-110 | a drain claims a job at most twice, and twice only after its invitee phase succeeded |
| SettlementDrain.TryLowersWork | broker/src/managed-referral-settlement.ts:284-326 | every claim strictly lowers the sum of (2 - phase rank) over the claimable jobs |
| SettlementDrain.TryingIsProgress | broker/src/managed-referral-settlement.ts:778-872 | no order of claims changes where the drain leaves a job |
| SettlementDrain.DrainLeaves | broker/src/managed-referral-settlement.ts:65-111 | where a drain leaves each due job: completed, or waiting in the phase that failed |
| SettlementDrain.SettlementRun.ProcessJobs | broker/src/managed-referral-settlement.ts:65-111 | the loop ends without its limit, the counters add up, and every job ends where its own outcomes put it; a release that throws ends the run with just its job left leased |
| SettlementDrain.SettlementRun.ClaimAndTry | broker/src/managed-referral-settlement.ts:284-326 | claiming a due job and ending its phase is one try of it |
| SettlementDrain.SettlementRun.NextDueJob | broker/src/managed-referral-settlement.ts:288-304 | the due job that is first by time and id, none exactly when none is due |
| KeyDelivery.PendingIsLeftOnce | broker/src/managed-key-delivery.ts:202-319 | a delivery leaves pending at most once and stays acknowledged |
| KeyDelivery.AcknowledgedMeansDelivered | broker/src/qq-managed-issue.ts:1304-1368 | the batch that acknowledges leaves the owner active with a delivered time and exactly one issue-success event |
| KeyDelivery.FinalizeIsIdempotent | broker/src/discord-managed-issue.ts:2449-2540 | running a finalize batch twice is running it once |
| KeyDelivery.RetryChangesNothingExactlyWithEvent | broker/src/abuse-monitoring.ts:69-135 | on an acknowledged delivery the batch changes nothing exactly while its event is kept |
| KeyDelivery.AcknowledgedKeyIsNeverSwept | broker/src/scheduled.ts:154-253 | the delivery sweep never removes the key of a delivery that is or will be acknowledged |
| KeyDelivery.SweptKeyIsHeldByNobody | broker/src/managed-key-delivery.ts:262-319 | when that sweep calls the provider, no owner holds the key as delivered |
| KeyOutcomes.OwnersGoOnlyAfterTheirKey | broker/src/scheduled.ts:214-252 | in every run an owner goes only because its issue takes it back, or through a sweep whom the provider told that the key is gone |
| KeyOutcomes.DeliveriesEndOnlyAfterTheirKey | broker/src/scheduled.ts:214-252 | in every run a delivery ends expired and unclaimed only so, or by a resume |
| KeyOutcomes.ConfirmedCleanupEndsDelivery | broker/src/scheduled.ts:255-425 | a confirmed cleanup deletes the owners of the key and ends the delivery |
| KeyOutcomes.UnconfirmedCleanupKeepsOwners | broker/src/scheduled.ts:427-516 | an unconfirmed one keeps each owner, flagged and no longer delivered, and the delivery is to be cleaned up |
| KeyOutcomes.OverdueDeliveryIsClaimed | broker/src/managed-key-delivery.ts:262-319 | an undisturbed sweep claims an overdue delivery whose key nobody holds, and goes on to the key |
| KeyOutcomes.ClaimIsTaken | broker/src/managed-key-delivery.ts:262-319 | when a claim is taken: of a pending delivery, or of one whose claim was left |
| KeyOutcomes.HandedOverDeliveryIsAcknowledged | broker/src/managed-key-delivery.ts:202-349 | a delivery found handed over is acknowledged, pending or under the claim that was listed |
| KeyOutcomes.PendingDeliveryIsFinalized | broker/src/qq-managed-issue.ts:1304-1368 | what the batch makes of owner, event and delivery |
| KeyOutcomes.OperationSweepRemoves | broker/src/managed-operation.ts:712-737 | the operation sweep removes a key exactly when it saw no acknowledged delivery of the operation, or saw nothing |
| KeyRemoval.KeysExistExactlyWithCarefulChecks | broker/src/managed-operation.ts:707-754 | for every run with clocks that agree: each acknowledged delivery keeps its key, now and whatever is under way then does, exactly when no operation sweep passed its check for a delivery that could still be acknowledged |
| KeyRemoval.NextKeepsSealed | broker/src/managed-key-delivery.ts:202-319 | a delivery that nothing under way can acknowledge never comes within reach again, whatever requests and sweeps do |
| KeyRemoval.CarelessCheckLosesKey | broker/src/managed-operation.ts:707-754 | otherwise some continuation acknowledges the removed key: an ACK under way, a new one in time, or a repair by the delivery sweep |
| KeyRemoval.GuardedCheckIsCareful | broker/src/managed-operation.ts:707-754 | a check that answers, after the delivery expired, with no validated ACK or repair of it under way and nobody holding its key, is careful |
| KeyRemoval.LateAckLosesKey | broker/src/managed-operation.ts:707-754 | a run in which an ACK validated in time reaches the tables after the operation sweep, checking an expired delivery, removed the key |
| KeyDelivery.BatchAcknowledgesExactly | broker/src/qq-managed-issue.ts:1304-1368 | on a pending delivery the batch acknowledges exactly when its owner awaits or holds the key |
| KeyDelivery.DeliveryTables.ValidateManagedKeyDeliveryAck | broker/src/managed-key-delivery.ts:160-200 | which of the six answers, exactly when |
| KeyDelivery.DeliveryTables.FinalizeDelivery | broker/src/qq-managed-issue.ts:1304-1368 | the statements on owner, identity, event and delivery in order, and whether this call acknowledged |
| KeyDelivery.DeliveryTables.ActivateOwnerRow | broker/src/qq-managed-issue.ts:1305-1328 | activates exactly the owner awaiting this pending delivery |
| KeyDelivery.DeliveryTables.ActivateIdentityRow | broker/src/discord-managed-issue.ts:2470-2488 | the Discord identity, under the same guard |
| KeyDelivery.DeliveryTables.InsertIssueSuccess | broker/src/abuse-monitoring.ts:69-135 | one event per credential, only for a pending or acknowledged delivery |
| KeyDelivery.DeliveryTables.AcknowledgeRow | broker/src/qq-managed-issue.ts:1337-1364 | acknowledges exactly when owner and event are in place, and says so |
| AckSettlement.RefusedExactlyWithoutRoom | broker/src/qq-managed-issue.ts:1365-1507 | an ACK is refused for its rewards, batch rolled back or not, exactly when more reserved rewards lack a job than the delivery may still have |
| AckSettlement.AcceptedExactly | broker/src/managed-referral-settlement.ts:113-184 | whichever queries throw after the batch, the call is accepted exactly when no reserved reward is left without a job or the query for one failed, the first QQ check aside |
| AckSettlement.RefusalStands | broker/src/managed-referral-settlement.ts:113-184 | a call refused for its rewards is refused again until other writers change the rows |
| AckSettlement.AcknowledgingBatchIsAccepted | broker/src/discord-managed-issue.ts:2449-2608 | within the caps of the ledger the batch that acknowledges a delivery without a job leaves every reserved reward with one, and is accepted whatever throws later but the first QQ check |
| AckSettlement.TakenDeliveryRefusesAck | broker/migrations/0019_managed_referral_settlement.sql:3-33 | a retried ACK refused although the caps hold, because its delivery has the job of a failed reward |
| AckSettlement.UnacknowledgedIsAcceptedExactly | broker/src/discord-managed-issue.ts:2591-2625 | a delivery whose owner cannot be activated stays pending, yet the call goes on exactly when no reward waits for a job or the query for one failed, the first QQ check aside |
| AckSettlement.JobsStayUnique | broker/migrations/0019_managed_referral_settlement.sql:3-33 | every call keeps at most one job per delivery |
| AckSettlement.BatchIsIdempotent | broker/src/qq-managed-issue.ts:1304-1423 | running the whole batch twice is running it once |
| AckSettlement.SelectsExactlyOne | broker/src/qq-managed-issue.ts:1405-1413 | the inner SELECT has exactly one answer |
| AckSettlement.NewestIsSelected | broker/src/qq-managed-issue.ts:1405-1413 | it is the newest reward reserved for the person and installation |
| AckSettlement.BatchServesNewest | broker/src/qq-managed-issue.ts:1365-1423 | which reward gets the job of the batch, and when the batch is undone |
| AckSettlement.RepairServesTheOne | broker/src/managed-referral-settlement.ts:113-156 | the repair serves the one reward without a job, of an acknowledged delivery without one |
| AckSettlement.AckDesk.InsertSettlementJob | broker/src/qq-managed-issue.ts:1365-1423 | tolerates a conflict on the reward, fails on one on the delivery |
| AckSettlement.AckDesk.FinalizeBatch | broker/src/qq-managed-issue.ts:1304-1423 | all statements of the batch in order, taken back together when one fails, and whether this call acknowledged |
| AckSettlement.AckDesk.EnsureJobs | broker/src/managed-referral-settlement.ts:113-156 | inserts the one missing job of an acknowledged delivery that has none, and otherwise nothing |
| AckSettlement.AckDesk.Conclude | broker/src/qq-managed-issue.ts:1425-1507 | the checks after the batch, in the order of each finalize function, for queries that may throw |
| AckSettlement.AckDesk.HandleAck | broker/src/managed-key-delivery.ts:351-434 | which answer when: refusals change nothing, otherwise exactly the finalize call runs |
| RateLimiter.AcceptedStayWithinLimit | broker/src/abuse-controls.ts:480-564 | with clocks that lag at most the margin, every closed window of a covered limit holds at most its maximum of accepted requests per subject, under any interleaving |
| RateLimiter.WindowsHoldOverRuns | broker/src/abuse-monitoring.ts:374-397 | the same for requests that passed the limit, with retention sweeps in between |
| RateLimiter.LimitsHoldExactlyWithinMargin | broker/src/abuse-monitoring.ts:374-397 | whatever the settings: the limits hold in every run whose checking clocks lag the sweeps by at most a given time exactly when that time is at most the margin |
| RateLimiter.LaggingClockBreaksLimit | broker/src/abuse-monitoring.ts:478-507 | for any margin, a run in which a sweep ahead of a clock lagging by more breaks a limit |
| RateLimiter.LastCheckCountsAll | broker/src/abuse-controls.ts:337-352 | whoever checks last has counted every request that passed in its window |
| RateLimiter.RefusedRequestsExceedLimit | broker/src/abuse-controls.ts:480-564 | no false refusal, in every run: more requests of its own endpoint, and of its own address or installation, than the limit allows were recorded in its window |
| RateLimiter.CheckDecides | broker/src/abuse-controls.ts:499-560 | a check refuses exactly when the rows of its endpoint and subject in the window exceed the limit |
| RateLimiter.RequestLog.CheckEndpointRateLimit | broker/src/abuse-controls.ts:480-564 | refuses at the first exceeded limit, for rows of its own endpoint and subject in the window, with the delay until the oldest counted event has left it |
| RateLimiter.RequestLog.Oldest | broker/src/abuse-controls.ts:499-509 | the minimum time of the counted rows |
| RuntimeLatch.LatchIsMaximumOfAppliedSamples | broker/src/abuse-monitoring.ts:424-476 | the latch is the greatest applied sample by (time, above), and every persisted flip is reported by exactly one call |
| RuntimeLatch.OrderDoesNotMatter | broker/src/abuse-monitoring.ts:437-453 | the same samples in any order leave the same latch |
| RuntimeLatch.JoinedIsMaximum | broker/src/abuse-monitoring.ts:437-453 | the latch after any samples is one of them and above them all |
| RuntimeLatch.SwapJoins | broker/src/abuse-controls.ts:162-274 | a successful compare-and-swap joins the sample into the latch as it now is |
| RuntimeLatch.SwapReportsFlips | broker/src/abuse-controls.ts:162-274 | it reports a flip exactly when the persisted flag goes from false to true |
| RuntimeLatch.UndisturbedCallTakesEffect | broker/src/abuse-monitoring.ts:424-476 | a call that nobody disturbs takes effect: the latch by time and threshold, the brake exactly with a sample above its own |
| RuntimeLatch.SwapTakesEffectUnlessBeaten | broker/src/abuse-controls.ts:162-274 | a swap takes effect unless a section it would change was changed, and brakes only for such a sample |
| RuntimeLatch.BeatenSwapReadsAgain | broker/src/abuse-monitoring.ts:424-476 | a lost race changes nothing and reads again, until its third loss |
| RuntimeLatch.BrakeDecides | broker/src/abuse-monitoring.ts:454-466 | when the automatic brake goes on, and as what |
| RuntimeLatch.RuntimeState.Persist | broker/src/abuse-controls.ts:162-274 | writes the changed sections exactly when none of them was changed by others |
| RuntimeLatch.RuntimeState.ApplyImmediateChanges | broker/src/abuse-monitoring.ts:424-476 | the retry loop against rival writers |
| DailyCap.CapHolds | broker/src/abuse-controls.ts:684-787 | mixing fresh Discord and QQ issuance, no UTC day has more than the maximum of passed reservations standing as long as no resume writes |
| DailyCap.CapHoldsExactlyWithRoomForResumes | broker/src/discord-managed-issue.ts:2976-2988 | for every run: the cap holds throughout exactly when each resume finds room for itself at the moment it writes |
| DailyCap.UndisturbedResumeHasRoom | broker/src/discord-managed-issue.ts:2976-2988 | a resume whose check passed has that room unless another request of its day passed in between |
| DailyCap.ResumesExceedCap | broker/src/discord-managed-issue.ts:2976-2988 | two resumes that exceed a cap of one |
| DailyCap.RetryAfterEndsTheDay | broker/src/abuse-controls.ts:698-706 | the advertised delay ends at the next UTC midnight |
| DailyCap.QqIsLetThroughExactlyWithRoom | broker/src/qq-managed-issue.ts:193-222 | a QQ request passes exactly when the UTC day had room before it came, and otherwise takes its row back |
| DailyCap.TakenOverRowDoesNotCount | broker/src/abuse-controls.ts:709-772 | a row that is taken over does not count against its new request |
| DailyCap.DiscordIsLetThroughExactlyWithRoom | broker/src/abuse-controls.ts:684-772 | fresh Discord issuance gets its row exactly when the day has room |
| DailyCap.ResumeIsLetThroughExactlyWithRoom | broker/src/discord-managed-issue.ts:2976-2988 | a resume writes exactly when the day had room at its check |
| DailyCap.CapStateIsExact | broker/src/abuse-controls.ts:684-772 | the count is that of the other reservations between two UTC midnights, and the cap reached exactly from its maximum on |
| DailyCap.IssuanceTables.CountRows | broker/src/abuse-controls.ts:709-772 | counts the rows of both tables on the day, but for the excluded one |
| DailyCap.IssuanceTables.GetCapState | broker/src/abuse-controls.ts:684-707 | the count over both tables and the decision |
| DailyCap.IssuanceTables.ReserveQqUnderCap | broker/src/qq-managed-issue.ts:193-222 | without interleaving: reserves exactly below the cap, and otherwise leaves the table as it was |
| IpCanonical.Ipv6AcceptsExactlySpellings | broker/src/network-identity.ts:68-105 | a hexadecimal spelling is accepted exactly when it denotes eight groups, and printed as them |
| IpCanonical.Ipv4AcceptsExactlySpellings | broker/src/network-identity.ts:30-47 | a dotted spelling is accepted exactly when it denotes four octets, and printed as them |
| IpCanonical.SameCanonicalExactlySameGroups | broker/src/network-identity.ts:68-105 | two spellings share a canonical form exactly when they denote the same groups |
| IpCanonical.SameCanonicalExactlySameOctets | broker/src/network-identity.ts:30-47 | likewise for octets |
| IpCanonical.NormalizeIsIdempotent | broker/src/network-identity.ts:10-66 | normalising a normal form changes nothing, for every accepted input |
| IpCanonical.SamePrefixExactlySameNetwork | broker/src/network-identity.ts:107-112 | two normal IPv6 addresses share a prefix exactly when their first four groups agree |
| AddressOutcomes.HexAddressIsRead | broker/src/network-identity.ts:68-105 | in either case, with or without brackets and zone, a text that spells eight groups is read as them |
| AddressOutcomes.MappedAddressIsRead | broker/src/network-identity.ts:49-62 | an IPv4-mapped address in its usual spellings is the IPv4 address |
| AddressOutcomes.EmbeddedAddressIsRead | broker/src/network-identity.ts:49-66 | after any other front four octets are the last two groups |
| AddressOutcomes.OuterSpaceIsIgnored | broker/src/network-identity.ts:10-14 | space around an address is ignored |
| AddressOutcomes.UnreadableIsRefused | broker/src/network-identity.ts:11-17 | inner space, quotes, nothing and more than 256 characters are refused |
| AddressOutcomes.SameIpv4PrefixExactlySameNetwork | broker/src/network-identity.ts:107-112 | two normal IPv4 addresses share a prefix exactly when their first three octets agree |
| IpCanonical.StrippedIsNumeral | broker/src/network-identity.ts:102-105 | stripping leading zeros is printing the value |
| IpCanonical.CanonicalizeIpv4Address | broker/src/network-identity.ts:30-47 | the loop over the parts computes the canonical form |
| NetworkIdentity.KeyedCountsLikePlain | broker/src/network-identity.ts:170-204 | counting by digests equals counting by address exactly when each such event in the window is under a known key and no later than today |
| NetworkIdentity.RotationKeepsCounts | broker/src/network-identity.ts:148-168 | rotating the key with the old one kept as previous keeps a count exactly when no event it could count is under the key that is dropped, or already under the new one |
| NetworkIdentity.MatchesExactly | broker/src/abuse-controls.ts:440-478 | which events a query counts, in either mode, in terms of the address they really had |
| NetworkIdentity.CountTakesIn | broker/src/abuse-controls.ts:440-478 | which rows a count takes in, by key, day and address, or in dual mode by the text |
| NetworkIdentity.RequestIsRecorded | broker/src/abuse-controls.ts:354-429 | what a request leaves of its address |
| NetworkIdentity.RowIsBackfilled | broker/src/network-identity-migration.ts:146-171 | what the backfill makes of a row |
| NetworkIdentity.FinalizationLeaves | broker/src/network-identity-migration.ts:289-313 | which rows the finalisation deletes and what it clears in the others |
| NetworkMigration.CountsArePlain | broker/src/network-identity-migration.ts:122-326 | from legacy rows through any requests, backfills, rotations and careful finalisers stopped anywhere: with at most one rotation since the window opened, agreeing clocks and no later day, a covered window counts a parseable address plainly |
| NetworkMigration.CountsSurviveMigration | broker/src/network-identity-migration.ts:122-326 | in any run at all, the count is plain exactly when each request is still there and recognisable, or there under the text asked for while both columns are read |
| NetworkMigration.NothingIsLostExactlyWhenCareful | broker/src/network-identity-migration.ts:172-326 | for every run: no covered request with a readable address is lost, now or by finalisers already let through, exactly when each pending count that let one through left no covered row undigested |
| NetworkMigration.TruthfulCountIsCareful | broker/src/network-identity-migration.ts:243-254 | a pending count that was really read as zero meets that condition |
| NetworkMigration.ThrowingCountLosesARequest | broker/src/network-identity-migration.ts:243-316 | a pending count that throws over one undigested row, and the row and its count are gone |
| NetworkMigration.RecentKeyIsKnown | broker/src/network-identity.ts:148-168 | with at most one rotation since the window opened every row in it carries a key in use |
| NetworkMigration.SwitchIsReachedOnlyClean | broker/src/network-identity-migration.ts:289-326 | only a finaliser at its last stage switches the mode, and it got there past a clean table |
| NetworkMigration.FinaliserGoesOn | broker/src/network-identity-migration.ts:289-326 | a finaliser goes on only after a statement that succeeded |
| NetworkMigration.UndisturbedStatementsLeave | broker/src/network-identity-migration.ts:289-313 | what the statements of an undisturbed finaliser leave |
| NetworkMigration.InstallationCountsSurvive | broker/src/network-identity-migration.ts:289-326 | no step of any run changes a count by installation |
| NetworkIdentity.BackfillLeavesOnlyUnreadable | broker/src/network-identity-migration.ts:122-179 | after a backfill only unreadable addresses with an installation stay pending among the listed rows |
| NetworkIdentity.EnumerateNetworkIdentityEpochs | broker/src/network-identity.ts:196-204 | every UTC day the window touches, once and in order |
| NetworkIdentity.DeriveDigestsForWindow | broker/src/network-identity.ts:170-194 | one digest per day and known key, and no other |
| NetworkIdentity.RequestEvents.RecordRequestEvent | broker/src/abuse-controls.ts:354-429 | the row each write mode records, and that it is truthful |
| NetworkIdentity.RequestEvents.RunBackfill | broker/src/network-identity-migration.ts:146-171 | the loop backfills exactly the listed rows and counts the digests it wrote |
| NetworkIdentity.RequestEvents.BackfillRow | broker/src/network-identity-migration.ts:146-171 | digest, sentinel, or nothing, and whether a digest was written |
| NetworkIdentity.RequestEvents.CountPendingLegacyRequestEvents | broker/src/network-identity-migration.ts:243-254 | reads as zero exactly when nothing is pending in the window or the query throws |
| NetworkIdentity.RequestEvents.FinalizeMigration | broker/src/network-identity-migration.ts:289-326 | the purge and clearing statements in order, stopped where one fails, and the mode switched only on a clean table |

## Left out

- HTTP routing, request parsing, response bodies, logging, alerts and Discord webhooks: input and output only.
- Cryptography and random identifiers: injective constructors and fresh values stand for them.
- Columns that no guard reads, such as creation times of entitlements, network metadata and budgets outside settlement.
- Floating-point dollars: the arithmetic is on cents.
- Discord resume issuance: what it does to an operation are the claimant's steps of `OperationGate`; its entitlement and identity rows are not modelled.
- Discord issuance beyond its insert into the daily cap and its delivery finalisation: reservation follows the pattern of the QQ protocol with more tables.
- `managed_operations.settlement_status` and `referral_status`: a repeated acknowledgement rewrites the former unguarded.
- ManagedOperation.OperationTables.SweepUnknown: covers the reconciling loop of the sweep; the expiry, stale-creating and overdue-delivery loops appear as single steps of the transition system, and a reconcile that follows a failed verification there is a step of its own.
- ManagedOperation.OperationTables.HandleManagedOperationResume: starts after authorisation; what the handler reads about deliveries besides their rows (which is the latest, whether it is overdue, whether the conflict query answers) is an input.
- QqIssuance.OneKeyExactlyInGuardedRuns: whether a bound request is told to skip its cleanup is an answer of the environment; `OperationGate` says when that answer is right. A resume that another live operation holds back ends there, like one that dies.
- OperationGate.RetryGate: assumes listings that tell the truth of their moment; `ProviderListing` says when they do.
- AckSettlement.AckDesk.HandleAck: the answers of `markOperationActiveOnAck` (see `ManagedOperation`) and of the inner SELECT are inputs, the latter unique by `SelectsExactlyOne`; request validation, the rate limit, missing issue metadata and the monitoring after it are left out.
- AckSettlement.RefusedExactlyWithoutRoom: for rows that agree on whose delivery it is, as issuing writes them.
- KeyRemoval.KeysExistExactlyWithCarefulChecks: ACKs are validated at times no earlier than any seen before; which operations a sweep lists is left open.
- KeyDelivery: activation without an acknowledgement, for which no delivery row exists; retention of closed delivery rows.
- The drain loop around the legacy update (`referral.ts:569-607`): it repeats the modelled attempt at most six times.
- SettlementLimits.LimitsMatchLedger: tries on one key do not interleave, as `StaleRaiseLowersLimit` shows they must not; keys are not reissued, and a crash between budget and credit in the legacy attempt is a try without commit.
- SettlementDrain.SettlementRun.ProcessJobs: one worker at a fixed time; whether a phase succeeds, and whether a release throws, are inputs (`Settlement` and `SettlementLimits` have the phases).
- RateLimiter.AcceptedStayWithinLimit: windows that the retention list does not name, such as those of the managed-operation and acknowledgement endpoints, are covered only if no longer than the longest it names.
- DailyCap.CapHolds: windows of one day; the trial issue path, which checks and writes in separate steps like a Discord resume, is not part of this model.
- IpCanonical.SameCanonicalExactlySameGroups: hexadecimal spellings; of IPv4-mapped addresses the code unifies only some dotted spellings.
- NetworkMigration.CountsArePlain: parseable addresses, since without a usable match the code counts the whole endpoint; the write mode `legacy` is over and the HMAC secrets are configured.
- Velocity-cap and subject hooks, prefix digests of issue-success events and the referral rows of the migration: they repeat the counting shown for request events.
- Telemetry, OAuth, trial policy, the native and Python parts of the repository.
