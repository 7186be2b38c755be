/**
 What every step of a managed operation answers and leaves behind, told from its row, its attempts and
 the keys at the provider, and which step alone may bring an operation into which state.
 */
module OperationOutcomes {
  import opened Common
  import opened ManagedOperation
  import opened OperationGate

  // ---------------------------------------------------------------- the row of one operation

  /** The operation is in the state, tells its client so, and nothing else of any operation has changed. */
  predicate Becomes(s: Store, r: Store, id: OperationId, state: State, action: ClientAction) {
    id in s.operations && r.operations == s.operations[id := s.operations[id].(state := state, clientAction := action)]
  }

  /** Only keys may have gone. */
  predicate SameRows(s: Store, r: Store) {
    r.operations == s.operations && r.attempts == s.attempts && r.deliveries == s.deliveries
  }

  /** The row of the current attempt, if there is one, is marked cleaned, and no other attempt changes. */
  predicate CurrentCleaned(s: Store, r: Store, id: OperationId)
    requires id in s.operations
  {
    var a := (id, s.operations[id].currentAttempt);
    r.attempts == if a in s.attempts then s.attempts[a := s.attempts[a].(outcome := OutcomeCleaned)] else s.attempts
  }

  lemma Transitioned(s: Store, id: OperationId, to: State, from: set<State>)
    ensures var r := Transition(s, id, to, from);
            && r.attempts == s.attempts && r.keys == s.keys && r.deliveries == s.deliveries
            && (id in s.operations && s.operations[id].state in from ==>
                  r.operations == s.operations[id := Moved(s.operations[id], to)])
            && (id !in s.operations || s.operations[id].state !in from ==> r == s)
  {
  }

  /** What each state tells the client to do. */
  lemma ClientIsTold(state: State)
    ensures state == RetryReady ==> ClientActionForState(state) == RetryAuthorized
    ensures state == State.DeliveryPending ==> ClientActionForState(state) == AcknowledgeDelivery
    ensures state == Failed ==> ClientActionForState(state) == ActionRequired
    ensures state !in {RetryReady, State.DeliveryPending, Failed} ==> ClientActionForState(state) == Wait
  {
  }

  // ---------------------------------------------------------------- the sweep of an overdue delivery

  /** The credential that the current attempt of an operation recorded. */
  function Recorded(s: Store, id: OperationId): Option<KeyHash>
    requires id in s.operations
  {
    var a := (id, s.operations[id].currentAttempt);
    if a in s.attempts then s.attempts[a].credential else None
  }

  /** Marking the attempt cleaned and moving on to RETRY_READY, from a state the guard names. */
  lemma CleanedIsRetryable(s: Store, id: OperationId, i: nat, from: set<State>, r: Store)
    requires id in s.operations && s.operations[id].currentAttempt == i && r == Cleaned(s, id, i, from)
    ensures CurrentCleaned(s, r, id) && r.keys == s.keys && r.deliveries == s.deliveries
    ensures s.operations[id].state in from + {Clean} ==> Becomes(s, r, id, RetryReady, RetryAuthorized)
    ensures s.operations[id].state !in from + {Clean} ==> r.operations == s.operations
  {
    var t := SetOutcome(s, id, i, OutcomeCleaned);
    var u := Transition(t, id, Clean, from);
    Transitioned(t, id, Clean, from);
    Transitioned(u, id, RetryReady, {Clean});
  }

  /**
   An overdue delivery: acknowledged, the operation is active; without a credential, its creation is
   unknown; with its key removed and its absence verified it may be retried; and otherwise it is to be
   cleaned up, whatever has become of the key.
   */
  lemma OverdueDeliveryIsDecided(s: Store, id: OperationId, acknowledged: bool, answers: Answers, r: Store)
    requires id in s.operations && s.operations[id].state == State.DeliveryPending
    requires r == SweepDelivery(s, id, acknowledged, answers)
    ensures r.deliveries == s.deliveries
    ensures acknowledged ==> Becomes(s, r, id, Active, Wait) && r.attempts == s.attempts && r.keys == s.keys
    ensures !acknowledged && Recorded(s, id).None? ==>
              Becomes(s, r, id, CreateUnknown, Wait) && r.attempts == s.attempts && r.keys == s.keys
    ensures !acknowledged && Recorded(s, id).Some? && answers.cleanup == Confirmed && answers.verify == Listed(None) ==>
              Becomes(s, r, id, RetryReady, RetryAuthorized) && CurrentCleaned(s, r, id) && r.keys == s.keys - {Recorded(s, id).value}
    ensures !acknowledged && Recorded(s, id).Some? && !(answers.cleanup == Confirmed && answers.verify == Listed(None)) ==>
              && Becomes(s, r, id, CleanupRequired, Wait) && r.attempts == s.attempts
              && r.keys == if answers.cleanup == Unconfirmed(false) then s.keys else s.keys - {Recorded(s, id).value}
  {
    if !acknowledged && Recorded(s, id).Some? && answers.cleanup == Confirmed && answers.verify == Listed(None) {
      var u := CleanUp(s, Recorded(s, id).value, answers.cleanup);
      CleanedIsRetryable(u, id, s.operations[id].currentAttempt, {State.DeliveryPending}, r);
    }
  }

  /** The four outcomes exclude each other, so that each condition is exact. */
  lemma OverdueDeliveryIsDecidedExactly(s: Store, id: OperationId, acknowledged: bool, answers: Answers, r: Store)
    requires id in s.operations && s.operations[id].state == State.DeliveryPending
    requires r == SweepDelivery(s, id, acknowledged, answers)
    ensures id in r.operations
    ensures r.operations[id].state == Active <==> acknowledged
    ensures r.operations[id].state == CreateUnknown <==> !acknowledged && Recorded(s, id).None?
    ensures r.operations[id].state == RetryReady <==>
              !acknowledged && Recorded(s, id).Some? && answers.cleanup == Confirmed && answers.verify == Listed(None)
    ensures r.operations[id].state == CleanupRequired <==>
              !acknowledged && Recorded(s, id).Some? && !(answers.cleanup == Confirmed && answers.verify == Listed(None))
  {
    OverdueDeliveryIsDecided(s, id, acknowledged, answers, r);
  }

  /** An operation in any other state is not swept. */
  lemma OthersAreNotSwept(s: Store, id: OperationId, acknowledged: bool, answers: Answers)
    requires id !in s.operations || s.operations[id].state != State.DeliveryPending
    ensures SweepDelivery(s, id, acknowledged, answers) == s
  {
  }

  // ---------------------------------------------------------------- reconcile

  /** The states that wait for a reconcile. */
  predicate Waits(state: State) { state in {CreateUnknown, Reconciling, CleanupRequired, Clean} }

  /** An operation without any attempt is not reconciled. */
  lemma NothingIsReconciled(s: Store, id: OperationId, answers: Answers)
    requires id !in s.operations || (s.operations[id].currentAttempt == 0 && forall a | a in s.attempts :: a.0 != id)
    ensures Reconcile(s, id, answers) == s
  {
  }

  /** A missing attempt row is put back under its deterministic name, unless that name is taken. */
  lemma MissingAttemptIsPutBack(s: Store, id: OperationId)
    requires id in s.operations
    ensures var op := s.operations[id];
            var name := KeyName(op.party.source, if |id| <= 16 then id else id[..16], op.currentAttempt);
            Repaired(s, id) ==
              if (id, op.currentAttempt) !in s.attempts && op.currentAttempt > 0 && (forall a | a in s.attempts :: s.attempts[a].keyName != name)
              then s.(attempts := s.attempts[(id, op.currentAttempt) := Attempt(name, None, OutcomeUnknown)]) else s
  {
  }

  /** A failing listing leaves a waiting operation in RECONCILING, and any other as it was. */
  lemma UnlistedIsReconciling(s: Store, id: OperationId, answers: Answers, r: Store)
    requires id in s.operations && s.operations[id].currentAttempt > 0 && answers.find == Unavailable
    requires r == Reconcile(s, id, answers)
    ensures r.attempts == Repaired(s, id).attempts && r.keys == s.keys && r.deliveries == s.deliveries
    ensures if Waits(s.operations[id].state) then Becomes(s, r, id, Reconciling, Wait) else r.operations == s.operations
  {
    Transitioned(Repaired(s, id), id, Reconciling, TO_RECONCILING);
  }

  lemma BecomesTwice(s: Store, t: Store, r: Store, id: OperationId, x: State, toldX: ClientAction, y: State, toldY: ClientAction)
    requires Becomes(s, t, id, x, toldX) && Becomes(t, r, id, y, toldY)
    ensures Becomes(s, r, id, y, toldY)
  {
    var op := s.operations[id];
    assert op.(state := x, clientAction := toldX).(state := y, clientAction := toldY) == op.(state := y, clientAction := toldY);
  }

  /** RECONCILING, as the first thing a reconcile does to a waiting operation. */
  lemma BecomesReconciling(s: Store, id: OperationId, t: Store)
    requires id in s.operations && t == Transition(s, id, Reconciling, TO_RECONCILING)
    ensures t.attempts == s.attempts && t.keys == s.keys && t.deliveries == s.deliveries
    ensures if Waits(s.operations[id].state) then Becomes(s, t, id, Reconciling, Wait) else t == s
  {
    Transitioned(s, id, Reconciling, TO_RECONCILING);
  }

  lemma NothingToCleanUp(s: Store, id: OperationId, answers: Answers, t: Store, r: Store)
    requires id in s.operations && s.operations[id].currentAttempt > 0
    requires answers.find == Listed(None) && Recorded(s, id).None?
    requires t == Transition(Repaired(s, id), id, Reconciling, TO_RECONCILING) && r == Reconcile(s, id, answers)
    ensures r == Cleaned(t, id, s.operations[id].currentAttempt, TO_CLEAN_WHEN_ABSENT)
  {
  }

  /** Nothing listed and nothing recorded: the attempt is cleaned, and a waiting operation may be retried. */
  lemma AbsentIsRetryable(s: Store, id: OperationId, answers: Answers, s1: Store, r: Store)
    requires id in s.operations && s.operations[id].currentAttempt > 0 && s1 == Repaired(s, id)
    requires answers.find == Listed(None) && Recorded(s, id).None?
    requires r == Reconcile(s, id, answers)
    ensures CurrentCleaned(s1, r, id) && r.keys == s.keys && r.deliveries == s.deliveries
    ensures if Waits(s.operations[id].state) then Becomes(s, r, id, RetryReady, RetryAuthorized) else r.operations == s.operations
  {
    var t := Transition(s1, id, Reconciling, TO_RECONCILING);
    NothingToCleanUp(s, id, answers, t, r);
    VerifiedAbsenceDecides(s1, t, id, TO_CLEAN_WHEN_ABSENT, r);
  }

  lemma VerifiedAbsenceDecides(s1: Store, t: Store, id: OperationId, from: set<State>, r: Store)
    requires id in s1.operations && t == Transition(s1, id, Reconciling, TO_RECONCILING)
    requires from == TO_CLEAN_WHEN_ABSENT && r == Cleaned(t, id, s1.operations[id].currentAttempt, from)
    ensures CurrentCleaned(s1, r, id) && r.keys == s1.keys && r.deliveries == s1.deliveries
    ensures if Waits(s1.operations[id].state) then Becomes(s1, r, id, RetryReady, RetryAuthorized) else r.operations == s1.operations
  {
    BecomesReconciling(s1, id, t);
    CleanedIsRetryable(t, id, s1.operations[id].currentAttempt, from, r);
    if Waits(s1.operations[id].state) { BecomesTwice(s1, t, r, id, Reconciling, Wait, RetryReady, RetryAuthorized); }
  }

  /** The key a reconcile asks the provider to clean up: the recorded one, or else the one listed. */
  function ToCleanUp(s: Store, id: OperationId, found: Option<KeyHash>): Option<KeyHash>
    requires id in s.operations
  {
    if Recorded(s, id).Some? then Recorded(s, id) else found
  }

  /** After the cleanup was asked for: a waiting operation is in CLEANUP_REQUIRED, and the key may be gone. */
  lemma CleanupIsAskedFor(s: Store, id: OperationId, k: KeyHash, answer: Cleanup, t: Store, u: Store)
    requires id in s.operations && t == Transition(s, id, Reconciling, TO_RECONCILING) && u == Scrubbed(t, id, k, answer)
    ensures u.attempts == s.attempts && u.deliveries == s.deliveries
    ensures u.keys == if answer == Unconfirmed(false) then s.keys else s.keys - {k}
    ensures if Waits(s.operations[id].state) then Becomes(s, u, id, CleanupRequired, Wait) else u.operations == s.operations
  {
    Transitioned(s, id, Reconciling, TO_RECONCILING);
    Transitioned(t, id, CleanupRequired, TO_CLEANUP);
  }

  /** The whole of a reconcile that has a key to clean up, from the answer of its listing on. */
  lemma CleanupGoesOn(s: Store, id: OperationId, answers: Answers, k: KeyHash, s1: Store, t: Store, u: Store, r: Store)
    requires id in s.operations && s.operations[id].currentAttempt > 0
    requires answers.find.Listed? && ToCleanUp(s, id, answers.find.key) == Some(k)
    requires s1 == Repaired(s, id) && t == Transition(s1, id, Reconciling, TO_RECONCILING) && u == Scrubbed(t, id, k, answers.cleanup)
    requires r == Reconcile(s, id, answers)
    ensures r == Concluded(u, id, s.operations[id].currentAttempt, s.operations[id].cleanupAttempts + 1, answers.find.key.Some?, answers)
  {
  }

  lemma RemovalDecides(s1: Store, u: Store, id: OperationId, from: set<State>, r: Store)
    requires id in s1.operations && (from == TO_CLEAN_WHEN_ABSENT || from == TO_CLEAN_AFTER_CLEANUP)
    requires u.attempts == s1.attempts && r == Cleaned(u, id, s1.operations[id].currentAttempt, from)
    requires if Waits(s1.operations[id].state) then Becomes(s1, u, id, CleanupRequired, Wait) else u.operations == s1.operations
    ensures CurrentCleaned(s1, r, id) && r.keys == u.keys && r.deliveries == u.deliveries
    ensures if Waits(s1.operations[id].state) then Becomes(s1, r, id, RetryReady, RetryAuthorized) else r.operations == s1.operations
  {
    CleanedIsRetryable(u, id, s1.operations[id].currentAttempt, from, r);
    if Waits(s1.operations[id].state) { BecomesTwice(s1, u, r, id, CleanupRequired, Wait, RetryReady, RetryAuthorized); }
  }

  /** The key is removed and verified gone: the attempt is cleaned, and a waiting operation may be retried. */
  lemma RemovedIsRetryable(s: Store, id: OperationId, answers: Answers, k: KeyHash, s1: Store, r: Store)
    requires id in s.operations && s.operations[id].currentAttempt > 0 && s1 == Repaired(s, id)
    requires answers.find.Listed? && ToCleanUp(s, id, answers.find.key) == Some(k)
    requires answers.cleanup == Confirmed && answers.verify == Listed(None) && r == Reconcile(s, id, answers)
    ensures CurrentCleaned(s1, r, id) && r.keys == s.keys - {k} && r.deliveries == s.deliveries
    ensures if Waits(s.operations[id].state) then Becomes(s, r, id, RetryReady, RetryAuthorized) else r.operations == s.operations
  {
    var t := Transition(s1, id, Reconciling, TO_RECONCILING);
    var u := Scrubbed(t, id, k, answers.cleanup);
    CleanupIsAskedFor(s1, id, k, answers.cleanup, t, u);
    CleanupGoesOn(s, id, answers, k, s1, t, u, r);
    RemovalDecides(s1, u, id, if answers.find.key.Some? then TO_CLEAN_AFTER_CLEANUP else TO_CLEAN_WHEN_ABSENT, r);
  }

  /** Removed and not verified gone, or not removed under a listing that showed nothing: it stays to be cleaned up. */
  lemma UnverifiedStaysToBeCleanedUp(s: Store, id: OperationId, answers: Answers, k: KeyHash, r: Store)
    requires id in s.operations && s.operations[id].currentAttempt > 0
    requires answers.find.Listed? && ToCleanUp(s, id, answers.find.key) == Some(k)
    requires if answers.cleanup == Confirmed then answers.verify != Listed(None) else answers.find.key.None?
    requires r == Reconcile(s, id, answers)
    ensures r.attempts == Repaired(s, id).attempts && r.deliveries == s.deliveries
    ensures r.keys == if answers.cleanup == Unconfirmed(false) then s.keys else s.keys - {k}
    ensures if Waits(s.operations[id].state) then Becomes(s, r, id, CleanupRequired, Wait) else r.operations == s.operations
  {
    var s1 := Repaired(s, id);
    var t := Transition(s1, id, Reconciling, TO_RECONCILING);
    var u := Scrubbed(t, id, k, answers.cleanup);
    CleanupIsAskedFor(s1, id, k, answers.cleanup, t, u);
    CleanupGoesOn(s, id, answers, k, s1, t, u, r);
  }

  /** The row after a failed cleanup: one failure more, and the fifth ends the operation, in whatever state it is. */
  function AfterFailure(op: Operation): Operation {
    if op.cleanupAttempts + 1 >= 5
    then op.(state := Failed, clientAction := ActionRequired, failureReason := Some(CleanupFailedTerminal), cleanupAttempts := op.cleanupAttempts + 1)
    else if op.state in {CreateUnknown, Reconciling, CleanupRequired, Clean}
    then op.(state := CleanupRequired, clientAction := Wait, cleanupAttempts := op.cleanupAttempts + 1)
    else op.(cleanupAttempts := op.cleanupAttempts + 1)
  }

  lemma FailureIsCounted(s: Store, u: Store, id: OperationId, r: Store)
    requires id in s.operations
    requires if Waits(s.operations[id].state) then Becomes(s, u, id, CleanupRequired, Wait) else u.operations == s.operations
    requires r == CountFailure(u, id, s.operations[id].cleanupAttempts + 1)
    ensures r.attempts == u.attempts && r.keys == u.keys && r.deliveries == u.deliveries
    ensures r.operations == s.operations[id := AfterFailure(s.operations[id])]
  {
  }

  lemma FailedCleanupGoesOn(s: Store, id: OperationId, answers: Answers, k: KeyHash, u: Store, r: Store)
    requires id in s.operations && s.operations[id].currentAttempt > 0
    requires answers.find.Listed? && answers.find.key.Some? && ToCleanUp(s, id, answers.find.key) == Some(k)
    requires answers.cleanup != Confirmed && r == Reconcile(s, id, answers)
    requires u == Scrubbed(Transition(Repaired(s, id), id, Reconciling, TO_RECONCILING), id, k, answers.cleanup)
    ensures r == CountFailure(u, id, s.operations[id].cleanupAttempts + 1)
  {
  }

  /** A listed key that the provider does not confirm removed: the failure is counted. */
  lemma FailedCleanupIsCounted(s: Store, id: OperationId, answers: Answers, k: KeyHash, r: Store)
    requires id in s.operations && s.operations[id].currentAttempt > 0
    requires answers.find.Listed? && answers.find.key.Some? && ToCleanUp(s, id, answers.find.key) == Some(k)
    requires answers.cleanup != Confirmed && r == Reconcile(s, id, answers)
    ensures r.attempts == Repaired(s, id).attempts && r.deliveries == s.deliveries
    ensures r.keys == if answers.cleanup == Unconfirmed(false) then s.keys else s.keys - {k}
    ensures r.operations == s.operations[id := AfterFailure(s.operations[id])]
  {
    var s1 := Repaired(s, id);
    var t := Transition(s1, id, Reconciling, TO_RECONCILING);
    var u := Scrubbed(t, id, k, answers.cleanup);
    FailedCleanupGoesOn(s, id, answers, k, u, r);
    CleanupIsAskedFor(s1, id, k, answers.cleanup, t, u);
    FailureIsCounted(s1, u, id, r);
  }

  // ---------------------------------------------------------------- creating

  /** A new operation starts unauthorised for issuance and without attempts; binding authorises it once. */
  lemma OperationIsBound(s: Store, id: OperationId, party: Party)
    ensures id !in s.operations ==>
              Bound(s, id, party) == s.(operations := s.operations[id := Operation(party, false, Authenticated, 0, 0, None, Wait, 0)])
    ensures id in s.operations && s.operations[id].state == Authenticated ==>
              Becomes(s, Bound(s, id, party), id, IssueReady, Wait) && Bound(s, id, party) == s.(operations := Bound(s, id, party).operations)
    ensures id in s.operations && s.operations[id].state != Authenticated ==> Bound(s, id, party) == s
    ensures SaveContext(s, id) == if id in s.operations then s.(operations := s.operations[id := s.operations[id].(context := true)]) else s
  {
  }

  /**
   An attempt starts exactly for an operation in one of three states whose count is still the one that was
   read, with its next number and a name that no attempt bears; it then has a row with that name and no key.
   */
  lemma AttemptStarts(s: Store, id: OperationId, seenCount: nat, name: KeyName)
    requires id in s.operations
    requires name == KeyName(s.operations[id].party.source, if |id| <= 16 then id else id[..16], seenCount + 1)
    ensures var op, r := s.operations[id], Start(s, id, seenCount);
            var starts := op.state in {Authenticated, IssueReady, RetryReady} && op.attemptCount == seenCount
                          && (id, seenCount + 1) !in s.attempts && forall a | a in s.attempts :: s.attempts[a].keyName != name;
            && (CanStart(s, id, seenCount) <==> starts)
            && r == if starts
                    then s.(operations := s.operations[id := op.(state := Creating, clientAction := Wait,
                                                                 attemptCount := seenCount + 1, currentAttempt := seenCount + 1)],
                            attempts := s.attempts[(id, seenCount + 1) := Attempt(name, None, OutcomeUnknown)])
                    else s
  {
  }

  /** An attempt that has recorded no key and is not cleaned is released, and its operation may be retried. */
  lemma UnstartedAttemptIsReleased(s: Store, id: OperationId, i: nat)
    ensures var r := Release(s, id, i);
            var released := (id, i) in s.attempts && s.attempts[(id, i)].outcome == OutcomeUnknown && s.attempts[(id, i)].credential == None;
            && r.keys == s.keys && r.deliveries == s.deliveries
            && r.attempts == (if released then s.attempts[(id, i) := s.attempts[(id, i)].(outcome := OutcomeCleaned)] else s.attempts)
            && if released && id in s.operations && s.operations[id].state in {Creating, CreateUnknown}
               then Becomes(s, r, id, RetryReady, RetryAuthorized) else r.operations == s.operations
  {
  }

  /** A claimant that gives up leaves its attempt unknown, and an operation that was being created unknown too. */
  lemma GivenUpAttemptIsUnknown(s: Store, id: OperationId, i: nat)
    ensures var r := MarkUnknown(s, id, i);
            && r.keys == s.keys && r.deliveries == s.deliveries
            && r.attempts == (if (id, i) in s.attempts then s.attempts[(id, i) := s.attempts[(id, i)].(outcome := OutcomeUnknown)] else s.attempts)
            && if id in s.operations && s.operations[id].state == Creating then Becomes(s, r, id, CreateUnknown, Wait)
               else r.operations == s.operations
  {
  }

  /** The key of an attempt is recorded with the attempt. */
  lemma KeyIsRecorded(s: Store, id: OperationId, i: nat, k: KeyHash)
    ensures RecordCredential(s, id, i, k) ==
              if (id, i) in s.attempts
              then s.(attempts := s.attempts[(id, i) := s.attempts[(id, i)].(credential := Some(k), outcome := OutcomeCreated)]) else s
  {
  }

  /** After a create, an operation still being created is active or awaits its delivery; one that moved on is reconciled. */
  lemma CreatedIsSettled(s: Store, id: OperationId, active: bool, answers: Answers, r: Store)
    requires id in s.operations && r == SettleCreated(s, id, PostCreateState(active), answers)
    ensures s.operations[id].state == Creating ==>
              && Becomes(s, r, id, if active then Active else State.DeliveryPending, if active then Wait else AcknowledgeDelivery)
              && r.attempts == s.attempts && r.keys == s.keys && r.deliveries == s.deliveries
    ensures s.operations[id].state == (if active then Active else State.DeliveryPending) ==> r == s
    ensures s.operations[id].state !in {Creating, if active then Active else State.DeliveryPending} ==> r == Reconcile(s, id, answers)
  {
    Transitioned(s, id, PostCreateState(active), {Creating});
  }

  /** FAILED always carries its reason; an authorisation runs out for every operation that is neither active nor failed. */
  lemma FailureCarriesReason(s: Store, id: OperationId, reason: FailureReason)
    requires id in s.operations
    ensures Fail(s, id, reason) ==
              s.(operations := s.operations[id := s.operations[id].(state := Failed, clientAction := ActionRequired, failureReason := Some(reason))])
    ensures Expire(s, id) ==
              if s.operations[id].state in {Active, Failed} then s
              else s.(operations := s.operations[id := s.operations[id].(
                        state := Failed, clientAction := ActionRequired, failureReason := Some(AuthorizationExpired))])
  {
  }

  // ---------------------------------------------------------------- deliveries

  /** An acknowledged delivery activates its operation, even a failed one, and clears the reason. */
  lemma AcknowledgedOperationIsActive(s: Store, d: DeliveryId, id: OperationId)
    requires d in s.deliveries && s.deliveries[d] == Delivery(Some(id), DeliveryAcknowledged)
    ensures ActivateOnAck(s, d) ==
              if id in s.operations && s.operations[id].state in {State.DeliveryPending, Failed}
              then s.(operations := s.operations[id := s.operations[id].(state := Active, clientAction := Wait, failureReason := None)]) else s
  {
  }

  lemma OtherDeliveriesActivateNothing(s: Store, d: DeliveryId)
    requires d !in s.deliveries || s.deliveries[d].status != DeliveryAcknowledged || s.deliveries[d].operation == None
    ensures ActivateOnAck(s, d) == s
  {
  }

  /** Only an open delivery is acknowledged or closed. */
  lemma DeliveryIsDecidedOnce(s: Store, d: DeliveryId, status: DeliveryStatus)
    ensures SetDelivery(s, d, status) ==
              if d in s.deliveries && s.deliveries[d].status == DeliveryOpen
              then s.(deliveries := s.deliveries[d := s.deliveries[d].(status := status)]) else s
  {
  }

  // ---------------------------------------------------------------- resume

  /** Another operation of the same person, on a device that may be the same, has a delivery that is not closed. */
  predicate HasRival(s: Store, id: OperationId)
    requires id in s.operations
  {
    exists d, o :: d in s.deliveries && s.deliveries[d].operation == Some(o) && s.deliveries[d].status in {DeliveryOpen, DeliveryAcknowledged}
      && o in s.operations && o != id && s.operations[o].state != Failed
      && s.operations[o].party.source == s.operations[id].party.source && s.operations[o].party.subject == s.operations[id].party.subject
      && (s.operations[o].party.installation == None || s.operations[id].party.installation == None
          || s.operations[o].party.installation == s.operations[id].party.installation)
  }

  lemma RivalIsConflict(s: Store, id: OperationId)
    requires id in s.operations
    ensures Conflicting(s, id) <==> HasRival(s, id)
  {
    if Conflicting(s, id) {
      var d :| d in s.deliveries && Conflict(s, id, d);
      assert s.deliveries[d].operation == Some(s.deliveries[d].operation.value);
    }
    if HasRival(s, id) {
      var d, o :| d in s.deliveries && s.deliveries[d].operation == Some(o) && s.deliveries[d].status in {DeliveryOpen, DeliveryAcknowledged}
        && o in s.operations && o != id && s.operations[o].state != Failed
        && s.operations[o].party.source == s.operations[id].party.source && s.operations[o].party.subject == s.operations[id].party.subject
        && (s.operations[o].party.installation == None || s.operations[id].party.installation == None
            || s.operations[o].party.installation == s.operations[id].party.installation);
      assert Conflict(s, id, d);
    }
  }

  /** A resume that sees a rival does nothing; it sees none when the query fails. */
  lemma RivalStopsResume(s: Store, id: OperationId, seen: Seen, first: Answers, second: Answers)
    requires id in s.operations && seen.conflictQuery && HasRival(s, id)
    ensures Resume(s, id, seen, first, second) == (s, None)
  {
    RivalIsConflict(s, id);
  }

  /** What a resumable operation has: for Discord its installation, the device's key and the issuance context. */
  predicate MayResume(op: Operation) {
    op.party.source == Discord ==>
      op.party.installation.Some? && op.party.installation.value != "" && op.party.deviceKey && op.context
  }

  /** A resume ends by starting the next attempt of a startable operation that has its context. */
  lemma ResumeStartsNext(u: Store, id: OperationId)
    requires id in u.operations
    ensures var n := u.operations[id].attemptCount;
            ResumeStart(u, id) == if MayResume(u.operations[id]) && CanStart(u, id, n) then (Start(u, id, n), Some(n + 1)) else (u, None)
  {
  }

  /** No rival was seen. */
  predicate Unrivalled(s: Store, id: OperationId, seen: Seen)
    requires id in s.operations
  {
    !(seen.conflictQuery && HasRival(s, id))
  }

  /** An operation that neither waits nor has a delivery out goes straight to its next attempt. */
  lemma ReadyOperationResumes(s: Store, id: OperationId, seen: Seen, first: Answers, second: Answers)
    requires id in s.operations && Unrivalled(s, id, seen)
    requires s.operations[id].state in {Authenticated, IssueReady, RetryReady, Creating, Active, Failed}
    ensures Resume(s, id, seen, first, second) == ResumeStart(s, id)
    ensures s.operations[id].state in {Creating, Active, Failed} ==> Resume(s, id, seen, first, second) == (s, None)
  {
    RivalIsConflict(s, id);
  }

  /** A waiting operation is reconciled, and goes on only if that made it retryable. */
  lemma WaitingOperationIsReconciledFirst(s: Store, id: OperationId, seen: Seen, first: Answers, second: Answers, t: Store)
    requires id in s.operations && Unrivalled(s, id, seen) && Waits(s.operations[id].state)
    requires t == Reconcile(s, id, first)
    ensures Resume(s, id, seen, first, second) ==
              if id in t.operations && t.operations[id].state == RetryReady then ResumeStart(t, id) else (t, None)
  {
    RivalIsConflict(s, id);
  }

  /** An acknowledged delivery makes the operation active, a live one leaves it alone; no attempt starts. */
  lemma LiveDeliveryEndsResume(s: Store, id: OperationId, seen: Seen, first: Answers, second: Answers)
    requires id in s.operations && Unrivalled(s, id, seen) && s.operations[id].state == State.DeliveryPending
    requires seen.latest.Some? && seen.latest.value in s.deliveries
    ensures s.deliveries[seen.latest.value].status == DeliveryAcknowledged ==>
              Resume(s, id, seen, first, second) == (ActivateOnAck(s, seen.latest.value), None)
    ensures s.deliveries[seen.latest.value].status == DeliveryOpen && !seen.overdue ==>
              Resume(s, id, seen, first, second) == (s, None)
  {
    RivalIsConflict(s, id);
  }

  /** Without an acknowledged or a live delivery, it is closed, and the operation reconciled as one whose creation is unknown. */
  lemma OverdueDeliveryIsTakenBack(s: Store, id: OperationId, seen: Seen, first: Answers, second: Answers, t: Store, r: Store)
    requires id in s.operations && Unrivalled(s, id, seen) && s.operations[id].state == State.DeliveryPending
    requires seen.latest.Some? && seen.latest.value in s.deliveries ==>
               s.deliveries[seen.latest.value].status == DeliveryClosed
               || (s.deliveries[seen.latest.value].status == DeliveryOpen && seen.overdue)
    requires t == s.(operations := s.operations[id := s.operations[id].(state := CreateUnknown, clientAction := Wait)],
                     deliveries := if seen.latest.Some? && seen.latest.value in s.deliveries
                                   then s.deliveries[seen.latest.value := s.deliveries[seen.latest.value].(status := DeliveryClosed)]
                                   else s.deliveries)
    requires r == Reconcile(t, id, second)
    ensures Resume(s, id, seen, first, second) ==
              if id in r.operations && r.operations[id].state == RetryReady then ResumeStart(r, id) else (r, None)
  {
    RivalIsConflict(s, id);
    TakenBackIs(s, id, seen.latest, t);
  }

  lemma TakenBackIs(s: Store, id: OperationId, latest: Option<DeliveryId>, t: Store)
    requires id in s.operations && s.operations[id].state == State.DeliveryPending
    requires latest.Some? && latest.value in s.deliveries ==> s.deliveries[latest.value].status in {DeliveryOpen, DeliveryClosed}
    requires t == s.(operations := s.operations[id := s.operations[id].(state := CreateUnknown, clientAction := Wait)],
                     deliveries := if latest.Some? && latest.value in s.deliveries
                                   then s.deliveries[latest.value := s.deliveries[latest.value].(status := DeliveryClosed)] else s.deliveries)
    ensures TakenBack(s, id, latest) == t
  {
    if latest.Some? && latest.value in s.deliveries && s.deliveries[latest.value].status == DeliveryClosed {
      assert s.deliveries[latest.value := s.deliveries[latest.value].(status := DeliveryClosed)] == s.deliveries;
    }
  }

  // ---------------------------------------------------------------- which step brings an operation into which state

  /** The only rows that change are this operation's. */
  predicate OnlyRow(s: Store, r: Store, id: OperationId) {
    && (id in s.operations ==> id in r.operations)
    && (forall o | o in s.operations && o != id :: o in r.operations && r.operations[o] == s.operations[o])
  }

  /** The row of the operation as it was, or moved to the state. */
  lemma BecomesIsOnlyRow(s: Store, r: Store, id: OperationId, state: State, action: ClientAction)
    requires Becomes(s, r, id, state, action)
    ensures OnlyRow(s, r, id) && r.operations[id].state == state
  {
  }

  /** How a reconcile may end for the operation it works on. */
  predicate ReconcileMoves(s: Store, id: OperationId, answers: Answers, after: State)
    requires id in s.operations
  {
    var op := s.operations[id];
    var k := if answers.find.Listed? then ToCleanUp(s, id, answers.find.key) else None;
    || after == op.state
    || (after == Reconciling && Waits(op.state) && answers.find == Unavailable)
    || (after == CleanupRequired && Waits(op.state) && k.Some? && !(answers.cleanup == Confirmed && answers.verify == Listed(None)))
    || (after == RetryReady && Waits(op.state) && answers.find.Listed?
        && (k.None? || (answers.cleanup == Confirmed && answers.verify == Listed(None))))
    || (after == Failed && op.cleanupAttempts >= 4 && answers.find.Listed? && answers.find.key.Some? && answers.cleanup != Confirmed)
  }

  lemma ReconcileMovesLegally(s: Store, id: OperationId, answers: Answers, r: Store)
    requires id in s.operations && r == Reconcile(s, id, answers)
    requires s.operations[id].currentAttempt == 0 ==> forall a | a in s.attempts :: a.0 != id
    ensures OnlyRow(s, r, id) && ReconcileMoves(s, id, answers, r.operations[id].state)
  {
    if s.operations[id].currentAttempt == 0 {
      NothingIsReconciled(s, id, answers);
    } else if answers.find == Unavailable {
      UnlistedIsReconciling(s, id, answers, r);
    } else if ToCleanUp(s, id, answers.find.key).None? {
      AbsentIsRetryable(s, id, answers, Repaired(s, id), r);
    } else {
      CleanupMovesLegally(s, id, answers, ToCleanUp(s, id, answers.find.key).value, r);
    }
  }

  lemma CleanupMovesLegally(s: Store, id: OperationId, answers: Answers, k: KeyHash, r: Store)
    requires id in s.operations && s.operations[id].currentAttempt > 0 && r == Reconcile(s, id, answers)
    requires answers.find.Listed? && ToCleanUp(s, id, answers.find.key) == Some(k)
    ensures OnlyRow(s, r, id) && ReconcileMoves(s, id, answers, r.operations[id].state)
  {
    if answers.cleanup == Confirmed && answers.verify == Listed(None) {
      RemovedIsRetryable(s, id, answers, k, Repaired(s, id), r);
    } else if answers.cleanup != Confirmed && answers.find.key.Some? {
      FailedCleanupIsCounted(s, id, answers, k, r);
    } else {
      UnverifiedStaysToBeCleanedUp(s, id, answers, k, r);
    }
  }

  /** The step reconciles the operation: its own reconcile, or that of a claimant whose operation moved on. */
  predicate Reconciles(a: Action, id: OperationId) {
    (a.ReconcileUnknown? || a.PostCreate?) && a.id == id
  }

  /** The step by which an operation may come into a state. */
  ghost predicate Brings(w: World, a: Action, id: OperationId, before: State, after: State)
    requires id in w.store.operations
  {
    match after
    case Authenticated => false
    case IssueReady => a.Bind? && a.id == id && before == Authenticated
    case Creating => a.StartAttempt? && a.id == id && before in {Authenticated, IssueReady, RetryReady}
    case CreateUnknown =>
      || (before == Creating && a.GiveUp? && a.id == id && (id, a.index) in w.claimants)
      || (before == Creating && a == SweepStaleCreating(id))
      || (before == State.DeliveryPending && a == AbandonDelivery(id))
      || (before == State.DeliveryPending && a.SweepStaleDelivery? && a.id == id && !a.acknowledged && Recorded(w.store, id).None?)
    case Reconciling => Waits(before) && Reconciles(a, id) && a.answers.find == Unavailable
    case CleanupRequired =>
      && ((Waits(before) && Reconciles(a, id))
          || (before == State.DeliveryPending && a.SweepStaleDelivery? && a.id == id && !a.acknowledged && Recorded(w.store, id).Some?))
      && !(a.answers.cleanup == Confirmed && a.answers.verify == Listed(None))
    case Clean => false
    case RetryReady =>
      || (before in {Creating, CreateUnknown} && a.ReleaseAttempt? && a.id == id && (id, a.index) !in w.called)
      || (Waits(before) && Reconciles(a, id) && a.answers.find.Listed?
          && (ToCleanUp(w.store, id, a.answers.find.key).None? || (a.answers.cleanup == Confirmed && a.answers.verify == Listed(None))))
      || (before == State.DeliveryPending && a.SweepStaleDelivery? && a.id == id && !a.acknowledged && Recorded(w.store, id).Some?
          && a.answers.cleanup == Confirmed && a.answers.verify == Listed(None))
    case DeliveryPending => before == Creating && a.PostCreate? && a.id == id && !a.active && (id, a.index) in w.claimants
    case Active =>
      || (before == Creating && a.PostCreate? && a.id == id && a.active && (id, a.index) in w.claimants)
      || (before == State.DeliveryPending && a.SweepStaleDelivery? && a.id == id && a.acknowledged && Acknowledged(w.store, id))
      || (before in {State.DeliveryPending, Failed} && a.MarkActiveOnAck? && Acknowledged(w.store, id))
    case Failed =>
      || (a.FailTerminally? && a.id == id)
      || (a.ExpireAuthorization? && a.id == id && before != Active)
      || (Reconciles(a, id) && w.store.operations[id].cleanupAttempts >= 4 && a.answers.find.Listed? && a.answers.cleanup != Confirmed)
  }

  /** Unchanged, or brought there by the step. */
  ghost predicate Legal(w: World, a: Action, v: World, id: OperationId)
    requires id in w.store.operations
  {
    id in v.store.operations
    && var before, after := w.store.operations[id].state, v.store.operations[id].state; before == after || Brings(w, a, id, before, after)
  }

  /** The attempts of an operation whose count is 0 are none, and its rows are in order. */
  lemma NoAttemptsBeforeTheFirst(w: World, o: OperationId)
    requires Base(w) && o in w.store.operations
    ensures w.store.operations[o].currentAttempt == 0 ==> forall x | x in w.store.attempts :: x.0 != o
  {
    assert RowsOk(w.store, o);
    forall x | x in w.store.attempts && w.store.operations[o].currentAttempt == 0 ensures x.0 != o {
      assert x == (x.0, x.1);
    }
  }

  lemma ReconciledStepIsLegal(w: World, a: Action, v: World, o: OperationId, answers: Answers, id: OperationId)
    requires Base(w) && id in w.store.operations && o in w.store.operations && Reconciles(a, o) && answers == a.answers
    requires v.store == Reconcile(w.store, o, answers)
    ensures Legal(w, a, v, id)
  {
    NoAttemptsBeforeTheFirst(w, o);
    ReconcileMovesLegally(w.store, o, answers, v.store);
  }

  lemma SettlingStepIsLegal(w: World, a: Action, v: World, o: OperationId, active: bool, answers: Answers, id: OperationId)
    requires Base(w) && id in w.store.operations && o in w.store.operations
    requires a.PostCreate? && a.id == o && a.active == active && a.answers == answers && (o, a.index) in w.claimants
    requires v.store == SettleCreated(w.store, o, PostCreateState(active), answers)
    ensures Legal(w, a, v, id)
  {
    CreatedIsSettled(w.store, o, active, answers, v.store);
    if w.store.operations[o].state !in {Creating, PostCreateState(active)} {
      ReconciledStepIsLegal(w, a, v, o, answers, id);
    }
  }

  lemma ReconcilingStepIsLegal(w: World, a: Action, v: World, id: OperationId)
    requires Base(w) && id in w.store.operations && a.ReconcileUnknown? && v == Apply(w, a)
    ensures Legal(w, a, v, id)
  {
    if a.id in w.store.operations {
      ReconciledStepIsLegal(w, a, v, a.id, a.answers, id);
    } else {
      NothingIsReconciled(w.store, a.id, a.answers);
    }
  }

  lemma SweepingStepIsLegal(w: World, a: Action, v: World, id: OperationId)
    requires id in w.store.operations && Enabled(w, a) && a.SweepStaleDelivery? && v == Apply(w, a)
    ensures Legal(w, a, v, id)
  {
    if a.id in w.store.operations && w.store.operations[a.id].state == State.DeliveryPending {
      OverdueDeliveryIsDecided(w.store, a.id, a.acknowledged, a.answers, v.store);
    } else {
      OthersAreNotSwept(w.store, a.id, a.acknowledged, a.answers);
    }
  }

  lemma ReleasingStepIsLegal(w: World, a: Action, v: World, id: OperationId)
    requires id in w.store.operations && Enabled(w, a) && (a.ReleaseAttempt? || a.GiveUp?) && v == Apply(w, a)
    ensures Legal(w, a, v, id)
  {
    if a.ReleaseAttempt? { UnstartedAttemptIsReleased(w.store, a.id, a.index); } else { GivenUpAttemptIsUnknown(w.store, a.id, a.index); }
  }

  lemma StartingStepIsLegal(w: World, a: Action, v: World, id: OperationId)
    requires id in w.store.operations && (a.StartAttempt? || a.Bind? || a.RememberContext?) && v == Apply(w, a)
    ensures Legal(w, a, v, id)
  {
    if a.StartAttempt? && a.id in w.store.operations {
      AttemptStarts(w.store, a.id, a.seenCount, KeyNameForAttempt(a.id, w.store.operations[a.id].party.source, a.seenCount + 1));
    } else if a.Bind? {
      OperationIsBound(w.store, a.id, a.party);
    }
  }

  lemma ActivatingStepIsLegal(w: World, a: Action, v: World, id: OperationId)
    requires id in w.store.operations && a.MarkActiveOnAck? && v == Apply(w, a)
    ensures Legal(w, a, v, id)
  {
    var s, d := w.store, a.delivery;
    if d in s.deliveries && s.deliveries[d].status == DeliveryAcknowledged && s.deliveries[d].operation.Some? {
      var o := s.deliveries[d].operation.value;
      assert s.deliveries[d] == Delivery(Some(o), DeliveryAcknowledged);
      AcknowledgedOperationIsActive(s, d, o);
    } else {
      OtherDeliveriesActivateNothing(s, d);
    }
  }

  /** The steps that decide nothing from an answer. */
  predicate Plain(a: Action) {
    !a.ReconcileUnknown? && !a.PostCreate? && !a.SweepStaleDelivery? && !a.ReleaseAttempt? && !a.GiveUp?
    && !a.StartAttempt? && !a.Bind? && !a.RememberContext? && !a.MarkActiveOnAck?
  }

  lemma PlainStepIsLegal(w: World, a: Action, v: World, id: OperationId)
    requires id in w.store.operations && Enabled(w, a) && Plain(a) && v == Apply(w, a)
    ensures Legal(w, a, v, id)
  {
  }

  lemma NextIsLegal(w: World, a: Action, v: World, id: OperationId)
    requires Base(w) && id in w.store.operations && v == Next(w, a)
    ensures Legal(w, a, v, id)
  {
    if Enabled(w, a) {
      if Plain(a) { PlainStepIsLegal(w, a, v, id); }
      else if a.ReconcileUnknown? { ReconcilingStepIsLegal(w, a, v, id); }
      else if a.PostCreate? { SettlingStepIsLegal(w, a, v, a.id, a.active, a.answers, id); }
      else if a.SweepStaleDelivery? { SweepingStepIsLegal(w, a, v, id); }
      else if a.ReleaseAttempt? || a.GiveUp? { ReleasingStepIsLegal(w, a, v, id); }
      else if a.MarkActiveOnAck? { ActivatingStepIsLegal(w, a, v, id); }
      else { StartingStepIsLegal(w, a, v, id); }
    }
  }

  /**
   In every run, whatever interleaves: an operation comes into a state only by the step that may bring it
   there.  It becomes active only through its claimant's post-create step or an acknowledged delivery,
   retryable only once its key is known to be gone or was never asked for, and failed only by a terminal
   failure, the end of its authorisation or the fifth failed cleanup.
   */
  lemma StatesAreReachedOnlyBy(actions: seq<Action>, a: Action, id: OperationId)
    requires id in Run(EMPTY, actions).store.operations
    ensures Legal(Run(EMPTY, actions), a, Next(Run(EMPTY, actions), a), id)
  {
    RunKeepsBase(EMPTY, actions);
    NextIsLegal(Run(EMPTY, actions), a, Next(Run(EMPTY, actions), a), id);
  }

  lemma ActiveMovesToFailed(w: World, a: Action, id: OperationId, after: State)
    requires id in w.store.operations && Brings(w, a, id, Active, after)
    ensures after == Failed && (a.FailTerminally? || Reconciles(a, id))
  {
  }

  /** An operation that is active stays so, unless it is failed on purpose or by its fifth failed cleanup. */
  lemma ActiveIsLeftOnlyForFailed(actions: seq<Action>, a: Action, id: OperationId, w: World, v: World)
    requires w == Run(EMPTY, actions) && v == Next(w, a) && id in w.store.operations && w.store.operations[id].state == Active
    ensures id in v.store.operations
    ensures v.store.operations[id].state == Active
            || (v.store.operations[id].state == Failed && (a.FailTerminally? || Reconciles(a, id)))
  {
    StatesAreReachedOnlyBy(actions, a, id);
    var after := v.store.operations[id].state;
    if after != Active { ActiveMovesToFailed(w, a, id, after); }
  }

  // ---------------------------------------------------------------- the counters of the sweep

  /** The stores between the reconciles of a list, and of each position whether it moved and became retryable. */
  predicate Reconciliations(listed: seq<(OperationId, State)>, answers: seq<Answers>, stores: seq<Store>, moved: seq<bool>, ready: seq<bool>) {
    && |stores| == |listed| + 1 && |answers| == |moved| == |ready| == |listed|
    && forall m | 0 <= m < |listed| ::
         && stores[m + 1] == Reconcile(stores[m], listed[m].0, answers[m])
         && (moved[m] <==> listed[m].0 in stores[m + 1].operations && stores[m + 1].operations[listed[m].0].state != listed[m].1)
         && (ready[m] <==> listed[m].0 in stores[m + 1].operations && stores[m + 1].operations[listed[m].0].state == RetryReady)
  }

  lemma OneMoreFlag(flags: seq<bool>, n: nat)
    requires |flags| == n + 1
    ensures multiset(flags)[true] == multiset(flags[..n])[true] + (if flags[n] then 1 else 0)
  {
    assert flags == flags[..n] + [flags[n]];
  }

  lemma FewerReconciliations(listed: seq<(OperationId, State)>, answers: seq<Answers>, stores: seq<Store>, moved: seq<bool>, ready: seq<bool>, n: nat)
    requires Reconciliations(listed, answers, stores, moved, ready) && |listed| == n + 1
    ensures Reconciliations(listed[..n], answers[..n], stores[..n + 1], moved[..n], ready[..n])
  {
  }

  lemma SweepOneMore(s: Store, listed: seq<(OperationId, State)>, answers: seq<Answers>, n: nat, t: Store, tally: Tally, r: Store, moved: bool, ready: bool)
    requires |listed| == |answers| == n + 1 && (t, tally) == SweptUnknown(s, listed[..n], answers[..n])
    requires r == Reconcile(t, listed[n].0, answers[n])
    requires moved <==> listed[n].0 in r.operations && r.operations[listed[n].0].state != listed[n].1
    requires ready <==> listed[n].0 in r.operations && r.operations[listed[n].0].state == RetryReady
    ensures SweptUnknown(s, listed, answers)
         == (r, Tally(tally.reconciled + (if moved then 1 else 0), tally.retryReady + (if ready then 1 else 0)))
  {
  }

  /** The sweep reconciles its list in order, and counts exactly the operations it moved and those it made retryable. */
  lemma {:induction false} SweepCountsExactly(s: Store, listed: seq<(OperationId, State)>, answers: seq<Answers>,
                                              stores: seq<Store>, moved: seq<bool>, ready: seq<bool>)
    requires Reconciliations(listed, answers, stores, moved, ready) && stores[0] == s
    ensures SweptUnknown(s, listed, answers) == (stores[|listed|], Tally(multiset(moved)[true], multiset(ready)[true]))
    decreases |listed|
  {
    if listed != [] {
      var n := |listed| - 1;
      FewerReconciliations(listed, answers, stores, moved, ready, n);
      SweepCountsExactly(s, listed[..n], answers[..n], stores[..n + 1], moved[..n], ready[..n]);
      OneMoreFlag(moved, n);
      OneMoreFlag(ready, n);
      SweepOneMore(s, listed, answers, n, stores[n], Tally(multiset(moved[..n])[true], multiset(ready[..n])[true]),
                   stores[n + 1], moved[n], ready[n]);
    }
  }
}
