/**
 The managed operation of managed-operation.ts: eleven states, numbered provider attempts, and the
 reconcile that lets a new attempt start only after the previous one is verified gone.

 Each exported function is one atomic step over the operation table, the attempt table and the
 provider; the provider may fail at each of its calls.  `OperationGate` puts the steps together.
 */
module ManagedOperation {
  import opened Common

  /** The random part of an operation id. */
  type OperationId = string
  type KeyHash = string
  type DeliveryId = string

  datatype Source = Discord | Qq

  datatype State =
    | Authenticated | IssueReady | Creating | CreateUnknown | Reconciling | CleanupRequired
    | Clean | RetryReady | DeliveryPending | Active | Failed

  datatype FailureReason = AuthorizationExpired | TerminalProviderFailure | CleanupFailedTerminal

  datatype ClientAction = Wait | RetryAuthorized | AcknowledgeDelivery | ActionRequired

  function ClientActionForState(state: State): ClientAction {
    match state
    case RetryReady => RetryAuthorized
    case DeliveryPending => AcknowledgeDelivery
    case Failed => ActionRequired
    case _ => Wait
  }

  /** Whom an operation is for; `deviceKey` says whether the device's public key is on the row. */
  datatype Party = Party(source: Source, subject: string, installation: Option<string>, deviceKey: bool)

  /** `context` says whether the durable issuance context is on the row. */
  datatype Operation = Operation(
    party: Party, context: bool, state: State, attemptCount: nat, currentAttempt: nat,
    failureReason: Option<FailureReason>, clientAction: ClientAction, cleanupAttempts: nat)

  /** The deterministic name of the key of one attempt; only 16 characters of the id enter it. */
  datatype KeyName = KeyName(source: Source, short: string, attempt: nat)

  function KeyNameForAttempt(id: OperationId, source: Source, attempt: nat): KeyName {
    KeyName(source, if |id| <= 16 then id else id[..16], attempt)
  }

  datatype Outcome = OutcomeCreated | OutcomeUnknown | OutcomeCleaned

  datatype Attempt = Attempt(keyName: KeyName, credential: Option<KeyHash>, outcome: Outcome)

  type AttemptId = (OperationId, nat)

  datatype DeliveryStatus = DeliveryOpen | DeliveryAcknowledged | DeliveryClosed

  datatype Delivery = Delivery(operation: Option<OperationId>, status: DeliveryStatus)

  /** The tables the functions read and write, and the keys that exist at the provider. */
  datatype Store = Store(
    operations: map<OperationId, Operation>,
    attempts: map<AttemptId, Attempt>,
    keys: map<KeyHash, KeyName>,
    deliveries: map<DeliveryId, Delivery>)

  // ---------------------------------------------------------------- transitions

  const TO_RECONCILING := {CreateUnknown, Reconciling, CleanupRequired, Clean}
  const TO_CLEANUP := {Reconciling, CreateUnknown, CleanupRequired}
  const TO_CLEAN_WHEN_ABSENT := {Reconciling, CreateUnknown, CleanupRequired, Clean}
  const TO_CLEAN_AFTER_CLEANUP := {CleanupRequired, Reconciling}

  function Moved(op: Operation, to: State): Operation {
    op.(state := to, clientAction := ClientActionForState(to))
  }

  function Put(s: Store, id: OperationId, op: Operation): Store {
    s.(operations := s.operations[id := op])
  }

  /** transitionManagedOperation with a guard on the current state. */
  function Transition(s: Store, id: OperationId, to: State, from: set<State>): Store {
    if id in s.operations && s.operations[id].state in from then Put(s, id, Moved(s.operations[id], to)) else s
  }

  /** transitionManagedOperation to FAILED, which has no guard and always carries a reason. */
  function Fail(s: Store, id: OperationId, reason: FailureReason): Store {
    if id in s.operations then Put(s, id, Moved(s.operations[id], Failed).(failureReason := Some(reason))) else s
  }

  /** expireManagedOperation */
  function Expire(s: Store, id: OperationId): Store {
    if id in s.operations && s.operations[id].state != Active && s.operations[id].state != Failed
    then Fail(s, id, AuthorizationExpired) else s
  }

  function SetAttempt(s: Store, id: OperationId, i: nat, attempt: Attempt): Store {
    s.(attempts := s.attempts[(id, i) := attempt])
  }

  /** createManagedOperation */
  function Create(s: Store, id: OperationId, party: Party): Store {
    if id in s.operations then s else Put(s, id, Operation(party, false, Authenticated, 0, 0, None, Wait, 0))
  }

  /** bindOperationForIssue, as far as it moves the operation. */
  function Bound(s: Store, id: OperationId, party: Party): Store {
    if id !in s.operations then Create(s, id, party) else Transition(s, id, IssueReady, {Authenticated})
  }

  /** saveOperationIssuanceContext */
  function SaveContext(s: Store, id: OperationId): Store {
    if id in s.operations then Put(s, id, s.operations[id].(context := true)) else s
  }

  predicate NameTaken(s: Store, name: KeyName) {
    exists a :: a in s.attempts && s.attempts[a].keyName == name
  }

  predicate Startable(state: State) {
    state.Authenticated? || state.IssueReady? || state.RetryReady?
  }

  /**
   startManagedOperationAttempt for a caller that has read the row with `seenCount` attempts: the
   batch compares the count and inserts the attempt row, and a key name already taken undoes it all.
   */
  predicate CanStart(s: Store, id: OperationId, seenCount: nat) {
    && id in s.operations
    && Startable(s.operations[id].state)
    && s.operations[id].attemptCount == seenCount
    && (id, seenCount + 1) !in s.attempts
    && !NameTaken(s, KeyNameForAttempt(id, s.operations[id].party.source, seenCount + 1))
  }

  function Start(s: Store, id: OperationId, seenCount: nat): Store {
    if !CanStart(s, id, seenCount) then s
    else
      var op, next := s.operations[id], seenCount + 1;
      SetAttempt(Put(s, id, Moved(op, Creating).(attemptCount := next, currentAttempt := next)), id, next,
                 Attempt(KeyNameForAttempt(id, op.party.source, next), None, OutcomeUnknown))
  }

  function RecordCredential(s: Store, id: OperationId, i: nat, k: KeyHash): Store {
    if (id, i) in s.attempts
    then SetAttempt(s, id, i, s.attempts[(id, i)].(credential := Some(k), outcome := OutcomeCreated)) else s
  }

  function SetOutcome(s: Store, id: OperationId, i: nat, outcome: Outcome): Store {
    if (id, i) in s.attempts then SetAttempt(s, id, i, s.attempts[(id, i)].(outcome := outcome)) else s
  }

  /** markAttemptUnknown */
  function MarkUnknown(s: Store, id: OperationId, i: nat): Store {
    Transition(SetOutcome(s, id, i, OutcomeUnknown), id, CreateUnknown, {Creating})
  }

  predicate Releasable(s: Store, id: OperationId, i: nat) {
    (id, i) in s.attempts && s.attempts[(id, i)].outcome == OutcomeUnknown && s.attempts[(id, i)].credential.None?
  }

  /** releaseUnstartedOperationAttempt */
  function Release(s: Store, id: OperationId, i: nat): Store {
    if Releasable(s, id, i) then Transition(SetOutcome(s, id, i, OutcomeCleaned), id, RetryReady, {Creating, CreateUnknown})
    else s
  }

  // ---------------------------------------------------------------- the provider

  /** What the provider answers: a listing may fail, a cleanup may be unconfirmed. */
  datatype Lookup = Unavailable | Listed(key: Option<KeyHash>)
  datatype Cleanup = Confirmed | Unconfirmed(removed: bool)

  ghost predicate Absent(keys: map<KeyHash, KeyName>, name: KeyName) {
    forall k :: k in keys ==> keys[k] != name
  }

  /** A listing that tells the truth about the keys that exist. */
  ghost predicate Honest(keys: map<KeyHash, KeyName>, name: KeyName, answer: Lookup) {
    match answer
    case Unavailable => true
    case Listed(None) => Absent(keys, name)
    case Listed(Some(k)) => k in keys && keys[k] == name
  }

  function CleanUp(s: Store, k: KeyHash, answer: Cleanup): Store {
    if answer.Confirmed? || answer.removed then s.(keys := s.keys - {k}) else s
  }

  /** Verified gone: the attempt is cleaned and the operation may be retried. */
  function Cleaned(s: Store, id: OperationId, i: nat, from: set<State>): Store {
    Transition(Transition(SetOutcome(s, id, i, OutcomeCleaned), id, Clean, from), id, RetryReady, {Clean})
  }

  // ---------------------------------------------------------------- reconcile

  /** The three provider answers of one reconcile. */
  datatype Answers = Answers(find: Lookup, cleanup: Cleanup, verify: Lookup)

  /** The attempt a reconcile works on; a missing row is stood in for by the deterministic name. */
  function Target(s: Store, id: OperationId): Attempt
    requires id in s.operations
  {
    var op := s.operations[id];
    if (id, op.currentAttempt) in s.attempts then s.attempts[(id, op.currentAttempt)]
    else Attempt(KeyNameForAttempt(id, op.party.source, op.currentAttempt), None, OutcomeUnknown)
  }

  /** The insert that repairs a missing attempt row; the schema rejects index 0 and a taken name. */
  function Repaired(s: Store, id: OperationId): Store
    requires id in s.operations
  {
    var i := s.operations[id].currentAttempt;
    if (id, i) in s.attempts || i == 0 || NameTaken(s, Target(s, id).keyName) then s
    else SetAttempt(s, id, i, Target(s, id))
  }

  predicate NothingToReconcile(s: Store, id: OperationId) {
    id !in s.operations
    || (s.operations[id].currentAttempt == 0 && forall a :: a in s.attempts ==> a.0 != id)
  }

  /** The key a reconcile cleans up, if any. */
  function Cleaning(target: Attempt, find: Lookup): Option<KeyHash> {
    match find
    case Unavailable => None
    case Listed(found) => if target.credential.Some? then target.credential else found
  }

  /** reconcileUnknownAttempt */
  function Reconcile(s: Store, id: OperationId, answers: Answers): Store {
    if NothingToReconcile(s, id) then s
    else
      var op := s.operations[id];
      ReconcileTarget(Repaired(s, id), id, op.currentAttempt, op.cleanupAttempts, Target(s, id), answers)
  }

  /** reconcileAttemptTarget */
  function ReconcileTarget(s: Store, id: OperationId, i: nat, failures: nat, target: Attempt, answers: Answers): Store
    requires id in s.operations
  {
    var t := Transition(s, id, Reconciling, TO_RECONCILING);
    if answers.find.Unavailable? then t
    else
      var cleaning := Cleaning(target, answers.find);
      if cleaning.None? then Cleaned(t, id, i, TO_CLEAN_WHEN_ABSENT)
      else Concluded(Scrubbed(t, id, cleaning.value, answers.cleanup), id, i, failures + 1, answers.find.key.Some?, answers)
  }

  function Scrubbed(t: Store, id: OperationId, k: KeyHash, answer: Cleanup): (u: Store)
    ensures t.operations.Keys == u.operations.Keys
  {
    CleanUp(Transition(t, id, CleanupRequired, TO_CLEANUP), k, answer)
  }

  /** After the cleanup: verify the absence, or count the failure when the listing had shown a key. */
  function Concluded(u: Store, id: OperationId, i: nat, failures: nat, found: bool, answers: Answers): Store
    requires id in u.operations
  {
    if answers.cleanup.Confirmed? then
      if answers.verify != Listed(None) then u
      else Cleaned(u, id, i, if found then TO_CLEAN_AFTER_CLEANUP else TO_CLEAN_WHEN_ABSENT)
    else if found then CountFailure(u, id, failures)
    else u
  }

  const CLEANUP_ATTEMPT_LIMIT: nat := 5

  function CountFailure(s: Store, id: OperationId, failures: nat): Store
    requires id in s.operations
  {
    var counted := Put(s, id, s.operations[id].(cleanupAttempts := failures));
    if failures >= CLEANUP_ATTEMPT_LIMIT then Fail(counted, id, CleanupFailedTerminal) else counted
  }

  /** The listings a reconcile gets are true of the keys at the moment each is made. */
  ghost predicate HonestAnswers(s: Store, id: OperationId, answers: Answers) {
    !NothingToReconcile(s, id) ==>
      var target := Target(s, id);
      var cleaning := Cleaning(target, answers.find);
      && Honest(s.keys, target.keyName, answers.find)
      && (cleaning.Some? && answers.cleanup.Confirmed? ==>
            Honest(s.keys - {cleaning.value}, target.keyName, answers.verify))
  }

  /** transitionOperationToPostCreateState */
  function SettleCreated(s: Store, id: OperationId, to: State, answers: Answers): Store {
    var t := Transition(s, id, to, {Creating});
    if id in t.operations && t.operations[id].state == to then t else Reconcile(t, id, answers)
  }

  predicate Pending(state: State) {
    state.CreateUnknown? || state.Reconciling? || state.CleanupRequired? || state.Clean?
  }

  /** The answers by which a reconcile concludes that the target's key does not exist. */
  predicate FoundAbsent(target: Attempt, answers: Answers) {
    && answers.find.Listed?
    && (Cleaning(target, answers.find).None? || (answers.cleanup.Confirmed? && answers.verify == Listed(None)))
  }

  /** A reconcile that takes a waiting operation to RETRY_READY. */
  predicate Concludes(s: Store, id: OperationId, answers: Answers) {
    && !NothingToReconcile(s, id)
    && Pending(s.operations[id].state)
    && FoundAbsent(Target(s, id), answers)
  }

  // ---------------------------------------------------------------- deliveries

  ghost predicate Acknowledged(s: Store, id: OperationId) {
    exists d :: d in s.deliveries && s.deliveries[d] == Delivery(Some(id), DeliveryAcknowledged)
  }

  /** Acknowledging or closing a delivery, which only an open one can be. */
  function SetDelivery(s: Store, d: DeliveryId, status: DeliveryStatus): Store {
    if d in s.deliveries && s.deliveries[d].status.DeliveryOpen?
    then s.(deliveries := s.deliveries[d := s.deliveries[d].(status := status)]) else s
  }

  /** markOperationActiveOnAck */
  function ActivateOnAck(s: Store, d: DeliveryId): Store {
    if d in s.deliveries && s.deliveries[d].status.DeliveryAcknowledged? && s.deliveries[d].operation.Some? then
      var id := s.deliveries[d].operation.value;
      if id in s.operations && s.operations[id].state in {DeliveryPending, Failed}
      then Put(s, id, Moved(s.operations[id], Active).(failureReason := None)) else s
    else s
  }

  /** The sweep of an overdue delivery takes its operation to RETRY_READY. */
  predicate SweepConcludes(s: Store, id: OperationId, acknowledged: bool, answers: Answers) {
    && InState(s, id, DeliveryPending) && !acknowledged && Target(s, id).credential.Some?
    && answers.cleanup.Confirmed? && answers.verify == Listed(None)
  }

  /** The post-create transition finds the operation moved on and reconciles it to RETRY_READY. */
  predicate SettleConcludes(s: Store, id: OperationId, to: State, answers: Answers) {
    var t := Transition(s, id, to, {Creating});
    !InState(t, id, to) && Concludes(t, id, answers)
  }

  predicate InState(s: Store, id: OperationId, state: State) {
    id in s.operations && s.operations[id].state == state
  }

  /** The sweep of one DELIVERY_PENDING operation whose delivery time ran out. */
  function SweepDelivery(s: Store, id: OperationId, acknowledged: bool, answers: Answers): Store {
    if id !in s.operations || s.operations[id].state != DeliveryPending then s
    else if acknowledged then Transition(s, id, Active, {DeliveryPending})
    else if Target(s, id).credential.None? then Transition(s, id, CreateUnknown, {DeliveryPending})
    else
      var i := s.operations[id].currentAttempt;
      var u := CleanUp(s, Target(s, id).credential.value, answers.cleanup);
      if !answers.cleanup.Confirmed? then Transition(u, id, CleanupRequired, {DeliveryPending})
      else if answers.verify == Listed(None) then Cleaned(u, id, i, {DeliveryPending})
      else Transition(u, id, CleanupRequired, {DeliveryPending})
  }

  // ---------------------------------------------------------------- rows

  /** States in which no key of the operation may exist. */
  predicate Resting(state: State) {
    Startable(state) || state.Clean?
  }

  predicate RowOk(op: Operation) {
    && op.attemptCount == op.currentAttempt
    && op.clientAction == ClientActionForState(op.state)
    && (op.state.Failed? <==> op.failureReason.Some?)
    && (op.state.Authenticated? || op.state.IssueReady? ==> op.attemptCount == 0)
  }

  // ---------------------------------------------------------------- steps on one operation

  /** Same operations, same attempts under the same names, no new key, nothing of others touched. */
  ghost predicate Mild(s: Store, t: Store, id: OperationId) {
    && s.operations.Keys == t.operations.Keys
    && s.attempts.Keys == t.attempts.Keys
    && (forall o | o in s.operations && o != id :: t.operations[o] == s.operations[o])
    && (forall a | a in s.attempts :: t.attempts[a].keyName == s.attempts[a].keyName)
    && (forall a | a in s.attempts && a.0 != id :: t.attempts[a] == s.attempts[a])
    && (forall k | k in t.keys :: k in s.keys && t.keys[k] == s.keys[k])
  }

  /** What a step may do to the row it works on. */
  ghost predicate SameOperation(s: Store, t: Store, id: OperationId) {
    && id in s.operations && id in t.operations
    && t.operations[id].party == s.operations[id].party
    && t.operations[id].attemptCount == s.operations[id].attemptCount
    && t.operations[id].currentAttempt == s.operations[id].currentAttempt
    && (RowOk(s.operations[id]) && StaysIdle(s.operations[id].state, t.operations[id].state) ==> RowOk(t.operations[id]))
  }

  predicate StaysIdle(before: State, after: State) {
    after.Authenticated? || after.IssueReady? ==> before.Authenticated? || before.IssueReady?
  }

  ghost predicate Local(s: Store, t: Store, id: OperationId) {
    Mild(s, t, id) && SameOperation(s, t, id)
  }

  /** No attempt of the operation becomes one that could be released. */
  ghost predicate NotReopened(s: Store, t: Store, id: OperationId) {
    forall i: nat | Releasable(t, id, i) :: Releasable(s, id, i)
  }

  lemma LocalIsTransitive(s: Store, t: Store, u: Store, id: OperationId)
    requires Local(s, t, id) && Local(t, u, id)
    requires StaysIdle(s.operations[id].state, t.operations[id].state)
    requires StaysIdle(t.operations[id].state, u.operations[id].state)
    ensures Local(s, u, id)
  {
  }

  // ---------------------------------------------------------------- the statements are local

  lemma PutIsLocal(s: Store, id: OperationId, op: Operation)
    requires id in s.operations
    requires op.party == s.operations[id].party
    requires op.attemptCount == s.operations[id].attemptCount && op.currentAttempt == s.operations[id].currentAttempt
    requires RowOk(s.operations[id]) && StaysIdle(s.operations[id].state, op.state) ==> RowOk(op)
    ensures Local(s, Put(s, id, op), id)
  {
  }

  lemma TransitionIsLocal(s: Store, id: OperationId, to: State, from: set<State>)
    requires id in s.operations && !to.Failed? && Failed !in from
    ensures Local(s, Transition(s, id, to, from), id)
    ensures Transition(s, id, to, from).operations[id].state == if s.operations[id].state in from then to else s.operations[id].state
  {
    var op := s.operations[id];
    PutIsLocal(s, id, if op.state in from then Moved(op, to) else op);
    assert s.operations[id := op] == s.operations;
  }

  lemma OutcomeIsLocal(s: Store, id: OperationId, i: nat, outcome: Outcome)
    requires id in s.operations
    ensures Local(s, SetOutcome(s, id, i, outcome), id)
  {
  }

  lemma CleanedIsLocal(s: Store, id: OperationId, i: nat, from: set<State>)
    requires id in s.operations && Failed !in from && (id, i) in s.attempts
    ensures Local(s, Cleaned(s, id, i, from), id)
    ensures Cleaned(s, id, i, from).keys == s.keys && NotReopened(s, Cleaned(s, id, i, from), id)
    ensures (id, i) in Cleaned(s, id, i, from).attempts && Cleaned(s, id, i, from).attempts[(id, i)].outcome == OutcomeCleaned
    ensures Cleaned(s, id, i, from).operations[id].state ==
            if s.operations[id].state in from + {Clean} then RetryReady else s.operations[id].state
  {
    var t := SetOutcome(s, id, i, OutcomeCleaned);
    var u := Transition(t, id, Clean, from);
    OutcomeIsLocal(s, id, i, OutcomeCleaned);
    TransitionIsLocal(t, id, Clean, from);
    TransitionIsLocal(u, id, RetryReady, {Clean});
    LocalIsTransitive(s, t, u, id);
    LocalIsTransitive(s, u, Transition(u, id, RetryReady, {Clean}), id);
  }

  lemma FailIsLocal(s: Store, id: OperationId, reason: FailureReason)
    requires id in s.operations
    ensures Local(s, Fail(s, id, reason), id)
  {
  }

  // ---------------------------------------------------------------- reconcile

  /** The state a reconcile leaves behind; only an operation waiting for it can become retryable. */
  predicate Reconciled(before: State, after: State) {
    if Pending(before) then
      after.Reconciling? || after.CleanupRequired? || after.RetryReady? || after.Failed?
    else after == before || after.Failed?
  }

  /** What one reconcile does to the operation `id` whose current attempt has its row. */
  ghost predicate ReconcileEffect(s: Store, t: Store, id: OperationId, concluded: bool) {
    && Local(s, t, id)
    && NotReopened(s, t, id)
    && Reconciled(s.operations[id].state, t.operations[id].state)
    && (Pending(s.operations[id].state) ==> (t.operations[id].state.RetryReady? <==> concluded))
    && (Pending(s.operations[id].state) && concluded ==>
          var i := s.operations[id].currentAttempt;
          && (id, i) in t.attempts
          && t.attempts[(id, i)].outcome == OutcomeCleaned
          && Absent(t.keys, t.attempts[(id, i)].keyName))
  }

  lemma CountFailureIsLocal(u: Store, id: OperationId, failures: nat)
    requires id in u.operations
    ensures Local(u, CountFailure(u, id, failures), id)
    ensures CountFailure(u, id, failures).attempts == u.attempts
    ensures var after := CountFailure(u, id, failures).operations[id].state;
            after == u.operations[id].state || after.Failed?
  {
  }

  lemma CleanupFails(s: Store, u: Store, id: OperationId, failures: nat)
    requires id in s.operations && Local(s, u, id) && u.attempts == s.attempts
    requires u.operations[id].state == if Pending(s.operations[id].state) then CleanupRequired else s.operations[id].state
    ensures ReconcileEffect(s, CountFailure(u, id, failures), id, false)
  {
    CountFailureIsLocal(u, id, failures);
    LocalIsTransitive(s, u, CountFailure(u, id, failures), id);
  }

  lemma CleanUpIsLocal(s: Store, id: OperationId, k: KeyHash, answer: Cleanup)
    requires id in s.operations
    ensures Local(s, CleanUp(s, k, answer), id)
    ensures CleanUp(s, k, answer).operations == s.operations && CleanUp(s, k, answer).attempts == s.attempts
  {
  }

  lemma ScrubbedIsLocal(t: Store, id: OperationId, k: KeyHash, answer: Cleanup)
    requires id in t.operations
    ensures var u := Scrubbed(t, id, k, answer);
            Local(t, u, id) && u.attempts == t.attempts && (answer.Confirmed? ==> u.keys == t.keys - {k})
            && u.operations[id].state == if t.operations[id].state in TO_CLEANUP then CleanupRequired else t.operations[id].state
  {
    var v := Transition(t, id, CleanupRequired, TO_CLEANUP);
    TransitionIsLocal(t, id, CleanupRequired, TO_CLEANUP);
    CleanUpIsLocal(v, id, k, answer);
    LocalIsTransitive(t, v, CleanUp(v, k, answer), id);
  }

  /** Up to and including the provider's cleanup, a reconcile changes the state and removes keys. */
  lemma CleaningIsLocal(s: Store, id: OperationId, k: KeyHash, answer: Cleanup)
    requires id in s.operations
    ensures var t := Transition(s, id, Reconciling, TO_RECONCILING);
            var u := Scrubbed(t, id, k, answer);
            Local(s, u, id) && u.attempts == s.attempts && (answer.Confirmed? ==> u.keys == s.keys - {k})
            && u.operations[id].state == if Pending(s.operations[id].state) then CleanupRequired else s.operations[id].state
  {
    var t := Transition(s, id, Reconciling, TO_RECONCILING);
    TransitionIsLocal(s, id, Reconciling, TO_RECONCILING);
    ScrubbedIsLocal(t, id, k, answer);
    LocalIsTransitive(s, t, Scrubbed(t, id, k, answer), id);
  }

  /** A verified absence, before or after a cleanup, ends in RETRY_READY. */
  lemma AbsenceVerified(s: Store, u: Store, id: OperationId, from: set<State>)
    requires id in s.operations && Local(s, u, id) && u.attempts == s.attempts
    requires (id, s.operations[id].currentAttempt) in s.attempts
    requires Failed !in from && Active !in from
    requires Absent(u.keys, s.attempts[(id, s.operations[id].currentAttempt)].keyName)
    requires if Pending(s.operations[id].state) then u.operations[id].state in from
             else u.operations[id].state == s.operations[id].state && u.operations[id].state !in from + {Clean}
    requires Pending(s.operations[id].state) ==> Pending(u.operations[id].state)
    ensures ReconcileEffect(s, Cleaned(u, id, s.operations[id].currentAttempt, from), id, true)
  {
    var i := s.operations[id].currentAttempt;
    CleanedIsLocal(u, id, i, from);
    LocalIsTransitive(s, u, Cleaned(u, id, i, from), id);
  }

  /** The states a verified absence leaves behind are those the two guard lists name. */
  lemma CleanGuards(before: State, after: State)
    requires after == if Pending(before) then CleanupRequired else before
    ensures if Pending(before) then after in TO_CLEAN_WHEN_ABSENT && after in TO_CLEAN_AFTER_CLEANUP
            else after !in TO_CLEAN_WHEN_ABSENT && after !in TO_CLEAN_AFTER_CLEANUP
  {
  }

  lemma ConcludedStep(s: Store, u: Store, id: OperationId, failures: nat, found: bool, answers: Answers)
    requires id in s.operations && (id, s.operations[id].currentAttempt) in s.attempts
    requires Local(s, u, id) && u.attempts == s.attempts
    requires u.operations[id].state == if Pending(s.operations[id].state) then CleanupRequired else s.operations[id].state
    requires answers.cleanup.Confirmed? && answers.verify == Listed(None) ==> Absent(u.keys, Target(s, id).keyName)
    ensures ReconcileEffect(s, Concluded(u, id, s.operations[id].currentAttempt, failures, found, answers), id,
                            answers.cleanup.Confirmed? && answers.verify == Listed(None))
  {
    if answers.cleanup.Unconfirmed? {
      CleanupFails(s, u, id, failures);
    } else if answers.verify == Listed(None) {
      CleanGuards(s.operations[id].state, u.operations[id].state);
      AbsenceVerified(s, u, id, if found then TO_CLEAN_AFTER_CLEANUP else TO_CLEAN_WHEN_ABSENT);
    }
  }

  lemma ReconcileScrubs(s: Store, id: OperationId, answers: Answers, k: KeyHash, t: Store, r: Store)
    requires id in s.operations && (id, s.operations[id].currentAttempt) in s.attempts
    requires answers.find.Listed? && Cleaning(Target(s, id), answers.find) == Some(k)
    requires answers.cleanup.Confirmed? ==> Honest(s.keys - {k}, Target(s, id).keyName, answers.verify)
    requires t == Transition(s, id, Reconciling, TO_RECONCILING)
    requires r == Concluded(Scrubbed(t, id, k, answers.cleanup), id, s.operations[id].currentAttempt,
                            s.operations[id].cleanupAttempts + 1, answers.find.key.Some?, answers)
    ensures ReconcileEffect(s, r, id, FoundAbsent(Target(s, id), answers))
  {
    CleaningIsLocal(s, id, k, answers.cleanup);
    ConcludedStep(s, Scrubbed(t, id, k, answers.cleanup), id, s.operations[id].cleanupAttempts + 1,
                  answers.find.key.Some?, answers);
  }

  lemma ReconcileFindsNothing(s: Store, id: OperationId, find: Lookup, t: Store, r: Store)
    requires id in s.operations && (id, s.operations[id].currentAttempt) in s.attempts
    requires find == Unavailable || (find == Listed(None) && Absent(s.keys, Target(s, id).keyName))
    requires t == Transition(s, id, Reconciling, TO_RECONCILING)
    requires r == if find.Unavailable? then t else Cleaned(t, id, s.operations[id].currentAttempt, TO_CLEAN_WHEN_ABSENT)
    ensures ReconcileEffect(s, r, id, find.Listed?)
  {
    TransitionIsLocal(s, id, Reconciling, TO_RECONCILING);
    if find.Listed? {
      AbsenceVerified(s, t, id, TO_CLEAN_WHEN_ABSENT);
    }
  }

  lemma ReconcileStep(s: Store, id: OperationId, answers: Answers, r: Store)
    requires id in s.operations && (id, s.operations[id].currentAttempt) in s.attempts
    requires HonestAnswers(s, id, answers)
    requires r == Reconcile(s, id, answers)
    ensures ReconcileEffect(s, r, id, FoundAbsent(Target(s, id), answers))
  {
    assert Repaired(s, id) == s;
    var cleaning := Cleaning(Target(s, id), answers.find);
    var t := Transition(s, id, Reconciling, TO_RECONCILING);
    if cleaning.Some? {
      ReconcileScrubs(s, id, answers, cleaning.value, t, r);
    } else {
      ReconcileFindsNothing(s, id, answers.find, t, r);
    }
  }

  lemma RecordIsLocal(s: Store, id: OperationId, i: nat, k: KeyHash)
    requires id in s.operations
    ensures Local(s, RecordCredential(s, id, i, k), id) && NotReopened(s, RecordCredential(s, id, i, k), id)
    ensures RecordCredential(s, id, i, k).operations == s.operations
  {
  }

  lemma MarkUnknownIsLocal(s: Store, id: OperationId, i: nat)
    requires id in s.operations
    ensures Local(s, MarkUnknown(s, id, i), id)
    ensures MarkUnknown(s, id, i).operations[id].state
         == if s.operations[id].state.Creating? then CreateUnknown else s.operations[id].state
    ensures forall j: nat | Releasable(MarkUnknown(s, id, i), id, j) :: j == i || Releasable(s, id, j)
  {
    var t := SetOutcome(s, id, i, OutcomeUnknown);
    OutcomeIsLocal(s, id, i, OutcomeUnknown);
    TransitionIsLocal(t, id, CreateUnknown, {Creating});
    LocalIsTransitive(s, t, MarkUnknown(s, id, i), id);
  }

  lemma ReleaseIsLocal(s: Store, id: OperationId, i: nat)
    requires id in s.operations && Releasable(s, id, i)
    ensures var t := Release(s, id, i);
            && Local(s, t, id) && NotReopened(s, t, id) && t.keys == s.keys
            && (id, i) in t.attempts && t.attempts[(id, i)].outcome == OutcomeCleaned
            && t.operations[id].state == if s.operations[id].state in {Creating, CreateUnknown} then RetryReady
                                         else s.operations[id].state
  {
    var t := SetOutcome(s, id, i, OutcomeCleaned);
    OutcomeIsLocal(s, id, i, OutcomeCleaned);
    TransitionIsLocal(t, id, RetryReady, {Creating, CreateUnknown});
    LocalIsTransitive(s, t, Release(s, id, i), id);
  }

  lemma SettleStep(s: Store, id: OperationId, to: State, answers: Answers, r: Store)
    requires id in s.operations && (id, s.operations[id].currentAttempt) in s.attempts
    requires to.Active? || to.DeliveryPending?
    requires HonestAnswers(Transition(s, id, to, {Creating}), id, answers)
    requires r == SettleCreated(s, id, to, answers)
    ensures Local(s, r, id) && NotReopened(s, r, id)
    ensures if s.operations[id].state.Creating? || s.operations[id].state == to then r.operations[id].state == to
            else ReconcileEffect(s, r, id, FoundAbsent(Target(s, id), answers))
  {
    var t := Transition(s, id, to, {Creating});
    TransitionIsLocal(s, id, to, {Creating});
    if !InState(t, id, to) {
      assert t == s;
      ReconcileStep(s, id, answers, r);
    }
  }

  lemma DeliveryCleaned(s: Store, id: OperationId, answers: Answers, k: KeyHash, r: Store)
    requires id in s.operations && (id, s.operations[id].currentAttempt) in s.attempts
    requires SweepConcludes(s, id, false, answers) && Target(s, id).credential == Some(k)
    requires Absent(s.keys - {k}, Target(s, id).keyName)
    requires r == SweepDelivery(s, id, false, answers)
    ensures Local(s, r, id) && NotReopened(s, r, id)
    ensures var i := s.operations[id].currentAttempt;
            && r.operations[id].state.RetryReady? && (id, i) in r.attempts
            && r.attempts[(id, i)].outcome == OutcomeCleaned && Absent(r.keys, r.attempts[(id, i)].keyName)
  {
    var u := CleanUp(s, k, answers.cleanup);
    CleanUpIsLocal(s, id, k, answers.cleanup);
    CleanedIsLocal(u, id, s.operations[id].currentAttempt, {DeliveryPending});
    LocalIsTransitive(s, u, r, id);
  }

  lemma DeliveryFlagged(s: Store, id: OperationId, k: KeyHash, answer: Cleanup, r: Store)
    requires InState(s, id, DeliveryPending)
    requires r == Transition(CleanUp(s, k, answer), id, CleanupRequired, {DeliveryPending})
    ensures Local(s, r, id) && r.attempts == s.attempts && r.operations[id].state.CleanupRequired?
  {
    CleanUpIsLocal(s, id, k, answer);
    TransitionIsLocal(CleanUp(s, k, answer), id, CleanupRequired, {DeliveryPending});
    LocalIsTransitive(s, CleanUp(s, k, answer), r, id);
  }

  lemma SweepDeliveryStep(s: Store, id: OperationId, acknowledged: bool, answers: Answers, r: Store)
    requires id in s.operations && (id, s.operations[id].currentAttempt) in s.attempts
    requires Target(s, id).credential.Some? ==>
               Honest(s.keys - {Target(s, id).credential.value}, Target(s, id).keyName, answers.verify)
    requires InState(s, id, DeliveryPending) && r == SweepDelivery(s, id, acknowledged, answers)
    ensures Local(s, r, id) && NotReopened(s, r, id)
    ensures SweepConcludes(s, id, acknowledged, answers) ==>
              var i := s.operations[id].currentAttempt;
              && (id, i) in r.attempts && r.attempts[(id, i)].outcome == OutcomeCleaned
              && Absent(r.keys, r.attempts[(id, i)].keyName)
    ensures var credential := s.attempts[(id, s.operations[id].currentAttempt)].credential;
            var gone := answers.cleanup == Confirmed && answers.verify == Listed(None);
            && (r.operations[id].state == Active <==> acknowledged)
            && (r.operations[id].state == CreateUnknown <==> !acknowledged && credential.None?)
            && (r.operations[id].state == RetryReady <==> !acknowledged && credential.Some? && gone)
            && (r.operations[id].state == CleanupRequired <==> !acknowledged && credential.Some? && !gone)
  {
    if acknowledged {
      TransitionIsLocal(s, id, Active, {DeliveryPending});
    } else if Target(s, id).credential.None? {
      TransitionIsLocal(s, id, CreateUnknown, {DeliveryPending});
    } else if SweepConcludes(s, id, acknowledged, answers) {
      DeliveryCleaned(s, id, answers, Target(s, id).credential.value, r);
    } else {
      DeliveryFlagged(s, id, Target(s, id).credential.value, answers.cleanup, r);
    }
  }

  // ---------------------------------------------------------------- the sweep

  /** The counters a sweep reports. */
  datatype Tally = Tally(reconciled: nat, retryReady: nat)

  /** The sweep over the listed waiting operations: the store it leaves and what it counts. */
  function SweptUnknown(s: Store, listed: seq<(OperationId, State)>, answers: seq<Answers>): (Store, Tally)
    requires |listed| == |answers|
  {
    if listed == [] then (s, Tally(0, 0))
    else
      var n := |listed| - 1;
      var (t, tally) := SweptUnknown(s, listed[..n], answers[..n]);
      var (id, before) := listed[n];
      var r := Reconcile(t, id, answers[n]);
      (r, Tally(tally.reconciled + (if id in r.operations && !InState(r, id, before) then 1 else 0),
                tally.retryReady + (if InState(r, id, RetryReady) then 1 else 0)))
  }

  // ---------------------------------------------------------------- resume

  /** A live delivery of another operation for the same subject and a compatible installation. */
  predicate Conflict(s: Store, id: OperationId, d: DeliveryId)
    requires id in s.operations && d in s.deliveries
  {
    var mine, other := s.operations[id].party, s.deliveries[d].operation;
    && !s.deliveries[d].status.DeliveryClosed?
    && other.Some? && other.value in s.operations && other.value != id
    && !s.operations[other.value].state.Failed?
    && var theirs := s.operations[other.value].party;
       && theirs.source == mine.source && theirs.subject == mine.subject
       && (mine.installation.None? || theirs.installation.None? || theirs.installation == mine.installation)
  }

  predicate Conflicting(s: Store, id: OperationId)
    requires id in s.operations
  {
    exists d :: d in s.deliveries && Conflict(s, id, d)
  }

  /** A Discord operation can be resumed only with its durable issuance context. */
  predicate Resumable(op: Operation) {
    op.party.source.Discord? ==> op.party.installation !in {None, Some("")} && op.party.deviceKey && op.context
  }

  /** What the handler reads besides the operation: a failing conflict query reads as no conflict. */
  datatype Seen = Seen(conflictQuery: bool, latest: Option<DeliveryId>, overdue: bool)

  /** An operation waiting for a reconcile is reconciled; only RETRY_READY goes on. */
  function ResumeWaiting(s: Store, id: OperationId, answers: Answers): (Store, bool)
    requires id in s.operations
  {
    if !Pending(s.operations[id].state) then (s, true)
    else
      var t := Reconcile(s, id, answers);
      (t, InState(t, id, RetryReady))
  }

  /** The operation with its delivery taken back: an open one is closed, and the state is reconcilable. */
  function TakenBack(s: Store, id: OperationId, latest: Option<DeliveryId>): Store {
    Transition(if latest.Some? then SetDelivery(s, latest.value, DeliveryClosed) else s, id, CreateUnknown, {DeliveryPending})
  }

  predicate DeliveryIn(s: Store, latest: Option<DeliveryId>, status: DeliveryStatus) {
    latest.Some? && latest.value in s.deliveries && s.deliveries[latest.value].status == status
  }

  /** An operation with a delivery out: activated, left alone, or taken back and reconciled. */
  function ResumeDelivery(s: Store, id: OperationId, seen: Seen, answers: Answers): (Store, bool) {
    if !InState(s, id, DeliveryPending) then (s, true)
    else if DeliveryIn(s, seen.latest, DeliveryAcknowledged) then (ActivateOnAck(s, seen.latest.value), false)
    else if DeliveryIn(s, seen.latest, DeliveryOpen) && !seen.overdue then (s, false)
    else
      var t := Reconcile(TakenBack(s, id, seen.latest), id, answers);
      (t, InState(t, id, RetryReady))
  }

  function ResumeStart(u: Store, id: OperationId): (Store, Option<nat>) {
    if id !in u.operations || !Resumable(u.operations[id]) || !CanStart(u, id, u.operations[id].attemptCount) then (u, None)
    else (Start(u, id, u.operations[id].attemptCount), Some(u.operations[id].attemptCount + 1))
  }

  /** handleManagedOperationResume once authorised: the tables and the attempt it starts, if any. */
  function Resume(s: Store, id: OperationId, seen: Seen, first: Answers, second: Answers): (Store, Option<nat>)
    requires id in s.operations
  {
    if seen.conflictQuery && Conflicting(s, id) then (s, None)
    else
      var (t, on) := ResumeWaiting(s, id, first);
      if !on then (t, None)
      else
        var (u, goesOn) := ResumeDelivery(t, id, seen, second);
        if goesOn then ResumeStart(u, id) else (u, None)
  }

  // ---------------------------------------------------------------- the tables, updated in place

  class OperationTables {
    var operations: map<OperationId, Operation>
    var attempts: map<AttemptId, Attempt>
    var keys: map<KeyHash, KeyName>
    var deliveries: map<DeliveryId, Delivery>

    function Contents(): Store
      reads this
    {
      Store(operations, attempts, keys, deliveries)
    }

    method TransitionManagedOperation(id: OperationId, to: State, from: set<State>)
      modifies this
      ensures Contents() == Transition(old(Contents()), id, to, from)
    {
      if id in operations && operations[id].state in from {
        operations := operations[id := operations[id].(state := to, clientAction := ClientActionForState(to))];
      }
    }

    method FailManagedOperation(id: OperationId, reason: FailureReason)
      modifies this
      ensures Contents() == Fail(old(Contents()), id, reason)
    {
      if id in operations {
        operations := operations[id :=
          operations[id].(state := Failed, clientAction := ActionRequired, failureReason := Some(reason))];
      }
    }

    /** The two statements of the claim batch; `ok` is the first statement's change count. */
    method StartManagedOperationAttempt(id: OperationId, seenState: State, seenCount: nat) returns (ok: bool)
      modifies this
      ensures ok == (Startable(seenState) && CanStart(old(Contents()), id, seenCount))
      ensures Contents() == if ok then Start(old(Contents()), id, seenCount) else old(Contents())
    {
      ok := false;
      if !Startable(seenState) || id !in operations { return; }
      var next := seenCount + 1;
      var name := KeyNameForAttempt(id, operations[id].party.source, next);
      if !Startable(operations[id].state) || operations[id].attemptCount != seenCount { return; }
      if (id, next) in attempts || exists a :: a in attempts && attempts[a].keyName == name { return; }
      operations := operations[id := operations[id].(
        state := Creating, clientAction := Wait, attemptCount := next, currentAttempt := next)];
      attempts := attempts[(id, next) := Attempt(name, None, OutcomeUnknown)];
      ok := true;
    }

    method ReleaseUnstartedOperationAttempt(id: OperationId, i: nat) returns (released: bool)
      modifies this
      ensures Contents() == Release(old(Contents()), id, i)
      ensures released <==> Releasable(old(Contents()), id, i) && InState(Contents(), id, RetryReady)
    {
      if (id, i) !in attempts || attempts[(id, i)].outcome != OutcomeUnknown || attempts[(id, i)].credential.Some? {
        return false;
      }
      attempts := attempts[(id, i) := attempts[(id, i)].(outcome := OutcomeCleaned)];
      TransitionManagedOperation(id, RetryReady, {Creating, CreateUnknown});
      return id in operations && operations[id].state == RetryReady;
    }

    method MarkAttemptCleaned(id: OperationId, i: nat)
      modifies this
      ensures Contents() == SetOutcome(old(Contents()), id, i, OutcomeCleaned)
    {
      if (id, i) in attempts {
        attempts := attempts[(id, i) := attempts[(id, i)].(outcome := OutcomeCleaned)];
      }
    }

    /** The provider's cleanup of one key. */
    method CleanUpManagedChildKey(k: KeyHash, answer: Cleanup) returns (ok: bool)
      modifies this
      ensures Contents() == CleanUp(old(Contents()), k, answer)
      ensures ok == answer.Confirmed?
    {
      if answer.Confirmed? || answer.removed { keys := keys - {k}; }
      ok := answer.Confirmed?;
    }

    method FinishClean(id: OperationId, i: nat, from: set<State>)
      modifies this
      ensures Contents() == Cleaned(old(Contents()), id, i, from)
    {
      MarkAttemptCleaned(id, i);
      TransitionManagedOperation(id, Clean, from);
      TransitionManagedOperation(id, RetryReady, {Clean});
    }

    method ReconcileUnknownAttempt(id: OperationId, answers: Answers)
      modifies this
      ensures Contents() == Reconcile(old(Contents()), id, answers)
    {
      if id !in operations { return; }
      var i := operations[id].currentAttempt;
      if (id, i) !in attempts && i == 0 && forall a :: a in attempts ==> a.0 != id { return; }
      var target := Target(Contents(), id);
      if (id, i) !in attempts && i != 0 && !NameTaken(Contents(), target.keyName) {
        attempts := attempts[(id, i) := target];
      }
      ReconcileAttemptTarget(id, i, operations[id].cleanupAttempts, target, answers);
    }

    method ReconcileAttemptTarget(id: OperationId, i: nat, cleanupAttempts: nat, target: Attempt, answers: Answers)
      requires id in operations
      modifies this
      ensures Contents() == ReconcileTarget(old(Contents()), id, i, cleanupAttempts, target, answers)
    {
      TransitionManagedOperation(id, Reconciling, TO_RECONCILING);
      if answers.find.Unavailable? { return; }
      if answers.find.key.None? {
        if target.credential.Some? {
          TransitionManagedOperation(id, CleanupRequired, TO_CLEANUP);
          var ok := CleanUpManagedChildKey(target.credential.value, answers.cleanup);
          if !ok { return; }
          if answers.verify != Listed(None) { return; }
        }
        FinishClean(id, i, TO_CLEAN_WHEN_ABSENT);
        return;
      }
      TransitionManagedOperation(id, CleanupRequired, TO_CLEANUP);
      var ok := CleanUpManagedChildKey(target.credential.GetOr(answers.find.key.value), answers.cleanup);
      if !ok {
        operations := operations[id := operations[id].(cleanupAttempts := cleanupAttempts + 1)];
        if cleanupAttempts + 1 >= CLEANUP_ATTEMPT_LIMIT { FailManagedOperation(id, CleanupFailedTerminal); }
        return;
      }
      if answers.verify != Listed(None) { return; }
      FinishClean(id, i, TO_CLEAN_AFTER_CLEANUP);
    }

    /** The sweep's loop over the operations it listed as waiting, with its two counters. */
    method SweepUnknown(listed: seq<(OperationId, State)>, answers: seq<Answers>) returns (reconciled: nat, retryReady: nat)
      requires |listed| == |answers|
      modifies this
      ensures (Contents(), Tally(reconciled, retryReady)) == SweptUnknown(old(Contents()), listed, answers)
    {
      reconciled, retryReady := 0, 0;
      for n := 0 to |listed|
        invariant (Contents(), Tally(reconciled, retryReady)) == SweptUnknown(old(Contents()), listed[..n], answers[..n])
      {
        var (id, before) := listed[n];
        assert listed[..n + 1][..n] == listed[..n] && answers[..n + 1][..n] == answers[..n];
        ReconcileUnknownAttempt(id, answers[n]);
        if id in operations && operations[id].state != before { reconciled := reconciled + 1; }
        if id in operations && operations[id].state == RetryReady { retryReady := retryReady + 1; }
      }
      assert listed[..|listed|] == listed && answers[..|listed|] == answers;
    }

    /** The waiting states of resume: reconcile, and go on only from RETRY_READY. */
    method ResumeWaitingOperation(id: OperationId, answers: Answers) returns (goesOn: bool)
      requires id in operations
      modifies this
      ensures (Contents(), goesOn) == ResumeWaiting(old(Contents()), id, answers)
    {
      if !Pending(operations[id].state) { return true; }
      ReconcileUnknownAttempt(id, answers);
      return id in operations && operations[id].state == RetryReady;
    }

    method ExpireOperationDelivery(d: DeliveryId)
      modifies this
      ensures Contents() == SetDelivery(old(Contents()), d, DeliveryClosed)
    {
      if d in deliveries && deliveries[d].status.DeliveryOpen? {
        deliveries := deliveries[d := deliveries[d].(status := DeliveryClosed)];
      }
    }

    /** DELIVERY_PENDING in resume: activate, leave alone, or take the delivery back and reconcile. */
    method ResumeDeliveredOperation(id: OperationId, seen: Seen, answers: Answers) returns (goesOn: bool)
      modifies this
      ensures (Contents(), goesOn) == ResumeDelivery(old(Contents()), id, seen, answers)
    {
      if id !in operations || operations[id].state != DeliveryPending { return true; }
      if seen.latest.Some? && seen.latest.value in deliveries {
        var status := deliveries[seen.latest.value].status;
        if status.DeliveryAcknowledged? {
          MarkOperationActiveOnAck(seen.latest.value);
          return false;
        }
        if status.DeliveryOpen? && !seen.overdue { return false; }
        ExpireOperationDelivery(seen.latest.value);
      }
      TransitionManagedOperation(id, CreateUnknown, {DeliveryPending});
      ReconcileUnknownAttempt(id, answers);
      return id in operations && operations[id].state == RetryReady;
    }

    /** handleManagedOperationResume from the authorised row on. */
    method HandleManagedOperationResume(id: OperationId, seen: Seen, first: Answers, second: Answers)
      returns (started: Option<nat>)
      requires id in operations
      modifies this
      ensures (Contents(), started) == Resume(old(Contents()), id, seen, first, second)
    {
      started := None;
      if seen.conflictQuery && exists d :: d in deliveries && Conflict(Contents(), id, d) { return; }
      var goesOn := ResumeWaitingOperation(id, first);
      if !goesOn { return; }
      goesOn := ResumeDeliveredOperation(id, seen, second);
      if !goesOn { return; }
      started := ResumeIssuance(id);
    }

    /** The last part of the handler: a startable operation with its context claims its next attempt. */
    method ResumeIssuance(id: OperationId) returns (started: Option<nat>)
      modifies this
      ensures (Contents(), started) == ResumeStart(old(Contents()), id)
    {
      started := None;
      if id !in operations { return; }
      var operation := operations[id];
      if operation.party.source.Discord?
         && (operation.party.installation in {None, Some("")} || !operation.party.deviceKey || !operation.context) { return; }
      var ok := StartManagedOperationAttempt(id, operation.state, operation.attemptCount);
      if ok { started := Some(operation.attemptCount + 1); }
    }

    method MarkOperationActiveOnAck(d: DeliveryId)
      modifies this
      ensures Contents() == ActivateOnAck(old(Contents()), d)
    {
      if d !in deliveries || !deliveries[d].status.DeliveryAcknowledged? || deliveries[d].operation.None? { return; }
      var id := deliveries[d].operation.value;
      if id in operations && operations[id].state in {DeliveryPending, Failed} {
        operations := operations[id := operations[id].(state := Active, clientAction := Wait, failureReason := None)];
      }
    }
  }
}

