/**
 The retry gate of the managed operation: whatever requests, sweeps, resumes and the provider do, and
 in whatever order, when may a new attempt start, and what may still exist of the earlier ones?

 A create call is in flight from the moment it is sent until it makes its key or comes to nothing,
 and its request may give up, die or run its catch block in between.
 */
module OperationGate {
  import opened Common
  import opened ManagedOperation

  /**
   `claimants` are the attempts whose request is still at work; `called` and `maker` are history:
   the attempts that asked for a key, and which attempt each key was made for.
   */
  datatype World = World(
    store: Store, claimants: set<AttemptId>, called: set<AttemptId>, inFlight: set<AttemptId>,
    maker: map<KeyHash, AttemptId>)

  datatype Action =
    | Bind(id: OperationId, party: Party)
    | RememberContext(id: OperationId)
    | StartAttempt(id: OperationId, seenCount: nat)
    | CallProvider(id: OperationId, index: nat)
    | TakeEffect(attempt: AttemptId, key: KeyHash)   // the create call makes its key
    | Evaporate(attempt: AttemptId)                  // the create call comes to nothing
    | Record(id: OperationId, index: nat, key: KeyHash)
    | PostCreate(id: OperationId, index: nat, active: bool, answers: Answers)
    | GiveUp(id: OperationId, index: nat)            // the claimant marks its attempt unknown
    | Depart(id: OperationId, index: nat)            // the claimant ends or dies
    | ReleaseAttempt(id: OperationId, index: nat)
    | FailTerminally(id: OperationId, reason: FailureReason)
    | ExpireAuthorization(id: OperationId)
    | ReconcileUnknown(id: OperationId, answers: Answers)
    | SweepStaleCreating(id: OperationId)
    | SweepStaleDelivery(id: OperationId, acknowledged: bool, answers: Answers)
    | AbandonDelivery(id: OperationId)               // resume takes an overdue delivery back
    | InsertDelivery(delivery: DeliveryId, id: OperationId)
    | MoveDelivery(delivery: DeliveryId, status: DeliveryStatus)
    | MarkActiveOnAck(delivery: DeliveryId)
    | RemoveKey(key: KeyHash)                        // any other cleanup of a key

  function PostCreateState(active: bool): State {
    if active then Active else DeliveryPending
  }

  ghost predicate Enabled(w: World, a: Action) {
    match a
    case CallProvider(id, i) => (id, i) in w.claimants && (id, i) !in w.called
    case TakeEffect(attempt, k) => attempt in w.inFlight && k !in w.maker
    case Evaporate(attempt) => attempt in w.inFlight
    case Record(id, i, _) => (id, i) in w.claimants
    case PostCreate(id, i, active, answers) =>
      && (id, i) in w.claimants && (id, i) in w.called && (id, i) !in w.inFlight
      && HonestAnswers(Transition(w.store, id, PostCreateState(active), {Creating}), id, answers)
    case GiveUp(id, i) => (id, i) in w.claimants
    case ReleaseAttempt(id, i) => (id, i) !in w.called
    case ReconcileUnknown(id, answers) => HonestAnswers(w.store, id, answers)
    case SweepStaleDelivery(id, acknowledged, answers) =>
      && (acknowledged ==> Acknowledged(w.store, id))
      && (id in w.store.operations && Target(w.store, id).credential.Some? ==>
            Honest(w.store.keys - {Target(w.store, id).credential.value}, Target(w.store, id).keyName, answers.verify))
    case InsertDelivery(d, id) => d !in w.store.deliveries
    case _ => true
  }

  /** The key of a create call bears the deterministic name of its attempt. */
  function Created(s: Store, a: AttemptId, k: KeyHash): Store {
    if a.0 !in s.operations then s
    else s.(keys := s.keys[k := KeyNameForAttempt(a.0, s.operations[a.0].party.source, a.1)])
  }

  function Apply(w: World, a: Action): World {
    var s := w.store;
    match a
    case Bind(id, party) => w.(store := Bound(s, id, party))
    case RememberContext(id) => w.(store := SaveContext(s, id))
    case StartAttempt(id, seenCount) =>
      if CanStart(s, id, seenCount)
      then w.(store := Start(s, id, seenCount), claimants := w.claimants + {(id, seenCount + 1)}) else w
    case CallProvider(id, i) => w.(called := w.called + {(id, i)}, inFlight := w.inFlight + {(id, i)})
    case TakeEffect(attempt, k) =>
      w.(store := Created(s, attempt, k), inFlight := w.inFlight - {attempt}, maker := w.maker[k := attempt])
    case Evaporate(attempt) => w.(inFlight := w.inFlight - {attempt})
    case Record(id, i, k) => w.(store := RecordCredential(s, id, i, k))
    case PostCreate(id, i, active, answers) => w.(store := SettleCreated(s, id, PostCreateState(active), answers))
    case GiveUp(id, i) => w.(store := MarkUnknown(s, id, i), claimants := w.claimants - {(id, i)})
    case Depart(id, i) => w.(claimants := w.claimants - {(id, i)})
    case ReleaseAttempt(id, i) => w.(store := Release(s, id, i), claimants := w.claimants - {(id, i)})
    case FailTerminally(id, reason) => w.(store := Fail(s, id, reason))
    case ExpireAuthorization(id) => w.(store := Expire(s, id))
    case ReconcileUnknown(id, answers) => w.(store := Reconcile(s, id, answers))
    case SweepStaleCreating(id) => w.(store := Transition(s, id, CreateUnknown, {Creating}))
    case SweepStaleDelivery(id, acknowledged, answers) => w.(store := SweepDelivery(s, id, acknowledged, answers))
    case AbandonDelivery(id) => w.(store := Transition(s, id, CreateUnknown, {DeliveryPending}))
    case InsertDelivery(d, id) => w.(store := s.(deliveries := s.deliveries[d := Delivery(Some(id), DeliveryOpen)]))
    case MoveDelivery(d, status) => w.(store := SetDelivery(s, d, status))
    case MarkActiveOnAck(d) => w.(store := ActivateOnAck(s, d))
    case RemoveKey(k) => w.(store := s.(keys := s.keys - {k}))
  }

  ghost function Next(w: World, a: Action): World {
    if Enabled(w, a) then Apply(w, a) else w
  }

  ghost function Run(w: World, actions: seq<Action>): World
    decreases |actions|
  {
    if actions == [] then w else Next(Run(w, actions[..|actions| - 1]), actions[|actions| - 1])
  }

  const EMPTY := World(Store(map[], map[], map[], map[]), {}, {}, {}, map[])

  lemma RunStep(w: World, actions: seq<Action>, n: nat)
    requires n < |actions|
    ensures Run(w, actions[..n + 1]) == Next(Run(w, actions[..n]), actions[n])
  {
    assert actions[..n + 1][..n] == actions[..n];
  }

  lemma {:induction false} RunAppend(w: World, xs: seq<Action>, ys: seq<Action>)
    ensures Run(w, xs + ys) == Run(Run(w, xs), ys)
    decreases |ys|
  {
    if ys == [] {
      assert xs + ys == xs;
    } else {
      assert (xs + ys)[..|xs + ys| - 1] == xs + ys[..|ys| - 1];
      RunAppend(w, xs, ys[..|ys| - 1]);
    }
  }

  lemma RunSnoc(w: World, xs: seq<Action>, a: Action)
    ensures Run(w, xs + [a]) == Next(Run(w, xs), a)
  {
    assert (xs + [a])[..|xs|] == xs;
  }

  lemma RunOne(w: World, a: Action)
    ensures Run(w, [a]) == Next(w, a)
  {
    assert [a][..0] == [];
  }

  // ---------------------------------------------------------------- prudent runs

  /** The attempt may still get a key: its call is in flight, or its request has yet to call. */
  predicate MayMake(w: World, a: AttemptId) {
    a in w.inFlight || (a in w.claimants && a !in w.called)
  }

  /** No create call of the operation is pending. */
  ghost predicate Quiet(w: World, id: OperationId) {
    forall i: nat :: !MayMake(w, (id, i))
  }

  /** The step concludes from a listing that the operation's key does not exist. */
  predicate Concluding(w: World, a: Action) {
    match a
    case ReconcileUnknown(id, answers) => Concludes(w.store, id, answers)
    case PostCreate(id, _, active, answers) => SettleConcludes(w.store, id, PostCreateState(active), answers)
    case SweepStaleDelivery(id, acknowledged, answers) => SweepConcludes(w.store, id, acknowledged, answers)
    case _ => false
  }

  /** A listing concludes absence only while no create call of the operation is pending. */
  ghost predicate Prudent(w: World, a: Action) {
    Enabled(w, a) && Concluding(w, a) ==> Quiet(w, a.id)
  }

  ghost predicate PrudentFrom(w: World, actions: seq<Action>) {
    forall n | 0 <= n < |actions| :: Prudent(Run(w, actions[..n]), actions[n])
  }

  /** The paths that act on a timeout run only once every request of the operation has finished. */
  ghost predicate Patient(w: World, a: Action) {
    a.SweepStaleCreating? || a.SweepStaleDelivery? || a.AbandonDelivery? ==> forall i: nat :: (a.id, i) !in w.claimants
  }

  ghost predicate PatientFrom(w: World, actions: seq<Action>) {
    forall n | 0 <= n < |actions| :: Patient(Run(w, actions[..n]), actions[n])
  }

  /** A request leaves only once its call has made its key or come to nothing. */
  ghost predicate Prompt(w: World, a: Action) {
    a.GiveUp? || a.Depart? ==> (a.id, a.index) !in w.inFlight
  }

  ghost predicate PromptFrom(w: World, actions: seq<Action>) {
    forall n | 0 <= n < |actions| :: Prompt(Run(w, actions[..n]), actions[n])
  }

  // ---------------------------------------------------------------- what holds in every run

  /** The attempt rows of an operation are exactly 1 to n, under their deterministic names. */
  ghost predicate AttemptsOk(s: Store, id: OperationId, source: Source, n: nat) {
    && (forall i: nat :: (id, i) in s.attempts <==> 1 <= i <= n)
    && (forall i: nat | 1 <= i <= n :: s.attempts[(id, i)].keyName == KeyNameForAttempt(id, source, i))
  }

  ghost predicate RowsOk(s: Store, id: OperationId)
    requires id in s.operations
  {
    RowOk(s.operations[id]) && AttemptsOk(s, id, s.operations[id].party.source, s.operations[id].currentAttempt)
  }

  ghost predicate NamesUnique(s: Store) {
    forall a, b | a in s.attempts && b in s.attempts && s.attempts[a].keyName == s.attempts[b].keyName :: a == b
  }

  /** Every key bears the name of the one attempt whose landed call made it, and no attempt made two. */
  ghost predicate KeysOk(w: World) {
    && (forall k | k in w.store.keys ::
          && k in w.maker && w.maker[k] in w.called && w.maker[k] !in w.inFlight && w.maker[k] in w.store.attempts
          && w.store.keys[k] == w.store.attempts[w.maker[k]].keyName)
    && (forall k, l | k in w.store.keys && l in w.store.keys && w.maker[k] == w.maker[l] :: k == l)
  }

  ghost predicate OwnersOk(w: World) {
    && (forall a | a in w.store.attempts :: a.0 in w.store.operations)
    && w.claimants <= w.store.attempts.Keys
    && w.inFlight <= w.called <= w.store.attempts.Keys
  }

  ghost predicate Base(w: World) {
    && OwnersOk(w)
    && NamesUnique(w.store)
    && KeysOk(w)
    && (forall id | id in w.store.operations :: RowsOk(w.store, id))
  }

  // ---------------------------------------------------------------- what holds in prudent or patient runs

  /** No key bears the attempt's name, and none will. */
  ghost predicate Gone(w: World, id: OperationId, i: nat)
    requires id in w.store.operations
  {
    Absent(w.store.keys, KeyNameForAttempt(id, w.store.operations[id].party.source, i)) && !MayMake(w, (id, i))
  }

  /** Superseded attempts are gone; the current one too while the operation rests. */
  ghost predicate Sealed(w: World) {
    forall id, i: nat | id in w.store.operations && 1 <= i <= w.store.operations[id].currentAttempt
                        && (i < w.store.operations[id].currentAttempt || Resting(w.store.operations[id].state)) ::
      Gone(w, id, i)
  }

  /** A superseded attempt that never called, or any such attempt in RETRY_READY, cannot be released. */
  ghost predicate Spent(w: World) {
    forall id, i: nat | id in w.store.operations && (id, i) !in w.called && Releasable(w.store, id, i) ::
      i >= w.store.operations[id].currentAttempt && !w.store.operations[id].state.RetryReady?
  }

  /** States an operation may be in while the request that claimed its attempt is at work. */
  predicate Underway(state: State) {
    state.Creating? || state.DeliveryPending? || state.Active? || state.Failed?
  }

  /** A request at work holds the current attempt of an operation that is underway. */
  ghost predicate Attended(w: World) {
    forall id, i: nat | (id, i) in w.claimants && id in w.store.operations ::
      i == w.store.operations[id].currentAttempt && Underway(w.store.operations[id].state)
  }

  /** Weaker than both `Sealed` and `Attended`: who has yet to call holds the current attempt. */
  ghost predicate CallersAreCurrent(w: World) {
    forall id, i: nat | (id, i) in w.claimants && (id, i) !in w.called && id in w.store.operations ::
      i == w.store.operations[id].currentAttempt && !Resting(w.store.operations[id].state)
  }

  // ---------------------------------------------------------------- tame steps

  /** Nothing but requests leaving. */
  predicate Framed(w: World, v: World) {
    v.called == w.called && v.inFlight == w.inFlight && v.maker == w.maker && v.claimants <= w.claimants
  }

  /** Rows as before; keys may have gone. */
  ghost predicate Untouched(w: World, v: World) {
    && Framed(w, v)
    && v.store.operations == w.store.operations && v.store.attempts == w.store.attempts
    && (forall k | k in v.store.keys :: k in w.store.keys && v.store.keys[k] == w.store.keys[k])
  }

  /** RETRY_READY on the strength of a listing: the current attempt is cleaned and has no key. */
  ghost predicate Verified(w: World, a: Action, v: World, id: OperationId)
    requires id in w.store.operations
  {
    var i := w.store.operations[id].currentAttempt;
    && Concluding(w, a) && a.id == id
    && v.claimants == w.claimants
    && (id, i) in v.store.attempts && v.store.attempts[(id, i)].outcome == OutcomeCleaned
    && Absent(v.store.keys, v.store.attempts[(id, i)].keyName)
  }

  /** RETRY_READY by release of an attempt that never called. */
  ghost predicate Released(w: World, a: Action, v: World, id: OperationId) {
    && a.ReleaseAttempt? && a.id == id && (id, a.index) !in w.called
    && Releasable(w.store, id, a.index) && !Releasable(v.store, id, a.index)
    && v.claimants == w.claimants - {(id, a.index)}
    && v.store.keys == w.store.keys
  }

  ghost predicate LeavesUnderway(w: World, a: Action, v: World, id: OperationId) {
    || (a.GiveUp? && a.id == id && (id, a.index) in w.claimants && v.claimants == w.claimants - {(id, a.index)})
    || Released(w, a, v, id)
    || ((a.SweepStaleCreating? || a.SweepStaleDelivery? || a.AbandonDelivery?) && a.id == id)
  }

  /** What every step on the rows of one operation has in common, however it is caused. */
  ghost predicate Tame(w: World, a: Action, v: World, id: OperationId) {
    && Framed(w, v)
    && Local(w.store, v.store, id)
    && var before, after := w.store.operations[id].state, v.store.operations[id].state;
       && StaysIdle(before, after)
       && (Resting(after) && !Resting(before) ==> after.RetryReady?)
       && (after.RetryReady? && !before.RetryReady? ==> Verified(w, a, v, id) || Released(w, a, v, id))
       && (Underway(before) && !Underway(after) ==> LeavesUnderway(w, a, v, id))
       && (before.Failed? && !after.Failed? ==> after.Active? && a.MarkActiveOnAck? && Acknowledged(w.store, id))
       && (forall j: nat | Releasable(v.store, id, j) :: Releasable(w.store, id, j) || (a == GiveUp(id, j) && (id, j) in w.claimants))
  }

  /** The operation a step works on. */
  function ActsOn(w: World, a: Action): OperationId {
    match a
    case TakeEffect(attempt, _) => attempt.0
    case Evaporate(attempt) => attempt.0
    case MoveDelivery(_, _) => ""
    case MarkActiveOnAck(d) => if d in w.store.deliveries then w.store.deliveries[d].operation.GetOr("") else ""
    case RemoveKey(_) => ""
    case _ => a.id
  }

  /** The steps that make an operation, an attempt or a key, or send a call. */
  predicate Wild(w: World, a: Action) {
    || (a.Bind? && a.id !in w.store.operations)
    || (a.StartAttempt? && CanStart(w.store, a.id, a.seenCount))
    || a.CallProvider? || a.TakeEffect? || a.Evaporate?
  }

  ghost predicate TameOrUntouched(w: World, a: Action, v: World) {
    Untouched(w, v) || (ActsOn(w, a) in w.store.operations && Tame(w, a, v, ActsOn(w, a)))
  }

  lemma CalmIsTame(w: World, a: Action, v: World, id: OperationId)
    requires Framed(w, v) && Local(w.store, v.store, id) && NotReopened(w.store, v.store, id)
    requires var before, after := w.store.operations[id].state, v.store.operations[id].state;
             && (Resting(after) ==> after == before || (before.Authenticated? && after.IssueReady?))
             && (Underway(before) && !Underway(after) ==> LeavesUnderway(w, a, v, id))
             && (before.Failed? && !after.Failed? ==> after.Active? && a.MarkActiveOnAck? && Acknowledged(w.store, id))
    ensures Tame(w, a, v, id)
  {
  }

  lemma EffectIsTame(w: World, a: Action, v: World, id: OperationId, concluded: bool)
    requires Framed(w, v) && v.claimants == w.claimants && ReconcileEffect(w.store, v.store, id, concluded)
    requires concluded && Pending(w.store.operations[id].state) ==> Concluding(w, a) && a.id == id
    ensures Tame(w, a, v, id)
  {
  }

  /** The rows of one operation, as far as a step on them needs to know. */
  ghost predicate CurrentRowOk(s: Store, id: OperationId) {
    && (id in s.operations && s.operations[id].currentAttempt > 0 ==> (id, s.operations[id].currentAttempt) in s.attempts)
    && (id in s.operations ==> s.operations[id].currentAttempt > 0 || forall a | a in s.attempts :: a.0 != id)
    && (id !in s.operations ==> forall a | a in s.attempts :: a.0 != id)
  }

  lemma CurrentRowIsOk(w: World, id: OperationId)
    requires Base(w)
    ensures CurrentRowOk(w.store, id)
  {
    if id in w.store.operations {
      assert RowsOk(w.store, id);
      forall a | a in w.store.attempts ensures a.0 == id ==> 1 <= a.1 <= w.store.operations[id].currentAttempt {
        assert a == (a.0, a.1);
      }
    }
  }

  /** Without a started attempt there is no row, hence nothing to reconcile. */
  lemma TargetRowExists(s: Store, id: OperationId)
    requires CurrentRowOk(s, id) && !NothingToReconcile(s, id)
    ensures (id, s.operations[id].currentAttempt) in s.attempts
  {
  }

  lemma ReconcileIsTame(w: World, a: Action, v: World)
    requires a.ReconcileUnknown? && Enabled(w, a) && v == Apply(w, a) && CurrentRowOk(w.store, a.id)
    ensures v == w || (a.id in w.store.operations && Tame(w, a, v, a.id))
  {
    if NothingToReconcile(w.store, a.id) {
      assert v == w;
    } else {
      TargetRowExists(w.store, a.id);
      ReconcileStep(w.store, a.id, a.answers, v.store);
      EffectIsTame(w, a, v, a.id, FoundAbsent(Target(w.store, a.id), a.answers));
    }
  }

  lemma PostCreateIsTame(w: World, a: Action, v: World)
    requires a.PostCreate? && Enabled(w, a) && v == Apply(w, a) && CurrentRowOk(w.store, a.id)
    requires a.id in w.store.operations && w.store.operations[a.id].currentAttempt > 0
    ensures Tame(w, a, v, a.id)
  {
    var to, before := PostCreateState(a.active), w.store.operations[a.id].state;
    SettleStep(w.store, a.id, to, a.answers, v.store);
    if before.Creating? || before == to {
      CalmIsTame(w, a, v, a.id);
    } else {
      ReconciledIsTame(w, a, v, to);
    }
  }

  lemma ReconciledIsTame(w: World, a: Action, v: World, to: State)
    requires a.PostCreate? && to == PostCreateState(a.active) && Framed(w, v) && v.claimants == w.claimants
    requires CurrentRowOk(w.store, a.id) && a.id in w.store.operations && w.store.operations[a.id].currentAttempt > 0
    requires !w.store.operations[a.id].state.Creating? && w.store.operations[a.id].state != to
    requires ReconcileEffect(w.store, v.store, a.id, FoundAbsent(Target(w.store, a.id), a.answers))
    ensures Tame(w, a, v, a.id)
  {
    assert Transition(w.store, a.id, to, {Creating}) == w.store;
    EffectIsTame(w, a, v, a.id, FoundAbsent(Target(w.store, a.id), a.answers));
  }

  lemma SweepDeliveryIsTame(w: World, a: Action, v: World)
    requires a.SweepStaleDelivery? && Enabled(w, a) && v == Apply(w, a)
    requires InState(w.store, a.id, DeliveryPending)
    ensures Tame(w, a, v, a.id)
  {
    if (a.id, w.store.operations[a.id].currentAttempt) in w.store.attempts {
      SweepDeliveryStep(w.store, a.id, a.acknowledged, a.answers, v.store);
    } else {
      TransitionIsLocal(w.store, a.id, if a.acknowledged then Active else CreateUnknown, {DeliveryPending});
    }
    if !SweepConcludes(w.store, a.id, a.acknowledged, a.answers) {
      CalmIsTame(w, a, v, a.id);
    }
  }

  lemma RecordIsTame(w: World, a: Action, v: World)
    requires a.Record? && Enabled(w, a) && v == Apply(w, a) && a.id in w.store.operations
    ensures Tame(w, a, v, a.id)
  {
    RecordIsLocal(w.store, a.id, a.index, a.key);
    CalmIsTame(w, a, v, a.id);
  }

  lemma GiveUpIsTame(w: World, a: Action, v: World)
    requires a.GiveUp? && Enabled(w, a) && v == Apply(w, a) && a.id in w.store.operations
    ensures Tame(w, a, v, a.id)
  {
    MarkUnknownIsLocal(w.store, a.id, a.index);
  }

  lemma ReleaseIsTame(w: World, a: Action, v: World)
    requires a.ReleaseAttempt? && Enabled(w, a) && v == Apply(w, a) && a.id in w.store.operations
    ensures v.store == w.store || Tame(w, a, v, a.id)
  {
    if Releasable(w.store, a.id, a.index) {
      ReleaseIsLocal(w.store, a.id, a.index);
    }
  }

  lemma TransitionIsTame(w: World, a: Action, v: World, to: State, from: set<State>)
    requires a.Bind? || a.SweepStaleCreating? || a.AbandonDelivery?
    requires a.id in w.store.operations && v == w.(store := Transition(w.store, a.id, to, from))
    requires if a.Bind? then to == IssueReady && from == {Authenticated} else to == CreateUnknown && Failed !in from
    ensures Tame(w, a, v, a.id)
  {
    TransitionIsLocal(w.store, a.id, to, from);
    CalmIsTame(w, a, v, a.id);
  }

  lemma ContextIsTame(w: World, a: Action, v: World)
    requires a.RememberContext? && a.id in w.store.operations && v == Apply(w, a)
    ensures Tame(w, a, v, a.id)
  {
    PutIsLocal(w.store, a.id, w.store.operations[a.id].(context := true));
    CalmIsTame(w, a, v, a.id);
  }

  lemma FailIsTame(w: World, a: Action, v: World, reason: FailureReason)
    requires a.FailTerminally? || a.ExpireAuthorization?
    requires a.id in w.store.operations && v == w.(store := Fail(w.store, a.id, reason))
    ensures Tame(w, a, v, a.id)
  {
    FailIsLocal(w.store, a.id, reason);
    CalmIsTame(w, a, v, a.id);
  }

  lemma TransitionActionIsTame(w: World, a: Action, v: World)
    requires v == Apply(w, a)
    requires a.Bind? || a.RememberContext? || a.FailTerminally? || a.ExpireAuthorization? || a.SweepStaleCreating? || a.AbandonDelivery?
    requires a.id in w.store.operations
    ensures TameOrUntouched(w, a, v)
  {
    match a {
      case Bind(id, _) => TransitionIsTame(w, a, v, IssueReady, {Authenticated});
      case SweepStaleCreating(id) => TransitionIsTame(w, a, v, CreateUnknown, {Creating});
      case AbandonDelivery(id) => TransitionIsTame(w, a, v, CreateUnknown, {DeliveryPending});
      case RememberContext(id) => ContextIsTame(w, a, v);
      case FailTerminally(id, reason) => FailIsTame(w, a, v, reason);
      case ExpireAuthorization(id) =>
        if v != w { FailIsTame(w, a, v, AuthorizationExpired); }
    }
  }

  lemma ActivateIsTame(w: World, a: Action, v: World)
    requires a.MarkActiveOnAck? && v == Apply(w, a)
    requires ActsOn(w, a) in w.store.operations ==> RowOk(w.store.operations[ActsOn(w, a)])
    ensures TameOrUntouched(w, a, v)
  {
    if v != w {
      var id := w.store.deliveries[a.delivery].operation.value;
      PutIsLocal(w.store, id, v.store.operations[id]);
      CalmIsTame(w, a, v, id);
    }
  }

  lemma StepIsTame(w: World, a: Action, v: World)
    requires Base(w) && Enabled(w, a) && !Wild(w, a) && v == Apply(w, a)
    ensures TameOrUntouched(w, a, v)
  {
    var id := ActsOn(w, a);
    CurrentRowIsOk(w, id);
    assert id in w.store.operations ==> RowsOk(w.store, id);
    assert (a.Record? || a.GiveUp? || a.PostCreate?) ==> (a.id, a.index) in w.store.attempts;
    SettledStepIsTame(w, a, v);
  }

  lemma SettledStepIsTame(w: World, a: Action, v: World)
    requires CurrentRowOk(w.store, ActsOn(w, a)) && Enabled(w, a) && !Wild(w, a) && v == Apply(w, a)
    requires ActsOn(w, a) in w.store.operations ==> RowOk(w.store.operations[ActsOn(w, a)])
    requires a.Record? || a.GiveUp? || a.PostCreate? ==> (a.id, a.index) in w.store.attempts
    ensures TameOrUntouched(w, a, v)
  {
    if a.ReconcileUnknown? {
      ReconcileIsTame(w, a, v);
    } else if a.PostCreate? {
      PostCreateIsTame(w, a, v);
    } else if a.SweepStaleDelivery? {
      if InState(w.store, a.id, DeliveryPending) { SweepDeliveryIsTame(w, a, v); }
    } else if a.Record? {
      RecordIsTame(w, a, v);
    } else if a.GiveUp? {
      GiveUpIsTame(w, a, v);
    } else if a.ReleaseAttempt? {
      if a.id in w.store.operations { ReleaseIsTame(w, a, v); }
    } else if a.MarkActiveOnAck? {
      ActivateIsTame(w, a, v);
    } else if a.StartAttempt? || a.InsertDelivery? || a.MoveDelivery? || a.RemoveKey? || a.Depart? {
      assert Untouched(w, v);
    } else if a.id in w.store.operations {
      TransitionActionIsTame(w, a, v);
    }
  }

  // ---------------------------------------------------------------- every step keeps the base

  lemma LocalKeepsBase(w: World, v: World, id: OperationId)
    requires Base(w) && Framed(w, v) && Local(w.store, v.store, id)
    requires StaysIdle(w.store.operations[id].state, v.store.operations[id].state)
    ensures Base(v)
  {
    forall o | o in v.store.operations ensures RowsOk(v.store, o) {
      assert RowsOk(w.store, o);
      forall i: nat ensures (o, i) in v.store.attempts <==> (o, i) in w.store.attempts {}
    }
  }

  lemma UntouchedKeepsBase(w: World, v: World)
    requires Base(w) && Untouched(w, v)
    ensures Base(v)
  {
    forall o | o in v.store.operations ensures RowsOk(v.store, o) {
      assert RowsOk(w.store, o);
    }
  }

  lemma BindKeepsBase(w: World, v: World, id: OperationId, party: Party)
    requires Base(w) && id !in w.store.operations && v == w.(store := Create(w.store, id, party))
    ensures Base(v)
  {
    forall o | o in v.store.operations ensures RowsOk(v.store, o) {
      if o == id {
        assert forall i: nat :: (id, i) !in w.store.attempts;
      } else {
        assert RowsOk(w.store, o);
      }
    }
  }

  /** A successful claim: the row, the attempt and the claimant appear together. */
  ghost predicate Claims(w: World, v: World, id: OperationId, n: nat) {
    && CanStart(w.store, id, n)
    && v == w.(store := Start(w.store, id, n), claimants := w.claimants + {(id, n + 1)})
  }

  lemma StartKeepsRows(w: World, v: World, id: OperationId, n: nat, o: OperationId)
    requires Base(w) && Claims(w, v, id, n) && o in w.store.operations
    ensures RowsOk(v.store, o)
  {
    assert RowsOk(w.store, o);
    forall i: nat ensures (o, i) in v.store.attempts <==> (o, i) in w.store.attempts || (o == id && i == n + 1) {}
  }

  lemma StartKeepsBase(w: World, v: World, id: OperationId, n: nat)
    requires Base(w) && Claims(w, v, id, n)
    ensures Base(v)
  {
    forall o | o in v.store.operations ensures RowsOk(v.store, o) {
      StartKeepsRows(w, v, id, n, o);
    }
  }

  /** A landing call makes the only key under its attempt's name. */
  lemma LandingKeepsBase(w: World, v: World, a: AttemptId, k: KeyHash)
    requires Base(w) && Enabled(w, TakeEffect(a, k)) && v == Apply(w, TakeEffect(a, k))
    ensures Base(v)
    ensures v.store.keys == w.store.keys[k := w.store.attempts[a].keyName]
    ensures Absent(w.store.keys, w.store.attempts[a].keyName)
  {
    assert a == (a.0, a.1) && a.0 in w.store.operations && RowsOk(w.store, a.0);
    forall o | o in v.store.operations ensures RowsOk(v.store, o) {
      assert RowsOk(w.store, o);
    }
  }

  lemma CallKeepsBase(w: World, v: World, id: OperationId, i: nat)
    requires Base(w) && Enabled(w, CallProvider(id, i)) && v == Apply(w, CallProvider(id, i))
    ensures Base(v)
  {
    forall o | o in v.store.operations ensures RowsOk(v.store, o) {
      assert RowsOk(w.store, o);
    }
  }

  lemma EvaporateKeepsBase(w: World, v: World, a: AttemptId)
    requires Base(w) && v == w.(inFlight := w.inFlight - {a})
    ensures Base(v)
  {
    forall o | o in v.store.operations ensures RowsOk(v.store, o) {
      assert RowsOk(w.store, o);
    }
  }

  lemma WildKeepsBase(w: World, a: Action, v: World)
    requires Base(w) && Enabled(w, a) && Wild(w, a) && v == Apply(w, a)
    ensures Base(v)
  {
    match a
    case Bind(id, party) => BindKeepsBase(w, v, id, party);
    case StartAttempt(id, n) => StartKeepsBase(w, v, id, n);
    case CallProvider(id, i) => CallKeepsBase(w, v, id, i);
    case TakeEffect(attempt, k) => LandingKeepsBase(w, v, attempt, k);
    case Evaporate(attempt) => EvaporateKeepsBase(w, v, attempt);
  }

  lemma NextKeepsBase(w: World, a: Action, v: World)
    requires Base(w) && v == Next(w, a)
    ensures Base(v)
  {
    if Enabled(w, a) {
      if Wild(w, a) {
        WildKeepsBase(w, a, v);
      } else {
        StepIsTame(w, a, v);
        if Untouched(w, v) { UntouchedKeepsBase(w, v); } else { LocalKeepsBase(w, v, ActsOn(w, a)); }
      }
    }
  }

  lemma {:induction false} RunKeepsBase(w: World, actions: seq<Action>)
    requires Base(w)
    ensures Base(Run(w, actions))
    decreases |actions|
  {
    if actions != [] {
      var n := |actions| - 1;
      RunKeepsBase(w, actions[..n]);
      NextKeepsBase(Run(w, actions[..n]), actions[n], Run(w, actions));
    }
  }

  // ---------------------------------------------------------------- attempts cannot be released twice

  lemma TameKeepsSpent(w: World, a: Action, v: World, id: OperationId)
    requires id in w.store.operations && RowsOk(w.store, id) && Spent(w) && CallersAreCurrent(w)
    requires Tame(w, a, v, id)
    ensures Spent(v)
  {
    forall o, j: nat | o in v.store.operations && (o, j) !in v.called && Releasable(v.store, o, j)
      ensures j >= v.store.operations[o].currentAttempt && !v.store.operations[o].state.RetryReady?
    {
      if o != id {
        assert Releasable(w.store, o, j);
      } else {
        assert forall i: nat | (id, i) in w.store.attempts :: 1 <= i <= w.store.operations[id].currentAttempt;
        SpentAfter(w, a, v, id, j);
      }
    }
  }

  lemma SpentAfter(w: World, a: Action, v: World, id: OperationId, j: nat)
    requires id in w.store.operations && id in v.store.operations && Spent(w) && CallersAreCurrent(w)
    requires w.store.operations[id].currentAttempt == v.store.operations[id].currentAttempt
    requires forall i: nat | (id, i) in w.store.attempts :: i <= w.store.operations[id].currentAttempt
    requires (id, j) !in w.called && Releasable(v.store, id, j)
    requires Releasable(w.store, id, j) || (a == GiveUp(id, j) && (id, j) in w.claimants)
    requires v.store.operations[id].state.RetryReady? && !w.store.operations[id].state.RetryReady? ==>
               Verified(w, a, v, id) || Released(w, a, v, id)
    ensures j >= v.store.operations[id].currentAttempt && !v.store.operations[id].state.RetryReady?
  {
  }

  lemma TameStepKeepsSpent(w: World, a: Action, v: World)
    requires Base(w) && Spent(w) && CallersAreCurrent(w) && TameOrUntouched(w, a, v)
    ensures Spent(v)
  {
    if Untouched(w, v) {
      UntouchedKeepsSpent(w, v);
    } else {
      assert RowsOk(w.store, ActsOn(w, a));
      TameKeepsSpent(w, a, v, ActsOn(w, a));
    }
  }

  lemma UntouchedKeepsSpent(w: World, v: World)
    requires Spent(w) && Untouched(w, v)
    ensures Spent(v)
  {
    forall o, j: nat | o in v.store.operations && (o, j) !in v.called && Releasable(v.store, o, j)
      ensures j >= v.store.operations[o].currentAttempt && !v.store.operations[o].state.RetryReady?
    {
      assert Releasable(w.store, o, j);
    }
  }

  lemma WildKeepsSpent(w: World, a: Action, v: World)
    requires Base(w) && Spent(w) && Enabled(w, a) && Wild(w, a) && v == Apply(w, a)
    ensures Spent(v)
  {
    if a.StartAttempt? {
      StartKeepsSpent(w, v, a.id, a.seenCount);
    } else {
      forall o, j: nat | o in v.store.operations && (o, j) !in v.called && Releasable(v.store, o, j)
        ensures j >= v.store.operations[o].currentAttempt && !v.store.operations[o].state.RetryReady?
      {
        assert Releasable(w.store, o, j) && (o, j).0 in w.store.operations;
      }
    }
  }

  lemma NextKeepsSpent(w: World, a: Action, v: World)
    requires Base(w) && Spent(w) && CallersAreCurrent(w) && v == Next(w, a)
    ensures Spent(v)
  {
    if Enabled(w, a) {
      if Wild(w, a) {
        WildKeepsSpent(w, a, v);
      } else {
        StepIsTame(w, a, v);
        TameStepKeepsSpent(w, a, v);
      }
    }
  }

  lemma StartKeepsSpent(w: World, v: World, id: OperationId, n: nat)
    requires Base(w) && Spent(w) && Claims(w, v, id, n)
    ensures Spent(v)
  {
    assert RowsOk(w.store, id);
    forall o, j: nat | o in v.store.operations && (o, j) !in v.called && Releasable(v.store, o, j)
      ensures j >= v.store.operations[o].currentAttempt && !v.store.operations[o].state.RetryReady?
    {
      assert (o, j) == (id, n + 1) || Releasable(w.store, o, j);
    }
  }

  // ---------------------------------------------------------------- prudent steps keep the gate

  ghost predicate GateInv(w: World) {
    Base(w) && Spent(w) && Sealed(w)
  }

  lemma SealedCallersAreCurrent(w: World)
    requires Base(w) && Sealed(w)
    ensures CallersAreCurrent(w)
  {
    forall id, i: nat | (id, i) in w.claimants && (id, i) !in w.called && id in w.store.operations
      ensures i == w.store.operations[id].currentAttempt && !Resting(w.store.operations[id].state)
    {
      assert RowsOk(w.store, id) && (id, i) in w.store.attempts;
      assert MayMake(w, (id, i));
      assert !Gone(w, id, i);
    }
  }

  /** An attempt that asked for no key has none. */
  lemma UncalledHasNoKey(w: World, a: AttemptId)
    requires OwnersOk(w) && NamesUnique(w.store) && KeysOk(w)
    requires a in w.store.attempts && a !in w.called
    ensures Absent(w.store.keys, w.store.attempts[a].keyName)
  {
  }

  lemma VerifiedIsGone(w: World, a: Action, v: World, id: OperationId, i: nat)
    requires id in w.store.operations && i == w.store.operations[id].currentAttempt
    requires Framed(w, v) && Local(w.store, v.store, id) && Verified(w, a, v, id) && Quiet(w, id)
    requires (id, i) in w.store.attempts
    requires w.store.attempts[(id, i)].keyName == KeyNameForAttempt(id, w.store.operations[id].party.source, i)
    ensures Gone(v, id, i)
  {
    assert !MayMake(w, (id, i));
  }

  lemma ReleasedIsGone(w: World, a: Action, v: World, id: OperationId)
    requires id in w.store.operations && id in v.store.operations
    requires v.store.operations[id].party == w.store.operations[id].party
    requires Framed(w, v) && Released(w, a, v, id) && w.inFlight <= w.called
    requires Absent(w.store.keys, KeyNameForAttempt(id, w.store.operations[id].party.source, a.index))
    ensures Gone(v, id, a.index)
  {
  }

  /** Whatever makes an operation rest leaves its current attempt gone. */
  lemma RestsGone(w: World, a: Action, v: World, id: OperationId, i: nat)
    requires Base(w) && Spent(w) && Prudent(w, a) && Enabled(w, a)
    requires id in w.store.operations && i == w.store.operations[id].currentAttempt > 0
    requires Framed(w, v) && Local(w.store, v.store, id)
    requires Verified(w, a, v, id) || Released(w, a, v, id)
    ensures Gone(v, id, i)
  {
    assert RowsOk(w.store, id) && (id, i) in w.store.attempts;
    if Verified(w, a, v, id) {
      VerifiedIsGone(w, a, v, id, i);
    } else {
      assert (id, a.index) in w.store.attempts && a.index == i;
      UncalledHasNoKey(w, (id, i));
      ReleasedIsGone(w, a, v, id);
    }
  }

  lemma TameKeepsSealed(w: World, a: Action, v: World, id: OperationId)
    requires GateInv(w) && Prudent(w, a) && Enabled(w, a)
    requires id in w.store.operations && Tame(w, a, v, id)
    ensures Sealed(v)
  {
    forall o, i: nat | o in v.store.operations && 1 <= i <= v.store.operations[o].currentAttempt
                       && (i < v.store.operations[o].currentAttempt || Resting(v.store.operations[o].state))
      ensures Gone(v, o, i)
    {
      if o == id && i == w.store.operations[id].currentAttempt && !Resting(w.store.operations[id].state) {
        RestsGone(w, a, v, id, i);
      } else {
        assert Gone(w, o, i);
      }
    }
  }

  lemma StartKeepsSealed(w: World, v: World, id: OperationId, n: nat)
    requires GateInv(w) && Claims(w, v, id, n)
    ensures Sealed(v)
  {
    assert RowsOk(w.store, id);
    forall o, i: nat | o in v.store.operations && 1 <= i <= v.store.operations[o].currentAttempt
                       && (i < v.store.operations[o].currentAttempt || Resting(v.store.operations[o].state))
      ensures Gone(v, o, i)
    {
      assert Gone(w, o, i);
    }
  }

  lemma LandingKeepsSealed(w: World, v: World, a: AttemptId, k: KeyHash)
    requires GateInv(w) && Enabled(w, TakeEffect(a, k)) && v == Apply(w, TakeEffect(a, k))
    ensures Sealed(v)
  {
    LandingKeepsBase(w, v, a, k);
    forall o, i: nat | o in v.store.operations && 1 <= i <= v.store.operations[o].currentAttempt
                       && (i < v.store.operations[o].currentAttempt || Resting(v.store.operations[o].state))
      ensures Gone(v, o, i)
    {
      assert Gone(w, o, i) && RowsOk(w.store, o);
      assert (o, i) in w.store.attempts && (o, i) != a;
    }
  }

  lemma WildKeepsSealed(w: World, a: Action, v: World)
    requires GateInv(w) && Enabled(w, a) && Wild(w, a) && v == Apply(w, a)
    ensures Sealed(v)
  {
    if a.StartAttempt? {
      StartKeepsSealed(w, v, a.id, a.seenCount);
    } else if a.TakeEffect? {
      LandingKeepsSealed(w, v, a.attempt, a.key);
    } else {
      forall o, i: nat | o in v.store.operations && 1 <= i <= v.store.operations[o].currentAttempt
                         && (i < v.store.operations[o].currentAttempt || Resting(v.store.operations[o].state))
        ensures Gone(v, o, i)
      {
        assert Gone(w, o, i);
      }
    }
  }

  lemma TameStepKeepsSealed(w: World, a: Action, v: World)
    requires GateInv(w) && Prudent(w, a) && Enabled(w, a) && TameOrUntouched(w, a, v)
    ensures Sealed(v)
  {
    if Untouched(w, v) { UntouchedKeepsSealed(w, v); } else { TameKeepsSealed(w, a, v, ActsOn(w, a)); }
  }

  lemma NextKeepsGate(w: World, a: Action, v: World)
    requires GateInv(w) && Prudent(w, a) && v == Next(w, a)
    ensures GateInv(v)
  {
    NextKeepsBase(w, a, v);
    SealedCallersAreCurrent(w);
    NextKeepsSpent(w, a, v);
    if Enabled(w, a) {
      if Wild(w, a) {
        WildKeepsSealed(w, a, v);
      } else {
        StepIsTame(w, a, v);
        TameStepKeepsSealed(w, a, v);
      }
    }
  }

  lemma UntouchedKeepsSealed(w: World, v: World)
    requires Sealed(w) && Untouched(w, v)
    ensures Sealed(v)
  {
    forall o, i: nat | o in v.store.operations && 1 <= i <= v.store.operations[o].currentAttempt
                       && (i < v.store.operations[o].currentAttempt || Resting(v.store.operations[o].state))
      ensures Gone(v, o, i)
    {
      assert Gone(w, o, i);
    }
  }

  lemma {:induction false} RunKeepsGate(w: World, actions: seq<Action>)
    requires GateInv(w) && PrudentFrom(w, actions)
    ensures GateInv(Run(w, actions))
    decreases |actions|
  {
    if actions != [] {
      var n := |actions| - 1;
      assert PrudentFrom(w, actions[..n]) by {
        forall m | 0 <= m < n ensures Prudent(Run(w, actions[..n][..m]), actions[..n][m]) {
          assert actions[..n][..m] == actions[..m];
        }
      }
      RunKeepsGate(w, actions[..n]);
      NextKeepsGate(Run(w, actions[..n]), actions[n], Run(w, actions));
    }
  }

  // ---------------------------------------------------------------- the retry gate

  /** No operation in a resting state has a key under any of its attempt names. */
  ghost predicate GateHolds(s: Store) {
    forall id, i: nat | id in s.operations && Resting(s.operations[id].state) && 1 <= i <= s.operations[id].attemptCount ::
      Absent(s.keys, KeyNameForAttempt(id, s.operations[id].party.source, i))
  }

  /** Requests that hold a claim send their calls, and calls land; nobody else moves. */
  predicate ProviderOnly(late: seq<Action>) {
    forall a | a in late :: a.CallProvider? || a.TakeEffect?
  }

  lemma SealedGateHolds(w: World)
    requires GateInv(w)
    ensures GateHolds(w.store)
  {
    forall id, i: nat | id in w.store.operations && Resting(w.store.operations[id].state)
                        && 1 <= i <= w.store.operations[id].attemptCount
      ensures Absent(w.store.keys, KeyNameForAttempt(id, w.store.operations[id].party.source, i))
    {
      assert RowsOk(w.store, id);
      assert Gone(w, id, i);
    }
  }

  /** In a prudent run the gate holds, and keeps holding whatever pending calls still do. */
  lemma RetryGate(actions: seq<Action>, late: seq<Action>)
    requires PrudentFrom(EMPTY, actions) && ProviderOnly(late)
    ensures GateHolds(Run(EMPTY, actions + late).store)
  {
    RunKeepsGate(EMPTY, actions);
    RunKeepsGate(Run(EMPTY, actions), late);
    RunAppend(EMPTY, actions, late);
    SealedGateHolds(Run(EMPTY, actions + late));
  }

  lemma SettleConclusion(s: Store, id: OperationId, to: State, answers: Answers, r: Store)
    requires CurrentRowOk(s, id) && (to.Active? || to.DeliveryPending?) && SettleConcludes(s, id, to, answers)
    requires HonestAnswers(Transition(s, id, to, {Creating}), id, answers) && r == SettleCreated(s, id, to, answers)
    ensures InState(r, id, RetryReady)
  {
    assert id in s.operations;
    assert !s.operations[id].state.Creating? && Transition(s, id, to, {Creating}) == s;
    TargetRowExists(s, id);
    SettleStep(s, id, to, answers, r);
  }

  /** A concluding step ends in RETRY_READY and leaves the pending calls pending. */
  lemma ConclusionMakesRetryReady(w: World, a: Action, v: World)
    requires CurrentRowOk(w.store, ActsOn(w, a)) && Enabled(w, a) && Concluding(w, a) && v == Apply(w, a)
    ensures InState(v.store, a.id, RetryReady)
    ensures v == w.(store := v.store)
  {
    match a {
      case ReconcileUnknown(id, answers) =>
        TargetRowExists(w.store, id);
        ReconcileStep(w.store, id, answers, v.store);
      case PostCreate(id, _, active, answers) =>
        SettleConclusion(w.store, id, PostCreateState(active), answers, v.store);
      case SweepStaleDelivery(id, acknowledged, answers) =>
        assert (id, w.store.operations[id].currentAttempt) in w.store.attempts;
        SweepDeliveryStep(w.store, id, acknowledged, answers, v.store);
    }
  }

  /** What a pending call can still do to an operation that rests. */
  lemma PendingCallOpensGate(w: World, id: OperationId, i: nat) returns (late: seq<Action>)
    requires Base(w) && InState(w.store, id, RetryReady) && MayMake(w, (id, i))
    ensures ProviderOnly(late) && !GateHolds(Run(w, late).store)
  {
    assert RowsOk(w.store, id) && (id, i) in w.store.attempts;
    var k := FreshString(w.maker.Keys);
    var land := TakeEffect((id, i), k);
    if (id, i) in w.inFlight {
      late := [land];
      RunOne(w, land);
      LandedKeyOpensGate(w, id, i, k);
    } else {
      var asked := Next(w, CallProvider(id, i));
      late := [CallProvider(id, i)] + [land];
      RunOne(w, CallProvider(id, i));
      RunSnoc(w, [CallProvider(id, i)], land);
      LandedKeyOpensGate(asked, id, i, k);
    }
  }

  lemma LandedKeyOpensGate(w: World, id: OperationId, i: nat, k: KeyHash)
    requires InState(w.store, id, RetryReady) && 1 <= i <= w.store.operations[id].attemptCount
    requires (id, i) in w.inFlight && k !in w.maker
    ensures !GateHolds(Next(w, TakeEffect((id, i), k)).store)
  {
    var s := Next(w, TakeEffect((id, i), k)).store;
    assert k in s.keys && s.keys[k] == KeyNameForAttempt(id, s.operations[id].party.source, i);
  }

  /** A listing that concludes absence while a call is pending: the gate can fail from there. */
  lemma ImprudenceOpensGate(actions: seq<Action>, n: nat) returns (late: seq<Action>)
    requires n < |actions| && !Prudent(Run(EMPTY, actions[..n]), actions[n])
    ensures ProviderOnly(late) && !GateHolds(Run(EMPTY, actions[..n + 1] + late).store)
  {
    var w, a := Run(EMPTY, actions[..n]), actions[n];
    var v := Next(w, a);
    RunKeepsBase(EMPTY, actions[..n]);
    NextKeepsBase(w, a, v);
    CurrentRowIsOk(w, a.id);
    ConclusionMakesRetryReady(w, a, v);
    var i: nat :| MayMake(w, (a.id, i));
    late := PendingCallOpensGate(v, a.id, i);
    RunStep(EMPTY, actions, n);
    RunAppend(EMPTY, actions[..n + 1], late);
  }

  /**
   For every run: the gate holds at each of its moments, and keeps holding whatever the calls still
   pending then do, exactly when no listing concluded absence while such a call was pending.
   */
  lemma GateHoldsExactlyInPrudentRuns(actions: seq<Action>)
    ensures (forall n: nat, late: seq<Action> | n <= |actions| && ProviderOnly(late) ::
               GateHolds(Run(EMPTY, actions[..n] + late).store))
            <==> PrudentFrom(EMPTY, actions)
  {
    if PrudentFrom(EMPTY, actions) {
      forall n: nat, late: seq<Action> | n <= |actions| && ProviderOnly(late)
        ensures GateHolds(Run(EMPTY, actions[..n] + late).store)
      {
        PrudentPrefix(actions, n);
        RetryGate(actions[..n], late);
      }
    } else {
      var n: nat :| n < |actions| && !Prudent(Run(EMPTY, actions[..n]), actions[n]);
      var late := ImprudenceOpensGate(actions, n);
      assert n + 1 <= |actions|;
    }
  }

  lemma PrudentPrefix(actions: seq<Action>, n: nat)
    requires n <= |actions| && PrudentFrom(EMPTY, actions)
    ensures PrudentFrom(EMPTY, actions[..n])
  {
    forall m | 0 <= m < n ensures Prudent(Run(EMPTY, actions[..n][..m]), actions[..n][m]) {
      assert actions[..n][..m] == actions[..m];
    }
  }

  lemma RestingIsGone(w: World, id: OperationId)
    requires GateInv(w) && id in w.store.operations && Resting(w.store.operations[id].state)
    ensures Quiet(w, id)
    ensures forall k :: k in w.store.keys ==> k in w.maker && w.maker[k].0 != id
  {
    assert RowsOk(w.store, id);
    forall i: nat ensures (id, i) in w.store.attempts ==> Gone(w, id, i) {
      assert (id, i) in w.store.attempts ==> 1 <= i <= w.store.operations[id].currentAttempt;
    }
    forall i: nat ensures !MayMake(w, (id, i)) {
      assert MayMake(w, (id, i)) ==> (id, i) in w.store.attempts;
    }
    forall k | k in w.store.keys ensures k in w.maker && w.maker[k].0 != id {
      var a := w.maker[k];
      assert a == (a.0, a.1) && a in w.store.attempts;
      assert a.0 == id ==> Gone(w, id, a.1);
    }
  }

  /** When an attempt can start, no earlier attempt of the operation has a key or can still get one. */
  lemma AttemptStartsOnlyAfterAllAreGone(actions: seq<Action>, id: OperationId, n: nat)
    requires PrudentFrom(EMPTY, actions) && CanStart(Run(EMPTY, actions).store, id, n)
    ensures var w := Run(EMPTY, actions);
            Quiet(w, id) && forall k :: k in w.store.keys ==> k in w.maker && w.maker[k].0 != id
  {
    RunKeepsGate(EMPTY, actions);
    RestingIsGone(Run(EMPTY, actions), id);
  }

  /** What the catch block of a bound request takes as word that no key needs cleaning up. */
  predicate ReportsRetryable(s: Store, id: OperationId) {
    InState(s, id, RetryReady) || InState(s, id, Clean)
  }

  /** In prudent runs it is right to: after a reconcile that reports so, no key is left and none can come. */
  lemma PrudentReportIsTrue(actions: seq<Action>, id: OperationId, answers: Answers)
    requires PrudentFrom(EMPTY, actions + [ReconcileUnknown(id, answers)])
    requires ReportsRetryable(Run(EMPTY, actions + [ReconcileUnknown(id, answers)]).store, id)
    ensures var w := Run(EMPTY, actions + [ReconcileUnknown(id, answers)]);
            Quiet(w, id) && forall k :: k in w.store.keys ==> k in w.maker && w.maker[k].0 != id
  {
    RunKeepsGate(EMPTY, actions + [ReconcileUnknown(id, answers)]);
    RestingIsGone(Run(EMPTY, actions + [ReconcileUnknown(id, answers)]), id);
  }

  /** The attempt has a key, or may still get one. */
  ghost predicate Exposed(w: World, a: AttemptId) {
    MayMake(w, a) || exists k :: k in w.store.keys && k in w.maker && w.maker[k] == a
  }

  lemma OnlyCurrentAttemptIsExposed(w: World, a: AttemptId)
    requires GateInv(w) && Exposed(w, a)
    ensures a.0 in w.store.operations && a == (a.0, w.store.operations[a.0].currentAttempt)
  {
    assert a == (a.0, a.1) && a in w.store.attempts;
    assert RowsOk(w.store, a.0);
    assert !Gone(w, a.0, a.1);
  }

  /** At most one attempt of an operation is exposed, and it has at most one key. */
  lemma AtMostOneKeyPerOperation(actions: seq<Action>, a: AttemptId, b: AttemptId)
    requires PrudentFrom(EMPTY, actions)
    requires var w := Run(EMPTY, actions); a.0 == b.0 && Exposed(w, a) && Exposed(w, b)
    ensures a == b
    ensures var w := Run(EMPTY, actions);
            forall k, l | k in w.store.keys && l in w.store.keys && k in w.maker && l in w.maker
                          && w.maker[k].0 == w.maker[l].0 == a.0 :: k == l
  {
    RunKeepsGate(EMPTY, actions);
    var w := Run(EMPTY, actions);
    OnlyCurrentAttemptIsExposed(w, a);
    OnlyCurrentAttemptIsExposed(w, b);
    forall k, l | k in w.store.keys && l in w.store.keys && w.maker[k].0 == w.maker[l].0 == a.0 ensures k == l {
      OnlyCurrentAttemptIsExposed(w, w.maker[k]);
      OnlyCurrentAttemptIsExposed(w, w.maker[l]);
    }
  }

  // ---------------------------------------------------------------- patient and prompt runs

  ghost predicate PatientInv(w: World) {
    Base(w) && Spent(w) && Attended(w)
  }

  lemma TameKeepsAttended(w: World, a: Action, v: World, id: OperationId)
    requires PatientInv(w) && Patient(w, a)
    requires id in w.store.operations && Tame(w, a, v, id)
    ensures Attended(v)
  {
    forall o, i: nat | (o, i) in v.claimants && o in v.store.operations
      ensures i == v.store.operations[o].currentAttempt && Underway(v.store.operations[o].state)
    {
      assert (o, i) in w.claimants;
      if o == id && !Underway(v.store.operations[id].state) {
        AttendantLeaves(w, a, v, id, i);
      }
    }
  }

  /** An operation stops being underway only as its one request leaves. */
  lemma AttendantLeaves(w: World, a: Action, v: World, id: OperationId, i: nat)
    requires OwnersOk(w) && Spent(w) && Attended(w) && Patient(w, a)
    requires id in w.store.operations && RowsOk(w.store, id)
    requires LeavesUnderway(w, a, v, id) && v.claimants <= w.claimants
    ensures (id, i) !in v.claimants
  {
    if a.ReleaseAttempt? {
      assert (id, a.index) in w.store.attempts && a.index == w.store.operations[id].currentAttempt;
    }
  }

  lemma UntouchedKeepsAttended(w: World, v: World)
    requires Attended(w) && Untouched(w, v)
    ensures Attended(v)
  {
    forall o, i: nat | (o, i) in v.claimants && o in v.store.operations
      ensures i == v.store.operations[o].currentAttempt && Underway(v.store.operations[o].state)
    {
      assert (o, i) in w.claimants;
    }
  }

  lemma WildKeepsAttended(w: World, a: Action, v: World)
    requires OwnersOk(w) && Attended(w) && Enabled(w, a) && Wild(w, a) && v == Apply(w, a)
    ensures Attended(v)
  {
    forall o, i: nat | (o, i) in v.claimants && o in v.store.operations
      ensures i == v.store.operations[o].currentAttempt && Underway(v.store.operations[o].state)
    {
      assert (o, i) in w.claimants ==> (o, i).0 in w.store.operations;
    }
  }

  lemma TameStepKeepsAttended(w: World, a: Action, v: World)
    requires PatientInv(w) && Patient(w, a) && TameOrUntouched(w, a, v)
    ensures Attended(v)
  {
    if Untouched(w, v) { UntouchedKeepsAttended(w, v); } else { TameKeepsAttended(w, a, v, ActsOn(w, a)); }
  }

  lemma NextKeepsPatient(w: World, a: Action, v: World)
    requires PatientInv(w) && Patient(w, a) && v == Next(w, a)
    ensures PatientInv(v)
  {
    NextKeepsBase(w, a, v);
    assert CallersAreCurrent(w);
    NextKeepsSpent(w, a, v);
    if Enabled(w, a) {
      if Wild(w, a) {
        WildKeepsAttended(w, a, v);
      } else {
        StepIsTame(w, a, v);
        TameStepKeepsAttended(w, a, v);
      }
    }
  }

  lemma {:induction false} RunKeepsPatient(actions: seq<Action>, n: nat)
    requires n <= |actions| && PatientFrom(EMPTY, actions)
    ensures PatientInv(Run(EMPTY, actions[..n]))
  {
    if n == 0 {
      assert actions[..0] == [];
    } else {
      RunKeepsPatient(actions, n - 1);
      RunStep(EMPTY, actions, n - 1);
      NextKeepsPatient(Run(EMPTY, actions[..n - 1]), actions[n - 1], Run(EMPTY, actions[..n]));
    }
  }

  /** With patient sweeps, no request of an operation is at work when a listing concludes absence. */
  lemma NobodyAtWork(w: World, a: Action)
    requires PatientInv(w) && Patient(w, a) && Enabled(w, a) && Concluding(w, a)
    ensures forall i: nat :: (a.id, i) !in w.claimants
  {
    assert a.PostCreate? ==> (a.id, a.index) in w.store.attempts && Underway(w.store.operations[a.id].state);
  }

  /** In patient runs only calls whose request has left can make a conclusion imprudent. */
  lemma PatientRunsArePrudentExactlyWithoutLateCalls(actions: seq<Action>)
    requires PatientFrom(EMPTY, actions)
    ensures PrudentFrom(EMPTY, actions) <==>
            forall n | 0 <= n < |actions| ::
              var w, a := Run(EMPTY, actions[..n]), actions[n];
              Enabled(w, a) && Concluding(w, a) ==> forall i: nat :: (a.id, i) !in w.inFlight
  {
    forall n | 0 <= n < |actions|
      ensures var w, a := Run(EMPTY, actions[..n]), actions[n];
              Prudent(w, a) <==> (Enabled(w, a) && Concluding(w, a) ==> forall i: nat :: (a.id, i) !in w.inFlight)
    {
      var w, a := Run(EMPTY, actions[..n]), actions[n];
      RunKeepsPatient(actions, n);
      if Enabled(w, a) && Concluding(w, a) {
        NobodyAtWork(w, a);
        assert forall i: nat :: MayMake(w, (a.id, i)) <==> (a.id, i) in w.inFlight;
      }
    }
  }

  lemma PromptStep(w: World, a: Action, v: World)
    requires OwnersOk(w) && w.inFlight <= w.claimants && Prompt(w, a) && v == Next(w, a)
    ensures v.inFlight <= v.claimants
  {
  }

  lemma {:induction false} PromptCallsAreAttended(actions: seq<Action>, n: nat)
    requires n <= |actions| && PromptFrom(EMPTY, actions)
    ensures Run(EMPTY, actions[..n]).inFlight <= Run(EMPTY, actions[..n]).claimants
  {
    if n == 0 {
      assert actions[..0] == [];
    } else {
      PromptCallsAreAttended(actions, n - 1);
      RunKeepsBase(EMPTY, actions[..n - 1]);
      RunStep(EMPTY, actions, n - 1);
      PromptStep(Run(EMPTY, actions[..n - 1]), actions[n - 1], Run(EMPTY, actions[..n]));
    }
  }

  /** Sweeps that wait for requests, and requests that wait for their call, make every run prudent. */
  lemma WaitingIsPrudent(actions: seq<Action>)
    requires PatientFrom(EMPTY, actions) && PromptFrom(EMPTY, actions)
    ensures PrudentFrom(EMPTY, actions)
  {
    PatientRunsArePrudentExactlyWithoutLateCalls(actions);
    forall n | 0 <= n < |actions|
      ensures var w, a := Run(EMPTY, actions[..n]), actions[n];
              Enabled(w, a) && Concluding(w, a) ==> forall i: nat :: (a.id, i) !in w.inFlight
    {
      var w, a := Run(EMPTY, actions[..n]), actions[n];
      RunKeepsPatient(actions, n);
      PromptCallsAreAttended(actions, n);
      if Enabled(w, a) && Concluding(w, a) { NobodyAtWork(w, a); }
    }
  }

  // ---------------------------------------------------------------- neither wait can be left out

  const UNSEEN := Answers(Listed(None), Confirmed, Unavailable)
  const SOMEONE := Party(Qq, "subject", None, false)
  const BEGIN := [Bind("op", SOMEONE), StartAttempt("op", 0)]

  lemma RunReconcile(w: World, xs: seq<Action>, u: World, id: OperationId, answers: Answers, r: Store)
    requires Run(w, xs) == u && HonestAnswers(u.store, id, answers) && r == Reconcile(u.store, id, answers)
    ensures Run(w, xs + [ReconcileUnknown(id, answers)]) == u.(store := r)
  {
    RunSnoc(w, xs, ReconcileUnknown(id, answers));
  }

  /** Operation "op" whose first attempt is claimed, in the given state. */
  function FirstAttempt(state: State, outcome: Outcome): World {
    World(Store(map["op" := Operation(SOMEONE, false, state, 1, 1, None, ClientActionForState(state), 0)],
                map[("op", 1) := Attempt(KeyNameForAttempt("op", Qq, 1), None, outcome)], map[], map[]),
          {("op", 1)}, {}, {}, map[])
  }

  lemma FirstAttemptStarts()
    ensures Run(EMPTY, BEGIN) == FirstAttempt(Creating, OutcomeUnknown)
  {
    assert [Bind("op", SOMEONE)] + [StartAttempt("op", 0)] == BEGIN && [] + [Bind("op", SOMEONE)] == [Bind("op", SOMEONE)];
    RunSnoc(EMPTY, [], Bind("op", SOMEONE));
    RunSnoc(EMPTY, [Bind("op", SOMEONE)], StartAttempt("op", 0));
  }

  lemma UnseenIsCleaned(w: World)
    requires w.store == FirstAttempt(CreateUnknown, OutcomeUnknown).store
    ensures Next(w, ReconcileUnknown("op", UNSEEN)) == w.(store := FirstAttempt(RetryReady, OutcomeCleaned).store)
  {
    assert ("op", 1) in w.store.attempts && ("op", 1).0 == "op";
    assert !NothingToReconcile(w.store, "op") && Repaired(w.store, "op") == w.store;
    assert HonestAnswers(w.store, "op", UNSEEN);
  }

  lemma LateKeyOpensGate(w: World)
    requires w.store == FirstAttempt(RetryReady, OutcomeCleaned).store && ("op", 1) in w.inFlight && w.maker == map[]
    ensures !GateHolds(Next(w, TakeEffect(("op", 1), "key")).store)
  {
    LandedKeyOpensGate(w, "op", 1, "key");
  }

  lemma UnseenRun(w: World, xs: seq<Action>)
    requires Run(EMPTY, xs) == w && w.store == FirstAttempt(CreateUnknown, OutcomeUnknown).store
    ensures Run(EMPTY, xs + [ReconcileUnknown("op", UNSEEN)]) == w.(store := FirstAttempt(RetryReady, OutcomeCleaned).store)
  {
    UnseenIsCleaned(w);
    RunSnoc(EMPTY, xs, ReconcileUnknown("op", UNSEEN));
  }

  const SWEPT := BEGIN + [SweepStaleCreating("op")]
  const ABANDONED := BEGIN + [CallProvider("op", 1)] + [GiveUp("op", 1)]
  const GONE := [ReconcileUnknown("op", UNSEEN)]

  lemma SweptRun()
    ensures Run(EMPTY, SWEPT) == FirstAttempt(CreateUnknown, OutcomeUnknown)
  {
    FirstAttemptStarts();
    RunSnoc(EMPTY, BEGIN, SweepStaleCreating("op"));
  }

  lemma AbandonedRun()
    ensures Run(EMPTY, ABANDONED)
         == FirstAttempt(CreateUnknown, OutcomeUnknown).(claimants := {}, called := {("op", 1)}, inFlight := {("op", 1)})
  {
    FirstAttemptStarts();
    var asked := FirstAttempt(Creating, OutcomeUnknown).(called := {("op", 1)}, inFlight := {("op", 1)});
    RunSnoc(EMPTY, BEGIN, CallProvider("op", 1));
    assert Run(EMPTY, BEGIN + [CallProvider("op", 1)]) == asked;
    GivingUp(asked);
    RunSnoc(EMPTY, BEGIN + [CallProvider("op", 1)], GiveUp("op", 1));
  }

  lemma GivingUp(w: World)
    requires w.store == FirstAttempt(Creating, OutcomeUnknown).store && w.claimants == {("op", 1)}
    ensures Next(w, GiveUp("op", 1)) == w.(store := FirstAttempt(CreateUnknown, OutcomeUnknown).store, claimants := {})
  {
    assert w.claimants - {("op", 1)} == {};
  }

  /** A sweep that does not wait: the attempt is verified gone before its request asks for the key. */
  lemma ImpatientSweepOpensGate() returns (actions: seq<Action>)
    ensures !GateHolds(Run(EMPTY, actions).store) && PromptFrom(EMPTY, actions)
  {
    var late := [CallProvider("op", 1)] + [TakeEffect(("op", 1), "key")];
    actions := SWEPT + GONE + late;
    var w := FirstAttempt(RetryReady, OutcomeCleaned);
    SweptRun();
    UnseenRun(FirstAttempt(CreateUnknown, OutcomeUnknown), SWEPT);
    AskedAndLanded(w);
    RunAppend(EMPTY, SWEPT + GONE, late);
    NobodyLeaves(actions);
  }

  lemma NobodyLeaves(actions: seq<Action>)
    requires forall a | a in actions :: !a.GiveUp? && !a.Depart?
    ensures PromptFrom(EMPTY, actions)
  {
  }

  lemma NobodySweeps(actions: seq<Action>)
    requires forall a | a in actions :: !a.SweepStaleCreating? && !a.SweepStaleDelivery? && !a.AbandonDelivery?
    ensures PatientFrom(EMPTY, actions)
  {
  }

  lemma AskedAndLanded(w: World)
    requires w == FirstAttempt(RetryReady, OutcomeCleaned)
    ensures !GateHolds(Run(w, [CallProvider("op", 1)] + [TakeEffect(("op", 1), "key")]).store)
  {
    RunOne(w, CallProvider("op", 1));
    RunSnoc(w, [CallProvider("op", 1)], TakeEffect(("op", 1), "key"));
    LateKeyOpensGate(Next(w, CallProvider("op", 1)));
  }

  /** A request that does not wait: its lost call lands after its own reconcile found nothing. */
  lemma LateCallOpensGate() returns (actions: seq<Action>)
    ensures !GateHolds(Run(EMPTY, actions).store) && PatientFrom(EMPTY, actions)
  {
    var land := TakeEffect(("op", 1), "key");
    actions := ABANDONED + GONE + [land];
    AbandonedRun();
    var w := Run(EMPTY, ABANDONED);
    UnseenRun(w, ABANDONED);
    LateKeyOpensGate(w.(store := FirstAttempt(RetryReady, OutcomeCleaned).store));
    RunSnoc(EMPTY, ABANDONED + GONE, land);
    NobodySweeps(actions);
  }

  /** The key is found, but its cleanup is not confirmed. */
  const UNCLEANED := Answers(Listed(Some("key")), Unconfirmed(false), Unavailable)

  const LATE := SWEPT + GONE + [CallProvider("op", 1)] + [TakeEffect(("op", 1), "key")]
  const FAILED_LATE := LATE + [Record("op", 1, "key")] + [GiveUp("op", 1)]

  /** Operation "op" reported retryable while the key of its only attempt exists. */
  predicate Misreported(w: World) {
    && w.store.operations.Keys == {"op"} && w.store.attempts.Keys == {("op", 1)}
    && w.store.operations["op"].party == SOMEONE && w.store.operations["op"].state.RetryReady?
    && w.store.operations["op"].currentAttempt == 1 && w.store.operations["op"].cleanupAttempts == 0
    && w.store.attempts[("op", 1)].keyName == KeyNameForAttempt("op", Qq, 1)
    && w.store.attempts[("op", 1)].credential in {None, Some("key")}
    && w.store.keys == map["key" := KeyNameForAttempt("op", Qq, 1)] && w.maker == map["key" := ("op", 1)]
  }

  lemma LateKeyIsMisreported()
    ensures Misreported(Run(EMPTY, LATE)) && Run(EMPTY, LATE).claimants == {("op", 1)}
  {
    var w := FirstAttempt(RetryReady, OutcomeCleaned);
    SweptRun();
    UnseenRun(FirstAttempt(CreateUnknown, OutcomeUnknown), SWEPT);
    RunSnoc(EMPTY, SWEPT + GONE, CallProvider("op", 1));
    RunSnoc(EMPTY, SWEPT + GONE + [CallProvider("op", 1)], TakeEffect(("op", 1), "key"));
    assert Next(w, CallProvider("op", 1)) == w.(called := {("op", 1)}, inFlight := {("op", 1)});
  }

  lemma RecordKeepsMisreport(w: World)
    requires Misreported(w)
    ensures Misreported(Next(w, Record("op", 1, "key"))) && Next(w, Record("op", 1, "key")).claimants == w.claimants
  {
  }

  lemma GivingUpKeepsMisreport(w: World)
    requires Misreported(w)
    ensures Misreported(Next(w, GiveUp("op", 1)))
  {
  }

  /** The reconcile finds the key and cannot remove it, and leaves the state as it was. */
  lemma ReconcileKeepsMisreport(w: World)
    requires Misreported(w)
    ensures var v := Next(w, ReconcileUnknown("op", UNCLEANED));
            ReportsRetryable(v.store, "op") && "key" in v.store.keys && v.maker == w.maker
  {
    assert ("op", 1).0 == "op" && !NothingToReconcile(w.store, "op") && Repaired(w.store, "op") == w.store;
  }

  /**
   A sweep that does not wait, and a catch block that finds its key but cannot remove it: its reconcile
   reports the operation retryable all the same.
   */
  lemma ImpatientReportIsFalse() returns (actions: seq<Action>)
    ensures var w := Run(EMPTY, actions + [ReconcileUnknown("op", UNCLEANED)]);
            ReportsRetryable(w.store, "op") && "key" in w.store.keys && "key" in w.maker && w.maker["key"].0 == "op"
  {
    actions := FAILED_LATE;
    LateKeyIsMisreported();
    RunSnoc(EMPTY, LATE, Record("op", 1, "key"));
    RecordKeepsMisreport(Run(EMPTY, LATE));
    RunSnoc(EMPTY, LATE + [Record("op", 1, "key")], GiveUp("op", 1));
    GivingUpKeepsMisreport(Run(EMPTY, LATE + [Record("op", 1, "key")]));
    RunSnoc(EMPTY, FAILED_LATE, ReconcileUnknown("op", UNCLEANED));
    ReconcileKeepsMisreport(Run(EMPTY, FAILED_LATE));
  }

  // ---------------------------------------------------------------- attempts and failures, in every run

  /** The attempt rows of every operation are exactly 1 to attempt_count, the current one last. */
  lemma AttemptRowsAreExact(actions: seq<Action>, id: OperationId)
    requires id in Run(EMPTY, actions).store.operations
    ensures var s := Run(EMPTY, actions).store;
            && s.operations[id].attemptCount == s.operations[id].currentAttempt
            && forall i: nat :: (id, i) in s.attempts <==> 1 <= i <= s.operations[id].attemptCount
  {
    RunKeepsBase(EMPTY, actions);
    assert RowsOk(Run(EMPTY, actions).store, id);
  }

  /** FAILED exactly when a reason is set, and the client action is the one of the state. */
  lemma FailedExactlyWithReason(actions: seq<Action>, id: OperationId)
    requires id in Run(EMPTY, actions).store.operations
    ensures var op := Run(EMPTY, actions).store.operations[id];
            (op.state == Failed <==> op.failureReason.Some?) && op.clientAction == ClientActionForState(op.state)
  {
    RunKeepsBase(EMPTY, actions);
    assert RowsOk(Run(EMPTY, actions).store, id);
  }

  /** From one state of a row to a later one: counts never fall, FAILED is left only by an ACK. */
  ghost predicate Progress(w: World, v: World, id: OperationId) {
    id in w.store.operations ==>
      && id in v.store.operations
      && w.store.operations[id].attemptCount <= v.store.operations[id].attemptCount
      && (w.store.operations[id].state.Failed? && !v.store.operations[id].state.Failed? ==>
            v.store.operations[id].state.Active? && Acknowledged(w.store, id))
  }

  lemma WildProgress(w: World, a: Action, v: World, id: OperationId)
    requires Wild(w, a) && v == Apply(w, a)
    ensures Progress(w, v, id)
  {
  }

  lemma TameProgress(w: World, a: Action, v: World, id: OperationId)
    requires TameOrUntouched(w, a, v)
    ensures Progress(w, v, id)
  {
  }

  lemma NextProgress(w: World, a: Action, v: World, id: OperationId)
    requires Base(w) && v == Next(w, a)
    ensures Progress(w, v, id)
  {
    if Enabled(w, a) {
      if Wild(w, a) {
        WildProgress(w, a, v, id);
      } else {
        StepIsTame(w, a, v);
        TameProgress(w, a, v, id);
      }
    }
  }

  /** In every reachable state, a step takes an operation out of FAILED only into ACTIVE, and only
      when one of its own deliveries is acknowledged. */
  lemma FailedIsLeftOnlyThroughAck(actions: seq<Action>, a: Action, id: OperationId)
    requires id in Run(EMPTY, actions).store.operations
    requires Run(EMPTY, actions).store.operations[id].state.Failed?
    ensures var w := Run(EMPTY, actions);
            var v := Next(w, a);
            id in v.store.operations
            && (v.store.operations[id].state.Failed?
                || (v.store.operations[id].state.Active? && Acknowledged(w.store, id)))
  {
    RunKeepsBase(EMPTY, actions);
    NextProgress(Run(EMPTY, actions), a, Next(Run(EMPTY, actions), a), id);
  }

  lemma {:induction false} CountsNeverFall(w: World, actions: seq<Action>, id: OperationId)
    requires Base(w) && id in w.store.operations
    ensures var v := Run(w, actions);
            id in v.store.operations && w.store.operations[id].attemptCount <= v.store.operations[id].attemptCount
    decreases |actions|
  {
    if actions != [] {
      var n := |actions| - 1;
      CountsNeverFall(w, actions[..n], id);
      RunKeepsBase(w, actions[..n]);
      NextProgress(Run(w, actions[..n]), actions[n], Run(w, actions), id);
    }
  }

  /**
   A successful start finds its attempt row and owns its index, and no later successful start of
   the same operation, whatever happens in between, gets an index that was given out before.
   */
  lemma EachIndexHasOneClaimant(before: seq<Action>, between: seq<Action>, id: OperationId, n: nat, m: nat)
    requires CanStart(Run(EMPTY, before).store, id, n)
    requires CanStart(Run(Next(Run(EMPTY, before), StartAttempt(id, n)), between).store, id, m)
    ensures (id, n + 1) !in Run(EMPTY, before).claimants
    ensures var w := Next(Run(EMPTY, before), StartAttempt(id, n));
            && (id, n + 1) in w.store.attempts && w.store.operations[id].currentAttempt == n + 1
            && (id, n + 1) in w.claimants && (id, n + 1) !in w.called
    ensures m > n
  {
    RunKeepsBase(EMPTY, before);
    var w := Run(EMPTY, before);
    var v := Next(w, StartAttempt(id, n));
    NextKeepsBase(w, StartAttempt(id, n), v);
    CountsNeverFall(v, between, id);
  }

  // ---------------------------------------------------------------- sweep and resume are runs

  function SweepActions(listed: seq<(OperationId, State)>, answers: seq<Answers>): seq<Action>
    requires |listed| == |answers|
  {
    if listed == [] then []
    else SweepActions(listed[..|listed| - 1], answers[..|listed| - 1])
         + [ReconcileUnknown(listed[|listed| - 1].0, answers[|listed| - 1])]
  }

  /** Every listing the sweep gets is true at its moment. */
  ghost predicate HonestSweep(s: Store, listed: seq<(OperationId, State)>, answers: seq<Answers>)
    requires |listed| == |answers|
  {
    forall n | 0 <= n < |listed| ::
      HonestAnswers(SweptUnknown(s, listed[..n], answers[..n]).0, listed[n].0, answers[n])
  }

  lemma HonestPrefix(s: Store, listed: seq<(OperationId, State)>, answers: seq<Answers>, n: nat)
    requires |listed| == |answers| == n + 1 && HonestSweep(s, listed, answers)
    ensures HonestSweep(s, listed[..n], answers[..n])
    ensures HonestAnswers(SweptUnknown(s, listed[..n], answers[..n]).0, listed[n].0, answers[n])
  {
    forall m | 0 <= m < n
      ensures HonestAnswers(SweptUnknown(s, listed[..n][..m], answers[..n][..m]).0, listed[..n][m].0, answers[..n][m])
    {
      assert listed[..n][..m] == listed[..m] && answers[..n][..m] == answers[..m];
    }
  }

  /** The reconciling loop of the sweep is a run of the system, so the results above cover it. */
  lemma {:induction false} SweepIsRun(w: World, listed: seq<(OperationId, State)>, answers: seq<Answers>)
    requires |listed| == |answers| && HonestSweep(w.store, listed, answers)
    ensures Run(w, SweepActions(listed, answers)) == w.(store := SweptUnknown(w.store, listed, answers).0)
    decreases |listed|
  {
    if listed != [] {
      var n := |listed| - 1;
      HonestPrefix(w.store, listed, answers, n);
      SweepIsRun(w, listed[..n], answers[..n]);
      var (t, _) := SweptUnknown(w.store, listed[..n], answers[..n]);
      RunReconcile(w, SweepActions(listed[..n], answers[..n]), w.(store := t), listed[n].0, answers[n],
                   SweptUnknown(w.store, listed, answers).0);
    }
  }

  function WaitingActions(s: Store, id: OperationId, answers: Answers): seq<Action>
    requires id in s.operations
  {
    if Pending(s.operations[id].state) then [ReconcileUnknown(id, answers)] else []
  }

  function DeliveryActions(s: Store, id: OperationId, seen: Seen, answers: Answers): seq<Action> {
    if !InState(s, id, DeliveryPending) then []
    else if DeliveryIn(s, seen.latest, DeliveryAcknowledged) then [MarkActiveOnAck(seen.latest.value)]
    else if DeliveryIn(s, seen.latest, DeliveryOpen) && !seen.overdue then []
    else TakingBack(id, seen.latest) + [ReconcileUnknown(id, answers)]
  }

  function TakingBack(id: OperationId, latest: Option<DeliveryId>): seq<Action> {
    (if latest.Some? then [MoveDelivery(latest.value, DeliveryClosed)] else []) + [AbandonDelivery(id)]
  }

  /** What a resume does before it starts an attempt. */
  function PreparingActions(s: Store, id: OperationId, seen: Seen, first: Answers, second: Answers): seq<Action>
    requires id in s.operations
  {
    if seen.conflictQuery && Conflicting(s, id) then []
    else
      var (t, on) := ResumeWaiting(s, id, first);
      WaitingActions(s, id, first) + if on then DeliveryActions(t, id, seen, second) else []
  }

  /** The tables a resume leaves before it starts an attempt, and whether it goes on to start one. */
  function Prepared(s: Store, id: OperationId, seen: Seen, first: Answers, second: Answers): (Store, bool)
    requires id in s.operations
  {
    if seen.conflictQuery && Conflicting(s, id) then (s, false)
    else
      var (t, on) := ResumeWaiting(s, id, first);
      if on then ResumeDelivery(t, id, seen, second) else (t, false)
  }

  ghost predicate HonestResume(s: Store, id: OperationId, seen: Seen, first: Answers, second: Answers)
    requires id in s.operations
  {
    && HonestAnswers(s, id, first)
    && HonestAnswers(TakenBack(ResumeWaiting(s, id, first).0, id, seen.latest), id, second)
  }

  lemma WaitingIsRun(w: World, id: OperationId, answers: Answers)
    requires id in w.store.operations && HonestAnswers(w.store, id, answers)
    ensures Run(w, WaitingActions(w.store, id, answers)) == w.(store := ResumeWaiting(w.store, id, answers).0)
  {
    if Pending(w.store.operations[id].state) {
      assert [] + [ReconcileUnknown(id, answers)] == [ReconcileUnknown(id, answers)];
      RunReconcile(w, [], w, id, answers, ResumeWaiting(w.store, id, answers).0);
    }
  }

  lemma DeliveryIsRun(w: World, id: OperationId, seen: Seen, answers: Answers, u: Store)
    requires HonestAnswers(TakenBack(w.store, id, seen.latest), id, answers)
    requires u == ResumeDelivery(w.store, id, seen, answers).0
    ensures Run(w, DeliveryActions(w.store, id, seen, answers)) == w.(store := u)
  {
    if InState(w.store, id, DeliveryPending) {
      if DeliveryIn(w.store, seen.latest, DeliveryAcknowledged) {
        ActivationIsRun(w, seen.latest.value);
      } else if !DeliveryIn(w.store, seen.latest, DeliveryOpen) || seen.overdue {
        var t := TakenBack(w.store, id, seen.latest);
        TakingBackIsRun(w, id, seen.latest, t);
        RunReconcile(w, TakingBack(id, seen.latest), w.(store := t), id, answers, u);
      }
    }
  }

  lemma ActivationIsRun(w: World, d: DeliveryId)
    ensures Run(w, [MarkActiveOnAck(d)]) == w.(store := ActivateOnAck(w.store, d))
  {
    RunOne(w, MarkActiveOnAck(d));
  }

  lemma ClosingIsRun(w: World, d: DeliveryId)
    ensures Run(w, [MoveDelivery(d, DeliveryClosed)]) == w.(store := SetDelivery(w.store, d, DeliveryClosed))
  {
    RunOne(w, MoveDelivery(d, DeliveryClosed));
  }

  lemma AbandonIsRun(w: World, xs: seq<Action>, u: World, id: OperationId)
    requires Run(w, xs) == u
    ensures Run(w, xs + [AbandonDelivery(id)]) == u.(store := Transition(u.store, id, CreateUnknown, {DeliveryPending}))
  {
    RunSnoc(w, xs, AbandonDelivery(id));
  }

  lemma TakingBackIsRun(w: World, id: OperationId, latest: Option<DeliveryId>, t: Store)
    requires t == TakenBack(w.store, id, latest)
    ensures Run(w, TakingBack(id, latest)) == w.(store := t)
  {
    if latest.Some? {
      ClosingIsRun(w, latest.value);
      AbandonIsRun(w, [MoveDelivery(latest.value, DeliveryClosed)],
                   w.(store := SetDelivery(w.store, latest.value, DeliveryClosed)), id);
    } else {
      AbandonIsRun(w, [], w, id);
    }
  }

  /** Up to its start, a resume is a run of the system. */
  lemma PreparingIsRun(w: World, id: OperationId, seen: Seen, first: Answers, second: Answers)
    requires id in w.store.operations && HonestResume(w.store, id, seen, first, second)
    ensures Run(w, PreparingActions(w.store, id, seen, first, second))
         == w.(store := Prepared(w.store, id, seen, first, second).0)
  {
    if !(seen.conflictQuery && Conflicting(w.store, id)) {
      var (t, on) := ResumeWaiting(w.store, id, first);
      WaitingIsRun(w, id, first);
      if on {
        DeliveryIsRun(w.(store := t), id, seen, second, ResumeDelivery(t, id, seen, second).0);
        RunAppend(w, WaitingActions(w.store, id, first), DeliveryActions(t, id, seen, second));
      } else {
        assert WaitingActions(w.store, id, first) + [] == WaitingActions(w.store, id, first);
      }
    }
  }

  /** A resume that starts an attempt has prepared the tables for it, with no conflict in sight. */
  lemma ResumePrepares(s: Store, id: OperationId, seen: Seen, first: Answers, second: Answers, started: nat)
    requires id in s.operations && Resume(s, id, seen, first, second).1 == Some(started)
    ensures var u := Prepared(s, id, seen, first, second).0;
            started > 0 && CanStart(u, id, started - 1) && Resume(s, id, seen, first, second).0 == Start(u, id, started - 1)
    ensures !(seen.conflictQuery && Conflicting(s, id))
  {
  }

  /** A start after a prudent run, where only the tables changed since the world `w`. */
  lemma PreparedStartIsSafe(actions: seq<Action>, w: World, u: Store, id: OperationId, n: nat)
    requires PrudentFrom(EMPTY, actions) && Run(EMPTY, actions) == w.(store := u) && CanStart(u, id, n)
    ensures Run(EMPTY, actions + [StartAttempt(id, n)])
         == w.(store := Start(u, id, n), claimants := w.claimants + {(id, n + 1)})
    ensures Quiet(w, id)
    ensures forall k :: k in Start(u, id, n).keys ==> k in w.maker && w.maker[k].0 != id
  {
    RunSnoc(EMPTY, actions, StartAttempt(id, n));
    AttemptStartsOnlyAfterAllAreGone(actions, id, n);
    assert forall i: nat :: MayMake(w, (id, i)) <==> MayMake(w.(store := u), (id, i));
    assert Start(u, id, n).keys == u.keys;
  }

  /**
   Whatever state resume finds and whatever it reads, a prudent one starts an attempt only when no
   earlier attempt of the operation has a key or can still get one, and no operation of the same
   subject has a live delivery that the query shows.
   */
  lemma ResumeStartsOnlyAfterAllAreGone(
      actions: seq<Action>, id: OperationId, seen: Seen, first: Answers, second: Answers, started: nat)
    requires var w := Run(EMPTY, actions);
             && id in w.store.operations && HonestResume(w.store, id, seen, first, second)
             && PrudentFrom(EMPTY, actions + PreparingActions(w.store, id, seen, first, second))
             && Resume(w.store, id, seen, first, second).1 == Some(started)
    ensures var w := Run(EMPTY, actions);
            var s := Resume(w.store, id, seen, first, second).0;
            && Run(EMPTY, actions + PreparingActions(w.store, id, seen, first, second) + [StartAttempt(id, started - 1)])
               == w.(store := s, claimants := w.claimants + {(id, started)})
            && Quiet(w, id)
            && (forall k :: k in s.keys ==> k in w.maker && w.maker[k].0 != id)
            && !(seen.conflictQuery && Conflicting(w.store, id))
  {
    var w := Run(EMPTY, actions);
    var preparing := PreparingActions(w.store, id, seen, first, second);
    PreparingIsRun(w, id, seen, first, second);
    RunAppend(EMPTY, actions, preparing);
    ResumePrepares(w.store, id, seen, first, second, started);
    PreparedStartIsSafe(actions + preparing, w, Prepared(w.store, id, seen, first, second).0, id, started - 1);
  }
}
