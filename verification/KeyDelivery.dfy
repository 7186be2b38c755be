/**
 Acknowledging a delivered key, against the two sweeps that clean up deliveries nobody acknowledged:
 managed-key-delivery.ts, the two finalize batches, the delivery sweep of scheduled.ts, and the
 operation sweep of managed-operation.ts, which removes a key without claiming its delivery row.

 An ACK is validated in one step and finalised by one batch later; a sweep is a worker with one
 statement or provider call per step.  `KeyRemoval` sets the operation sweep against the ACKs.
 */
module KeyDelivery {
  import opened Common

  type DeliveryId = string
  type OwnerId = string
  type Credential = string
  type WorkerId = string
  type Time = int

  datatype Source = Discord | Qq

  /** The token's hash, which only the token itself produces. */
  datatype AckHash = HashOf(token: string)

  datatype DeliveryStatus = Pending | Acknowledged | Expired | CleanupRequired

  /** `claim` is the time of the cleanup claim while an expired delivery is being cleaned up. */
  datatype Delivery = Delivery(
    source: Source, subject: Option<string>, installation: Option<string>, credential: Credential, ackHash: AckHash,
    status: DeliveryStatus, expiresAt: Time, operation: Option<string>, claim: Option<Time>)

  datatype OwnerStatus = DeliveryPending | Active | OwnerCleanup

  datatype IdentityStatus = NoIdentity | Issuing | IdentityActive | IdentityCleanup

  /** An entitlement, and for Discord the identity row that belongs to it. */
  datatype Owner = Owner(
    source: Source, subject: Option<string>, status: OwnerStatus, credential: Credential, deliveredAt: Option<Time>,
    identity: IdentityStatus)

  datatype Event = Event(source: Source, credential: Credential)

  datatype Tables = Tables(deliveries: map<DeliveryId, Delivery>, owners: map<OwnerId, Owner>, events: seq<Event>)

  // ---------------------------------------------------------------- the finalize batch

  /** What a finalize call has read before its batch. */
  datatype Ack = Ack(delivery: DeliveryId, owner: OwnerId, credential: Credential, source: Source, deliveredAt: Time)

  predicate DeliveryIs(t: Tables, a: Ack, status: DeliveryStatus) {
    a.delivery in t.deliveries && t.deliveries[a.delivery].credential == a.credential && t.deliveries[a.delivery].status == status
  }

  function ActivateOwner(t: Tables, a: Ack): Tables {
    if a.owner in t.owners && DeliveryIs(t, a, Pending)
       && var o := t.owners[a.owner]; o.source == a.source && o.status.DeliveryPending? && o.credential == a.credential
    then t.(owners := t.owners[a.owner := t.owners[a.owner].(status := Active, deliveredAt := Some(a.deliveredAt))])
    else t
  }

  function ActivateIdentity(t: Tables, a: Ack): Tables {
    if a.source.Discord? && a.owner in t.owners && DeliveryIs(t, a, Pending) && t.owners[a.owner].identity.Issuing?
    then t.(owners := t.owners[a.owner := t.owners[a.owner].(identity := IdentityActive)]) else t
  }

  predicate HasEvent(t: Tables, credential: Credential) {
    exists i :: 0 <= i < |t.events| && t.events[i].credential == credential
  }

  /** prepareIssueSuccessInsert with its delivery guard. */
  function InsertEvent(t: Tables, a: Ack): Tables {
    if !HasEvent(t, a.credential) && (DeliveryIs(t, a, Pending) || DeliveryIs(t, a, Acknowledged))
    then t.(events := t.events + [Event(a.source, a.credential)]) else t
  }

  predicate Delivered(o: Owner, source: Source, credential: Credential) {
    o.source == source && o.credential == credential && o.status.Active? && o.deliveredAt.Some?
  }

  /** The owner the last statement of the batch insists on. */
  predicate OwnerReady(t: Tables, a: Ack) {
    && a.owner in t.owners
    && Delivered(t.owners[a.owner], a.source, a.credential)
    && (a.source.Discord? ==> t.owners[a.owner].identity.IdentityActive?)
  }

  function AcknowledgeDelivery(t: Tables, a: Ack): Tables {
    if DeliveryIs(t, a, Pending) && OwnerReady(t, a) && Event(a.source, a.credential) in t.events
    then t.(deliveries := t.deliveries[a.delivery := t.deliveries[a.delivery].(status := Acknowledged, claim := None)]) else t
  }

  /** The batch of finalizeQqManagedKeyDeliveryAck and finalizeDiscordManagedKeyDeliveryAck. */
  function Finalize(t: Tables, a: Ack): Tables {
    AcknowledgeDelivery(InsertEvent(ActivateIdentity(ActivateOwner(t, a), a), a), a)
  }

  // ---------------------------------------------------------------- the sweep

  /** isManagedKeyDeliveryFinalized */
  predicate Finalized(t: Tables, source: Source, credential: Credential) {
    && Event(source, credential) in t.events
    && exists o :: o in t.owners && Delivered(t.owners[o], source, credential)
         && (source.Discord? ==> t.owners[o].identity.IdentityActive?)
  }

  predicate NobodyHolds(t: Tables, source: Source, credential: Credential) {
    forall o :: o in t.owners ==> !Delivered(t.owners[o], source, credential)
  }

  function SetDelivery(t: Tables, d: DeliveryId, status: DeliveryStatus, claim: Option<Time>): Tables
    requires d in t.deliveries
  {
    t.(deliveries := t.deliveries[d := t.deliveries[d].(status := status, claim := claim)])
  }

  predicate ClaimedAt(t: Tables, d: DeliveryId, at: Option<Time>) {
    d in t.deliveries && t.deliveries[d].status.Expired? && t.deliveries[d].claim.Some? && t.deliveries[d].claim == at
  }

  /** claimStaleManagedKeyDeliveryCleanup for a delivery seen as `seen`. */
  predicate CanClaim(t: Tables, d: DeliveryId, seen: Delivery, now: Time) {
    if seen.status.Pending? then
      d in t.deliveries && t.deliveries[d].status.Pending? && t.deliveries[d].expiresAt <= now
      && NobodyHolds(t, seen.source, seen.credential)
    else ClaimedAt(t, d, seen.claim)
  }

  /** markManagedKeyDeliveryAcknowledged */
  function MarkAcknowledged(t: Tables, d: DeliveryId): Tables {
    if d in t.deliveries && t.deliveries[d].status.Pending? then SetDelivery(t, d, Acknowledged, None) else t
  }

  /** acknowledgeManagedKeyDeliveryCleanupClaim */
  function AcknowledgeClaim(t: Tables, d: DeliveryId, expected: Option<Time>): Tables {
    if ClaimedAt(t, d, expected) then SetDelivery(t, d, Acknowledged, None) else t
  }

  predicate SweepsOwner(o: Owner, seen: Delivery) {
    o.source == seen.source && o.credential == seen.credential && (o.status.DeliveryPending? || o.status.Active?)
  }

  /** An owner whose key could not be removed; its identity row is flagged if it is issuing or active. */
  function Flagged(o: Owner): Owner {
    o.(status := OwnerCleanup, deliveredAt := None,
       identity := if o.identity.Issuing? || o.identity.IdentityActive? then IdentityCleanup else o.identity)
  }

  /** completeDeliveryCleanup and markDeliveryCleanupRequired, both fenced by the claim's time. */
  function FinishCleanup(t: Tables, d: DeliveryId, seen: Delivery, now: Time, cleaned: bool): Tables {
    if !ClaimedAt(t, d, Some(now)) then t
    else if cleaned then
      SetDelivery(t.(owners := map o | o in t.owners && !SweepsOwner(t.owners[o], seen) :: t.owners[o]), d, Expired, None)
    else
      SetDelivery(t.(owners := map o | o in t.owners ::
          if SweepsOwner(t.owners[o], seen) then Flagged(t.owners[o])
          else t.owners[o]), d, CleanupRequired, None)
  }

  datatype Pc = FirstCheck | RepairSeen | ClaimCleanup | SecondCheck | RepairClaimed | CleanKey | Finish(cleaned: bool) | Done

  /** A sweep at work on one delivery, with the row it listed. */
  datatype Sweep = Sweep(delivery: DeliveryId, seen: Delivery, now: Time, pc: Pc)

  /**
   `acks` are validated ACKs whose batch has not run.  `operationSweeps` are operation sweeps past
   their check, each with the delivery whose key it is about to remove.  `cleaned` and `removed` are history: the credentials whose keys the delivery
   sweep and the operation sweep had removed at the provider.  `clock` is the latest time seen.
   */
  datatype World = World(
    tables: Tables, sweeps: map<WorkerId, Sweep>, cleaned: set<Credential>, acks: map<WorkerId, Ack>,
    operationSweeps: map<WorkerId, DeliveryId>, removed: set<Credential>, clock: Time)

  predicate IsAcknowledged(t: Tables, d: DeliveryId) {
    d in t.deliveries && t.deliveries[d].status.Acknowledged?
  }

  /** The check of the operation sweep: some delivery of the operation is acknowledged. */
  predicate OperationAcknowledged(t: Tables, d: DeliveryId)
    requires d in t.deliveries
  {
    exists e :: e in t.deliveries && IsAcknowledged(t, e) && t.deliveries[e].operation == t.deliveries[d].operation
  }

  function Later(clock: Time, now: Time): Time { if clock < now then now else clock }

  /** The step of a sweep; `confirmed` says whether the provider confirmed the cleanup. */
  function SweepStep(w: World, k: Sweep, confirmed: bool): (World, Pc) {
    var t, d := w.tables, k.delivery;
    match k.pc
    case FirstCheck => (w, if Finalized(t, k.seen.source, k.seen.credential) then RepairSeen else ClaimCleanup)
    case RepairSeen =>
      (w.(tables := if k.seen.status.Pending? then MarkAcknowledged(t, d) else AcknowledgeClaim(t, d, k.seen.claim)), Done)
    case ClaimCleanup =>
      if CanClaim(t, d, k.seen, k.now) then (w.(tables := SetDelivery(t, d, Expired, Some(k.now))), SecondCheck) else (w, Done)
    case SecondCheck => (w, if Finalized(t, k.seen.source, k.seen.credential) then RepairClaimed else CleanKey)
    case RepairClaimed => (w.(tables := AcknowledgeClaim(t, d, Some(k.now))), Done)
    case CleanKey => (w.(cleaned := w.cleaned + {k.seen.credential}), Finish(confirmed))
    case Finish(cleaned) => (w.(tables := FinishCleanup(t, d, k.seen, k.now, cleaned)), Done)
    case Done => (w, Done)
  }

  datatype Action =
    | CreateDelivery(id: DeliveryId, owner: OwnerId, row: Delivery, identity: IdentityStatus)
    | Validate(request: WorkerId, ack: Ack, at: Time)   // checks the delivery and reads the entitlement
    | Finalizes(request: WorkerId)
    | AbandonAck(request: WorkerId)
    | ExpireOnResume(id: DeliveryId)
    | LoseOwner(owner: OwnerId)                 // a failing issue request or operation takes the owner back
    | MoveIdentity(owner: OwnerId, identity: IdentityStatus)
    | ForgetEvents(keep: nat)                   // retention drops the oldest events
    | BeginSweep(sweep: WorkerId, id: DeliveryId, now: Time)
    | AdvanceSweep(sweep: WorkerId, confirmed: bool)
    | CrashSweep(sweep: WorkerId)
    | CheckOperation(sweep: WorkerId, id: DeliveryId, now: Time, throws: bool)   // a failing query reads as not acknowledged
    | RemoveKey(sweep: WorkerId, effective: bool)

  /** A delivery starts pending, for a key that no delivery carried before. */
  predicate NewDelivery(t: Tables, id: DeliveryId, owner: OwnerId, row: Delivery) {
    && id !in t.deliveries && owner !in t.owners && row.status.Pending? && row.claim.None?
    && (forall d :: d in t.deliveries ==> t.deliveries[d].credential != row.credential)
    && (forall o :: o in t.owners ==> t.owners[o].credential != row.credential)
  }

  /** The entitlement of the delivery's key, awaiting or holding it. */
  predicate Owns(o: Owner, row: Delivery) {
    o.source == row.source && o.credential == row.credential && (o.status.DeliveryPending? || o.status.Active?)
  }

  /** What an ACK is checked for before its batch; its token is the delivery's. */
  predicate Validates(t: Tables, a: Ack, at: Time) {
    && a.delivery in t.deliveries && a.owner in t.owners
    && var row := t.deliveries[a.delivery];
       && row.credential == a.credential && row.source == a.source && Owns(t.owners[a.owner], row)
       && (row.status.Acknowledged? || (row.status.Pending? && at <= row.expiresAt))
  }

  /** The check of the operation sweep lets it remove the key of this delivery. */
  predicate PassesCheck(w: World, a: Action) {
    && a.CheckOperation? && a.sweep !in w.operationSweeps
    && a.id in w.tables.deliveries && w.tables.deliveries[a.id].operation.Some?
    && (a.throws || !OperationAcknowledged(w.tables, a.id))
  }

  /** The rows the sweep lists: overdue pending ones, and claims whose holder has gone quiet. */
  predicate Stale(row: Delivery, now: Time) {
    (row.status.Pending? && row.expiresAt <= now) || (row.status.Expired? && row.claim.Some?)
  }

  predicate EventsUnique(events: seq<Event>) {
    forall i, j | 0 <= i < j < |events| :: events[i].credential != events[j].credential
  }

  /** What retention leaves: the newest events. */
  function LastEvents(events: seq<Event>, keep: nat): (r: seq<Event>)
    ensures EventsUnique(events) ==> EventsUnique(r)
  {
    if keep <= |events| then events[|events| - keep..] else events
  }

  function Next(w: World, action: Action): World {
    var t := w.tables;
    match action
    case CreateDelivery(id, owner, row, identity) =>
      if NewDelivery(t, id, owner, row) && row.credential !in w.cleaned + w.removed
      then w.(tables := t.(deliveries := t.deliveries[id := row],
                           owners := t.owners[owner := Owner(row.source, row.subject, DeliveryPending, row.credential, None, identity)]))
      else w
    case Validate(id, ack, at) =>
      if id in w.acks || !Validates(t, ack, at) then w
      else w.(acks := w.acks[id := ack], clock := Later(w.clock, at))
    case Finalizes(id) =>
      if id in w.acks then w.(tables := Finalize(t, w.acks[id]), acks := w.acks - {id}) else w
    case AbandonAck(id) => w.(acks := w.acks - {id})
    case ExpireOnResume(id) =>
      if id in t.deliveries && t.deliveries[id].status.Pending? then w.(tables := SetDelivery(t, id, Expired, None)) else w
    case LoseOwner(owner) => w.(tables := t.(owners := t.owners - {owner}))
    case MoveIdentity(owner, identity) =>
      if owner in t.owners then w.(tables := t.(owners := t.owners[owner := t.owners[owner].(identity := identity)])) else w
    case ForgetEvents(keep) => w.(tables := t.(events := LastEvents(t.events, keep)))
    case BeginSweep(id, d, now) =>
      if id in w.sweeps || d !in t.deliveries || !Stale(t.deliveries[d], now) then w
      else w.(sweeps := w.sweeps[id := Sweep(d, t.deliveries[d], now, FirstCheck)])
    case AdvanceSweep(id, confirmed) =>
      if id !in w.sweeps then w
      else
        var (v, pc) := SweepStep(w, w.sweeps[id], confirmed);
        v.(sweeps := w.sweeps[id := w.sweeps[id].(pc := pc)])
    case CrashSweep(id) => w.(sweeps := w.sweeps - {id})
    case CheckOperation(id, d, now, _) =>
      if PassesCheck(w, action) then w.(operationSweeps := w.operationSweeps[id := d], clock := Later(w.clock, now))
      else w.(clock := Later(w.clock, now))
    case RemoveKey(id, effective) =>
      if id !in w.operationSweeps then w
      else
        var d := w.operationSweeps[id];
        w.(operationSweeps := w.operationSweeps - {id},
           removed := if effective && d in t.deliveries then w.removed + {t.deliveries[d].credential} else w.removed)
  }

  function Run(w: World, actions: seq<Action>): World
    decreases |actions|
  {
    if actions == [] then w else Next(Run(w, actions[..|actions| - 1]), actions[|actions| - 1])
  }

  lemma RunStep(w: World, actions: seq<Action>, n: nat)
    requires n < |actions|
    ensures Run(w, actions[..n + 1]) == Next(Run(w, actions[..n]), actions[n])
  {
    assert actions[..n + 1][..n] == actions[..n];
  }

  const EMPTY := World(Tables(map[], map[], []), map[], {}, map[], map[], {}, 0)

  // ---------------------------------------------------------------- the invariant

  /** Given up for good: not pending, and nobody has been handed its key. */
  ghost predicate Doomed(t: Tables, d: DeliveryId) {
    && d in t.deliveries
    && (t.deliveries[d].status.Expired? || t.deliveries[d].status.CleanupRequired?)
    && NobodyHolds(t, t.deliveries[d].source, t.deliveries[d].credential)
  }

  ghost predicate CredentialsUnique(t: Tables) {
    forall d, e | d in t.deliveries && e in t.deliveries && t.deliveries[d].credential == t.deliveries[e].credential :: d == e
  }

  ghost predicate SweepOk(t: Tables, k: Sweep) {
    && k.delivery in t.deliveries
    && t.deliveries[k.delivery].credential == k.seen.credential && t.deliveries[k.delivery].source == k.seen.source
    && (!k.seen.status.Pending? || k.pc.SecondCheck? || k.pc.CleanKey? || k.pc.Finish? ==> Doomed(t, k.delivery))
    && !k.pc.RepairClaimed?
    && (k.pc.RepairSeen? ==> k.seen.status.Pending?)
  }

  ghost predicate TablesOk(t: Tables, cleaned: set<Credential>) {
    && CredentialsUnique(t)
    && EventsUnique(t.events)
    && (forall d | d in t.deliveries && (t.deliveries[d].claim.Some? || t.deliveries[d].credential in cleaned) :: Doomed(t, d))
  }

  ghost predicate Inv(w: World) {
    && TablesOk(w.tables, w.cleaned)
    && (forall id | id in w.sweeps :: SweepOk(w.tables, w.sweeps[id]))
  }

  // ---------------------------------------------------------------- what no step takes back

  /** Deliveries stay, keep their key, are never pending again, and a doomed one stays doomed. */
  ghost predicate Moves(t: Tables, u: Tables) {
    && (forall d | d in t.deliveries ::
          && d in u.deliveries
          && u.deliveries[d].credential == t.deliveries[d].credential && u.deliveries[d].source == t.deliveries[d].source
          && (u.deliveries[d].status.Pending? ==> t.deliveries[d].status.Pending?)
          && (t.deliveries[d].status.Acknowledged? ==> u.deliveries[d].status.Acknowledged?))
    && (forall d | Doomed(t, d) :: Doomed(u, d))
  }

  lemma SweepsKept(t: Tables, u: Tables, k: Sweep)
    requires Moves(t, u) && SweepOk(t, k)
    ensures SweepOk(u, k)
  {
  }

  /** After the batch an owner is delivered only if it was before or its own delivery was pending. */
  lemma FinalizeOwners(t: Tables, a: Ack, o: OwnerId, source: Source, credential: Credential)
    requires o in Finalize(t, a).owners && Delivered(Finalize(t, a).owners[o], source, credential)
    ensures o in t.owners
    ensures Delivered(t.owners[o], source, credential) || (credential == a.credential && DeliveryIs(t, a, Pending))
  {
  }

  lemma FinalizeDeliveries(t: Tables, a: Ack)
    ensures Finalize(t, a).deliveries.Keys == t.deliveries.Keys
    ensures forall d | d in t.deliveries ::
              Finalize(t, a).deliveries[d] == t.deliveries[d]
              || (d == a.delivery && DeliveryIs(t, a, Pending)
                  && Finalize(t, a).deliveries[d] == t.deliveries[d].(status := Acknowledged, claim := None))
  {
  }

  lemma FinalizeMoves(t: Tables, a: Ack, u: Tables)
    requires CredentialsUnique(t) && u == Finalize(t, a)
    ensures Moves(t, u)
  {
    FinalizeDeliveries(t, a);
    forall d | Doomed(t, d) ensures Doomed(u, d) {
      forall o | o in u.owners && Delivered(u.owners[o], t.deliveries[d].source, t.deliveries[d].credential) ensures false {
        FinalizeOwners(t, a, o, t.deliveries[d].source, t.deliveries[d].credential);
      }
    }
  }

  lemma FinalizeEvents(t: Tables, a: Ack)
    requires EventsUnique(t.events)
    ensures EventsUnique(Finalize(t, a).events)
  {
  }

  lemma FinalizeKeepsInv(w: World, a: Ack, v: World)
    requires Inv(w) && v == w.(tables := Finalize(w.tables, a), acks := v.acks)
    ensures Inv(v)
  {
    FinalizeMoves(w.tables, a, v.tables);
    FinalizeDeliveries(w.tables, a);
    FinalizeEvents(w.tables, a);
    forall id | id in v.sweeps ensures SweepOk(v.tables, v.sweeps[id]) { SweepsKept(w.tables, v.tables, w.sweeps[id]); }
  }

  /** A status change of one delivery that leaves the owners alone. */
  lemma SetDeliveryMoves(t: Tables, d: DeliveryId, status: DeliveryStatus, claim: Option<Time>)
    requires d in t.deliveries && !status.Pending? && !t.deliveries[d].status.Acknowledged?
    requires status.Acknowledged? ==> !Doomed(t, d)
    ensures Moves(t, SetDelivery(t, d, status, claim))
  {
  }

  lemma OwnersShrink(t: Tables, owners: map<OwnerId, Owner>)
    requires forall o | o in owners :: o in t.owners
               && forall s, c | Delivered(owners[o], s, c) :: Delivered(t.owners[o], s, c)
    ensures Moves(t, t.(owners := owners))
  {
  }

  lemma TablesMoveKeepsInv(w: World, v: World)
    requires Inv(w) && v.sweeps == w.sweeps && Moves(w.tables, v.tables) && TablesOk(v.tables, v.cleaned)
    ensures Inv(v)
  {
  }

  lemma CreateMoves(w: World, v: World, a: Action)
    requires a.CreateDelivery? && v == Next(w, a)
    ensures Moves(w.tables, v.tables)
  {
    if v != w {
      forall d | Doomed(w.tables, d) ensures Doomed(v.tables, d) {
        assert w.tables.deliveries[d].credential != a.row.credential;
      }
    }
  }

  lemma CreateKeepsTables(w: World, v: World, a: Action)
    requires TablesOk(w.tables, w.cleaned) && a.CreateDelivery? && v == Next(w, a) && Moves(w.tables, v.tables)
    ensures TablesOk(v.tables, v.cleaned)
  {
    forall d | d in v.tables.deliveries && (v.tables.deliveries[d].claim.Some? || v.tables.deliveries[d].credential in v.cleaned)
      ensures Doomed(v.tables, d)
    {
      assert Doomed(w.tables, d);
    }
  }

  lemma CreateKeepsInv(w: World, v: World, a: Action)
    requires Inv(w) && a.CreateDelivery? && v == Next(w, a)
    ensures Inv(v) && Moves(w.tables, v.tables)
  {
    CreateMoves(w, v, a);
    CreateKeepsTables(w, v, a);
    forall id | id in v.sweeps ensures SweepOk(v.tables, v.sweeps[id]) { SweepsKept(w.tables, v.tables, w.sweeps[id]); }
  }

  // ---------------------------------------------------------------- the sweep keeps the invariant

  lemma DoomedIsNotFinalized(t: Tables, d: DeliveryId)
    requires Doomed(t, d)
    ensures !Finalized(t, t.deliveries[d].source, t.deliveries[d].credential)
  {
  }

  lemma ClaimDooms(w: World, k: Sweep, u: Tables)
    requires TablesOk(w.tables, w.cleaned) && SweepOk(w.tables, k) && CanClaim(w.tables, k.delivery, k.seen, k.now)
    requires u == SetDelivery(w.tables, k.delivery, Expired, Some(k.now))
    ensures Moves(w.tables, u) && TablesOk(u, w.cleaned) && Doomed(u, k.delivery)
  {
  }

  lemma FinishMoves(w: World, k: Sweep, cleaned: bool, u: Tables)
    requires TablesOk(w.tables, w.cleaned) && SweepOk(w.tables, k) && Doomed(w.tables, k.delivery)
    requires u == FinishCleanup(w.tables, k.delivery, k.seen, k.now, cleaned)
    ensures Moves(w.tables, u) && TablesOk(u, w.cleaned)
  {
    if ClaimedAt(w.tables, k.delivery, Some(k.now)) {
      var t := w.tables.(owners := u.owners);
      OwnersShrink(w.tables, u.owners);
      SetDeliveryMoves(t, k.delivery, u.deliveries[k.delivery].status, None);
    }
  }

  lemma RepairMoves(w: World, k: Sweep, u: Tables)
    requires TablesOk(w.tables, w.cleaned) && SweepOk(w.tables, k) && k.seen.status.Pending?
    requires u == MarkAcknowledged(w.tables, k.delivery)
    ensures Moves(w.tables, u) && TablesOk(u, w.cleaned)
  {
  }

  lemma SweepStepOk(w: World, k: Sweep, confirmed: bool, v: World, pc: Pc)
    requires TablesOk(w.tables, w.cleaned) && SweepOk(w.tables, k) && (v, pc) == SweepStep(w, k, confirmed)
    ensures Moves(w.tables, v.tables) && TablesOk(v.tables, v.cleaned) && SweepOk(v.tables, k.(pc := pc))
  {
    match k.pc
    case FirstCheck => if !k.seen.status.Pending? { DoomedIsNotFinalized(w.tables, k.delivery); }
    case RepairSeen => RepairMoves(w, k, v.tables);
    case ClaimCleanup =>
      if CanClaim(w.tables, k.delivery, k.seen, k.now) { ClaimDooms(w, k, v.tables); }
    case SecondCheck => DoomedIsNotFinalized(w.tables, k.delivery);
    case CleanKey =>
    case Finish(cleaned) => FinishMoves(w, k, cleaned, v.tables);
    case _ =>
  }

  lemma AdvanceKeepsInv(w: World, id: WorkerId, confirmed: bool, v: World)
    requires Inv(w) && id in w.sweeps && v == Next(w, AdvanceSweep(id, confirmed))
    ensures Inv(v)
    ensures Moves(w.tables, v.tables)
  {
    var (u, pc) := SweepStep(w, w.sweeps[id], confirmed);
    SweepStepOk(w, w.sweeps[id], confirmed, u, pc);
    forall j | j in v.sweeps ensures SweepOk(v.tables, v.sweeps[j]) {
      if j != id { SweepsKept(w.tables, v.tables, w.sweeps[j]); }
    }
  }

  lemma ExpireMoves(t: Tables, id: DeliveryId, cleaned: set<Credential>)
    requires TablesOk(t, cleaned) && id in t.deliveries && t.deliveries[id].status.Pending?
    ensures Moves(t, SetDelivery(t, id, Expired, None)) && TablesOk(SetDelivery(t, id, Expired, None), cleaned)
  {
    SetDeliveryMoves(t, id, Expired, None);
  }

  lemma FewerOwnersOk(t: Tables, owners: map<OwnerId, Owner>, cleaned: set<Credential>)
    requires TablesOk(t, cleaned)
    requires forall o | o in owners :: o in t.owners
               && forall s, c | Delivered(owners[o], s, c) :: Delivered(t.owners[o], s, c)
    ensures Moves(t, t.(owners := owners)) && TablesOk(t.(owners := owners), cleaned)
  {
    OwnersShrink(t, owners);
  }

  lemma FewerEventsKeepInv(w: World, events: seq<Event>, v: World)
    requires Inv(w) && EventsUnique(events) && v == w.(tables := w.tables.(events := events))
    ensures Inv(v) && Moves(w.tables, v.tables)
  {
    TablesMoveKeepsInv(w, v);
  }

  lemma ExpireKeepsInv(w: World, id: DeliveryId, v: World)
    requires Inv(w) && v == Next(w, ExpireOnResume(id))
    ensures Inv(v) && Moves(w.tables, v.tables)
  {
    if v != w {
      ExpireMoves(w.tables, id, w.cleaned);
      TablesMoveKeepsInv(w, v);
    }
  }

  lemma FewerOwnersKeepInv(w: World, v: World)
    requires Inv(w) && v == w.(tables := w.tables.(owners := v.tables.owners))
    requires forall o | o in v.tables.owners :: o in w.tables.owners
               && forall s, c | Delivered(v.tables.owners[o], s, c) :: Delivered(w.tables.owners[o], s, c)
    ensures Inv(v) && Moves(w.tables, v.tables)
  {
    FewerOwnersOk(w.tables, v.tables.owners, w.cleaned);
    TablesMoveKeepsInv(w, v);
  }

  lemma OtherActionKeepsInv(w: World, a: Action, v: World)
    requires Inv(w) && v == Next(w, a)
    requires a.ExpireOnResume? || a.LoseOwner? || a.MoveIdentity? || a.ForgetEvents?
    ensures Inv(v) && Moves(w.tables, v.tables)
  {
    match a
    case ExpireOnResume(id) => ExpireKeepsInv(w, id, v);
    case ForgetEvents(keep) => FewerEventsKeepInv(w, LastEvents(w.tables.events, keep), v);
    case _ => FewerOwnersKeepInv(w, v);
  }

  lemma BeginKeepsInv(w: World, a: Action, v: World)
    requires Inv(w) && v == Next(w, a) && a.BeginSweep?
    ensures Inv(v) && v.tables == w.tables
  {
  }

  lemma TablesAloneKeepInv(w: World, a: Action, v: World)
    requires Inv(w) && v == Next(w, a)
    requires a.CrashSweep? || a.CheckOperation? || a.RemoveKey? || a.Validate? || a.AbandonAck?
    ensures Inv(v) && v.tables == w.tables
  {
  }

  lemma FinalizesKeepsInv(w: World, a: Action, v: World)
    requires Inv(w) && a.Finalizes? && v == Next(w, a)
    ensures Inv(v) && Moves(w.tables, v.tables)
  {
    if a.request in w.acks {
      FinalizeMoves(w.tables, w.acks[a.request], v.tables);
      FinalizeKeepsInv(w, w.acks[a.request], v);
    }
  }

  lemma NextKeepsInv(w: World, a: Action, v: World)
    requires Inv(w) && v == Next(w, a)
    ensures Inv(v) && Moves(w.tables, v.tables)
  {
    if a.CreateDelivery? {
      CreateKeepsInv(w, v, a);
    } else if a.Finalizes? {
      FinalizesKeepsInv(w, a, v);
    } else if a.AdvanceSweep? {
      if a.sweep in w.sweeps { AdvanceKeepsInv(w, a.sweep, a.confirmed, v); }
    } else if a.BeginSweep? {
      BeginKeepsInv(w, a, v);
    } else if a.CrashSweep? || a.CheckOperation? || a.RemoveKey? || a.Validate? || a.AbandonAck? {
      TablesAloneKeepInv(w, a, v);
    } else {
      OtherActionKeepsInv(w, a, v);
    }
  }

  lemma {:induction false} RunKeepsInv(w: World, actions: seq<Action>)
    requires Inv(w)
    ensures Inv(Run(w, actions)) && Moves(w.tables, Run(w, actions).tables)
    decreases |actions|
  {
    if actions != [] {
      var n := |actions| - 1;
      RunKeepsInv(w, actions[..n]);
      NextKeepsInv(Run(w, actions[..n]), actions[n], Run(w, actions));
    }
  }

  // ---------------------------------------------------------------- results

  /** Under every interleaving a delivery that has left pending never returns, and an acknowledged one stays so. */
  lemma PendingIsLeftOnce(before: seq<Action>, after: seq<Action>, d: DeliveryId)
    requires var t := Run(EMPTY, before).tables; d in t.deliveries && !t.deliveries[d].status.Pending?
    ensures var t, u := Run(EMPTY, before).tables, Run(Run(EMPTY, before), after).tables;
            && d in u.deliveries && !u.deliveries[d].status.Pending?
            && (t.deliveries[d].status.Acknowledged? ==> u.deliveries[d].status.Acknowledged?)
  {
    RunKeepsInv(EMPTY, before);
    RunKeepsInv(Run(EMPTY, before), after);
  }

  function EventsOf(events: seq<Event>, credential: Credential): set<int> {
    set i | 0 <= i < |events| && events[i].credential == credential
  }

  lemma AcknowledgedByBatch(t: Tables, a: Ack)
    requires a.delivery in t.deliveries && t.deliveries[a.delivery].status.Pending?
    requires Finalize(t, a).deliveries[a.delivery].status.Acknowledged?
    ensures var u := Finalize(t, a);
            OwnerReady(u, a) && u.deliveries[a.delivery].credential == a.credential && Event(a.source, a.credential) in u.events
  {
    var v := InsertEvent(ActivateIdentity(ActivateOwner(t, a), a), a);
    LastStatementInsists(v, a);
  }

  lemma LastStatementInsists(v: Tables, a: Ack)
    requires a.delivery in v.deliveries && v.deliveries[a.delivery].status.Pending?
    requires AcknowledgeDelivery(v, a).deliveries[a.delivery].status.Acknowledged?
    ensures var u := AcknowledgeDelivery(v, a);
            OwnerReady(u, a) && u.deliveries[a.delivery].credential == a.credential && Event(a.source, a.credential) in u.events
  {
  }

  lemma OneEvent(events: seq<Event>, e: Event)
    requires EventsUnique(events) && e in events
    ensures |EventsOf(events, e.credential)| == 1
  {
    var i :| 0 <= i < |events| && events[i] == e;
    assert EventsOf(events, e.credential) == {i};
  }

  /**
   The finalize batch that acknowledges a delivery leaves its owner active with a delivered time (and
   its Discord identity active), and exactly one issue-success event for its credential.
   */
  lemma AcknowledgedMeansDelivered(actions: seq<Action>, a: Ack)
    requires var t := Run(EMPTY, actions).tables;
             a.delivery in t.deliveries && t.deliveries[a.delivery].status.Pending?
             && Finalize(t, a).deliveries[a.delivery].status.Acknowledged?
    ensures var u := Finalize(Run(EMPTY, actions).tables, a);
            && OwnerReady(u, a)
            && u.deliveries[a.delivery].credential == a.credential
            && Event(a.source, a.credential) in u.events
            && |EventsOf(u.events, a.credential)| == 1
  {
    RunKeepsInv(EMPTY, actions);
    var t := Run(EMPTY, actions).tables;
    FinalizeEvents(t, a);
    AcknowledgedByBatch(t, a);
    OneEvent(Finalize(t, a).events, Event(a.source, a.credential));
  }

  /** Before the batch: its owner awaits or holds the key, and no other source has its event. */
  predicate CanAcknowledge(t: Tables, a: Ack) {
    && a.owner in t.owners
    && var o := t.owners[a.owner];
       && o.source == a.source && o.credential == a.credential
       && (o.status.DeliveryPending? || (o.status.Active? && o.deliveredAt.Some?))
       && (a.source.Discord? ==> o.identity.Issuing? || o.identity.IdentityActive?)
       && (Event(a.source, a.credential) in t.events || !HasEvent(t, a.credential))
  }

  lemma ActivationMakesReady(t: Tables, a: Ack)
    requires DeliveryIs(t, a, Pending)
    ensures var v := ActivateIdentity(ActivateOwner(t, a), a);
            && (OwnerReady(v, a) && (Event(a.source, a.credential) in t.events || !HasEvent(t, a.credential)) <==> CanAcknowledge(t, a))
            && v.events == t.events && v.deliveries == t.deliveries
  {
  }

  lemma InsertedEvent(v: Tables, a: Ack)
    requires DeliveryIs(v, a, Pending)
    ensures Event(a.source, a.credential) in InsertEvent(v, a).events
            <==> Event(a.source, a.credential) in v.events || !HasEvent(v, a.credential)
    ensures InsertEvent(v, a) == v.(events := InsertEvent(v, a).events)
  {
    if !HasEvent(v, a.credential) {
      assert InsertEvent(v, a).events[|v.events|] == Event(a.source, a.credential);
    } else if Event(a.source, a.credential) !in v.events {
      assert InsertEvent(v, a) == v;
    }
  }

  /** On a pending delivery the batch acknowledges exactly when the owner is one it can activate. */
  lemma BatchAcknowledgesExactly(t: Tables, a: Ack)
    requires DeliveryIs(t, a, Pending)
    ensures DeliveryIs(Finalize(t, a), a, Acknowledged) <==> CanAcknowledge(t, a)
    ensures DeliveryIs(Finalize(t, a), a, Pending) <==> !CanAcknowledge(t, a)
  {
    var v := ActivateIdentity(ActivateOwner(t, a), a);
    ActivationMakesReady(t, a);
    InsertedEvent(v, a);
    assert OwnerReady(InsertEvent(v, a), a) == OwnerReady(v, a);
  }

  /** Running the batch twice is running it once, whether or not it acknowledged the delivery. */
  lemma FinalizeIsIdempotent(t: Tables, a: Ack)
    ensures Finalize(Finalize(t, a), a) == Finalize(t, a)
  {
    var u := Finalize(t, a);
    FinalizeSettles(t, a);
    assert ActivateOwner(u, a) == u && ActivateIdentity(u, a) == u && InsertEvent(u, a) == u;
  }

  /** After the batch its first three statements find nothing left to do. */
  lemma FinalizeSettles(t: Tables, a: Ack)
    ensures var u := Finalize(t, a);
            && ActivateOwner(u, a) == u && ActivateIdentity(u, a) == u && InsertEvent(u, a) == u
  {
    var v := ActivateIdentity(ActivateOwner(t, a), a);
    var u := InsertEvent(v, a);
    assert HasEvent(u, a.credential) || !(DeliveryIs(u, a, Pending) || DeliveryIs(u, a, Acknowledged)) by {
      if !HasEvent(v, a.credential) && (DeliveryIs(v, a, Pending) || DeliveryIs(v, a, Acknowledged)) {
        assert u.events[|v.events|].credential == a.credential;
      }
    }
  }

  /** On a delivery acknowledged before, the batch changes nothing exactly while its event is kept. */
  lemma RetryChangesNothingExactlyWithEvent(t: Tables, a: Ack)
    requires DeliveryIs(t, a, Acknowledged)
    ensures Finalize(t, a) == t <==> HasEvent(t, a.credential)
  {
  }

  /**
   Acknowledging and sweeping exclude each other: the sweep never removes the key of a delivery that
   is acknowledged, and no delivery whose key it removed is ever acknowledged.
   */
  lemma AcknowledgedKeyIsNeverSwept(actions: seq<Action>, d: DeliveryId)
    requires d in Run(EMPTY, actions).tables.deliveries && Run(EMPTY, actions).tables.deliveries[d].status.Acknowledged?
    ensures Run(EMPTY, actions).tables.deliveries[d].credential !in Run(EMPTY, actions).cleaned
  {
    RunKeepsInv(EMPTY, actions);
  }

  /** When the sweep calls the provider, nobody has been handed the key it removes. */
  lemma SweptKeyIsHeldByNobody(actions: seq<Action>, id: WorkerId)
    requires id in Run(EMPTY, actions).sweeps && Run(EMPTY, actions).sweeps[id].pc.CleanKey?
    ensures var w := Run(EMPTY, actions); NobodyHolds(w.tables, w.sweeps[id].seen.source, w.sweeps[id].seen.credential)
  {
    RunKeepsInv(EMPTY, actions);
    assert SweepOk(Run(EMPTY, actions).tables, Run(EMPTY, actions).sweeps[id]);
  }

  // ---------------------------------------------------------------- the ACK endpoint

  datatype Validation = Invalid | Mismatched | AlreadyAcknowledged | WasExpired | WasFailed | StillPending

  class DeliveryTables {
    var deliveries: map<DeliveryId, Delivery>
    var owners: map<OwnerId, Owner>
    var events: seq<Event>

    function Contents(): Tables
      reads this
    {
      Tables(deliveries, owners, events)
    }

    method ValidateManagedKeyDeliveryAck(d: DeliveryId, credential: Credential, token: string, now: Time) returns (v: Validation)
      ensures v.Invalid? <==> d !in deliveries || deliveries[d].ackHash != HashOf(token)
      ensures v.Mismatched? <==> !v.Invalid? && deliveries[d].credential != credential
      ensures !v.Invalid? && !v.Mismatched? ==>
                && (v.AlreadyAcknowledged? <==> deliveries[d].status.Acknowledged?)
                && (v.WasFailed? <==> deliveries[d].status.CleanupRequired?)
                && (v.WasExpired? <==> deliveries[d].status.Expired? || (deliveries[d].status.Pending? && now > deliveries[d].expiresAt))
                && (v.StillPending? <==> deliveries[d].status.Pending? && now <= deliveries[d].expiresAt)
    {
      if d !in deliveries { return Invalid; }
      var row := deliveries[d];
      if HashOf(token) != row.ackHash { return Invalid; }
      if row.credential != credential { return Mismatched; }
      if row.status.Acknowledged? { return AlreadyAcknowledged; }
      if row.status.Expired? { return WasExpired; }
      if row.status.CleanupRequired? { return WasFailed; }
      if now > row.expiresAt { return WasExpired; }
      return StillPending;
    }

    method ActivateOwnerRow(a: Ack)
      modifies this`owners
      ensures Contents() == ActivateOwner(old(Contents()), a)
    {
      if a.delivery !in deliveries || a.owner !in owners { return; }
      var row, owner := deliveries[a.delivery], owners[a.owner];
      if row.credential == a.credential && row.status.Pending? && owner.source == a.source
         && owner.status.DeliveryPending? && owner.credential == a.credential {
        owners := owners[a.owner := owner.(status := Active, deliveredAt := Some(a.deliveredAt))];
      }
    }

    method ActivateIdentityRow(a: Ack)
      modifies this`owners
      ensures Contents() == ActivateIdentity(old(Contents()), a)
    {
      if a.delivery !in deliveries || a.owner !in owners { return; }
      var row, owner := deliveries[a.delivery], owners[a.owner];
      if a.source.Discord? && row.credential == a.credential && row.status.Pending? && owner.identity.Issuing? {
        owners := owners[a.owner := owner.(identity := IdentityActive)];
      }
    }

    method InsertIssueSuccess(a: Ack)
      modifies this`events
      ensures Contents() == InsertEvent(old(Contents()), a)
    {
      for i := 0 to |events|
        invariant forall k :: 0 <= k < i ==> events[k].credential != a.credential
        invariant events == old(events)
      {
        if events[i].credential == a.credential { return; }
      }
      if a.delivery !in deliveries || deliveries[a.delivery].credential != a.credential { return; }
      if deliveries[a.delivery].status.Pending? || deliveries[a.delivery].status.Acknowledged? {
        events := events + [Event(a.source, a.credential)];
      }
    }

    method AcknowledgeRow(a: Ack) returns (changed: bool)
      modifies this`deliveries
      ensures Contents() == AcknowledgeDelivery(old(Contents()), a)
      ensures changed <==> DeliveryIs(old(Contents()), a, Pending) && DeliveryIs(Contents(), a, Acknowledged)
    {
      if a.delivery !in deliveries || deliveries[a.delivery].credential != a.credential { return false; }
      if !deliveries[a.delivery].status.Pending? || !OwnerReady(Contents(), a) { return false; }
      if Event(a.source, a.credential) !in events { return false; }
      deliveries := deliveries[a.delivery := deliveries[a.delivery].(status := Acknowledged, claim := None)];
      return true;
    }

    /** The statements of the finalize batch on these tables, in order; `first` says whether it acknowledged. */
    method FinalizeDelivery(a: Ack) returns (first: bool)
      modifies this
      ensures Contents() == Finalize(old(Contents()), a)
      ensures first <==> DeliveryIs(old(Contents()), a, Pending) && DeliveryIs(Contents(), a, Acknowledged)
    {
      ActivateOwnerRow(a);
      ActivateIdentityRow(a);
      InsertIssueSuccess(a);
      first := AcknowledgeRow(a);
    }
  }
}
