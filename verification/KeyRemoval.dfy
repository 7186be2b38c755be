/**
 The operation sweep of managed-operation.ts against the acknowledgements: it checks that no delivery
 of its operation is acknowledged and then removes a key, without claiming the delivery row.

 When may it do so, whatever the requests and sweeps that are under way at its check still do?
 */
module KeyRemoval {
  import opened Common
  import opened KeyDelivery

  /** No acknowledged delivery has lost its key. */
  ghost predicate KeysExist(w: World) {
    forall d | IsAcknowledged(w.tables, d) ::
      w.tables.deliveries[d].credential !in w.cleaned && w.tables.deliveries[d].credential !in w.removed
  }

  // ---------------------------------------------------------------- who may still acknowledge

  /** The key's entitlement awaits or holds it. */
  predicate Owned(t: Tables, row: Delivery) {
    exists o :: o in t.owners && Owns(t.owners[o], row)
  }

  predicate Outstanding(w: World, d: DeliveryId) {
    exists n :: n in w.acks && w.acks[n].delivery == d
  }

  /** All but the identity is in place: the delivery sweep repairs such a delivery once that is active. */
  predicate HalfFinalized(t: Tables, row: Delivery) {
    Event(row.source, row.credential) in t.events && exists o :: o in t.owners && Delivered(t.owners[o], row.source, row.credential)
  }

  predicate AboutToRepair(w: World, d: DeliveryId) {
    exists n :: n in w.sweeps && w.sweeps[n].delivery == d && w.sweeps[n].pc.RepairSeen?
  }

  /** At this time the delivery is acknowledged, or may still be by what is under way. */
  predicate Acknowledgeable(w: World, d: DeliveryId, now: Time)
    requires d in w.tables.deliveries
  {
    var row := w.tables.deliveries[d];
    || row.status.Acknowledged?
    || (row.status.Pending? && Owned(w.tables, row) && (now <= row.expiresAt || Outstanding(w, d)))
    || (row.status.Pending? && HalfFinalized(w.tables, row))
    || (row.status.Pending? && AboutToRepair(w, d))
  }

  /** The check lets an operation sweep through only to a delivery that nobody may acknowledge any more. */
  predicate Careful(w: World, a: Action) {
    PassesCheck(w, a) ==> !Acknowledgeable(w, a.id, Later(w.clock, a.now))
  }

  ghost predicate CarefulFrom(w: World, actions: seq<Action>) {
    forall n | 0 <= n < |actions| :: Careful(Run(w, actions[..n]), actions[n])
  }

  /** An ACK is validated at a time no earlier than any seen before. */
  predicate Orderly(w: World, a: Action) {
    a.Validate? ==> w.clock <= a.at
  }

  ghost predicate OrderlyFrom(w: World, actions: seq<Action>) {
    forall n | 0 <= n < |actions| :: Orderly(Run(w, actions[..n]), actions[n])
  }

  /** No further operation sweep passes its check. */
  ghost predicate UnderWay(w: World, actions: seq<Action>) {
    OrderlyFrom(w, actions) && forall a | a in actions :: !a.CheckOperation?
  }

  // ---------------------------------------------------------------- owners and validated ACKs

  ghost predicate OwnersOk(t: Tables) {
    && (forall o, p | o in t.owners && p in t.owners && t.owners[o].credential == t.owners[p].credential :: o == p)
    && (forall o | o in t.owners && t.owners[o].status.Active? :: t.owners[o].deliveredAt.Some?)
  }

  /** A validated ACK names its delivery's key and, if the key still has one, its owner. */
  ghost predicate AckOk(t: Tables, a: Ack) {
    && a.delivery in t.deliveries
    && t.deliveries[a.delivery].credential == a.credential && t.deliveries[a.delivery].source == a.source
    && (forall o | o in t.owners && t.owners[o].credential == a.credential :: o == a.owner)
  }

  ghost predicate AcksOk(w: World) {
    OwnersOk(w.tables) && forall n | n in w.acks :: AckOk(w.tables, w.acks[n])
  }

  /** What a table of owners may become without a batch: fewer, and given up for good. */
  predicate Fewer(before: map<OwnerId, Owner>, after: map<OwnerId, Owner>) {
    forall o | o in after ::
      && o in before && after[o].credential == before[o].credential && after[o].source == before[o].source
      && (after[o].status.OwnerCleanup? || (after[o].status == before[o].status && after[o].deliveredAt == before[o].deliveredAt))
  }

  /** Owners keep their key; a new one has a key that no delivery carried. */
  ghost predicate KeysKept(t: Tables, owners: map<OwnerId, Owner>) {
    forall o | o in owners ::
      || (o in t.owners && owners[o].credential == t.owners[o].credential && owners[o].source == t.owners[o].source)
      || (forall d | d in t.deliveries :: t.deliveries[d].credential != owners[o].credential)
  }

  lemma AckStaysOk(t: Tables, u: Tables, a: Ack)
    requires AckOk(t, a) && KeysKept(t, u.owners) && Moves(t, u)
    ensures AckOk(u, a)
  {
  }

  lemma FewerAreOk(t: Tables, u: Tables)
    requires OwnersOk(t) && Fewer(t.owners, u.owners)
    ensures OwnersOk(u) && KeysKept(t, u.owners)
  {
  }

  lemma OneOwnerChanges(t: Tables, o: OwnerId, next: Owner)
    requires OwnersOk(t) && o in t.owners
    requires next.credential == t.owners[o].credential && next.source == t.owners[o].source
    requires next.status.Active? ==> next.deliveredAt.Some?
    ensures OwnersOk(t.(owners := t.owners[o := next])) && KeysKept(t, t.owners[o := next])
  {
  }

  lemma NoOwnerChanges(t: Tables)
    ensures KeysKept(t, t.owners)
  {
  }

  lemma ActivateOwnerKeepsOwners(t: Tables, a: Ack)
    requires OwnersOk(t)
    ensures OwnersOk(ActivateOwner(t, a)) && KeysKept(t, ActivateOwner(t, a).owners)
  {
    NoOwnerChanges(t);
    if a.owner in t.owners {
      OneOwnerChanges(t, a.owner, t.owners[a.owner].(status := Active, deliveredAt := Some(a.deliveredAt)));
    }
  }

  lemma ActivateIdentityKeepsOwners(t: Tables, a: Ack)
    requires OwnersOk(t)
    ensures OwnersOk(ActivateIdentity(t, a)) && KeysKept(t, ActivateIdentity(t, a).owners)
  {
    NoOwnerChanges(t);
    if a.owner in t.owners { OneOwnerChanges(t, a.owner, t.owners[a.owner].(identity := IdentityActive)); }
  }

  lemma LaterStatementsKeepOwners(v: Tables, a: Ack)
    ensures AcknowledgeDelivery(InsertEvent(v, a), a).owners == v.owners
  {
  }

  lemma FinalizeKeepsOwners(t: Tables, a: Ack)
    requires OwnersOk(t)
    ensures OwnersOk(Finalize(t, a)) && KeysKept(t, Finalize(t, a).owners)
  {
    var u := ActivateOwner(t, a);
    var v := ActivateIdentity(u, a);
    ActivateOwnerKeepsOwners(t, a);
    ActivateIdentityKeepsOwners(u, a);
    LaterStatementsKeepOwners(v, a);
  }

  lemma FinishGivesUpOwners(t: Tables, d: DeliveryId, seen: Delivery, now: Time, cleaned: bool)
    ensures Fewer(t.owners, FinishCleanup(t, d, seen, now, cleaned).owners)
  {
  }

  lemma SweepGivesUpOwners(w: World, k: Sweep, confirmed: bool)
    ensures Fewer(w.tables.owners, SweepStep(w, k, confirmed).0.tables.owners)
  {
    if k.pc.Finish? { FinishGivesUpOwners(w.tables, k.delivery, k.seen, k.now, k.pc.cleaned); }
  }

  lemma CreateKeepsOwners(w: World, a: Action, v: World)
    requires OwnersOk(w.tables) && a.CreateDelivery? && v == Next(w, a)
    ensures OwnersOk(v.tables) && KeysKept(w.tables, v.tables.owners)
  {
  }

  lemma OthersGiveUpOwners(w: World, a: Action, v: World)
    requires v == Next(w, a) && !a.Finalizes? && !a.AdvanceSweep? && !a.CreateDelivery?
    ensures Fewer(w.tables.owners, v.tables.owners)
  {
  }

  lemma StepKeepsOwners(w: World, a: Action, v: World)
    requires OwnersOk(w.tables) && v == Next(w, a)
    ensures OwnersOk(v.tables) && KeysKept(w.tables, v.tables.owners)
  {
    if a.Finalizes? {
      if a.request in w.acks { FinalizeKeepsOwners(w.tables, w.acks[a.request]); }
    } else if a.CreateDelivery? {
      CreateKeepsOwners(w, a, v);
    } else {
      if a.AdvanceSweep? {
        if a.sweep in w.sweeps { SweepGivesUpOwners(w, w.sweeps[a.sweep], a.confirmed); }
      } else {
        OthersGiveUpOwners(w, a, v);
      }
      FewerAreOk(w.tables, v.tables);
    }
  }

  lemma SweepStepIsOfTables(w: World, k: Sweep, confirmed: bool)
    ensures var v := SweepStep(w, k, confirmed).0; v == w.(tables := v.tables, cleaned := v.cleaned)
  {
  }

  lemma AcksComeFromValidation(w: World, a: Action, v: World)
    requires v == Next(w, a)
    ensures forall n | n in v.acks ::
              (n in w.acks && v.acks[n] == w.acks[n])
              || (a.Validate? && v.acks[n] == a.ack && Validates(w.tables, a.ack, a.at) && v.tables == w.tables)
  {
    if a.AdvanceSweep? && a.sweep in w.sweeps {
      SweepStepIsOfTables(w, w.sweeps[a.sweep], a.confirmed);
    }
  }

  lemma NextKeepsAcks(w: World, a: Action, v: World)
    requires AcksOk(w) && v == Next(w, a) && Moves(w.tables, v.tables)
    ensures AcksOk(v)
  {
    StepKeepsOwners(w, a, v);
    AcksComeFromValidation(w, a, v);
    forall n | n in v.acks ensures AckOk(v.tables, v.acks[n]) {
      if n in w.acks && v.acks[n] == w.acks[n] { AckStaysOk(w.tables, v.tables, w.acks[n]); }
    }
  }

  // ---------------------------------------------------------------- what is sealed stays sealed

  ghost predicate Sealed(w: World, d: DeliveryId) {
    d in w.tables.deliveries && !Acknowledgeable(w, d, w.clock)
  }

  /** The owners of one key, at most given up. */
  predicate FewerOf(before: map<OwnerId, Owner>, after: map<OwnerId, Owner>, c: Credential) {
    forall o | o in after && after[o].credential == c ::
      && o in before && before[o].credential == c && after[o].source == before[o].source
      && (after[o].status.OwnerCleanup? || (after[o].status == before[o].status && after[o].deliveredAt == before[o].deliveredAt))
  }

  /** A delivery's row comes no closer to acknowledgement. */
  predicate RowRecedes(row: Delivery, next: Delivery) {
    && next.source == row.source && next.credential == row.credential && next.expiresAt == row.expiresAt
    && (next.status.Pending? ==> row.status.Pending?) && (next.status.Acknowledged? ==> row.status.Acknowledged?)
  }

  /** Nor does all that stands for it in the tables. */
  ghost predicate Recedes(t: Tables, u: Tables, d: DeliveryId) {
    && d in t.deliveries && d in u.deliveries
    && RowRecedes(t.deliveries[d], u.deliveries[d])
    && FewerOf(t.owners, u.owners, t.deliveries[d].credential)
    && (!Owned(t, t.deliveries[d])
        || forall e | e in u.events && e.credential == t.deliveries[d].credential :: e in t.events)
  }

  lemma RecedingOwners(t: Tables, u: Tables, d: DeliveryId)
    requires Recedes(t, u, d)
    ensures Owned(u, u.deliveries[d]) ==> Owned(t, t.deliveries[d])
    ensures HalfFinalized(u, u.deliveries[d]) ==> HalfFinalized(t, t.deliveries[d])
  {
    var row := t.deliveries[d];
    if o :| o in u.owners && Owns(u.owners[o], u.deliveries[d]) { assert Owns(t.owners[o], row); }
    if HalfFinalized(u, u.deliveries[d]) {
      var o :| o in u.owners && Delivered(u.owners[o], row.source, row.credential);
      assert Owns(t.owners[o], row) && Delivered(t.owners[o], row.source, row.credential);
    }
  }

  /** Requests and sweeps come no closer either, or only where the tables already stood for it. */
  ghost predicate NoNewWork(w: World, v: World, d: DeliveryId)
    requires d in w.tables.deliveries && d in v.tables.deliveries
  {
    && w.clock <= v.clock
    && (Outstanding(v, d) ==>
          Outstanding(w, d) || (w.clock <= w.tables.deliveries[d].expiresAt && Owned(w.tables, w.tables.deliveries[d]))
          || !w.tables.deliveries[d].status.Pending?)
    && (AboutToRepair(v, d) ==>
          AboutToRepair(w, d) || HalfFinalized(w.tables, w.tables.deliveries[d]) || !v.tables.deliveries[d].status.Pending?)
  }

  lemma RecedingStaysSealed(w: World, v: World, d: DeliveryId)
    requires Sealed(w, d) && Recedes(w.tables, v.tables, d) && NoNewWork(w, v, d)
    ensures Sealed(v, d)
  {
    RecedingOwners(w.tables, v.tables, d);
  }

  lemma SealedBatchRecedes(w: World, a: Ack, d: DeliveryId)
    requires Inv(w) && AckOk(w.tables, a) && Sealed(w, d) && (a.delivery == d ==> Outstanding(w, d))
    ensures Recedes(w.tables, Finalize(w.tables, a), d)
  {
    var t := w.tables;
    var v := ActivateIdentity(ActivateOwner(t, a), a);
    FinalizeDeliveries(t, a);
    LaterStatementsKeepOwners(v, a);
    ActivationRecedes(w, a, d, v);
    if a.delivery == d && DeliveryIs(t, a, Pending) {
      assert !Owned(t, t.deliveries[d]);
      UnownedIsNotAcknowledged(t, a, d);
    } else if a.delivery != d {
      assert a.credential != t.deliveries[d].credential;
    }
  }

  lemma ActivationRecedes(w: World, a: Ack, d: DeliveryId, v: Tables)
    requires Inv(w) && AckOk(w.tables, a) && Sealed(w, d) && (a.delivery == d ==> Outstanding(w, d))
    requires v == ActivateIdentity(ActivateOwner(w.tables, a), a)
    ensures FewerOf(w.tables.owners, v.owners, w.tables.deliveries[d].credential)
    ensures v.deliveries == w.tables.deliveries && v.events == w.tables.events
  {
    var t := w.tables;
    if a.delivery != d { assert t.deliveries[a.delivery].credential != t.deliveries[d].credential; }
    if a.owner in t.owners && Owns(t.owners[a.owner], t.deliveries[d]) { assert Owned(t, t.deliveries[d]); }
  }

  lemma OnlyOwnedIsAcknowledged(t: Tables, a: Ack, d: DeliveryId)
    requires DeliveryIs(t, a, Pending) && a.delivery == d && t.deliveries[d].source == a.source
    ensures CanAcknowledge(t, a) ==> Owned(t, t.deliveries[d])
  {
    if CanAcknowledge(t, a) { assert Owns(t.owners[a.owner], t.deliveries[d]); }
  }

  lemma UnownedIsNotAcknowledged(t: Tables, a: Ack, d: DeliveryId)
    requires DeliveryIs(t, a, Pending) && a.delivery == d && t.deliveries[d].source == a.source && !Owned(t, t.deliveries[d])
    ensures Finalize(t, a).deliveries == t.deliveries
  {
    BatchAcknowledgesExactly(t, a);
    FinalizeDeliveries(t, a);
    OnlyOwnedIsAcknowledged(t, a, d);
  }

  lemma CreateRecedes(w: World, a: Action, v: World, d: DeliveryId)
    requires a.CreateDelivery? && v == Next(w, a) && d in w.tables.deliveries
    ensures Recedes(w.tables, v.tables, d)
  {
  }

  lemma SweepRecedes(w: World, k: Sweep, confirmed: bool, d: DeliveryId, u: Tables)
    requires Inv(w) && SweepOk(w.tables, k) && Sealed(w, d) && u == SweepStep(w, k, confirmed).0.tables
    requires k.delivery == d && k.pc.RepairSeen? ==> !w.tables.deliveries[d].status.Pending?
    ensures Recedes(w.tables, u, d)
  {
    SweepGivesUpOwners(w, k, confirmed);
    SweepMovesRows(w, k, confirmed, d, u);
  }

  lemma SetDeliveryRecedes(t: Tables, e: DeliveryId, status: DeliveryStatus, claim: Option<Time>, d: DeliveryId)
    requires d in t.deliveries && e in t.deliveries && !status.Pending? && (status.Acknowledged? ==> e != d)
    ensures RowRecedes(t.deliveries[d], SetDelivery(t, e, status, claim).deliveries[d])
  {
  }

  lemma FinishMovesRows(t: Tables, e: DeliveryId, seen: Delivery, now: Time, cleaned: bool, d: DeliveryId)
    requires d in t.deliveries
    ensures var u := FinishCleanup(t, e, seen, now, cleaned);
            d in u.deliveries && RowRecedes(t.deliveries[d], u.deliveries[d]) && u.events == t.events
  {
  }

  lemma SweepMovesRows(w: World, k: Sweep, confirmed: bool, d: DeliveryId, u: Tables)
    requires SweepOk(w.tables, k) && d in w.tables.deliveries && u == SweepStep(w, k, confirmed).0.tables
    requires k.delivery == d && k.pc.RepairSeen? ==> !w.tables.deliveries[d].status.Pending?
    ensures d in u.deliveries && RowRecedes(w.tables.deliveries[d], u.deliveries[d]) && u.events == w.tables.events
  {
    match k.pc
    case RepairSeen =>
      if w.tables.deliveries[k.delivery].status.Pending? { SetDeliveryRecedes(w.tables, k.delivery, Acknowledged, None, d); }
    case ClaimCleanup => SetDeliveryRecedes(w.tables, k.delivery, Expired, Some(k.now), d);
    case Finish(cleaned) => FinishMovesRows(w.tables, k.delivery, k.seen, k.now, cleaned, d);
    case _ =>
  }

  lemma OthersRecede(w: World, a: Action, v: World, d: DeliveryId)
    requires v == Next(w, a) && !a.Finalizes? && !a.AdvanceSweep? && !a.CreateDelivery? && d in w.tables.deliveries
    ensures Recedes(w.tables, v.tables, d)
  {
    OthersGiveUpOwners(w, a, v);
    OthersMoveRows(w, a, v, d);
  }

  lemma OthersMoveRows(w: World, a: Action, v: World, d: DeliveryId)
    requires v == Next(w, a) && !a.Finalizes? && !a.AdvanceSweep? && !a.CreateDelivery? && d in w.tables.deliveries
    ensures d in v.tables.deliveries && RowRecedes(w.tables.deliveries[d], v.tables.deliveries[d])
    ensures forall e | e in v.tables.events :: e in w.tables.events
  {
    match a
    case ExpireOnResume(id) =>
      if id in w.tables.deliveries { SetDeliveryRecedes(w.tables, id, Expired, None, d); }
    case _ =>
  }

  lemma StepRecedes(w: World, a: Action, v: World, d: DeliveryId)
    requires Inv(w) && AcksOk(w) && Sealed(w, d) && v == Next(w, a)
    ensures Recedes(w.tables, v.tables, d)
  {
    if a.Finalizes? {
      if a.request in w.acks { SealedBatchRecedes(w, w.acks[a.request], d); }
    } else if a.AdvanceSweep? {
      if a.sweep in w.sweeps { SweepRecedes(w, w.sweeps[a.sweep], a.confirmed, d, v.tables); }
    } else if a.CreateDelivery? {
      CreateRecedes(w, a, v, d);
    } else {
      OthersRecede(w, a, v, d);
    }
  }

  lemma NewAcksNeedTime(w: World, a: Action, v: World, d: DeliveryId)
    requires Orderly(w, a) && v == Next(w, a) && d in w.tables.deliveries && Outstanding(v, d) && !Outstanding(w, d)
    requires w.tables.deliveries[d].status.Pending?
    ensures w.clock <= w.tables.deliveries[d].expiresAt && Owned(w.tables, w.tables.deliveries[d])
  {
    AcksComeFromValidation(w, a, v);
    var n :| n in v.acks && v.acks[n].delivery == d;
    assert n in w.acks ==> w.acks[n] != v.acks[n];
    assert Owns(w.tables.owners[a.ack.owner], w.tables.deliveries[d]);
  }

  lemma RepairComesFromCheck(w: World, k: Sweep, confirmed: bool)
    requires SweepOk(w.tables, k) && SweepStep(w, k, confirmed).1.RepairSeen?
    ensures HalfFinalized(w.tables, w.tables.deliveries[k.delivery])
  {
    var row := w.tables.deliveries[k.delivery];
    var o :| o in w.tables.owners && Delivered(w.tables.owners[o], k.seen.source, k.seen.credential);
    assert Delivered(w.tables.owners[o], row.source, row.credential);
  }

  lemma SweepsMoveOn(w: World, a: Action, v: World, n: WorkerId)
    requires v == Next(w, a) && n in v.sweeps && v.sweeps[n].pc.RepairSeen?
    ensures n in w.sweeps && v.sweeps[n].delivery == w.sweeps[n].delivery
    ensures w.sweeps[n].pc.RepairSeen? || (a.AdvanceSweep? && a.sweep == n && SweepStep(w, w.sweeps[n], a.confirmed).1.RepairSeen?)
  {
    if a.AdvanceSweep? && a.sweep in w.sweeps { SweepStepIsOfTables(w, w.sweeps[a.sweep], a.confirmed); }
  }

  lemma NewRepairsWereHalfDone(w: World, a: Action, v: World, d: DeliveryId)
    requires Inv(w) && v == Next(w, a) && d in w.tables.deliveries && AboutToRepair(v, d) && !AboutToRepair(w, d)
    ensures HalfFinalized(w.tables, w.tables.deliveries[d])
  {
    var n :| n in v.sweeps && v.sweeps[n].delivery == d && v.sweeps[n].pc.RepairSeen?;
    SweepsMoveOn(w, a, v, n);
    RepairComesFromCheck(w, w.sweeps[n], a.confirmed);
  }

  lemma ClockRuns(w: World, a: Action, v: World)
    requires v == Next(w, a)
    ensures w.clock <= v.clock
  {
    if a.AdvanceSweep? && a.sweep in w.sweeps { SweepStepIsOfTables(w, w.sweeps[a.sweep], a.confirmed); }
  }

  /** Nothing that is under way, and no orderly request to come, brings a sealed delivery back within reach. */
  lemma NextKeepsSealed(w: World, a: Action, v: World, d: DeliveryId)
    requires Inv(w) && AcksOk(w) && Sealed(w, d) && Orderly(w, a) && v == Next(w, a)
    ensures Sealed(v, d)
  {
    StepRecedes(w, a, v, d);
    ClockRuns(w, a, v);
    if Outstanding(v, d) && !Outstanding(w, d) && w.tables.deliveries[d].status.Pending? { NewAcksNeedTime(w, a, v, d); }
    if AboutToRepair(v, d) && !AboutToRepair(w, d) { NewRepairsWereHalfDone(w, a, v, d); }
    RecedingStaysSealed(w, v, d);
  }

  // ---------------------------------------------------------------- careful runs

  /** Every key an operation sweep removed or is about to remove belongs to a sealed delivery. */
  ghost predicate RemovalsSealed(w: World) {
    && (forall s | s in w.operationSweeps :: Sealed(w, w.operationSweeps[s]))
    && (forall d | d in w.tables.deliveries && w.tables.deliveries[d].credential in w.removed :: Sealed(w, d))
  }

  ghost predicate RemovalInv(w: World) {
    Inv(w) && AcksOk(w) && RemovalsSealed(w)
  }

  lemma RemovalInvKeepsKeys(w: World)
    requires RemovalInv(w)
    ensures KeysExist(w)
  {
  }

  lemma SweepsComeFromChecks(w: World, a: Action, v: World)
    requires v == Next(w, a)
    ensures forall s | s in v.operationSweeps ::
              (s in w.operationSweeps && v.operationSweeps[s] == w.operationSweeps[s])
              || (PassesCheck(w, a) && v.operationSweeps[s] == a.id && v == w.(operationSweeps := v.operationSweeps, clock := Later(w.clock, a.now)))
  {
    if a.AdvanceSweep? && a.sweep in w.sweeps { SweepStepIsOfTables(w, w.sweeps[a.sweep], a.confirmed); }
  }

  lemma RemovalsComeFromSweeps(w: World, a: Action, v: World)
    requires v == Next(w, a)
    ensures v.removed == w.removed
            || (a.RemoveKey? && a.sweep in w.operationSweeps && w.operationSweeps[a.sweep] in w.tables.deliveries && v.tables == w.tables
                && v.removed == w.removed + {w.tables.deliveries[w.operationSweeps[a.sweep]].credential})
    ensures forall d | d in v.tables.deliveries && d !in w.tables.deliveries :: v.tables.deliveries[d].credential !in v.removed
  {
    match a {
      case Finalizes(n) => if n in w.acks { FinalizeDeliveries(w.tables, w.acks[n]); }
      case AdvanceSweep(n, confirmed) =>
        if n in w.sweeps {
          SweepStepIsOfTables(w, w.sweeps[n], confirmed);
          SweepStepKeepsDeliveries(w, w.sweeps[n], confirmed);
        }
      case _ =>
    }
  }

  lemma SweepStepKeepsDeliveries(w: World, k: Sweep, confirmed: bool)
    ensures SweepStep(w, k, confirmed).0.tables.deliveries.Keys == w.tables.deliveries.Keys
  {
  }

  lemma CheckedIsSealed(w: World, a: Action, v: World)
    requires Careful(w, a) && PassesCheck(w, a) && v == Next(w, a)
    ensures Sealed(v, a.id)
  {
  }

  lemma NextKeepsRemovals(w: World, a: Action, v: World)
    requires RemovalInv(w) && Orderly(w, a) && Careful(w, a) && v == Next(w, a)
    ensures RemovalInv(v)
  {
    NextKeepsInv(w, a, v);
    NextKeepsAcks(w, a, v);
    SweepsComeFromChecks(w, a, v);
    RemovalsComeFromSweeps(w, a, v);
    forall s | s in v.operationSweeps ensures Sealed(v, v.operationSweeps[s]) {
      if s in w.operationSweeps && v.operationSweeps[s] == w.operationSweeps[s] {
        NextKeepsSealed(w, a, v, w.operationSweeps[s]);
      } else {
        CheckedIsSealed(w, a, v);
      }
    }
    forall d | d in v.tables.deliveries && v.tables.deliveries[d].credential in v.removed ensures Sealed(v, d) {
      RemovedWasSealed(w, a, v, d);
      NextKeepsSealed(w, a, v, d);
    }
  }

  lemma RemovedWasSealed(w: World, a: Action, v: World, d: DeliveryId)
    requires RemovalInv(w) && v == Next(w, a) && Moves(w.tables, v.tables)
    requires d in v.tables.deliveries && v.tables.deliveries[d].credential in v.removed
    ensures Sealed(w, d)
  {
    RemovalsComeFromSweeps(w, a, v);
    if w.tables.deliveries[d].credential !in w.removed {
      assert d == w.operationSweeps[a.sweep];
    }
  }

  lemma {:induction false} RunKeepsRemovals(w: World, actions: seq<Action>, n: nat)
    requires RemovalInv(w) && OrderlyFrom(w, actions) && CarefulFrom(w, actions) && n <= |actions|
    ensures RemovalInv(Run(w, actions[..n]))
  {
    if n == 0 {
      assert actions[..0] == [];
    } else {
      RunKeepsRemovals(w, actions, n - 1);
      RunStep(w, actions, n - 1);
      NextKeepsRemovals(Run(w, actions[..n - 1]), actions[n - 1], Run(w, actions[..n]));
    }
  }

  // ---------------------------------------------------------------- what a careless check lets happen

  lemma RunSnoc(w: World, xs: seq<Action>, a: Action)
    ensures Run(w, xs + [a]) == Next(Run(w, xs), a)
  {
    assert (xs + [a])[..|xs|] == xs;
  }

  lemma RunOne(w: World, a: Action)
    ensures Run(w, [a]) == Next(w, a)
  {
    assert [a][..0] == [];
  }

  lemma RunLast(w: World, xs: seq<Action>, u: World)
    requires xs != [] && u == Run(w, xs[..|xs| - 1])
    ensures Run(w, xs) == Next(u, xs[|xs| - 1])
  {
  }

  lemma SameEnd(w: World, xs: seq<Action>, x: World, ys: seq<Action>, u: World)
    requires xs != [] && ys != [] && xs[|xs| - 1] == ys[|ys| - 1]
    requires Run(w, xs[..|xs| - 1]) == u && Run(x, ys[..|ys| - 1]) == u
    ensures Run(w, xs) == Run(x, ys)
  {
    RunLast(w, xs, u);
    RunLast(x, ys, u);
  }

  lemma {:induction false} RunFrom(w: World, xs: seq<Action>, x: World, ys: seq<Action>, both: seq<Action>)
    requires both == xs + ys && Run(w, both[..|xs|]) == x
    ensures Run(w, both) == Run(x, ys)
    decreases |ys|
  {
    if ys == [] {
      assert both[..|xs|] == both;
    } else {
      var rest := both[..|both| - 1];
      assert rest[..|xs|] == both[..|xs|];
      RunFrom(w, xs, x, ys[..|ys| - 1], rest);
      SameEnd(w, both, x, ys, Run(w, rest));
    }
  }

  lemma RunAppend(w: World, xs: seq<Action>, ys: seq<Action>)
    ensures Run(w, xs + ys) == Run(Run(w, xs), ys)
  {
    assert (xs + ys)[..|xs|] == xs;
    RunFrom(w, xs, Run(w, xs), ys, xs + ys);
  }

  /** Its key is gone, and it is still pending. */
  ghost predicate Stranded(w: World, d: DeliveryId) {
    && d in w.tables.deliveries && w.tables.deliveries[d].status.Pending?
    && w.tables.deliveries[d].credential in w.removed
  }

  ghost predicate Lost(w: World, d: DeliveryId) {
    IsAcknowledged(w.tables, d) && w.tables.deliveries[d].credential in w.removed
  }

  /** A validated ACK whose owner is still there. */
  ghost predicate Ready(w: World, n: WorkerId, d: DeliveryId, o: OwnerId) {
    && Stranded(w, d) && n in w.acks && o in w.tables.owners
    && Owns(w.tables.owners[o], w.tables.deliveries[d])
    && (w.tables.owners[o].status.Active? ==> w.tables.owners[o].deliveredAt.Some?)
    && w.acks[n] == Ack(d, o, w.tables.deliveries[d].credential, w.tables.deliveries[d].source, w.acks[n].deliveredAt)
  }

  lemma ForgettingKeepsReady(w: World, n: WorkerId, d: DeliveryId, o: OwnerId, v: World)
    requires Ready(w, n, d, o) && v == Next(w, ForgetEvents(0))
    ensures Ready(v, n, d, o) && v.tables.events == []
  {
  }

  lemma MovingKeepsReady(w: World, n: WorkerId, d: DeliveryId, o: OwnerId, v: World)
    requires Ready(w, n, d, o) && v == Next(w, MoveIdentity(o, Issuing))
    ensures Ready(v, n, d, o) && v.tables.events == w.tables.events && v.tables.owners[o].identity.Issuing?
  {
  }

  lemma ReadyBatchAcknowledges(w: World, n: WorkerId, d: DeliveryId, o: OwnerId, v: World)
    requires Ready(w, n, d, o) && w.tables.events == [] && w.tables.owners[o].identity.Issuing? && v == Next(w, Finalizes(n))
    ensures Lost(v, d)
  {
    BatchAcknowledgesExactly(w.tables, w.acks[n]);
    FinalizeDeliveries(w.tables, w.acks[n]);
  }

  function AckActions(n: WorkerId, o: OwnerId): seq<Action> {
    [ForgetEvents(0)] + [MoveIdentity(o, Issuing)] + [Finalizes(n)]
  }

  lemma ReadyAckIsLost(w: World, n: WorkerId, d: DeliveryId, o: OwnerId)
    requires Ready(w, n, d, o)
    ensures Lost(Run(w, AckActions(n, o)), d)
  {
    RunOne(w, ForgetEvents(0));
    RunSnoc(w, [ForgetEvents(0)], MoveIdentity(o, Issuing));
    RunSnoc(w, [ForgetEvents(0)] + [MoveIdentity(o, Issuing)], Finalizes(n));
    var u := Next(w, ForgetEvents(0));
    var v := Next(u, MoveIdentity(o, Issuing));
    ForgettingKeepsReady(w, n, d, o, u);
    MovingKeepsReady(u, n, d, o, v);
    ReadyBatchAcknowledges(v, n, d, o, Next(v, Finalizes(n)));
  }

  lemma RepairLoses(w: World, n: WorkerId, d: DeliveryId, v: World)
    requires Stranded(w, d) && n in w.sweeps && w.sweeps[n].delivery == d && w.sweeps[n].pc.RepairSeen?
    requires w.sweeps[n].seen.status.Pending? && v == Next(w, AdvanceSweep(n, true))
    ensures Lost(v, d)
  {
  }

  function RepairActions(n: WorkerId, d: DeliveryId, o: OwnerId, now: Time): seq<Action> {
    [MoveIdentity(o, IdentityActive)] + [BeginSweep(n, d, now)] + [AdvanceSweep(n, true)] + [AdvanceSweep(n, true)]
  }

  lemma SweepStarts(w: World, n: WorkerId, d: DeliveryId, v: World)
    requires Stranded(w, d) && n !in w.sweeps && v == Next(w, BeginSweep(n, d, w.tables.deliveries[d].expiresAt))
    ensures v == w.(sweeps := w.sweeps[n := Sweep(d, w.tables.deliveries[d], w.tables.deliveries[d].expiresAt, FirstCheck)])
  {
  }

  lemma SweepSeesFinalized(w: World, n: WorkerId, v: World)
    requires n in w.sweeps && w.sweeps[n].pc.FirstCheck? && v == Next(w, AdvanceSweep(n, true))
    requires Finalized(w.tables, w.sweeps[n].seen.source, w.sweeps[n].seen.credential)
    ensures v == w.(sweeps := w.sweeps[n := w.sweeps[n].(pc := RepairSeen)])
  {
  }

  lemma IdentityActivated(w: World, d: DeliveryId, o: OwnerId, v: World)
    requires Stranded(w, d) && o in w.tables.owners && v == Next(w, MoveIdentity(o, IdentityActive))
    requires var row := w.tables.deliveries[d];
             Event(row.source, row.credential) in w.tables.events && Delivered(w.tables.owners[o], row.source, row.credential)
    ensures Stranded(v, d) && v == w.(tables := v.tables) && v.tables.deliveries == w.tables.deliveries
    ensures Finalized(v.tables, w.tables.deliveries[d].source, w.tables.deliveries[d].credential)
  {
    assert Delivered(v.tables.owners[o], w.tables.deliveries[d].source, w.tables.deliveries[d].credential);
  }

  lemma HalfFinalizedIsLost(w: World, n: WorkerId, d: DeliveryId, o: OwnerId)
    requires Stranded(w, d) && o in w.tables.owners && n !in w.sweeps
    requires var row := w.tables.deliveries[d];
             Event(row.source, row.credential) in w.tables.events && Delivered(w.tables.owners[o], row.source, row.credential)
    ensures Lost(Run(w, RepairActions(n, d, o, w.tables.deliveries[d].expiresAt)), d)
  {
    var now := w.tables.deliveries[d].expiresAt;
    var one := [MoveIdentity(o, IdentityActive)];
    RunOne(w, MoveIdentity(o, IdentityActive));
    RunSnoc(w, one, BeginSweep(n, d, now));
    RunSnoc(w, one + [BeginSweep(n, d, now)], AdvanceSweep(n, true));
    RunSnoc(w, one + [BeginSweep(n, d, now)] + [AdvanceSweep(n, true)], AdvanceSweep(n, true));
    var u := Next(w, MoveIdentity(o, IdentityActive));
    var v := Next(u, BeginSweep(n, d, now));
    var x := Next(v, AdvanceSweep(n, true));
    IdentityActivated(w, d, o, u);
    SweepStarts(u, n, d, v);
    SweepSeesFinalized(v, n, x);
    RepairLoses(x, n, d, Next(x, AdvanceSweep(n, true)));
  }

  // ---------------------------------------------------------------- the exact condition

  lemma UnderWayWithoutAcks(w: World, actions: seq<Action>)
    requires forall a | a in actions :: !a.Validate? && !a.CheckOperation?
    ensures UnderWay(w, actions)
  {
  }

  lemma UnderWayAppend(w: World, xs: seq<Action>, ys: seq<Action>)
    requires UnderWay(w, xs) && UnderWay(Run(w, xs), ys)
    ensures UnderWay(w, xs + ys)
  {
    forall n | 0 <= n < |xs + ys| ensures Orderly(Run(w, (xs + ys)[..n]), (xs + ys)[n]) {
      if n < |xs| {
        assert (xs + ys)[..n] == xs[..n];
      } else {
        assert (xs + ys)[..n] == xs + ys[..n - |xs|];
        RunAppend(w, xs, ys[..n - |xs|]);
      }
    }
  }

  lemma RemovalStrands(w: World, s: WorkerId, d: DeliveryId, v: World)
    requires s in w.operationSweeps && w.operationSweeps[s] == d && d in w.tables.deliveries && v == Next(w, RemoveKey(s, true))
    ensures v == w.(operationSweeps := v.operationSweeps, removed := w.removed + {w.tables.deliveries[d].credential})
    ensures w.tables.deliveries[d].status.Pending? ==> Stranded(v, d)
    ensures w.tables.deliveries[d].status.Acknowledged? ==> Lost(v, d)
  {
  }

  /** A stranded delivery that may still be acknowledged gets acknowledged in some continuation. */
  lemma StrandedIsLost(w: World, d: DeliveryId) returns (rest: seq<Action>)
    requires Inv(w) && AcksOk(w) && Stranded(w, d) && Acknowledgeable(w, d, w.clock)
    ensures UnderWay(w, rest) && Lost(Run(w, rest), d)
  {
    var row := w.tables.deliveries[d];
    if AboutToRepair(w, d) {
      var n :| n in w.sweeps && w.sweeps[n].delivery == d && w.sweeps[n].pc.RepairSeen?;
      assert SweepOk(w.tables, w.sweeps[n]);
      rest := [AdvanceSweep(n, true)];
      RunOne(w, AdvanceSweep(n, true));
      RepairLoses(w, n, d, Next(w, AdvanceSweep(n, true)));
      UnderWayWithoutAcks(w, rest);
    } else if HalfFinalized(w.tables, row) {
      var o :| o in w.tables.owners && Delivered(w.tables.owners[o], row.source, row.credential);
      var n := FreshString(w.sweeps.Keys);
      rest := RepairActions(n, d, o, row.expiresAt);
      HalfFinalizedIsLost(w, n, d, o);
      UnderWayWithoutAcks(w, rest);
    } else {
      rest := OwnedIsLost(w, d);
    }
  }

  lemma OwnedIsLost(w: World, d: DeliveryId) returns (rest: seq<Action>)
    requires AcksOk(w) && Stranded(w, d) && Owned(w.tables, w.tables.deliveries[d])
    requires w.clock <= w.tables.deliveries[d].expiresAt || Outstanding(w, d)
    ensures UnderWay(w, rest) && Lost(Run(w, rest), d)
  {
    var o :| o in w.tables.owners && Owns(w.tables.owners[o], w.tables.deliveries[d]);
    if Outstanding(w, d) {
      var n :| n in w.acks && w.acks[n].delivery == d;
      assert AckOk(w.tables, w.acks[n]);
      rest := AckActions(n, o);
      ReadyAckIsLost(w, n, d, o);
      UnderWayWithoutAcks(w, rest);
    } else {
      var n := FreshString(w.acks.Keys);
      rest := ValidatedIsLost(w, n, d, o);
    }
  }

  lemma OneIsUnderWay(w: World, a: Action)
    requires Orderly(w, a) && !a.CheckOperation?
    ensures UnderWay(w, [a])
  {
    assert [a][..0] == [];
  }

  lemma ValidatedIsLost(w: World, n: WorkerId, d: DeliveryId, o: OwnerId) returns (rest: seq<Action>)
    requires AcksOk(w) && Stranded(w, d) && o in w.tables.owners && Owns(w.tables.owners[o], w.tables.deliveries[d])
    requires w.clock <= w.tables.deliveries[d].expiresAt && n !in w.acks
    ensures UnderWay(w, rest) && Lost(Run(w, rest), d)
  {
    var row := w.tables.deliveries[d];
    var validate := Validate(n, Ack(d, o, row.credential, row.source, 0), w.clock);
    var v := Next(w, validate);
    rest := [validate] + AckActions(n, o);
    ValidationMakesReady(w, n, d, o, validate, v);
    ReadyAckIsLost(v, n, d, o);
    RunOne(w, validate);
    OneIsUnderWay(w, validate);
    UnderWayWithoutAcks(v, AckActions(n, o));
    UnderWayAppend(w, [validate], AckActions(n, o));
    RunAppend(w, [validate], AckActions(n, o));
  }

  lemma ValidationMakesReady(w: World, n: WorkerId, d: DeliveryId, o: OwnerId, a: Action, v: World)
    requires AcksOk(w) && Stranded(w, d) && o in w.tables.owners && Owns(w.tables.owners[o], w.tables.deliveries[d])
    requires w.clock <= w.tables.deliveries[d].expiresAt && n !in w.acks
    requires a == Validate(n, Ack(d, o, w.tables.deliveries[d].credential, w.tables.deliveries[d].source, 0), w.clock)
    requires v == Next(w, a)
    ensures Ready(v, n, d, o)
  {
  }

  lemma CarelessCheckLosesKey(w: World, a: Action, v: World) returns (rest: seq<Action>)
    requires Inv(w) && AcksOk(w) && !Careful(w, a) && v == Next(w, a)
    ensures UnderWay(v, rest) && !KeysExist(Run(v, rest))
  {
    var remove := RemoveKey(a.sweep, true);
    var u := Next(v, remove);
    assert v.tables == w.tables && v.acks == w.acks && v.sweeps == w.sweeps;
    RemovalStrands(v, a.sweep, a.id, u);
    UnderWayWithoutAcks(v, [remove]);
    RunOne(v, remove);
    if w.tables.deliveries[a.id].status.Acknowledged? {
      rest := [remove];
    } else {
      var more := StrandedIsLost(u, a.id);
      rest := [remove] + more;
      RunAppend(v, [remove], more);
      UnderWayAppend(v, [remove], more);
    }
    assert Lost(Run(v, rest), a.id);
  }

  lemma {:induction false} RunKeepsAcks(w: World, actions: seq<Action>)
    requires Inv(w) && AcksOk(w)
    ensures Inv(Run(w, actions)) && AcksOk(Run(w, actions))
    decreases |actions|
  {
    if actions != [] {
      var n := |actions| - 1;
      RunKeepsAcks(w, actions[..n]);
      NextKeepsInv(Run(w, actions[..n]), actions[n], Run(w, actions));
      NextKeepsAcks(Run(w, actions[..n]), actions[n], Run(w, actions));
    }
  }

  lemma CarefulRunsKeepKeys(actions: seq<Action>, n: nat, rest: seq<Action>)
    requires OrderlyFrom(EMPTY, actions) && CarefulFrom(EMPTY, actions) && n <= |actions|
    requires UnderWay(Run(EMPTY, actions[..n]), rest)
    ensures KeysExist(Run(EMPTY, actions[..n] + rest))
  {
    var w := Run(EMPTY, actions[..n]);
    RunKeepsRemovals(EMPTY, actions, n);
    forall m | 0 <= m < |rest| ensures Careful(Run(w, rest[..m]), rest[m]) {
      assert rest[m] in rest;
    }
    RunKeepsRemovals(w, rest, |rest|);
    assert rest[..|rest|] == rest;
    RemovalInvKeepsKeys(Run(w, rest));
    RunAppend(EMPTY, actions[..n], rest);
  }

  /**
   For every run with clocks that agree: at each of its moments, and whatever the requests and sweeps
   under way then still do, every acknowledged delivery has its key, exactly when no operation sweep
   passed its check for a delivery that could still be acknowledged.
   */
  lemma KeysExistExactlyWithCarefulChecks(actions: seq<Action>)
    requires OrderlyFrom(EMPTY, actions)
    ensures (forall n: nat, rest: seq<Action> | n <= |actions| && UnderWay(Run(EMPTY, actions[..n]), rest) ::
               KeysExist(Run(EMPTY, actions[..n] + rest)))
            <==> CarefulFrom(EMPTY, actions)
  {
    if CarefulFrom(EMPTY, actions) {
      forall n: nat, rest: seq<Action> | n <= |actions| && UnderWay(Run(EMPTY, actions[..n]), rest)
        ensures KeysExist(Run(EMPTY, actions[..n] + rest))
      {
        CarefulRunsKeepKeys(actions, n, rest);
      }
    } else {
      var n: nat :| n < |actions| && !Careful(Run(EMPTY, actions[..n]), actions[n]);
      var w := Run(EMPTY, actions[..n]);
      RunKeepsAcks(EMPTY, actions[..n]);
      RunStep(EMPTY, actions, n);
      var rest := CarelessCheckLosesKey(w, actions[n], Next(w, actions[n]));
      RunAppend(EMPTY, actions[..n + 1], rest);
      assert n + 1 <= |actions|;
    }
  }

  /**
   A check that answers, of a delivery whose time is over, with no validated ACK and no repair of it
   under way, and nobody holding its key, is careful.
   */
  lemma GuardedCheckIsCareful(w: World, a: Action)
    requires a.CheckOperation? && !a.throws && a.id in w.tables.deliveries
    requires w.tables.deliveries[a.id].expiresAt < Later(w.clock, a.now)
    requires !Outstanding(w, a.id) && !AboutToRepair(w, a.id)
    requires NobodyHolds(w.tables, w.tables.deliveries[a.id].source, w.tables.deliveries[a.id].credential)
    ensures Careful(w, a)
  {
    assert IsAcknowledged(w.tables, a.id) ==> OperationAcknowledged(w.tables, a.id);
  }

  // ---------------------------------------------------------------- a late batch

  const PENDING_ROW := Delivery(Qq, Some("subject"), None, "key", HashOf("token"), Pending, 1, Some("operation"), None)
  const PENDING_OWNER := Owner(Qq, Some("subject"), DeliveryPending, "key", None, NoIdentity)
  const LATE_ACK := Ack("delivery", "owner", "key", Qq, 1)

  const CREATE := CreateDelivery("delivery", "owner", PENDING_ROW, NoIdentity)
  const CHECKED := [CREATE] + [Validate("ack", LATE_ACK, 1)] + [CheckOperation("sweep", "delivery", 2, false)]

  lemma CheckedRun()
    ensures Run(EMPTY, CHECKED)
         == World(Tables(map["delivery" := PENDING_ROW], map["owner" := PENDING_OWNER], []),
                  map[], {}, map["ack" := LATE_ACK], map["sweep" := "delivery"], {}, 2)
  {
    RunOne(EMPTY, CREATE);
    RunSnoc(EMPTY, [CREATE], Validate("ack", LATE_ACK, 1));
    RunSnoc(EMPTY, [CREATE] + [Validate("ack", LATE_ACK, 1)], CheckOperation("sweep", "delivery", 2, false));
  }

  /**
   An ACK validated in time whose batch runs after the operation sweep, checking a delivery whose time
   is over, has removed the key.
   */
  lemma LateAckLosesKey() returns (actions: seq<Action>)
    ensures !KeysExist(Run(EMPTY, actions))
  {
    CheckedRun();
    var w := Run(EMPTY, CHECKED);
    var remove := RemoveKey("sweep", true);
    var u := Next(w, remove);
    actions := CHECKED + ([remove] + AckActions("ack", "owner"));
    RemovalStrands(w, "sweep", "delivery", u);
    RunOne(w, remove);
    ReadyAckIsLost(u, "ack", "delivery", "owner");
    RunAppend(w, [remove], AckActions("ack", "owner"));
    RunAppend(EMPTY, CHECKED, [remove] + AckActions("ack", "owner"));
    assert Lost(Run(EMPTY, actions), "delivery");
  }
}
