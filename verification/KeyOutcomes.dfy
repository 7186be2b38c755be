/**
 What the finalize batch and the delivery sweep leave behind, told from the rows and from what the
 provider answered: in particular, no owner goes whose key the sweep was not told to be gone.
 */
module KeyOutcomes {
  import opened Common
  import opened KeyDelivery

  // ---------------------------------------------------------------- the end of a cleanup

  /** The owner rows the sweep of a delivery is about: those that await or hold its key. */
  predicate HoldsKeyOf(o: Owner, seen: Delivery) {
    o.source == seen.source && o.credential == seen.credential && o.status in {OwnerStatus.DeliveryPending, Active}
  }

  /** The delivery is under the cleanup claim of this time. */
  predicate UnderClaim(t: Tables, d: DeliveryId, now: Time) {
    d in t.deliveries && t.deliveries[d].status == Expired && t.deliveries[d].claim == Some(now)
  }

  /** With the removal confirmed: its owners go, its delivery is expired without a claim, and no other row changes. */
  lemma ConfirmedCleanupEndsDelivery(t: Tables, d: DeliveryId, seen: Delivery, now: Time, u: Tables)
    requires UnderClaim(t, d, now) && u == FinishCleanup(t, d, seen, now, true)
    ensures u.deliveries == t.deliveries[d := t.deliveries[d].(status := Expired, claim := None)] && u.events == t.events
    ensures forall o | o in t.owners :: if HoldsKeyOf(t.owners[o], seen) then o !in u.owners else o in u.owners && u.owners[o] == t.owners[o]
    ensures u.owners.Keys <= t.owners.Keys
  {
  }

  /**
   Without it: every owner stays, those of the key flagged and no longer delivered, and the delivery is to
   be cleaned up.
   */
  lemma UnconfirmedCleanupKeepsOwners(t: Tables, d: DeliveryId, seen: Delivery, now: Time, u: Tables)
    requires UnderClaim(t, d, now) && u == FinishCleanup(t, d, seen, now, false)
    ensures u.deliveries == t.deliveries[d := t.deliveries[d].(status := CleanupRequired, claim := None)] && u.events == t.events
    ensures u.owners.Keys == t.owners.Keys
    ensures forall o | o in t.owners ::
              if HoldsKeyOf(t.owners[o], seen) then
                && u.owners[o].status == OwnerCleanup && u.owners[o].deliveredAt == None
                && u.owners[o].identity == (if t.owners[o].identity in {Issuing, IdentityActive} then IdentityCleanup else t.owners[o].identity)
                && u.owners[o].credential == t.owners[o].credential && u.owners[o].source == t.owners[o].source
                && u.owners[o].subject == t.owners[o].subject
              else u.owners[o] == t.owners[o]
  {
  }

  /** A sweep that lost its claim changes nothing. */
  lemma LostClaimChangesNothing(t: Tables, d: DeliveryId, seen: Delivery, now: Time, cleaned: bool)
    requires !UnderClaim(t, d, now)
    ensures FinishCleanup(t, d, seen, now, cleaned) == t
  {
  }

  // ---------------------------------------------------------------- one sweep

  /** The owner has been handed the key, and its Discord identity is active. */
  predicate HandedOver(t: Tables, source: Source, credential: Credential) {
    && (exists i :: 0 <= i < |t.events| && t.events[i] == Event(source, credential))
    && exists o :: o in t.owners && t.owners[o].source == source && t.owners[o].credential == credential
         && t.owners[o].status == Active && t.owners[o].deliveredAt.Some? && (source == Discord ==> t.owners[o].identity == IdentityActive)
  }

  lemma HandedOverIsFinalized(t: Tables, source: Source, credential: Credential)
    ensures Finalized(t, source, credential) <==> HandedOver(t, source, credential)
  {
    if Finalized(t, source, credential) {
      var o :| o in t.owners && Delivered(t.owners[o], source, credential) && (source.Discord? ==> t.owners[o].identity.IdentityActive?);
      assert t.owners[o].source == source;
    }
    if HandedOver(t, source, credential) {
      var o :| o in t.owners && t.owners[o].source == source && t.owners[o].credential == credential
        && t.owners[o].status == Active && t.owners[o].deliveredAt.Some? && (source == Discord ==> t.owners[o].identity == IdentityActive);
      assert Delivered(t.owners[o], source, credential);
    }
  }

  /** Some owner holds the key as delivered. */
  predicate IsHeld(t: Tables, seen: Delivery) {
    exists o :: o in t.owners && t.owners[o].source == seen.source && t.owners[o].credential == seen.credential
      && t.owners[o].status == Active && t.owners[o].deliveredAt.Some?
  }

  /** The claim of an overdue pending delivery nobody holds, or of one whose claim is still the one that was listed. */
  lemma ClaimIsTaken(t: Tables, d: DeliveryId, seen: Delivery, now: Time)
    requires d in t.deliveries
    ensures seen.status == DeliveryStatus.Pending ==>
              (CanClaim(t, d, seen, now) <==>
                 t.deliveries[d].status == DeliveryStatus.Pending && t.deliveries[d].expiresAt <= now && !IsHeld(t, seen))
    ensures seen.status != DeliveryStatus.Pending ==>
              (CanClaim(t, d, seen, now) <==>
                 t.deliveries[d].status == Expired && t.deliveries[d].claim.Some? && t.deliveries[d].claim == seen.claim)
  {
    if !IsHeld(t, seen) {
      forall o | o in t.owners ensures !Delivered(t.owners[o], seen.source, seen.credential) {}
    }
  }

  /** What the steps of a sweep do, told from its place, the rows and the provider's answer. */
  lemma SweepGoesOn(w: World, k: Sweep, confirmed: bool, v: World, pc: Pc)
    requires (v, pc) == SweepStep(w, k, confirmed)
    ensures v == w.(tables := v.tables, cleaned := v.cleaned)
    ensures k.pc == FirstCheck ==> v == w && pc == if HandedOver(w.tables, k.seen.source, k.seen.credential) then RepairSeen else ClaimCleanup
    ensures k.pc == ClaimCleanup && CanClaim(w.tables, k.delivery, k.seen, k.now) ==>
              && pc == SecondCheck && v.cleaned == w.cleaned && k.delivery in w.tables.deliveries
              && v.tables == w.tables.(deliveries := w.tables.deliveries[k.delivery :=
                                         w.tables.deliveries[k.delivery].(status := Expired, claim := Some(k.now))])
    ensures k.pc == ClaimCleanup && !CanClaim(w.tables, k.delivery, k.seen, k.now) ==> v == w && pc == Done
    ensures k.pc == SecondCheck ==> v == w && pc == if HandedOver(w.tables, k.seen.source, k.seen.credential) then RepairClaimed else CleanKey
    ensures k.pc == CleanKey ==> v.tables == w.tables && v.cleaned == w.cleaned + {k.seen.credential} && pc == Finish(confirmed)
    ensures k.pc.Finish? ==> pc == Done && v.cleaned == w.cleaned && v.tables == FinishCleanup(w.tables, k.delivery, k.seen, k.now, k.pc.cleaned)
    ensures k.pc == Done ==> v == w && pc == Done
  {
    HandedOverIsFinalized(w.tables, k.seen.source, k.seen.credential);
  }

  /** A delivery that was handed over after all is acknowledged, whether it was still pending or under the claim that was listed. */
  lemma HandedOverDeliveryIsAcknowledged(w: World, k: Sweep, confirmed: bool, v: World, pc: Pc)
    requires (v, pc) == SweepStep(w, k, confirmed) && (k.pc == RepairSeen || k.pc == RepairClaimed)
    ensures pc == Done && v.cleaned == w.cleaned && v.tables == w.tables.(deliveries := v.tables.deliveries)
    ensures var d := k.delivery;
            var repaired := d in w.tables.deliveries
              && if k.pc == RepairSeen && k.seen.status == DeliveryStatus.Pending then w.tables.deliveries[d].status == DeliveryStatus.Pending
                 else w.tables.deliveries[d].status == Expired && w.tables.deliveries[d].claim.Some?
                      && w.tables.deliveries[d].claim == (if k.pc == RepairSeen then k.seen.claim else Some(k.now));
            v.tables.deliveries == if repaired then w.tables.deliveries[d := w.tables.deliveries[d].(status := Acknowledged, claim := None)]
                                   else w.tables.deliveries
  {
  }

  /** The first steps of a sweep nobody disturbs, for an overdue delivery whose key nobody holds: it claims and goes on to the key. */
  lemma OverdueDeliveryIsClaimed(w: World, id: WorkerId, d: DeliveryId, now: Time, w1: World, w2: World, w3: World, w4: World)
    requires id !in w.sweeps && d in w.tables.deliveries
    requires var row := w.tables.deliveries[d]; row.status == DeliveryStatus.Pending && row.expiresAt <= now && !IsHeld(w.tables, row)
    requires w1 == Next(w, BeginSweep(id, d, now)) && w2 == Next(w1, AdvanceSweep(id, false))
    requires w3 == Next(w2, AdvanceSweep(id, false)) && w4 == Next(w3, AdvanceSweep(id, false))
    ensures id in w4.sweeps && w4.sweeps[id] == Sweep(d, w.tables.deliveries[d], now, CleanKey)
    ensures w4.cleaned == w.cleaned && w4.sweeps.Keys == w.sweeps.Keys + {id}
    ensures w4.tables == w.tables.(deliveries := w.tables.deliveries[d := w.tables.deliveries[d].(status := Expired, claim := Some(now))])
  {
    var row := w.tables.deliveries[d];
    var k := Sweep(d, row, now, FirstCheck);
    assert w1 == w.(sweeps := w.sweeps[id := k]);
    SweepGoesOn(w1, k, false, SweepStep(w1, k, false).0, SweepStep(w1, k, false).1);
    assert !HandedOver(w1.tables, row.source, row.credential);
    assert w2 == w1.(sweeps := w1.sweeps[id := k.(pc := ClaimCleanup)]);
    ClaimIsTaken(w2.tables, d, row, now);
    SweepGoesOn(w2, k.(pc := ClaimCleanup), false, SweepStep(w2, k.(pc := ClaimCleanup), false).0, SecondCheck);
    assert !HandedOver(w3.tables, row.source, row.credential);
    SweepGoesOn(w3, k.(pc := SecondCheck), false, SweepStep(w3, k.(pc := SecondCheck), false).0, CleanKey);
  }

  /** From the call on: what becomes of the rows turns on whether the provider confirms, and on nothing else. */
  lemma ClaimedKeyIsCleaned(w: World, id: WorkerId, d: DeliveryId, seen: Delivery, now: Time, confirmed: bool, called: World, v: World)
    requires id in w.sweeps && w.sweeps[id] == Sweep(d, seen, now, CleanKey) && UnderClaim(w.tables, d, now)
    requires called == Next(w, AdvanceSweep(id, confirmed)) && v == Next(called, AdvanceSweep(id, false))
    ensures v.cleaned == w.cleaned + {seen.credential} && v.tables == FinishCleanup(w.tables, d, seen, now, confirmed)
    ensures id in v.sweeps && v.sweeps[id].pc == Done
  {
  }

  // ---------------------------------------------------------------- the finalize batch

  /** What the batch makes of the owner it names. */
  function Activated(o: Owner, a: Ack): Owner {
    o.(status := if o.source == a.source && o.credential == a.credential && o.status == OwnerStatus.DeliveryPending then Active else o.status,
       deliveredAt := if o.source == a.source && o.credential == a.credential && o.status == OwnerStatus.DeliveryPending
                      then Some(a.deliveredAt) else o.deliveredAt,
       identity := if a.source == Discord && o.identity == Issuing then IdentityActive else o.identity)
  }

  /** On a pending delivery of the key: its owner is activated and its event kept, and it is acknowledged if that was all it needed. */
  lemma PendingDeliveryIsFinalized(t: Tables, a: Ack, u: Tables)
    requires DeliveryIs(t, a, DeliveryStatus.Pending) && u == Finalize(t, a)
    ensures u.owners == if a.owner in t.owners then t.owners[a.owner := Activated(t.owners[a.owner], a)] else t.owners
    ensures u.events == if exists i :: 0 <= i < |t.events| && t.events[i].credential == a.credential then t.events
                        else t.events + [Event(a.source, a.credential)]
    ensures u.deliveries == if CanAcknowledge(t, a)
                            then t.deliveries[a.delivery := t.deliveries[a.delivery].(status := Acknowledged, claim := None)] else t.deliveries
  {
    BatchAcknowledgesExactly(t, a);
    ActivationIs(t, a, ActivateIdentity(ActivateOwner(t, a), a));
  }

  lemma ActivationIs(t: Tables, a: Ack, v: Tables)
    requires DeliveryIs(t, a, DeliveryStatus.Pending) && v == ActivateIdentity(ActivateOwner(t, a), a)
    ensures v.events == t.events && v.deliveries == t.deliveries
    ensures v.owners == if a.owner in t.owners then t.owners[a.owner := Activated(t.owners[a.owner], a)] else t.owners
  {
    if a.owner in t.owners {
      assert t.owners[a.owner := t.owners[a.owner]] == t.owners;
    }
  }

  /** On an acknowledged one only a lost event comes back, and on any other nothing happens. */
  lemma OtherDeliveriesAreLeftAlone(t: Tables, a: Ack)
    ensures DeliveryIs(t, a, Acknowledged) ==>
              Finalize(t, a) == t.(events := if exists i :: 0 <= i < |t.events| && t.events[i].credential == a.credential then t.events
                                             else t.events + [Event(a.source, a.credential)])
    ensures !DeliveryIs(t, a, Acknowledged) && !DeliveryIs(t, a, DeliveryStatus.Pending) ==> Finalize(t, a) == t
  {
  }

  /** An ACK is validated against its delivery, before or at the end of its time, and against the owner of its key. */
  lemma AckIsValidated(t: Tables, a: Ack, at: Time)
    ensures Validates(t, a, at) <==>
              && a.delivery in t.deliveries && a.owner in t.owners
              && t.deliveries[a.delivery].credential == a.credential && t.deliveries[a.delivery].source == a.source
              && HoldsKeyOf(t.owners[a.owner], t.deliveries[a.delivery])
              && t.deliveries[a.delivery].status in {DeliveryStatus.Pending, Acknowledged}
              && (t.deliveries[a.delivery].status == DeliveryStatus.Pending ==> at <= t.deliveries[a.delivery].expiresAt)
  {
  }

  // ---------------------------------------------------------------- requests and listings

  /** The sweep takes up an overdue pending delivery, or an expired one under a claim that was left. */
  lemma StaleDeliveryIsListed(w: World, id: WorkerId, d: DeliveryId, now: Time)
    requires id !in w.sweeps && d in w.tables.deliveries
    ensures var row := w.tables.deliveries[d];
            Next(w, BeginSweep(id, d, now)) ==
              if (row.status == DeliveryStatus.Pending && row.expiresAt <= now) || (row.status == Expired && row.claim.Some?)
              then w.(sweeps := w.sweeps[id := Sweep(d, row, now, FirstCheck)]) else w
  {
  }

  /** An ACK is taken up exactly when it is valid, its batch runs once, and a resume expires only a pending delivery. */
  lemma RequestsMoveDeliveries(w: World, id: WorkerId, ack: Ack, at: Time, d: DeliveryId)
    ensures id !in w.acks && Validates(w.tables, ack, at) ==>
              var v := Next(w, Validate(id, ack, at));
              v == w.(acks := w.acks[id := ack], clock := v.clock) && v.clock == (if w.clock < at then at else w.clock)
    ensures !Validates(w.tables, ack, at) ==> Next(w, Validate(id, ack, at)) == w
    ensures id in w.acks ==> Next(w, Finalizes(id)) == w.(tables := Finalize(w.tables, w.acks[id]), acks := w.acks - {id})
    ensures d in w.tables.deliveries && w.tables.deliveries[d].status == DeliveryStatus.Pending ==>
              Next(w, ExpireOnResume(d)) == w.(tables := w.tables.(deliveries := w.tables.deliveries[d :=
                                                 w.tables.deliveries[d].(status := Expired, claim := None)]))
    ensures d in w.tables.deliveries && w.tables.deliveries[d].status != DeliveryStatus.Pending ==> Next(w, ExpireOnResume(d)) == w
  {
  }

  /** An owner that is lost goes alone, and so does a worker that dies. */
  lemma OwnersAndWorkersGo(w: World, o: OwnerId, id: WorkerId)
    ensures Next(w, LoseOwner(o)) == w.(tables := w.tables.(owners := w.tables.owners - {o}))
    ensures Next(w, AbandonAck(id)) == w.(acks := w.acks - {id}) && Next(w, CrashSweep(id)) == w.(sweeps := w.sweeps - {id})
  {
  }

  // ---------------------------------------------------------------- the operation sweep

  /** Some delivery of the same operation is acknowledged. */
  predicate SiblingAcknowledged(t: Tables, d: DeliveryId)
    requires d in t.deliveries
  {
    exists e :: e in t.deliveries && t.deliveries[e].status == Acknowledged && t.deliveries[e].operation == t.deliveries[d].operation
  }

  lemma OperationIsChecked(t: Tables, d: DeliveryId)
    requires d in t.deliveries
    ensures OperationAcknowledged(t, d) <==> SiblingAcknowledged(t, d)
  {
    if SiblingAcknowledged(t, d) {
      var e :| e in t.deliveries && t.deliveries[e].status == Acknowledged && t.deliveries[e].operation == t.deliveries[d].operation;
      assert IsAcknowledged(t, e);
    }
  }

  lemma CheckPasses(w: World, id: WorkerId, d: DeliveryId, now: Time, throws: bool, checked: World)
    requires id !in w.operationSweeps && d in w.tables.deliveries && w.tables.deliveries[d].operation.Some?
    requires checked == Next(w, CheckOperation(id, d, now, throws))
    ensures checked == w.(operationSweeps := if throws || !SiblingAcknowledged(w.tables, d) then w.operationSweeps[id := d] else w.operationSweeps,
                          clock := if w.clock < now then now else w.clock)
  {
    OperationIsChecked(w.tables, d);
  }

  /** It removes the key of its delivery exactly when it saw no acknowledged delivery of the operation, or saw nothing. */
  lemma OperationSweepRemoves(w: World, id: WorkerId, d: DeliveryId, now: Time, throws: bool, effective: bool, checked: World, v: World)
    requires id !in w.operationSweeps && d in w.tables.deliveries && w.tables.deliveries[d].operation.Some?
    requires checked == Next(w, CheckOperation(id, d, now, throws)) && v == Next(checked, RemoveKey(id, effective))
    ensures v == w.(clock := v.clock,
                    removed := if effective && (throws || !SiblingAcknowledged(w.tables, d))
                               then w.removed + {w.tables.deliveries[d].credential} else w.removed)
  {
    CheckPasses(w, id, d, now, throws, checked);
  }

  /** A delivery without an operation is not checked at all. */
  lemma OtherDeliveriesAreNotChecked(w: World, id: WorkerId, d: DeliveryId, now: Time, throws: bool)
    requires d !in w.tables.deliveries || w.tables.deliveries[d].operation.None?
    ensures Next(w, CheckOperation(id, d, now, throws)).operationSweeps == w.operationSweeps
  {
  }

  // ---------------------------------------------------------------- no owner goes whose key is not known to be gone

  /** Some earlier step of this run told the sweep that the provider had removed the key. */
  ghost predicate ToldRemoved(actions: seq<Action>, id: WorkerId, credential: Credential) {
    exists m :: 0 <= m < |actions| && actions[m] == AdvanceSweep(id, true) && IsCleaning(Run(EMPTY, actions[..m]), id, credential)
  }

  /** The sweep is at its call to the provider, about this key. */
  predicate IsCleaning(w: World, id: WorkerId, credential: Credential) {
    id in w.sweeps && w.sweeps[id].pc == CleanKey && w.sweeps[id].seen.credential == credential
  }

  lemma ToldStays(actions: seq<Action>, n: nat, id: WorkerId, credential: Credential)
    requires n <= |actions| && ToldRemoved(actions[..n], id, credential)
    ensures ToldRemoved(actions, id, credential)
  {
    var m :| 0 <= m < n && actions[..n][m] == AdvanceSweep(id, true) && IsCleaning(Run(EMPTY, actions[..n][..m]), id, credential);
    assert actions[..n][..m] == actions[..m];
  }

  /** A sweep reaches its confirmed end only from its call, with a confirming answer. */
  lemma ConfirmedEndIsReached(w: World, a: Action, v: World, id: WorkerId)
    requires v == Next(w, a) && id in v.sweeps && v.sweeps[id].pc == Finish(true)
    ensures id in w.sweeps
    ensures || (w.sweeps[id].pc == Finish(true) && w.sweeps[id].seen == v.sweeps[id].seen)
            || (a == AdvanceSweep(id, true) && IsCleaning(w, id, v.sweeps[id].seen.credential))
  {
    if a.AdvanceSweep? && a.sweep == id && id in w.sweeps {
      var (u, pc) := SweepStep(w, w.sweeps[id], a.confirmed);
      HandedOverIsFinalized(w.tables, w.sweeps[id].seen.source, w.sweeps[id].seen.credential);
    }
  }

  lemma {:induction false} ConfirmedEndWasTold(actions: seq<Action>, id: WorkerId)
    requires id in Run(EMPTY, actions).sweeps && Run(EMPTY, actions).sweeps[id].pc == Finish(true)
    ensures ToldRemoved(actions, id, Run(EMPTY, actions).sweeps[id].seen.credential)
    decreases |actions|
  {
    var n := |actions| - 1;
    var w, v := Run(EMPTY, actions[..n]), Run(EMPTY, actions);
    ConfirmedEndIsReached(w, actions[n], v, id);
    if w.sweeps[id].pc == Finish(true) {
      ConfirmedEndWasTold(actions[..n], id);
      ToldStays(actions, n, id, v.sweeps[id].seen.credential);
    } else {
      assert actions[n] == AdvanceSweep(id, true) && IsCleaning(Run(EMPTY, actions[..n]), id, v.sweeps[id].seen.credential);
    }
  }

  /** The delivery is over: expired, and under nobody's claim. */
  predicate IsOver(t: Tables, d: DeliveryId) {
    d in t.deliveries && t.deliveries[d].status == Expired && t.deliveries[d].claim == None
  }

  /** What the end of a cleanup takes away, and ends, it does confirmed. */
  lemma CleanupTakesConfirmed(t: Tables, d: DeliveryId, seen: Delivery, now: Time, cleaned: bool, u: Tables, o: OwnerId, e: DeliveryId)
    requires u == FinishCleanup(t, d, seen, now, cleaned)
    ensures o in t.owners && o !in u.owners ==> cleaned && HoldsKeyOf(t.owners[o], seen)
    ensures IsOver(u, e) && !IsOver(t, e) ==> cleaned && e == d
  {
    if !UnderClaim(t, d, now) {
      LostClaimChangesNothing(t, d, seen, now, cleaned);
    } else if cleaned {
      ConfirmedCleanupEndsDelivery(t, d, seen, now, u);
    } else {
      UnconfirmedCleanupKeepsOwners(t, d, seen, now, u);
    }
  }

  /** And so it is of every step of a sweep. */
  lemma SweepTakesConfirmed(w: World, k: Sweep, confirmed: bool, u: Tables, o: OwnerId, e: DeliveryId)
    requires u == SweepStep(w, k, confirmed).0.tables
    ensures o in w.tables.owners && o !in u.owners ==> k.pc == Finish(true) && HoldsKeyOf(w.tables.owners[o], k.seen)
    ensures IsOver(u, e) && !IsOver(w.tables, e) ==> k.pc == Finish(true) && e == k.delivery
  {
    match k.pc
    case Finish(cleaned) => CleanupTakesConfirmed(w.tables, k.delivery, k.seen, k.now, cleaned, u, o, e);
    case _ =>
  }

  /** A step that takes an owner away is the owner's loss, or the confirmed end of a sweep of its key. */
  lemma OwnerGoesBy(w: World, a: Action, v: World, o: OwnerId)
    requires v == Next(w, a) && o in w.tables.owners && o !in v.tables.owners
    ensures || a == LoseOwner(o)
            || (a.AdvanceSweep? && a.sweep in w.sweeps && w.sweeps[a.sweep].pc == Finish(true)
                && HoldsKeyOf(w.tables.owners[o], w.sweeps[a.sweep].seen))
  {
    if a.AdvanceSweep? && a.sweep in w.sweeps {
      SweepTakesConfirmed(w, w.sweeps[a.sweep], a.confirmed, v.tables, o, "");
    } else if a.Finalizes? && a.request in w.acks {
      FinalizeKeepsOwners(w.tables, w.acks[a.request]);
    }
  }

  lemma FinalizeKeepsOwners(t: Tables, a: Ack)
    ensures Finalize(t, a).owners.Keys == t.owners.Keys
  {
  }

  /**
   In every run, whatever interleaves: an owner goes only because its issue or operation takes it back, or
   through a sweep of its key which the provider had told that the key is gone.
   */
  lemma OwnersGoOnlyAfterTheirKey(actions: seq<Action>, a: Action, o: OwnerId)
    requires var w := Run(EMPTY, actions); o in w.tables.owners && o !in Next(w, a).tables.owners
    ensures a == LoseOwner(o) || (a.AdvanceSweep? && ToldRemoved(actions, a.sweep, Run(EMPTY, actions).tables.owners[o].credential))
  {
    var w := Run(EMPTY, actions);
    OwnerGoesBy(w, a, Next(w, a), o);
    if a != LoseOwner(o) { ConfirmedEndWasTold(actions, a.sweep); }
  }

  lemma DeliveryEndsBy(w: World, a: Action, v: World, d: DeliveryId)
    requires v == Next(w, a) && d in w.tables.deliveries && IsOver(v.tables, d) && !IsOver(w.tables, d)
    ensures a == ExpireOnResume(d)
            || (a.AdvanceSweep? && a.sweep in w.sweeps && w.sweeps[a.sweep].pc == Finish(true) && w.sweeps[a.sweep].delivery == d)
  {
    if a.AdvanceSweep? && a.sweep in w.sweeps {
      SweepTakesConfirmed(w, w.sweeps[a.sweep], a.confirmed, v.tables, "", d);
    } else if a.Finalizes? && a.request in w.acks {
      FinalizeDeliveries(w.tables, w.acks[a.request]);
    }
  }

  /** And a delivery is over only after a resume expired it, or once the provider had told its sweep that the key is gone. */
  lemma DeliveriesEndOnlyAfterTheirKey(actions: seq<Action>, a: Action, d: DeliveryId)
    requires var w := Run(EMPTY, actions); d in w.tables.deliveries && IsOver(Next(w, a).tables, d) && !IsOver(w.tables, d)
    ensures a == ExpireOnResume(d) || (a.AdvanceSweep? && ToldRemoved(actions, a.sweep, Run(EMPTY, actions).tables.deliveries[d].credential))
  {
    var w := Run(EMPTY, actions);
    DeliveryEndsBy(w, a, Next(w, a), d);
    if a != ExpireOnResume(d) {
      ConfirmedEndWasTold(actions, a.sweep);
      RunKeepsInv(EMPTY, actions);
      assert SweepOk(w.tables, w.sweeps[a.sweep]);
    }
  }
}
