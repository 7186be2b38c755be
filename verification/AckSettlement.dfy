/**
 The whole acknowledgement of a delivered key: the finalize batch with the settlement job it inserts,
 the repair of missing jobs, the checks after the batch that can still refuse, and the endpoint.

 The job table is unique by reward and by delivery.  The batch tolerates a conflict on the reward only,
 and the repair swallows its errors, so a delivery settles at most one reward.
 */
module AckSettlement {
  import opened Common
  import opened KeyDelivery
  import R = ReferralRewards

  /** managed_referral_settlement_jobs: the delivery of each reward's job, if it names one. */
  type Jobs = map<R.RewardId, Option<DeliveryId>>

  datatype Desk = Desk(tables: Tables, ledger: R.Ledger, jobs: Jobs)

  /** What a finalize call has read before its batch: whose rewards the key settles, besides the rest. */
  datatype Finalization = Finalization(ack: Ack, person: R.Person, installation: Option<string>)

  function PersonOf(source: Source, subject: string): R.Person {
    R.Person(if source.Discord? then R.Discord else R.Qq, subject)
  }

  function ReservedOf(l: R.Ledger, person: R.Person, installation: Option<string>): set<R.RewardId> {
    set r | r in l && l[r].referredBonus.Reserved? && l[r].referred == person && l[r].installation == installation
  }

  /** The reserved rewards of the call that have no job at all. */
  function Missing(desk: Desk, f: Finalization): set<R.RewardId> {
    ReservedOf(desk.ledger, f.person, f.installation) - desk.jobs.Keys
  }

  predicate NotAfter(l: R.Ledger, q: R.RewardId, r: R.RewardId)
    requires q in l && r in l
  {
    l[q].createdAt < l[r].createdAt || (l[q].createdAt == l[r].createdAt && q <= r)
  }

  /** The inner SELECT: the newest reserved reward by time and id. */
  predicate Selects(l: R.Ledger, f: Finalization, c: Option<R.RewardId>) {
    var reserved := ReservedOf(l, f.person, f.installation);
    match c
    case None => reserved == {}
    case Some(r) => r in reserved && forall q | q in reserved :: NotAfter(l, q, r)
  }

  /** The delivery has a job. */
  predicate Taken(jobs: Jobs, d: DeliveryId) {
    exists r :: r in jobs && jobs[r] == Some(d)
  }

  /** The join's condition on the delivery row, for the rewards of the call. */
  predicate Joined(t: Tables, f: Finalization) {
    && DeliveryIs(t, f.ack, Acknowledged)
    && var row := t.deliveries[f.ack.delivery];
       row.source == f.ack.source && row.subject == Some(f.person.subject) && row.installation == f.installation
  }

  /** The last statement of the batch; no result when it fails on the unique delivery column. */
  function InsertJob(jobs: Jobs, t: Tables, f: Finalization, c: Option<R.RewardId>): Option<Jobs> {
    if c.None? || !Joined(t, f) || c.value in jobs then Some(jobs)
    else if Taken(jobs, f.ack.delivery) then None
    else Some(jobs[c.value := Some(f.ack.delivery)])
  }

  /** The whole batch, which a failing statement rolls back. */
  function Batch(desk: Desk, f: Finalization, c: Option<R.RewardId>): Option<Desk> {
    var t := Finalize(desk.tables, f.ack);
    match InsertJob(desk.jobs, t, f, c)
    case None => None
    case Some(jobs) => Some(Desk(t, desk.ledger, jobs))
  }

  /** The rewards ensureReferralSettlementJobsForDelivery has to insert a job for. */
  function Unserved(desk: Desk, d: DeliveryId, source: Source): set<R.RewardId> {
    if d in desk.tables.deliveries && desk.tables.deliveries[d].source == source
       && desk.tables.deliveries[d].status.Acknowledged? && desk.tables.deliveries[d].subject.Some?
    then
      var row := desk.tables.deliveries[d];
      ReservedOf(desk.ledger, PersonOf(source, row.subject.value), row.installation) - desk.jobs.Keys
    else {}
  }

  /** One INSERT ... SELECT for one delivery: more than one new row, or a job already, and it changes nothing. */
  function Repair(desk: Desk, d: DeliveryId, source: Source): Desk {
    var unserved := Unserved(desk, d, source);
    if |unserved| != 1 || Taken(desk.jobs, d) then desk
    else desk.(jobs := desk.jobs + map r | r in unserved :: Some(d))
  }

  /** The check after the batch, for one owner of the key. */
  predicate SettledBy(desk: Desk, d: DeliveryId, source: Source, o: OwnerId) {
    && IsAcknowledged(desk.tables, d)
    && o in desk.tables.owners
    && var row, owner := desk.tables.deliveries[d], desk.tables.owners[o];
       && Delivered(owner, source, row.credential)
       && (source.Discord? ==> owner.identity.IdentityActive?)
       && Event(source, row.credential) in desk.tables.events
       && (owner.subject.Some? ==>
             forall r | r in ReservedOf(desk.ledger, PersonOf(source, owner.subject.value), row.installation) ::
               r in desk.jobs && desk.jobs[r] == Some(d))
  }

  predicate Settled(desk: Desk, d: DeliveryId, source: Source) {
    exists o :: o in desk.tables.owners && SettledBy(desk, d, source, o)
  }

  /** Which of the queries after the batch throw. */
  datatype Trouble = Trouble(check: bool, repair: bool, recheck: bool, unsettled: bool)

  const NO_TROUBLE := Trouble(false, false, false, false)

  /** The rest of a finalize call: repair unless all is settled, and refuse rewards left without a job. */
  function Concluded(desk: Desk, f: Finalization, trouble: Trouble): (Desk, bool) {
    var d, source := f.ack.delivery, f.ack.source;
    if source.Qq? && trouble.check then (desk, false)
    else
      var settled := !trouble.check && Settled(desk, d, source);
      var after := if settled || trouble.repair then desk else Repair(desk, d, source);
      var again := (settled && source.Qq?) || (!trouble.recheck && Settled(after, d, source));
      (after, again || trouble.unsettled || Missing(after, f) == {})
  }

  /** A finalize call up to the activation of its operation: what it leaves, and whether it goes on. */
  function Call(desk: Desk, f: Finalization, c: Option<R.RewardId>, trouble: Trouble): (Desk, bool) {
    match Batch(desk, f, c)
    case None => (desk, false)
    case Some(u) => Concluded(u, f, trouble)
  }

  // ---------------------------------------------------------------- the selected reward

  lemma {:induction false} NewestExists(l: R.Ledger, s: set<R.RewardId>) returns (r: R.RewardId)
    requires s <= l.Keys && s != {}
    ensures r in s && forall q | q in s :: NotAfter(l, q, r)
    decreases |s|
  {
    r :| r in s;
    if s != {r} {
      var best := NewestExists(l, s - {r});
      if NotAfter(l, r, best) { r := best; }
      assert s == s - {r} + {r};
    }
  }

  /** The inner SELECT has exactly one answer. */
  lemma SelectsExactlyOne(l: R.Ledger, f: Finalization)
    ensures exists c :: Selects(l, f, c)
    ensures forall c, e | Selects(l, f, c) && Selects(l, f, e) :: c == e
  {
    var reserved := ReservedOf(l, f.person, f.installation);
    if reserved == {} {
      assert Selects(l, f, None);
    } else {
      var r := NewestExists(l, reserved);
      assert Selects(l, f, Some(r));
    }
    forall c, e | Selects(l, f, c) && Selects(l, f, e) ensures c == e {
      if c.Some? && e.Some? {
        assert NotAfter(l, c.value, e.value) && NotAfter(l, e.value, c.value);
      }
    }
  }

  // ---------------------------------------------------------------- which reward gets the job

  /** The rewards reserved for a person on an installation. */
  predicate ReservedFor(l: R.Ledger, person: R.Person, installation: Option<string>, r: R.RewardId) {
    r in l && l[r].referredBonus == R.Reserved && l[r].referred == person && l[r].installation == installation
  }

  /** The batch's SELECT finds the newest of them, and the later id of two as new. */
  lemma NewestIsSelected(l: R.Ledger, f: Finalization, c: Option<R.RewardId>)
    requires Selects(l, f, c)
    ensures c.None? ==> forall r :: !ReservedFor(l, f.person, f.installation, r)
    ensures c.Some? ==>
              && ReservedFor(l, f.person, f.installation, c.value)
              && forall r: R.RewardId | ReservedFor(l, f.person, f.installation, r) && r != c.value ::
                   l[r].createdAt < l[c.value].createdAt || (l[r].createdAt == l[c.value].createdAt && r < c.value)
  {
    forall r | ReservedFor(l, f.person, f.installation, r) ensures r in ReservedOf(l, f.person, f.installation) {}
  }

  /** The delivery is acknowledged, for this key, person and installation. */
  predicate AcknowledgedFor(t: Tables, f: Finalization) {
    && f.ack.delivery in t.deliveries
    && var row := t.deliveries[f.ack.delivery];
       && row.status == Acknowledged && row.credential == f.ack.credential && row.source == f.ack.source
       && row.subject == Some(f.person.subject) && row.installation == f.installation
  }

  /**
   The batch gives that reward its job once the delivery is acknowledged; a reward that has one keeps it,
   and a delivery that has one already undoes the whole batch.
   */
  lemma BatchServesNewest(desk: Desk, f: Finalization, c: Option<R.RewardId>, t: Tables)
    requires t == Finalize(desk.tables, f.ack)
    ensures var d := f.ack.delivery;
            var due := c.Some? && AcknowledgedFor(t, f) && c.value !in desk.jobs;
            var taken := exists r :: r in desk.jobs && desk.jobs[r] == Some(d);
            && (due && taken ==> Batch(desk, f, c) == None)
            && (due && !taken ==> Batch(desk, f, c) == Some(Desk(t, desk.ledger, desk.jobs[c.value := Some(d)])))
            && (!due ==> Batch(desk, f, c) == Some(Desk(t, desk.ledger, desk.jobs)))
  {
  }

  /** The repair gives a job to the one reward that lacks it, for an acknowledged delivery without a job. */
  lemma RepairServesTheOne(desk: Desk, d: DeliveryId, source: Source, r: R.RewardId, person: R.Person)
    requires d in desk.tables.deliveries && desk.tables.deliveries[d].subject.Some?
    requires person == R.Person(if source == Discord then R.Discord else R.Qq, desk.tables.deliveries[d].subject.value)
    requires ReservedFor(desk.ledger, person, desk.tables.deliveries[d].installation, r) && r !in desk.jobs
    ensures var row := desk.tables.deliveries[d];
            var alone := forall q | ReservedFor(desk.ledger, person, row.installation, q) && q !in desk.jobs :: q == r;
            var taken := exists q :: q in desk.jobs && desk.jobs[q] == Some(d);
            Repair(desk, d, source) ==
              if row.status == Acknowledged && row.source == source && alone && !taken then desk.(jobs := desk.jobs[r := Some(d)]) else desk
  {
    var row, unserved := desk.tables.deliveries[d], Unserved(desk, d, source);
    if row.status == Acknowledged && row.source == source {
      forall q | ReservedFor(desk.ledger, person, row.installation, q) && q !in desk.jobs ensures q in unserved {}
      SingletonExactly(unserved, r);
      if unserved == {r} { assert desk.jobs[r := Some(d)] == desk.jobs + map x | x in unserved :: Some(d); }
    }
  }

  lemma SingletonExactly(s: set<R.RewardId>, x: R.RewardId)
    requires x in s
    ensures (|s| == 1 <==> s == {x}) && (s == {x} <==> forall q | q in s :: q == x)
  {
    assert s == {x} + (s - {x});
    if forall q | q in s :: q == x { assert s == {x}; }
  }

  lemma OneHasMember(s: set<R.RewardId>)
    ensures |s| == 1 ==> exists r :: r in s
  {
    if s != {} { var r :| r in s; }
  }

  lemma UnservedAreReserved(desk: Desk, d: DeliveryId, source: Source)
    requires d in desk.tables.deliveries && desk.tables.deliveries[d].subject.Some?
    ensures forall r | r in Unserved(desk, d, source) ::
              && r !in desk.jobs
              && ReservedFor(desk.ledger, R.Person(if source == Discord then R.Discord else R.Qq, desk.tables.deliveries[d].subject.value),
                             desk.tables.deliveries[d].installation, r)
  {
  }

  /** And none where there is no such reward, or no acknowledged delivery of this source with a subject. */
  lemma RepairServesNoOther(desk: Desk, d: DeliveryId, source: Source)
    requires d !in desk.tables.deliveries || desk.tables.deliveries[d].subject.None?
             || desk.tables.deliveries[d].status != Acknowledged || desk.tables.deliveries[d].source != source
             || forall r | ReservedFor(desk.ledger, R.Person(if source == Discord then R.Discord else R.Qq, desk.tables.deliveries[d].subject.value),
                                       desk.tables.deliveries[d].installation, r) :: r in desk.jobs
    ensures Repair(desk, d, source) == desk
  {
    OneHasMember(Unserved(desk, d, source));
    if d in desk.tables.deliveries && desk.tables.deliveries[d].subject.Some? { UnservedAreReserved(desk, d, source); }
  }

  // ---------------------------------------------------------------- when the ACK is refused for its rewards

  /** The rows agree on whose delivery it is, as they do when issuing wrote them. */
  predicate Agrees(desk: Desk, f: Finalization) {
    var t := desk.tables;
    && f.ack.delivery in t.deliveries && f.ack.owner in t.owners
    && (forall o | o in t.owners && t.owners[o].credential == f.ack.credential :: o == f.ack.owner)
    && var row, owner := t.deliveries[f.ack.delivery], t.owners[f.ack.owner];
       && row.source == f.ack.source && row.credential == f.ack.credential
       && f.person == PersonOf(f.ack.source, f.person.subject)
       && row.subject == Some(f.person.subject) && owner.subject == Some(f.person.subject)
       && row.installation == f.installation
  }

  predicate SameOwners(before: map<OwnerId, Owner>, after: map<OwnerId, Owner>) {
    && after.Keys == before.Keys
    && forall o | o in before :: after[o].credential == before[o].credential && after[o].subject == before[o].subject
  }

  lemma ActivationKeepsOwners(t: Tables, a: Ack)
    ensures SameOwners(t.owners, ActivateOwner(t, a).owners) && SameOwners(t.owners, ActivateIdentity(t, a).owners)
  {
  }

  lemma FinalizeKeepsOwners(t: Tables, a: Ack)
    ensures SameOwners(t.owners, Finalize(t, a).owners)
  {
    var u := ActivateOwner(t, a);
    ActivationKeepsOwners(t, a);
    ActivationKeepsOwners(u, a);
    LaterStatementsKeepOwners(ActivateIdentity(u, a), a);
  }

  lemma LaterStatementsKeepOwners(v: Tables, a: Ack)
    ensures AcknowledgeDelivery(InsertEvent(v, a), a).owners == v.owners
  {
  }

  lemma BatchKeepsAgrees(desk: Desk, f: Finalization, t: Tables)
    requires Agrees(desk, f) && t == Finalize(desk.tables, f.ack)
    ensures forall jobs :: Agrees(Desk(t, desk.ledger, jobs), f)
    ensures Joined(t, f) <==> DeliveryIs(t, f.ack, Acknowledged)
  {
    FinalizeDeliveries(desk.tables, f.ack);
    FinalizeKeepsOwners(desk.tables, f.ack);
  }

  lemma SettledMeansNoneMissing(desk: Desk, f: Finalization)
    requires Agrees(desk, f) && Settled(desk, f.ack.delivery, f.ack.source)
    ensures Missing(desk, f) == {}
  {
    var o :| o in desk.tables.owners && SettledBy(desk, f.ack.delivery, f.ack.source, o);
    assert o == f.ack.owner;
  }

  lemma RepairKeepsAgrees(desk: Desk, f: Finalization, v: Desk)
    requires Agrees(desk, f) && v == Repair(desk, f.ack.delivery, f.ack.source)
    ensures Agrees(v, f)
  {
  }

  /** The call is accepted exactly when no reserved reward is left without a job, or nobody could see it. */
  lemma AcceptedExactly(desk: Desk, f: Finalization, trouble: Trouble)
    requires Agrees(desk, f)
    ensures var (v, accepted) := Concluded(desk, f, trouble);
            accepted <==> !(f.ack.source.Qq? && trouble.check) && (trouble.unsettled || Missing(v, f) == {})
  {
    var d, source := f.ack.delivery, f.ack.source;
    if !(source.Qq? && trouble.check) {
      var repaired := Repair(desk, d, source);
      RepairKeepsAgrees(desk, f, repaired);
      if Settled(desk, d, source) { SettledMeansNoneMissing(desk, f); }
      if Settled(repaired, d, source) { SettledMeansNoneMissing(repaired, f); }
    }
  }

  /** After the batch the repair is made, unless it throws or the first check of the QQ path does. */
  lemma ConclusionRepairs(desk: Desk, f: Finalization, trouble: Trouble)
    requires Agrees(desk, f)
    ensures Concluded(desk, f, trouble).0 ==
              if (f.ack.source == Qq && trouble.check) || trouble.repair then desk else Repair(desk, f.ack.delivery, f.ack.source)
  {
    var d, source := f.ack.delivery, f.ack.source;
    if Settled(desk, d, source) {
      SettledMeansNoneMissing(desk, f);
      assert Unserved(desk, d, source) <= Missing(desk, f);
    }
  }

  /** How many jobs the delivery may still get. */
  function RoomFor(jobs: Jobs, t: Tables, a: Ack): nat {
    if DeliveryIs(t, a, Acknowledged) && !Taken(jobs, a.delivery) then 1 else 0
  }

  lemma NoneMissingAfterRepair(desk: Desk, f: Finalization)
    requires Agrees(desk, f)
    ensures Missing(Repair(desk, f.ack.delivery, f.ack.source), f) == {}
            <==> |Missing(desk, f)| <= RoomFor(desk.jobs, desk.tables, f.ack)
  {
    var d, source := f.ack.delivery, f.ack.source;
    var missing := Missing(desk, f);
    if IsAcknowledged(desk.tables, d) {
      assert Unserved(desk, d, source) == missing;
      if |missing| == 1 && !Taken(desk.jobs, d) {
        assert Missing(Repair(desk, d, source), f) == {};
      }
    }
  }

  lemma InsertedJob(desk: Desk, u: Desk, f: Finalization, r: R.RewardId)
    requires r in Missing(desk, f) && u.ledger == desk.ledger && u.jobs == desk.jobs[r := Some(f.ack.delivery)]
    ensures Missing(u, f) == Missing(desk, f) - {r} && |Missing(u, f)| == |Missing(desk, f)| - 1
    ensures Taken(u.jobs, f.ack.delivery)
  {
    assert u.jobs[r] == Some(f.ack.delivery);
    assert Missing(u, f) == Missing(desk, f) - {r};
  }

  /** The batch spends the room it finds on the selected reward, and rolls back where there is none. */
  lemma BatchSpendsRoom(desk: Desk, f: Finalization, c: Option<R.RewardId>)
    requires Agrees(desk, f) && Selects(desk.ledger, f, c)
    ensures var t := Finalize(desk.tables, f.ack);
            var room := RoomFor(desk.jobs, t, f.ack);
            match Batch(desk, f, c)
            case None => |Missing(desk, f)| > room
            case Some(u) => |Missing(u, f)| <= RoomFor(u.jobs, u.tables, f.ack) <==> |Missing(desk, f)| <= room
  {
    var t := Finalize(desk.tables, f.ack);
    BatchKeepsAgrees(desk, f, t);
    if c.Some? && Joined(t, f) && c.value !in desk.jobs {
      assert c.value in Missing(desk, f);
      if !Taken(desk.jobs, f.ack.delivery) {
        InsertedJob(desk, Batch(desk, f, c).value, f, c.value);
      }
    }
  }

  /**
   With every query answering, an ACK is refused for its rewards, batch rolled back or not, exactly
   when more reserved rewards lack a job than the delivery may still have: one once it is
   acknowledged and has none, else none.
   */
  lemma RefusedExactlyWithoutRoom(desk: Desk, f: Finalization, c: Option<R.RewardId>)
    requires Agrees(desk, f) && Selects(desk.ledger, f, c)
    ensures Call(desk, f, c, NO_TROUBLE).1
            <==> |Missing(desk, f)| <= RoomFor(desk.jobs, Finalize(desk.tables, f.ack), f.ack)
  {
    BatchSpendsRoom(desk, f, c);
    if Batch(desk, f, c).Some? {
      var u := Batch(desk, f, c).value;
      BatchKeepsAgrees(desk, f, u.tables);
      AcceptedExactly(u, f, NO_TROUBLE);
      NoneMissingAfterRepair(u, f);
      if Settled(u, f.ack.delivery, f.ack.source) { SettledMeansNoneMissing(u, f); }
    }
  }

  lemma RefusedRepairDoesNothing(desk: Desk, f: Finalization)
    requires Agrees(desk, f) && !Concluded(desk, f, NO_TROUBLE).1
    ensures Concluded(desk, f, NO_TROUBLE).0 == desk
    ensures |Missing(desk, f)| > RoomFor(desk.jobs, desk.tables, f.ack)
  {
    AcceptedExactly(desk, f, NO_TROUBLE);
    NoneMissingAfterRepair(desk, f);
    if Settled(desk, f.ack.delivery, f.ack.source) { SettledMeansNoneMissing(desk, f); }
  }

  /** A call refused for its rewards is refused again, and again, until other writers change the rows. */
  lemma RefusalStands(desk: Desk, f: Finalization, c: Option<R.RewardId>)
    requires Agrees(desk, f) && Selects(desk.ledger, f, c) && !Call(desk, f, c, NO_TROUBLE).1
    ensures Call(Call(desk, f, c, NO_TROUBLE).0, f, c, NO_TROUBLE) == (Call(desk, f, c, NO_TROUBLE).0, false)
  {
    if Batch(desk, f, c).Some? {
      var u := Batch(desk, f, c).value;
      BatchKeepsAgrees(desk, f, u.tables);
      BatchIsIdempotent(desk, f, c);
      RefusedRepairDoesNothing(u, f);
    }
  }

  // ---------------------------------------------------------------- within the caps of the ledger

  /** No delivery has two jobs: the schema's second unique column. */
  ghost predicate OneJobEach(jobs: Jobs) {
    forall q, r | q in jobs && r in jobs && jobs[q].Some? && jobs[q] == jobs[r] :: q == r
  }

  lemma NewJobIsUnique(jobs: Jobs, more: map<R.RewardId, Option<DeliveryId>>, d: DeliveryId)
    requires OneJobEach(jobs) && !Taken(jobs, d)
    requires forall q, r | q in more && r in more :: q == r && more[q] == Some(d)
    ensures OneJobEach(jobs + more)
  {
  }

  lemma InsertKeepsUnique(jobs: Jobs, t: Tables, f: Finalization, c: Option<R.RewardId>)
    requires OneJobEach(jobs) && InsertJob(jobs, t, f, c).Some?
    ensures OneJobEach(InsertJob(jobs, t, f, c).value)
  {
    var after := InsertJob(jobs, t, f, c).value;
    if after != jobs {
      NewJobIsUnique(jobs, map[c.value := Some(f.ack.delivery)], f.ack.delivery);
      assert after == jobs + map[c.value := Some(f.ack.delivery)];
    }
  }

  lemma ConclusionIsRepair(desk: Desk, f: Finalization, trouble: Trouble)
    ensures Concluded(desk, f, trouble).0 in {desk, Repair(desk, f.ack.delivery, f.ack.source)}
  {
  }

  /** Every call keeps it. */
  lemma JobsStayUnique(desk: Desk, f: Finalization, c: Option<R.RewardId>, trouble: Trouble)
    requires OneJobEach(desk.jobs)
    ensures OneJobEach(Call(desk, f, c, trouble).0.jobs)
  {
    var t := Finalize(desk.tables, f.ack);
    if InsertJob(desk.jobs, t, f, c).Some? {
      InsertKeepsUnique(desk.jobs, t, f, c);
      var u := Batch(desk, f, c).value;
      RepairedJobsAreUnique(u, f.ack.delivery, f.ack.source);
      ConclusionIsRepair(u, f, trouble);
    }
  }

  lemma RepairedJobsAreUnique(desk: Desk, d: DeliveryId, source: Source)
    requires OneJobEach(desk.jobs)
    ensures OneJobEach(Repair(desk, d, source).jobs)
  {
    var unserved := Unserved(desk, d, source);
    if |unserved| == 1 && !Taken(desk.jobs, d) {
      var x :| x in unserved;
      assert unserved == {x} by { OnlyMember(unserved, x); }
      NewJobIsUnique(desk.jobs, map r | r in unserved :: Some(d), d);
    }
  }

  lemma OnlyMember(s: set<R.RewardId>, x: R.RewardId)
    requires x in s && |s| == 1
    ensures s == {x}
  {
    assert |s - {x}| == 0;
  }

  /** Running the whole batch twice is running it once. */
  lemma BatchIsIdempotent(desk: Desk, f: Finalization, c: Option<R.RewardId>)
    requires Batch(desk, f, c).Some?
    ensures Batch(Batch(desk, f, c).value, f, c) == Batch(desk, f, c)
  {
    FinalizeIsIdempotent(desk.tables, f.ack);
  }

  /** One counted reward per referred person leaves at most one reserved reward to serve. */
  lemma CapsLeaveOneReserved(desk: Desk, f: Finalization, dailyMax: nat)
    requires R.WithinCaps(desk.ledger, dailyMax)
    ensures |ReservedOf(desk.ledger, f.person, f.installation)| <= 1
  {
    var group := R.ByReferred(f.person);
    assert |R.CountedIn(desk.ledger, group)| <= R.Cap(group, dailyMax);
    SubsetIsSmaller(ReservedOf(desk.ledger, f.person, f.installation), R.CountedIn(desk.ledger, group));
  }

  lemma OnlyReservedIsServed(desk: Desk, f: Finalization, c: Option<R.RewardId>)
    requires Selects(desk.ledger, f, c) && |ReservedOf(desk.ledger, f.person, f.installation)| <= 1
    requires Joined(Finalize(desk.tables, f.ack), f) && !Taken(desk.jobs, f.ack.delivery)
    ensures Batch(desk, f, c).Some? && Missing(Batch(desk, f, c).value, f) == {}
  {
    if c.Some? { OnlyMember(ReservedOf(desk.ledger, f.person, f.installation), c.value); }
  }

  lemma ConclusionLosesNoJob(desk: Desk, f: Finalization, trouble: Trouble)
    ensures Missing(Concluded(desk, f, trouble).0, f) <= Missing(desk, f)
  {
    ConclusionIsRepair(desk, f, trouble);
  }

  /**
   Within the caps, the batch that acknowledges a delivery without a job is never refused for its
   rewards, whichever queries throw after it, but for the first check of the QQ path.
   */
  lemma AcknowledgingBatchIsAccepted(desk: Desk, f: Finalization, c: Option<R.RewardId>, trouble: Trouble, dailyMax: nat)
    requires Agrees(desk, f) && Selects(desk.ledger, f, c) && R.WithinCaps(desk.ledger, dailyMax)
    requires DeliveryIs(Finalize(desk.tables, f.ack), f.ack, Acknowledged) && !Taken(desk.jobs, f.ack.delivery)
    ensures Call(desk, f, c, trouble).1 <==> !(f.ack.source.Qq? && trouble.check)
    ensures Missing(Call(desk, f, c, trouble).0, f) == {}
  {
    CapsLeaveOneReserved(desk, f, dailyMax);
    BatchKeepsAgrees(desk, f, Finalize(desk.tables, f.ack));
    OnlyReservedIsServed(desk, f, c);
    var u := Batch(desk, f, c).value;
    AcceptedExactly(u, f, trouble);
    ConclusionLosesNoJob(u, f, trouble);
  }

  function RewardOf(status: R.Status): R.Reward {
    R.Reward("code", None, R.Person(R.Qq, "subject"), None, status, R.Pending, None, None, None, None, None, None, None, 0, 0)
  }

  /** An acknowledged delivery whose job belongs to a failed reward, and the reward reserved after it. */
  const RETRIED := Desk(
    Tables(map["delivery" := Delivery(Qq, Some("subject"), None, "key", HashOf("token"), Acknowledged, 1, None, None)],
           map["subject" := Owner(Qq, Some("subject"), Active, "key", Some(0), NoIdentity)], [Event(Qq, "key")]),
    map[0 := RewardOf(R.Failed), 1 := RewardOf(R.Reserved)], map[0 := Some("delivery")])

  const RETRY := Finalization(Ack("delivery", "subject", "key", Qq, 0), R.Person(R.Qq, "subject"), None)

  lemma OneCountedReward(g: R.Group)
    ensures |R.CountedIn(RETRIED.ledger, g)| <= 1
  {
    SubsetIsSmaller(R.CountedIn(RETRIED.ledger, g), {1});
  }

  lemma RetriedAgrees()
    ensures Agrees(RETRIED, RETRY)
  {
  }

  lemma RetriedHasNoRoom()
    ensures Taken(RETRIED.jobs, "delivery") && |Missing(RETRIED, RETRY)| > 0
  {
    assert RETRIED.jobs[0] == Some("delivery");
    assert 1 in Missing(RETRIED, RETRY);
  }

  lemma RetriedSelects()
    ensures Selects(RETRIED.ledger, RETRY, Some(1))
  {
  }

  /** A retried ACK that is refused although the caps hold: its delivery has the job of another reward. */
  lemma TakenDeliveryRefusesAck()
    ensures R.WithinCaps(RETRIED.ledger, 1) && OneJobEach(RETRIED.jobs)
    ensures Agrees(RETRIED, RETRY) && Selects(RETRIED.ledger, RETRY, Some(1)) && !Call(RETRIED, RETRY, Some(1), NO_TROUBLE).1
  {
    forall g ensures |R.CountedIn(RETRIED.ledger, g)| <= R.Cap(g, 1) { OneCountedReward(g); }
    RetriedAgrees();
    RetriedSelects();
    RetriedHasNoRoom();
    RefusedExactlyWithoutRoom(RETRIED, RETRY, Some(1));
  }

  /**
   A pending delivery whose owner cannot be activated stays pending, and yet the call goes on as if it
   had been acknowledged before, exactly when no reserved reward waits for a job or nobody could see it.
   */
  lemma UnacknowledgedIsAcceptedExactly(desk: Desk, f: Finalization, c: Option<R.RewardId>, trouble: Trouble)
    requires Agrees(desk, f) && DeliveryIs(desk.tables, f.ack, Pending) && !CanAcknowledge(desk.tables, f.ack)
    ensures var (v, accepted) := Call(desk, f, c, trouble);
            && DeliveryIs(v.tables, f.ack, Pending)
            && v.jobs == desk.jobs
            && (accepted <==> !(f.ack.source.Qq? && trouble.check) && (trouble.unsettled || Missing(desk, f) == {}))
  {
    BatchAcknowledgesExactly(desk.tables, f.ack);
    var t := Finalize(desk.tables, f.ack);
    BatchKeepsAgrees(desk, f, t);
    AcceptedExactly(Desk(t, desk.ledger, desk.jobs), f, trouble);
  }

  // ---------------------------------------------------------------- the endpoint

  datatype AckReply = Refused(reason: Validation) | CannotBeApplied | Applied(first: bool)

  /** The token and the key are the delivery's, and it is acknowledged or still pending in time. */
  predicate Passes(t: Tables, d: DeliveryId, credential: Credential, token: string, now: Time) {
    && d in t.deliveries && t.deliveries[d].ackHash == HashOf(token) && t.deliveries[d].credential == credential
    && (t.deliveries[d].status.Acknowledged? || (t.deliveries[d].status.Pending? && now <= t.deliveries[d].expiresAt))
  }

  /** The owner row that is read before the batch can be finalised. */
  predicate Finalizable(t: Tables, owner: OwnerId, credential: Credential) {
    && owner in t.owners && t.owners[owner].credential == credential && t.owners[owner].subject.Some?
    && (t.owners[owner].status.Active? || t.owners[owner].status.DeliveryPending?)
  }

  /** QQ takes the installation from the delivery, Discord from the entitlement, whose key it is. */
  function Reading(t: Tables, d: DeliveryId, owner: OwnerId, now: Time): Finalization
    requires d in t.deliveries && owner in t.owners && t.owners[owner].subject.Some?
  {
    var row, o := t.deliveries[d], t.owners[owner];
    Finalization(Ack(d, owner, row.credential, row.source, o.deliveredAt.GetOr(now)),
                 PersonOf(row.source, o.subject.value), if row.source.Qq? then row.installation else Some(owner))
  }

  /** Which deliveries and owners the endpoint goes on with. */
  lemma EndpointGoesOn(t: Tables, d: DeliveryId, credential: Credential, token: string, owner: OwnerId, now: Time)
    ensures Passes(t, d, credential, token, now) <==>
              && d in t.deliveries && t.deliveries[d].ackHash == HashOf(token) && t.deliveries[d].credential == credential
              && t.deliveries[d].status in {DeliveryStatus.Pending, Acknowledged}
              && (t.deliveries[d].status == DeliveryStatus.Pending ==> now <= t.deliveries[d].expiresAt)
    ensures Finalizable(t, owner, credential) <==>
              && owner in t.owners && t.owners[owner].credential == credential && t.owners[owner].subject != None
              && t.owners[owner].status in {OwnerStatus.DeliveryPending, Active}
  {
  }

  /** What the endpoint reads for its call: the key and source of the delivery, the owner's person and first delivered time. */
  lemma CallIsRead(t: Tables, d: DeliveryId, owner: OwnerId, now: Time)
    requires d in t.deliveries && owner in t.owners && t.owners[owner].subject.Some?
    ensures var f, row, o := Reading(t, d, owner, now), t.deliveries[d], t.owners[owner];
            && f.ack.delivery == d && f.ack.owner == owner && f.ack.credential == row.credential && f.ack.source == row.source
            && f.ack.deliveredAt == (if o.deliveredAt.Some? then o.deliveredAt.value else now)
            && f.person == R.Person(if row.source == Discord then R.Discord else R.Qq, o.subject.value)
            && f.installation == (if row.source == Discord then Some(owner) else row.installation)
  {
  }

  class AckDesk {
    const tables: DeliveryTables
    const ledger: R.Ledger
    var jobs: Jobs

    constructor (tables: DeliveryTables, ledger: R.Ledger, jobs: Jobs)
      ensures this.tables == tables && this.ledger == ledger && this.jobs == jobs
    {
      this.tables, this.ledger, this.jobs := tables, ledger, jobs;
    }

    function Contents(): Desk
      reads this, tables
    {
      Desk(tables.Contents(), ledger, jobs)
    }

    /** The last statement of the batch; false when the unique delivery column refuses it. */
    method InsertSettlementJob(f: Finalization, c: Option<R.RewardId>) returns (inserted: bool)
      modifies this`jobs
      ensures inserted <==> InsertJob(old(jobs), tables.Contents(), f, c).Some?
      ensures jobs == if inserted then InsertJob(old(jobs), tables.Contents(), f, c).value else old(jobs)
    {
      var d := f.ack.delivery;
      if c.None? || d !in tables.deliveries { return true; }
      var row := tables.deliveries[d];
      if row.credential != f.ack.credential || !row.status.Acknowledged? || row.source != f.ack.source { return true; }
      if row.subject != Some(f.person.subject) || row.installation != f.installation || c.value in jobs { return true; }
      if exists r :: r in jobs && jobs[r] == Some(d) { return false; }
      jobs := jobs[c.value := Some(d)];
      return true;
    }

    /** The statements of the batch in order; a failing one takes all of them back. */
    method FinalizeBatch(f: Finalization, c: Option<R.RewardId>) returns (committed: bool, first: bool)
      modifies this`jobs, tables
      ensures committed <==> Batch(old(Contents()), f, c).Some?
      ensures Contents() == if committed then Batch(old(Contents()), f, c).value else old(Contents())
      ensures committed ==>
                (first <==> DeliveryIs(old(tables.Contents()), f.ack, Pending) && DeliveryIs(tables.Contents(), f.ack, Acknowledged))
    {
      var deliveries, owners, events := tables.deliveries, tables.owners, tables.events;
      first := tables.FinalizeDelivery(f.ack);
      committed := InsertSettlementJob(f, c);
      if !committed {
        tables.deliveries, tables.owners, tables.events := deliveries, owners, events;
      }
    }

    /** ensureReferralSettlementJobsForDelivery, with its errors caught. */
    method EnsureJobs(d: DeliveryId, source: Source, throws: bool)
      modifies this`jobs
      ensures Contents() == if throws then old(Contents()) else Repair(old(Contents()), d, source)
    {
      if throws || d !in tables.deliveries { return; }
      var row := tables.deliveries[d];
      if row.source != source || !row.status.Acknowledged? || row.subject.None? { return; }
      var unserved := ReservedOf(ledger, PersonOf(source, row.subject.value), row.installation) - jobs.Keys;
      assert unserved == Unserved(Contents(), d, source);
      if |unserved| != 1 || exists r :: r in jobs && jobs[r] == Some(d) { return; }
      jobs := jobs + map r | r in unserved :: Some(d);
    }

    /** The checks after the batch, in the order of each finalize function. */
    method Conclude(f: Finalization, trouble: Trouble) returns (accepted: bool)
      modifies this`jobs
      ensures (Contents(), accepted) == Concluded(old(Contents()), f, trouble)
    {
      var d, source := f.ack.delivery, f.ack.source;
      if source.Qq? && trouble.check { return false; }
      var settled := !trouble.check && Settled(Contents(), d, source);
      if !settled { EnsureJobs(d, source, trouble.repair); }
      if settled && source.Qq? { return true; }
      if !trouble.recheck && Settled(Contents(), d, source) { return true; }
      return trouble.unsettled || ReservedOf(ledger, f.person, f.installation) - jobs.Keys == {};
    }

    /** A finalize function from its batch to the activation of the operation. */
    method FinalizeAck(f: Finalization, c: Option<R.RewardId>, trouble: Trouble) returns (accepted: bool, first: bool)
      modifies this`jobs, tables
      ensures (Contents(), accepted) == Call(old(Contents()), f, c, trouble)
      ensures accepted ==>
                (first <==> DeliveryIs(old(tables.Contents()), f.ack, Pending) && DeliveryIs(tables.Contents(), f.ack, Acknowledged))
    {
      accepted, first := FinalizeBatch(f, c);
      if accepted { accepted := Conclude(f, trouble); }
    }

    /**
     handleManagedKeyDeliveryAck; `c` is what the batch's inner SELECT finds, `activated` the answer
     of markOperationActiveOnAck.
     */
    method HandleAck(
        d: DeliveryId, credential: Credential, token: string, owner: OwnerId, c: Option<R.RewardId>, trouble: Trouble,
        activated: bool, now: Time)
      returns (reply: AckReply)
      modifies this`jobs, tables
      ensures reply.Refused? <==> !Passes(old(tables.Contents()), d, credential, token, now)
      ensures reply.Applied? ==>
                && activated && owner in old(tables.owners) && old(tables.owners)[owner].credential == credential
                && old(tables.owners)[owner].status in {OwnerStatus.DeliveryPending, Active} && old(tables.owners)[owner].subject.Some?
      ensures !(Passes(old(tables.Contents()), d, credential, token, now) && Finalizable(old(tables.Contents()), owner, credential))
              ==> !reply.Applied? && Contents() == old(Contents())
      ensures Passes(old(tables.Contents()), d, credential, token, now) && Finalizable(old(tables.Contents()), owner, credential)
              ==> var f := Reading(old(tables.Contents()), d, owner, now);
                  var (after, accepted) := Call(old(Contents()), f, c, trouble);
                  && Contents() == after
                  && reply == if accepted && activated
                              then Applied(DeliveryIs(old(tables.Contents()), f.ack, Pending) && DeliveryIs(after.tables, f.ack, Acknowledged))
                              else CannotBeApplied
    {
      var v := tables.ValidateManagedKeyDeliveryAck(d, credential, token, now);
      if !v.StillPending? && !v.AlreadyAcknowledged? { return Refused(v); }
      if owner !in tables.owners { return CannotBeApplied; }
      var o := tables.owners[owner];
      if o.credential != credential || o.subject.None? { return CannotBeApplied; }
      if !o.status.Active? && !o.status.DeliveryPending? { return CannotBeApplied; }
      var accepted, first := FinalizeAck(Reading(tables.Contents(), d, owner, now), c, trouble);
      return if accepted && activated then Applied(first) else CannotBeApplied;
    }
  }
}
