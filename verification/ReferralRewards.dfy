/**
 The reward ledger of referral.ts and every statement, in three files, that writes it.

 A statement is a guard on one row and the new value of a row it selects, so that the status
 invariants and the caps are proved once per statement and row, and hold for every bulk update.
 */
module ReferralRewards {
  import opened Common

  type RewardId = nat
  type ReferralId = string
  type Installation = string
  type Credential = string
  type OperationId = string
  type Time = int

  const DAY_MS: int := 86_400_000
  const INVITE_LIMIT: nat := 3

  datatype Source = Discord | Qq

  datatype Person = Person(source: Source, subject: string)

  /** The values of the two status columns. */
  datatype Status = Reserved | Pending | Applying | Credited | Skipped | Failed

  datatype Reward = Reward(
    referralId: ReferralId, referrer: Option<Person>, referred: Person, installation: Option<Installation>,
    referredBonus: Status, referrerBonus: Status,
    skipReason: Option<string>, failureReason: Option<string>,
    referredCredential: Option<Credential>, referrerCredential: Option<Credential>,
    ipDigest: Option<string>, ipHash: Option<string>, operation: Option<OperationId>, createdAt: Time, updatedAt: Time)

  type Ledger = map<RewardId, Reward>

  function Day(t: Time): int { t / DAY_MS }

  function DayStart(t: Time): Time { Day(t) * DAY_MS }

  // ---------------------------------------------------------------- counting

  predicate Counted(r: Reward) {
    r.referredBonus.Reserved? || r.referredBonus.Credited?
  }

  /** The groups of rewards that have a cap. */
  datatype Group =
    | ByReferrer(owner: Person)
    | ByReferred(person: Person)
    | ByInstallation(installation: Installation)
    | QqDay(day: int)

  predicate In(g: Group, r: Reward) {
    match g
    case ByReferrer(owner) => r.referrer == Some(owner)
    case ByReferred(person) => r.referred == person
    case ByInstallation(installation) => r.installation == Some(installation)
    case QqDay(day) => r.referred.source.Qq? && Day(r.createdAt) == day
  }

  function CountedIn(l: Ledger, g: Group): set<RewardId> {
    set i | i in l && Counted(l[i]) && In(g, l[i])
  }

  function CountedQqSince(l: Ledger, start: Time): set<RewardId> {
    set i | i in l && Counted(l[i]) && l[i].referred.source.Qq? && l[i].createdAt >= start
  }

  function Cap(g: Group, dailyMax: nat): nat {
    match g
    case ByReferrer(_) => INVITE_LIMIT
    case ByReferred(_) => 1
    case ByInstallation(_) => 1
    case QqDay(_) => dailyMax
  }

  // ---------------------------------------------------------------- reservations

  /** How addresses are recorded and compared: by plain hash, by both columns, or by keyed digest alone. */
  datatype IdentityMode = Legacy | Dual | Keyed

  /** What one issue request asks the ledger to reserve. */
  datatype Request = Request(
    referralId: ReferralId, referred: Person, installation: Option<Installation>,
    globalLimit: Option<nat>, globalWindowStart: Option<Time>, ipDigest: Option<string>, ipHash: Option<string>, mode: IdentityMode,
    operation: Option<OperationId>, now: Time)

  predicate ReferredTaken(l: Ledger, q: Request) {
    exists i :: i in l && Counted(l[i])
      && (l[i].referred == q.referred || (q.installation.Some? && l[i].installation == q.installation))
  }

  predicate GlobalRoom(l: Ledger, q: Request) {
    || q.globalLimit.None?
    || q.globalWindowStart.None?
    || !q.referred.source.Qq?
    || |CountedQqSince(l, q.globalWindowStart.value)| < q.globalLimit.value
  }

  /** The three caps that the INSERT ... SELECT checks in the statement that inserts. */
  predicate Room(l: Ledger, owner: Person, q: Request) {
    && |CountedIn(l, ByReferrer(owner))| < INVITE_LIMIT
    && !ReferredTaken(l, q)
    && GlobalRoom(l, q)
  }

  predicate OperationTaken(l: Ledger, operation: Option<OperationId>) {
    operation.Some? && exists i :: i in l && l[i].operation == operation
  }

  /** The plain hash is written until the digests have taken over. */
  function WrittenHash(q: Request): Option<string> {
    if q.mode.Keyed? then None else q.ipHash
  }

  function ReservedRow(owner: Person, q: Request): Reward {
    Reward(q.referralId, Some(owner), q.referred, q.installation, Reserved, Pending, None, None, None, None,
           q.ipDigest, WrittenHash(q), q.operation, q.now, q.now)
  }

  function SkippedRow(owner: Option<Person>, q: Request, reason: string): Reward {
    Reward(q.referralId, owner, q.referred, q.installation, Skipped, Skipped, Some(reason), None, None, None,
           q.ipDigest, WrittenHash(q), q.operation, q.now, q.now)
  }

  // ---------------------------------------------------------------- statements

  datatype Write =
    | Reserve(id: RewardId, owner: Person, request: Request)
    | InsertSkipped(id: RewardId, skippedOwner: Option<Person>, request: Request, reason: string)
    | MarkReservedFailed(referralId: ReferralId, person: Person, installation: Option<Installation>, now: Time)
    | MarkReservedCredited(referralId: ReferralId, person: Person, installation: Option<Installation>,
                           credential: Credential, now: Time)
    | FailOperation(reward: Option<RewardId>, operation: OperationId, why: string, now: Time)
    | FailDiscordDelivery(where: Installation, failedOperations: set<OperationId>, now: Time)
    | FailQqDelivery(subject: string, installation: Option<Installation>, uncredentialed: bool,
                     failedOperations: set<OperationId>, now: Time)
    | ClaimLease(person: Person, credential: Credential, now: Time, cutoff: Time)
    | CreditApplying(person: Person, credential: Credential, now: Time)
    | FailApplying(person: Person, credential: Credential, now: Time)
    | SkipUnsettled(person: Person, now: Time)
    | ReconcileCredited(id: RewardId, credential: Credential, seenAt: Time, seenFailure: Option<string>, now: Time)
    | ReconcileFailed(id: RewardId, seenAt: Time, seenFailure: Option<string>, now: Time)
    | RequeueApplying(cutoff: Time, now: Time)
    | DeleteTerminal(status: Status, cutoff: Time)
    | SettleInvitee(id: RewardId, subject: string, credential: Credential, now: Time)
    | SettleReferrer(id: RewardId, owner: Person, credential: Credential, now: Time)
    | SkipMissingReferrer(id: RewardId, reason: string, now: Time)

  predicate OperationSettled(r: Reward, failed: set<OperationId>) {
    r.operation.None? || r.operation.value in failed
  }

  predicate CredentialFree(r: Reward, credential: Credential) {
    r.referrerCredential.None? || r.referrerCredential.value == credential
  }

  /** A lease on the referrer's rewards that has not run out. */
  predicate ActiveLease(l: Ledger, person: Person, credential: Credential, cutoff: Time) {
    exists i :: i in l && l[i].referrer == Some(person) && l[i].referredBonus.Credited? && l[i].referrerBonus.Applying?
      && l[i].updatedAt >= cutoff && CredentialFree(l[i], credential)
  }

  predicate Unsettled(s: Status) {
    s.Pending? || s.Applying? || s.Failed?
  }

  /** The WHERE clause of an UPDATE or DELETE, for the row `r` under `i` of the table `l`. */
  predicate Where(w: Write, l: Ledger, i: RewardId, r: Reward) {
    match w
    case Reserve(_, _, _) => false
    case InsertSkipped(_, _, _, _) => false
    case MarkReservedFailed(referralId, person, installation, _) =>
      r.referralId == referralId && r.referred == person && r.installation == installation && r.referredBonus.Reserved?
    case MarkReservedCredited(referralId, person, installation, _, _) =>
      r.referralId == referralId && r.referred == person && r.installation == installation && r.referredBonus.Reserved?
    case FailOperation(reward, operation, _, _) =>
      r.referredBonus.Reserved? && (reward == Some(i) || r.operation == Some(operation))
    case FailDiscordDelivery(installation, failed, _) =>
      r.referredCredential.None? && r.referredBonus.Reserved? && r.installation == Some(installation)
      && OperationSettled(r, failed)
    case FailQqDelivery(subject, installation, uncredentialed, failed, _) =>
      r.referred == Person(Qq, subject) && r.installation == installation && r.referredBonus.Reserved?
      && (uncredentialed ==> r.referredCredential.None?) && OperationSettled(r, failed)
    case ClaimLease(person, credential, _, cutoff) =>
      r.referrer == Some(person) && r.referredBonus.Credited?
      && (r.referrerBonus.Pending? || (r.referrerBonus.Applying? && r.updatedAt < cutoff))
      && CredentialFree(r, credential) && !ActiveLease(l, person, credential, cutoff)
    case CreditApplying(person, credential, _) =>
      r.referrer == Some(person) && r.referredBonus.Credited? && r.referrerBonus.Applying? && CredentialFree(r, credential)
    case FailApplying(person, credential, _) =>
      r.referrer == Some(person) && r.referredBonus.Credited? && r.referrerBonus.Applying? && CredentialFree(r, credential)
    case SkipUnsettled(person, _) =>
      r.referrer == Some(person) && r.referredBonus.Credited? && (r.referrerBonus.Pending? || r.referrerBonus.Applying?)
    case ReconcileCredited(id, _, seenAt, seenFailure, _) =>
      i == id && r.referredBonus.Reserved? && r.updatedAt == seenAt && r.failureReason == seenFailure
    case ReconcileFailed(id, seenAt, seenFailure, _) =>
      i == id && r.referredBonus.Reserved? && r.updatedAt == seenAt && r.failureReason == seenFailure
    case RequeueApplying(cutoff, _) =>
      r.referredBonus.Credited? && !r.referred.source.Qq? && r.referrerBonus.Applying? && r.updatedAt < cutoff
    case DeleteTerminal(status, cutoff) =>
      (status.Skipped? || status.Failed?) && r.referredBonus == status && r.updatedAt < cutoff
    case SettleInvitee(id, subject, credential, _) =>
      i == id && r.referred.subject == subject
      && (r.referredBonus.Reserved? || (r.referredBonus.Credited? && r.referredCredential == Some(credential)))
    case SettleReferrer(id, owner, credential, _) =>
      i == id && r.referredBonus.Credited? && r.referrer == Some(owner)
      && (Unsettled(r.referrerBonus) || (r.referrerBonus.Credited? && r.referrerCredential == Some(credential)))
    case SkipMissingReferrer(id, _, _) =>
      i == id && r.referredBonus.Credited? && Unsettled(r.referrerBonus)
  }

  function FailedRow(r: Reward, reason: string, now: Time): Reward {
    r.(referredBonus := Failed, referrerBonus := Failed, failureReason := Some(reason), updatedAt := now)
  }

  function CreditedInvitee(r: Reward, credential: Credential, now: Time): Reward {
    r.(referredBonus := Credited, referredCredential := Some(credential), failureReason := None, updatedAt := now)
  }

  function ReferrerMoved(r: Reward, to: Status, credential: Option<Credential>, failure: Option<string>, now: Time): Reward {
    r.(referrerBonus := to, referrerCredential := credential, failureReason := failure, updatedAt := now)
  }

  /** The SET clause of an UPDATE. */
  function Set(w: Write, r: Reward): Reward {
    match w
    case Reserve(_, _, _) => r
    case InsertSkipped(_, _, _, _) => r
    case DeleteTerminal(_, _) => r
    case MarkReservedFailed(_, _, _, now) => FailedRow(r, "issue_delivery_failed", now)
    case MarkReservedCredited(_, _, _, credential, now) => CreditedInvitee(r, credential, now)
    case FailOperation(_, _, why, now) => FailedRow(r, why, now)
    case FailDiscordDelivery(_, _, now) => FailedRow(r, "issue_delivery_failed", now)
    case FailQqDelivery(_, _, _, _, now) => FailedRow(r, "issue_delivery_failed", now)
    case ClaimLease(_, credential, now, _) => ReferrerMoved(r, Applying, Some(credential), None, now)
    case CreditApplying(_, credential, now) => ReferrerMoved(r, Credited, Some(credential), None, now)
    case FailApplying(_, credential, now) => ReferrerMoved(r, Failed, Some(credential), Some("referrer_patch_failed"), now)
    case SkipUnsettled(_, now) =>
      r.(referrerBonus := Skipped, skipReason := Some("referrer_managed_key_missing"), updatedAt := now)
    case ReconcileCredited(_, credential, _, _, now) => CreditedInvitee(r, credential, now)
    case ReconcileFailed(_, _, _, now) => FailedRow(r, "stale_reserved_reconciled", now)
    case RequeueApplying(_, now) => ReferrerMoved(r, Pending, None, None, now)
    case SettleInvitee(_, _, credential, now) => CreditedInvitee(r, credential, now)
    case SettleReferrer(_, _, credential, now) => ReferrerMoved(r, Credited, Some(credential), None, now).(skipReason := None)
    case SkipMissingReferrer(_, reason, now) =>
      r.(referrerBonus := Skipped, skipReason := if r.skipReason.Some? then r.skipReason else Some(reason), updatedAt := now)
  }

  /** One statement on the whole table. */
  function Apply(l: Ledger, w: Write): Ledger {
    match w
    case Reserve(id, owner, q) =>
      if id in l || OperationTaken(l, q.operation) || !Room(l, owner, q) then l else l[id := ReservedRow(owner, q)]
    case InsertSkipped(id, owner, q, reason) =>
      if id in l || OperationTaken(l, q.operation) then l else l[id := SkippedRow(owner, q, reason)]
    case DeleteTerminal(_, _) => map i | i in l && !Where(w, l, i, l[i]) :: l[i]
    case _ => Updated(l, w)
  }

  function Updated(l: Ledger, w: Write): Ledger {
    map i | i in l :: if Where(w, l, i, l[i]) then Set(w, l[i]) else l[i]
  }

  function Run(l: Ledger, writes: seq<Write>): Ledger
    decreases |writes|
  {
    if writes == [] then l else Run(Apply(l, writes[0]), writes[1..])
  }

  // ---------------------------------------------------------------- statuses

  predicate PairOk(r: Reward) {
    match r.referredBonus
    case Reserved => r.referrerBonus.Pending?
    case Failed => r.referrerBonus.Failed?
    case Skipped => r.referrerBonus.Skipped?
    case Credited => !r.referrerBonus.Reserved?
    case _ => false
  }

  /** The columns that no UPDATE touches. */
  predicate SameIdentity(r: Reward, s: Reward) {
    && r.referralId == s.referralId && r.referrer == s.referrer && r.referred == s.referred
    && r.installation == s.installation && r.operation == s.operation && r.createdAt == s.createdAt
  }

  /** What may happen to a row: credited is never left, and with it credited and skipped referrers. */
  predicate Legal(r: Reward, s: Reward) {
    && SameIdentity(r, s)
    && (PairOk(r) ==> PairOk(s))
    && (r.referredBonus.Credited? ==> s.referredBonus.Credited?)
    && (r.referredBonus.Credited? && (r.referrerBonus.Credited? || r.referrerBonus.Skipped?) ==>
          s.referrerBonus == r.referrerBonus)
    && (Counted(s) ==> Counted(r))
  }

  lemma SelectedRowMovesLegally(w: Write, l: Ledger, i: RewardId, r: Reward)
    requires Where(w, l, i, r)
    ensures Legal(r, Set(w, r))
  {
  }

  lemma WriteIsLegal(l: Ledger, w: Write, i: RewardId)
    requires i in l
    ensures var m := Apply(l, w);
            if i in m then Legal(l[i], m[i]) else l[i].referredBonus.Skipped? || l[i].referredBonus.Failed?
  {
    if Where(w, l, i, l[i]) {
      SelectedRowMovesLegally(w, l, i, l[i]);
    }
  }

  predicate PairsOk(l: Ledger) {
    forall i | i in l :: PairOk(l[i])
  }

  lemma WriteKeepsPairs(l: Ledger, w: Write)
    requires PairsOk(l)
    ensures PairsOk(Apply(l, w))
  {
    forall i | i in Apply(l, w) ensures PairOk(Apply(l, w)[i]) {
      if i in l { WriteIsLegal(l, w, i); }
    }
  }

  /** Every row of every reachable ledger has one of the four kinds of status pair. */
  lemma {:induction false} RunKeepsPairs(l: Ledger, writes: seq<Write>)
    requires PairsOk(l)
    ensures PairsOk(Run(l, writes))
    decreases |writes|
  {
    if writes != [] {
      WriteKeepsPairs(l, writes[0]);
      RunKeepsPairs(Apply(l, writes[0]), writes[1..]);
    }
  }

  /** A credited invitee stays in the ledger and credited; a settled referrer keeps its status. */
  lemma {:induction false} CreditedIsNeverLeft(l: Ledger, writes: seq<Write>, i: RewardId)
    requires i in l && l[i].referredBonus.Credited?
    ensures var m := Run(l, writes);
            && i in m && m[i].referredBonus.Credited?
            && (l[i].referrerBonus.Credited? || l[i].referrerBonus.Skipped? ==> m[i].referrerBonus == l[i].referrerBonus)
    decreases |writes|
  {
    if writes != [] {
      WriteIsLegal(l, writes[0], i);
      CreditedIsNeverLeft(Apply(l, writes[0]), writes[1..], i);
    }
  }

  // ---------------------------------------------------------------- what each statement leaves

  /** The row of `i` is written as `row` exactly under the condition, and stays otherwise. */
  predicate Written(l: Ledger, m: Ledger, i: RewardId, condition: bool, row: Reward)
    requires i in l
  {
    i in m && m[i] == if condition then row else l[i]
  }

  /** A settlement credits the invitee it was asked for, or confirms the same credit. */
  lemma InviteeIsCredited(l: Ledger, id: RewardId, subject: string, credential: Credential, now: Time, i: RewardId)
    requires i in l
    ensures var r := l[i];
            Written(l, Apply(l, SettleInvitee(id, subject, credential, now)), i,
              i == id && r.referred.subject == subject
              && (r.referredBonus == Reserved || (r.referredBonus == Credited && r.referredCredential == Some(credential))),
              r.(referredBonus := Credited, referredCredential := Some(credential), failureReason := None, updatedAt := now))
  {
  }

  /** A settlement credits the referrer it was asked for once the invitee is credited, or confirms the same credit. */
  lemma ReferrerIsCredited(l: Ledger, id: RewardId, owner: Person, credential: Credential, now: Time, i: RewardId)
    requires i in l
    ensures var r := l[i];
            Written(l, Apply(l, SettleReferrer(id, owner, credential, now)), i,
              i == id && r.referrer == Some(owner) && r.referredBonus == Credited
              && (r.referrerBonus in {Pending, Applying, Failed}
                  || (r.referrerBonus == Credited && r.referrerCredential == Some(credential))),
              r.(referrerBonus := Credited, referrerCredential := Some(credential),
                 failureReason := None, skipReason := None, updatedAt := now))
  {
  }

  /** A referrer without a key is skipped, with the first reason kept. */
  lemma MissingReferrerIsSkipped(l: Ledger, id: RewardId, reason: string, now: Time, i: RewardId)
    requires i in l
    ensures var r := l[i];
            Written(l, Apply(l, SkipMissingReferrer(id, reason, now)), i,
              i == id && r.referredBonus == Credited && r.referrerBonus in {Pending, Applying, Failed},
              r.(referrerBonus := Skipped, skipReason := Some(r.skipReason.GetOr(reason)), updatedAt := now))
  {
  }

  /** The reservation of one issue request fails or is credited; a reservation of anyone else stays. */
  lemma ReservationEnds(l: Ledger, referralId: ReferralId, person: Person, installation: Option<Installation>,
                        credential: Credential, now: Time, i: RewardId)
    requires i in l
    ensures var r := l[i];
            var mine := r.referralId == referralId && r.referred == person && r.installation == installation
                        && r.referredBonus == Reserved;
            && Written(l, Apply(l, MarkReservedFailed(referralId, person, installation, now)), i, mine,
                 r.(referredBonus := Failed, referrerBonus := Failed, failureReason := Some("issue_delivery_failed"), updatedAt := now))
            && Written(l, Apply(l, MarkReservedCredited(referralId, person, installation, credential, now)), i, mine,
                 r.(referredBonus := Credited, referredCredential := Some(credential), failureReason := None, updatedAt := now))
  {
  }

  /** An operation that ends takes its reservation with it, found by the reward it names or by its own name. */
  lemma OperationFailsItsReward(l: Ledger, reward: Option<RewardId>, operation: OperationId, why: string, now: Time, i: RewardId)
    requires i in l
    ensures var r := l[i];
            Written(l, Apply(l, FailOperation(reward, operation, why, now)), i,
              r.referredBonus == Reserved && (reward == Some(i) || r.operation == Some(operation)),
              r.(referredBonus := Failed, referrerBonus := Failed, failureReason := Some(why), updatedAt := now))
  {
  }

  /** A failed delivery fails the reservations of its installation or person, but none of an operation still under way. */
  lemma DeliveryFailsItsRewards(l: Ledger, place: Installation, subject: string, installation: Option<Installation>,
                                uncredentialed: bool, failed: set<OperationId>, now: Time, i: RewardId)
    requires i in l
    ensures var r := l[i];
            var over := r.operation.None? || r.operation.value in failed;
            var row := r.(referredBonus := Failed, referrerBonus := Failed, failureReason := Some("issue_delivery_failed"), updatedAt := now);
            && Written(l, Apply(l, FailDiscordDelivery(place, failed, now)), i,
                 r.referredBonus == Reserved && r.referredCredential.None? && r.installation == Some(place) && over, row)
            && Written(l, Apply(l, FailQqDelivery(subject, installation, uncredentialed, failed, now)), i,
                 r.referredBonus == Reserved && r.referred == Person(Qq, subject) && r.installation == installation
                 && (uncredentialed ==> r.referredCredential.None?) && over, row)
  {
  }

  /** The reconciler decides a reservation only as it saw it: a row written in between stays. */
  lemma ReconcileDecidesWhatItSaw(l: Ledger, id: RewardId, credential: Credential, seenAt: Time, seen: Option<string>, now: Time, i: RewardId)
    requires i in l
    ensures var r := l[i];
            var same := i == id && r.referredBonus == Reserved && r.updatedAt == seenAt && r.failureReason == seen;
            && Written(l, Apply(l, ReconcileCredited(id, credential, seenAt, seen, now)), i, same,
                 r.(referredBonus := Credited, referredCredential := Some(credential), failureReason := None, updatedAt := now))
            && Written(l, Apply(l, ReconcileFailed(id, seenAt, seen, now)), i, same,
                 r.(referredBonus := Failed, referrerBonus := Failed, failureReason := Some("stale_reserved_reconciled"), updatedAt := now))
  {
  }

  /** The rewards of a referrer that a legacy update under this key may work on. */
  predicate UnderKey(r: Reward, person: Person, credential: Credential) {
    && r.referrer == Some(person) && r.referredBonus == Credited
    && (r.referrerCredential == None || r.referrerCredential == Some(credential))
  }

  /** Someone holds a lease on one of them. */
  predicate Leased(l: Ledger, person: Person, credential: Credential, cutoff: Time) {
    exists i :: i in l && UnderKey(l[i], person, credential) && l[i].referrerBonus == Applying && l[i].updatedAt >= cutoff
  }

  /** A lease takes every waiting reward of the key and every one whose lease ran out, unless a lease stands. */
  lemma LeaseTakesAll(l: Ledger, person: Person, credential: Credential, now: Time, cutoff: Time, i: RewardId)
    requires i in l
    ensures var r := l[i];
            Written(l, Apply(l, ClaimLease(person, credential, now, cutoff)), i,
              !Leased(l, person, credential, cutoff) && UnderKey(r, person, credential)
              && (r.referrerBonus == Pending || (r.referrerBonus == Applying && r.updatedAt < cutoff)),
              r.(referrerBonus := Applying, referrerCredential := Some(credential), failureReason := None, updatedAt := now))
  {
    assert ActiveLease(l, person, credential, cutoff) <==> Leased(l, person, credential, cutoff);
  }

  /** A lease once taken keeps every later one out until it runs out. */
  lemma LeaseIsExclusive(l: Ledger, person: Person, credential: Credential, now: Time, cutoff: Time, later: Time, next: Time, m: Ledger)
    requires m == Apply(l, ClaimLease(person, credential, now, cutoff)) && m != l && next <= now
    ensures Apply(m, ClaimLease(person, credential, later, next)) == m
  {
    var i :| i in l && m[i] != l[i];
    LeaseTakesAll(l, person, credential, now, cutoff, i);
    assert m[i].referrerBonus == Applying && m[i].updatedAt >= next;
    assert ActiveLease(m, person, credential, next);
  }

  /** The work under a lease ends it: everything that was being applied is credited, or failed with its reason. */
  lemma LeasedWorkEnds(l: Ledger, person: Person, credential: Credential, now: Time, i: RewardId)
    requires i in l
    ensures var r := l[i];
            var working := UnderKey(r, person, credential) && r.referrerBonus == Applying;
            && Written(l, Apply(l, CreditApplying(person, credential, now)), i, working,
                 r.(referrerBonus := Credited, referrerCredential := Some(credential), failureReason := None, updatedAt := now))
            && Written(l, Apply(l, FailApplying(person, credential, now)), i, working,
                 r.(referrerBonus := Failed, referrerCredential := Some(credential), failureReason := Some("referrer_patch_failed"), updatedAt := now))
  {
  }

  /** A referrer whose key is gone is skipped; a lease of a Discord invitee that ran out waits again. */
  lemma WaitingRewardsAreMoved(l: Ledger, person: Person, cutoff: Time, now: Time, i: RewardId)
    requires i in l
    ensures var r := l[i];
            && Written(l, Apply(l, SkipUnsettled(person, now)), i,
                 r.referrer == Some(person) && r.referredBonus == Credited && r.referrerBonus in {Pending, Applying},
                 r.(referrerBonus := Skipped, skipReason := Some("referrer_managed_key_missing"), updatedAt := now))
            && Written(l, Apply(l, RequeueApplying(cutoff, now)), i,
                 r.referred.source == Discord && r.referredBonus == Credited && r.referrerBonus == Applying && r.updatedAt < cutoff,
                 r.(referrerBonus := Pending, referrerCredential := None, failureReason := None, updatedAt := now))
  {
  }

  /** Retention deletes exactly the old rows of the skipped or of the failed, and changes none. */
  lemma RetentionDeletesOldTerminal(l: Ledger, status: Status, cutoff: Time, i: RewardId)
    requires i in l
    ensures var m := Apply(l, DeleteTerminal(status, cutoff));
            && (i in m <==> !(status in {Skipped, Failed} && l[i].referredBonus == status && l[i].updatedAt < cutoff))
            && (i in m ==> m[i] == l[i])
  {
  }

  /** Updates and deletions bring no rows; an insert brings one, and only for an operation that has none. */
  lemma RowsAreBroughtByInserts(l: Ledger, w: Write, i: RewardId)
    requires i !in l && i in Apply(l, w)
    ensures (w.Reserve? || w.InsertSkipped?) && i == w.id && Apply(l, w) == l[i := Apply(l, w)[i]]
    ensures w.request.operation.Some? ==> forall j | j in l :: l[j].operation != w.request.operation
    ensures var r, q := Apply(l, w)[i], w.request;
            && r.referralId == q.referralId && r.referred == q.referred && r.installation == q.installation
            && r.operation == q.operation && r.createdAt == q.now && r.updatedAt == q.now
            && r.ipDigest == q.ipDigest && r.ipHash == (if q.mode == Keyed then None else q.ipHash)
            && r.failureReason == None && r.referredCredential == None && r.referrerCredential == None
    ensures w.Reserve? ==>
              var r := Apply(l, w)[i];
              r.referrer == Some(w.owner) && r.referredBonus == Reserved && r.referrerBonus == Pending && r.skipReason == None
    ensures w.InsertSkipped? ==>
              var r := Apply(l, w)[i];
              r.referrer == w.skippedOwner && r.referredBonus == Skipped && r.referrerBonus == Skipped && r.skipReason == Some(w.reason)
  {
  }

  /** A reservation is refused only for a cap that is reached, or for an operation that has its row. */
  lemma ReservationIsRefusedOnlyAtCaps(l: Ledger, id: RewardId, owner: Person, q: Request)
    requires id !in l && id !in Apply(l, Reserve(id, owner, q))
    ensures || (q.operation.Some? && exists i :: i in l && l[i].operation == q.operation)
            || |set i | i in l && l[i].referrer == Some(owner) && l[i].referredBonus in {Reserved, Credited}| >= 3
            || (exists i :: i in l && l[i].referredBonus in {Reserved, Credited} && l[i].referred == q.referred)
            || (q.installation.Some? && exists i :: i in l && l[i].referredBonus in {Reserved, Credited} && l[i].installation == q.installation)
            || (q.referred.source == Qq && q.globalLimit.Some? && q.globalWindowStart.Some?
                && |set i | i in l && l[i].referredBonus in {Reserved, Credited} && l[i].referred.source == Qq
                            && l[i].createdAt >= q.globalWindowStart.value| >= q.globalLimit.value)
  {
    var ofOwner := set i | i in l && l[i].referrer == Some(owner) && l[i].referredBonus in {Reserved, Credited};
    assert CountedIn(l, ByReferrer(owner)) == ofOwner;
    if q.globalWindowStart.Some? {
      var ofDay := set i | i in l && l[i].referredBonus in {Reserved, Credited} && l[i].referred.source == Qq
                           && l[i].createdAt >= q.globalWindowStart.value;
      assert CountedQqSince(l, q.globalWindowStart.value) == ofDay;
    }
  }

  // ---------------------------------------------------------------- caps

  ghost predicate WithinCaps(l: Ledger, dailyMax: nat) {
    forall g :: |CountedIn(l, g)| <= Cap(g, dailyMax)
  }

  /** QQ reservations carry the configured daily maximum and the start of their own UTC day. */
  predicate Configured(w: Write, dailyMax: nat) {
    w.Reserve? && w.request.referred.source.Qq? ==>
      && w.request.globalLimit.Some? && w.request.globalLimit.value <= dailyMax
      && w.request.globalWindowStart == Some(DayStart(w.request.now))
  }

  /** No statement but the reservation raises a count. */
  lemma OnlyReserveRaisesCounts(l: Ledger, w: Write, g: Group)
    requires !w.Reserve?
    ensures CountedIn(Apply(l, w), g) <= CountedIn(l, g)
  {
    forall i | i in CountedIn(Apply(l, w), g) ensures i in CountedIn(l, g) {
      if i in l { WriteIsLegal(l, w, i); }
    }
  }

  lemma DayIsWithinWindow(l: Ledger, now: Time)
    ensures CountedIn(l, QqDay(Day(now))) <= CountedQqSince(l, DayStart(now))
  {
  }

  lemma RoomInEveryGroup(l: Ledger, owner: Person, q: Request, dailyMax: nat, id: RewardId, g: Group)
    requires Room(l, owner, q) && Configured(Reserve(id, owner, q), dailyMax) && In(g, ReservedRow(owner, q))
    ensures |CountedIn(l, g)| < Cap(g, dailyMax)
  {
    match g
    case ByReferrer(_) =>
    case ByReferred(person) => assert CountedIn(l, g) == {};
    case ByInstallation(_) => assert CountedIn(l, g) == {};
    case QqDay(_) =>
      DayIsWithinWindow(l, q.now);
      SubsetIsSmaller(CountedIn(l, g), CountedQqSince(l, DayStart(q.now)));
  }

  lemma InsertionRaisesCountByOne(l: Ledger, id: RewardId, r: Reward, m: Ledger, g: Group)
    requires id !in l && m == l[id := r] && Counted(r)
    ensures |CountedIn(m, g)| == |CountedIn(l, g)| + if In(g, r) then 1 else 0
  {
    var added := if In(g, r) then {id} else {};
    assert CountedIn(m, g) == CountedIn(l, g) + added by {
      forall i ensures i in CountedIn(m, g) <==> i in CountedIn(l, g) + added {
        assert i in m <==> i in l || i == id;
        assert i != id && i in l ==> m[i] == l[i];
      }
    }
  }

  lemma WriteKeepsCaps(l: Ledger, w: Write, dailyMax: nat)
    requires WithinCaps(l, dailyMax) && Configured(w, dailyMax)
    ensures WithinCaps(Apply(l, w), dailyMax)
  {
    var m := Apply(l, w);
    forall g ensures |CountedIn(m, g)| <= Cap(g, dailyMax) {
      if !w.Reserve? {
        OnlyReserveRaisesCounts(l, w, g);
        SubsetIsSmaller(CountedIn(m, g), CountedIn(l, g));
      } else if m != l {
        var r := ReservedRow(w.owner, w.request);
        InsertionRaisesCountByOne(l, w.id, r, m, g);
        if In(g, r) { RoomInEveryGroup(l, w.owner, w.request, dailyMax, w.id, g); }
      }
    }
  }

  /**
   Whatever statements interleave, a referrer has at most three reserved or credited rewards, a
   referred person and an installation at most one, and QQ at most the maximum on any UTC day.
   */
  lemma {:induction false} RunKeepsCaps(l: Ledger, writes: seq<Write>, dailyMax: nat)
    requires WithinCaps(l, dailyMax)
    requires forall w | w in writes :: Configured(w, dailyMax)
    ensures WithinCaps(Run(l, writes), dailyMax)
    decreases |writes|
  {
    if writes != [] {
      WriteKeepsCaps(l, writes[0], dailyMax);
      RunKeepsCaps(Apply(l, writes[0]), writes[1..], dailyMax);
    }
  }

  lemma EmptyIsWithinCaps(dailyMax: nat)
    ensures WithinCaps(map[], dailyMax)
  {
    forall g ensures |CountedIn(map[], g)| <= Cap(g, dailyMax) {
      assert CountedIn(map[], g) == {};
    }
  }

  /** The reserved and credited rewards of a referrer, of an invited person, of an installation and of QQ on a UTC day. */
  function OfReferrer(l: Ledger, p: Person): set<RewardId> {
    set i | i in l && l[i].referredBonus in {Reserved, Credited} && l[i].referrer == Some(p)
  }

  function OfInvited(l: Ledger, p: Person): set<RewardId> {
    set i | i in l && l[i].referredBonus in {Reserved, Credited} && l[i].referred == p
  }

  function OfInstallation(l: Ledger, installation: Installation): set<RewardId> {
    set i | i in l && l[i].referredBonus in {Reserved, Credited} && l[i].installation == Some(installation)
  }

  function OfQqDay(l: Ledger, day: int): set<RewardId> {
    set i | i in l && l[i].referredBonus in {Reserved, Credited} && l[i].referred.source == Qq && l[i].createdAt / 86_400_000 == day
  }

  lemma GroupsAre(l: Ledger, p: Person, installation: Installation, day: int)
    ensures CountedIn(l, ByReferrer(p)) == OfReferrer(l, p) && CountedIn(l, ByReferred(p)) == OfInvited(l, p)
    ensures CountedIn(l, ByInstallation(installation)) == OfInstallation(l, installation)
    ensures CountedIn(l, QqDay(day)) == OfQqDay(l, day)
  {
  }

  /** The same in numbers, from the empty ledger on: three rewards a referrer, one a person and one an installation. */
  lemma CapsInNumbers(writes: seq<Write>, dailyMax: nat, p: Person, installation: Installation, day: int)
    requires forall w | w in writes :: Configured(w, dailyMax)
    ensures var l := Run(map[], writes);
            && |OfReferrer(l, p)| <= 3 && |OfInvited(l, p)| <= 1
            && |OfInstallation(l, installation)| <= 1 && |OfQqDay(l, day)| <= dailyMax
  {
    EmptyIsWithinCaps(dailyMax);
    RunKeepsCaps(map[], writes, dailyMax);
    var l := Run(map[], writes);
    GroupsAre(l, p, installation, day);
    assert |CountedIn(l, ByReferrer(p))| <= 3 && |CountedIn(l, ByReferred(p))| <= 1;
    assert |CountedIn(l, ByInstallation(installation))| <= 1 && |CountedIn(l, QqDay(day))| <= dailyMax;
  }

  // ---------------------------------------------------------------- the table, updated in place

  function Selected(l: Ledger, w: Write): set<RewardId> {
    set i | i in l && Where(w, l, i, l[i])
  }

  /** The rows in `done` have been set and no other. */
  ghost predicate PartlySet(l: Ledger, w: Write, done: set<RewardId>, m: Ledger)
    requires !w.Reserve? && !w.InsertSkipped? && !w.DeleteTerminal?
  {
    m.Keys == l.Keys && forall i | i in l :: m[i] == if i in done then Set(w, l[i]) else l[i]
  }

  lemma OneMoreSet(l: Ledger, w: Write, selected: set<RewardId>, todo: set<RewardId>, i: RewardId, m: Ledger, m': Ledger)
    requires !w.Reserve? && !w.InsertSkipped? && !w.DeleteTerminal?
    requires i in todo && todo <= selected <= l.Keys
    requires PartlySet(l, w, selected - todo, m) && m' == m[i := Set(w, m[i])]
    ensures PartlySet(l, w, selected - (todo - {i}), m')
    ensures |todo - {i}| == |todo| - 1
  {
    assert selected - (todo - {i}) == selected - todo + {i};
  }

  lemma AllSet(l: Ledger, w: Write, selected: set<RewardId>, m: Ledger)
    requires !w.Reserve? && !w.InsertSkipped? && !w.DeleteTerminal? && selected == Selected(l, w)
    requires PartlySet(l, w, selected - {}, m)
    ensures m == Apply(l, w)
  {
    UpdatedRowByRow(l, w, selected, m);
  }

  lemma UpdatedRowByRow(l: Ledger, w: Write, selected: set<RewardId>, m: Ledger)
    requires !w.Reserve? && !w.InsertSkipped? && !w.DeleteTerminal? && selected == Selected(l, w)
    requires m.Keys == l.Keys && forall i | i in l :: m[i] == if i in selected then Set(w, l[i]) else l[i]
    ensures m == Apply(l, w)
  {
  }

  /** The rows of a table that are not marked any more stay as they are; the others have been deleted. */
  lemma DeletedRowByRow(l: Ledger, w: Write, selected: set<RewardId>, m: Ledger)
    requires w.DeleteTerminal? && selected == Selected(l, w)
    requires m.Keys == l.Keys - selected && forall i | i in m :: m[i] == l[i]
    ensures m == Apply(l, w)
  {
    forall i | i in l ensures i in m <==> i in Apply(l, w) {
    }
    assert m.Keys == Apply(l, w).Keys;
  }

  class RewardTable {
    var rewards: Ledger

    /** An UPDATE: the WHERE clause picks the rows of the table as it stands, then they are set. */
    method Update(w: Write) returns (changes: nat)
      requires !w.Reserve? && !w.InsertSkipped? && !w.DeleteTerminal?
      modifies this
      ensures rewards == Apply(old(rewards), w)
      ensures changes == |Selected(old(rewards), w)|
    {
      var table, selected := rewards, Selected(rewards, w);
      var todo := selected;
      changes := 0;
      while todo != {}
        invariant todo <= selected <= table.Keys
        invariant PartlySet(table, w, selected - todo, rewards)
        invariant changes == |selected| - |todo|
        decreases |todo|
      {
        var i :| i in todo;
        var row := Set(w, rewards[i]);
        OneMoreSet(table, w, selected, todo, i, rewards, rewards[i := row]);
        rewards := rewards[i := row];
        todo, changes := todo - {i}, changes + 1;
      }
      AllSet(table, w, selected, rewards);
    }

    method DeleteTerminalRewards(status: Status, cutoff: Time) returns (deleted: nat)
      modifies this
      ensures rewards == Apply(old(rewards), DeleteTerminal(status, cutoff))
      ensures deleted == |Selected(old(rewards), DeleteTerminal(status, cutoff))|
    {
      var table, selected := rewards, Selected(rewards, DeleteTerminal(status, cutoff));
      var todo := selected;
      deleted := 0;
      while todo != {}
        invariant todo <= selected <= table.Keys
        invariant rewards.Keys == table.Keys - (selected - todo) && forall i | i in rewards :: rewards[i] == table[i]
        invariant deleted == |selected| - |todo|
        decreases |todo|
      {
        var i :| i in todo;
        rewards := rewards - {i};
        assert rewards.Keys == table.Keys - (selected - (todo - {i}));
        todo, deleted := todo - {i}, deleted + 1;
      }
      assert selected - todo == selected;
      DeletedRowByRow(table, DeleteTerminal(status, cutoff), selected, rewards);
    }

    /** The INSERT OR IGNORE ... SELECT, for an owner that the rest of its guard accepted. */
    method InsertReserved(id: RewardId, owner: Person, q: Request) returns (reserved: bool)
      requires id !in rewards
      modifies this
      ensures reserved <==> Room(old(rewards), owner, q) && !OperationTaken(old(rewards), q.operation)
      ensures rewards == Apply(old(rewards), Reserve(id, owner, q))
    {
      var ofReferrer := set i | i in rewards && Counted(rewards[i]) && rewards[i].referrer == Some(owner);
      assert ofReferrer == CountedIn(rewards, ByReferrer(owner));
      if |ofReferrer| >= INVITE_LIMIT || ReferredTaken(rewards, q) || !GlobalRoom(rewards, q) { return false; }
      if q.operation.Some? && exists i :: i in rewards && rewards[i].operation == q.operation { return false; }
      rewards := rewards[id := ReservedRow(owner, q)];
      return true;
    }
  }
}
