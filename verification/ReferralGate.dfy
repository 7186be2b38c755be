/**
 The reservation gate of referral.ts: one INSERT ... SELECT whose guard decides whether a reward is
 reserved, and the cascade of separate queries that afterwards names the reason it was refused.

 Both are modelled clause by clause, and compared through the reasons as a reader would state them.
 */
module ReferralGate {
  import opened Common
  import opened ReferralRewards

  /** A referral code; the schema keeps an installation id, where there is one, non-empty. */
  datatype Code = Code(owner: Person, installation: Option<Installation>, active: bool)

  datatype QqEntitlement = QqEntitlement(
    active: bool, credential: Option<Credential>, deliveredAt: Option<Time>, expiresAt: Option<Time>)

  datatype Hardware = Hardware(hash: Option<string>, salt: Option<int>)

  /** A row of openrouter_entitlements, as far as the hardware check reads it. */
  datatype OpenRouterEntitlement = OpenRouterEntitlement(
    discordUser: string, status: bool, issueStatus: bool, hardware: Hardware)

  /** The tables both sides read; `identities` are the active Discord (user, installation) pairs. */
  datatype Tables = Tables(
    ledger: Ledger, codes: map<ReferralId, Code>, identities: set<(string, Installation)>,
    qqEntitlements: map<string, QqEntitlement>, openRouter: set<OpenRouterEntitlement>)

  /** A limit on attempts by person or installation and by address, over a window in minutes. */
  datatype AttemptLimit = AttemptLimit(window: nat, perInstallation: nat, perIp: nat)

  /** The limits, windows in minutes. */
  datatype Controls = Controls(
    idWindow: nat, idMax: nat, referrerWindow: nat, referrerMax: nat, shaped: AttemptLimit, unknown: AttemptLimit)

  datatype Attempt = Attempt(request: Request, hardware: Hardware)

  datatype Reason =
    | UnknownReferralId | DisabledReferralId | SelfReferral | SelfInstallation | ReferrerNotEligible
    | DuplicateHardware | ReferredAlreadyRewarded | ReferrerCapReached | GlobalCapReached
    | ReferralVelocityLimited | ReferrerVelocityLimited | ReservationConflict
    | AttemptRateLimited | UnknownRateLimited

  ghost predicate SchemaOk(t: Tables) {
    forall c | c in t.codes && t.codes[c].installation.Some? :: |t.codes[c].installation.value| > 0
  }

  function WindowStart(now: Time, minutes: nat): Time { now - minutes * 60_000 }

  /** SQLite compares datetimes by the second. */
  function Seconds(t: Time): int { t / 1000 }

  predicate Blank(s: string) {
    forall k :: 0 <= k < |s| ==> s[k] == ' '
  }

  predicate QqOwnerEligible(t: Tables, subject: string, now: Time) {
    && subject in t.qqEntitlements
    && var e := t.qqEntitlements[subject];
       e.active && e.credential.Some? && !Blank(e.credential.value) && e.deliveredAt.Some?
       && e.expiresAt.Some? && Seconds(e.expiresAt.value) >= Seconds(now)
  }

  /** SQL equality: NULL equals nothing. */
  predicate SqlEquals<T(==)>(a: Option<T>, b: Option<T>) {
    a.Some? && b.Some? && a == b
  }

  predicate SameHardware(t: Tables, owner: string, hardware: Hardware) {
    exists e :: e in t.openRouter && e.discordUser == owner && e.status && e.issueStatus
      && SqlEquals(e.hardware.hash, hardware.hash) && SqlEquals(e.hardware.salt, hardware.salt)
  }

  /** The rows a velocity limit counts; the cascade leaves out those of the operation at hand. */
  function IdAttempts(l: Ledger, id: ReferralId, start: Time, exclude: Option<OperationId>): set<RewardId> {
    set i | i in l && l[i].referralId == id && l[i].createdAt >= start
      && (l[i].operation.None? || exclude.None? || l[i].operation != exclude)
  }

  predicate NotOf(r: Reward, operation: Option<OperationId>) {
    r.operation.None? || operation.None? || r.operation != operation
  }

  predicate SameReferred(r: Reward, q: Request) {
    r.referred == q.referred || (q.installation.Some? && r.installation == q.installation)
  }

  predicate Unrecognised(r: Reward) {
    r.skipReason in {Some("unknown_referral_id"), Some("unknown_referral_id_rate_limited")}
  }

  /** The attempts of the same person or installation, all of them or those with unknown codes only. */
  function AttemptsBy(l: Ledger, q: Request, start: Time, unknownOnly: bool): set<RewardId> {
    set i | i in l && l[i].createdAt >= start && SameReferred(l[i], q) && NotOf(l[i], q.operation)
      && (unknownOnly ==> Unrecognised(l[i]))
  }

  /** The columns that the mode compares. */
  predicate SameAddress(r: Reward, q: Request) {
    || (!q.mode.Legacy? && SqlEquals(r.ipDigest, q.ipDigest))
    || (!q.mode.Keyed? && SqlEquals(r.ipHash, q.ipHash))
  }

  /** The attempts from the same address. */
  function AttemptsFrom(l: Ledger, q: Request, start: Time, unknownOnly: bool): set<RewardId> {
    set i | i in l && l[i].createdAt >= start && SameAddress(l[i], q) && NotOf(l[i], q.operation)
      && (unknownOnly ==> Unrecognised(l[i]))
  }

  /** isValidShapedReferralAttemptRateLimited and isUnknownReferralAttemptRateLimited */
  predicate AttemptLimited(l: Ledger, q: Request, limit: AttemptLimit, unknownOnly: bool) {
    var start := WindowStart(q.now, limit.window);
    || |AttemptsBy(l, q, start, unknownOnly)| >= limit.perInstallation
    || (q.ipDigest.Some? && |AttemptsFrom(l, q, start, unknownOnly)| >= limit.perIp)
  }

  function ReferrerRewards(l: Ledger, owner: Person, start: Time, exclude: Option<OperationId>): set<RewardId> {
    set i | i in l && Counted(l[i]) && l[i].referrer == Some(owner) && l[i].createdAt >= start
      && (l[i].operation.None? || exclude.None? || l[i].operation != exclude)
  }

  // ---------------------------------------------------------------- the INSERT ... SELECT

  predicate OwnerEligibleInInsert(t: Tables, code: Code, now: Time) {
    || (code.owner.source.Discord? && code.installation.Some? && (code.owner.subject, code.installation.value) in t.identities)
    || (code.owner.source.Qq? && QqOwnerEligible(t, code.owner.subject, now))
  }

  /** The guard of the INSERT ... SELECT, conjunct by conjunct. */
  predicate InsertAccepts(t: Tables, controls: Controls, a: Attempt) {
    var q := a.request;
    q.referralId in t.codes
    && var code := t.codes[q.referralId];
       && code.active
       && OwnerEligibleInInsert(t, code, q.now)
       && !(code.owner.source == q.referred.source && code.owner.subject == q.referred.subject)
       && !(q.installation.Some? && code.installation.Some? && code.installation == q.installation)
       && (!code.owner.source.Discord? || !q.referred.source.Discord? || !SameHardware(t, code.owner.subject, a.hardware))
       && Room(t.ledger, code.owner, q)
       && |IdAttempts(t.ledger, q.referralId, WindowStart(q.now, controls.idWindow), None)| < controls.idMax
       && |ReferrerRewards(t.ledger, code.owner, WindowStart(q.now, controls.referrerWindow), None)| < controls.referrerMax
  }

  /** INSERT OR IGNORE: an operation that already has a row conflicts. */
  predicate Inserts(t: Tables, controls: Controls, a: Attempt) {
    InsertAccepts(t, controls, a) && !OperationTaken(t.ledger, a.request.operation)
  }

  // ---------------------------------------------------------------- the cascade

  /** hasActiveReferralOwnerIdentity, whose empty-string test comes before the query. */
  predicate OwnerEligibleInCascade(t: Tables, code: Code, now: Time) {
    if code.owner.source.Discord? then
      code.installation.Some? && code.installation.value != "" && (code.owner.subject, code.installation.value) in t.identities
    else QqOwnerEligible(t, code.owner.subject, now)
  }

  /** resolveIssueReferralSkip */
  function Cascade(t: Tables, controls: Controls, a: Attempt): Reason {
    var q := a.request;
    if q.referralId !in t.codes then UnknownReferralId
    else
      var code := t.codes[q.referralId];
      if !code.active then DisabledReferralId
      else if code.owner == q.referred then SelfReferral
      else if q.installation.Some? && code.installation == q.installation then SelfInstallation
      else if !OwnerEligibleInCascade(t, code, q.now) then ReferrerNotEligible
      else if code.owner.source.Discord? && q.referred.source.Discord? && SameHardware(t, code.owner.subject, a.hardware)
        then DuplicateHardware
      else if ReferredTaken(t.ledger, q) then ReferredAlreadyRewarded
      else if |CountedIn(t.ledger, ByReferrer(code.owner))| >= INVITE_LIMIT then ReferrerCapReached
      else if q.referred.source.Qq? && q.globalLimit.Some? && q.globalWindowStart.Some?
              && |CountedQqSince(t.ledger, q.globalWindowStart.value)| >= q.globalLimit.value then GlobalCapReached
      else CascadeVelocity(t, controls, q, code.owner)
  }

  function CascadeVelocity(t: Tables, controls: Controls, q: Request, owner: Person): Reason {
    if |IdAttempts(t.ledger, q.referralId, WindowStart(q.now, controls.idWindow), q.operation)| >= controls.idMax
    then ReferralVelocityLimited
    else if |ReferrerRewards(t.ledger, owner, WindowStart(q.now, controls.referrerWindow), q.operation)| >= controls.referrerMax
    then ReferrerVelocityLimited
    else ReservationConflict
  }

  // ---------------------------------------------------------------- the reasons, stated on their own

  /** The owner of a code can be rewarded: an active Discord identity, or a delivered QQ key that has not run out. */
  predicate CanBeRewarded(t: Tables, code: Code, now: Time) {
    match code.owner.source
    case Discord => code.installation.Some? && (code.owner.subject, code.installation.value) in t.identities
    case Qq =>
      code.owner.subject in t.qqEntitlements
      && var e := t.qqEntitlements[code.owner.subject];
         && e.active && e.deliveredAt.Some? && e.expiresAt.Some? && e.expiresAt.value / 1000 >= now / 1000
         && e.credential.Some? && exists k :: 0 <= k < |e.credential.value| && e.credential.value[k] != ' '
  }

  lemma EligibilityIs(t: Tables, code: Code, now: Time)
    ensures OwnerEligibleInInsert(t, code, now) <==> CanBeRewarded(t, code, now)
  {
  }

  /** What each reason claims about the tables. */
  ghost predicate Holds(reason: Reason, t: Tables, controls: Controls, a: Attempt) {
    var q, l := a.request, t.ledger;
    if reason.UnknownReferralId? then q.referralId !in t.codes
    else
      q.referralId in t.codes
      && var code := t.codes[q.referralId];
         match reason
         case DisabledReferralId => !code.active
         case SelfReferral => code.owner == q.referred
         case SelfInstallation => q.installation.Some? && code.installation == q.installation
         case ReferrerNotEligible => !CanBeRewarded(t, code, q.now)
         case DuplicateHardware =>
           code.owner.source == Discord && q.referred.source == Discord && a.hardware.hash.Some? && a.hardware.salt.Some?
           && exists e :: e in t.openRouter && e.discordUser == code.owner.subject && e.status && e.issueStatus
                && e.hardware == a.hardware
         case ReferredAlreadyRewarded =>
           |OfInvited(l, q.referred)| > 0 || (q.installation.Some? && |OfInstallation(l, q.installation.value)| > 0)
         case ReferrerCapReached => |OfReferrer(l, code.owner)| >= 3
         case GlobalCapReached =>
           q.referred.source == Qq && q.globalLimit.Some? && q.globalWindowStart.Some?
           && |QqSince(l, q.globalWindowStart.value)| >= q.globalLimit.value
         case ReferralVelocityLimited =>
           |set i | i in l && l[i].referralId == q.referralId
                    && l[i].createdAt >= q.now - controls.idWindow * 60_000| >= controls.idMax
         case ReferrerVelocityLimited =>
           |set i | i in l && l[i].referredBonus in {Reserved, Credited} && l[i].referrer == Some(code.owner)
                    && l[i].createdAt >= q.now - controls.referrerWindow * 60_000| >= controls.referrerMax
         case AttemptRateLimited => false
         case UnknownRateLimited => false
         case ReservationConflict => false
  }

  /** The reserved and credited rewards of QQ since a time. */
  function QqSince(l: Ledger, start: Time): set<RewardId> {
    set i | i in l && l[i].referredBonus in {Reserved, Credited} && l[i].referred.source == Qq && l[i].createdAt >= start
  }

  /** An earlier attempt of the same person, or of the same installation where the request names one. */
  predicate ByTheSame(r: Reward, q: Request) {
    r.referred == q.referred || (q.installation.Some? && r.installation == q.installation)
  }

  /** It was skipped because its code was not known. */
  predicate HadUnknownCode(r: Reward) {
    r.skipReason == Some("unknown_referral_id") || r.skipReason == Some("unknown_referral_id_rate_limited")
  }

  /** Too many attempts in the window, by the person or installation or from the address. */
  ghost predicate TooManyAttempts(l: Ledger, q: Request, limit: AttemptLimit, unknownOnly: bool) {
    var start := q.now - limit.window * 60_000;
    || |set i | i in l && l[i].createdAt >= start && ByTheSame(l[i], q) && (unknownOnly ==> HadUnknownCode(l[i]))|
         >= limit.perInstallation
    || (q.ipDigest.Some?
        && |set i | i in l && l[i].createdAt >= start && FromAddressOf(l[i], q) && (unknownOnly ==> HadUnknownCode(l[i]))|
             >= limit.perIp)
  }

  /** The attempt carries the request's digest, or its plain hash while that is still in use. */
  predicate FromAddressOf(r: Reward, q: Request) {
    match q.mode
    case Legacy => q.ipHash.Some? && r.ipHash == q.ipHash
    case Dual => (q.ipDigest.Some? && r.ipDigest == q.ipDigest) || (q.ipHash.Some? && r.ipHash == q.ipHash)
    case Keyed => q.ipDigest.Some? && r.ipDigest == q.ipDigest
  }

  // ---------------------------------------------------------------- the two sides agree

  lemma WithoutEarlierRowNothingIsExcluded(l: Ledger, id: ReferralId, owner: Person, start: Time, operation: Option<OperationId>)
    requires !OperationTaken(l, operation)
    ensures IdAttempts(l, id, start, operation) == IdAttempts(l, id, start, None)
    ensures ReferrerRewards(l, owner, start, operation) == ReferrerRewards(l, owner, start, None)
  {
  }

  lemma TakenMeansCounted(l: Ledger, q: Request)
    ensures ReferredTaken(l, q) <==>
              |OfInvited(l, q.referred)| > 0
              || (q.installation.Some? && |OfInstallation(l, q.installation.value)| > 0)
  {
    if ReferredTaken(l, q) {
      var i :| i in l && Counted(l[i])
        && (l[i].referred == q.referred || (q.installation.Some? && l[i].installation == q.installation));
      assert l[i].referred == q.referred ==> i in OfInvited(l, q.referred);
      assert l[i].referred != q.referred ==> i in OfInstallation(l, q.installation.value);
    } else {
      assert OfInvited(l, q.referred) == {};
      assert q.installation.Some? ==> OfInstallation(l, q.installation.value) == {};
    }
  }

  /** The counts behind the two caps. */
  lemma CapSets(l: Ledger, owner: Person, start: Time)
    ensures CountedIn(l, ByReferrer(owner)) == OfReferrer(l, owner) && CountedQqSince(l, start) == QqSince(l, start)
  {
  }

  lemma VelocitySets(t: Tables, controls: Controls, q: Request, owner: Person)
    requires !OperationTaken(t.ledger, q.operation)
    ensures IdAttempts(t.ledger, q.referralId, WindowStart(q.now, controls.idWindow), q.operation)
         == set i | i in t.ledger && t.ledger[i].referralId == q.referralId
                    && t.ledger[i].createdAt >= q.now - controls.idWindow * 60_000
    ensures ReferrerRewards(t.ledger, owner, WindowStart(q.now, controls.referrerWindow), q.operation)
         == set i | i in t.ledger && t.ledger[i].referredBonus in {Reserved, Credited} && t.ledger[i].referrer == Some(owner)
                    && t.ledger[i].createdAt >= q.now - controls.referrerWindow * 60_000
  {
  }

  lemma HardwareIs(t: Tables, owner: string, hardware: Hardware)
    ensures SameHardware(t, owner, hardware) <==>
              hardware.hash.Some? && hardware.salt.Some?
              && exists e :: e in t.openRouter && e.discordUser == owner && e.status && e.issueStatus && e.hardware == hardware
  {
    if hardware.hash.Some? && hardware.salt.Some?
       && exists e :: e in t.openRouter && e.discordUser == owner && e.status && e.issueStatus && e.hardware == hardware {
      var e :| e in t.openRouter && e.discordUser == owner && e.status && e.issueStatus && e.hardware == hardware;
      assert SqlEquals(e.hardware.hash, hardware.hash) && SqlEquals(e.hardware.salt, hardware.salt);
    }
  }

  /** The two sides in the terms of the reasons. */
  lemma ReasonTerms(t: Tables, controls: Controls, a: Attempt)
    requires !OperationTaken(t.ledger, a.request.operation) && a.request.referralId in t.codes
    ensures var q, code := a.request, t.codes[a.request.referralId];
            && (OwnerEligibleInInsert(t, code, q.now) <==> !Holds(ReferrerNotEligible, t, controls, a))
            && (ReferredTaken(t.ledger, q) <==> Holds(ReferredAlreadyRewarded, t, controls, a))
            && ((code.owner.source.Discord? && q.referred.source.Discord? && SameHardware(t, code.owner.subject, a.hardware))
                <==> Holds(DuplicateHardware, t, controls, a))
            && (|CountedIn(t.ledger, ByReferrer(code.owner))| >= INVITE_LIMIT <==> Holds(ReferrerCapReached, t, controls, a))
            && ((q.referred.source.Qq? && q.globalLimit.Some? && q.globalWindowStart.Some?
                 && |CountedQqSince(t.ledger, q.globalWindowStart.value)| >= q.globalLimit.value)
                <==> Holds(GlobalCapReached, t, controls, a))
            && (|IdAttempts(t.ledger, q.referralId, WindowStart(q.now, controls.idWindow), q.operation)| >= controls.idMax
                <==> Holds(ReferralVelocityLimited, t, controls, a))
            && (|ReferrerRewards(t.ledger, code.owner, WindowStart(q.now, controls.referrerWindow), q.operation)| >= controls.referrerMax
                <==> Holds(ReferrerVelocityLimited, t, controls, a))
  {
    var q, code := a.request, t.codes[a.request.referralId];
    EligibilityIs(t, code, q.now);
    TakenMeansCounted(t.ledger, q);
    HardwareIs(t, code.owner.subject, a.hardware);
    CapSets(t.ledger, code.owner, if q.globalWindowStart.Some? then q.globalWindowStart.value else 0);
    VelocitySets(t, controls, q, code.owner);
  }

  /** Any reason the cascade names, other than the catch-all, is true. */
  lemma CascadeReasonHolds(t: Tables, controls: Controls, a: Attempt)
    requires SchemaOk(t) && !OperationTaken(t.ledger, a.request.operation)
    ensures var reason := Cascade(t, controls, a);
            reason != ReservationConflict ==> Holds(reason, t, controls, a)
  {
    if a.request.referralId in t.codes { ReasonTerms(t, controls, a); }
  }

  /** The order in which the cascade looks for a reason. */
  const ORDER := [UnknownReferralId, DisabledReferralId, SelfReferral, SelfInstallation, ReferrerNotEligible, DuplicateHardware,
                  ReferredAlreadyRewarded, ReferrerCapReached, GlobalCapReached, ReferralVelocityLimited, ReferrerVelocityLimited]

  /** The reason named is the first of them that holds. */
  lemma FirstReasonIsNamed(t: Tables, controls: Controls, a: Attempt, k: nat)
    requires SchemaOk(t) && !OperationTaken(t.ledger, a.request.operation)
    requires k < |ORDER| && Holds(ORDER[k], t, controls, a) && forall j :: 0 <= j < k ==> !Holds(ORDER[j], t, controls, a)
    ensures Cascade(t, controls, a) == ORDER[k]
  {
    CascadeReasonHolds(t, controls, a);
    ConflictExactlyWithoutReason(t, controls, a);
    if a.request.referralId in t.codes {
      ReasonTerms(t, controls, a);
      CascadeGoesPast(t, controls, a, k);
    }
  }

  /** It looks for each of them only after the ones before it failed. */
  lemma CascadeGoesPast(t: Tables, controls: Controls, a: Attempt, k: nat)
    requires SchemaOk(t) && !OperationTaken(t.ledger, a.request.operation) && a.request.referralId in t.codes
    requires k < |ORDER| && Holds(ORDER[k], t, controls, a)
    ensures exists j :: 0 <= j <= k && Cascade(t, controls, a) == ORDER[j]
  {
    ReasonTerms(t, controls, a);
    assert ORDER[0] == UnknownReferralId && ORDER[1] == DisabledReferralId && ORDER[2] == SelfReferral;
    assert ORDER[3] == SelfInstallation && ORDER[4] == ReferrerNotEligible && ORDER[5] == DuplicateHardware;
    assert ORDER[6] == ReferredAlreadyRewarded && ORDER[7] == ReferrerCapReached && ORDER[8] == GlobalCapReached;
    assert ORDER[9] == ReferralVelocityLimited && ORDER[10] == ReferrerVelocityLimited;
  }

  /** The catch-all is left exactly when none of the reasons holds. */
  lemma ConflictExactlyWithoutReason(t: Tables, controls: Controls, a: Attempt)
    requires SchemaOk(t) && !OperationTaken(t.ledger, a.request.operation)
    ensures Cascade(t, controls, a) == ReservationConflict <==> forall reason :: !Holds(reason, t, controls, a)
  {
    CascadeReasonHolds(t, controls, a);
    if a.request.referralId in t.codes { ReasonTerms(t, controls, a); }
    assert Cascade(t, controls, a) == ReservationConflict ==> forall reason :: !Holds(reason, t, controls, a);
  }

  /** The guard of the insert is the conjunction of the negated reasons. */
  lemma AcceptsExactlyWithoutReason(t: Tables, controls: Controls, a: Attempt)
    requires SchemaOk(t) && !OperationTaken(t.ledger, a.request.operation)
    ensures InsertAccepts(t, controls, a) <==> forall reason :: !Holds(reason, t, controls, a)
  {
    AcceptsExactlyWhenConflict(t, controls, a);
    ConflictExactlyWithoutReason(t, controls, a);
  }

  /**
   Run without interleaving and for an operation without an earlier row, the insert refuses exactly
   when the cascade names a real reason: the fallback reason never reaches a caller.
   */
  lemma AcceptsExactlyWhenConflict(t: Tables, controls: Controls, a: Attempt)
    requires SchemaOk(t) && !OperationTaken(t.ledger, a.request.operation)
    ensures Inserts(t, controls, a) <==> Cascade(t, controls, a) == ReservationConflict
  {
    var q := a.request;
    if q.referralId in t.codes {
      var owner := t.codes[q.referralId].owner;
      WithoutEarlierRowNothingIsExcluded(t.ledger, q.referralId, owner, WindowStart(q.now, controls.idWindow), q.operation);
      WithoutEarlierRowNothingIsExcluded(t.ledger, q.referralId, owner, WindowStart(q.now, controls.referrerWindow), q.operation);
    }
  }

  // ---------------------------------------------------------------- reserveIssueReferralReward

  datatype Input = NoInput | Malformed | Given(attempt: Attempt)

  datatype Outcome = NotApplicable | ReservedFor(referralId: ReferralId) | SkippedBecause(reason: Reason)

  /** The stored form of a reason. */
  function Text(reason: Reason): string {
    match reason
    case UnknownReferralId => "unknown_referral_id"
    case DisabledReferralId => "disabled_referral_id"
    case SelfReferral => "self_referral"
    case SelfInstallation => "self_or_cross_source_installation"
    case ReferrerNotEligible => "referrer_not_eligible"
    case DuplicateHardware => "duplicate_hardware"
    case ReferredAlreadyRewarded => "referred_already_rewarded"
    case ReferrerCapReached => "referrer_cap_reached"
    case GlobalCapReached => "global_reward_cap_reached"
    case ReferralVelocityLimited => "referral_velocity_limited"
    case ReferrerVelocityLimited => "referrer_velocity_limited"
    case ReservationConflict => "reservation_conflict"
    case AttemptRateLimited => "referral_attempt_rate_limited"
    case UnknownRateLimited => "unknown_referral_id_rate_limited"
  }

  lemma TextIsInjective(a: Reason, b: Reason)
    requires Text(a) == Text(b)
    ensures a == b
  {
  }

  function ReasonOf(text: Option<string>): Reason {
    assert forall a, b | Text(a) == Text(b) :: a == b by {
      forall a, b | Text(a) == Text(b) ensures a == b { TextIsInjective(a, b); }
    }
    if exists reason :: text == Some(Text(reason)) then
      var reason :| text == Some(Text(reason)); reason
    else ReservationConflict
  }

  /** getOperationReferralReward on the row it finds. */
  function Reused(r: Reward): Outcome {
    if Counted(r) then ReservedFor(r.referralId) else SkippedBecause(ReasonOf(r.skipReason))
  }

  /** A request's outcome. */
  function Decide(t: Tables, controls: Controls, a: Attempt): Outcome {
    var q := a.request;
    if AttemptLimited(t.ledger, q, controls.shaped, false) then SkippedBecause(AttemptRateLimited)
    else if q.referralId !in t.codes then
      SkippedBecause(if AttemptLimited(t.ledger, q, controls.unknown, true) then UnknownRateLimited
                     else UnknownReferralId)
    else if !t.codes[q.referralId].active then SkippedBecause(DisabledReferralId)
    else if |IdAttempts(t.ledger, q.referralId, WindowStart(q.now, controls.idWindow), q.operation)| >= controls.idMax
      then SkippedBecause(ReferralVelocityLimited)
    else if Inserts(t, controls, a) then ReservedFor(q.referralId)
    else SkippedBecause(Cascade(t, controls, a))
  }

  /** For an operation without an earlier row the queries, which leave its rows out, count all attempts. */
  lemma AttemptCountsAreWhole(l: Ledger, q: Request, limit: AttemptLimit, unknownOnly: bool)
    requires !OperationTaken(l, q.operation)
    ensures AttemptLimited(l, q, limit, unknownOnly) <==> TooManyAttempts(l, q, limit, unknownOnly)
  {
    var start := WindowStart(q.now, limit.window);
    assert forall i | i in l :: NotOf(l[i], q.operation);
    assert AttemptsBy(l, q, start, unknownOnly)
        == set i | i in l && l[i].createdAt >= start && ByTheSame(l[i], q) && (unknownOnly ==> HadUnknownCode(l[i]));
    assert AttemptsFrom(l, q, start, unknownOnly)
        == set i | i in l && l[i].createdAt >= start && FromAddressOf(l[i], q) && (unknownOnly ==> HadUnknownCode(l[i]));
  }

  /**
   Every refusal gives a true reason, never the fallback; every reservation is within the attempt
   limit and meets none of the reasons.
   */
  lemma DecisionIsTruthful(t: Tables, controls: Controls, a: Attempt)
    requires SchemaOk(t) && !OperationTaken(t.ledger, a.request.operation)
    ensures var shaped := TooManyAttempts(t.ledger, a.request, controls.shaped, false);
            match Decide(t, controls, a)
            case NotApplicable => false
            case ReservedFor(id) => !shaped && id == a.request.referralId && forall reason :: !Holds(reason, t, controls, a)
            case SkippedBecause(AttemptRateLimited) => shaped
            case SkippedBecause(UnknownRateLimited) =>
              !shaped && Holds(UnknownReferralId, t, controls, a)
              && TooManyAttempts(t.ledger, a.request, controls.unknown, true)
            case SkippedBecause(reason) => !shaped && Holds(reason, t, controls, a)
  {
    AttemptCountsAreWhole(t.ledger, a.request, controls.shaped, false);
    AttemptCountsAreWhole(t.ledger, a.request, controls.unknown, true);
    AcceptsExactlyWhenConflict(t, controls, a);
    ConflictExactlyWithoutReason(t, controls, a);
    CascadeReasonHolds(t, controls, a);
    if a.request.referralId in t.codes { ReasonTerms(t, controls, a); }
  }

  /** Which of several reasons decides: too many attempts, the code itself, its velocity, and then the order of the cascade. */
  lemma DecisionIsExact(t: Tables, controls: Controls, a: Attempt)
    requires SchemaOk(t) && !OperationTaken(t.ledger, a.request.operation)
    ensures var q, decision := a.request, Decide(t, controls, a);
            if TooManyAttempts(t.ledger, q, controls.shaped, false) then decision == SkippedBecause(AttemptRateLimited)
            else if q.referralId !in t.codes then
              decision == SkippedBecause(if TooManyAttempts(t.ledger, q, controls.unknown, true) then UnknownRateLimited else UnknownReferralId)
            else if !t.codes[q.referralId].active then decision == SkippedBecause(DisabledReferralId)
            else if Holds(ReferralVelocityLimited, t, controls, a) then decision == SkippedBecause(ReferralVelocityLimited)
            else if forall reason :: !Holds(reason, t, controls, a) then decision == ReservedFor(q.referralId)
            else decision == SkippedBecause(Cascade(t, controls, a))
  {
    AttemptCountsAreWhole(t.ledger, a.request, controls.shaped, false);
    AttemptCountsAreWhole(t.ledger, a.request, controls.unknown, true);
    AcceptsExactlyWhenConflict(t, controls, a);
    ConflictExactlyWithoutReason(t, controls, a);
    if a.request.referralId in t.codes { ReasonTerms(t, controls, a); }
  }

  function OwnerOf(t: Tables, id: ReferralId): Option<Person> {
    if id in t.codes then Some(t.codes[id].owner) else None
  }

  /** The ledger after the decision: one new row under `id`, reserved or skipped. */
  function Recorded(t: Tables, a: Attempt, outcome: Outcome, id: RewardId): Ledger {
    match outcome
    case NotApplicable => t.ledger
    case ReservedFor(_) =>
      if a.request.referralId in t.codes
      then t.ledger[id := ReservedRow(t.codes[a.request.referralId].owner, a.request)] else t.ledger
    case SkippedBecause(reason) =>
      t.ledger[id := SkippedRow(OwnerOf(t, a.request.referralId), a.request, Text(reason))]
  }

  /** The one row a decision leaves, beside the rows that were there. */
  lemma DecisionIsRecorded(t: Tables, a: Attempt, outcome: Outcome, id: RewardId)
    requires id !in t.ledger && (outcome.ReservedFor? ==> a.request.referralId in t.codes)
    ensures outcome == NotApplicable ==> Recorded(t, a, outcome, id) == t.ledger
    ensures outcome != NotApplicable ==>
              var l, q := Recorded(t, a, outcome, id), a.request;
              && l.Keys == t.ledger.Keys + {id} && (forall i | i in t.ledger :: l[i] == t.ledger[i])
              && l[id].referralId == q.referralId && l[id].referred == q.referred && l[id].installation == q.installation
              && l[id].operation == q.operation && l[id].createdAt == q.now
              && l[id].referrer == (if q.referralId in t.codes then Some(t.codes[q.referralId].owner) else None)
              && (outcome.ReservedFor? ==> l[id].referredBonus == Reserved && l[id].referrerBonus == Pending && l[id].skipReason == None)
              && (outcome.SkippedBecause? ==>
                    l[id].referredBonus == Skipped && l[id].referrerBonus == Skipped && l[id].skipReason == Some(Text(outcome.reason)))
  {
  }

  /** The attempts with unknown codes are found again by the text they were skipped with, and no others are. */
  lemma UnknownAttemptsAreFoundAgain(t: Tables, a: Attempt, reason: Reason, id: RewardId)
    requires id !in t.ledger
    ensures HadUnknownCode(Recorded(t, a, SkippedBecause(reason), id)[id]) <==> reason in {UnknownReferralId, UnknownRateLimited}
  {
  }

  /** The texts the reasons are stored under. */
  lemma ReasonsAreStoredAs()
    ensures Text(UnknownReferralId) == "unknown_referral_id" && Text(DisabledReferralId) == "disabled_referral_id"
    ensures Text(SelfReferral) == "self_referral" && Text(SelfInstallation) == "self_or_cross_source_installation"
    ensures Text(ReferrerNotEligible) == "referrer_not_eligible" && Text(DuplicateHardware) == "duplicate_hardware"
    ensures Text(ReferredAlreadyRewarded) == "referred_already_rewarded" && Text(ReferrerCapReached) == "referrer_cap_reached"
    ensures Text(GlobalCapReached) == "global_reward_cap_reached" && Text(ReservationConflict) == "reservation_conflict"
    ensures Text(ReferralVelocityLimited) == "referral_velocity_limited" && Text(ReferrerVelocityLimited) == "referrer_velocity_limited"
    ensures Text(AttemptRateLimited) == "referral_attempt_rate_limited" && Text(UnknownRateLimited) == "unknown_referral_id_rate_limited"
  {
  }

  class ReferralDesk {
    var tables: Tables

    /** getOperationReferralReward; the operation column is unique, so the newest row is the only one. */
    method GetOperationReferralReward(operation: OperationId) returns (reused: Option<Outcome>)
      ensures reused.Some? <==> OperationTaken(tables.ledger, Some(operation))
      ensures reused.Some? ==>
                exists i :: i in tables.ledger && tables.ledger[i].operation == Some(operation)
                  && reused == Some(Reused(tables.ledger[i]))
    {
      if exists i :: i in tables.ledger && tables.ledger[i].operation == Some(operation) {
        var i :| i in tables.ledger && tables.ledger[i].operation == Some(operation);
        return Some(Reused(tables.ledger[i]));
      }
      return None;
    }

    method InsertSkipped(id: RewardId, a: Attempt, reason: Reason)
      requires id !in tables.ledger
      modifies this
      ensures tables == old(tables).(ledger := Recorded(old(tables), a, SkippedBecause(reason), id))
    {
      var owner := OwnerOf(tables, a.request.referralId);
      tables := tables.(ledger := tables.ledger[id := SkippedRow(owner, a.request, Text(reason))]);
    }

    /** The two attempt-rate checks: by person or installation first, then by address. */
    method IsAttemptRateLimited(q: Request, limit: AttemptLimit, unknownOnly: bool) returns (limited: bool)
      ensures limited <==> AttemptLimited(tables.ledger, q, limit, unknownOnly)
    {
      var start := WindowStart(q.now, limit.window);
      if |AttemptsBy(tables.ledger, q, start, unknownOnly)| >= limit.perInstallation { return true; }
      return q.ipDigest.Some? && |AttemptsFrom(tables.ledger, q, start, unknownOnly)| >= limit.perIp;
    }

    method ReserveIssueReferralReward(input: Input, controls: Controls, id: RewardId)
      returns (outcome: Outcome)
      requires id !in tables.ledger
      modifies this
      ensures !input.Given? ==> outcome == NotApplicable && tables == old(tables)
      ensures input.Given? && OperationTaken(old(tables).ledger, input.attempt.request.operation) ==>
                tables == old(tables)
                && exists i :: i in tables.ledger && tables.ledger[i].operation == input.attempt.request.operation
                     && outcome == Reused(tables.ledger[i])
      ensures input.Given? && !OperationTaken(old(tables).ledger, input.attempt.request.operation) ==>
                outcome == Decide(old(tables), controls, input.attempt)
                && tables == old(tables).(ledger := Recorded(old(tables), input.attempt, outcome, id))
    {
      if !input.Given? { return NotApplicable; }
      var a := input.attempt;
      var q := a.request;
      if q.operation.Some? {
        var reused := GetOperationReferralReward(q.operation.value);
        if reused.Some? { return reused.value; }
      }
      var limited := IsAttemptRateLimited(q, controls.shaped, false);
      if limited {
        InsertSkipped(id, a, AttemptRateLimited);
        return SkippedBecause(AttemptRateLimited);
      }
      if q.referralId !in tables.codes {
        var unknownLimited := IsAttemptRateLimited(q, controls.unknown, true);
        var reason := if unknownLimited then UnknownRateLimited else UnknownReferralId;
        InsertSkipped(id, a, reason);
        return SkippedBecause(reason);
      }
      var code := tables.codes[q.referralId];
      if !code.active {
        InsertSkipped(id, a, DisabledReferralId);
        return SkippedBecause(DisabledReferralId);
      }
      if |IdAttempts(tables.ledger, q.referralId, WindowStart(q.now, controls.idWindow), q.operation)| >= controls.idMax {
        InsertSkipped(id, a, ReferralVelocityLimited);
        return SkippedBecause(ReferralVelocityLimited);
      }
      if Inserts(tables, controls, a) {
        tables := tables.(ledger := tables.ledger[id := ReservedRow(code.owner, q)]);
        return ReservedFor(q.referralId);
      }
      var reason := Cascade(tables, controls, a);
      InsertSkipped(id, a, reason);
      return SkippedBecause(reason);
    }
  }

  /** Asking again for the same operation returns the recorded outcome, whatever has changed around it. */
  lemma RecordedOutcomeIsReused(t: Tables, controls: Controls, a: Attempt, id: RewardId)
    requires id !in t.ledger && a.request.operation.Some? && !OperationTaken(t.ledger, a.request.operation)
    ensures var outcome := Decide(t, controls, a);
            var l := Recorded(t, a, outcome, id);
            && (forall i | i in l && l[i].operation == a.request.operation :: i == id)
            && id in l && Reused(l[id]) == outcome
  {
    var outcome := Decide(t, controls, a);
    if outcome.SkippedBecause? {
      var text := Some(Text(outcome.reason));
      assert text == Some(Text(outcome.reason));
      TextIsInjective(ReasonOf(text), outcome.reason);
    }
  }
}
