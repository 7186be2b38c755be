/**
 The limit arithmetic of the two settlement phases and of the legacy referrer update, in cents.

 A try reads the provider's limit, raises it to a target, verifies it and commits budget and status
 in one batch; it may stop after any of these.  Tries on one key do not interleave here.
 */
module SettlementLimits {
  import opened Common
  import opened ReferralRewards

  const HARD_LIMIT: nat := 7
  const MIN_INVITEE_LIMIT: nat := 9
  const REFERRER_REWARD: nat := 2

  /** The managed key of a person: the provider's limit and the budget of the entitlement. */
  datatype Key = Key(credential: Credential, limit: nat, budget: nat)

  function Max(a: nat, b: nat): nat { if a < b then b else a }

  /** `settled` is history: the rewards whose invitee a settlement phase credited. */
  datatype World = World(ledger: Ledger, keys: map<Person, Key>, settled: set<RewardId>)

  /** Where a try stops; a lost raise was asked for and not carried out. */
  datatype Stop = BeforeRaise | LostRaise | AfterRaise | Commits

  // ---------------------------------------------------------------- one try on one key

  /** The target both phases compute from a floor, the budget and the limit they read. */
  function TargetLimit(k: Key, floor: nat): nat { Max(Max(floor, k.budget), k.limit) }

  function Raised(k: Key, target: nat): Key {
    if k.limit < target then k.(limit := target) else k
  }

  /** The budget UPDATE, which never lowers it; the persisted value covers the verified limit. */
  function Persisted(k: Key, target: nat): Key {
    k.(budget := Max(k.budget, Max(target, k.limit)))
  }

  function TryKey(k: Key, floor: nat, stop: Stop): Key {
    var target := TargetLimit(k, floor);
    match stop
    case BeforeRaise => k
    case LostRaise => k
    case AfterRaise => Raised(k, target)
    case Commits => Persisted(Raised(k, target), target)
  }

  // ---------------------------------------------------------------- the two phases

  function ReferrerFloor(rewards: nat): nat { HARD_LIMIT + rewards * REFERRER_REWARD }

  /** The other rewards that the referrer's target reflects. */
  function OtherReflected(l: Ledger, id: RewardId, owner: Person): set<RewardId> {
    set i | i in l && i != id && l[i].referrer == Some(owner) && l[i].referredBonus.Credited?
      && (Unsettled(l[i].referrerBonus) || l[i].referrerBonus.Credited?)
  }

  /** processInviteePhase for a reward whose invitee holds a delivered key. */
  function InviteeTry(w: World, id: RewardId, now: Time, stop: Stop): World {
    if id !in w.ledger || !w.ledger[id].referredBonus.Reserved? || w.ledger[id].referred !in w.keys then w
    else
      var person := w.ledger[id].referred;
      var k := w.keys[person];
      var v := w.(keys := w.keys[person := TryKey(k, MIN_INVITEE_LIMIT, stop)]);
      if stop.Commits?
      then v.(ledger := Apply(w.ledger, SettleInvitee(id, person.subject, k.credential, now)), settled := w.settled + {id})
      else v
  }

  /** processReferrerPhase for a reward whose referrer holds an active key. */
  function ReferrerTry(w: World, id: RewardId, now: Time, stop: Stop): World {
    if id !in w.ledger || !w.ledger[id].referredBonus.Credited? || !Unsettled(w.ledger[id].referrerBonus)
       || w.ledger[id].referrer.None? || w.ledger[id].referrer.value !in w.keys then w
    else
      var owner := w.ledger[id].referrer.value;
      var k := w.keys[owner];
      var floor := ReferrerFloor(|OtherReflected(w.ledger, id, owner)| + 1);
      var v := w.(keys := w.keys[owner := TryKey(k, floor, stop)]);
      if stop.Commits? then v.(ledger := Apply(w.ledger, SettleReferrer(id, owner, k.credential, now))) else v
  }

  /** The rewards the legacy target reflects: those under this key that are not failed. */
  function LegacyReflected(l: Ledger, owner: Person, credential: Credential): set<RewardId> {
    set i | i in l && l[i].referrer == Some(owner) && l[i].referredBonus.Credited?
      && (l[i].referrerBonus.Pending? || l[i].referrerBonus.Applying? || l[i].referrerBonus.Credited?)
      && CredentialFree(l[i], credential)
  }

  /** applyReferrerRewardLimitUpdateAttempt: lease, raise, budget and credit, or failure in between. */
  function LegacyTry(w: World, owner: Person, now: Time, cutoff: Time, stop: Stop, fails: bool): World {
    if owner !in w.keys then w
    else
      var k := w.keys[owner];
      var l := Apply(w.ledger, ClaimLease(owner, k.credential, now, cutoff));
      if l == w.ledger then w
      else
        var floor := ReferrerFloor(|LegacyReflected(l, owner, k.credential)|);
        var m := if stop.Commits? then Apply(l, CreditApplying(owner, k.credential, now))
                 else if fails then Apply(l, FailApplying(owner, k.credential, now))
                 else l;
        w.(ledger := m, keys := w.keys[owner := TryKey(k, floor, stop)])
  }

  // ---------------------------------------------------------------- runs

  datatype Action =
    | Issue(person: Person, credential: Credential)
    | TryInvitee(id: RewardId, now: Time, stop: Stop)
    | TryReferrer(id: RewardId, now: Time, stop: Stop)
    | TryLegacy(owner: Person, now: Time, cutoff: Time, stop: Stop, fails: bool)
    | Write(write: ReferralRewards.Write)

  /** The writers that name a key: they only run inside the tries. */
  predicate NamesKey(w: ReferralRewards.Write) {
    w.SettleInvitee? || w.SettleReferrer? || w.ClaimLease? || w.CreditApplying? || w.FailApplying?
  }

  function Next(w: World, a: Action): World {
    match a
    case Issue(person, credential) => if person in w.keys then w else w.(keys := w.keys[person := Key(credential, HARD_LIMIT, HARD_LIMIT)])
    case TryInvitee(id, now, stop) => InviteeTry(w, id, now, stop)
    case TryReferrer(id, now, stop) => ReferrerTry(w, id, now, stop)
    case TryLegacy(owner, now, cutoff, stop, fails) => LegacyTry(w, owner, now, cutoff, stop, fails)
    case Write(write) => if NamesKey(write) then w else w.(ledger := Apply(w.ledger, write))
  }

  function Run(w: World, actions: seq<Action>): World
    decreases |actions|
  {
    if actions == [] then w else Run(Next(w, actions[0]), actions[1..])
  }

  const EMPTY := World(map[], map[], {})

  // ---------------------------------------------------------------- convergence

  function InviteeTries(w: World, id: RewardId, now: Time, stops: seq<Stop>): World
    decreases |stops|
  {
    if stops == [] then w else InviteeTries(InviteeTry(w, id, now, stops[0]), id, now, stops[1..])
  }

  function ReferrerTries(w: World, id: RewardId, now: Time, stops: seq<Stop>): World
    decreases |stops|
  {
    if stops == [] then w else ReferrerTries(ReferrerTry(w, id, now, stops[0]), id, now, stops[1..])
  }

  predicate HalfDone(stops: seq<Stop>) {
    forall s | s in stops :: !s.Commits?
  }

  lemma InviteeHalfTry(w: World, id: RewardId, now: Time, stop: Stop)
    requires !stop.Commits?
    ensures InviteeTry(InviteeTry(w, id, now, stop), id, now, Commits) == InviteeTry(w, id, now, Commits)
  {
  }

  /** Any number of half-done tries followed by a success leave what one clean try leaves. */
  lemma {:induction false} InviteeConverges(w: World, id: RewardId, now: Time, stops: seq<Stop>)
    requires HalfDone(stops)
    ensures InviteeTry(InviteeTries(w, id, now, stops), id, now, Commits) == InviteeTry(w, id, now, Commits)
    decreases |stops|
  {
    if stops != [] {
      InviteeConverges(InviteeTry(w, id, now, stops[0]), id, now, stops[1..]);
      InviteeHalfTry(w, id, now, stops[0]);
    }
  }

  lemma ReferrerHalfTry(w: World, id: RewardId, now: Time, stop: Stop)
    requires !stop.Commits?
    ensures ReferrerTry(ReferrerTry(w, id, now, stop), id, now, Commits) == ReferrerTry(w, id, now, Commits)
  {
  }

  lemma {:induction false} ReferrerConverges(w: World, id: RewardId, now: Time, stops: seq<Stop>)
    requires HalfDone(stops)
    ensures ReferrerTry(ReferrerTries(w, id, now, stops), id, now, Commits) == ReferrerTry(w, id, now, Commits)
    decreases |stops|
  {
    if stops != [] {
      ReferrerConverges(ReferrerTry(w, id, now, stops[0]), id, now, stops[1..]);
      ReferrerHalfTry(w, id, now, stops[0]);
    }
  }

  // ---------------------------------------------------------------- limits never fall

  predicate Grows(k: Key, m: Key) {
    k.credential == m.credential && k.limit <= m.limit && k.budget <= m.budget
  }

  lemma NextGrows(w: World, a: Action, person: Person)
    requires person in w.keys
    ensures person in Next(w, a).keys && Grows(w.keys[person], Next(w, a).keys[person])
  {
  }

  /** Over any run, no limit and no budget falls. */
  lemma {:induction false} LimitsNeverFall(w: World, actions: seq<Action>, person: Person)
    requires person in w.keys
    ensures person in Run(w, actions).keys && Grows(w.keys[person], Run(w, actions).keys[person])
    decreases |actions|
  {
    if actions != [] {
      NextGrows(w, actions[0], person);
      LimitsNeverFall(Next(w, actions[0]), actions[1..], person);
    }
  }

  // ---------------------------------------------------------------- the invariant

  const LIMIT_CEILING: nat := 13

  function CreditedBy(l: Ledger, owner: Person): set<RewardId> {
    set i | i in l && l[i].referrer == Some(owner) && l[i].referrerBonus.Credited?
  }

  predicate Within(k: Key, floor: nat) {
    floor <= k.limit <= LIMIT_CEILING && floor <= k.budget <= LIMIT_CEILING
  }

  ghost predicate InviteCapOk(l: Ledger) {
    forall p :: |CountedIn(l, ByReferrer(p))| <= INVITE_LIMIT
  }

  /** A reward names no other referrer key than the one its referrer holds. */
  ghost predicate CredentialsOk(w: World) {
    forall i | i in w.ledger && w.ledger[i].referrer.Some? && w.ledger[i].referrerCredential.Some? ::
      w.ledger[i].referrer.value in w.keys
      && w.keys[w.ledger[i].referrer.value].credential == w.ledger[i].referrerCredential.value
  }

  ghost predicate ReferrerOk(w: World, p: Person) {
    && (p in w.keys ==> Within(w.keys[p], ReferrerFloor(|CreditedBy(w.ledger, p)|)))
    && (p !in w.keys ==> CreditedBy(w.ledger, p) == {})
  }

  predicate InviteeOk(w: World, id: RewardId) {
    && id in w.ledger && w.ledger[id].referredBonus.Credited?
    && w.ledger[id].referred in w.keys
    && Within(w.keys[w.ledger[id].referred], MIN_INVITEE_LIMIT)
  }

  ghost predicate Inv(w: World) {
    && PairsOk(w.ledger)
    && InviteCapOk(w.ledger)
    && CredentialsOk(w)
    && (forall p :: ReferrerOk(w, p))
    && (forall id | id in w.settled :: InviteeOk(w, id))
  }

  // ---------------------------------------------------------------- what the writers do to the counts

  lemma InviteCapKept(l: Ledger, w: ReferralRewards.Write)
    requires InviteCapOk(l)
    ensures InviteCapOk(Apply(l, w))
  {
    var m := Apply(l, w);
    forall p ensures |CountedIn(m, ByReferrer(p))| <= INVITE_LIMIT {
      if !w.Reserve? {
        OnlyReserveRaisesCounts(l, w, ByReferrer(p));
        SubsetIsSmaller(CountedIn(m, ByReferrer(p)), CountedIn(l, ByReferrer(p)));
      } else if m != l {
        InsertionRaisesCountByOne(l, w.id, ReservedRow(w.owner, w.request), m, ByReferrer(p));
      }
    }
  }

  lemma WriteKeepsReferrers(l: Ledger, w: ReferralRewards.Write, i: RewardId)
    requires !NamesKey(w) && i in Apply(l, w)
    ensures i in l || (!Apply(l, w)[i].referrerBonus.Credited? && Apply(l, w)[i].referrerCredential.None?)
    ensures i in l ==>
              var r := Apply(l, w)[i];
              && r.referrer == l[i].referrer
              && (r.referrerBonus.Credited? ==> l[i].referrerBonus.Credited?)
              && (r.referrerCredential.Some? ==> l[i].referrerCredential == r.referrerCredential)
  {
  }

  lemma WriteKeepsInv(w: World, write: ReferralRewards.Write, v: World)
    requires Inv(w) && !NamesKey(write) && v == w.(ledger := Apply(w.ledger, write))
    ensures Inv(v)
  {
    WriteKeepsPairs(w.ledger, write);
    InviteCapKept(w.ledger, write);
    forall i | i in v.ledger && v.ledger[i].referrer.Some? && v.ledger[i].referrerCredential.Some?
      ensures v.ledger[i].referrer.value in v.keys
              && v.keys[v.ledger[i].referrer.value].credential == v.ledger[i].referrerCredential.value
    {
      WriteKeepsReferrers(w.ledger, write, i);
    }
    forall p ensures ReferrerOk(v, p) {
      forall i | i in CreditedBy(v.ledger, p) ensures i in CreditedBy(w.ledger, p) {
        WriteKeepsReferrers(w.ledger, write, i);
      }
      SubsetIsSmaller(CreditedBy(v.ledger, p), CreditedBy(w.ledger, p));
      assert ReferrerOk(w, p);
    }
    forall id | id in v.settled ensures InviteeOk(v, id) {
      assert InviteeOk(w, id);
      WriteIsLegal(w.ledger, write, id);
    }
  }

  // ---------------------------------------------------------------- the tries keep the invariant

  /** A try keeps a key in bounds, and reaches its floor when it commits. */
  lemma TryKeyWithin(k: Key, floor: nat, stop: Stop, before: nat)
    requires Within(k, before) && floor <= LIMIT_CEILING
    ensures Within(TryKey(k, floor, stop), before)
    ensures stop.Commits? ==> Within(TryKey(k, floor, stop), floor)
    ensures TryKey(k, floor, stop).credential == k.credential
  {
  }

  /** A key that grew within bounds, under the same ledger. */
  lemma KeyGrowthKeepsInv(w: World, v: World, p: Person)
    requires Inv(w) && p in w.keys && p in v.keys
    requires v == w.(keys := w.keys[p := v.keys[p]])
    requires Grows(w.keys[p], v.keys[p]) && Within(v.keys[p], 0)
    ensures Inv(v)
  {
    forall q ensures ReferrerOk(v, q) { assert ReferrerOk(w, q); }
    forall id | id in v.settled ensures InviteeOk(v, id) { assert InviteeOk(w, id); }
  }

  lemma IssueKeepsInv(w: World, v: World, p: Person, credential: Credential)
    requires Inv(w) && p !in w.keys && v == w.(keys := w.keys[p := Key(credential, HARD_LIMIT, HARD_LIMIT)])
    ensures Inv(v)
  {
    forall q ensures ReferrerOk(v, q) { assert ReferrerOk(w, q); }
    forall id | id in v.settled ensures InviteeOk(v, id) { assert InviteeOk(w, id); }
  }

  /** Crediting an invitee whose key has reached the minimum. */
  lemma SettleInviteeKeepsInv(w: World, v: World, id: RewardId, write: ReferralRewards.Write)
    requires Inv(w) && write.SettleInvitee? && write.id == id
    requires id in w.ledger && w.ledger[id].referredBonus.Reserved? && write.subject == w.ledger[id].referred.subject
    requires w.ledger[id].referred in w.keys && Within(w.keys[w.ledger[id].referred], MIN_INVITEE_LIMIT)
    requires v == w.(ledger := Apply(w.ledger, write), settled := w.settled + {id})
    ensures Inv(v)
  {
    WriteKeepsPairs(w.ledger, write);
    InviteCapKept(w.ledger, write);
    forall p ensures ReferrerOk(v, p) {
      assert CreditedBy(v.ledger, p) == CreditedBy(w.ledger, p);
      assert ReferrerOk(w, p);
    }
    forall i | i in v.settled ensures InviteeOk(v, i) {
      if i != id { assert InviteeOk(w, i); }
    }
  }

  lemma InviteeTryKeepsInv(w: World, id: RewardId, now: Time, stop: Stop, v: World)
    requires Inv(w) && v == InviteeTry(w, id, now, stop)
    ensures Inv(v)
  {
    if v != w {
      var p := w.ledger[id].referred;
      var k := w.keys[p];
      assert ReferrerOk(w, p);
      TryKeyWithin(k, MIN_INVITEE_LIMIT, stop, 0);
      var u := w.(keys := w.keys[p := TryKey(k, MIN_INVITEE_LIMIT, stop)]);
      KeyGrowthKeepsInv(w, u, p);
      if stop.Commits? {
        SettleInviteeKeepsInv(u, v, id, SettleInvitee(id, p.subject, k.credential, now));
      }
    }
  }

  lemma ReflectedIsCapped(l: Ledger, id: RewardId, owner: Person)
    requires InviteCapOk(l) && id in l && l[id].referrer == Some(owner) && l[id].referredBonus.Credited?
    ensures |OtherReflected(l, id, owner)| + 1 <= INVITE_LIMIT
    ensures ReferrerFloor(|OtherReflected(l, id, owner)| + 1) <= LIMIT_CEILING
  {
    SubsetIsSmaller(OtherReflected(l, id, owner) + {id}, CountedIn(l, ByReferrer(owner)));
  }

  lemma NamedOwnerOnly(l: Ledger, write: ReferralRewards.Write, owner: Person, p: Person)
    requires write.SettleReferrer? || write.CreditApplying? || write.FailApplying? || write.ClaimLease?
    requires if write.SettleReferrer? then write.owner == owner else write.person == owner
    ensures p != owner ==> CreditedBy(Apply(l, write), p) == CreditedBy(l, p)
  {
  }

  /** Crediting rewards of one referrer whose key has reached the floor of what is then credited. */
  lemma CreditReferrerKeepsReferrers(w: World, v: World, owner: Person, write: ReferralRewards.Write, floor: nat)
    requires Inv(w) && (write.SettleReferrer? || write.CreditApplying? || write.FailApplying? || write.ClaimLease?)
    requires owner in w.keys && v == w.(ledger := Apply(w.ledger, write))
    requires if write.SettleReferrer? then write.owner == owner else write.person == owner
    requires Within(w.keys[owner], floor) && ReferrerFloor(|CreditedBy(v.ledger, owner)|) <= floor
    ensures forall p :: ReferrerOk(v, p)
  {
    forall p ensures ReferrerOk(v, p) {
      assert ReferrerOk(w, p);
      NamedOwnerOnly(w.ledger, write, owner, p);
    }
  }

  lemma CreditReferrerKeepsCredentials(w: World, v: World, owner: Person, write: ReferralRewards.Write)
    requires CredentialsOk(w) && (write.SettleReferrer? || write.CreditApplying? || write.FailApplying? || write.ClaimLease?)
    requires owner in w.keys && v == w.(ledger := Apply(w.ledger, write)) && write.credential == w.keys[owner].credential
    requires if write.SettleReferrer? then write.owner == owner else write.person == owner
    ensures CredentialsOk(v)
  {
  }

  lemma CreditReferrerKeepsInv(w: World, v: World, owner: Person, write: ReferralRewards.Write, floor: nat)
    requires Inv(w) && (write.SettleReferrer? || write.CreditApplying? || write.FailApplying? || write.ClaimLease?)
    requires owner in w.keys && v == w.(ledger := Apply(w.ledger, write))
    requires if write.SettleReferrer? then write.owner == owner else write.person == owner
    requires write.credential == w.keys[owner].credential
    requires Within(w.keys[owner], floor) && ReferrerFloor(|CreditedBy(v.ledger, owner)|) <= floor
    ensures Inv(v)
  {
    WriteKeepsPairs(w.ledger, write);
    InviteCapKept(w.ledger, write);
    CreditReferrerKeepsReferrers(w, v, owner, write, floor);
    CreditReferrerKeepsCredentials(w, v, owner, write);
    forall i | i in v.settled ensures InviteeOk(v, i) {
      assert InviteeOk(w, i);
      WriteIsLegal(w.ledger, write, i);
    }
  }

  lemma CreditedAreReflected(l: Ledger, write: ReferralRewards.Write, m: Ledger)
    requires PairsOk(l) && write.SettleReferrer? && m == Apply(l, write)
    ensures |CreditedBy(m, write.owner)| <= |OtherReflected(l, write.id, write.owner)| + 1
  {
    var reflected := OtherReflected(l, write.id, write.owner);
    forall i | i in CreditedBy(m, write.owner) ensures i in reflected + {write.id} {
      assert PairOk(l[i]);
    }
    SubsetIsSmaller(CreditedBy(m, write.owner), reflected + {write.id});
  }

  lemma ReferrerTryKeepsInv(w: World, id: RewardId, now: Time, stop: Stop, v: World)
    requires Inv(w) && v == ReferrerTry(w, id, now, stop)
    ensures Inv(v)
  {
    if v != w {
      var p := w.ledger[id].referrer.value;
      var k, reflected := w.keys[p], OtherReflected(w.ledger, id, p);
      var floor := ReferrerFloor(|reflected| + 1);
      assert ReferrerOk(w, p);
      ReflectedIsCapped(w.ledger, id, p);
      TryKeyWithin(k, floor, stop, 0);
      var u := w.(keys := w.keys[p := TryKey(k, floor, stop)]);
      KeyGrowthKeepsInv(w, u, p);
      if stop.Commits? {
        var write := SettleReferrer(id, p, k.credential, now);
        CreditedAreReflected(w.ledger, write, v.ledger);
        CreditReferrerKeepsInv(u, v, p, write, floor);
      }
    }
  }

  // ---------------------------------------------------------------- the legacy update

  lemma LegacyReflectsAll(w: World, owner: Person, i: RewardId)
    requires Inv(w) && owner in w.keys && i in w.ledger && w.ledger[i].referrer == Some(owner)
    ensures CredentialFree(w.ledger[i], w.keys[owner].credential)
  {
  }

  lemma LegacyIsCapped(w: World, owner: Person)
    requires Inv(w) && owner in w.keys
    ensures var n := |LegacyReflected(w.ledger, owner, w.keys[owner].credential)|;
            n <= INVITE_LIMIT && ReferrerFloor(n) <= LIMIT_CEILING
  {
    SubsetIsSmaller(LegacyReflected(w.ledger, owner, w.keys[owner].credential), CountedIn(w.ledger, ByReferrer(owner)));
  }

  /** The lease and the failure credit nobody. */
  lemma LeaseKeepsInv(w: World, v: World, owner: Person, write: ReferralRewards.Write)
    requires Inv(w) && (write.ClaimLease? || write.FailApplying?) && write.person == owner
    requires owner in w.keys && write.credential == w.keys[owner].credential
    requires v == w.(ledger := Apply(w.ledger, write))
    ensures Inv(v)
  {
    assert ReferrerOk(w, owner);
    forall i | i in CreditedBy(v.ledger, owner) ensures i in CreditedBy(w.ledger, owner) {}
    SubsetIsSmaller(CreditedBy(v.ledger, owner), CreditedBy(w.ledger, owner));
    CreditReferrerKeepsInv(w, v, owner, write, ReferrerFloor(|CreditedBy(w.ledger, owner)|));
  }

  lemma LegacyCreditKeepsInv(w: World, v: World, owner: Person, write: ReferralRewards.Write)
    requires Inv(w) && write.CreditApplying? && write.person == owner
    requires owner in w.keys && write.credential == w.keys[owner].credential
    requires Within(w.keys[owner], ReferrerFloor(|LegacyReflected(w.ledger, owner, write.credential)|))
    requires v == w.(ledger := Apply(w.ledger, write))
    ensures Inv(v)
  {
    var reflected := LegacyReflected(w.ledger, owner, write.credential);
    forall i | i in CreditedBy(v.ledger, owner) ensures i in reflected {
      LegacyReflectsAll(w, owner, i);
      assert PairOk(w.ledger[i]);
    }
    SubsetIsSmaller(CreditedBy(v.ledger, owner), reflected);
    CreditReferrerKeepsInv(w, v, owner, write, ReferrerFloor(|reflected|));
  }

  lemma LegacyTryKeepsInv(w: World, owner: Person, now: Time, cutoff: Time, stop: Stop, fails: bool, v: World)
    requires Inv(w) && v == LegacyTry(w, owner, now, cutoff, stop, fails)
    ensures Inv(v)
  {
    if v != w {
      var k := w.keys[owner];
      var leased := w.(ledger := Apply(w.ledger, ClaimLease(owner, k.credential, now, cutoff)));
      LeaseKeepsInv(w, leased, owner, ClaimLease(owner, k.credential, now, cutoff));
      LegacyIsCapped(leased, owner);
      var floor := ReferrerFloor(|LegacyReflected(leased.ledger, owner, k.credential)|);
      assert ReferrerOk(leased, owner);
      TryKeyWithin(k, floor, stop, 0);
      var u := leased.(keys := leased.keys[owner := TryKey(k, floor, stop)]);
      KeyGrowthKeepsInv(leased, u, owner);
      if stop.Commits? {
        LegacyCreditKeepsInv(u, v, owner, CreditApplying(owner, k.credential, now));
      } else if fails {
        LeaseKeepsInv(u, v, owner, FailApplying(owner, k.credential, now));
      }
    }
  }

  lemma NextKeepsInv(w: World, a: Action, v: World)
    requires Inv(w) && v == Next(w, a)
    ensures Inv(v)
  {
    match a
    case Issue(p, credential) => if p !in w.keys { IssueKeepsInv(w, v, p, credential); }
    case TryInvitee(id, now, stop) => InviteeTryKeepsInv(w, id, now, stop, v);
    case TryReferrer(id, now, stop) => ReferrerTryKeepsInv(w, id, now, stop, v);
    case TryLegacy(owner, now, cutoff, stop, fails) => LegacyTryKeepsInv(w, owner, now, cutoff, stop, fails, v);
    case Write(write) => if !NamesKey(write) { WriteKeepsInv(w, write, v); }
  }

  lemma {:induction false} RunKeepsInv(w: World, actions: seq<Action>)
    requires Inv(w)
    ensures Inv(Run(w, actions))
    decreases |actions|
  {
    if actions != [] {
      NextKeepsInv(w, actions[0], Next(w, actions[0]));
      RunKeepsInv(Next(w, actions[0]), actions[1..]);
    }
  }

  /**
   Whatever tries stop half-way, an invitee credited by settlement has at least 9 cents, a referrer
   at least 7 and 2 for every reward credited to it, in limit and budget, and nobody more than 13.
   */
  lemma LimitsMatchLedger(actions: seq<Action>, p: Person)
    requires p in Run(EMPTY, actions).keys
    ensures var w := Run(EMPTY, actions);
            && HARD_LIMIT + REFERRER_REWARD * |CreditedBy(w.ledger, p)| <= w.keys[p].limit <= LIMIT_CEILING
            && HARD_LIMIT + REFERRER_REWARD * |CreditedBy(w.ledger, p)| <= w.keys[p].budget <= LIMIT_CEILING
            && forall id | id in w.settled && id in w.ledger && w.ledger[id].referred == p ::
                 w.ledger[id].referredBonus.Credited? && w.keys[p].limit >= MIN_INVITEE_LIMIT && w.keys[p].budget >= MIN_INVITEE_LIMIT
  {
    forall q ensures ReferrerOk(EMPTY, q) {}
    forall q ensures |CountedIn(EMPTY.ledger, ByReferrer(q))| <= INVITE_LIMIT {
      assert CountedIn(EMPTY.ledger, ByReferrer(q)) == {};
    }
    RunKeepsInv(EMPTY, actions);
    var w := Run(EMPTY, actions);
    assert ReferrerOk(w, p);
    forall id | id in w.settled && id in w.ledger && w.ledger[id].referred == p
      ensures w.ledger[id].referredBonus.Credited? && w.keys[p].limit >= MIN_INVITEE_LIMIT && w.keys[p].budget >= MIN_INVITEE_LIMIT
    {
      assert InviteeOk(w, id);
    }
  }

  // ---------------------------------------------------------------- what a try leaves, in cents

  /** The rewards counted for a referrer: the invitee is credited and the referrer not skipped. */
  function CountedFor(l: Ledger, owner: Person): set<RewardId> {
    set i | i in l && l[i].referrer == Some(owner) && l[i].referredBonus == Credited
      && l[i].referrerBonus in {Pending, Applying, Failed, Credited}
  }

  lemma CountsItself(l: Ledger, id: RewardId, owner: Person)
    requires id in l && l[id].referrer == Some(owner) && l[id].referredBonus == Credited
    requires l[id].referrerBonus in {Pending, Applying, Failed}
    ensures |CountedFor(l, owner)| == |OtherReflected(l, id, owner)| + 1
  {
    assert CountedFor(l, owner) == OtherReflected(l, id, owner) + {id};
  }

  /** A limit and a budget that are both the greatest of the old limit, the old budget and `cents`. */
  predicate RaisedTo(k: Key, m: Key, cents: int) {
    && m.credential == k.credential && m.limit == m.budget
    && m.limit >= k.limit && m.limit >= k.budget && m.limit >= cents
    && (m.limit == k.limit || m.limit == k.budget || m.limit == cents)
  }

  predicate AwaitsReferrer(l: Ledger, id: RewardId, owner: Person) {
    && id in l && l[id].referrer == Some(owner) && l[id].referredBonus == Credited
    && l[id].referrerBonus in {Pending, Applying, Failed}
  }

  lemma CommittedTry(k: Key, floor: nat)
    ensures RaisedTo(k, TryKey(k, floor, Commits), floor)
  {
  }

  /**
   A referrer phase that commits: limit and budget are the greatest of what they were and of 7 cents and
   2 for every reward counted for the referrer, this one included; the reward is credited under the
   referrer's key; no other key and no other reward changes.
   */
  lemma CommittedReferrerPhase(w: World, id: RewardId, owner: Person, now: Time, v: World)
    requires AwaitsReferrer(w.ledger, id, owner) && owner in w.keys && v == ReferrerTry(w, id, now, Commits)
    ensures v.keys.Keys == w.keys.Keys && v.ledger.Keys == w.ledger.Keys && v.settled == w.settled
    ensures RaisedTo(w.keys[owner], v.keys[owner], 7 + 2 * |CountedFor(w.ledger, owner)|)
    ensures forall p | p in w.keys && p != owner :: v.keys[p] == w.keys[p]
    ensures v.ledger[id] == w.ledger[id].(referrerBonus := Credited, referrerCredential := Some(w.keys[owner].credential),
                                          failureReason := None, skipReason := None, updatedAt := now)
    ensures forall i | i in w.ledger && i != id :: v.ledger[i] == w.ledger[i]
  {
    CountsItself(w.ledger, id, owner);
    CommittedTry(w.keys[owner], ReferrerFloor(|OtherReflected(w.ledger, id, owner)| + 1));
    ReferrerPhaseCredits(w, id, owner, now, v);
  }

  lemma ReferrerPhaseCredits(w: World, id: RewardId, owner: Person, now: Time, v: World)
    requires AwaitsReferrer(w.ledger, id, owner) && owner in w.keys && v == ReferrerTry(w, id, now, Commits)
    ensures v.ledger == Apply(w.ledger, SettleReferrer(id, owner, w.keys[owner].credential, now))
    ensures v.settled == w.settled
    ensures v.keys == w.keys[owner := TryKey(w.keys[owner], ReferrerFloor(|OtherReflected(w.ledger, id, owner)| + 1), Commits)]
  {
  }

  /** The invitee phase: the same with 9 cents, and the invitee credited under the invitee's key. */
  lemma CommittedInviteePhase(w: World, id: RewardId, now: Time, v: World)
    requires id in w.ledger && w.ledger[id].referredBonus == Reserved && w.ledger[id].referred in w.keys
    requires v == InviteeTry(w, id, now, Commits)
    ensures var person := w.ledger[id].referred;
            && v.keys.Keys == w.keys.Keys && v.ledger.Keys == w.ledger.Keys && v.settled == w.settled + {id}
            && RaisedTo(w.keys[person], v.keys[person], 9)
            && (forall p | p in w.keys && p != person :: v.keys[p] == w.keys[p])
            && v.ledger[id] == w.ledger[id].(referredBonus := Credited, referredCredential := Some(w.keys[person].credential),
                                             failureReason := None, updatedAt := now)
            && forall i | i in w.ledger && i != id :: v.ledger[i] == w.ledger[i]
  {
  }

  /** The limit alone is raised, and nothing is recorded. */
  predicate LimitRaisedTo(k: Key, m: Key, cents: int) {
    && m.credential == k.credential && m.budget == k.budget
    && m.limit >= k.limit && m.limit >= k.budget && m.limit >= cents
    && (m.limit == k.limit || m.limit == k.budget || m.limit == cents)
  }

  /** A phase that stops early: before its raise nothing has changed, after it the limit alone. */
  lemma StoppedPhaseChangesAtMostTheLimit(w: World, id: RewardId, owner: Person, now: Time, stop: Stop)
    requires !stop.Commits? && owner in w.keys
    ensures AwaitsReferrer(w.ledger, id, owner) ==>
              var v := ReferrerTry(w, id, now, stop);
              && v.ledger == w.ledger && v.settled == w.settled && v.keys == w.keys[owner := v.keys[owner]]
              && if stop.AfterRaise? then LimitRaisedTo(w.keys[owner], v.keys[owner], 7 + 2 * |CountedFor(w.ledger, owner)|)
                 else v.keys[owner] == w.keys[owner]
    ensures id in w.ledger && w.ledger[id].referredBonus == Reserved && w.ledger[id].referred == owner ==>
              var v := InviteeTry(w, id, now, stop);
              && v.ledger == w.ledger && v.settled == w.settled && v.keys == w.keys[owner := v.keys[owner]]
              && if stop.AfterRaise? then LimitRaisedTo(w.keys[owner], v.keys[owner], 9) else v.keys[owner] == w.keys[owner]
  {
    if AwaitsReferrer(w.ledger, id, owner) { CountsItself(w.ledger, id, owner); }
  }

  /** A reward in any other state, or whose person has no key, is left alone. */
  lemma UndueRewardIsLeftAlone(w: World, id: RewardId, now: Time, stop: Stop)
    ensures id !in w.ledger || w.ledger[id].referredBonus != Reserved || w.ledger[id].referred !in w.keys ==>
              InviteeTry(w, id, now, stop) == w
    ensures id !in w.ledger || w.ledger[id].referrer.None? || w.ledger[id].referrer.value !in w.keys
            || !AwaitsReferrer(w.ledger, id, w.ledger[id].referrer.value) ==>
              ReferrerTry(w, id, now, stop) == w
  {
  }

  /** The legacy update: 7 cents and 2 for every reward under its key that is credited or that it has leased. */
  lemma LegacyUpdateLeaves(w: World, owner: Person, now: Time, cutoff: Time, fails: bool, leased: Ledger, v: World)
    requires owner in w.keys && leased == Apply(w.ledger, ClaimLease(owner, w.keys[owner].credential, now, cutoff))
    requires v == LegacyTry(w, owner, now, cutoff, Commits, fails)
    ensures leased == w.ledger ==> v == w
    ensures leased != w.ledger ==>
              && v.ledger == Apply(leased, CreditApplying(owner, w.keys[owner].credential, now)) && v.settled == w.settled
              && v.keys == w.keys[owner := v.keys[owner]]
              && RaisedTo(w.keys[owner], v.keys[owner],
                   7 + 2 * |set i | i in leased && UnderKey(leased[i], owner, w.keys[owner].credential)
                                    && leased[i].referrerBonus in {Pending, Applying, Credited}|)
  {
    var k := w.keys[owner];
    var reflected := set i | i in leased && UnderKey(leased[i], owner, k.credential) && leased[i].referrerBonus in {Pending, Applying, Credited};
    assert LegacyReflected(leased, owner, k.credential) == reflected;
    CommittedTry(k, ReferrerFloor(|reflected|));
  }

  /** A legacy update that stops early: its rewards fail, or keep their lease; the budget stays. */
  lemma StoppedLegacyUpdateLeaves(w: World, owner: Person, now: Time, cutoff: Time, stop: Stop, fails: bool, leased: Ledger, v: World)
    requires owner in w.keys && leased == Apply(w.ledger, ClaimLease(owner, w.keys[owner].credential, now, cutoff))
    requires !stop.Commits? && v == LegacyTry(w, owner, now, cutoff, stop, fails)
    ensures leased != w.ledger ==>
              && v.ledger == (if fails then Apply(leased, FailApplying(owner, w.keys[owner].credential, now)) else leased)
              && v.keys == w.keys[owner := v.keys[owner]] && v.keys[owner].budget == w.keys[owner].budget
              && (!stop.AfterRaise? ==> v.keys[owner] == w.keys[owner])
  {
  }

  // ---------------------------------------------------------------- no limit is higher than what was earned

  /** The rewards whose invitee is credited, for a referrer: once among them, a reward stays among them. */
  function Earned(l: Ledger, p: Person): set<RewardId> {
    set i | i in l && l[i].referrer == Some(p) && l[i].referredBonus == Credited
  }

  /** The greatest limit that can be explained: 7 cents, 9 for someone invited, and 2 for every reward earned. */
  function Explained(l: Ledger, p: Person, invited: bool): nat {
    var earned := 7 + 2 * |Earned(l, p)|;
    if invited && earned < 9 then 9 else earned
  }

  /** The run reserves a reward for this person as the invited one. */
  predicate Invites(actions: seq<Action>, p: Person) {
    exists a :: a in actions && a.Write? && a.write.Reserve? && a.write.request.referred == p
  }

  ghost predicate Bounded(w: World, p: Person, invited: bool) {
    && (p in w.keys ==> w.keys[p].limit <= Explained(w.ledger, p, invited) && w.keys[p].budget <= Explained(w.ledger, p, invited))
    && (!invited ==> forall i | i in w.ledger && w.ledger[i].referred == p :: w.ledger[i].referredBonus != Reserved)
  }

  lemma EarnedOnlyGrows(l: Ledger, write: ReferralRewards.Write, p: Person, invited: bool)
    ensures Earned(l, p) <= Earned(Apply(l, write), p)
    ensures Explained(l, p, invited) <= Explained(Apply(l, write), p, invited)
  {
    forall i | i in Earned(l, p) ensures i in Earned(Apply(l, write), p) { WriteIsLegal(l, write, i); }
    SubsetIsSmaller(Earned(l, p), Earned(Apply(l, write), p));
  }

  lemma ReservationsAreReserved(l: Ledger, write: ReferralRewards.Write, p: Person)
    requires forall i | i in l && l[i].referred == p :: l[i].referredBonus != Reserved
    requires !(write.Reserve? && write.request.referred == p)
    ensures forall i | i in Apply(l, write) && Apply(l, write)[i].referred == p :: Apply(l, write)[i].referredBonus != Reserved
  {
    forall i | i in Apply(l, write) && Apply(l, write)[i].referred == p ensures Apply(l, write)[i].referredBonus != Reserved {
      if i in l { WriteIsLegal(l, write, i); }
    }
  }

  lemma WriteKeepsBound(w: World, write: ReferralRewards.Write, p: Person, invited: bool, v: World)
    requires Bounded(w, p, invited) && (write.Reserve? && write.request.referred == p ==> invited)
    requires v == w.(ledger := Apply(w.ledger, write), settled := v.settled)
    ensures Bounded(v, p, invited)
  {
    EarnedOnlyGrows(w.ledger, write, p, invited);
    if !invited { ReservationsAreReserved(w.ledger, write, p); }
  }

  /** A try keeps a key below any bound on what it was and on its floor. */
  lemma TryStaysBelow(k: Key, floor: nat, stop: Stop, bound: nat)
    requires k.limit <= bound && k.budget <= bound && floor <= bound
    ensures TryKey(k, floor, stop).limit <= bound && TryKey(k, floor, stop).budget <= bound
  {
  }

  lemma TriedKeyKeepsBound(w: World, q: Person, floor: nat, stop: Stop, p: Person, invited: bool, v: World)
    requires Bounded(w, p, invited) && q in w.keys && (q == p ==> floor <= Explained(w.ledger, p, invited))
    requires v == w.(keys := w.keys[q := TryKey(w.keys[q], floor, stop)])
    ensures Bounded(v, p, invited)
  {
    if q == p { TryStaysBelow(w.keys[p], floor, stop, Explained(w.ledger, p, invited)); }
  }

  lemma InviteeTryKeepsBound(w: World, id: RewardId, now: Time, stop: Stop, p: Person, invited: bool, v: World)
    requires Bounded(w, p, invited) && v == InviteeTry(w, id, now, stop)
    ensures Bounded(v, p, invited)
  {
    if v != w {
      var q := w.ledger[id].referred;
      var u := w.(keys := w.keys[q := TryKey(w.keys[q], MIN_INVITEE_LIMIT, stop)]);
      TriedKeyKeepsBound(w, q, MIN_INVITEE_LIMIT, stop, p, invited, u);
      if stop.Commits? { WriteKeepsBound(u, SettleInvitee(id, q.subject, w.keys[q].credential, now), p, invited, v); }
    }
  }

  lemma ReferrerTryKeepsBound(w: World, id: RewardId, now: Time, stop: Stop, p: Person, invited: bool, v: World)
    requires Bounded(w, p, invited) && v == ReferrerTry(w, id, now, stop)
    ensures Bounded(v, p, invited)
  {
    if v != w {
      var q := w.ledger[id].referrer.value;
      var floor := ReferrerFloor(|OtherReflected(w.ledger, id, q)| + 1);
      SubsetIsSmaller(OtherReflected(w.ledger, id, q) + {id}, Earned(w.ledger, q));
      var u := w.(keys := w.keys[q := TryKey(w.keys[q], floor, stop)]);
      TriedKeyKeepsBound(w, q, floor, stop, p, invited, u);
      if stop.Commits? { WriteKeepsBound(u, SettleReferrer(id, q, w.keys[q].credential, now), p, invited, v); }
    }
  }

  lemma LegacyTryKeepsBound(w: World, owner: Person, now: Time, cutoff: Time, stop: Stop, fails: bool, p: Person, invited: bool, v: World)
    requires Bounded(w, p, invited) && v == LegacyTry(w, owner, now, cutoff, stop, fails)
    ensures Bounded(v, p, invited)
  {
    if v != w {
      var k := w.keys[owner];
      var lease := ClaimLease(owner, k.credential, now, cutoff);
      var leased := w.(ledger := Apply(w.ledger, lease));
      WriteKeepsBound(w, lease, p, invited, leased);
      var floor := ReferrerFloor(|LegacyReflected(leased.ledger, owner, k.credential)|);
      SubsetIsSmaller(LegacyReflected(leased.ledger, owner, k.credential), Earned(leased.ledger, owner));
      var u := leased.(keys := leased.keys[owner := TryKey(k, floor, stop)]);
      TriedKeyKeepsBound(leased, owner, floor, stop, p, invited, u);
      if stop.Commits? {
        WriteKeepsBound(u, CreditApplying(owner, k.credential, now), p, invited, v);
      } else if fails {
        WriteKeepsBound(u, FailApplying(owner, k.credential, now), p, invited, v);
      }
    }
  }

  lemma NextKeepsBound(w: World, a: Action, p: Person, invited: bool, v: World)
    requires Bounded(w, p, invited) && v == Next(w, a)
    requires a.Write? && a.write.Reserve? && a.write.request.referred == p ==> invited
    ensures Bounded(v, p, invited)
  {
    match a
    case Issue(_, _) =>
    case TryInvitee(id, now, stop) => InviteeTryKeepsBound(w, id, now, stop, p, invited, v);
    case TryReferrer(id, now, stop) => ReferrerTryKeepsBound(w, id, now, stop, p, invited, v);
    case TryLegacy(owner, now, cutoff, stop, fails) => LegacyTryKeepsBound(w, owner, now, cutoff, stop, fails, p, invited, v);
    case Write(write) => if !NamesKey(write) { WriteKeepsBound(w, write, p, invited, v); }
  }

  lemma {:induction false} RunKeepsBound(w: World, actions: seq<Action>, p: Person, invited: bool)
    requires Bounded(w, p, invited) && (Invites(actions, p) ==> invited)
    ensures Bounded(Run(w, actions), p, invited)
    decreases |actions|
  {
    if actions != [] {
      assert actions[0] in actions;
      NextKeepsBound(w, actions[0], p, invited, Next(w, actions[0]));
      assert Invites(actions[1..], p) ==> Invites(actions, p);
      RunKeepsBound(Next(w, actions[0]), actions[1..], p, invited);
    }
  }

  /**
   Nobody gets more than was earned: in every run, a limit and a budget are at most 7 cents and 2 for every
   reward of that referrer whose invitee was credited, or 9 cents for someone the run invites.
   */
  lemma LimitsAreEarned(actions: seq<Action>, p: Person)
    requires p in Run(EMPTY, actions).keys
    ensures var w := Run(EMPTY, actions);
            var earned := 7 + 2 * |Earned(w.ledger, p)|;
            && (w.keys[p].limit <= earned || (Invites(actions, p) && w.keys[p].limit <= 9))
            && (w.keys[p].budget <= earned || (Invites(actions, p) && w.keys[p].budget <= 9))
  {
    RunKeepsBound(EMPTY, actions, p, Invites(actions, p));
  }

  // ---------------------------------------------------------------- why tries must not interleave

  /** Try A reads and decides, try B runs to its end, then A carries out the raise it decided on. */
  function RaiseDecidedBefore(k: Key, floorA: nat, floorB: nat): Key {
    var target, b := TargetLimit(k, floorA), TryKey(k, floorB, Commits);
    if k.limit < target then b.(limit := target) else b
  }

  /** Such an interleaving lowers the limit B had set exactly when A raises, and to less than B. */
  lemma StaleRaiseLowersLimit(k: Key, floorA: nat, floorB: nat)
    ensures (RaiseDecidedBefore(k, floorA, floorB).limit < TryKey(k, floorB, Commits).limit) <==>
            (k.limit < TargetLimit(k, floorA) < TargetLimit(k, floorB))
  {
  }

  /** A fresh key of 7 cents: a stale raise to 9 after a try for three rewards committed 13. */
  lemma StaleRaiseExample()
    ensures RaiseDecidedBefore(Key("", HARD_LIMIT, HARD_LIMIT), MIN_INVITEE_LIMIT, ReferrerFloor(3)) == Key("", 9, 13)
  {
  }

  // ---------------------------------------------------------------- the phases, step by step

  /**
   What meets one try: the first limit read succeeds, the worker still owns its claim before a raise,
   the raise is carried out and reported, the second read verifies it, and the fence and the
   entitlement still hold at the commit batch.
   */
  datatype Fate = Fate(seen: bool, ownsClaim: bool, raised: bool, reported: bool, verifies: bool, fenced: bool)

  /** Where a try stops under its fate; the claim is looked at only when there is something to raise. */
  function StopOf(k: Key, floor: nat, fate: Fate): Stop {
    var raises := k.limit < TargetLimit(k, floor);
    if !fate.seen || (raises && !fate.ownsClaim) then BeforeRaise
    else if raises && !fate.raised then LostRaise
    else if (raises && !fate.reported) || !fate.verifies || !fate.fenced then AfterRaise
    else Commits
  }

  /** The limit read is below what the floor, the budget and the limit ask for. */
  predicate NeedsRaise(k: Key, floor: nat) { k.limit < floor || k.limit < k.budget }

  /**
   A try commits exactly when everything it meets goes well; a raise that was carried out but not seen
   through leaves the raised limit, and any earlier stop leaves the key as it was.
   */
  lemma FateDecides(k: Key, floor: nat, fate: Fate)
    ensures var ready := fate.seen && (NeedsRaise(k, floor) ==> fate.ownsClaim && fate.raised);
            var reported := NeedsRaise(k, floor) ==> fate.reported;
            && (StopOf(k, floor, fate).Commits? <==> ready && reported && fate.verifies && fate.fenced)
            && (StopOf(k, floor, fate).AfterRaise? <==> ready && !(reported && fate.verifies && fate.fenced))
            && (StopOf(k, floor, fate).LostRaise? <==>
                  fate.seen && NeedsRaise(k, floor) && fate.ownsClaim && !fate.raised)
            && (StopOf(k, floor, fate).BeforeRaise? <==> !fate.seen || (NeedsRaise(k, floor) && !fate.ownsClaim))
  {
  }

  /** The reward waits for its referrer, who holds a key. */
  predicate ReferrerDue(w: World, id: RewardId)
    requires id in w.ledger
  {
    var r := w.ledger[id];
    r.referredBonus.Credited? && Unsettled(r.referrerBonus) && r.referrer.Some? && r.referrer.value in w.keys
  }

  class SettlementDesk {
    var ledger: Ledger
    var keys: map<Person, Key>
    ghost var settled: set<RewardId>

    ghost function Contents(): World
      reads this
    {
      World(ledger, keys, settled)
    }

    /** Read, check the claim, raise, verify: the part both phases share. */
    method RaiseLimit(person: Person, floor: nat, fate: Fate) returns (target: nat, verified: bool)
      requires person in keys
      modifies this`keys
      ensures fate.seen ==> target == TargetLimit(old(keys)[person], floor)
      ensures verified && fate.fenced <==> StopOf(old(keys)[person], floor, fate).Commits?
      ensures var k, stop := old(keys)[person], StopOf(old(keys)[person], floor, fate);
              keys == old(keys)[person := if stop.AfterRaise? || stop.Commits? then Raised(k, TargetLimit(k, floor)) else k]
    {
      target, verified := 0, false;
      assert keys == keys[person := keys[person]];
      if !fate.seen { return; }
      var providerLimit := keys[person].limit;
      target := Max(Max(floor, keys[person].budget), providerLimit);
      if providerLimit < target {
        if !fate.ownsClaim { return; }
        if fate.raised { keys := keys[person := keys[person].(limit := target)]; }
        if !fate.raised || !fate.reported { return; }
      }
      verified := fate.verifies && keys[person].limit >= target;
    }

    method PersistBudget(person: Person, target: nat)
      requires person in keys
      modifies this`keys
      ensures keys == old(keys)[person := Persisted(old(keys)[person], target)]
    {
      var persisted := Max(target, keys[person].limit);
      assert keys == keys[person := keys[person]];
      if keys[person].budget < persisted {
        keys := keys[person := keys[person].(budget := persisted)];
      }
    }

    method ProcessInviteePhase(id: RewardId, now: Time, fate: Fate) returns (advanced: bool)
      modifies this
      ensures id in old(ledger) && old(ledger)[id].referredBonus.Reserved? && old(ledger)[id].referred in old(keys) ==>
                var stop := StopOf(old(keys)[old(ledger)[id].referred], MIN_INVITEE_LIMIT, fate);
                Contents() == InviteeTry(old(Contents()), id, now, stop) && advanced == stop.Commits?
      ensures advanced ==>
                id in old(ledger)
                && var person := old(ledger)[id].referred;
                && person in old(keys) && person in keys && RaisedTo(old(keys)[person], keys[person], 9)
                && id in ledger && ledger[id].referredBonus == Credited
                && ledger[id].referredCredential == Some(old(keys)[person].credential)
      ensures !(id in old(ledger) && old(ledger)[id].referredBonus.Reserved? && old(ledger)[id].referred in old(keys)) ==>
                Contents() == old(Contents()) && !advanced
    {
      advanced := false;
      if id !in ledger || !ledger[id].referredBonus.Reserved? || ledger[id].referred !in keys { return; }
      var person := ledger[id].referred;
      ghost var before := keys;
      var target, verified := RaiseLimit(person, MIN_INVITEE_LIMIT, fate);
      if !verified || !fate.fenced { return; }
      PersistBudget(person, target);
      assert keys == before[person := TryKey(before[person], MIN_INVITEE_LIMIT, Commits)];
      ledger := Apply(ledger, SettleInvitee(id, person.subject, keys[person].credential, now));
      settled := settled + {id};
      advanced := true;
      CommittedInviteePhase(old(Contents()), id, now, Contents());
    }

    method ProcessReferrerPhase(id: RewardId, now: Time, fate: Fate) returns (completed: bool)
      modifies this
      ensures id in old(ledger) && ReferrerDue(old(Contents()), id) ==>
                var owner := old(ledger)[id].referrer.value;
                var stop := StopOf(old(keys)[owner], ReferrerFloor(|OtherReflected(old(ledger), id, owner)| + 1), fate);
                Contents() == ReferrerTry(old(Contents()), id, now, stop) && completed == stop.Commits?
      ensures completed ==>
                id in old(ledger) && old(ledger)[id].referrer.Some?
                && var owner := old(ledger)[id].referrer.value;
                && owner in old(keys) && owner in keys
                && RaisedTo(old(keys)[owner], keys[owner], 7 + 2 * |CountedFor(old(ledger), owner)|)
                && id in ledger && ledger[id].referrerBonus == Credited
                && ledger[id].referrerCredential == Some(old(keys)[owner].credential)
      ensures !(id in old(ledger) && ReferrerDue(old(Contents()), id)) ==> Contents() == old(Contents()) && !completed
    {
      completed := false;
      if id !in ledger || !ledger[id].referredBonus.Credited? || !Unsettled(ledger[id].referrerBonus) { return; }
      if ledger[id].referrer.None? || ledger[id].referrer.value !in keys { return; }
      var owner := ledger[id].referrer.value;
      var floor := ReferrerFloor(|OtherReflected(ledger, id, owner)| + 1);
      ghost var before := keys;
      var target, verified := RaiseLimit(owner, floor, fate);
      if !verified || !fate.fenced { return; }
      PersistBudget(owner, target);
      assert keys == before[owner := TryKey(before[owner], floor, Commits)];
      ledger := Apply(ledger, SettleReferrer(id, owner, keys[owner].credential, now));
      completed := true;
      CommittedReferrerPhase(old(Contents()), id, owner, now, Contents());
    }
  }
}
