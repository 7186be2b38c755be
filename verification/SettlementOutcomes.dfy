/**
 What a settlement worker leaves in the ledger and on its job: when it runs alone, for every state of
 the reward it may meet, when something fails under it, and when it has lost its claim.
 */
module SettlementOutcomes {
  import opened Common
  import opened ReferralRewards
  import opened Settlement

  // ---------------------------------------------------------------- jobs

  /** A job is claimed exactly when it is open and its lease, if any, has run out; the lease is for five minutes. */
  lemma JobIsClaimed(jobs: Jobs, j: JobId, token: Token, now: Time)
    requires j in jobs
    ensures Claim(jobs, j, token, now) ==
              if jobs[j].phase != Completed && (jobs[j].lease == None || jobs[j].lease.value.until <= now)
              then jobs[j := jobs[j].(lease := Some(Lease(token, now + 300_000)), attempts := jobs[j].attempts + 1)] else jobs
  {
  }

  /** The holder of the claim. */
  predicate Holds(jobs: Jobs, j: JobId, token: Token) {
    j in jobs && jobs[j].lease.Some? && jobs[j].lease.value.token == token
  }

  /** The wait before the next attempt: a minute, doubling up to an hour. */
  function RetryMinutes(attempts: nat): nat {
    match attempts
    case 0 => 1
    case 1 => 2
    case 2 => 4
    case 3 => 8
    case 4 => 16
    case 5 => 32
    case _ => 60
  }

  lemma DelayInMinutes(attempts: nat)
    ensures RetryDelay(attempts) == RetryMinutes(attempts) * 60_000
  {
    assert Pow2(2) == 4 && Pow2(3) == 8;
    assert Pow2(4) == 16 && Pow2(5) == 32;
    assert Pow2(6) == 64;
  }

  /** What only the holder of the claim does to a job: it advances, completes or gives the job back. */
  lemma HolderMovesJob(jobs: Jobs, j: JobId, token: Token, now: Time)
    ensures Advance(jobs, j, token, now) ==
              if Holds(jobs, j, token) && jobs[j].phase == InviteePending
              then jobs[j := jobs[j].(phase := ReferrerPending, lease := None, nextAttempt := now)] else jobs
    ensures Complete(jobs, j, token, now) ==
              if Holds(jobs, j, token)
              then jobs[j := jobs[j].(phase := Completed, lease := None, nextAttempt := now, completedAt := Some(now))] else jobs
    ensures Release(jobs, j, token, now) ==
              if Holds(jobs, j, token)
              then jobs[j := jobs[j].(lease := None, nextAttempt := now + RetryMinutes(jobs[j].attempts) * 60_000)] else jobs
  {
    if j in jobs { DelayInMinutes(jobs[j].attempts); }
  }

  /** The fix-ups ask for no claim; the one of the invitee phase leaves a completed job alone. */
  lemma FixUpsMoveJob(jobs: Jobs, j: JobId, now: Time)
    requires j in jobs
    ensures FixInviteePhase(jobs, j) ==
              if jobs[j].completedAt.Some? then jobs else jobs[j := jobs[j].(phase := ReferrerPending, lease := None)]
    ensures FixReferrerPhase(jobs, j, now) == jobs[j := jobs[j].(phase := Completed, lease := None, completedAt := Some(now))]
  {
  }

  /** A job is made once for a reward; a missed one is made for what its reward still waits for. */
  lemma JobIsMade(jobs: Jobs, j: JobId, reward: RewardId, phase: Phase, now: Time)
    ensures InsertJob(jobs, j, reward, phase, now) ==
              if j in jobs || exists i :: i in jobs && jobs[i].reward == reward then jobs
              else jobs[j := Job(reward, phase, None, 0, now, None)]
  {
  }

  lemma MissedJobIsMade(w: World, j: JobId, reward: RewardId, now: Time)
    ensures var l, v := w.rows.ledger, Next(w, Repair(j, reward, now));
            var owned := reward in l && l[reward].referrer.Some?;
            && v == w.(rows := w.rows.(jobs := v.rows.jobs))
            && (owned && l[reward].referredBonus == Reserved ==> v.rows.jobs == InsertJob(w.rows.jobs, j, reward, InviteePending, now))
            && (owned && l[reward].referredBonus == Credited && l[reward].referrerBonus in {Pending, Applying, Failed} ==>
                  v.rows.jobs == InsertJob(w.rows.jobs, j, reward, ReferrerPending, now))
            && (!owned ==> v == w)
            && (owned && l[reward].referredBonus !in {Reserved, Credited} ==> v == w)
            && (owned && l[reward].referredBonus == Credited && l[reward].referrerBonus !in {Pending, Applying, Failed} ==> v == w)
  {
  }

  /** A worker begins with the claim of its job. */
  lemma WorkerBegins(w: World, id: int, j: JobId, token: Token, now: Time)
    requires id !in w.workers && token !in w.used && j in w.rows.jobs
    ensures var job := w.rows.jobs[j];
            Next(w, BeginClaim(id, j, token, now)) ==
              if job.phase != Completed && (job.lease == None || job.lease.value.until <= now)
              then World(w.rows.(jobs := w.rows.jobs[j := job.(lease := Some(Lease(token, now + 300_000)), attempts := job.attempts + 1)]),
                         w.workers[id := Worker(j, job.reward, token, InviteePending, now, ReadClaim, false)], w.used + {token})
              else w
  {
    JobIsClaimed(w.rows.jobs, j, token, now);
  }

  // ---------------------------------------------------------------- a worker that runs alone

  /** The statement returns, and finds what it looks for: context, entitlement, verified limit, budget row. */
  function Fine(credential: Credential): Answer { Answer(false, false, true, true, credential) }

  /** The worker of this token has begun with job `j`, whose reward is `i`. */
  predicate Begun(c: Scene, phase: Phase) {
    var k := c.worker;
    && k.pc == ReadClaim && Holds(c.rows.jobs, k.job, k.token)
    && c.rows.jobs[k.job].phase == phase && c.rows.jobs[k.job].reward == k.reward && !k.inCatch
  }

  lemma ClaimIsRead(c: Scene, a: Answer, phase: Phase)
    requires Begun(c, phase) && !a.throws
    ensures WorkerStep(c, a) == c.(worker := c.worker.(phase := phase, pc := if phase == InviteePending then ReadInvitee else ReadReferrer))
  {
  }

  /** A worker whose claim was taken over, or whose read fails, ends and changes nothing. */
  lemma LostClaimEndsWorker(c: Scene, a: Answer)
    requires c.worker.pc == ReadClaim && (a.throws || !Holds(c.rows.jobs, c.worker.job, c.worker.token))
    ensures WorkerStep(c, a) == c.(worker := c.worker.(pc := Done))
  {
  }

  // ---------------------------------------------------------------- the invitee phase

  predicate At(c: Scene, phase: Phase, pc: Pc) { c.worker.phase == phase && c.worker.pc == pc }

  /** Where the invitee phase goes from its reward and whether the invitee's delivered key was found. */
  lemma InviteeContextDecides(c: Scene, found: bool, credential: Credential)
    requires At(c, InviteePending, ReadInvitee)
    ensures var l, i := c.rows.ledger, c.worker.reward;
            WorkerStep(c, Answer(false, false, found, true, credential)) == c.(worker := c.worker.(pc :=
              if !(i in l && found) then ReleaseJob
              else if l[i].referredBonus == Credited && l[i].referredCredential == Some(credential) then AdvanceSettled
              else if l[i].referredBonus == Reserved then RaiseInvitee(credential)
              else ReleaseJob))
  {
  }

  lemma RaiseDecides(c: Scene, a: Answer, credential: Credential)
    requires At(c, InviteePending, RaiseInvitee(credential)) && !a.throws
    ensures WorkerStep(c, a) == c.(worker := c.worker.(pc := if a.found then CommitInviteeBatch(credential) else ReleaseJob))
  {
  }

  /** The invitee batch under its claim: the reward is credited under the key, and the job advances. */
  lemma InviteeBatchCommits(c: Scene, credential: Credential, v: Scene)
    requires At(c, InviteePending, CommitInviteeBatch(credential)) && v == WorkerStep(c, Fine(credential))
    requires Holds(c.rows.jobs, c.worker.job, c.worker.token) && c.rows.jobs[c.worker.job].phase == InviteePending
    requires c.rows.jobs[c.worker.job].reward == c.worker.reward
    requires c.worker.reward in c.rows.ledger && c.rows.ledger[c.worker.reward].referredBonus == Reserved
    ensures var i, j, now := c.worker.reward, c.worker.job, c.worker.now;
            && v.rows.ledger == c.rows.ledger[i := c.rows.ledger[i].(
                 referredBonus := Credited, referredCredential := Some(credential), failureReason := None, updatedAt := now)]
            && v.rows.jobs == c.rows.jobs[j := c.rows.jobs[j].(phase := ReferrerPending, lease := None, nextAttempt := now)]
            && v.worker == c.worker.(pc := Done)
  {
    var i := c.worker.reward;
    InviteeWrites(c.rows.ledger, i, credential, c.worker.now);
    HolderMovesJob(c.rows.jobs, c.worker.job, c.worker.token, c.worker.now);
  }

  lemma InviteeWrites(l: Ledger, i: RewardId, credential: Credential, now: Time)
    requires i in l && l[i].referredBonus == Reserved
    ensures Apply(l, SettleInvitee(i, l[i].referred.subject, credential, now)) == l[i := l[i].(
              referredBonus := Credited, referredCredential := Some(credential), failureReason := None, updatedAt := now)]
  {
    var m := Apply(l, SettleInvitee(i, l[i].referred.subject, credential, now));
    forall x | x in l ensures x in m && m[x] == if x == i then l[i].(referredBonus := Credited,
              referredCredential := Some(credential), failureReason := None, updatedAt := now) else l[x]
    {
      InviteeIsCredited(l, i, l[i].referred.subject, credential, now, x);
    }
    assert m.Keys == l.Keys;
  }

  /**
   A worker that nobody disturbs, on a job whose invitee is reserved and holds a delivered key: the invitee
   is credited under that key, and the job waits for its referrer at once.
   */
  lemma InviteeIsSettled(c: Scene, credential: Credential, c1: Scene, c2: Scene, c3: Scene, v: Scene)
    requires Begun(c, InviteePending) && c.worker.reward in c.rows.ledger && c.rows.ledger[c.worker.reward].referredBonus == Reserved
    requires c1 == WorkerStep(c, Fine(credential)) && c2 == WorkerStep(c1, Fine(credential))
    requires c3 == WorkerStep(c2, Fine(credential)) && v == WorkerStep(c3, Fine(credential))
    ensures var i, j, now := c.worker.reward, c.worker.job, c.worker.now;
            && v.worker.pc == Done
            && v.rows.ledger == c.rows.ledger[i := c.rows.ledger[i].(
                 referredBonus := Credited, referredCredential := Some(credential), failureReason := None, updatedAt := now)]
            && v.rows.jobs == c.rows.jobs[j := c.rows.jobs[j].(phase := ReferrerPending, lease := None, nextAttempt := now)]
  {
    ClaimIsRead(c, Fine(credential), InviteePending);
    InviteeContextDecides(c1, true, credential);
    RaiseDecides(c2, Fine(credential), credential);
    InviteeBatchCommits(c3, credential, v);
  }

  /** An invitee that is credited under this very key already: the job advances, and nothing else changes. */
  lemma CreditedInviteeAdvances(c: Scene, a: Answer)
    requires At(c, InviteePending, AdvanceSettled) && !a.throws
    requires Holds(c.rows.jobs, c.worker.job, c.worker.token) && c.rows.jobs[c.worker.job].phase == InviteePending
    ensures var j := c.worker.job;
            WorkerStep(c, a) == Scene(
              c.rows.(jobs := c.rows.jobs[j := c.rows.jobs[j].(phase := ReferrerPending, lease := None, nextAttempt := c.worker.now)]),
              c.worker.(pc := Done))
  {
    HolderMovesJob(c.rows.jobs, c.worker.job, c.worker.token, c.worker.now);
  }

  /** A worker that gives its job back: the next attempt waits the longer the more there were. */
  lemma JobIsGivenBack(c: Scene, a: Answer)
    requires c.worker.pc == ReleaseJob && !a.throws && Holds(c.rows.jobs, c.worker.job, c.worker.token)
    ensures var j := c.worker.job;
            WorkerStep(c, a) == Scene(
              c.rows.(jobs := c.rows.jobs[j := c.rows.jobs[j].(lease := None,
                                nextAttempt := c.worker.now + RetryMinutes(c.rows.jobs[j].attempts) * 60_000)]),
              c.worker.(pc := Done))
  {
    HolderMovesJob(c.rows.jobs, c.worker.job, c.worker.token, c.worker.now);
  }

  /** After a batch that did not find the budget row: the reward is looked at, and then the job. */
  lemma InviteeIsChecked(c: Scene, a: Answer, credential: Credential)
    requires !a.throws
    ensures At(c, InviteePending, CheckInvitee(credential)) ==>
              var l, i := c.rows.ledger, c.worker.reward;
              WorkerStep(c, a) == c.(worker := c.worker.(pc :=
                if a.found && i in l && l[i].referredBonus == Credited && l[i].referredCredential == Some(credential)
                then CheckInviteePhase else ReleaseJob))
    ensures At(c, InviteePending, CheckInviteePhase) ==>
              WorkerStep(c, a) == c.(worker := c.worker.(pc :=
                if c.worker.job in c.rows.jobs && c.rows.jobs[c.worker.job].phase != InviteePending then Done else FixInvitee))
    ensures At(c, InviteePending, FixInvitee) && c.worker.job in c.rows.jobs && c.rows.jobs[c.worker.job].completedAt == None ==>
              WorkerStep(c, a) == Scene(
                c.rows.(jobs := c.rows.jobs[c.worker.job := c.rows.jobs[c.worker.job].(phase := ReferrerPending, lease := None)]),
                c.worker.(pc := Done))
  {
    if At(c, InviteePending, FixInvitee) && c.worker.job in c.rows.jobs { FixUpsMoveJob(c.rows.jobs, c.worker.job, c.worker.now); }
  }

  // ---------------------------------------------------------------- the referrer phase

  /** Where the referrer phase goes from its reward and whether the referrer's active key was found. */
  lemma ReferrerContextDecides(c: Scene, found: bool, credential: Credential)
    requires At(c, ReferrerPending, ReadReferrer)
    ensures var l, i := c.rows.ledger, c.worker.reward;
            WorkerStep(c, Answer(false, false, found, true, credential)) == c.(worker := c.worker.(pc :=
              if !(i in l && l[i].referrer.Some? && Holds(c.rows.jobs, c.worker.job, c.worker.token)) then ReleaseJob
              else if l[i].referrerBonus in {Credited, Skipped} then CompleteSettled
              else if l[i].referredBonus != Credited then ReleaseJob
              else if found then RaiseReferrer(l[i].referrer.value, credential)
              else SkipReferrer))
  {
  }

  lemma ReferrerRaiseDecides(c: Scene, a: Answer, owner: Person, credential: Credential)
    requires At(c, ReferrerPending, RaiseReferrer(owner, credential)) && !a.throws
    ensures WorkerStep(c, a) == c.(worker := c.worker.(pc := if a.found then CommitReferrerBatch(owner, credential) else ReleaseJob))
  {
  }

  lemma ReferrerWrites(l: Ledger, i: RewardId, owner: Person, credential: Credential, now: Time)
    requires i in l && l[i].referrer == Some(owner) && l[i].referredBonus == Credited && l[i].referrerBonus in {Pending, Applying, Failed}
    ensures Apply(l, SettleReferrer(i, owner, credential, now)) == l[i := l[i].(
              referrerBonus := Credited, referrerCredential := Some(credential), failureReason := None, skipReason := None, updatedAt := now)]
  {
    var m := Apply(l, SettleReferrer(i, owner, credential, now));
    forall x | x in l ensures x in m && m[x] == if x == i then l[i].(referrerBonus := Credited,
              referrerCredential := Some(credential), failureReason := None, skipReason := None, updatedAt := now) else l[x]
    {
      ReferrerIsCredited(l, i, owner, credential, now, x);
    }
    assert m.Keys == l.Keys;
  }

  /** The referrer batch under its claim: the reward is credited under the key, and the job is completed. */
  lemma ReferrerBatchCommits(c: Scene, owner: Person, credential: Credential, v: Scene)
    requires At(c, ReferrerPending, CommitReferrerBatch(owner, credential)) && v == WorkerStep(c, Fine(credential))
    requires Holds(c.rows.jobs, c.worker.job, c.worker.token) && c.rows.jobs[c.worker.job].phase == ReferrerPending
    requires c.rows.jobs[c.worker.job].reward == c.worker.reward && c.worker.reward in c.rows.ledger
    requires var r := c.rows.ledger[c.worker.reward];
             r.referrer == Some(owner) && r.referredBonus == Credited && r.referrerBonus in {Pending, Applying, Failed}
    ensures var i, j, now := c.worker.reward, c.worker.job, c.worker.now;
            && v.rows.ledger == c.rows.ledger[i := c.rows.ledger[i].(referrerBonus := Credited,
                 referrerCredential := Some(credential), failureReason := None, skipReason := None, updatedAt := now)]
            && v.rows.jobs == c.rows.jobs[j := c.rows.jobs[j].(phase := Completed, lease := None, nextAttempt := now, completedAt := Some(now))]
            && v.worker == c.worker.(pc := Done)
  {
    ReferrerWrites(c.rows.ledger, c.worker.reward, owner, credential, c.worker.now);
    HolderMovesJob(c.rows.jobs, c.worker.job, c.worker.token, c.worker.now);
  }

  /**
   A worker that nobody disturbs, on a job whose invitee is credited and whose referrer holds an active
   key: the referrer is credited under that key, and the job is completed.
   */
  lemma ReferrerIsSettled(c: Scene, owner: Person, credential: Credential, c1: Scene, c2: Scene, c3: Scene, v: Scene)
    requires Begun(c, ReferrerPending) && c.worker.reward in c.rows.ledger
    requires var r := c.rows.ledger[c.worker.reward];
             r.referrer == Some(owner) && r.referredBonus == Credited && r.referrerBonus in {Pending, Applying, Failed}
    requires c1 == WorkerStep(c, Fine(credential)) && c2 == WorkerStep(c1, Fine(credential))
    requires c3 == WorkerStep(c2, Fine(credential)) && v == WorkerStep(c3, Fine(credential))
    ensures var i, j, now := c.worker.reward, c.worker.job, c.worker.now;
            && v.worker.pc == Done
            && v.rows.ledger == c.rows.ledger[i := c.rows.ledger[i].(referrerBonus := Credited,
                 referrerCredential := Some(credential), failureReason := None, skipReason := None, updatedAt := now)]
            && v.rows.jobs == c.rows.jobs[j := c.rows.jobs[j].(phase := Completed, lease := None, nextAttempt := now, completedAt := Some(now))]
  {
    ClaimIsRead(c, Fine(credential), ReferrerPending);
    ReferrerContextDecides(c1, true, credential);
    ReferrerRaiseDecides(c2, Fine(credential), owner, credential);
    ReferrerBatchCommits(c3, owner, credential, v);
  }

  lemma SkipWrites(l: Ledger, i: RewardId, reason: string, now: Time)
    requires i in l && l[i].referredBonus == Credited && l[i].referrerBonus in {Pending, Applying, Failed}
    ensures Apply(l, SkipMissingReferrer(i, reason, now)) == l[i := l[i].(
              referrerBonus := Skipped, skipReason := Some(l[i].skipReason.GetOr(reason)), updatedAt := now)]
    ensures Apply(l, SkipMissingReferrer(i, reason, now)) != l
  {
    var m := Apply(l, SkipMissingReferrer(i, reason, now));
    forall x | x in l ensures x in m && m[x] == if x == i then l[i].(
              referrerBonus := Skipped, skipReason := Some(l[i].skipReason.GetOr(reason)), updatedAt := now) else l[x]
    {
      MissingReferrerIsSkipped(l, i, reason, now, x);
    }
    assert m.Keys == l.Keys && m[i] != l[i];
  }

  /** A referrer that is skipped, for want of a key or of eligibility, by the first such worker. */
  lemma ReferrerIsSkipped(c: Scene, a: Answer)
    requires At(c, ReferrerPending, SkipReferrer) && !a.throws && c.worker.reward in c.rows.ledger
    requires var r := c.rows.ledger[c.worker.reward]; r.referredBonus == Credited && r.referrerBonus in {Pending, Applying, Failed}
    ensures var i := c.worker.reward;
            var reason := if a.found then "referrer_managed_key_missing" else "referrer_not_eligible";
            WorkerStep(c, a) == Scene(
              c.rows.(ledger := c.rows.ledger[i := c.rows.ledger[i].(referrerBonus := Skipped,
                                  skipReason := Some(c.rows.ledger[i].skipReason.GetOr(reason)), updatedAt := c.worker.now)]),
              c.worker.(pc := CompleteSettled))
  {
    SkipWrites(c.rows.ledger, c.worker.reward, if a.found then "referrer_managed_key_missing" else "referrer_not_eligible", c.worker.now);
  }

  /** A skip that finds the reward settled or gone changes nothing, and the reward is looked at before the job is completed. */
  lemma SkipOfSettledIsChecked(c: Scene, a: Answer)
    requires At(c, ReferrerPending, SkipReferrer) && !a.throws
    requires c.worker.reward in c.rows.ledger ==>
               var r := c.rows.ledger[c.worker.reward]; r.referredBonus != Credited || r.referrerBonus in {Credited, Skipped}
    ensures WorkerStep(c, a) == c.(worker := c.worker.(pc := CheckSkipped))
  {
    var l, i, reason := c.rows.ledger, c.worker.reward, if a.found then "referrer_managed_key_missing" else "referrer_not_eligible";
    forall x | x in l ensures x in Apply(l, SkipMissingReferrer(i, reason, c.worker.now)) && Apply(l, SkipMissingReferrer(i, reason, c.worker.now))[x] == l[x] {
      MissingReferrerIsSkipped(l, i, reason, c.worker.now, x);
    }
    assert Apply(l, SkipMissingReferrer(i, reason, c.worker.now)) == l;
  }

  /** A settled reward completes its job. */
  lemma SettledJobIsCompleted(c: Scene, a: Answer)
    requires At(c, ReferrerPending, CompleteSettled) && !a.throws && Holds(c.rows.jobs, c.worker.job, c.worker.token)
    ensures var j, now := c.worker.job, c.worker.now;
            WorkerStep(c, a) == Scene(
              c.rows.(jobs := c.rows.jobs[j := c.rows.jobs[j].(phase := Completed, lease := None, nextAttempt := now, completedAt := Some(now))]),
              c.worker.(pc := Done))
  {
    HolderMovesJob(c.rows.jobs, c.worker.job, c.worker.token, c.worker.now);
  }

  /** Nobody disturbs the worker and the referrer has no active key: the reward is skipped with its reason, the job completed. */
  lemma MissingReferrerIsSettled(c: Scene, owner: Person, c1: Scene, c2: Scene, c3: Scene, v: Scene)
    requires Begun(c, ReferrerPending) && c.worker.reward in c.rows.ledger
    requires var r := c.rows.ledger[c.worker.reward];
             r.referrer == Some(owner) && r.referredBonus == Credited && r.referrerBonus in {Pending, Applying, Failed}
    requires c1 == WorkerStep(c, Fine("")) && c2 == WorkerStep(c1, Answer(false, false, false, true, ""))
    requires c3 == WorkerStep(c2, Fine("")) && v == WorkerStep(c3, Fine(""))
    ensures var i, j, now := c.worker.reward, c.worker.job, c.worker.now;
            && v.worker.pc == Done
            && v.rows.ledger == c.rows.ledger[i := c.rows.ledger[i].(referrerBonus := Skipped,
                 skipReason := Some(c.rows.ledger[i].skipReason.GetOr("referrer_managed_key_missing")), updatedAt := now)]
            && v.rows.jobs == c.rows.jobs[j := c.rows.jobs[j].(phase := Completed, lease := None, nextAttempt := now, completedAt := Some(now))]
  {
    ClaimIsRead(c, Fine(""), ReferrerPending);
    ReferrerContextDecides(c1, false, "");
    ReferrerIsSkipped(c2, Fine(""));
    SettledJobIsCompleted(c3, Fine(""));
  }

  /** After a skip that changed nothing, or a batch without its budget row. */
  lemma ReferrerIsChecked(c: Scene, a: Answer, credential: Credential)
    requires !a.throws
    ensures At(c, ReferrerPending, CheckReferrer(credential)) ==>
              var l, i := c.rows.ledger, c.worker.reward;
              WorkerStep(c, a) == c.(worker := c.worker.(pc :=
                if a.found && i in l && l[i].referrerBonus == Credited && l[i].referrerCredential == Some(credential)
                then CheckReferrerPhase else ReleaseJob))
    ensures At(c, ReferrerPending, CheckReferrerPhase) ==>
              WorkerStep(c, a) == c.(worker := c.worker.(pc :=
                if c.worker.job in c.rows.jobs && c.rows.jobs[c.worker.job].phase == Completed then Done else FixReferrer))
    ensures At(c, ReferrerPending, FixReferrer) && c.worker.job in c.rows.jobs ==>
              WorkerStep(c, a) == Scene(
                c.rows.(jobs := c.rows.jobs[c.worker.job := c.rows.jobs[c.worker.job].(
                          phase := Completed, lease := None, completedAt := Some(c.worker.now))]),
                c.worker.(pc := Done))
    ensures At(c, ReferrerPending, CheckSkipped) ==>
              var l, i := c.rows.ledger, c.worker.reward;
              WorkerStep(c, a) == c.(worker := c.worker.(pc :=
                if i in l && l[i].referrerBonus in {Credited, Skipped} then CompleteSettled else ReleaseJob))
  {
    if c.worker.job in c.rows.jobs { FixUpsMoveJob(c.rows.jobs, c.worker.job, c.worker.now); }
  }

  /** A reward that is credited under another key stays so: the batch neither credits it again nor moves the job. */
  lemma ForeignCreditStays(c: Scene, a: Answer, owner: Person, credential: Credential)
    requires !a.throws && c.worker.reward in c.rows.ledger
    requires c.worker.job in c.rows.jobs && c.rows.jobs[c.worker.job].reward == c.worker.reward
    ensures var r := c.rows.ledger[c.worker.reward];
            && (At(c, InviteePending, CommitInviteeBatch(credential)) && r.referredBonus == Credited && r.referredCredential != Some(credential)
                ==> WorkerStep(c, a).rows == c.rows)
            && (At(c, ReferrerPending, CommitReferrerBatch(owner, credential)) && r.referrerBonus == Credited && r.referrerCredential != Some(credential)
                ==> WorkerStep(c, a).rows == c.rows)
  {
    var i, l, now := c.worker.reward, c.rows.ledger, c.worker.now;
    forall x | x in l ensures Apply(l, SettleInvitee(i, l[i].referred.subject, credential, now)).Keys == l.Keys
                              && Apply(l, SettleReferrer(i, owner, credential, now)).Keys == l.Keys
    {
      InviteeIsCredited(l, i, l[i].referred.subject, credential, now, x);
      ReferrerIsCredited(l, i, owner, credential, now, x);
    }
    if l[i].referredBonus == Credited && l[i].referredCredential != Some(credential) {
      assert Apply(l, SettleInvitee(i, l[i].referred.subject, credential, now)) == l;
    }
    if l[i].referrerBonus == Credited && l[i].referrerCredential != Some(credential) {
      assert Apply(l, SettleReferrer(i, owner, credential, now)) == l;
    }
  }

  // ---------------------------------------------------------------- failures

  /** A batch without its claim, or whose entitlement is gone, changes no row; without the budget row the reward is looked at. */
  lemma UnfencedBatchChangesNothing(c: Scene, a: Answer, owner: Person, credential: Credential)
    requires !a.throws
    ensures At(c, InviteePending, CommitInviteeBatch(credential))
            && !(a.found && Holds(c.rows.jobs, c.worker.job, c.worker.token) && c.rows.jobs[c.worker.job].phase == InviteePending) ==>
              var d := WorkerStep(c, a);
              d.rows == c.rows && d.worker.pc in {ReleaseJob, CheckInvitee(credential)}
              && (!a.budgetHit || !Holds(c.rows.jobs, c.worker.job, c.worker.token) ==> d.worker.pc == CheckInvitee(credential))
    ensures At(c, ReferrerPending, CommitReferrerBatch(owner, credential))
            && !(a.found && Holds(c.rows.jobs, c.worker.job, c.worker.token) && c.rows.jobs[c.worker.job].phase == ReferrerPending) ==>
              var d := WorkerStep(c, a);
              d.rows == c.rows && d.worker.pc in {ReleaseJob, CheckReferrer(credential)}
              && (!a.budgetHit || !Holds(c.rows.jobs, c.worker.job, c.worker.token) ==> d.worker.pc == CheckReferrer(credential))
  {
  }

  /** The statements of each phase, and those both share. */
  predicate IsStatement(phase: Phase, pc: Pc) {
    match pc
    case ConvergedAfterFailure => true
    case ReleaseJob => true
    case ReadClaim => false
    case Done => false
    case ReadInvitee => phase == InviteePending
    case AdvanceSettled => phase == InviteePending
    case RaiseInvitee(_) => phase == InviteePending
    case CommitInviteeBatch(_) => phase == InviteePending
    case CheckInvitee(_) => phase == InviteePending
    case CheckInviteePhase => phase == InviteePending
    case FixInvitee => phase == InviteePending
    case _ => phase == ReferrerPending
  }

  /** A throw leads into the catch block once, and ends the worker there; without effect it leaves the rows. */
  lemma ThrowIsCaughtOnce(c: Scene, a: Answer, v: Scene)
    requires a.throws && IsStatement(c.worker.phase, c.worker.pc) && v == WorkerStep(c, a)
    ensures c.worker.inCatch ==> v.worker == c.worker.(pc := Done)
    ensures !c.worker.inCatch ==> v.worker == c.worker.(pc := ConvergedAfterFailure, inCatch := true)
    ensures !a.applied ==> v.rows == c.rows
  {
  }

  /** After a failure the worker looks whether its phase is settled after all, under the key the reward names. */
  lemma FailureIsLookedAt(c: Scene, a: Answer)
    requires c.worker.pc == ConvergedAfterFailure && !a.throws && c.worker.phase != Completed
    ensures var l, i := c.rows.ledger, c.worker.reward;
            WorkerStep(c, a) == c.(worker := c.worker.(pc :=
              if i !in l then ReleaseJob
              else if c.worker.phase == InviteePending && l[i].referredBonus == Credited && l[i].referredCredential.Some?
              then CheckInvitee(l[i].referredCredential.value)
              else if c.worker.phase == ReferrerPending && l[i].referrerBonus == Credited && l[i].referrerCredential.Some?
              then CheckReferrer(l[i].referrerCredential.value)
              else ReleaseJob))
  {
  }
}
