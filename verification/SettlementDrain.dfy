/**
 The claim loop of managed-referral-settlement.ts for one worker at a fixed time: which job it takes
 next, why it ends even without its limit, what its counters mean and where it leaves every job.
 */
module SettlementDrain {
  import opened Common
  import opened Settlement
  import opened SettlementOutcomes

  type Time = int

  /** Whether the phase of a job succeeds when it is tried; otherwise it is released for a retry. */
  type Oracle = (JobId, Phase) -> bool

  predicate Due(job: Job, now: Time) {
    Claimable(job, now) && job.nextAttempt <= now
  }

  function DueJobs(jobs: Jobs, now: Time): set<JobId> {
    set j | j in jobs && Due(jobs[j], now)
  }

  function DueInvitees(jobs: Jobs, now: Time): set<JobId> {
    set j | j in jobs && Due(jobs[j], now) && jobs[j].phase.InviteePending?
  }

  function DueToAdvance(jobs: Jobs, now: Time, succeeds: Oracle): set<JobId> {
    set j | j in jobs && Due(jobs[j], now) && jobs[j].phase.InviteePending? && succeeds(j, InviteePending)
  }

  /** The sum of (2 - phase rank) over the claimable jobs. */
  function Work(jobs: Jobs, now: Time): nat {
    |DueJobs(jobs, now)| + |DueInvitees(jobs, now)|
  }

  /** ORDER BY next_attempt_at ASC, id ASC */
  predicate Earlier(jobs: Jobs, i: JobId, j: JobId)
    requires i in jobs && j in jobs
  {
    jobs[i].nextAttempt < jobs[j].nextAttempt || (jobs[i].nextAttempt == jobs[j].nextAttempt && i <= j)
  }

  /** A job after one claim and one try of its phase. */
  function Tried(job: Job, now: Time, success: bool): Job {
    var claimed := job.(lease := None, attempts := job.attempts + 1);
    if !success then claimed.(nextAttempt := now + RetryDelay(claimed.attempts))
    else if job.phase.InviteePending? then claimed.(phase := ReferrerPending, nextAttempt := now)
    else claimed.(phase := Completed, nextAttempt := now, completedAt := Some(now))
  }

  /** Where the drain leaves a job, told from the job alone. */
  function Drained(j: JobId, job: Job, now: Time, succeeds: Oracle): Job {
    if !Due(job, now) then job
    else
      var tried := Tried(job, now, succeeds(j, job.phase));
      if Due(tried, now) then Tried(tried, now, succeeds(j, tried.phase)) else tried
  }

  lemma DelayIsPositive(attempts: nat)
    ensures RetryDelay(attempts) > 0
  {
    PowIsPositive(if attempts < 6 then attempts else 6);
  }

  lemma {:induction false} PowIsPositive(n: nat)
    ensures Pow2(n) > 0
  {
    if n > 0 { PowIsPositive(n - 1); }
  }

  /** After a try a job is due again exactly when its invitee phase succeeded. */
  lemma TriedIsDue(job: Job, now: Time, success: bool)
    requires Due(job, now)
    ensures Due(Tried(job, now, success), now) <==> (job.phase.InviteePending? && success)
  {
    DelayIsPositive(job.attempts + 1);
  }

  /** Trying a due job does not change where the drain will leave it. */
  lemma TryingIsProgress(j: JobId, job: Job, now: Time, succeeds: Oracle)
    requires Due(job, now)
    ensures Drained(j, Tried(job, now, succeeds(j, job.phase)), now, succeeds) == Drained(j, job, now, succeeds)
  {
    var tried := Tried(job, now, succeeds(j, job.phase));
    TriedIsDue(job, now, succeeds(j, job.phase));
    if Due(tried, now) { TriedIsDue(tried, now, succeeds(j, tried.phase)); }
  }

  /** The drain claims a job at most twice, and twice only when its invitee phase succeeded first. */
  lemma ClaimedAtMostTwice(j: JobId, job: Job, now: Time, succeeds: Oracle)
    ensures var after := Drained(j, job, now, succeeds);
            && job.attempts <= after.attempts <= job.attempts + 2
            && (after.attempts == job.attempts + 2 <==> Due(job, now) && job.phase.InviteePending? && succeeds(j, InviteePending))
            && Rank(job.phase) <= Rank(after.phase)
            && !Due(after, now)
  {
    if Due(job, now) {
      var tried := Tried(job, now, succeeds(j, job.phase));
      TriedIsDue(job, now, succeeds(j, job.phase));
      if Due(tried, now) { TriedIsDue(tried, now, succeeds(j, tried.phase)); }
    }
  }

  /** A job is due when it is open, free or left over by a lease that ran out, and its time has come. */
  lemma DueMeans(job: Job, now: Time)
    ensures Due(job, now) <==>
              job.phase != Completed && (job.lease == None || job.lease.value.until <= now) && job.nextAttempt <= now
  {
  }

  /** A failed phase: the job keeps its phase and waits, the longer the more attempts it had. */
  predicate Waiting(before: Job, after: Job, phase: Phase, attempts: nat, now: Time) {
    after == before.(phase := phase, lease := None, attempts := attempts, nextAttempt := now + RetryMinutes(attempts) * 60_000)
  }

  /** Where a drain leaves a due job: completed when both its phases succeed, and waiting in the one that fails. */
  lemma DrainLeaves(j: JobId, job: Job, now: Time, succeeds: Oracle)
    requires Due(job, now)
    ensures var after, n := Drained(j, job, now, succeeds), job.attempts;
            && (job.phase == InviteePending && !succeeds(j, InviteePending) ==> Waiting(job, after, InviteePending, n + 1, now))
            && (job.phase == InviteePending && succeeds(j, InviteePending) && !succeeds(j, ReferrerPending) ==>
                  Waiting(job, after, ReferrerPending, n + 2, now))
            && (job.phase == InviteePending && succeeds(j, InviteePending) && succeeds(j, ReferrerPending) ==>
                  after == job.(phase := Completed, lease := None, attempts := n + 2, nextAttempt := now, completedAt := Some(now)))
            && (job.phase == ReferrerPending && !succeeds(j, ReferrerPending) ==> Waiting(job, after, ReferrerPending, n + 1, now))
            && (job.phase == ReferrerPending && succeeds(j, ReferrerPending) ==>
                  after == job.(phase := Completed, lease := None, attempts := n + 1, nextAttempt := now, completedAt := Some(now)))
  {
    DelayInMinutes(job.attempts + 1);
    DelayInMinutes(job.attempts + 2);
    TriedIsDue(job, now, succeeds(j, job.phase));
  }

  /** A job that is not due is left as it is. */
  lemma DrainLeavesOthers(j: JobId, job: Job, now: Time, succeeds: Oracle)
    requires job.phase == Completed || (job.lease.Some? && job.lease.value.until > now) || job.nextAttempt > now
    ensures Drained(j, job, now, succeeds) == job
  {
  }

  function CompletedJobs(jobs: Jobs): set<JobId> {
    set j | j in jobs && jobs[j].phase == Completed
  }

  /** A try completes its job exactly when its referrer phase succeeds. */
  lemma TryCompletes(jobs: Jobs, after: Jobs, j: JobId, now: Time, success: bool)
    requires j in jobs && Due(jobs[j], now) && after == jobs[j := Tried(jobs[j], now, success)]
    ensures |CompletedJobs(after)| == |CompletedJobs(jobs)| + (if success && jobs[j].phase == ReferrerPending then 1 else 0)
  {
    assert CompletedJobs(after) == CompletedJobs(jobs) + (if success && jobs[j].phase == ReferrerPending then {j} else {});
  }

  lemma LeaseCompletesNothing(jobs: Jobs, j: JobId, token: Token, now: Time)
    requires j in jobs
    ensures CompletedJobs(Settlement.Claim(jobs, j, token, now)) == CompletedJobs(jobs)
  {
  }

  lemma OneGone(before: set<JobId>, after: set<JobId>, j: JobId, stays: bool)
    requires j in before && after == if stays then before else before - {j}
    ensures |after| == |before| - (if stays then 0 else 1)
  {
  }

  /** What one try does to the three sets behind the counters. */
  lemma TryMovesSets(jobs: Jobs, after: Jobs, j: JobId, now: Time, succeeds: Oracle)
    requires j in jobs && Due(jobs[j], now)
    requires after == jobs[j := Tried(jobs[j], now, succeeds(j, jobs[j].phase))]
    ensures var advances := jobs[j].phase.InviteePending? && succeeds(j, InviteePending);
            && DueJobs(after, now) == (if advances then DueJobs(jobs, now) else DueJobs(jobs, now) - {j})
            && DueInvitees(after, now) == DueInvitees(jobs, now) - {j}
            && DueToAdvance(after, now, succeeds) == (if advances then DueToAdvance(jobs, now, succeeds) - {j} else DueToAdvance(jobs, now, succeeds))
  {
    TriedIsDue(jobs[j], now, succeeds(j, jobs[j].phase));
  }

  /** One try strictly lowers the work left and moves the three sets the counters measure. */
  lemma TryLowersWork(jobs: Jobs, after: Jobs, j: JobId, now: Time, succeeds: Oracle)
    requires j in jobs && Due(jobs[j], now)
    requires after == jobs[j := Tried(jobs[j], now, succeeds(j, jobs[j].phase))]
    ensures var advances := jobs[j].phase.InviteePending? && succeeds(j, InviteePending);
            && Work(after, now) < Work(jobs, now)
            && |DueJobs(after, now)| == |DueJobs(jobs, now)| - (if advances then 0 else 1)
            && |DueToAdvance(after, now, succeeds)| == |DueToAdvance(jobs, now, succeeds)| - (if advances then 1 else 0)
  {
    var advances := jobs[j].phase.InviteePending? && succeeds(j, InviteePending);
    TryMovesSets(jobs, after, j, now, succeeds);
    OneGone(DueJobs(jobs, now), DueJobs(after, now), j, advances);
    if advances {
      OneGone(DueToAdvance(jobs, now, succeeds), DueToAdvance(after, now, succeeds), j, false);
      OneGone(DueInvitees(jobs, now), DueInvitees(after, now), j, false);
    } else {
      SubsetIsSmaller(DueInvitees(after, now), DueInvitees(jobs, now));
    }
  }

  /** A claim whose try fails, and whose release fails too, leaves the job leased and due no more. */
  lemma LeftLeased(jobs: Jobs, after: Jobs, j: JobId, token: Token, now: Time, succeeds: Oracle)
    requires j in jobs && Due(jobs[j], now) && !succeeds(j, jobs[j].phase) && after == Settlement.Claim(jobs, j, token, now)
    ensures |DueJobs(after, now)| == |DueJobs(jobs, now)| - 1
    ensures DueToAdvance(after, now, succeeds) == DueToAdvance(jobs, now, succeeds)
  {
    OneGone(DueJobs(jobs, now), DueJobs(after, now), j, false);
  }

  /** Where a drain stands: what it has counted, and that every job is on the way its own outcomes put it. */
  ghost predicate OnTheWay(start: Jobs, jobs: Jobs, now: Time, succeeds: Oracle, advanced: nat, ended: nat, completed: nat) {
    && jobs.Keys == start.Keys
    && |CompletedJobs(jobs)| == |CompletedJobs(start)| + completed
    && ended + |DueJobs(jobs, now)| == |DueJobs(start, now)|
    && advanced + |DueToAdvance(jobs, now, succeeds)| == |DueToAdvance(start, now, succeeds)|
    && forall j | j in jobs :: Drained(j, jobs[j], now, succeeds) == Drained(j, start[j], now, succeeds)
  }

  lemma OneTryOnTheWay(
      start: Jobs, jobs: Jobs, after: Jobs, j: JobId, now: Time, succeeds: Oracle, advanced: nat, ended: nat, completed: nat,
      advances: bool, completes: bool)
    requires OnTheWay(start, jobs, now, succeeds, advanced, ended, completed)
    requires j in jobs && Due(jobs[j], now) && after == jobs[j := Tried(jobs[j], now, succeeds(j, jobs[j].phase))]
    requires advances == (jobs[j].phase.InviteePending? && succeeds(j, InviteePending))
    requires completes == (jobs[j].phase.ReferrerPending? && succeeds(j, ReferrerPending))
    ensures OnTheWay(start, after, now, succeeds, if advances then advanced + 1 else advanced,
                     if advances then ended else ended + 1, if completes then completed + 1 else completed)
    ensures Work(after, now) < Work(jobs, now)
  {
    TryLowersWork(jobs, after, j, now, succeeds);
    TryingIsProgress(j, jobs[j], now, succeeds);
    TryCompletes(jobs, after, j, now, succeeds(j, jobs[j].phase));
  }

  /** Claim and the statement that ends the phase amount to one try. */
  lemma ClaimThenFinishIsTry(jobs: Jobs, j: JobId, token: Token, now: Time, success: bool)
    requires j in jobs && Due(jobs[j], now)
    ensures var claimed := Settlement.Claim(jobs, j, token, now);
            && Owns(claimed, j, token)
            && (!success ==> Settlement.Release(claimed, j, token, now) == jobs[j := Tried(jobs[j], now, false)])
            && (success && jobs[j].phase.InviteePending? ==>
                  Settlement.Advance(claimed, j, token, now) == jobs[j := Tried(jobs[j], now, true)])
            && (success && jobs[j].phase.ReferrerPending? ==>
                  Settlement.Complete(claimed, j, token, now) == jobs[j := Tried(jobs[j], now, true)])
  {
  }

  lemma NothingDueIsDrained(jobs: Jobs, now: Time, succeeds: Oracle)
    requires DueJobs(jobs, now) == {}
    ensures forall j | j in jobs :: jobs[j] == Drained(j, jobs[j], now, succeeds)
  {
    forall j | j in jobs ensures !Due(jobs[j], now) { assert j !in DueJobs(jobs, now); }
  }

  class SettlementRun {
    var jobs: Jobs

    /** The candidate query: the due job that comes first, if any. */
    method NextDueJob(now: Time) returns (next: Option<JobId>)
      ensures next.None? <==> DueJobs(jobs, now) == {}
      ensures next.Some? ==> next.value in DueJobs(jobs, now)
                             && forall i :: i in DueJobs(jobs, now) ==> Earlier(jobs, next.value, i)
      ensures next.Some? ==>
                forall i :: i in DueJobs(jobs, now) && i != next.value ==>
                  jobs[next.value].nextAttempt < jobs[i].nextAttempt
                  || (jobs[next.value].nextAttempt == jobs[i].nextAttempt && next.value < i)
    {
      next := None;
      var todo := jobs.Keys;
      while todo != {}
        invariant todo <= jobs.Keys
        invariant next.Some? ==> next.value in DueJobs(jobs, now) && next.value !in todo
        invariant forall i :: i in DueJobs(jobs, now) && i !in todo ==> next.Some? && Earlier(jobs, next.value, i)
        decreases |todo|
      {
        var j :| j in todo;
        todo := todo - {j};
        if Due(jobs[j], now) && (next.None? || !Earlier(jobs, next.value, j)) { next := Some(j); }
      }
    }

    /** The claim of a due job and the statement its phase ends with. */
    method ClaimAndTry(j: JobId, token: Token, now: Time, success: bool)
      requires j in jobs && Due(jobs[j], now)
      modifies this
      ensures jobs == old(jobs)[j := Tried(old(jobs)[j], now, success)]
    {
      ClaimThenFinishIsTry(jobs, j, token, now, success);
      var phase := jobs[j].phase;
      jobs := Settlement.Claim(jobs, j, token, now);
      if !success {
        jobs := Settlement.Release(jobs, j, token, now);
      } else if phase.InviteePending? {
        jobs := Settlement.Advance(jobs, j, token, now);
      } else {
        jobs := Settlement.Complete(jobs, j, token, now);
      }
    }

    /**
     The loop of processManagedReferralSettlementJobs.  Without a limit it still ends; then every job
     is where its own outcomes put it, whatever the order, and each due job was given up or finished
     once.  Only a release that throws ends the run early: its job stays leased, the rest is untouched.
     */
    method ProcessJobs(now: Time, limit: Option<nat>, token: Token, succeeds: Oracle, releaseThrows: Oracle)
      returns (claimed: nat, advanced: nat, completed: nat, retried: nat, left: Option<JobId>)
      modifies this
      ensures claimed == advanced + completed + retried + (if left.Some? then 1 else 0)
      ensures limit.Some? ==> claimed <= limit.value
      ensures jobs.Keys == old(jobs).Keys
      ensures completed + retried + (if left.Some? then 1 else 0) + |DueJobs(jobs, now)| == |DueJobs(old(jobs), now)|
      ensures advanced + |DueToAdvance(jobs, now, succeeds)| == |DueToAdvance(old(jobs), now, succeeds)|
      ensures |CompletedJobs(jobs)| == |CompletedJobs(old(jobs))| + completed
      ensures forall j | j in jobs && left != Some(j) :: Drained(j, jobs[j], now, succeeds) == Drained(j, old(jobs)[j], now, succeeds)
      ensures left.None? && (limit.None? || claimed < limit.value) ==>
                forall j | j in jobs :: jobs[j] == Drained(j, old(jobs)[j], now, succeeds)
      ensures left.Some? ==>
                && left.value in jobs && !succeeds(left.value, jobs[left.value].phase) && releaseThrows(left.value, jobs[left.value].phase)
                && jobs[left.value].lease == Some(Lease(token, now + LEASE_MS))
    {
      claimed, advanced, completed, retried, left := 0, 0, 0, 0, None;
      while limit.None? || claimed < limit.value
        invariant claimed == advanced + completed + retried
        invariant limit.Some? ==> claimed <= limit.value
        invariant OnTheWay(old(jobs), jobs, now, succeeds, advanced, completed + retried, completed)
        decreases Work(jobs, now)
      {
        var next := NextDueJob(now);
        if next.None? {
          NothingDueIsDrained(jobs, now, succeeds);
          return;
        }
        var j := next.value;
        var phase, success := jobs[j].phase, succeeds(j, jobs[j].phase);
        claimed := claimed + 1;
        if !success && releaseThrows(j, phase) {
          LeftLeased(jobs, Settlement.Claim(jobs, j, token, now), j, token, now, succeeds);
          LeaseCompletesNothing(jobs, j, token, now);
          jobs, left := Settlement.Claim(jobs, j, token, now), Some(j);
          return;
        }
        OneTryOnTheWay(old(jobs), jobs, jobs[j := Tried(jobs[j], now, success)], j, now, succeeds, advanced, completed + retried,
                       completed, phase.InviteePending? && success, phase.ReferrerPending? && success);
        ClaimAndTry(j, token, now, success);
        if !success { retried := retried + 1; }
        else if phase.InviteePending? { advanced := advanced + 1; }
        else { completed := completed + 1; }
      }
    }
  }
}
