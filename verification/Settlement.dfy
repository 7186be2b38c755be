/**
 The fenced two-phase settlement of managed-referral-settlement.ts, one SQL statement or batch per
 step: claims and lease takeovers, commit batches, fix-ups that no fence guards, and every other
 writer of the reward ledger in between.
 */
module Settlement {
  import opened Common
  import opened ReferralRewards

  type JobId = nat
  type Token = string

  datatype Phase = InviteePending | ReferrerPending | Completed

  function Rank(p: Phase): nat {
    match p
    case InviteePending => 0
    case ReferrerPending => 1
    case Completed => 2
  }

  /** Token and expiry of a lease are set and cleared together, as the schema demands. */
  datatype Lease = Lease(token: Token, until: Time)

  datatype Job = Job(
    reward: RewardId, phase: Phase, lease: Option<Lease>, attempts: nat, nextAttempt: Time, completedAt: Option<Time>)
  {
    function Token(): Option<Token> { if lease.Some? then Some(lease.value.token) else None }
  }

  type Jobs = map<JobId, Job>

  const LEASE_MS: int := 5 * 60_000

  /** The schema's CHECK: a job has a completion time exactly when it is completed. */
  predicate SchemaAllows(job: Job) {
    job.phase.Completed? <==> job.completedAt.Some?
  }

  // ---------------------------------------------------------------- statements on jobs

  predicate Owns(jobs: Jobs, j: JobId, token: Token) {
    j in jobs && jobs[j].Token() == Some(token)
  }

  predicate HasJob(jobs: Jobs, reward: RewardId) {
    exists j :: j in jobs && jobs[j].reward == reward
  }

  /** INSERT OR IGNORE: the reward column is unique. */
  function InsertJob(jobs: Jobs, j: JobId, reward: RewardId, phase: Phase, now: Time): Jobs {
    if j in jobs || HasJob(jobs, reward) then jobs else jobs[j := Job(reward, phase, None, 0, now, None)]
  }

  /** The repair query: which rewards get a job, and in which phase. */
  function RepairPhase(l: Ledger, reward: RewardId): Option<Phase> {
    if reward !in l || l[reward].referrer.None? then None
    else if l[reward].referredBonus.Reserved? then Some(InviteePending)
    else if l[reward].referredBonus.Credited? && Unsettled(l[reward].referrerBonus) then Some(ReferrerPending)
    else None
  }

  predicate Claimable(job: Job, now: Time) {
    !job.phase.Completed? && (job.lease.None? || job.lease.value.until <= now)
  }

  function Claim(jobs: Jobs, j: JobId, token: Token, now: Time): Jobs {
    if j in jobs && Claimable(jobs[j], now) then jobs[j := jobs[j].(lease := Some(Lease(token, now + LEASE_MS)), attempts := jobs[j].attempts + 1)] else jobs
  }

  /** advanceToReferrer */
  function Advance(jobs: Jobs, j: JobId, token: Token, now: Time): Jobs {
    if Owns(jobs, j, token) && jobs[j].phase.InviteePending?
    then jobs[j := jobs[j].(phase := ReferrerPending, lease := None, nextAttempt := now)] else jobs
  }

  /** completeSettledJob, which checks the token but not the phase. */
  function Complete(jobs: Jobs, j: JobId, token: Token, now: Time): Jobs {
    if Owns(jobs, j, token)
    then jobs[j := jobs[j].(phase := Completed, lease := None, nextAttempt := now, completedAt := Some(now))] else jobs
  }

  const INITIAL_RETRY_DELAY_MS: nat := 60_000
  const MAX_RETRY_DELAY_MS: nat := 60 * 60_000

  function Pow2(n: nat): nat { if n == 0 then 1 else 2 * Pow2(n - 1) }

  /** The delay before the next attempt doubles six times and stays below an hour. */
  function RetryDelay(attempts: nat): nat {
    var delay := INITIAL_RETRY_DELAY_MS * Pow2(if attempts < 6 then attempts else 6);
    if delay < MAX_RETRY_DELAY_MS then delay else MAX_RETRY_DELAY_MS
  }

  /** releaseManagedReferralSettlementJob */
  function Release(jobs: Jobs, j: JobId, token: Token, now: Time): Jobs {
    if Owns(jobs, j, token)
    then jobs[j := jobs[j].(lease := None, nextAttempt := now + RetryDelay(jobs[j].attempts))] else jobs
  }

  /** The unfenced fix-up of the invitee phase; the CHECK rejects it on a completed job. */
  function FixInviteePhase(jobs: Jobs, j: JobId): Jobs {
    if j in jobs && SchemaAllows(jobs[j].(phase := ReferrerPending))
    then jobs[j := jobs[j].(phase := ReferrerPending, lease := None)] else jobs
  }

  /** The unfenced fix-up of the referrer phase. */
  function FixReferrerPhase(jobs: Jobs, j: JobId, now: Time): Jobs {
    if j in jobs then jobs[j := jobs[j].(phase := Completed, lease := None, completedAt := Some(now))] else jobs
  }

  // ---------------------------------------------------------------- commit batches

  predicate Fenced(jobs: Jobs, j: JobId, token: Token, phase: Phase) {
    Owns(jobs, j, token) && jobs[j].phase == phase
  }

  datatype Rows = Rows(ledger: Ledger, jobs: Jobs)

  /** The invitee commit batch; `live` says whether the entitlement it names is still active. */
  function CommitInvitee(r: Rows, j: JobId, token: Token, subject: string, credential: Credential, live: bool, now: Time): Rows {
    if !(Fenced(r.jobs, j, token, InviteePending) && live) then r
    else
      var reward := r.jobs[j].reward;
      var l := Apply(r.ledger, SettleInvitee(reward, subject, credential, now));
      Rows(l, if reward in l && l[reward].referredBonus.Credited? && l[reward].referredCredential == Some(credential)
              then Advance(r.jobs, j, token, now) else r.jobs)
  }

  function CommitReferrer(r: Rows, j: JobId, token: Token, owner: Person, credential: Credential, live: bool, now: Time): Rows {
    if !(Fenced(r.jobs, j, token, ReferrerPending) && live) then r
    else
      var reward := r.jobs[j].reward;
      var l := Apply(r.ledger, SettleReferrer(reward, owner, credential, now));
      Rows(l, if reward in l && l[reward].referrerBonus.Credited? && l[reward].referrerCredential == Some(credential)
              then Complete(r.jobs, j, token, now) else r.jobs)
  }

  // ---------------------------------------------------------------- workers

  datatype Pc =
    | ReadClaim
    | ReadInvitee | AdvanceSettled | RaiseInvitee(credential: Credential) | CommitInviteeBatch(credential: Credential)
    | CheckInvitee(credential: Credential) | CheckInviteePhase | FixInvitee
    | ReadReferrer | RaiseReferrer(owner: Person, credential: Credential)
    | CommitReferrerBatch(owner: Person, credential: Credential)
    | CheckReferrer(credential: Credential) | CheckReferrerPhase | FixReferrer
    | SkipReferrer | CheckSkipped | CompleteSettled
    | ConvergedAfterFailure | ReleaseJob
    | Done

  /** A worker with the job it claimed; `inCatch` once it left the try block. */
  datatype Worker = Worker(job: JobId, reward: RewardId, token: Token, phase: Phase, now: Time, pc: Pc, inCatch: bool)
  {
    function At(next: Pc): Worker { this.(pc := next) }
  }

  /**
   What the environment answers to one step: the statement may throw with or without effect; a
   context, an entitlement or enough budget may be found; the budget update of a commit batch may
   hit its row; the credential that was read.
   */
  datatype Answer = Answer(throws: bool, applied: bool, found: bool, budgetHit: bool, credential: Credential)

  datatype Scene = Scene(rows: Rows, worker: Worker)

  /** A throw inside the try block is caught once; a throw in the catch block ends the worker. */
  function Thrown(k: Worker): Worker {
    if k.inCatch then k.At(Done) else k.(pc := ConvergedAfterFailure, inCatch := true)
  }

  function Statement(c: Scene, rows: Rows, next: Pc, a: Answer): Scene {
    if a.throws then Scene(if a.applied then rows else c.rows, Thrown(c.worker)) else Scene(rows, c.worker.At(next))
  }

  function Reward(c: Scene): Option<ReferralRewards.Reward> {
    if c.worker.reward in c.rows.ledger then Some(c.rows.ledger[c.worker.reward]) else None
  }

  /** Where readInviteeContext and the two tests after it lead. */
  function AfterInviteeContext(c: Scene, a: Answer): Pc {
    if Reward(c).None? || !a.found then ReleaseJob
    else
      var r := Reward(c).value;
      if r.referredBonus.Credited? && r.referredCredential == Some(a.credential) then AdvanceSettled
      else if !r.referredBonus.Reserved? then ReleaseJob
      else RaiseInvitee(a.credential)
  }

  function AfterReferrerContext(c: Scene, a: Answer): Pc {
    if Reward(c).None? || Reward(c).value.referrer.None? || !Owns(c.rows.jobs, c.worker.job, c.worker.token) then ReleaseJob
    else
      var r := Reward(c).value;
      if r.referrerBonus.Credited? || r.referrerBonus.Skipped? then CompleteSettled
      else if !r.referredBonus.Credited? then ReleaseJob
      else if !a.found then SkipReferrer
      else RaiseReferrer(r.referrer.value, a.credential)
  }

  /** After a commit batch: settled, given back, or checked because the budget row was not hit. */
  function AfterCommit(jobChanged: bool, budgetHit: bool, check: Pc): Pc {
    if budgetHit then (if jobChanged then Done else ReleaseJob) else check
  }

  function InviteeStep(c: Scene, a: Answer): Scene {
    var k, r := c.worker, c.rows;
    match k.pc
    case ReadInvitee => Statement(c, r, AfterInviteeContext(c, a), a)
    case AdvanceSettled => Statement(c, r.(jobs := Advance(r.jobs, k.job, k.token, k.now)), Done, a)
    case RaiseInvitee(credential) => Statement(c, r, if a.found then CommitInviteeBatch(credential) else ReleaseJob, a)
    case CommitInviteeBatch(credential) =>
      var subject := if Reward(c).Some? then Reward(c).value.referred.subject else "";
      var after := CommitInvitee(r, k.job, k.token, subject, credential, a.found, k.now);
      Statement(c, after, AfterCommit(after.jobs != r.jobs, a.budgetHit && Fenced(r.jobs, k.job, k.token, InviteePending),
                                      CheckInvitee(credential)), a)
    case CheckInvitee(credential) =>
      Statement(c, r,
        if a.found && Reward(c).Some? && Reward(c).value.referredBonus.Credited?
           && Reward(c).value.referredCredential == Some(credential) then CheckInviteePhase else ReleaseJob, a)
    case CheckInviteePhase =>
      Statement(c, r, if k.job in r.jobs && !r.jobs[k.job].phase.InviteePending? then Done else FixInvitee, a)
    case FixInvitee => Statement(c, r.(jobs := FixInviteePhase(r.jobs, k.job)), Done, a)
    case _ => c
  }

  function ReferrerStep(c: Scene, a: Answer): Scene {
    var k, r := c.worker, c.rows;
    match k.pc
    case ReadReferrer => Statement(c, r, AfterReferrerContext(c, a), a)
    case RaiseReferrer(owner, credential) =>
      Statement(c, r, if a.found then CommitReferrerBatch(owner, credential) else ReleaseJob, a)
    case CommitReferrerBatch(owner, credential) =>
      var after := CommitReferrer(r, k.job, k.token, owner, credential, a.found, k.now);
      Statement(c, after, AfterCommit(after.jobs != r.jobs, a.budgetHit && Fenced(r.jobs, k.job, k.token, ReferrerPending),
                                      CheckReferrer(credential)), a)
    case CheckReferrer(credential) =>
      Statement(c, r,
        if a.found && Reward(c).Some? && Reward(c).value.referrerBonus.Credited?
           && Reward(c).value.referrerCredential == Some(credential) then CheckReferrerPhase else ReleaseJob, a)
    case CheckReferrerPhase =>
      Statement(c, r, if k.job in r.jobs && r.jobs[k.job].phase.Completed? then Done else FixReferrer, a)
    case FixReferrer => Statement(c, r.(jobs := FixReferrerPhase(r.jobs, k.job, k.now)), Done, a)
    case SkipReferrer =>
      var l := Apply(r.ledger, SkipMissingReferrer(k.reward, if a.found then "referrer_managed_key_missing" else "referrer_not_eligible", k.now));
      Statement(c, r.(ledger := l), if l != r.ledger then CompleteSettled else CheckSkipped, a)
    case CheckSkipped =>
      Statement(c, r,
        if Reward(c).Some? && (Reward(c).value.referrerBonus.Skipped? || Reward(c).value.referrerBonus.Credited?)
        then CompleteSettled else ReleaseJob, a)
    case CompleteSettled => Statement(c, r.(jobs := Complete(r.jobs, k.job, k.token, k.now)), Done, a)
    case _ => c
  }

  /** hasConvergedAfterFailure up to the check it calls, for the phase the worker claimed. */
  function AfterFailure(c: Scene): Pc {
    if Reward(c).None? then ReleaseJob
    else
      var r := Reward(c).value;
      if c.worker.phase.InviteePending? then
        if r.referredBonus.Credited? && r.referredCredential.Some? then CheckInvitee(r.referredCredential.value) else ReleaseJob
      else if r.referrerBonus.Credited? && r.referrerCredential.Some? then CheckReferrer(r.referrerCredential.value)
      else ReleaseJob
  }

  function WorkerStep(c: Scene, a: Answer): Scene {
    var k, r := c.worker, c.rows;
    match k.pc
    case ReadClaim =>
      if a.throws || !Owns(r.jobs, k.job, k.token) then c.(worker := k.At(Done))
      else
        var phase := r.jobs[k.job].phase;
        c.(worker := k.(phase := phase, pc := if phase.InviteePending? then ReadInvitee else ReadReferrer))
    case ConvergedAfterFailure => Statement(c, r, AfterFailure(c), a)
    case ReleaseJob => Statement(c, r.(jobs := Release(r.jobs, k.job, k.token, k.now)), Done, a)
    case Done => c
    case _ => if k.phase.InviteePending? then InviteeStep(c, a) else ReferrerStep(c, a)
  }

  // ---------------------------------------------------------------- the whole system

  datatype World = World(rows: Rows, workers: map<int, Worker>, used: set<Token>)

  datatype Action =
    | Ledger(write: Write)                                  // any other writer of the ledger
    | Schedule(job: JobId, reward: RewardId, now: Time)     // an ACK, or a missed one made good
    | Repair(job: JobId, reward: RewardId, now: Time)
    | BeginClaim(worker: int, job: JobId, token: Token, now: Time)
    | Step(worker: int, answer: Answer)
    | Crash(worker: int)

  function Next(w: World, action: Action): World {
    match action
    case Ledger(write) => w.(rows := w.rows.(ledger := Apply(w.rows.ledger, write)))
    case Schedule(j, reward, now) => w.(rows := w.rows.(jobs := InsertJob(w.rows.jobs, j, reward, InviteePending, now)))
    case Repair(j, reward, now) =>
      var phase := RepairPhase(w.rows.ledger, reward);
      if phase.None? then w else w.(rows := w.rows.(jobs := InsertJob(w.rows.jobs, j, reward, phase.value, now)))
    case BeginClaim(id, j, token, now) =>
      if id in w.workers || token in w.used || j !in w.rows.jobs || !Claimable(w.rows.jobs[j], now) then w
      else World(w.rows.(jobs := Claim(w.rows.jobs, j, token, now)),
                 w.workers[id := Worker(j, w.rows.jobs[j].reward, token, InviteePending, now, ReadClaim, false)],
                 w.used + {token})
    case Step(id, a) =>
      if id !in w.workers then w
      else
        var c := WorkerStep(Scene(w.rows, w.workers[id]), a);
        w.(rows := c.rows, workers := w.workers[id := c.worker])
    case Crash(id) => w.(workers := w.workers - {id})
  }

  function Run(w: World, actions: seq<Action>): World
    decreases |actions|
  {
    if actions == [] then w else Run(Next(w, actions[0]), actions[1..])
  }

  // ---------------------------------------------------------------- what the rows say

  predicate InviteeCredited(l: Ledger, i: RewardId) {
    i in l && l[i].referredBonus.Credited?
  }

  predicate ReferrerSettled(l: Ledger, i: RewardId) {
    InviteeCredited(l, i) && (l[i].referrerBonus.Credited? || l[i].referrerBonus.Skipped?)
  }

  /** The phase of a job never claims more than the ledger says. */
  predicate JobOk(l: Ledger, job: Job) {
    && SchemaAllows(job)
    && (!job.phase.InviteePending? ==> InviteeCredited(l, job.reward))
    && (job.phase.Completed? ==> ReferrerSettled(l, job.reward) && job.lease.None?)
  }

  /** What a worker relies on although it read it earlier. */
  predicate Knows(l: Ledger, k: Worker) {
    && !k.phase.Completed?
    && (k.phase.ReferrerPending? || k.pc.AdvanceSettled? || k.pc.CheckInviteePhase? || k.pc.FixInvitee? ==>
          InviteeCredited(l, k.reward))
    && (k.pc.CompleteSettled? || k.pc.CheckReferrerPhase? || k.pc.FixReferrer? ==> ReferrerSettled(l, k.reward))
  }

  predicate WorkerOk(w: World, k: Worker) {
    && k.job in w.rows.jobs && w.rows.jobs[k.job].reward == k.reward
    && k.token in w.used
    && Knows(w.rows.ledger, k)
  }

  ghost predicate TokensOk(w: World) {
    && (forall j | j in w.rows.jobs && w.rows.jobs[j].Token().Some? :: w.rows.jobs[j].Token().value in w.used)
    && (forall i, j | i in w.rows.jobs && j in w.rows.jobs && w.rows.jobs[i].Token().Some?
                      && w.rows.jobs[i].Token() == w.rows.jobs[j].Token() :: i == j)
    && (forall a, b | a in w.workers && b in w.workers && w.workers[a].token == w.workers[b].token :: a == b)
  }

  ghost predicate OneJobPerReward(jobs: Jobs) {
    forall i, j | i in jobs && j in jobs && jobs[i].reward == jobs[j].reward :: i == j
  }

  ghost predicate Inv(w: World) {
    && PairsOk(w.rows.ledger)
    && (forall j | j in w.rows.jobs :: JobOk(w.rows.ledger, w.rows.jobs[j]))
    && OneJobPerReward(w.rows.jobs)
    && TokensOk(w)
    && (forall id | id in w.workers :: WorkerOk(w, w.workers[id]))
  }

  // ---------------------------------------------------------------- ledger and job moves

  /** What no writer takes back. */
  ghost predicate LedgerMoves(l: Ledger, m: Ledger) {
    && (PairsOk(l) ==> PairsOk(m))
    && (forall i | InviteeCredited(l, i) :: InviteeCredited(m, i))
    && (forall i | ReferrerSettled(l, i) :: ReferrerSettled(m, i))
  }

  lemma WriteMoves(l: Ledger, w: Write)
    ensures LedgerMoves(l, Apply(l, w))
  {
    if PairsOk(l) { WriteKeepsPairs(l, w); }
    forall i | InviteeCredited(l, i)
      ensures InviteeCredited(Apply(l, w), i) && (ReferrerSettled(l, i) ==> ReferrerSettled(Apply(l, w), i))
    {
      WriteIsLegal(l, w, i);
    }
  }

  /** Only job `j` changes: it keeps its reward, its phase does not fall, its token is kept or cleared. */
  ghost predicate JobMoves(jobs: Jobs, jobs': Jobs, j: JobId) {
    && jobs.Keys == jobs'.Keys
    && (forall i | i in jobs && i != j :: jobs'[i] == jobs[i])
    && (j in jobs ==>
          && jobs'[j].reward == jobs[j].reward
          && Rank(jobs[j].phase) <= Rank(jobs'[j].phase)
          && (jobs'[j].Token() == jobs[j].Token() || jobs'[j].lease.None?))
  }

  /** A step of a worker, seen from the rows and the worker it leaves. */
  ghost predicate Kept(c: Scene, d: Scene) {
    && LedgerMoves(c.rows.ledger, d.rows.ledger)
    && JobMoves(c.rows.jobs, d.rows.jobs, c.worker.job)
    && (c.worker.job in d.rows.jobs ==> JobOk(d.rows.ledger, d.rows.jobs[c.worker.job]))
    && d.worker.job == c.worker.job && d.worker.reward == c.worker.reward && d.worker.token == c.worker.token
    && Knows(d.rows.ledger, d.worker)
  }

  /** What a worker's step may assume. */
  ghost predicate SceneOk(c: Scene) {
    && PairsOk(c.rows.ledger)
    && c.worker.job in c.rows.jobs && c.rows.jobs[c.worker.job].reward == c.worker.reward
    && JobOk(c.rows.ledger, c.rows.jobs[c.worker.job])
    && Knows(c.rows.ledger, c.worker)
  }

  /** A statement keeps the scene if its rows do and the worker knows enough for its next step. */
  lemma StatementKept(c: Scene, rows: Rows, next: Pc, a: Answer)
    requires SceneOk(c) && LedgerMoves(c.rows.ledger, rows.ledger) && JobMoves(c.rows.jobs, rows.jobs, c.worker.job)
    requires JobOk(rows.ledger, rows.jobs[c.worker.job])
    requires Knows(rows.ledger, c.worker.At(next))
    ensures Kept(c, Statement(c, rows, next, a))
  {
  }

  lemma CommitInviteeKept(c: Scene, credential: Credential, subject: string, live: bool, rows: Rows)
    requires SceneOk(c)
    requires rows == CommitInvitee(c.rows, c.worker.job, c.worker.token, subject, credential, live, c.worker.now)
    ensures LedgerMoves(c.rows.ledger, rows.ledger) && JobMoves(c.rows.jobs, rows.jobs, c.worker.job)
    ensures JobOk(rows.ledger, rows.jobs[c.worker.job])
  {
    WriteMoves(c.rows.ledger, SettleInvitee(c.worker.reward, subject, credential, c.worker.now));
  }

  lemma CommitReferrerKept(c: Scene, owner: Person, credential: Credential, live: bool, rows: Rows)
    requires SceneOk(c)
    requires rows == CommitReferrer(c.rows, c.worker.job, c.worker.token, owner, credential, live, c.worker.now)
    ensures LedgerMoves(c.rows.ledger, rows.ledger) && JobMoves(c.rows.jobs, rows.jobs, c.worker.job)
    ensures JobOk(rows.ledger, rows.jobs[c.worker.job])
  {
    WriteMoves(c.rows.ledger, SettleReferrer(c.worker.reward, owner, credential, c.worker.now));
  }

  /** A statement that only reads. */
  lemma ReadKept(c: Scene, next: Pc, a: Answer)
    requires SceneOk(c) && Knows(c.rows.ledger, c.worker.At(next))
    ensures Kept(c, Statement(c, c.rows, next, a))
  {
  }

  lemma InviteeReadKept(c: Scene, a: Answer, d: Scene)
    requires SceneOk(c) && d == InviteeStep(c, a) && c.worker.phase.InviteePending?
    requires c.worker.pc.ReadInvitee? || c.worker.pc.RaiseInvitee? || c.worker.pc.CheckInvitee? || c.worker.pc.CheckInviteePhase?
    ensures Kept(c, d)
  {
  }

  lemma InviteeCommitKept(c: Scene, a: Answer, d: Scene)
    requires SceneOk(c) && d == InviteeStep(c, a) && c.worker.phase.InviteePending? && c.worker.pc.CommitInviteeBatch?
    ensures Kept(c, d)
  {
    var k, r, credential := c.worker, c.rows, c.worker.pc.credential;
    var subject := if Reward(c).Some? then Reward(c).value.referred.subject else "";
    var after := CommitInvitee(r, k.job, k.token, subject, credential, a.found, k.now);
    CommitInviteeKept(c, credential, subject, a.found, after);
    StatementKept(c, after, AfterCommit(after.jobs != r.jobs, a.budgetHit && Fenced(r.jobs, k.job, k.token, InviteePending),
                                        CheckInvitee(credential)), a);
  }

  lemma InviteeStepKept(c: Scene, a: Answer, d: Scene)
    requires SceneOk(c) && d == InviteeStep(c, a)
    requires c.worker.phase.InviteePending?
    ensures Kept(c, d)
  {
    var k, r := c.worker, c.rows;
    if k.pc.AdvanceSettled? {
      StatementKept(c, r.(jobs := Advance(r.jobs, k.job, k.token, k.now)), Done, a);
    } else if k.pc.FixInvitee? {
      StatementKept(c, r.(jobs := FixInviteePhase(r.jobs, k.job)), Done, a);
    } else if k.pc.CommitInviteeBatch? {
      InviteeCommitKept(c, a, d);
    } else if k.pc.ReadInvitee? || k.pc.RaiseInvitee? || k.pc.CheckInvitee? || k.pc.CheckInviteePhase? {
      InviteeReadKept(c, a, d);
    }
  }

  lemma SkipKept(c: Scene, a: Answer, l: Ledger, w: Write)
    requires SceneOk(c) && c.worker.phase.ReferrerPending?
    requires w.SkipMissingReferrer? && w.id == c.worker.reward && l == Apply(c.rows.ledger, w)
    ensures Kept(c, Statement(c, c.rows.(ledger := l), if l != c.rows.ledger then CompleteSettled else CheckSkipped, a))
  {
    WriteMoves(c.rows.ledger, w);
    var i := c.worker.reward;
    assert l != c.rows.ledger ==> Where(w, c.rows.ledger, i, c.rows.ledger[i]) by {
      if !Where(w, c.rows.ledger, i, c.rows.ledger[i]) {
        assert l == c.rows.ledger;
      }
    }
    StatementKept(c, c.rows.(ledger := l), if l != c.rows.ledger then CompleteSettled else CheckSkipped, a);
  }

  lemma ReferrerReadKept(c: Scene, a: Answer, d: Scene)
    requires SceneOk(c) && d == ReferrerStep(c, a) && c.worker.phase.ReferrerPending?
    requires c.worker.pc.ReadReferrer? || c.worker.pc.RaiseReferrer? || c.worker.pc.CheckReferrer?
             || c.worker.pc.CheckReferrerPhase? || c.worker.pc.CheckSkipped?
    ensures Kept(c, d)
  {
    assert PairOk(c.rows.ledger[c.worker.reward]);
    if !a.throws { ReadKept(c, d.worker.pc, a); } else { ReadKept(c, ReleaseJob, a); }
  }

  lemma ReferrerCommitKept(c: Scene, a: Answer, d: Scene)
    requires SceneOk(c) && d == ReferrerStep(c, a) && c.worker.phase.ReferrerPending? && c.worker.pc.CommitReferrerBatch?
    ensures Kept(c, d)
  {
    var k, r, owner, credential := c.worker, c.rows, c.worker.pc.owner, c.worker.pc.credential;
    var after := CommitReferrer(r, k.job, k.token, owner, credential, a.found, k.now);
    CommitReferrerKept(c, owner, credential, a.found, after);
    StatementKept(c, after, AfterCommit(after.jobs != r.jobs, a.budgetHit && Fenced(r.jobs, k.job, k.token, ReferrerPending),
                                        CheckReferrer(credential)), a);
  }

  lemma FixReferrerKept(c: Scene, a: Answer, d: Scene)
    requires SceneOk(c) && c.worker.phase.ReferrerPending? && c.worker.pc.FixReferrer?
    requires d == Statement(c, c.rows.(jobs := FixReferrerPhase(c.rows.jobs, c.worker.job, c.worker.now)), Done, a)
    ensures Kept(c, d)
  {
    StatementKept(c, c.rows.(jobs := FixReferrerPhase(c.rows.jobs, c.worker.job, c.worker.now)), Done, a);
  }

  lemma CompleteSettledKept(c: Scene, a: Answer, d: Scene)
    requires SceneOk(c) && c.worker.phase.ReferrerPending? && c.worker.pc.CompleteSettled?
    requires d == Statement(c, c.rows.(jobs := Complete(c.rows.jobs, c.worker.job, c.worker.token, c.worker.now)), Done, a)
    ensures Kept(c, d)
  {
    StatementKept(c, c.rows.(jobs := Complete(c.rows.jobs, c.worker.job, c.worker.token, c.worker.now)), Done, a);
  }

  lemma ReferrerWriteKept(c: Scene, a: Answer, d: Scene)
    requires SceneOk(c) && d == ReferrerStep(c, a) && c.worker.phase.ReferrerPending?
    requires c.worker.pc.FixReferrer? || c.worker.pc.SkipReferrer? || c.worker.pc.CompleteSettled?
    ensures Kept(c, d)
  {
    var k, r := c.worker, c.rows;
    if k.pc.FixReferrer? {
      FixReferrerKept(c, a, d);
    } else if k.pc.CompleteSettled? {
      CompleteSettledKept(c, a, d);
    } else {
      var w := SkipMissingReferrer(k.reward, if a.found then "referrer_managed_key_missing" else "referrer_not_eligible", k.now);
      SkipKept(c, a, Apply(r.ledger, w), w);
    }
  }

  lemma ReferrerStepKept(c: Scene, a: Answer, d: Scene)
    requires SceneOk(c) && d == ReferrerStep(c, a)
    requires c.worker.phase.ReferrerPending?
    ensures Kept(c, d)
  {
    var pc := c.worker.pc;
    if pc.FixReferrer? || pc.SkipReferrer? || pc.CompleteSettled? {
      ReferrerWriteKept(c, a, d);
    } else if pc.CommitReferrerBatch? {
      ReferrerCommitKept(c, a, d);
    } else if pc.ReadReferrer? || pc.RaiseReferrer? || pc.CheckReferrer? || pc.CheckReferrerPhase? || pc.CheckSkipped? {
      ReferrerReadKept(c, a, d);
    }
  }

  lemma ConvergedKept(c: Scene, a: Answer, d: Scene)
    requires SceneOk(c) && c.worker.pc.ConvergedAfterFailure? && d == Statement(c, c.rows, AfterFailure(c), a)
    ensures Kept(c, d)
  {
    ReadKept(c, AfterFailure(c), a);
  }

  lemma ReleaseKept(c: Scene, a: Answer, d: Scene)
    requires SceneOk(c) && c.worker.pc.ReleaseJob?
    requires d == Statement(c, c.rows.(jobs := Release(c.rows.jobs, c.worker.job, c.worker.token, c.worker.now)), Done, a)
    ensures Kept(c, d)
  {
    StatementKept(c, c.rows.(jobs := Release(c.rows.jobs, c.worker.job, c.worker.token, c.worker.now)), Done, a);
  }

  lemma ReadClaimKept(c: Scene, a: Answer, d: Scene)
    requires SceneOk(c) && c.worker.pc.ReadClaim? && d == WorkerStep(c, a)
    ensures Kept(c, d)
  {
  }

  lemma WorkerStepKept(c: Scene, a: Answer, d: Scene)
    requires SceneOk(c) && d == WorkerStep(c, a)
    ensures Kept(c, d)
  {
    var k, r := c.worker, c.rows;
    if k.pc.ConvergedAfterFailure? {
      ConvergedKept(c, a, d);
    } else if k.pc.ReleaseJob? {
      ReleaseKept(c, a, d);
    } else if k.pc.ReadClaim? {
      ReadClaimKept(c, a, d);
    } else if !k.pc.Done? {
      if k.phase.InviteePending? { InviteeStepKept(c, a, d); } else { ReferrerStepKept(c, a, d); }
    }
  }

  // ---------------------------------------------------------------- every step keeps the invariant

  lemma MovesKeepOthers(w: World, v: World)
    requires Inv(w) && LedgerMoves(w.rows.ledger, v.rows.ledger)
    ensures forall j | j in w.rows.jobs :: JobOk(v.rows.ledger, w.rows.jobs[j])
    ensures forall id | id in w.workers :: Knows(v.rows.ledger, w.workers[id])
  {
  }

  /** The rows and the acting worker as its step left them; all other workers as they were. */
  ghost predicate Steps(w: World, id: int, d: Scene, v: World) {
    id in w.workers && v == w.(rows := d.rows, workers := w.workers[id := d.worker])
  }

  lemma StepKeepsJobs(w: World, id: int, d: Scene, v: World)
    requires Inv(w) && Steps(w, id, d, v) && Kept(Scene(w.rows, w.workers[id]), d)
    ensures forall j | j in v.rows.jobs :: JobOk(v.rows.ledger, v.rows.jobs[j])
    ensures OneJobPerReward(v.rows.jobs)
  {
    MovesKeepOthers(w, v);
    forall j | j in v.rows.jobs ensures JobOk(v.rows.ledger, v.rows.jobs[j]) && v.rows.jobs[j].reward == w.rows.jobs[j].reward {
      if j != w.workers[id].job { assert v.rows.jobs[j] == w.rows.jobs[j]; }
    }
  }

  lemma StepKeepsTokens(w: World, id: int, d: Scene, v: World)
    requires TokensOk(w) && Steps(w, id, d, v) && Kept(Scene(w.rows, w.workers[id]), d)
    ensures TokensOk(v)
  {
    forall j | j in v.rows.jobs && v.rows.jobs[j].Token().Some?
      ensures j in w.rows.jobs && v.rows.jobs[j].Token() == w.rows.jobs[j].Token()
    {
      if j != w.workers[id].job { assert v.rows.jobs[j] == w.rows.jobs[j]; }
    }
  }

  lemma StepKeepsWorkers(w: World, id: int, d: Scene, v: World)
    requires Inv(w) && Steps(w, id, d, v) && Kept(Scene(w.rows, w.workers[id]), d)
    ensures forall i | i in v.workers :: WorkerOk(v, v.workers[i])
  {
    MovesKeepOthers(w, v);
    forall i | i in v.workers ensures WorkerOk(v, v.workers[i]) {
      assert WorkerOk(w, w.workers[i]);
      var j := w.workers[i].job;
      assert v.rows.jobs[j].reward == w.rows.jobs[j].reward;
    }
  }

  lemma StepKeepsInv(w: World, id: int, a: Answer, v: World)
    requires Inv(w) && id in w.workers && v == Next(w, Step(id, a))
    ensures Inv(v)
  {
    var c := Scene(w.rows, w.workers[id]);
    var d := WorkerStep(c, a);
    assert WorkerOk(w, c.worker);
    WorkerStepKept(c, a, d);
    StepKeepsJobs(w, id, d, v);
    StepKeepsTokens(w, id, d, v);
    StepKeepsWorkers(w, id, d, v);
  }

  lemma LedgerKeepsInv(w: World, v: World, l: Ledger)
    requires Inv(w) && LedgerMoves(w.rows.ledger, l) && v == w.(rows := w.rows.(ledger := l))
    ensures Inv(v)
  {
  }

  lemma InsertKeepsInv(w: World, v: World, j: JobId, reward: RewardId, phase: Phase, now: Time)
    requires Inv(w) && v == w.(rows := w.rows.(jobs := InsertJob(w.rows.jobs, j, reward, phase, now)))
    requires phase.InviteePending? || (phase.ReferrerPending? && InviteeCredited(w.rows.ledger, reward))
    ensures Inv(v)
  {
  }

  lemma ClaimKeepsInv(w: World, v: World, id: int, j: JobId, token: Token, now: Time)
    requires Inv(w) && v == Next(w, BeginClaim(id, j, token, now))
    ensures Inv(v)
  {
    if v != w {
      assert JobOk(w.rows.ledger, w.rows.jobs[j]);
      forall i | i in v.workers ensures WorkerOk(v, v.workers[i]) {
        if i != id { assert WorkerOk(w, w.workers[i]); }
      }
    }
  }

  lemma NextKeepsInv(w: World, action: Action, v: World)
    requires Inv(w) && v == Next(w, action)
    ensures Inv(v)
  {
    match action
    case Ledger(write) =>
      WriteMoves(w.rows.ledger, write);
      LedgerKeepsInv(w, v, Apply(w.rows.ledger, write));
    case Schedule(j, reward, now) => InsertKeepsInv(w, v, j, reward, InviteePending, now);
    case Repair(j, reward, now) =>
      if RepairPhase(w.rows.ledger, reward).Some? {
        InsertKeepsInv(w, v, j, reward, RepairPhase(w.rows.ledger, reward).value, now);
      }
    case BeginClaim(id, j, token, now) => ClaimKeepsInv(w, v, id, j, token, now);
    case Step(id, a) => if id in w.workers { StepKeepsInv(w, id, a, v); }
    case Crash(id) =>
  }

  lemma {:induction false} RunKeepsInv(w: World, actions: seq<Action>)
    requires Inv(w)
    ensures Inv(Run(w, actions))
    decreases |actions|
  {
    if actions != [] {
      NextKeepsInv(w, actions[0], Next(w, actions[0]));
      RunKeepsInv(Next(w, actions[0]), actions[1..]);
    }
  }

  const EMPTY := World(Rows(map[], map[]), map[], {})

  // ---------------------------------------------------------------- results over all runs

  /**
   Under every interleaving of workers, lease takeovers, crashes and other ledger writers, each
   reward has at most one job, a job waits for the referrer only once the invitee is credited, and
   it is completed only once the referrer is credited or skipped.
   */
  lemma PhasesFollowLedger(actions: seq<Action>)
    ensures var r := Run(EMPTY, actions).rows;
            && OneJobPerReward(r.jobs)
            && (forall j | j in r.jobs && r.jobs[j].phase.ReferrerPending? :: InviteeCredited(r.ledger, r.jobs[j].reward))
            && (forall j | j in r.jobs && r.jobs[j].phase.Completed? :: ReferrerSettled(r.ledger, r.jobs[j].reward))
  {
    RunKeepsInv(EMPTY, actions);
    var r := Run(EMPTY, actions).rows;
    forall j | j in r.jobs ensures JobOk(r.ledger, r.jobs[j]) {}
  }

  lemma NextKeepsPhase(w: World, action: Action, j: JobId)
    requires Inv(w) && j in w.rows.jobs
    ensures var v := Next(w, action);
            && j in v.rows.jobs && v.rows.jobs[j].reward == w.rows.jobs[j].reward
            && Rank(w.rows.jobs[j].phase) <= Rank(v.rows.jobs[j].phase)
  {
    if action.Step? && action.worker in w.workers {
      var c := Scene(w.rows, w.workers[action.worker]);
      assert WorkerOk(w, c.worker);
      WorkerStepKept(c, action.answer, WorkerStep(c, action.answer));
    }
  }

  /** The phase of a job never goes back, although two fix-ups are not fenced. */
  lemma {:induction false} PhaseNeverFalls(w: World, actions: seq<Action>, j: JobId)
    requires Inv(w) && j in w.rows.jobs
    ensures j in Run(w, actions).rows.jobs
    ensures Rank(w.rows.jobs[j].phase) <= Rank(Run(w, actions).rows.jobs[j].phase)
    decreases |actions|
  {
    if actions != [] {
      NextKeepsInv(w, actions[0], Next(w, actions[0]));
      NextKeepsPhase(w, actions[0], j);
      PhaseNeverFalls(Next(w, actions[0]), actions[1..], j);
    }
  }

  /** Of two workers, at most one holds the fence of a job. */
  lemma OneFenceHolder(actions: seq<Action>, a: int, b: int, j: JobId)
    requires var w := Run(EMPTY, actions);
             a in w.workers && b in w.workers && Owns(w.rows.jobs, j, w.workers[a].token) && Owns(w.rows.jobs, j, w.workers[b].token)
    ensures a == b
  {
    RunKeepsInv(EMPTY, actions);
  }

  lemma NextKeepsSuperseded(w: World, action: Action, j: JobId, token: Token)
    requires Inv(w) && j in w.rows.jobs && token in w.used && !Owns(w.rows.jobs, j, token)
    ensures var v := Next(w, action); j in v.rows.jobs && token in v.used && !Owns(v.rows.jobs, j, token)
  {
    if action.Step? && action.worker in w.workers {
      var c := Scene(w.rows, w.workers[action.worker]);
      assert WorkerOk(w, c.worker);
      WorkerStepKept(c, action.answer, WorkerStep(c, action.answer));
    }
  }

  /** A token that lost its job never gets it back. */
  lemma {:induction false} SupersededForever(w: World, actions: seq<Action>, j: JobId, token: Token)
    requires Inv(w) && j in w.rows.jobs && token in w.used && !Owns(w.rows.jobs, j, token)
    ensures !Owns(Run(w, actions).rows.jobs, j, token)
    decreases |actions|
  {
    if actions != [] {
      NextKeepsInv(w, actions[0], Next(w, actions[0]));
      NextKeepsSuperseded(w, actions[0], j, token);
      SupersededForever(Next(w, actions[0]), actions[1..], j, token);
    }
  }

  /** The three statements that carry no fence. */
  predicate Unfenced(pc: Pc) {
    pc.FixInvitee? || pc.FixReferrer? || pc.SkipReferrer?
  }

  lemma SupersededInviteeStep(c: Scene, a: Answer)
    requires !Owns(c.rows.jobs, c.worker.job, c.worker.token) && !Unfenced(c.worker.pc)
    ensures InviteeStep(c, a).rows == c.rows
  {
  }

  lemma SupersededReferrerStep(c: Scene, a: Answer)
    requires !Owns(c.rows.jobs, c.worker.job, c.worker.token) && !Unfenced(c.worker.pc)
    ensures ReferrerStep(c, a).rows == c.rows
  {
  }

  /**
   Once another worker has taken the job over, whatever happens afterwards, no step of the old
   worker changes a row of the ledger or of the jobs, its commit batch included, unless it is at
   one of the three unfenced statements.
   */
  lemma TakenOverWorkerChangesNothing(w: World, taker: int, token: Token, now: Time, actions: seq<Action>, former: int, a: Answer)
    requires Inv(w) && former in w.workers
    requires Next(w, BeginClaim(taker, w.workers[former].job, token, now)) != w
    requires var v := Run(Next(w, BeginClaim(taker, w.workers[former].job, token, now)), actions);
             former in v.workers && !Unfenced(v.workers[former].pc)
             && v.workers[former].token == w.workers[former].token && v.workers[former].job == w.workers[former].job
    ensures var v := Run(Next(w, BeginClaim(taker, w.workers[former].job, token, now)), actions);
            Next(v, Step(former, a)).rows == v.rows
  {
    var j, lost := w.workers[former].job, w.workers[former].token;
    var u := Next(w, BeginClaim(taker, j, token, now));
    assert WorkerOk(w, w.workers[former]);
    ClaimKeepsInv(w, u, taker, j, token, now);
    SupersededForever(u, actions, j, lost);
    var v := Run(u, actions);
    SupersededInviteeStep(Scene(v.rows, v.workers[former]), a);
    SupersededReferrerStep(Scene(v.rows, v.workers[former]), a);
  }

  // ---------------------------------------------------------------- the tables, updated in place

  /** A row of the two entitlement tables; `active` and `delivered` stand for the status columns. */
  datatype Entitlement = Entitlement(
    source: Source, subject: string, installation: Option<string>, issueRef: string, credential: Credential,
    active: bool, delivered: bool, expiresAt: Option<Time>, budget: nat)

  type Entitlements = map<nat, Entitlement>

  /** Whose entitlement a batch names. */
  datatype Holder = Holder(source: Source, subject: string, installation: Option<string>, issueRef: string, credential: Credential)

  /** The EXISTS clause of the invitee's ledger and job statements. */
  predicate InviteeHolds(e: Entitlement, h: Holder) {
    e.subject == h.subject && e.credential == h.credential && e.active && e.delivered
  }

  /** The row the invitee's budget statement updates; only QQ names the issue reference. */
  predicate InviteeRow(e: Entitlement, h: Holder) {
    InviteeHolds(e, h) && e.source == h.source && (h.source.Qq? ==> e.issueRef == h.issueRef)
  }

  predicate ReferrerHolds(e: Entitlement, h: Holder, now: Time) {
    && e.subject == h.subject && e.credential == h.credential && e.active
    && e.expiresAt.Some? && e.expiresAt.value / 1000 >= now / 1000
    && if e.source.Discord? then e.installation.Some? && e.installation == h.installation
       else e.issueRef == h.issueRef && e.delivered
  }

  predicate ReferrerRow(e: Entitlement, h: Holder, now: Time) {
    ReferrerHolds(e, h, now) && e.source == h.source
  }

  function InviteeRows(es: Entitlements, h: Holder): set<nat> {
    set i | i in es && InviteeRow(es[i], h)
  }

  function ReferrerRows(es: Entitlements, h: Holder, now: Time): set<nat> {
    set i | i in es && ReferrerRow(es[i], h, now)
  }

  predicate InviteeLive(es: Entitlements, h: Holder) {
    exists i :: i in es && InviteeHolds(es[i], h)
  }

  predicate ReferrerLive(es: Entitlements, h: Holder, now: Time) {
    exists i :: i in es && ReferrerHolds(es[i], h, now)
  }

  /** The selected rows get the budget unless theirs is higher. */
  function Budgeted(es: Entitlements, rows: set<nat>, budget: nat): Entitlements {
    map i | i in es :: if i in rows && es[i].budget < budget then es[i].(budget := budget) else es[i]
  }

  /** The budget statement keeps every guard of the statements after it. */
  lemma BudgetingKeepsHolders(es: Entitlements, rows: set<nat>, budget: nat, h: Holder, now: Time)
    ensures InviteeLive(Budgeted(es, rows, budget), h) == InviteeLive(es, h)
    ensures ReferrerLive(Budgeted(es, rows, budget), h, now) == ReferrerLive(es, h, now)
    ensures forall i | i in es :: es[i].budget <= Budgeted(es, rows, budget)[i].budget
  {
    var after := Budgeted(es, rows, budget);
    forall i | i in es
      ensures InviteeHolds(after[i], h) == InviteeHolds(es[i], h) && ReferrerHolds(after[i], h, now) == ReferrerHolds(es[i], h, now)
    {
    }
  }

  class SettlementTables {
    var ledger: Ledger
    var jobs: Jobs
    var entitlements: Entitlements

    function Contents(): Rows
      reads this
    {
      Rows(ledger, jobs)
    }

    /** The claim UPDATE and the re-read that follows it. */
    method ClaimJob(j: JobId, token: Token, now: Time) returns (claimed: Option<Job>)
      requires forall i :: i in jobs ==> jobs[i].Token() != Some(token)
      modifies this
      ensures Contents() == old(Contents()).(jobs := Claim(old(jobs), j, token, now))
      ensures claimed.Some? <==> Owns(jobs, j, token)
      ensures claimed.Some? ==> claimed.value == jobs[j] && Claimable(old(jobs[j]), now)
    {
      if j !in jobs || jobs[j].phase.Completed? { return None; }
      if jobs[j].lease.Some? && jobs[j].lease.value.until > now { return None; }
      jobs := jobs[j := jobs[j].(lease := Some(Lease(token, now + LEASE_MS)), attempts := jobs[j].attempts + 1)];
      return Some(jobs[j]);
    }

    /** The budget UPDATE of a batch, under the batch's fence. */
    method PersistBudget(rows: set<nat>, budget: nat) returns (changed: bool)
      requires rows <= entitlements.Keys
      modifies this`entitlements
      ensures entitlements == Budgeted(old(entitlements), rows, budget)
      ensures changed <==> rows != {}
    {
      entitlements := map i | i in entitlements ::
        if i in rows then entitlements[i].(budget := if entitlements[i].budget < budget then budget else entitlements[i].budget)
        else entitlements[i];
      changed := rows != {};
    }

    /**
     The three statements of the invitee batch, in order, in one transaction, each with its own guard:
     whether the budget row was hit, and whether the job moved.
     */
    method CommitInviteeBatch(j: JobId, token: Token, h: Holder, budget: nat, now: Time)
      returns (ownerPersisted: bool, jobChanged: bool)
      modifies this
      ensures var fenced := Fenced(old(jobs), j, token, InviteePending);
              && Contents() == CommitInvitee(old(Contents()), j, token, h.subject, h.credential, InviteeLive(old(entitlements), h), now)
              && (ownerPersisted <==> fenced && InviteeRows(old(entitlements), h) != {})
              && entitlements == if fenced then Budgeted(old(entitlements), InviteeRows(old(entitlements), h), budget)
                                 else old(entitlements)
      ensures jobChanged <==> jobs != old(jobs)
      ensures jobChanged ==> j in jobs && jobs[j].phase.ReferrerPending? && InviteeCredited(ledger, jobs[j].reward)
    {
      ownerPersisted, jobChanged := false, false;
      if !Fenced(jobs, j, token, InviteePending) { return; }
      var rows := set i | i in entitlements && InviteeRow(entitlements[i], h);
      BudgetingKeepsHolders(entitlements, rows, budget, h, now);
      ownerPersisted := PersistBudget(rows, budget);
      if !exists i :: i in entitlements && InviteeHolds(entitlements[i], h) { return; }
      var reward := jobs[j].reward;
      ledger := Apply(ledger, SettleInvitee(reward, h.subject, h.credential, now));
      if reward in ledger && ledger[reward].referredBonus.Credited? && ledger[reward].referredCredential == Some(h.credential) {
        jobs := jobs[j := jobs[j].(phase := ReferrerPending, lease := None, nextAttempt := now)];
        jobChanged := true;
        assert jobs[j] != old(jobs)[j];
      }
    }

    method CommitReferrerBatch(j: JobId, token: Token, h: Holder, budget: nat, now: Time)
      returns (ownerPersisted: bool, jobChanged: bool)
      modifies this
      ensures var fenced := Fenced(old(jobs), j, token, ReferrerPending);
              && Contents() == CommitReferrer(old(Contents()), j, token, Person(h.source, h.subject), h.credential,
                                              ReferrerLive(old(entitlements), h, now), now)
              && (ownerPersisted <==> fenced && ReferrerRows(old(entitlements), h, now) != {})
              && entitlements == if fenced then Budgeted(old(entitlements), ReferrerRows(old(entitlements), h, now), budget)
                                 else old(entitlements)
      ensures jobChanged <==> jobs != old(jobs)
      ensures jobChanged ==> j in jobs && jobs[j].phase.Completed? && jobs[j].reward in ledger
                             && ledger[jobs[j].reward].referrerBonus.Credited?
    {
      ownerPersisted, jobChanged := false, false;
      if !Fenced(jobs, j, token, ReferrerPending) { return; }
      var rows := set i | i in entitlements && ReferrerRow(entitlements[i], h, now);
      BudgetingKeepsHolders(entitlements, rows, budget, h, now);
      ownerPersisted := PersistBudget(rows, budget);
      if !exists i :: i in entitlements && ReferrerHolds(entitlements[i], h, now) { return; }
      var reward := jobs[j].reward;
      ledger := Apply(ledger, SettleReferrer(reward, Person(h.source, h.subject), h.credential, now));
      if reward in ledger && ledger[reward].referrerBonus.Credited? && ledger[reward].referrerCredential == Some(h.credential) {
        jobs := jobs[j := jobs[j].(phase := Completed, lease := None, nextAttempt := now, completedAt := Some(now))];
        jobChanged := true;
        assert jobs[j] != old(jobs)[j];
      }
    }
  }
}
