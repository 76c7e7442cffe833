/// Leases on background jobs (backend/factory/src/scheduler.rs).
module Scheduler {
  import opened Factory
  import opened Options
  import opened Order

  const PAYMENT_POLL_INTERVAL_MS: nat := 30000
  const JOB_LEASE_DURATION_MS: nat := 60000
  const INITIAL_BACKOFF_MS: nat := 5000
  const MAX_BACKOFF_MS: nat := 300000
  const U32_MAX: nat := 0xffff_ffff

  function PollJobId(): string {
    "payment-poll:base"
  }

  function SpawnJobId(session: string): string {
    "spawn-execution:" + session
  }

  lemma JobIdsDiffer(session: string, other: string)
    ensures SpawnJobId(session) != PollJobId()
    ensures SpawnJobId(session) == SpawnJobId(other) ==> session == other
  {
    assert SpawnJobId(session)[0] == 's' && PollJobId()[0] == 'p';
    assert SpawnJobId(session)[16..] == session && SpawnJobId(other)[16..] == other;
  }

  predicate NeedsPoll(s: Session) {
    s.state == AwaitingPayment && s.payment != Paid && s.payment != Refunded
  }

  function Active(st: State): set<string> {
    set id | id in st.sessions && NeedsPoll(st.sessions[id])
  }

  predicate HasLiveLease(job: Job, now: nat) {
    job.leasedUntil.Some? && job.leasedUntil.value > now
  }

  predicate IsDue(job: Job, now: nat) {
    job.nextRun.Some? && job.nextRun.value <= now && !HasLiveLease(job, now)
  }

  function NewJob(kind: JobKind, now: nat): Job {
    Job(kind, Pending, Some(now), None, None, None, None, 0, 0, 0, None)
  }

  function Increment(n: nat): nat {
    if n < U32_MAX then n + 1 else n
  }

  /// The running jobs, in order of their names.
  ghost function ActiveJobs(st: State, now: nat): seq<string> {
    Ids(Listed(set id | id in st.jobs && HasLiveLease(st.jobs[id], now) :: Key(0, id)))
  }

  function Ids(keys: seq<Key>): seq<string> {
    seq(|keys|, i requires 0 <= i < |keys| => keys[i].id)
  }

  ghost function Refreshed(st: State, now: nat): State {
    st.(activeJobs := ActiveJobs(st, now))
  }

  /// `backoff_delay_ms`
  function Doubling(n: nat): nat {
    if n == 0 then 1 else 2 * Doubling(n - 1)
  }

  function BackoffDelay(failures: nat): nat {
    var shift := if failures == 0 then 0 else if failures - 1 > 16 then 16 else failures - 1;
    if INITIAL_BACKOFF_MS * Doubling(shift) > MAX_BACKOFF_MS then MAX_BACKOFF_MS else INITIAL_BACKOFF_MS * Doubling(shift)
  }

  // ---------------------------------------------------------------- keeping the poll job

  function Idle(job: Job): Job {
    job.(status := Finished, nextRun := None, leasedAt := None, leasedUntil := None)
  }

  function RunAt(job: Job, time: nat): Job {
    job.(status := Pending, nextRun := Some(time), leasedAt := None, leasedUntil := None)
  }

  /// `sync_payment_poll_job_in_state` on the jobs, told whether a session waits for money.
  function PollSynced(jobs: map<string, Job>, waiting: bool, now: nat): map<string, Job> {
    if !waiting then
      if PollJobId() in jobs && !HasLiveLease(jobs[PollJobId()], now)
      then jobs[PollJobId() := Idle(jobs[PollJobId()])] else jobs
    else
      var job := if PollJobId() in jobs then jobs[PollJobId()] else NewJob(PaymentPoll, now);
      jobs[PollJobId() := if HasLiveLease(job, now) then job
                          else RunAt(job, if job.nextRun.Some? && job.nextRun.value < now then job.nextRun.value else now)]
  }

  function SyncPollJob(st: State, now: nat): State {
    st.(jobs := PollSynced(st.jobs, Active(st) != {}, now))
  }

  /// `enqueue_spawn_execution_in_state`
  function EnqueueSpawn(st: State, id: string, now: nat): State {
    var jobId := SpawnJobId(id);
    var job := if jobId in st.jobs then st.jobs[jobId] else NewJob(SpawnExecution(id), now);
    st.(jobs := st.jobs[jobId := if HasLiveLease(job, now) then job else RunAt(job, now)])
  }

  // ---------------------------------------------------------------- leasing

  function DueKeys(st: State, now: nat): set<Key> {
    set id | id in st.jobs && IsDue(st.jobs[id], now) :: Key(st.jobs[id].nextRun.value, id)
  }

  function Leased(job: Job, now: nat): Job {
    job.(status := Running, leasedAt := Some(now), leasedUntil := Some(now + JOB_LEASE_DURATION_MS),
         lastStarted := Some(now), attempts := Increment(job.attempts))
  }

  function First<T>(list: seq<T>, limit: nat): seq<T> {
    if |list| <= limit then list else list[..limit]
  }

  ghost function Chosen(st: State, now: nat, limit: nat): seq<string> {
    Ids(First(Listed(DueKeys(st, now)), limit))
  }

  function LeaseAll(jobs: map<string, Job>, ids: seq<string>, now: nat): map<string, Job> {
    map id | id in jobs :: if id in ids then Leased(jobs[id], now) else jobs[id]
  }

  /// `lease_due_jobs`
  ghost function LeaseDue(st: State, now: nat, limit: nat): State {
    Refreshed(st.(jobs := LeaseAll(st.jobs, Chosen(st, now, limit), now)), now)
  }

  /// Leasing takes exactly the least due jobs by time and name: as many as the limit allows, each
  /// due, and none left behind comes before one that was taken.
  lemma LeasesTheLeast(st: State, now: nat, limit: nat)
    ensures var chosen := Chosen(st, now, limit);
      |chosen| == (if |DueKeys(st, now)| <= limit then |DueKeys(st, now)| else limit)
      && (forall id :: id in chosen ==> id in st.jobs && IsDue(st.jobs[id], now))
      && (forall id, other ::
        id in chosen && other in st.jobs && IsDue(st.jobs[other], now) && other !in chosen
        ==> Earlier(Key(st.jobs[id].nextRun.value, id), Key(st.jobs[other].nextRun.value, other)))
  {
    var list, chosen := Listed(DueKeys(st, now)), Chosen(st, now, limit);
    ListedFacts(DueKeys(st, now));
    forall i | 0 <= i < |chosen|
      ensures chosen[i] in st.jobs && IsDue(st.jobs[chosen[i]], now) && list[i] == Key(st.jobs[chosen[i]].nextRun.value, chosen[i])
    {
      assert list[i] in DueKeys(st, now);
    }
    forall id, other | id in chosen && other in st.jobs && IsDue(st.jobs[other], now) && other !in chosen
      ensures Earlier(Key(st.jobs[id].nextRun.value, id), Key(st.jobs[other].nextRun.value, other))
    {
      var i :| 0 <= i < |chosen| && chosen[i] == id;
      assert Key(st.jobs[other].nextRun.value, other) in DueKeys(st, now);
      var j :| 0 <= j < |list| && list[j] == Key(st.jobs[other].nextRun.value, other);
      LeftBehind(list, chosen, j);
    }
  }

  lemma LeftBehind(list: seq<Key>, chosen: seq<string>, j: nat)
    requires |chosen| <= |list| && j < |list| && list[j].id !in chosen
    requires forall i :: 0 <= i < |chosen| ==> list[i].id == chosen[i]
    ensures j >= |chosen|
  {
  }

  // ---------------------------------------------------------------- finishing

  function Ended(job: Job, now: nat): Job {
    job.(lastFinished := Some(now), leasedAt := None, leasedUntil := None)
  }

  /// `finalize_job_success`
  function AfterSuccess(job: Job, polling: bool, now: nat): Job {
    var done := Ended(job, now).(successes := Increment(job.successes), failures := 0, lastFailure := None);
    if job.kind.PaymentPoll? && polling
    then done.(status := Pending, nextRun := Some(now + PAYMENT_POLL_INTERVAL_MS))
    else done.(status := Finished, nextRun := None)
  }

  ghost function FinishSuccess(st: State, jobId: string, now: nat): State {
    if jobId !in st.jobs then st
    else Refreshed(st.(jobs := st.jobs[jobId := AfterSuccess(st.jobs[jobId], Active(st) != {}, now)]), now)
  }

  /// `finalize_job_failure`
  function AfterFailure(job: Job, action: FailureAction, polling: bool, now: nat): Job {
    var done := Ended(job, now).(failures := Increment(job.failures), lastFailure := Some(action));
    match action
    case Retry => done.(status := Pending, nextRun := Some(now))
    case BackOff => done.(status := Backoff, nextRun := Some(now + BackoffDelay(done.failures)))
    case Skip =>
      done.(status := Skipped,
            nextRun := if job.kind.PaymentPoll? && polling then Some(now + PAYMENT_POLL_INTERVAL_MS) else None)
    case Terminate => done.(status := Terminal, nextRun := None)
  }

  ghost function FinishFailure(st: State, jobId: string, action: FailureAction, now: nat): State {
    if jobId !in st.jobs then st
    else Refreshed(st.(jobs := st.jobs[jobId := AfterFailure(st.jobs[jobId], action, Active(st) != {}, now)]), now)
  }

  /// What a failed poll can ask for (`payment_poll_prerequisite_failure`, `classify_payment_poll_error`):
  /// a missing or invalid configuration skips, a failed call backs off, anything else skips.
  datatype PollFailure = ConfigMissing | ConfigInvalid | RpcFailed | ManagementFailed | AmountInvalid | OtherFailure

  function ClassifyPollFailure(failure: PollFailure): FailureAction {
    if failure.RpcFailed? || failure.ManagementFailed? then BackOff else Skip
  }

  /// What a failed spawn can ask for (`classify_spawn_error`).
  datatype SpawnFailure =
    | RuntimeConfigMissing | CallNotConfigured | SpawnRpcFailed | SpawnCallFailed | CyclesMissing
    | DeadlinePassed | NotReady | NotSettled | NoSession | OtherSpawnFailure

  function ClassifySpawnFailure(failure: SpawnFailure): FailureAction {
    match failure
    case SpawnRpcFailed | SpawnCallFailed | CyclesMissing => BackOff
    case DeadlinePassed | NoSession => Terminate
    case _ => Skip
  }

  // ---------------------------------------------------------------- no poll is lost

  ghost predicate LeasesHaveTimes(jobs: map<string, Job>) {
    (forall id :: id in jobs && jobs[id].leasedUntil.Some? ==> jobs[id].nextRun.Some?)
    && (PollJobId() in jobs ==> jobs[PollJobId()].kind.PaymentPoll?)
  }

  predicate PollJobReady(jobs: map<string, Job>) {
    PollJobId() in jobs && jobs[PollJobId()].nextRun.Some?
  }

  /// While a session waits for money the poll job has a time to run, and no lease hides a job
  /// without one.
  ghost predicate PollsAreKept(st: State) {
    LeasesHaveTimes(st.jobs) && (Active(st) != {} ==> PollJobReady(st.jobs))
  }

  lemma PollSyncedKeeps(jobs: map<string, Job>, waiting: bool, now: nat)
    requires LeasesHaveTimes(jobs)
    ensures LeasesHaveTimes(PollSynced(jobs, waiting, now))
    ensures waiting ==> PollJobReady(PollSynced(jobs, waiting, now))
  {
    hide PollJobId;
  }

  lemma SyncKeepsPolls(st: State, now: nat)
    requires LeasesHaveTimes(st.jobs)
    ensures PollsAreKept(SyncPollJob(st, now))
  {
    hide LeasesHaveTimes, PollSynced, PollJobReady;
    PollSyncedKeeps(st.jobs, Active(st) != {}, now);
    assert Active(SyncPollJob(st, now)) == Active(st);
  }

  lemma EnqueueKeepsPolls(st: State, id: string, now: nat)
    requires PollsAreKept(st)
    ensures PollsAreKept(EnqueueSpawn(st, id, now))
  {
    JobIdsDiffer(id, id);
  }

  lemma LeaseKeepsPolls(st: State, now: nat, limit: nat)
    requires PollsAreKept(st)
    ensures PollsAreKept(LeaseDue(st, now, limit))
  {
    LeasesTheLeast(st, now, limit);
  }

  lemma SuccessKeepsPolls(st: State, jobId: string, now: nat)
    requires PollsAreKept(st)
    ensures PollsAreKept(FinishSuccess(st, jobId, now))
  {
  }

  /// A terminal failure would lose the poll; the poll job's failures are never terminal.
  lemma FailureKeepsPolls(st: State, jobId: string, action: FailureAction, now: nat)
    requires PollsAreKept(st)
    requires jobId == PollJobId() ==> exists f :: action == ClassifyPollFailure(f)
    ensures PollsAreKept(FinishFailure(st, jobId, action, now))
  {
  }
}
