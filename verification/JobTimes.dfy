/// When jobs run again: how long a job waits after each failure in a row, and that over any run no job
/// waits longer than five minutes (backend/factory/src/scheduler.rs).
module JobTimes {
  import opened Deposits
  import opened Escrow
  import opened Factory
  import opened FactoryRuns
  import opened Invariants
  import opened Options
  import opened Order
  import opened Polling
  import opened Scheduler

  // ---------------------------------------------------------------- failures in a row

  /// The wait after the n-th failure in a row, in milliseconds.
  function Wait(n: nat): nat {
    if n <= 1 then 5000
    else if n == 2 then 10000
    else if n == 3 then 20000
    else if n == 4 then 40000
    else if n == 5 then 80000
    else if n == 6 then 160000
    else 300000
  }

  lemma {:induction false} DoublingGrows(n: nat)
    requires n >= 6
    ensures Doubling(n) >= 64
    decreases n
  {
    if n > 6 {
      DoublingGrows(n - 1);
    } else {
      assert Doubling(3) == 8;
    }
  }

  lemma BackoffIsWait(n: nat)
    ensures BackoffDelay(n) == Wait(n)
  {
    if n >= 7 {
      DoublingGrows(if n - 1 > 16 then 16 else n - 1);
    } else {
      assert Doubling(3) == 8;
    }
  }

  /// One attempt: when it was leased and when it failed.
  datatype Attempt = Attempt(start: nat, end: nat)

  /// A job after attempts that all failed and back off.
  function Failing(job: Job, attempts: seq<Attempt>, polling: bool): Job {
    if attempts == [] then job
    else
      var last := attempts[|attempts| - 1];
      AfterFailure(Leased(Failing(job, attempts[..|attempts| - 1], polling), last.start), BackOff, polling, last.end)
  }

  lemma {:induction false} FailuresAreCounted(job: Job, attempts: seq<Attempt>, polling: bool)
    requires job.failures == 0 && |attempts| <= U32_MAX && job.attempts + |attempts| <= U32_MAX
    ensures var after := Failing(job, attempts, polling);
      after.failures == |attempts| && after.attempts == job.attempts + |attempts| && after.successes == job.successes
    decreases |attempts|
  {
    hide BackoffDelay;
    if attempts != [] {
      FailuresAreCounted(job, attempts[..|attempts| - 1], polling);
    }
  }

  /// After a success, the n-th failure in a row is answered by a wait of 5, 10, 20, 40, 80 and 160
  /// seconds, and of five minutes from the seventh on; its lease is over.
  lemma FailuresBackOff(job: Job, attempts: seq<Attempt>, polling: bool, success: nat)
    requires attempts != [] && |attempts| <= U32_MAX && job.attempts + |attempts| <= U32_MAX
    ensures var after := Failing(AfterSuccess(job, polling, success), attempts, polling);
      var last := attempts[|attempts| - 1];
      after.status == Backoff && after.nextRun == Some(last.end + Wait(|attempts|)) && after.leasedUntil.None?
      && after.attempts == job.attempts + |attempts| && after.lastStarted == Some(last.start)
      && after.lastFinished == Some(last.end) && after.successes == Increment(job.successes)
  {
    hide BackoffDelay;
    FailuresAreCounted(AfterSuccess(job, polling, success), attempts, polling);
    FailuresAreCounted(AfterSuccess(job, polling, success), attempts[..|attempts| - 1], polling);
    BackoffIsWait(|attempts|);
  }

  // ---------------------------------------------------------------- what the next time is

  /// The time a finished job is due again, told by what it was and how it ended; `None` is never.
  function Again(kind: JobKind, ended: Option<FailureAction>, failures: nat, polling: bool, now: nat): Option<nat> {
    match ended
    case Some(Retry) => Some(now)
    case Some(BackOff) => Some(now + Wait(failures + 1))
    case Some(Terminate) => None
    case _ => if kind.PaymentPoll? && polling then Some(now + 30000) else None
  }

  function EndStatus(kind: JobKind, ended: Option<FailureAction>, polling: bool): JobStatus {
    match ended
    case Some(Retry) => Pending
    case Some(BackOff) => Backoff
    case Some(Skip) => Skipped
    case Some(Terminate) => Terminal
    case None => if kind.PaymentPoll? && polling then Pending else Finished
  }

  /// A job that has ended, its lease over.
  predicate Over(job: Job, was: Job, ended: Option<FailureAction>, polling: bool, now: nat) {
    job.nextRun == Again(was.kind, ended, was.failures, polling, now) && job.status == EndStatus(was.kind, ended, polling)
    && job.leasedUntil.None? && job.leasedAt.None? && job.lastFinished == Some(now) && job.kind == was.kind
    && job.attempts == was.attempts && job.lastStarted == was.lastStarted
    && (ended.None? ==> job.failures == 0 && job.lastFailure.None?)
    && (ended.Some? ==> job.successes == was.successes && job.lastFailure == ended)
  }

  lemma FailureIsOver(job: Job, action: FailureAction, polling: bool, now: nat)
    requires job.failures < U32_MAX
    ensures Over(AfterFailure(job, action, polling, now), job, Some(action), polling, now)
  {
    BackoffIsWait(job.failures + 1);
    hide BackoffDelay;
  }

  lemma SuccessIsOver(job: Job, polling: bool, now: nat)
    ensures Over(AfterSuccess(job, polling, now), job, None, polling, now)
  {
  }

  /// How a failure of the poll, and of a spawn, ends its job: failed calls and want of cycles back off,
  /// a deadline that has passed or a session that is gone ends it, and nothing else runs by itself.
  function PollEnd(failure: PollFailure): FailureAction {
    match failure
    case RpcFailed | ManagementFailed => BackOff
    case ConfigMissing | ConfigInvalid | AmountInvalid | OtherFailure => Skip
  }

  function SpawnEnd(failure: SpawnFailure): FailureAction {
    match failure
    case SpawnRpcFailed | SpawnCallFailed | CyclesMissing => BackOff
    case DeadlinePassed | NoSession => Terminate
    case RuntimeConfigMissing | CallNotConfigured | NotReady | NotSettled | OtherSpawnFailure => Skip
  }

  ghost predicate SomeoneStillWaits(st: State) {
    exists id :: id in st.sessions && NeedsPoll(st.sessions[id])
  }

  /// Of all jobs, the one that ended has ended, and the others are as they were.
  ghost predicate Ends(st: State, after: State, jobId: string, ended: Option<FailureAction>, now: nat) {
    forall name :: name in st.jobs ==>
      name in after.jobs
      && (if name == jobId then Over(after.jobs[name], st.jobs[name], ended, SomeoneStillWaits(st), now)
          else after.jobs[name] == st.jobs[name])
  }

  lemma SuccessEnds(st: State, jobId: string, now: nat)
    ensures Ends(st, FinishSuccess(st, jobId, now), jobId, None, now)
  {
    hide AfterSuccess, Over, ActiveJobs, SomeoneStillWaits, Active;
    SomeoneWaits(st);
    if jobId in st.jobs {
      SuccessIsOver(st.jobs[jobId], Active(st) != {}, now);
    }
  }

  lemma FailureEnds(st: State, jobId: string, action: FailureAction, now: nat)
    requires jobId in st.jobs ==> st.jobs[jobId].failures < U32_MAX
    ensures Ends(st, FinishFailure(st, jobId, action, now), jobId, Some(action), now)
  {
    hide AfterFailure, Over, ActiveJobs, SomeoneStillWaits, Active;
    SomeoneWaits(st);
    if jobId in st.jobs {
      FailureIsOver(st.jobs[jobId], action, Active(st) != {}, now);
    }
  }

  lemma ClassifiedAlike(poll: PollFailure, spawn: SpawnFailure)
    ensures ClassifyPollFailure(poll) == PollEnd(poll) && ClassifySpawnFailure(spawn) == SpawnEnd(spawn)
  {
  }

  /// Finishing a job, failing a poll and failing a spawn each end one job alone, told by its name, its
  /// kind and the cause.
  lemma JobsEnd(st: State, poll: PollFailure, spawn: SpawnFailure, id: string, jobId: string, now: nat)
    requires forall name :: name in st.jobs ==> st.jobs[name].failures < U32_MAX
    ensures Ends(st, After(st, JobSucceeded(jobId, now)), jobId, None, now)
    ensures Ends(st, After(st, PollFailed(poll, now)), "payment-poll:base", Some(PollEnd(poll)), now)
    ensures Ends(st, After(st, SpawnJobFailed(id, spawn, now)), "spawn-execution:" + id, Some(SpawnEnd(spawn)), now)
  {
    hide Ends, FinishSuccess, FinishFailure, PollEnd, SpawnEnd, ClassifyPollFailure, ClassifySpawnFailure;
    ClassifiedAlike(poll, spawn);
    SuccessEnds(st, jobId, now);
    FailureEnds(st, PollJobId(), PollEnd(poll), now);
    FailureEnds(st, SpawnJobId(id), SpawnEnd(spawn), now);
  }

  lemma SomeoneWaits(st: State)
    ensures Active(st) != {} <==> SomeoneStillWaits(st)
  {
    if id :| id in st.sessions && NeedsPoll(st.sessions[id]) {
      assert id in Active(st);
    }
    if Active(st) != {} {
      var id :| id in Active(st);
    }
  }

  // ---------------------------------------------------------------- the list of running jobs

  /// The list names exactly the jobs under a lease, in the order of their names.
  ghost predicate ListsRunning(st: State, now: nat) {
    (forall name :: name in st.activeJobs <==>
      name in st.jobs && st.jobs[name].leasedUntil.Some? && st.jobs[name].leasedUntil.value > now)
    && forall i, j :: 0 <= i < j < |st.activeJobs| ==> Before(st.activeJobs[i], st.activeJobs[j])
  }

  lemma ListedJobs(st: State, now: nat, name: string)
    ensures name in ActiveJobs(st, now) <==> name in st.jobs && HasLiveLease(st.jobs[name], now)
  {
    var keys := set id | id in st.jobs && HasLiveLease(st.jobs[id], now) :: Key(0, id);
    var list, ids := Listed(keys), ActiveJobs(st, now);
    ListedFacts(keys);
    if name in st.jobs && HasLiveLease(st.jobs[name], now) {
      assert Key(0, name) in keys;
      var i :| 0 <= i < |list| && list[i] == Key(0, name);
      assert ids[i] == name;
    }
    if name in ids {
      var i :| 0 <= i < |ids| && ids[i] == name;
      assert list[i] in keys;
    }
  }

  lemma ListedInOrder(st: State, now: nat, i: nat, j: nat)
    requires i < j < |ActiveJobs(st, now)|
    ensures Before(ActiveJobs(st, now)[i], ActiveJobs(st, now)[j])
  {
    var keys := set id | id in st.jobs && HasLiveLease(st.jobs[id], now) :: Key(0, id);
    var list := Listed(keys);
    ListedFacts(keys);
    assert list[i] in keys && list[j] in keys && Earlier(list[i], list[j]);
  }

  lemma RefreshedLists(st: State, now: nat)
    ensures ListsRunning(Refreshed(st, now), now)
  {
    hide ActiveJobs;
    forall name ensures name in ActiveJobs(st, now) <==> name in st.jobs && HasLiveLease(st.jobs[name], now) {
      ListedJobs(st, now, name);
    }
    forall i, j | 0 <= i < j < |ActiveJobs(st, now)| ensures Before(ActiveJobs(st, now)[i], ActiveJobs(st, now)[j]) {
      ListedInOrder(st, now, i, j);
    }
  }

  /// Leasing and finishing leave the list of running jobs exact.
  lemma RunningIsListed(st: State, step: Step)
    requires step.LeaseJobs? || step.JobSucceeded? || step.PollFailed? || step.SpawnJobFailed?
    ensures step.LeaseJobs? ==> ListsRunning(After(st, step), step.now)
    ensures step.JobSucceeded? && step.jobId in st.jobs ==> ListsRunning(After(st, step), step.now)
    ensures step.PollFailed? && "payment-poll:base" in st.jobs ==> ListsRunning(After(st, step), step.now)
    ensures step.SpawnJobFailed? && "spawn-execution:" + step.id in st.jobs ==> ListsRunning(After(st, step), step.now)
  {
    hide ListsRunning, FinishSuccess, FinishFailure, Refreshed, Chosen, LeaseAll, Create, Poll, ApplyEvent, FinalizeRefund, Attach,
      Fail, RetrySpawn;
    match step
    case LeaseJobs(now, limit) => RefreshedLists(st.(jobs := LeaseAll(st.jobs, Chosen(st, now, limit), now)), now);
    case JobSucceeded(jobId, now) => if jobId in st.jobs { FinishedLists(st, jobId, Skip, now); }
    case PollFailed(failure, now) =>
      if PollJobId() in st.jobs { FinishedLists(st, PollJobId(), ClassifyPollFailure(failure), now); }
    case SpawnJobFailed(id, failure, now) =>
      if SpawnJobId(id) in st.jobs { FinishedLists(st, SpawnJobId(id), ClassifySpawnFailure(failure), now); }
  }

  lemma FinishedLists(st: State, jobId: string, action: FailureAction, now: nat)
    requires jobId in st.jobs
    ensures ListsRunning(FinishSuccess(st, jobId, now), now) && ListsRunning(FinishFailure(st, jobId, action, now), now)
  {
    hide ListsRunning, Refreshed, AfterSuccess, AfterFailure, Active;
    RefreshedLists(st.(jobs := st.jobs[jobId := AfterSuccess(st.jobs[jobId], Active(st) != {}, now)]), now);
    RefreshedLists(st.(jobs := st.jobs[jobId := AfterFailure(st.jobs[jobId], action, Active(st) != {}, now)]), now);
  }

  // ---------------------------------------------------------------- the poll job

  predicate PollIdle(jobs: map<string, Job>, now: nat) {
    "payment-poll:base" in jobs ==>
      (jobs["payment-poll:base"].leasedUntil.Some? && jobs["payment-poll:base"].leasedUntil.value > now)
      || (jobs["payment-poll:base"].nextRun.None? && jobs["payment-poll:base"].status == Finished)
  }

  predicate PollDue(jobs: map<string, Job>, now: nat) {
    "payment-poll:base" in jobs
    && ((jobs["payment-poll:base"].leasedUntil.Some? && jobs["payment-poll:base"].leasedUntil.value > now)
        || (jobs["payment-poll:base"].nextRun.Some? && jobs["payment-poll:base"].nextRun.value <= now
            && jobs["payment-poll:base"].status == Pending))
  }

  lemma SyncIsDue(st: State, now: nat)
    ensures if SomeoneStillWaits(st) then PollDue(SyncPollJob(st, now).jobs, now) else PollIdle(SyncPollJob(st, now).jobs, now)
  {
    SomeoneWaits(st);
    hide Active, SomeoneStillWaits;
  }

  // ---------------------------------------------------------------- no long waits

  /// No job waits for more than five minutes.
  ghost predicate Soon(st: State, clock: nat) {
    forall name :: name in st.jobs ==> JobSoon(st.jobs[name], clock)
  }

  predicate JobSoon(job: Job, clock: nat) {
    job.nextRun.Some? ==> job.nextRun.value <= clock + 300000
  }

  lemma SameJobsSoon(st: State, after: State, clock: nat, now: nat)
    requires Soon(st, clock) && clock <= now && after.jobs == st.jobs
    ensures Soon(after, now)
  {
  }

  lemma OneJobSoon(st: State, after: State, name: string, job: Job, clock: nat, now: nat)
    requires Soon(st, clock) && clock <= now && after.jobs == st.jobs[name := job] && JobSoon(job, now)
    ensures Soon(after, now)
  {
  }

  lemma EnqueueSoon(st: State, id: string, clock: nat, now: nat)
    requires Soon(st, clock) && clock <= now
    ensures Soon(EnqueueSpawn(st, id, now), now)
  {
  }

  lemma SyncSoon(st: State, clock: nat, now: nat)
    requires Soon(st, clock) && clock <= now
    ensures Soon(SyncPollJob(st, now), now)
  {
    hide Active;
  }

  lemma SuccessSoon(st: State, jobId: string, clock: nat, now: nat)
    requires Soon(st, clock) && clock <= now
    ensures Soon(FinishSuccess(st, jobId, now), now)
  {
    hide Active, ActiveJobs, Soon, JobSoon, Doubling, AfterSuccess;
    SoonLater(st, clock, now);
    if jobId in st.jobs {
      var success := AfterSuccess(st.jobs[jobId], Active(st) != {}, now);
      EndedSoon(st.jobs[jobId], Skip, Active(st) != {}, now);
      OneJobSoon(st, FinishSuccess(st, jobId, now), jobId, success, clock, now);
    }
  }

  lemma FailureSoon(st: State, jobId: string, action: FailureAction, clock: nat, now: nat)
    requires Soon(st, clock) && clock <= now
    ensures Soon(FinishFailure(st, jobId, action, now), now)
  {
    hide Active, ActiveJobs, Soon, JobSoon, Doubling, AfterFailure;
    SoonLater(st, clock, now);
    if jobId in st.jobs {
      var failure := AfterFailure(st.jobs[jobId], action, Active(st) != {}, now);
      EndedSoon(st.jobs[jobId], action, Active(st) != {}, now);
      OneJobSoon(st, FinishFailure(st, jobId, action, now), jobId, failure, clock, now);
    }
  }

  lemma EndedSoon(job: Job, action: FailureAction, polling: bool, now: nat)
    ensures JobSoon(AfterSuccess(job, polling, now), now) && JobSoon(AfterFailure(job, action, polling, now), now)
  {
    hide Doubling;
  }

  lemma SoonLater(st: State, clock: nat, now: nat)
    requires Soon(st, clock) && clock <= now
    ensures Soon(st, now)
  {
  }

  lemma LeaseSoon(st: State, limit: nat, clock: nat, now: nat)
    requires Soon(st, clock) && clock <= now
    ensures Soon(LeaseDue(st, now, limit), now)
  {
    hide Chosen, ActiveJobs;
  }

  lemma {:induction false} ReconcileSoon(st: State, ids: seq<string>, g: Groups, first: nat, last: nat, now: nat,
                                         canonical: Option<Canonical>, clock: nat)
    requires SessionsOk(st) && ToReconcile(st, ids) && Soon(st, clock) && clock <= now
    ensures Soon(ReconcileAll(st, ids, g, first, last, now, canonical).state, now)
    decreases |ids|
  {
    hide SessionsOk, ReconcileOne, OnlyTouches, SyncPollJob, ToReconcile, Soon, EnqueueSpawn;
    if ids == [] {
      SyncSoon(st, clock, now);
    } else {
      PendingFirst(st, ids);
      var one := ReconcileOne(st, ids[0], g, first, last, now, canonical);
      ReconcileOneKeeps(st, ids[0], g, first, last, now, canonical);
      EnqueueSoon(st, ids[0], clock, now);
      if one.state.jobs == st.jobs {
        SameJobsSoon(st, one.state, clock, now);
      } else {
        SameJobsSoon(EnqueueSpawn(st, ids[0], now), one.state, now, now);
      }
      if one.error.None? {
        PendingAfterOne(st, one.state, ids);
        ReconcileSoon(one.state, ids[1..], g, first, last, now, canonical, now);
      }
    }
  }

  lemma PollSoon(st: State, latest: nat, logs: seq<Log>, now: nat, canonical: Option<Canonical>, clock: nat)
    requires Safe(st) && Soon(st, clock) && clock <= now
    ensures Soon(Poll(st, latest, logs, now, canonical).state, now)
  {
    hide SessionsOk, PollsAreKept, ActiveIds, ReconcileAll, Groupable, ToReconcile, Plan, Soon;
    SoonLater(st, clock, now);
    if Plan(st, latest).Some? {
      var p := Plan(st, latest).value;
      MovingTheScan(st, p.last);
      SameJobsSoon(st, st.(scanned := Some(p.last)), clock, now);
      ReconcileSoon(st.(scanned := Some(p.last)), ActiveIds(st), Grouped(logs), p.first, p.last, now, canonical, now);
    }
  }

  lemma CreateSoon(st: State, id: string, claimId: string, gross: nat, minimum: nat, paused: bool, now: nat, clock: nat)
    requires Safe(st) && id !in st.sessions && Soon(st, clock) && clock <= now
    ensures Soon(Create(st, id, claimId, gross, minimum, paused, now).state, now)
  {
    hide SessionsOk, PollsAreKept, Soon, Claimed, SyncPollJob;
    SoonLater(st, clock, now);
    if !paused && gross >= minimum {
      CreateIsClaimed(st, id, claimId, gross, minimum, now);
      ClaimedFacts(st, id, claimId, gross, now);
      SameJobsSoon(st, Claimed(st, id, claimId, gross, now), clock, now);
      SyncSoon(Claimed(st, id, claimId, gross, now), now, now);
    }
  }

  lemma EventSoon(st: State, step: Step, clock: nat)
    requires Soon(st, clock) && (step.Signal? || step.MarkFailed? || step.RetrySession?) && clock <= step.now
    ensures Soon(After(st, step), step.now)
  {
    hide Soon, ApplyEvent, EnqueueSpawn;
    var event := if step.Signal? then step.event else if step.MarkFailed? then SpawnFailed else RetryRequested;
    var after := ApplyEvent(st, step.id, step.actor, step.now, event, step.reason).state;
    EventKeepsJobs(st, step.id, step.actor, step.now, event, step.reason);
    SameJobsSoon(st, after, clock, step.now);
    EnqueueSoon(after, step.id, step.now, step.now);
  }

  lemma RecordedJobs(st: State, id: string, now: nat, entry: AuditEntry)
    requires id in st.sessions
    ensures Recorded(SyncFlags(st, id, now), id, entry).jobs == st.jobs
  {
  }

  lemma RefundJobs(st: State, id: string, now: nat)
    ensures FinalizeRefund(st, id, now).state.jobs == st.jobs
  {
    hide ValidateRefund, Recorded, SyncFlags, HandedOver;
    if ValidateRefund(st, id, now) == Allowed && FinalizeRefund(st, id, now).error.None? {
      RefundedStored(st, id, now);
      var s, c := st.sessions[id], st.claims[id];
      var runtimes := if s.automaton.Some?
        then st.runtimes[s.automaton.value := HandedOver(st.runtimes[s.automaton.value], now)] else st.runtimes;
      var paidBack := st.(runtimes := runtimes,
        sessions := st.sessions[id := s.(payment := Refunded, updatedAt := now)],
        claims := st.claims[id := c.(payment := Refunded, refundedAt := Some(now), updatedAt := now)]);
      RecordedJobs(paidBack, id, now, AuditEntry(now, Some(s.state), s.state, User, "refund transaction confirmed on-chain"));
    }
  }

  lemma RefundedStored(st: State, id: string, now: nat)
    requires ValidateRefund(st, id, now) == Allowed
    ensures id in st.sessions && id in st.claims
  {
  }

  lemma RefundSoon(st: State, id: string, now: nat, clock: nat)
    requires Soon(st, clock) && clock <= now
    ensures Soon(FinalizeRefund(st, id, now).state, now)
  {
    hide FinalizeRefund, Soon;
    RefundJobs(st, id, now);
    SameJobsSoon(st, FinalizeRefund(st, id, now).state, clock, now);
  }

  lemma StepSoon(st: State, step: Step, clock: nat)
    requires Safe(st) && Enabled(st, step) && Soon(st, clock) && Time(step).GetOr(clock) >= clock
    ensures Soon(After(st, step), Time(step).GetOr(clock))
  {
    hide Safe, Soon, Create, Poll, ApplyEvent, FinalizeRefund, LeaseDue, FinishSuccess, FinishFailure, EnqueueSpawn, Fail, RetrySpawn;
    match step
    case CreateSession(id, claimId, gross, minimum, paused, now) => CreateSoon(st, id, claimId, gross, minimum, paused, now, clock);
    case PollPayments(latest, logs, now, canonical) => PollSoon(st, latest, logs, now, canonical, clock);
    case Signal(_, _, _, _, _) => EventSoon(st, step, clock);
    case MarkFailed(_, _, _, _) => EventSoon(st, step, clock);
    case RetrySession(_, _, _, _) => EventSoon(st, step, clock);
    case RefundSession(id, now) => RefundSoon(st, id, now, clock);
    case AttachAutomaton(id, canister) => SameJobsSoon(st, After(st, step), clock, clock);
    case LeaseJobs(now, limit) => LeaseSoon(st, limit, clock, now);
    case JobSucceeded(jobId, now) => SuccessSoon(st, jobId, clock, now);
    case PollFailed(failure, now) => FailureSoon(st, PollJobId(), ClassifyPollFailure(failure), clock, now);
    case SpawnJobFailed(id, failure, now) => FailureSoon(st, SpawnJobId(id), ClassifySpawnFailure(failure), clock, now);
  }

  lemma {:induction false} EveryRunIsSoon(st: State, steps: seq<Step>, clock: nat)
    requires Safe(st) && CanRun(st, steps) && Clocked(steps, clock) && Soon(st, clock)
    ensures Soon(Run(st, steps), LastTime(steps, clock)) && Safe(Run(st, steps))
    decreases |steps|
  {
    hide Safe, Soon, After, Enabled;
    if steps != [] {
      StepSoon(st, steps[0], clock);
      StepKeepsSafe(st, steps[0]);
      EveryRunIsSoon(After(st, steps[0]), steps[1..], Time(steps[0]).GetOr(clock));
    }
  }

  /// Main result. In every run under a clock that does not go back, as long as a session waits for
  /// money the poll job is due within five minutes, and so is every other job that is due at all.
  lemma JobsRunSoon(ttl: nat, depth: nat, steps: seq<Step>, clock: nat)
    requires CanRun(Initial(ttl, depth), steps) && Clocked(steps, clock)
    ensures var st, now := Run(Initial(ttl, depth), steps), LastTime(steps, clock);
      (forall name :: name in st.jobs && st.jobs[name].nextRun.Some? ==> st.jobs[name].nextRun.value <= now + 300000)
      && ((exists id :: id in st.sessions && st.sessions[id].state == AwaitingPayment) ==>
            "payment-poll:base" in st.jobs && st.jobs["payment-poll:base"].nextRun.Some?)
  {
    hide CanRun, Run, Safe;
    InitialIsSafe(ttl, depth);
    EveryRunIsSoon(Initial(ttl, depth), steps, clock);
    var st := Run(Initial(ttl, depth), steps);
    forall id | id in st.sessions && st.sessions[id].state == AwaitingPayment
      ensures "payment-poll:base" in st.jobs && st.jobs["payment-poll:base"].nextRun.Some?
    {
      WaitingIsPolled(st, id);
    }
    assert forall name :: name in st.jobs ==> JobSoon(st.jobs[name], LastTime(steps, clock));
  }

  /// A session is polled exactly while it waits for its price.
  lemma WaitingIsPolled(st: State, id: string)
    requires Safe(st)
    ensures id in Active(st) <==> id in st.sessions && st.sessions[id].state == AwaitingPayment
    ensures id in Active(st) ==> PollJobReady(st.jobs)
  {
    if id in st.sessions {
      assert SessionOk(st, id);
    }
  }
}
