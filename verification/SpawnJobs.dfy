/// A paid session's spawn job: due as soon as the session may be spawned, taken by the next lease, and
/// never lost but to a failure that gives up (backend/factory/src/scheduler.rs,
/// backend/factory/src/retry.rs, backend/factory/src/spawn.rs).
module SpawnJobs {
  import opened Escrow
  import opened Factory
  import opened FactoryRuns
  import opened Invariants
  import opened Options
  import opened Order
  import opened Polling
  import opened Scheduler

  /// The job runs under a lease, or its time has come.
  predicate SpawnDue(jobs: map<string, Job>, id: string, now: nat) {
    var name := "spawn-execution:" + id;
    name in jobs
    && ((jobs[name].leasedUntil.Some? && jobs[name].leasedUntil.value > now)
        || (jobs[name].nextRun.Some? && jobs[name].nextRun.value <= now))
  }

  /// The job has a time to run, now or later.
  predicate SpawnPlanned(jobs: map<string, Job>, id: string) {
    var name := "spawn-execution:" + id;
    name in jobs && jobs[name].nextRun.Some?
  }

  lemma EnqueueMakesDue(st: State, id: string, now: nat)
    ensures SpawnDue(EnqueueSpawn(st, id, now).jobs, id, now)
    ensures forall name :: name != "spawn-execution:" + id ==> SameEntry(st.jobs, EnqueueSpawn(st, id, now).jobs, name)
  {
  }

  // ---------------------------------------------------------------- retries and failures

  /// After a retry that is not refused, the session is back where it was paid, with its job due.
  lemma RetryIsDue(st: State, id: string, actor: Actor, now: nat, reason: string)
    requires Safe(st) && RetrySpawn(st, id, actor, now, reason).error.None?
    ensures var after := RetrySpawn(st, id, actor, now, reason).state;
      id in after.sessions && after.sessions[id].state == PaymentDetected && SpawnDue(after.jobs, id, now)
  {
    hide ApplyEvent, EnqueueSpawn, SpawnDue;
    var retried := ApplyEvent(st, id, actor, now, RetryRequested, reason);
    if retried.error.None? {
      RetriedState(st, id, actor, now, reason);
      EnqueueSame(retried.state, id, now);
      EnqueueMakesDue(retried.state, id, now);
    }
  }

  lemma RetriedState(st: State, id: string, actor: Actor, now: nat, reason: string)
    requires SessionsOk(st) && ApplyEvent(st, id, actor, now, RetryRequested, reason).error.None?
    ensures var after := ApplyEvent(st, id, actor, now, RetryRequested, reason).state;
      id in after.sessions && after.sessions[id].state == PaymentDetected
  {
    assert SessionOk(st, id);
    StoredTrail(st, id);
    EventKeepsRecords(st, id, actor, now, RetryRequested, reason);
    MoveEffect(st, id, actor, now, RetryRequested, reason);
    hide ApplyEvent, SessionsOk, LastEntries;
  }

  /// A failure that may be retried, in time and fully paid, leaves the job due; one that may not
  /// leaves every job as it was.
  lemma FailureIsDue(st: State, id: string, actor: Actor, now: nat, reason: string)
    requires Safe(st) && Fail(st, id, actor, now, reason).error.None?
    ensures var after := Fail(st, id, actor, now, reason).state;
      id in st.sessions && id in after.sessions && after.sessions[id].state == SessionState.Failed
      && (if now <= st.sessions[id].expiresAt then SpawnDue(after.jobs, id, now) else after.jobs == st.jobs)
  {
    hide ApplyEvent, EnqueueSpawn, SpawnDue;
    var failed := ApplyEvent(st, id, actor, now, SpawnFailed, reason);
    if failed.error.None? {
      FailedState(st, id, actor, now, reason);
      EventKeepsJobs(st, id, actor, now, SpawnFailed, reason);
      EnqueueSame(failed.state, id, now);
      EnqueueMakesDue(failed.state, id, now);
    }
  }

  lemma FailedState(st: State, id: string, actor: Actor, now: nat, reason: string)
    requires SessionsOk(st) && ApplyEvent(st, id, actor, now, SpawnFailed, reason).error.None?
    ensures var after := ApplyEvent(st, id, actor, now, SpawnFailed, reason).state;
      id in st.sessions && id in after.sessions && after.sessions[id].state == SessionState.Failed
      && (after.sessions[id].retryable <==> now <= st.sessions[id].expiresAt)
  {
    assert SessionOk(st, id);
    StoredTrail(st, id);
    EventKeepsRecords(st, id, actor, now, SpawnFailed, reason);
    MoveEffect(st, id, actor, now, SpawnFailed, reason);
    hide ApplyEvent, SessionsOk, LastEntries;
  }

  // ---------------------------------------------------------------- the next lease

  lemma TakenByAll(st: State, now: nat, limit: nat, name: string)
    requires name in st.jobs && IsDue(st.jobs[name], now) && |DueKeys(st, now)| <= limit
    ensures name in Chosen(st, now, limit)
  {
    var keys := DueKeys(st, now);
    ListedFacts(keys);
    var key := Key(st.jobs[name].nextRun.value, name);
    assert key in keys;
    assert key in Listed(keys);
    var i :| 0 <= i < |Listed(keys)| && Listed(keys)[i] == key;
    assert Chosen(st, now, limit)[i] == name;
  }

  /// A lease that reaches the due jobs leaves the spawn job under a lease: the one it had, or a new
  /// one for a minute.
  lemma DueIsLeased(st: State, id: string, now: nat, limit: nat)
    requires SpawnDue(st.jobs, id, now) && |DueKeys(st, now)| <= limit
    ensures var name, after := "spawn-execution:" + id, LeaseDue(st, now, limit);
      name in after.jobs && after.jobs[name].leasedUntil.Some?
      && (if st.jobs[name].leasedUntil.Some? && st.jobs[name].leasedUntil.value > now
          then after.jobs[name] == st.jobs[name]
          else after.jobs[name].status == Running && after.jobs[name].leasedUntil.value == now + 60000
               && after.jobs[name].lastStarted == Some(now))
  {
    hide Chosen, DueKeys, ActiveJobs;
    var name := "spawn-execution:" + id;
    if HasLiveLease(st.jobs[name], now) {
      LeasesTheLeast(st, now, limit);
    } else {
      TakenByAll(st, now, limit, name);
    }
  }

  // ---------------------------------------------------------------- names

  lemma DueIsPlanned(jobs: map<string, Job>, s: string, now: nat)
    requires LeasesHaveTimes(jobs) && SpawnDue(jobs, s, now)
    ensures SpawnPlanned(jobs, s)
  {
  }

  lemma PollJobIsOther(s: string)
    ensures PollJobId() != "spawn-execution:" + s && SpawnJobId(s) == "spawn-execution:" + s
  {
    JobIdsDiffer(s, s);
  }

  lemma OtherSpawnJob(s: string, o: string)
    requires s != o
    ensures "spawn-execution:" + s != "spawn-execution:" + o
  {
    JobIdsDiffer(s, o);
  }
}
