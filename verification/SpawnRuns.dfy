/// No paid session is forgotten: over any run its spawn job stays on the schedule until the job itself
/// succeeds or gives up (backend/factory/src/scheduler.rs).
module SpawnRuns {
  import opened Deposits
  import opened Escrow
  import opened Factory
  import opened FactoryRuns
  import opened Invariants
  import opened Options
  import opened Polling
  import opened Scheduler
  import opened Settlement
  import opened SpawnJobs

  /// The steps that take a session's spawn job off the schedule: its success, and a failure that is
  /// neither a failed call nor a want of cycles.
  predicate GivesUp(step: Step, s: string) {
    (step.JobSucceeded? && step.jobId == "spawn-execution:" + s)
    || (step.SpawnJobFailed? && step.id == s
        && step.cause != SpawnRpcFailed && step.cause != SpawnCallFailed && step.cause != CyclesMissing)
  }

  /// A session that can be spawned has its job on the schedule.
  predicate Remembered(st: State, s: string) {
    s in st.sessions && st.sessions[s].state == PaymentDetected ==> SpawnPlanned(st.jobs, s)
  }

  lemma SameJobRemembered(st: State, after: State, s: string)
    requires Remembered(st, s) && SameEntry(st.jobs, after.jobs, "spawn-execution:" + s)
    requires s in after.sessions && after.sessions[s].state == PaymentDetected ==>
      s in st.sessions && st.sessions[s].state == PaymentDetected
    ensures Remembered(after, s)
  {
  }

  /// The program retries a session only together with its job.
  predicate BareRetry(step: Step, s: string) {
    step.Signal? && step.id == s && step.event == RetryRequested
  }

  // ---------------------------------------------------------------- sessions that become ready

  /// No step that is neither a poll nor a retry makes a session ready.
  predicate NoneReadied(st: State, after: State, s: string) {
    s in after.sessions && after.sessions[s].state == PaymentDetected ==> s in st.sessions && st.sessions[s].state == PaymentDetected
  }

  lemma EventReadies(st: State, id: string, actor: Actor, now: nat, event: Event, reason: string, s: string)
    requires SessionsOk(st) && (event == RetryRequested ==> id != s)
    ensures NoneReadied(st, ApplyEvent(st, id, actor, now, event, reason).state, s)
  {
    hide ApplyEvent, SessionsOk, RecordsOk, SessionOk, AmountsOk, OnlyTouches, MovedTo, MoveOf;
    if id !in st.sessions {
      UnknownIsLeft(st, id, actor, now, event, reason);
    } else {
      StoredParts(st, id);
      StoredTrail(st, id);
      EventKeepsRecords(st, id, actor, now, event, reason);
      MoveEffect(st, id, actor, now, event, reason);
      if s != id {
        SessionUntouched(st, ApplyEvent(st, id, actor, now, event, reason).state, id, s);
      } else {
        MoveShape(st.sessions[id], now, event);
        MovedState(st, id, actor, now, event, reason);
      }
    }
  }

  lemma MovedState(st: State, id: string, actor: Actor, now: nat, event: Event, reason: string)
    requires Known(st, id) && MoneyOk(st.sessions[id])
    ensures var move := MoveOf(st.sessions[id], now, event);
      move.Some? && move.value.Move? ==>
        id in MovedTo(st, id, actor, now, move.value, reason).sessions
        && (MovedTo(st, id, actor, now, move.value, reason).sessions[id].state == PaymentDetected ==> event == RetryRequested)
  {
    hide LastEntries;
  }

  lemma UnknownIsLeft(st: State, id: string, actor: Actor, now: nat, event: Event, reason: string)
    requires id !in st.sessions
    ensures ApplyEvent(st, id, actor, now, event, reason).state == st && FinalizeRefund(st, id, now).state == st
  {
  }

  lemma EventRemembers(st: State, id: string, actor: Actor, now: nat, event: Event, reason: string, s: string)
    requires SessionsOk(st) && (event == RetryRequested ==> id != s) && Remembered(st, s)
    ensures Remembered(ApplyEvent(st, id, actor, now, event, reason).state, s)
  {
    hide ApplyEvent, SessionsOk;
    EventReadies(st, id, actor, now, event, reason, s);
    EventKeepsJobs(st, id, actor, now, event, reason);
    SameJobRemembered(st, ApplyEvent(st, id, actor, now, event, reason).state, s);
  }

  lemma EnqueueRemembers(st: State, id: string, now: nat, s: string)
    requires LeasesHaveTimes(st.jobs) && (Remembered(st, s) || id == s)
    ensures Remembered(EnqueueSpawn(st, id, now), s)
  {
    hide EnqueueSpawn, SpawnDue, SpawnPlanned;
    EnqueueSame(st, id, now);
    EnqueueMakesDue(st, id, now);
    if id == s {
      EnqueueHasTimes(st, id, now);
      DueIsPlanned(EnqueueSpawn(st, id, now).jobs, s, now);
    } else {
      OtherSpawnJob(id, s);
      SamePlanned(st.jobs, EnqueueSpawn(st, id, now).jobs, s);
    }
  }

  lemma SamePlanned(a: map<string, Job>, b: map<string, Job>, s: string)
    requires SameEntry(a, b, "spawn-execution:" + s)
    ensures SpawnPlanned(a, s) <==> SpawnPlanned(b, s)
  {
  }

  lemma EnqueueHasTimes(st: State, id: string, now: nat)
    requires LeasesHaveTimes(st.jobs)
    ensures LeasesHaveTimes(EnqueueSpawn(st, id, now).jobs)
  {
    JobIdsDiffer(id, id);
  }

  // ---------------------------------------------------------------- polls

  lemma OneRemembers(st: State, id: string, g: Groups, first: nat, last: nat, now: nat, canonical: Option<Canonical>, s: string)
    requires SessionsOk(st) && LeasesHaveTimes(st.jobs) && id in Active(st) && Remembered(st, s)
    ensures var after := ReconcileOne(st, id, g, first, last, now, canonical).state;
      Remembered(after, s) && LeasesHaveTimes(after.jobs)
  {
    hide SessionsOk, ReconcileOne, EnqueueSpawn, OnlyTouches, Settled, SpawnPlanned, LeasesHaveTimes;
    var one := ReconcileOne(st, id, g, first, last, now, canonical);
    ReconcileOneKeeps(st, id, g, first, last, now, canonical);
    EnqueueHasTimes(st, id, now);
    if one.error.None? {
      OneSettles(st, id, g, first, last, now, canonical);
      EnqueueMakesDue(st, id, now);
      if s != id {
        SessionUntouched(st, one.state, id, s);
        OtherSpawnJob(id, s);
        SamePlanned(st.jobs, one.state.jobs, s);
      } else if one.state.jobs == EnqueueSpawn(st, id, now).jobs {
        DueIsPlanned(one.state.jobs, s, now);
      }
    }
  }

  lemma SessionUntouched(st: State, after: State, id: string, s: string)
    requires OnlyTouches(st, after, id) && s != id
    ensures SameEntry(st.sessions, after.sessions, s)
  {
    assert Untouched(st, after, s);
  }

  lemma {:induction false} AllRemember(st: State, ids: seq<string>, g: Groups, first: nat, last: nat, now: nat,
                                       canonical: Option<Canonical>, s: string)
    requires SessionsOk(st) && LeasesHaveTimes(st.jobs) && ToReconcile(st, ids) && Remembered(st, s)
    ensures Remembered(ReconcileAll(st, ids, g, first, last, now, canonical).state, s)
    decreases |ids|
  {
    hide SessionsOk, ReconcileOne, OnlyTouches, SyncPollJob, ToReconcile, LeasesHaveTimes, SpawnPlanned;
    if ids == [] {
      SyncSame(st, now);
      SyncLeavesSpawns(st, s, now);
      SamePlanned(st.jobs, SyncPollJob(st, now).jobs, s);
    } else {
      PendingFirst(st, ids);
      var one := ReconcileOne(st, ids[0], g, first, last, now, canonical);
      ReconcileOneKeeps(st, ids[0], g, first, last, now, canonical);
      OneRemembers(st, ids[0], g, first, last, now, canonical, s);
      if one.error.None? {
        PendingAfterOne(st, one.state, ids);
        AllRemember(one.state, ids[1..], g, first, last, now, canonical, s);
      }
    }
  }

  lemma PollRemembers(st: State, latest: nat, logs: seq<Log>, now: nat, canonical: Option<Canonical>, s: string)
    requires Safe(st) && Remembered(st, s)
    ensures Remembered(Poll(st, latest, logs, now, canonical).state, s)
  {
    hide SessionsOk, ActiveIds, Active, ReconcileAll, Groupable, ToReconcile, Plan, SpawnPlanned, LeasesHaveTimes;
    if Plan(st, latest).Some? {
      var p := Plan(st, latest).value;
      var moved := st.(scanned := Some(p.last));
      MovingTheScan(st, p.last);
      KeptPollsHaveTimes(st);
      if Groupable(logs) {
        AllRemember(moved, ActiveIds(st), Grouped(logs), p.first, p.last, now, canonical, s);
      }
    }
  }

  // ---------------------------------------------------------------- the other steps

  lemma CreateRemembers(st: State, id: string, claimId: string, gross: nat, minimum: nat, paused: bool, now: nat, s: string)
    requires Safe(st) && id !in st.sessions && Remembered(st, s)
    ensures Remembered(Create(st, id, claimId, gross, minimum, paused, now).state, s)
  {
    hide Safe, Claimed, SyncPollJob, SpawnPlanned, OnlyTouches;
    if !paused && gross >= minimum {
      SafeSessions(st);
      CreateIsClaimed(st, id, claimId, gross, minimum, now);
      ClaimedFacts(st, id, claimId, gross, now);
      var claimed := Claimed(st, id, claimId, gross, now);
      ClaimedState(st, id, claimId, gross, now);
      SyncSame(claimed, now);
      SyncLeavesSpawns(claimed, s, now);
      SamePlanned(st.jobs, SyncPollJob(claimed, now).jobs, s);
      if s != id {
        SessionUntouched(st, claimed, id, s);
      }
    }
  }

  lemma ClaimedState(st: State, id: string, claimId: string, gross: nat, now: nat)
    requires SessionsOk(st) && id !in st.sessions
    ensures var claimed := Claimed(st, id, claimId, gross, now);
      id in claimed.sessions && claimed.sessions[id].state == AwaitingPayment
  {
    var s := NewSession(st, claimId, gross, now);
    var base := st.(sessions := st.sessions[id := s], start := st.start[id := s.cursor], covered := st.covered[id := {}]);
    NoTrailYet(st, id);
    CreationMove(base, id, s, now);
    hide ApplyEvent, SessionsOk;
  }

  lemma SafeSessions(st: State)
    requires Safe(st)
    ensures SessionsOk(st) && LeasesHaveTimes(st.jobs)
  {
  }

  lemma RefundRemembers(st: State, id: string, now: nat, s: string)
    requires Safe(st) && Remembered(st, s)
    ensures Remembered(FinalizeRefund(st, id, now).state, s)
  {
    hide FinalizeRefund, SessionsOk, PollsAreKept, LastEntries, SpawnPlanned, RecordsOk, AmountsOk, ValidateRefund;
    if id !in st.sessions {
      UnknownIsLeft(st, id, User, now, SessionExpired, "");
    } else {
      StoredParts(st, id);
      StoredTrail(st, id);
      RefundEffect(st, id, now);
    }
  }

  lemma LeaseRemembers(st: State, now: nat, limit: nat, s: string)
    requires Remembered(st, s)
    ensures Remembered(LeaseDue(st, now, limit), s)
  {
    hide Chosen, ActiveJobs;
  }

  lemma FinishRemembers(st: State, step: Step, s: string)
    requires Remembered(st, s) && !GivesUp(step, s) && (step.JobSucceeded? || step.PollFailed? || step.SpawnJobFailed?)
    ensures Remembered(After(st, step), s)
  {
    hide ActiveJobs, Active, Create, Poll, ApplyEvent, FinalizeRefund, Attach, LeaseDue, BackoffDelay;
    PollJobIsOther(s);
    if step.SpawnJobFailed? {
      JobIdsDiffer(step.id, s);
    }
  }

  /// One step: a session that can be spawned keeps its job on the schedule, and one that becomes ready
  /// to be spawned gets it there.
  lemma StepRemembers(st: State, step: Step, s: string)
    requires Safe(st) && Enabled(st, step) && Remembered(st, s) && !GivesUp(step, s) && !BareRetry(step, s)
    ensures Remembered(After(st, step), s)
  {
    hide Safe, Create, Poll, ApplyEvent, FinalizeRefund, Attach, LeaseDue, FinishSuccess, FinishFailure, EnqueueSpawn, Remembered,
      GivesUp;
    SafeSessions(st);
    match step
    case CreateSession(id, claimId, gross, minimum, paused, now) => CreateRemembers(st, id, claimId, gross, minimum, paused, now, s);
    case PollPayments(latest, logs, now, canonical) => PollRemembers(st, latest, logs, now, canonical, s);
    case Signal(id, actor, now, event, reason) => EventRemembers(st, id, actor, now, event, reason, s);
    case MarkFailed(id, actor, now, reason) => FailRemembers(st, id, actor, now, reason, s);
    case RetrySession(id, actor, now, reason) => RetryRemembers(st, id, actor, now, reason, s);
    case RefundSession(id, now) => RefundRemembers(st, id, now, s);
    case AttachAutomaton(id, canister) => AttachRemembers(st, id, canister, s);
    case LeaseJobs(now, limit) => LeaseRemembers(st, now, limit, s);
    case _ => FinishRemembers(st, step, s);
  }

  lemma AttachRemembers(st: State, id: string, canister: string, s: string)
    requires Remembered(st, s)
    ensures Remembered(Attach(st, id, canister), s)
  {
    hide SpawnPlanned;
  }

  lemma FailRemembers(st: State, id: string, actor: Actor, now: nat, reason: string, s: string)
    requires Safe(st) && Remembered(st, s)
    ensures Remembered(Fail(st, id, actor, now, reason).state, s)
  {
    hide Safe, ApplyEvent, EnqueueSpawn, Remembered;
    SafeSessions(st);
    var failed := ApplyEvent(st, id, actor, now, SpawnFailed, reason).state;
    EventRemembers(st, id, actor, now, SpawnFailed, reason, s);
    EventKeepsSafe(st, id, actor, now, SpawnFailed, reason);
    SafeSessions(failed);
    EnqueueRemembers(failed, id, now, s);
  }

  lemma RetryRemembers(st: State, id: string, actor: Actor, now: nat, reason: string, s: string)
    requires Safe(st) && Remembered(st, s)
    ensures Remembered(RetrySpawn(st, id, actor, now, reason).state, s)
  {
    hide Safe, ApplyEvent, EnqueueSpawn, Remembered;
    SafeSessions(st);
    var retried := ApplyEvent(st, id, actor, now, RetryRequested, reason);
    EventKeepsSafe(st, id, actor, now, RetryRequested, reason);
    SafeSessions(retried.state);
    if retried.error.Some? {
      RefusedChangesNothing(st, id, actor, now, RetryRequested, reason);
    } else if id != s {
      EventRemembers(st, id, actor, now, RetryRequested, reason, s);
    }
    if retried.error.None? {
      EnqueueRemembers(retried.state, id, now, s);
    }
  }

  lemma RefusedChangesNothing(st: State, id: string, actor: Actor, now: nat, event: Event, reason: string)
    ensures ApplyEvent(st, id, actor, now, event, reason).error.Some? ==> ApplyEvent(st, id, actor, now, event, reason).state == st
  {
    hide EdgeOf, ApplyMove;
  }

  // ---------------------------------------------------------------- every run

  /// Main result. Over any run in which the job of `s` neither succeeds nor gives up, a session that
  /// can be spawned has its job on the schedule, in every state.
  lemma {:induction false} SpawnsAreKept(st: State, steps: seq<Step>, s: string)
    requires Safe(st) && CanRun(st, steps) && Remembered(st, s)
    requires forall i :: 0 <= i < |steps| ==> !GivesUp(steps[i], s) && !BareRetry(steps[i], s)
    ensures Remembered(Run(st, steps), s)
    decreases |steps|
  {
    hide Safe, Remembered, GivesUp, BareRetry, After, Enabled;
    if steps != [] {
      StepKeepsSafe(st, steps[0]);
      StepRemembers(st, steps[0], s);
      SpawnsAreKept(After(st, steps[0]), steps[1..], s);
    }
  }

  lemma NothingToRemember(ttl: nat, depth: nat, s: string)
    ensures Remembered(Initial(ttl, depth), s)
  {
  }
}
