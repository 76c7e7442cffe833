/// The settings of a factory, the time to live of its sessions and the depth it confirms to, are
/// the same after every step.
module Settings {
  import opened Deposits
  import opened Escrow
  import opened Factory
  import opened FactoryRuns
  import opened Options
  import opened Scheduler

  predicate SameSettings(st: State, after: State) {
    after.ttl == st.ttl && after.depth == st.depth
  }

  lemma RecordedSettings(st: State, id: string, entry: AuditEntry)
    ensures SameSettings(st, Recorded(st, id, entry))
  {
  }

  lemma FlagsSettings(st: State, id: string, now: nat)
    requires id in st.sessions
    ensures SameSettings(st, SyncFlags(st, id, now))
  {
  }

  lemma MoveSettings(st: State, id: string, actor: Actor, now: nat, move: Edge, reason: string)
    requires id in st.sessions && move.Move?
    ensures SameSettings(st, ApplyMove(st, id, actor, now, move, reason))
  {
    hide LastEntries, WithFlags;
  }

  lemma EventSettings(st: State, id: string, actor: Actor, now: nat, event: Event, reason: string)
    ensures SameSettings(st, ApplyEvent(st, id, actor, now, event, reason).state)
  {
    hide EdgeOf, ApplyMove;
    if id in st.sessions {
      var edge := EdgeOf(st.sessions[id], id in st.audit && st.audit[id] != [], now, event);
      if edge.Ok? && edge.value.Move? {
        MoveSettings(st, id, actor, now, edge.value, reason);
      }
    }
  }

  lemma EnqueueSettings(st: State, id: string, now: nat)
    ensures SameSettings(st, EnqueueSpawn(st, id, now))
  {
  }

  lemma AfterMergeSettings(st: State, id: string, was: Session, status: PaymentStatus, now: nat)
    ensures SameSettings(st, AfterMerge(st, id, was, status, now))
  {
    hide ApplyEvent, EnqueueSpawn;
    var detected := ApplyEvent(st, id, System, now, PaymentObserved, "payment detected from Base logs").state;
    var enqueued := EnqueueSpawn(detected, id, now);
    EventSettings(st, id, System, now, PaymentObserved, "payment detected from Base logs");
    EnqueueSettings(detected, id, now);
    EventSettings(st, id, System, now, SessionExpired, "payment scan observed expired session");
    EventSettings(enqueued, id, System, now, SessionExpired, "payment scan observed expired session");
  }

  lemma ReconcileOneSettings(st: State, id: string, g: Groups, first: nat, last: nat, now: nat, canonical: Option<Canonical>)
    ensures SameSettings(st, ReconcileOne(st, id, g, first, last, now, canonical).state)
  {
    hide AfterMerge, Verdict, WithFlags;
    if id in st.sessions && id in st.claims {
      forall m, status ensures
        SameSettings(st, AfterMerge(WithMerge(st, id, m, status, first, last, now), id, st.sessions[id], status, now))
      {
        AfterMergeSettings(WithMerge(st, id, m, status, first, last, now), id, st.sessions[id], status, now);
      }
    }
  }

  lemma {:induction false} ReconcileAllSettings(st: State, ids: seq<string>, g: Groups, first: nat, last: nat, now: nat,
                                                canonical: Option<Canonical>)
    ensures SameSettings(st, ReconcileAll(st, ids, g, first, last, now, canonical).state)
    decreases |ids|
  {
    hide ReconcileOne;
    if ids != [] {
      ReconcileOneSettings(st, ids[0], g, first, last, now, canonical);
      ReconcileAllSettings(ReconcileOne(st, ids[0], g, first, last, now, canonical).state, ids[1..], g, first, last, now, canonical);
    }
  }

  lemma PollSettings(st: State, latest: nat, logs: seq<Log>, now: nat, canonical: Option<Canonical>)
    ensures SameSettings(st, Poll(st, latest, logs, now, canonical).state)
  {
    hide ReconcileAll, Plan, ActiveIds, Groupable, Grouped;
    if Plan(st, latest).Some? {
      var p := Plan(st, latest).value;
      ReconcileAllSettings(st.(scanned := Some(p.last)), ActiveIds(st), Grouped(logs), p.first, p.last, now, canonical);
    }
  }

  lemma CreateSettings(st: State, id: string, claimId: string, gross: nat, minimum: nat, paused: bool, now: nat)
    ensures SameSettings(st, Create(st, id, claimId, gross, minimum, paused, now).state)
  {
    hide ApplyEvent;
    var s := NewSession(st, claimId, gross, now);
    EventSettings(st.(sessions := st.sessions[id := s], start := st.start[id := s.cursor], covered := st.covered[id := {}]),
                  id, User, now, SessionCreated, "session created");
  }

  lemma RefundSettings(st: State, id: string, now: nat)
    ensures SameSettings(st, FinalizeRefund(st, id, now).state)
  {
    hide ValidateRefund, Recorded, SyncFlags, HandedOver;
    if ValidateRefund(st, id, now) == Allowed && FinalizeRefund(st, id, now).error.None? {
      ValidIsStored(st, id, now);
      var s, c := st.sessions[id], st.claims[id];
      var runtimes := if s.automaton.Some?
        then st.runtimes[s.automaton.value := HandedOver(st.runtimes[s.automaton.value], now)] else st.runtimes;
      var paidBack := st.(runtimes := runtimes,
        sessions := st.sessions[id := s.(payment := Refunded, updatedAt := now)],
        claims := st.claims[id := c.(payment := Refunded, refundedAt := Some(now), updatedAt := now)]);
      FlagsSettings(paidBack, id, now);
      RecordedSettings(SyncFlags(paidBack, id, now), id,
                       AuditEntry(now, Some(s.state), s.state, User, "refund transaction confirmed on-chain"));
    }
  }

  lemma ValidIsStored(st: State, id: string, now: nat)
    requires ValidateRefund(st, id, now) == Allowed
    ensures id in st.sessions && id in st.claims
  {
  }

  lemma LeaseSettings(st: State, now: nat, limit: nat)
    ensures SameSettings(st, LeaseDue(st, now, limit))
  {
    hide ActiveJobs, Chosen;
  }

  lemma FinishSettings(st: State, jobId: string, action: FailureAction, now: nat)
    ensures SameSettings(st, FinishSuccess(st, jobId, now)) && SameSettings(st, FinishFailure(st, jobId, action, now))
  {
    hide ActiveJobs, Active, AfterSuccess, AfterFailure;
  }

  lemma AttachSettings(st: State, id: string, canister: string)
    ensures SameSettings(st, Attach(st, id, canister))
  {
  }

  /// No step changes a setting.
  lemma SettingsStay(st: State, step: Step)
    ensures SameSettings(st, After(st, step))
  {
    hide Create, Poll, ApplyEvent, EnqueueSpawn, FinalizeRefund, Fail, RetrySpawn, Attach, LeaseDue, FinishSuccess, FinishFailure, SameSettings;
    match step
    case CreateSession(id, claimId, gross, minimum, paused, now) => CreateSettings(st, id, claimId, gross, minimum, paused, now);
    case PollPayments(latest, logs, now, canonical) => PollSettings(st, latest, logs, now, canonical);
    case Signal(id, actor, now, event, reason) => EventSettings(st, id, actor, now, event, reason);
    case MarkFailed(id, actor, now, reason) => FailSettings(st, id, actor, now, reason);
    case RetrySession(id, actor, now, reason) => RetrySettings(st, id, actor, now, reason);
    case RefundSession(id, now) => RefundSettings(st, id, now);
    case AttachAutomaton(id, canister) => AttachSettings(st, id, canister);
    case LeaseJobs(now, limit) => LeaseSettings(st, now, limit);
    case JobSucceeded(jobId, now) => FinishSettings(st, jobId, Retry, now);
    case PollFailed(failure, now) => FinishSettings(st, PollJobId(), ClassifyPollFailure(failure), now);
    case SpawnJobFailed(id, failure, now) => FinishSettings(st, SpawnJobId(id), ClassifySpawnFailure(failure), now);
  }

  lemma FailSettings(st: State, id: string, actor: Actor, now: nat, reason: string)
    ensures SameSettings(st, Fail(st, id, actor, now, reason).state)
  {
    hide ApplyEvent, EnqueueSpawn;
    EventSettings(st, id, actor, now, SpawnFailed, reason);
    EnqueueSettings(ApplyEvent(st, id, actor, now, SpawnFailed, reason).state, id, now);
  }

  lemma RetrySettings(st: State, id: string, actor: Actor, now: nat, reason: string)
    ensures SameSettings(st, RetrySpawn(st, id, actor, now, reason).state)
  {
    hide ApplyEvent, EnqueueSpawn;
    EventSettings(st, id, actor, now, RetryRequested, reason);
    EnqueueSettings(ApplyEvent(st, id, actor, now, RetryRequested, reason).state, id, now);
  }
}
