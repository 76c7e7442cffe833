/// Runs of the factory: every invariant in every reachable state, and what no run can do.
module FactoryRuns {
  import opened Deposits
  import opened Escrow
  import opened Evidence
  import opened Factory
  import opened Invariants
  import opened Ledger
  import opened Limits
  import opened Options
  import opened Polling
  import opened Scheduler

  /// One atomic step. Signals include every event in any state: the refused ones change nothing.
  datatype Step =
    | CreateSession(id: string, claimId: string, gross: nat, minimum: nat, paused: bool, now: nat)
    | PollPayments(latest: nat, logs: seq<Log>, now: nat, canonical: Option<Canonical>)
    | Signal(id: string, actor: Actor, now: nat, event: Event, reason: string)
    | MarkFailed(id: string, actor: Actor, now: nat, reason: string)
    | RetrySession(id: string, actor: Actor, now: nat, reason: string)
    | RefundSession(id: string, now: nat)
    | AttachAutomaton(id: string, canister: string)
    | LeaseJobs(now: nat, limit: nat)
    | JobSucceeded(jobId: string, now: nat)
    | PollFailed(failure: PollFailure, now: nat)
    | SpawnJobFailed(id: string, cause: SpawnFailure, now: nat)

  /// `mark_session_failed_in_state`
  function Fail(st: State, id: string, actor: Actor, now: nat, reason: string): Outcome {
    var failed := ApplyEvent(st, id, actor, now, SpawnFailed, reason);
    if failed.error.Some? || id !in failed.state.sessions || !failed.state.sessions[id].retryable then failed
    else Outcome(EnqueueSpawn(failed.state, id, now), None)
  }

  /// `retry_spawn_session_in_state`
  function RetrySpawn(st: State, id: string, actor: Actor, now: nat, reason: string): Outcome {
    var retried := ApplyEvent(st, id, actor, now, RetryRequested, reason);
    if retried.error.Some? then retried else Outcome(EnqueueSpawn(retried.state, id, now), None)
  }

  /// A new canister and its runtime record.
  function Attach(st: State, id: string, canister: string): State {
    if id !in st.sessions then st
    else st.(sessions := st.sessions[id := st.sessions[id].(automaton := Some(canister))],
             runtimes := st.runtimes[canister := Runtime(None, false)])
  }

  ghost function After(st: State, step: Step): State {
    match step
    case CreateSession(id, claimId, gross, minimum, paused, now) => Create(st, id, claimId, gross, minimum, paused, now).state
    case PollPayments(latest, logs, now, canonical) => Poll(st, latest, logs, now, canonical).state
    case Signal(id, actor, now, event, reason) => ApplyEvent(st, id, actor, now, event, reason).state
    case MarkFailed(id, actor, now, reason) => Fail(st, id, actor, now, reason).state
    case RetrySession(id, actor, now, reason) => RetrySpawn(st, id, actor, now, reason).state
    case RefundSession(id, now) => FinalizeRefund(st, id, now).state
    case AttachAutomaton(id, canister) => Attach(st, id, canister)
    case LeaseJobs(now, limit) => LeaseDue(st, now, limit)
    case JobSucceeded(jobId, now) => FinishSuccess(st, jobId, now)
    case PollFailed(failure, now) => FinishFailure(st, PollJobId(), ClassifyPollFailure(failure), now)
    case SpawnJobFailed(id, failure, now) => FinishFailure(st, SpawnJobId(id), ClassifySpawnFailure(failure), now)
  }

  /// A session is created under a new name.
  predicate Enabled(st: State, step: Step) {
    step.CreateSession? ==> step.id !in st.sessions
  }

  ghost predicate Safe(st: State) {
    SessionsOk(st) && PollsAreKept(st)
  }

  function Initial(ttl: nat, depth: nat): State {
    State(map[], map[], map[], map[], map[], [], None, ttl, depth, map[], map[], map[])
  }

  lemma InitialIsSafe(ttl: nat, depth: nat)
    ensures Safe(Initial(ttl, depth))
  {
  }

  // ---------------------------------------------------------------- each step

  lemma EventShrinksActive(st: State, id: string, actor: Actor, now: nat, event: Event, reason: string)
    requires SessionsOk(st)
    ensures Active(ApplyEvent(st, id, actor, now, event, reason).state) <= Active(st)
  {
    if id in st.sessions {
      assert SessionOk(st, id);
      StoredTrail(st, id);
      MoveEffect(st, id, actor, now, event, reason);
    }
  }

  lemma EventKeepsSafe(st: State, id: string, actor: Actor, now: nat, event: Event, reason: string)
    requires Safe(st)
    ensures Safe(ApplyEvent(st, id, actor, now, event, reason).state)
    ensures id in st.sessions ==> id in ApplyEvent(st, id, actor, now, event, reason).state.sessions
  {
    var after := ApplyEvent(st, id, actor, now, event, reason).state;
    EventKeepsSessions(st, id, actor, now, event, reason);
    EventShrinksActive(st, id, actor, now, event, reason);
    EventKeepsJobs(st, id, actor, now, event, reason);
    hide ApplyEvent, SessionsOk, LeasesHaveTimes, PollJobReady;
  }

  lemma EventKeepsJobs(st: State, id: string, actor: Actor, now: nat, event: Event, reason: string)
    ensures var after := ApplyEvent(st, id, actor, now, event, reason).state;
      after.jobs == st.jobs && after.sessions.Keys == st.sessions.Keys
  {
    hide EdgeOf, ApplyMove;
    if id in st.sessions {
      var edge := EdgeOf(st.sessions[id], id in st.audit && st.audit[id] != [], now, event);
      if edge.Ok? && edge.value.Move? {
        ApplyMoveKeepsJobs(st, id, actor, now, edge.value, reason);
      }
    }
  }

  lemma ApplyMoveKeepsJobs(st: State, id: string, actor: Actor, now: nat, move: Edge, reason: string)
    requires id in st.sessions && move.Move?
    ensures var after := ApplyMove(st, id, actor, now, move, reason);
      after.jobs == st.jobs && after.sessions.Keys == st.sessions.Keys
  {
    hide LastEntries, WithFlags;
  }

  lemma EnqueueKeepsSafe(st: State, id: string, now: nat)
    requires Safe(st)
    ensures Safe(EnqueueSpawn(st, id, now))
  {
    EnqueueSame(st, id, now);
    EnqueueKeepsPolls(st, id, now);
    SameBooksStayOk(st, EnqueueSpawn(st, id, now));
  }

  lemma FirstTrail(s: Session, entry: AuditEntry)
    requires entry.origin.None? && entry.target == s.state
    ensures TrailOk(s, LastEntries([] + [entry]), [] + [entry])
  {
  }

  /// A new session starts in order, unpaid, with an empty claim and a one-line trail.
  lemma CreateIsOk(st: State, id: string, claimId: string, gross: nat, minimum: nat, paused: bool, now: nat)
    requires Safe(st) && id !in st.sessions
    ensures Safe(Create(st, id, claimId, gross, minimum, paused, now).state)
  {
    if !paused && gross >= minimum {
      ClaimedFacts(st, id, claimId, gross, now);
      CreateIsClaimed(st, id, claimId, gross, minimum, now);
      var claimed := Claimed(st, id, claimId, gross, now);
      hide SessionsOk, SessionOk, OnlyTouches, LeasesHaveTimes, PollSynced, Create, Claimed;
      OneSessionStaysOk(st, claimed, id);
      SyncSame(claimed, now);
      SameBooksStayOk(claimed, SyncPollJob(claimed, now));
      SyncKeepsPolls(claimed, now);
    }
  }

  /// The new session with its claim, before the poll job is looked after.
  function Claimed(st: State, id: string, claimId: string, gross: nat, now: nat): State {
    var s := NewSession(st, claimId, gross, now);
    var base := st.(sessions := st.sessions[id := s], start := st.start[id := s.cursor], covered := st.covered[id := {}]);
    var created := ApplyEvent(base, id, User, now, SessionCreated, "session created").state;
    created.(claims := created.claims[id := NewClaim(s, now)])
  }

  lemma ClaimedFacts(st: State, id: string, claimId: string, gross: nat, now: nat)
    requires SessionsOk(st) && id !in st.sessions
    ensures var claimed := Claimed(st, id, claimId, gross, now);
      SessionOk(claimed, id) && OnlyTouches(st, claimed, id) && claimed.jobs == st.jobs
  {
    var s := NewSession(st, claimId, gross, now);
    var base := st.(sessions := st.sessions[id := s], start := st.start[id := s.cursor], covered := st.covered[id := {}]);
    NoTrailYet(st, id);
    CreationMove(base, id, s, now);
    var created := ApplyEvent(base, id, User, now, SessionCreated, "session created").state;
    hide ApplyEvent, SessionOk, OnlyTouches, SessionsOk, LastEntries, NewSession, NewClaim, SameEntry;
    OtherClaims(st.claims, created.claims, Claimed(st, id, claimId, gross, now).claims, id);
    ClaimedIsOk(st, id, s, Claimed(st, id, claimId, gross, now), now);
  }

  lemma OtherClaims(a: map<string, Claim>, b: map<string, Claim>, c: map<string, Claim>, id: string)
    requires id in c && c == b[id := c[id]] && forall o :: o != id ==> SameEntry(a, b, o)
    ensures forall o :: o != id ==> SameEntry(a, c, o)
  {
    forall o | o != id ensures SameEntry(a, c, o) {
      assert SameEntry(a, b, o);
    }
  }

  lemma CreateIsClaimed(st: State, id: string, claimId: string, gross: nat, minimum: nat, now: nat)
    requires SessionsOk(st) && id !in st.sessions && gross >= minimum
    ensures Create(st, id, claimId, gross, minimum, false, now)
      == Outcome(SyncPollJob(Claimed(st, id, claimId, gross, now), now), None)
  {
    var s := NewSession(st, claimId, gross, now);
    var base := st.(sessions := st.sessions[id := s], start := st.start[id := s.cursor], covered := st.covered[id := {}]);
    NoTrailYet(st, id);
    CreationMove(base, id, s, now);
    hide ApplyEvent, SyncPollJob;
  }

  lemma NoTrailYet(st: State, id: string)
    requires SessionsOk(st) && id !in st.sessions
    ensures id !in st.audit && id !in st.history
  {
  }

  lemma ClaimedIsOk(st: State, id: string, s: Session, claimed: State, now: nat)
    requires s.state == AwaitingPayment && s.payment == Unpaid && !s.retryable && !s.refundable
    requires claimed.sessions == st.sessions[id := s] && id in claimed.claims && claimed.claims[id] == NewClaim(s, now)
    requires var entry := AuditEntry(now, None, AwaitingPayment, User, "session created");
      claimed.audit == st.audit[id := LastEntries([] + [entry])] && claimed.history == st.history[id := [] + [entry]]
    requires claimed.start == st.start[id := s.cursor] && claimed.covered == st.covered[id := {}]
    requires forall o :: o != id ==> SameEntry(st.claims, claimed.claims, o)
    ensures SessionOk(claimed, id) && OnlyTouches(st, claimed, id)
  {
    FirstTrail(s, AuditEntry(now, None, AwaitingPayment, User, "session created"));
    hide TrailOk, LastEntries;
    forall o | o != id ensures Untouched(st, claimed, o) {
      assert SameEntry(st.claims, claimed.claims, o);
    }
  }

  lemma CreationMove(base: State, id: string, s: Session, now: nat)
    requires id in base.sessions && base.sessions[id] == s && id !in base.audit && id !in base.history
    requires s.state == AwaitingPayment && !s.retryable && !s.refundable && s.updatedAt == now
    ensures var created := ApplyEvent(base, id, User, now, SessionCreated, "session created");
      var entry := AuditEntry(now, None, AwaitingPayment, User, "session created");
      created.error.None? && created.state.jobs == base.jobs && created.state.sessions == base.sessions
      && created.state.audit == base.audit[id := LastEntries([] + [entry])]
      && created.state.history == base.history[id := [] + [entry]]
      && created.state.start == base.start && created.state.covered == base.covered
      && forall o :: o != id ==> SameEntry(base.claims, created.state.claims, o)
  {
  }

  // ---------------------------------------------------------------- refunds

  function RefundedState(st: State, id: string, now: nat, runtimes: map<string, Runtime>): State
    requires Known(st, id)
  {
    var s := st.sessions[id];
    Carried(st, id, WithFlags(s.(payment := Refunded, updatedAt := now), now),
            AuditEntry(now, Some(s.state), s.state, User, "refund transaction confirmed on-chain"), now)
    .(claims := st.claims[id := st.claims[id].(payment := Refunded, refundedAt := Some(now), refundable := false, updatedAt := now)],
      runtimes := runtimes)
  }

  lemma RefundEffect(st: State, id: string, now: nat)
    requires Known(st, id)
    ensures var after := FinalizeRefund(st, id, now).state;
      after == st || (ValidateRefund(st, id, now) == Allowed && after == RefundedState(st, id, now, after.runtimes))
  {
    var after := FinalizeRefund(st, id, now).state;
    if ValidateRefund(st, id, now) == Allowed && after != st {
      var s, c := st.sessions[id], st.claims[id];
      var t := s.(payment := Refunded, updatedAt := now);
      var d := c.(payment := Refunded, refundedAt := Some(now), updatedAt := now);
      Overwrite(st.sessions, id, t, WithFlags(t, now));
      Overwrite(st.claims, id, d, d.(refundable := false, updatedAt := now));
    }
  }

  lemma RefundedIsOk(st: State, id: string, now: nat, runtimes: map<string, Runtime>)
    requires SessionOk(st, id) && (st.sessions[id].state == Expired || st.sessions[id].state == Failed)
    ensures SessionOk(RefundedState(st, id, now, runtimes), id)
    ensures OnlyTouches(st, RefundedState(st, id, now, runtimes), id)
  {
    var s := st.sessions[id];
    var t := WithFlags(s.(payment := Refunded, updatedAt := now), now);
    var entry := AuditEntry(now, Some(s.state), s.state, User, "refund transaction confirmed on-chain");
    RecordedTrail(s, t, st.audit[id], st.history[id], entry);
    hide TrailOk, Ascending;
  }

  lemma RefundKeepsSafe(st: State, id: string, now: nat)
    requires Safe(st)
    ensures Safe(FinalizeRefund(st, id, now).state)
  {
    var after := FinalizeRefund(st, id, now).state;
    if id in st.sessions && after != st {
      assert SessionOk(st, id);
      RefundEffect(st, id, now);
      RefundedIsOk(st, id, now, after.runtimes);
      hide SessionOk, FinalizeRefund;
      OneSessionStaysOk(st, after, id);
      assert Active(after) <= Active(st);
    }
  }

  lemma AttachKeepsSafe(st: State, id: string, canister: string)
    requires Safe(st)
    ensures Safe(Attach(st, id, canister))
  {
    if id in st.sessions {
      assert SessionOk(st, id);
      AttachedIsOk(st, id, canister);
      hide SessionOk, LeasesHaveTimes, PollJobReady, OnlyTouches;
      OneSessionStaysOk(st, Attach(st, id, canister), id);
      assert Active(Attach(st, id, canister)) == Active(st);
    }
  }

  lemma AttachedIsOk(st: State, id: string, canister: string)
    requires SessionOk(st, id)
    ensures SessionOk(Attach(st, id, canister), id) && OnlyTouches(st, Attach(st, id, canister), id)
  {
    hide LastEntries, Ascending, Linked;
  }

  lemma EventStepKeepsSafe(st: State, step: Step)
    requires Safe(st) && (step.Signal? || step.MarkFailed? || step.RetrySession?)
    ensures Safe(After(st, step))
  {
    hide Safe, ApplyEvent, EnqueueSpawn;
    match step
    case Signal(id, actor, now, event, reason) => EventKeepsSafe(st, id, actor, now, event, reason);
    case MarkFailed(id, actor, now, reason) =>
      EventKeepsSafe(st, id, actor, now, SpawnFailed, reason);
      EnqueueKeepsSafe(ApplyEvent(st, id, actor, now, SpawnFailed, reason).state, id, now);
    case RetrySession(id, actor, now, reason) =>
      EventKeepsSafe(st, id, actor, now, RetryRequested, reason);
      EnqueueKeepsSafe(ApplyEvent(st, id, actor, now, RetryRequested, reason).state, id, now);
  }

  lemma JobStepKeepsSafe(st: State, step: Step)
    requires Safe(st) && (step.LeaseJobs? || step.JobSucceeded? || step.PollFailed? || step.SpawnJobFailed?)
    ensures Safe(After(st, step))
  {
    hide SessionsOk, PollsAreKept, Active, LeaseDue, FinishSuccess, FinishFailure, ClassifyPollFailure, ClassifySpawnFailure,
      SameBooks, Create, Poll, ApplyEvent, FinalizeRefund, Attach, EnqueueSpawn;
    JobStepsKeepBooks(st, step);
    SameBooksStayOk(st, After(st, step));
    match step
    case LeaseJobs(now, limit) => LeaseKeepsPolls(st, now, limit);
    case JobSucceeded(jobId, now) => SuccessKeepsPolls(st, jobId, now);
    case PollFailed(failure, now) => FailureKeepsPolls(st, PollJobId(), ClassifyPollFailure(failure), now);
    case SpawnJobFailed(id, failure, now) =>
      JobIdsDiffer(id, id);
      FailureKeepsPolls(st, SpawnJobId(id), ClassifySpawnFailure(failure), now);
  }

  /// Every step keeps every invariant.
  lemma StepKeepsSafe(st: State, step: Step)
    requires Safe(st) && Enabled(st, step)
    ensures Safe(After(st, step))
  {
    hide SessionsOk, PollsAreKept, Create, Poll, ApplyEvent, FinalizeRefund, Attach, Active, EnqueueSpawn, LeaseDue, FinishSuccess,
      FinishFailure;
    match step
    case CreateSession(id, claimId, gross, minimum, paused, now) => CreateIsOk(st, id, claimId, gross, minimum, paused, now);
    case PollPayments(latest, logs, now, canonical) => PollKeeps(st, latest, logs, now, canonical);
    case RefundSession(id, now) => RefundKeepsSafe(st, id, now);
    case AttachAutomaton(id, canister) => AttachKeepsSafe(st, id, canister);
    case Signal(_, _, _, _, _) => EventStepKeepsSafe(st, step);
    case MarkFailed(_, _, _, _) => EventStepKeepsSafe(st, step);
    case RetrySession(_, _, _, _) => EventStepKeepsSafe(st, step);
    case _ => JobStepKeepsSafe(st, step);
  }

  lemma JobStepsKeepBooks(st: State, step: Step)
    requires step.LeaseJobs? || step.JobSucceeded? || step.PollFailed? || step.SpawnJobFailed?
    ensures SameBooks(st, After(st, step))
  {
    hide PollJobId, SpawnJobId, ClassifyPollFailure, ClassifySpawnFailure, AfterSuccess, AfterFailure, ActiveJobs, Chosen,
      Create, Poll, ApplyEvent, FinalizeRefund, Attach, Fail, RetrySpawn, Active;
  }

  // ---------------------------------------------------------------- runs

  ghost predicate CanRun(st: State, steps: seq<Step>)
    decreases |steps|
  {
    steps == [] || (Enabled(st, steps[0]) && CanRun(After(st, steps[0]), steps[1..]))
  }

  ghost function Run(st: State, steps: seq<Step>): State
    decreases |steps|
  {
    if steps == [] then st else Run(After(st, steps[0]), steps[1..])
  }

  /// In every reachable state: nothing is spawned or released unpaid, a refund is of a failed or
  /// expired session, session and claim agree, evidence adds up, trails are linked, polls are kept.
  lemma {:induction false} EveryRunIsSafe(st: State, steps: seq<Step>)
    requires Safe(st) && CanRun(st, steps)
    ensures Safe(Run(st, steps))
    decreases |steps|
  {
    if steps != [] {
      StepKeepsSafe(st, steps[0]);
      EveryRunIsSafe(After(st, steps[0]), steps[1..]);
    }
  }

  lemma ReachableIsSafe(ttl: nat, depth: nat, steps: seq<Step>)
    requires CanRun(Initial(ttl, depth), steps)
    ensures Safe(Run(Initial(ttl, depth), steps))
  {
    InitialIsSafe(ttl, depth);
    EveryRunIsSafe(Initial(ttl, depth), steps);
  }

  // ---------------------------------------------------------------- what never goes back

  function Rank(p: PaymentStatus): nat {
    match p case Unpaid => 0 case Partial => 1 case Paid => 2 case Refunded => 3
  }

  /// Complete and Expired are final, a refund is final and freezes the session, and money only
  /// comes in.
  predicate Progress(s: Session, t: Session) {
    (s.state == Complete ==> t.state == Complete)
    && (s.state == Expired ==> t.state == Expired)
    && (s.payment == Refunded ==> t.state == s.state)
    && Rank(s.payment) <= Rank(t.payment)
    && t.claimId == s.claimId && t.gross == s.gross
  }

  ghost predicate Forward(st: State, after: State) {
    forall id :: id in st.sessions ==> id in after.sessions && Progress(st.sessions[id], after.sessions[id])
  }

  lemma ForwardTwice(a: State, b: State, c: State)
    requires Forward(a, b) && Forward(b, c)
    ensures Forward(a, c)
  {
    forall id | id in a.sessions ensures id in c.sessions && Progress(a.sessions[id], c.sessions[id]) {
      assert id in b.sessions;
    }
  }

  lemma OneForward(st: State, after: State, id: string)
    requires OnlyTouches(st, after, id)
    requires id in st.sessions ==> id in after.sessions && Progress(st.sessions[id], after.sessions[id])
    ensures Forward(st, after)
  {
    forall o | o in st.sessions ensures o in after.sessions && Progress(st.sessions[o], after.sessions[o]) {
      if o != id {
        assert Untouched(st, after, o);
      }
    }
  }

  lemma SameForward(st: State, after: State)
    requires st.sessions == after.sessions
    ensures Forward(st, after)
  {
  }

  lemma EventForward(st: State, id: string, actor: Actor, now: nat, event: Event, reason: string)
    requires SessionsOk(st)
    ensures Forward(st, ApplyEvent(st, id, actor, now, event, reason).state)
  {
    if id in st.sessions {
      assert SessionOk(st, id);
      StoredTrail(st, id);
      EventKeepsRecords(st, id, actor, now, event, reason);
      MoveEffect(st, id, actor, now, event, reason);
      EventProgress(st.sessions[id], now, event, st.ttl);
      hide ApplyEvent, OnlyTouches, Progress, MoveOf;
      OneForward(st, ApplyEvent(st, id, actor, now, event, reason).state, id);
    }
  }

  lemma EventProgress(s: Session, now: nat, event: Event, ttl: nat)
    requires MoneyOk(s)
    ensures Progress(s, s)
    ensures var move := MoveOf(s, now, event);
      move.Some? ==> Progress(s, Entered(s, move.value.target, move.value.resetExpiry, now, ttl))
  {
  }

  lemma MergedForward(st: State, id: string, blocks: Option<Blocks>, m: Merged, status: PaymentStatus, first: nat, last: nat, now: nat)
    requires SessionsOk(st) && id in Active(st) && id in st.claims
    requires Merge(st.claims[id].paid, st.claims[id].cursor, st.claims[id].evidence, blocks) == Some(m)
    requires status == StatusFor(m.total, st.sessions[id].gross) || (status == Partial && m.total >= st.sessions[id].gross)
    ensures var after := AfterMerge(WithMerge(st, id, m, status, first, last, now), id, st.sessions[id], status, now);
      id in after.sessions && Progress(st.sessions[id], after.sessions[id])
  {
    hide Merge, Ascending, AfterMerge, WithMerge, BooksOk, TrailOk, AmountsOk, OnlyTouches, SessionsOk;
    StoredParts(st, id);
    var next := WithMerge(st, id, m, status, first, last, now);
    MergeFacts(st.claims[id].paid, st.claims[id].cursor, st.claims[id].evidence, blocks);
    RankOfStatus(st.sessions[id], st.claims[id], m, status);
    NamesStay(st, id, m, status, first, last, now);
    MergeKeepsRecords(st, id, blocks, m, status, first, last, now);
    AfterMergeIsOk(next, id, st.sessions[id], status, now);
  }

  lemma StoredParts(st: State, id: string)
    requires SessionsOk(st) && id in st.sessions
    ensures SessionOk(st, id) && RecordsOk(st, id) && AmountsOk(st.sessions[id], st.claims[id]) && MoneyOk(st.sessions[id])
    ensures Ascending(st.claims[id].evidence) && st.claims[id].paid == Sum(st.claims[id].evidence) < U128_LIMIT
  {
    assert SessionOk(st, id);
  }

  lemma RankOfStatus(s: Session, c: Claim, m: Merged, status: PaymentStatus)
    requires AmountsOk(s, c) && NeedsPoll(s) && m.total >= c.paid
    requires status == StatusFor(m.total, s.gross) || (status == Partial && m.total >= s.gross)
    ensures Rank(s.payment) <= Rank(status)
  {
  }

  lemma NamesStay(st: State, id: string, m: Merged, status: PaymentStatus, first: nat, last: nat, now: nat)
    requires SessionsOk(st) && id in Active(st) && id in st.claims
    ensures var after := AfterMerge(WithMerge(st, id, m, status, first, last, now), id, st.sessions[id], status, now);
      id in after.sessions && after.sessions[id].claimId == st.sessions[id].claimId && after.sessions[id].gross == st.sessions[id].gross
  {
    var next := WithMerge(st, id, m, status, first, last, now);
    assert next.sessions[id].claimId == st.sessions[id].claimId && next.sessions[id].gross == st.sessions[id].gross;
    hide WithMerge;
    EventNames(next, id, System, now, PaymentObserved, "payment detected from Base logs");
    EventNames(next, id, System, now, SessionExpired, "payment scan observed expired session");
    var noticed := EnqueueSpawn(ApplyEvent(next, id, System, now, PaymentObserved, "payment detected from Base logs").state, id, now);
    EventNames(noticed, id, System, now, SessionExpired, "payment scan observed expired session");
    hide ApplyEvent;
  }

  lemma EventNames(st: State, id: string, actor: Actor, now: nat, event: Event, reason: string)
    requires id in st.sessions
    ensures var after := ApplyEvent(st, id, actor, now, event, reason).state;
      id in after.sessions && after.sessions[id].claimId == st.sessions[id].claimId && after.sessions[id].gross == st.sessions[id].gross
  {
    hide EdgeOf, LastEntries;
  }

  lemma ReconcileOneForward(st: State, id: string, g: Groups, first: nat, last: nat, now: nat, canonical: Option<Canonical>)
    requires SessionsOk(st) && id in Active(st)
    ensures Forward(st, ReconcileOne(st, id, g, first, last, now, canonical).state)
  {
    var one := ReconcileOne(st, id, g, first, last, now, canonical);
    ReconcileOneKeeps(st, id, g, first, last, now, canonical);
    var m, status := ReconcileOneCases(st, id, g, first, last, now, canonical);
    SelfProgress(st.sessions[id]);
    hide ReconcileOne, AfterMerge, WithMerge, Merge, OnlyTouches, Progress, SessionsOk;
    if one.error.None? {
      MergedForward(st, id, ScannedFor(g, st.sessions[id].claimId), m, status, first, last, now);
    }
    OneForward(st, one.state, id);
  }

  lemma SelfProgress(s: Session)
    ensures Progress(s, s)
  {
  }

  lemma {:induction false} ReconcileAllForward(st: State, ids: seq<string>, g: Groups, first: nat, last: nat, now: nat,
                                               canonical: Option<Canonical>)
    requires SessionsOk(st) && ToReconcile(st, ids)
    ensures Forward(st, ReconcileAll(st, ids, g, first, last, now, canonical).state)
    decreases |ids|
  {
    hide SessionsOk, ReconcileOne, OnlyTouches, SyncPollJob, Forward, ToReconcile;
    if ids == [] {
      SyncSame(st, now);
      SameForward(st, SyncPollJob(st, now));
    } else {
      PendingFirst(st, ids);
      var one := ReconcileOne(st, ids[0], g, first, last, now, canonical);
      ReconcileOneKeeps(st, ids[0], g, first, last, now, canonical);
      ReconcileOneForward(st, ids[0], g, first, last, now, canonical);
      if one.error.None? {
        PendingAfterOne(st, one.state, ids);
        ReconcileAllForward(one.state, ids[1..], g, first, last, now, canonical);
        ForwardTwice(st, one.state, ReconcileAll(one.state, ids[1..], g, first, last, now, canonical).state);
      }
    }
  }

  lemma PendingFirst(st: State, ids: seq<string>)
    requires ids != [] && ToReconcile(st, ids)
    ensures ids[0] in Active(st)
  {
    assert ids[0] in ids;
  }

  lemma PollForward(st: State, latest: nat, logs: seq<Log>, now: nat, canonical: Option<Canonical>)
    requires Safe(st)
    ensures Forward(st, Poll(st, latest, logs, now, canonical).state)
  {
    hide Plan, Groupable, Forward, Reconcile;
    SameForward(st, st);
    var plan := Plan(st, latest);
    if plan.Some? {
      ReconcileForward(st, logs, plan.value.first, plan.value.last, now, canonical);
    }
  }

  lemma ReconcileForward(st: State, logs: seq<Log>, first: nat, last: nat, now: nat, canonical: Option<Canonical>)
    requires Safe(st)
    ensures Forward(st, Reconcile(st, logs, first, last, now, canonical).state)
  {
    var moved := st.(scanned := Some(last));
    MovingTheScan(st, last);
    SameForward(st, st);
    SameForward(st, moved);
    hide SessionsOk, PollsAreKept, ActiveIds, ReconcileAll, Groupable, Forward;
    ReconcileAllForward(moved, ActiveIds(st), Grouped(logs), first, last, now, canonical);
    ForwardTwice(st, moved, ReconcileAll(moved, ActiveIds(st), Grouped(logs), first, last, now, canonical).state);
  }

  lemma UnknownRefund(st: State, id: string, now: nat)
    requires id !in st.sessions
    ensures FinalizeRefund(st, id, now).state == st
  {
  }

  lemma RefundForward(st: State, id: string, now: nat)
    requires SessionsOk(st)
    ensures Forward(st, FinalizeRefund(st, id, now).state)
  {
    hide FinalizeRefund, OnlyTouches, Forward, SessionsOk, TrailOk, Ascending;
    var after := FinalizeRefund(st, id, now).state;
    SameForward(st, st);
    if id !in st.sessions {
      UnknownRefund(st, id, now);
    } else if after != st {
      StoredParts(st, id);
      RefundEffect(st, id, now);
      RefundedIsOk(st, id, now, after.runtimes);
      OneForward(st, after, id);
    }
  }

  lemma CreateForward(st: State, id: string, claimId: string, gross: nat, minimum: nat, paused: bool, now: nat)
    requires SessionsOk(st) && id !in st.sessions
    ensures Forward(st, Create(st, id, claimId, gross, minimum, paused, now).state)
  {
    SameForward(st, st);
    if !paused && gross >= minimum {
      var claimed := Claimed(st, id, claimId, gross, now);
      ClaimedFacts(st, id, claimId, gross, now);
      CreateIsClaimed(st, id, claimId, gross, minimum, now);
      hide Create, Claimed, OnlyTouches, SyncPollJob, Forward;
      OneForward(st, claimed, id);
      SyncSame(claimed, now);
      SameForward(claimed, SyncPollJob(claimed, now));
      ForwardTwice(st, claimed, SyncPollJob(claimed, now));
    }
  }

  lemma AttachForward(st: State, id: string, canister: string)
    ensures Forward(st, Attach(st, id, canister))
  {
  }

  lemma EnqueueForward(st: State, mid: State, id: string, now: nat)
    requires Forward(st, mid)
    ensures Forward(st, EnqueueSpawn(mid, id, now))
  {
    EnqueueSame(mid, id, now);
    SameForward(mid, EnqueueSpawn(mid, id, now));
    ForwardTwice(st, mid, EnqueueSpawn(mid, id, now));
  }

  lemma StepForward(st: State, step: Step)
    requires Safe(st) && Enabled(st, step)
    ensures Forward(st, After(st, step))
  {
    hide SessionsOk, PollsAreKept, Create, Poll, ApplyEvent, FinalizeRefund, Attach, Active, EnqueueSpawn, Forward;
    match step
    case CreateSession(id, claimId, gross, minimum, paused, now) => CreateForward(st, id, claimId, gross, minimum, paused, now);
    case PollPayments(latest, logs, now, canonical) => PollForward(st, latest, logs, now, canonical);
    case Signal(id, actor, now, event, reason) => EventForward(st, id, actor, now, event, reason);
    case MarkFailed(id, actor, now, reason) =>
      EventForward(st, id, actor, now, SpawnFailed, reason);
      EnqueueForward(st, ApplyEvent(st, id, actor, now, SpawnFailed, reason).state, id, now);
    case RetrySession(id, actor, now, reason) =>
      EventForward(st, id, actor, now, RetryRequested, reason);
      EnqueueForward(st, ApplyEvent(st, id, actor, now, RetryRequested, reason).state, id, now);
    case RefundSession(id, now) => RefundForward(st, id, now);
    case AttachAutomaton(id, canister) => AttachForward(st, id, canister);
    case LeaseJobs(now, limit) => SameForward(st, After(st, step));
    case JobSucceeded(jobId, now) => SameForward(st, After(st, step));
    case PollFailed(failure, now) => SameForward(st, After(st, step));
    case SpawnJobFailed(id, failure, now) => SameForward(st, After(st, step));
  }

  /// Over any run from a safe state, sessions only go forward.
  lemma {:induction false} RunForward(st: State, steps: seq<Step>)
    requires Safe(st) && CanRun(st, steps)
    ensures Forward(st, Run(st, steps))
    decreases |steps|
  {
    if steps == [] {
      SameForward(st, st);
    } else {
      StepForward(st, steps[0]);
      StepKeepsSafe(st, steps[0]);
      RunForward(After(st, steps[0]), steps[1..]);
      ForwardTwice(st, After(st, steps[0]), Run(After(st, steps[0]), steps[1..]));
    }
  }

  /// No run both completes and refunds a session, in either order.
  lemma NeverCompleteAndRefunded(st: State, steps: seq<Step>, id: string)
    requires Safe(st) && CanRun(st, steps) && id in st.sessions
    ensures var after := Run(st, steps);
      id in after.sessions
      && (st.sessions[id].state == Complete ==> after.sessions[id].state == Complete && after.sessions[id].payment == Paid)
      && (st.sessions[id].payment == Refunded ==>
            after.sessions[id].payment == Refunded && after.sessions[id].state == st.sessions[id].state != Complete)
  {
    hide SessionsOk, PollsAreKept, Run, CanRun, RecordsOk;
    RunForward(st, steps);
    EveryRunIsSafe(st, steps);
    SafeMoney(st, id);
    SafeMoney(Run(st, steps), id);
  }

  lemma SafeMoney(st: State, id: string)
    requires Safe(st) && id in st.sessions
    ensures MoneyOk(st.sessions[id])
  {
    assert SessionOk(st, id);
  }

  // ---------------------------------------------------------------- two leases are a minute apart

  function Time(step: Step): Option<nat> {
    if step.AttachAutomaton? then None else Some(step.now)
  }

  /// The clock does not run backwards from `from`.
  predicate Clocked(steps: seq<Step>, since: nat)
    decreases |steps|
  {
    steps == [] || (Time(steps[0]).GetOr(since) >= since && Clocked(steps[1..], Time(steps[0]).GetOr(since)))
  }

  predicate Finishes(step: Step, jobId: string) {
    (step.JobSucceeded? && step.jobId == jobId) || (step.PollFailed? && jobId == PollJobId())
    || (step.SpawnJobFailed? && jobId == SpawnJobId(step.id))
  }

  /// Until the lease has run out by the clock, the job still holds it.
  predicate Held(st: State, jobId: string, until: nat, clock: nat) {
    clock >= until || (jobId in st.jobs && st.jobs[jobId].leasedUntil == Some(until))
  }

  lemma EnqueueHeld(st: State, id: string, now: nat, jobId: string, until: nat)
    requires Held(st, jobId, until, now)
    ensures Held(EnqueueSpawn(st, id, now), jobId, until, now)
  {
    hide SpawnJobId;
  }

  lemma SyncHeld(st: State, now: nat, jobId: string, until: nat)
    requires Held(st, jobId, until, now)
    ensures Held(SyncPollJob(st, now), jobId, until, now)
  {
    hide PollJobId;
  }

  lemma LeaseHeld(st: State, now: nat, limit: nat, jobId: string, until: nat)
    requires Held(st, jobId, until, now)
    ensures Held(LeaseDue(st, now, limit), jobId, until, now)
  {
    LeasesTheLeast(st, now, limit);
  }

  lemma FinishHeld(st: State, jobId: string, other: string, until: nat, now: nat, action: FailureAction)
    requires Held(st, jobId, until, now) && other != jobId
    ensures Held(FinishSuccess(st, other, now), jobId, until, now)
    ensures Held(FinishFailure(st, other, action, now), jobId, until, now)
  {
  }

  lemma {:induction false} ReconcileAllHeld(st: State, ids: seq<string>, g: Groups, first: nat, last: nat, now: nat,
                                            canonical: Option<Canonical>, jobId: string, until: nat)
    requires SessionsOk(st) && ToReconcile(st, ids) && Held(st, jobId, until, now)
    ensures Held(ReconcileAll(st, ids, g, first, last, now, canonical).state, jobId, until, now)
    decreases |ids|
  {
    hide SessionsOk, ReconcileOne, OnlyTouches, SyncPollJob, EnqueueSpawn, ToReconcile;
    if ids == [] {
      SyncHeld(st, now, jobId, until);
    } else {
      PendingFirst(st, ids);
      var one := ReconcileOne(st, ids[0], g, first, last, now, canonical);
      ReconcileOneKeeps(st, ids[0], g, first, last, now, canonical);
      EnqueueHeld(st, ids[0], now, jobId, until);
      if one.error.None? {
        PendingAfterOne(st, one.state, ids);
        ReconcileAllHeld(one.state, ids[1..], g, first, last, now, canonical, jobId, until);
      }
    }
  }

  lemma PollHeld(st: State, latest: nat, logs: seq<Log>, now: nat, canonical: Option<Canonical>, jobId: string, until: nat)
    requires Safe(st) && Held(st, jobId, until, now)
    ensures Held(Poll(st, latest, logs, now, canonical).state, jobId, until, now)
  {
    var plan := Plan(st, latest);
    if plan.Some? {
      MovingTheScan(st, plan.value.last);
      hide SessionsOk, PollsAreKept, ActiveIds, ReconcileAll, Plan, Groupable;
      ReconcileAllHeld(st.(scanned := Some(plan.value.last)), ActiveIds(st), Grouped(logs), plan.value.first, plan.value.last,
                       now, canonical, jobId, until);
    }
  }

  lemma CreateHeld(st: State, id: string, claimId: string, gross: nat, minimum: nat, paused: bool, now: nat, jobId: string, until: nat)
    requires SessionsOk(st) && id !in st.sessions && Held(st, jobId, until, now)
    ensures Held(Create(st, id, claimId, gross, minimum, paused, now).state, jobId, until, now)
  {
    if !paused && gross >= minimum {
      ClaimedFacts(st, id, claimId, gross, now);
      CreateIsClaimed(st, id, claimId, gross, minimum, now);
      hide Create, Claimed, OnlyTouches, SyncPollJob;
      SyncHeld(Claimed(st, id, claimId, gross, now), now, jobId, until);
    }
  }

  lemma RefundKeepsJobs(st: State, id: string, now: nat)
    ensures FinalizeRefund(st, id, now).state.jobs == st.jobs
  {
    hide LastEntries, WithFlags;
  }

  lemma SameJobsHeld(st: State, after: State, jobId: string, until: nat, now: nat)
    requires Held(st, jobId, until, now) && after.jobs == st.jobs
    ensures Held(after, jobId, until, now)
  {
  }

  lemma HeldLater(st: State, jobId: string, until: nat, clock: nat, now: nat)
    requires Held(st, jobId, until, clock) && clock <= now
    ensures Held(st, jobId, until, now)
  {
  }

  lemma BookStepKeepsHeld(st: State, step: Step, jobId: string, until: nat, now: nat)
    requires Safe(st) && Enabled(st, step) && Held(st, jobId, until, now) && Time(step).GetOr(now) == now
    requires step.CreateSession? || step.PollPayments? || step.RefundSession? || step.AttachAutomaton?
    ensures Held(After(st, step), jobId, until, now)
  {
    hide SessionsOk, PollsAreKept, Held, Create, Poll, FinalizeRefund, Active;
    match step
    case CreateSession(id, claimId, gross, minimum, paused, _) => CreateHeld(st, id, claimId, gross, minimum, paused, now, jobId, until);
    case PollPayments(latest, logs, _, canonical) => PollHeld(st, latest, logs, now, canonical, jobId, until);
    case RefundSession(id, _) =>
      RefundKeepsJobs(st, id, now);
      SameJobsHeld(st, After(st, step), jobId, until, now);
    case AttachAutomaton(id, canister) => SameJobsHeld(st, After(st, step), jobId, until, now);
  }

  lemma EventHeld(st: State, id: string, actor: Actor, now: nat, event: Event, reason: string, jobId: string, until: nat)
    requires Held(st, jobId, until, now)
    ensures var after := ApplyEvent(st, id, actor, now, event, reason).state;
      Held(after, jobId, until, now) && Held(EnqueueSpawn(after, id, now), jobId, until, now)
  {
    hide Held, ApplyEvent, EnqueueSpawn;
    EventKeepsJobs(st, id, actor, now, event, reason);
    var after := ApplyEvent(st, id, actor, now, event, reason).state;
    SameJobsHeld(st, after, jobId, until, now);
    EnqueueHeld(after, id, now, jobId, until);
  }

  lemma EventStepKeepsHeld(st: State, step: Step, jobId: string, until: nat, now: nat)
    requires Held(st, jobId, until, now) && Time(step) == Some(now)
    requires step.Signal? || step.MarkFailed? || step.RetrySession?
    ensures Held(After(st, step), jobId, until, now)
  {
    hide Held, ApplyEvent, EnqueueSpawn;
    match step
    case Signal(id, actor, _, event, reason) => EventHeld(st, id, actor, now, event, reason, jobId, until);
    case MarkFailed(id, actor, _, reason) => EventHeld(st, id, actor, now, SpawnFailed, reason, jobId, until);
    case RetrySession(id, actor, _, reason) => EventHeld(st, id, actor, now, RetryRequested, reason, jobId, until);
  }

  lemma JobStepKeepsHeld(st: State, step: Step, jobId: string, until: nat, now: nat)
    requires Held(st, jobId, until, now) && Time(step) == Some(now) && !Finishes(step, jobId)
    requires step.LeaseJobs? || step.JobSucceeded? || step.PollFailed? || step.SpawnJobFailed?
    ensures Held(After(st, step), jobId, until, now)
  {
    hide Held, SpawnJobId, PollJobId, LeaseDue, FinishSuccess, FinishFailure, ClassifyPollFailure, ClassifySpawnFailure;
    match step
    case LeaseJobs(_, limit) => LeaseHeld(st, now, limit, jobId, until);
    case JobSucceeded(other, _) => FinishHeld(st, jobId, other, until, now, Skip);
    case PollFailed(failure, _) => FinishHeld(st, jobId, PollJobId(), until, now, ClassifyPollFailure(failure));
    case SpawnJobFailed(id, cause, _) => FinishHeld(st, jobId, SpawnJobId(id), until, now, ClassifySpawnFailure(cause));
  }

  /// Only finishing a job or the clock ends its lease.
  lemma StepKeepsHeld(st: State, step: Step, jobId: string, until: nat, clock: nat)
    requires Safe(st) && Enabled(st, step) && Held(st, jobId, until, clock)
    requires Time(step).GetOr(clock) >= clock && !Finishes(step, jobId)
    ensures Held(After(st, step), jobId, until, Time(step).GetOr(clock))
  {
    hide Safe, Enabled, Held, After, Finishes;
    var now := Time(step).GetOr(clock);
    HeldLater(st, jobId, until, clock, now);
    if step.CreateSession? || step.PollPayments? || step.RefundSession? || step.AttachAutomaton? {
      BookStepKeepsHeld(st, step, jobId, until, now);
    } else if step.Signal? || step.MarkFailed? || step.RetrySession? {
      EventStepKeepsHeld(st, step, jobId, until, now);
    } else {
      JobStepKeepsHeld(st, step, jobId, until, now);
    }
  }

  function LastTime(steps: seq<Step>, since: nat): nat
    decreases |steps|
  {
    if steps == [] then since else LastTime(steps[1..], Time(steps[0]).GetOr(since))
  }

  lemma {:induction false} RunKeepsHeld(st: State, steps: seq<Step>, jobId: string, until: nat, clock: nat)
    requires Safe(st) && CanRun(st, steps) && Clocked(steps, clock) && Held(st, jobId, until, clock)
    requires forall i :: 0 <= i < |steps| ==> !Finishes(steps[i], jobId)
    ensures Held(Run(st, steps), jobId, until, LastTime(steps, clock))
    decreases |steps|
  {
    if steps != [] {
      StepKeepsHeld(st, steps[0], jobId, until, clock);
      StepKeepsSafe(st, steps[0]);
      RunKeepsHeld(After(st, steps[0]), steps[1..], jobId, until, Time(steps[0]).GetOr(clock));
    }
  }

  /// A job leased twice, with a clock that does not run backwards and no finish in between, was
  /// leased at least a minute apart, whatever else happened meanwhile.
  lemma LeasesAreAMinuteApart(st: State, now: nat, limit: nat, jobId: string, steps: seq<Step>, later: nat, other: nat)
    requires Safe(st) && jobId in Chosen(st, now, limit)
    requires CanRun(LeaseDue(st, now, limit), steps) && Clocked(steps, now) && later >= LastTime(steps, now)
    requires forall i :: 0 <= i < |steps| ==> !Finishes(steps[i], jobId)
    requires jobId in Chosen(Run(LeaseDue(st, now, limit), steps), later, other)
    ensures later >= now + JOB_LEASE_DURATION_MS
  {
    var leased := LeaseDue(st, now, limit);
    hide LeaseDue, Chosen, Safe, CanRun, Run, Finishes, Clocked, LastTime;
    ChosenIsLeased(st, now, limit, jobId);
    LeaseKeepsSafe(st, now, limit);
    RunKeepsHeld(leased, steps, jobId, now + JOB_LEASE_DURATION_MS, now);
    ChosenIsLeased(Run(leased, steps), later, other, jobId);
  }

  lemma LeaseKeepsSafe(st: State, now: nat, limit: nat)
    requires Safe(st)
    ensures Safe(LeaseDue(st, now, limit))
  {
    StepKeepsSafe(st, LeaseJobs(now, limit));
  }

  lemma ChosenIsLeased(st: State, now: nat, limit: nat, jobId: string)
    requires jobId in Chosen(st, now, limit)
    ensures jobId in st.jobs && !HasLiveLease(st.jobs[jobId], now)
    ensures var leased := LeaseDue(st, now, limit);
      jobId in leased.jobs && leased.jobs[jobId].leasedUntil == Some(now + JOB_LEASE_DURATION_MS)
  {
    LeasesTheLeast(st, now, limit);
    hide Chosen, ActiveJobs;
  }
}
