/// What creating, polling, attaching and refunding write, besides what they decide
/// (backend/factory/src/api/public.rs, backend/factory/src/escrow.rs, backend/factory/src/spawn.rs).
module Writes {
  import opened Deposits
  import opened Escrow
  import opened Events
  import opened Evidence
  import opened Factory
  import opened FactoryRuns
  import opened Invariants
  import opened JobTimes
  import opened Options
  import opened Polling
  import opened Scheduler

  // ---------------------------------------------------------------- creating

  /// A new session is refused exactly while the factory is paused or below the minimum, and then
  /// nothing changes. Otherwise it waits for its price until the time to live is over, is scanned from
  /// where the last scan ended, has an empty claim, one line of audit, and the poll job is due.
  lemma CreatedExactly(st: State, id: string, claimId: string, gross: nat, minimum: nat, paused: bool, now: nat)
    requires Safe(st) && id !in st.sessions
    ensures var created := Create(st, id, claimId, gross, minimum, paused, now);
      created.error == (if paused then Some(FactoryPaused) else if gross < minimum then Some(BelowMinimum) else None)
      && (created.error.Some? ==> created.state == st)
      && (created.error.None? ==>
            id in created.state.sessions && id in created.state.claims && id in created.state.audit
            && created.state.sessions[id]
              == Session(claimId, gross, now + st.ttl, AwaitingPayment, Unpaid, false, false, st.scanned, None, now)
            && created.state.claims[id] == Claim(claimId, 0, Unpaid, st.scanned, None, None, None, [], false, None, now)
            && created.state.audit[id] == [AuditEntry(now, None, AwaitingPayment, User, "session created")]
            && OnlyTouches(st, created.state, id) && PollDue(created.state.jobs, now))
  {
    hide Claimed, SyncPollJob, PollDue, OnlyTouches, Safe;
    if !paused && gross >= minimum {
      SafeIsOk(st);
      CreateIsClaimed(st, id, claimId, gross, minimum, now);
      ClaimedFacts(st, id, claimId, gross, now);
      ClaimedIs(st, id, claimId, gross, now);
      var claimed := Claimed(st, id, claimId, gross, now);
      SyncSame(claimed, now);
      SameBooksKeep(claimed, SyncPollJob(claimed, now), id);
      TouchesTwice(st, claimed, SyncPollJob(claimed, now), id);
      SyncIsDue(claimed, now);
      assert NeedsPoll(claimed.sessions[id]);
    }
  }

  lemma SafeIsOk(st: State)
    requires Safe(st)
    ensures SessionsOk(st)
  {
  }

  lemma ClaimedIs(st: State, id: string, claimId: string, gross: nat, now: nat)
    requires SessionsOk(st) && id !in st.sessions
    ensures var claimed := Claimed(st, id, claimId, gross, now);
      id in claimed.sessions && id in claimed.claims && id in claimed.audit
      && claimed.sessions[id] == Session(claimId, gross, now + st.ttl, AwaitingPayment, Unpaid, false, false, st.scanned, None, now)
      && claimed.claims[id] == Claim(claimId, 0, Unpaid, st.scanned, None, None, None, [], false, None, now)
      && claimed.audit[id] == [AuditEntry(now, None, AwaitingPayment, User, "session created")]
  {
    var s := NewSession(st, claimId, gross, now);
    var base := st.(sessions := st.sessions[id := s], start := st.start[id := s.cursor], covered := st.covered[id := {}]);
    hide ApplyEvent, SessionsOk;
    NoTrailYet(st, id);
    CreationMove(base, id, s, now);
  }

  // ---------------------------------------------------------------- polling

  lemma EventScan(st: State, id: string, actor: Actor, now: nat, event: Event, reason: string)
    ensures ApplyEvent(st, id, actor, now, event, reason).state.scanned == st.scanned
    ensures ApplyEvent(st, id, actor, now, event, reason).state.runtimes == st.runtimes
  {
    hide EdgeOf, ApplyMove;
    if id in st.sessions {
      var edge := EdgeOf(st.sessions[id], id in st.audit && st.audit[id] != [], now, event);
      if edge.Ok? && edge.value.Move? {
        MoveScan(st, id, actor, now, edge.value, reason);
      }
    }
  }

  lemma MoveScan(st: State, id: string, actor: Actor, now: nat, move: Edge, reason: string)
    requires id in st.sessions && move.Move?
    ensures var after := ApplyMove(st, id, actor, now, move, reason); after.scanned == st.scanned && after.runtimes == st.runtimes
  {
    hide LastEntries, WithFlags;
  }

  lemma AfterMergeScan(st: State, id: string, was: Session, status: PaymentStatus, now: nat)
    ensures var after := AfterMerge(st, id, was, status, now); after.scanned == st.scanned && after.runtimes == st.runtimes
  {
    hide ApplyEvent;
    EventScan(st, id, System, now, PaymentObserved, "payment detected from Base logs");
    var noticed := EnqueueSpawn(ApplyEvent(st, id, System, now, PaymentObserved, "payment detected from Base logs").state, id, now);
    EventScan(st, id, System, now, SessionExpired, "payment scan observed expired session");
    EventScan(noticed, id, System, now, SessionExpired, "payment scan observed expired session");
  }

  lemma OneScan(st: State, id: string, g: Groups, first: nat, last: nat, now: nat, canonical: Option<Canonical>)
    ensures var after := ReconcileOne(st, id, g, first, last, now, canonical).state;
      after.scanned == st.scanned && after.runtimes == st.runtimes
  {
    hide AfterMerge, Verdict, WithFlags;
    if id in st.sessions && id in st.claims {
      forall m, status ensures
        (var after := AfterMerge(WithMerge(st, id, m, status, first, last, now), id, st.sessions[id], status, now);
         after.scanned == st.scanned && after.runtimes == st.runtimes)
      {
        AfterMergeScan(WithMerge(st, id, m, status, first, last, now), id, st.sessions[id], status, now);
      }
    }
  }

  lemma {:induction false} AllScan(st: State, ids: seq<string>, g: Groups, first: nat, last: nat, now: nat, canonical: Option<Canonical>)
    ensures var all := ReconcileAll(st, ids, g, first, last, now, canonical);
      all.state.scanned == st.scanned && all.state.runtimes == st.runtimes
      && (all.error.None? ==> PollInOrder(all.state, now))
    decreases |ids|
  {
    hide ReconcileOne, PollInOrder, SyncPollJob;
    if ids == [] {
      SyncInOrder(st, now);
    } else {
      OneScan(st, ids[0], g, first, last, now, canonical);
      AllScan(ReconcileOne(st, ids[0], g, first, last, now, canonical).state, ids[1..], g, first, last, now, canonical);
    }
  }

  /// The poll job is due, or under a lease, while a session waits; otherwise it has no time to run.
  ghost predicate PollInOrder(st: State, now: nat) {
    if SomeoneStillWaits(st) then PollDue(st.jobs, now) else PollIdle(st.jobs, now)
  }

  lemma SyncInOrder(st: State, now: nat)
    ensures var after := SyncPollJob(st, now);
      after.scanned == st.scanned && after.runtimes == st.runtimes && PollInOrder(after, now)
  {
    hide PollDue, PollIdle, Active, PollSynced;
    SyncIsDue(st, now);
    assert SomeoneStillWaits(SyncPollJob(st, now)) <==> SomeoneStillWaits(st);
  }

  /// A poll whose logs group moves the scan position to the end of its window, even if it then stops
  /// half-way; one that goes through leaves the poll job in order. Any other poll leaves the position.
  lemma PollMovesTheScan(st: State, latest: nat, logs: seq<Log>, now: nat, canonical: Option<Canonical>)
    ensures var poll := Poll(st, latest, logs, now, canonical);
      poll.state.scanned == (if Plan(st, latest).Some? && Groupable(logs) then Some(Plan(st, latest).value.last) else st.scanned)
      && (Plan(st, latest).Some? && poll.error.None? ==> PollInOrder(poll.state, now))
      && poll.state.runtimes == st.runtimes
  {
    hide Plan, Groupable, ReconcileAll, ActiveIds, PollInOrder, Grouped;
    if Plan(st, latest).Some? && Groupable(logs) {
      var p := Plan(st, latest).value;
      AllScan(st.(scanned := Some(p.last)), ActiveIds(st), Grouped(logs), p.first, p.last, now, canonical);
    }
  }

  // ---------------------------------------------------------------- refunding

  predicate RefundOpen(st: State, id: string) {
    id in st.sessions && st.sessions[id].state in {Expired, SessionState.Failed} && st.sessions[id].payment in {Partial, Paid}
  }

  /// What a steward is told who asks for a refund: the time of the one already made, that it is open, or
  /// why it is refused.
  lemma RefundChecks(st: State, id: string, now: nat)
    requires Safe(st)
    ensures ValidateRefund(st, id, now)
      == if id !in st.sessions then Refused(SessionNotFound)
         else if st.sessions[id].payment == Refunded
         then Already(if id in st.claims && st.claims[id].refundedAt.Some? then st.claims[id].refundedAt.value else now)
         else if RefundOpen(st, id) then Allowed
         else Refused(NotRefundable)
  {
    if id in st.sessions {
      assert SessionOk(st, id);
    }
  }

  /// The runtime of a refunded session's canister: its handover counts as completed, at the latest
  /// now, and its provider keys as cleared.
  predicate Closed(was: Runtime, r: Runtime, now: nat) {
    r.providerKeysCleared && r.handoffCompletedAt == (if was.handoffCompletedAt.None? then Some(now) else was.handoffCompletedAt)
  }

  /// Why a refund that is not recorded is refused; one that was made before is no error.
  function RefundComplaint(st: State, id: string): Option<Error>
    requires id in st.sessions
  {
    if st.sessions[id].payment == Refunded then None
    else if RefundOpen(st, id) then Some(RuntimeNotFound)
    else Some(NotRefundable)
  }

  /// A refund is recorded exactly while it is open and the canister, if there is one, is known. Session
  /// and claim are refunded at that time and cannot be retried or refunded again, the trail has one more
  /// line, the canister's runtime is closed, and no other session or runtime changes.
  lemma RefundWrites(st: State, id: string, now: nat)
    requires Safe(st) && id in st.sessions
    ensures Known(st, id)
    ensures var s, refund := st.sessions[id], FinalizeRefund(st, id, now);
      if RefundOpen(st, id) && (s.automaton.Some? ==> s.automaton.value in st.runtimes) then
        refund.error.None? && OnlyTouches(st, refund.state, id) && id in refund.state.sessions && id in refund.state.claims
        && refund.state.sessions[id] == s.(payment := Refunded, retryable := false, refundable := false, updatedAt := now)
        && refund.state.claims[id]
          == st.claims[id].(payment := Refunded, refundable := false, refundedAt := Some(now), updatedAt := now)
        && Audited(st, refund.state, id, AuditEntry(now, Some(s.state), s.state, User, "refund transaction confirmed on-chain"))
        && refund.state.jobs == st.jobs && refund.state.scanned == st.scanned && refund.state.runtimes.Keys == st.runtimes.Keys
        && forall r :: r in st.runtimes ==>
             if s.automaton == Some(r) then Closed(st.runtimes[r], refund.state.runtimes[r], now)
             else refund.state.runtimes[r] == st.runtimes[r]
      else refund.state == st && refund.error == RefundComplaint(st, id)
  {
    hide Audited, Closed, OnlyTouches, LastEntries, TrailOk, AmountsOk, PollsAreKept;
    assert SessionOk(st, id);
    FinalizedRuntimes(st, id, now);
    RefundEffect(st, id, now);
    var s := st.sessions[id];
    var refund := FinalizeRefund(st, id, now);
    if RefundOpen(st, id) && (s.automaton.Some? ==> s.automaton.value in st.runtimes) {
      RefundChanges(st, id, now);
      RefundedWrites(st, id, now, refund.state.runtimes);
    }
  }

  lemma RefundChanges(st: State, id: string, now: nat)
    requires SessionOk(st, id) && RefundOpen(st, id)
    requires st.sessions[id].automaton.Some? ==> st.sessions[id].automaton.value in st.runtimes
    ensures FinalizeRefund(st, id, now).error.None? && FinalizeRefund(st, id, now).state != st
  {
    hide LastEntries, TrailOk, AmountsOk, HandedOver;
    assert FinalizeRefund(st, id, now).state.sessions[id].payment == Refunded;
  }

  lemma RefundedWrites(st: State, id: string, now: nat, runtimes: map<string, Runtime>)
    requires SessionOk(st, id) && RefundOpen(st, id)
    ensures var s, after := st.sessions[id], RefundedState(st, id, now, runtimes);
      OnlyTouches(st, after, id) && id in after.sessions && id in after.claims
      && after.sessions[id] == s.(payment := Refunded, retryable := false, refundable := false, updatedAt := now)
      && after.claims[id] == st.claims[id].(payment := Refunded, refundable := false, refundedAt := Some(now), updatedAt := now)
      && Audited(st, after, id, AuditEntry(now, Some(s.state), s.state, User, "refund transaction confirmed on-chain"))
      && after.jobs == st.jobs && after.scanned == st.scanned && after.runtimes == runtimes
  {
    hide LastEntries, TrailOk, AmountsOk, IsTail;
    var s := st.sessions[id];
    TailOfTrail(s, st.audit[id], st.history[id], AuditEntry(now, Some(s.state), s.state, User, "refund transaction confirmed on-chain"));
    RefundedIsOk(st, id, now, runtimes);
  }

  function Closing(st: State, id: string, now: nat): map<string, Runtime>
    requires id in st.sessions
  {
    var s := st.sessions[id];
    if s.automaton.Some? && s.automaton.value in st.runtimes
    then st.runtimes[s.automaton.value := HandedOver(st.runtimes[s.automaton.value], now)] else st.runtimes
  }

  lemma RecordedRuntimes(st: State, id: string, now: nat, entry: AuditEntry)
    requires id in st.sessions
    ensures Recorded(SyncFlags(st, id, now), id, entry).runtimes == st.runtimes
  {
    hide LastEntries, WithFlags;
  }

  lemma FinalizedIs(st: State, id: string, now: nat)
    requires id in st.sessions
    ensures FinalizeRefund(st, id, now).state == st || FinalizeRefund(st, id, now).state.runtimes == Closing(st, id, now)
  {
    hide SyncFlags, Recorded, HandedOver;
    if id in st.claims {
      var s, c := st.sessions[id], st.claims[id];
      var paidBack := st.(runtimes := Closing(st, id, now),
        sessions := st.sessions[id := s.(payment := Refunded, updatedAt := now)],
        claims := st.claims[id := c.(payment := Refunded, refundedAt := Some(now), updatedAt := now)]);
      RecordedRuntimes(paidBack, id, now, AuditEntry(now, Some(s.state), s.state, User, "refund transaction confirmed on-chain"));
    }
  }

  lemma FinalizedRuntimes(st: State, id: string, now: nat)
    requires id in st.sessions
    ensures var after := FinalizeRefund(st, id, now).state;
      after.runtimes.Keys == st.runtimes.Keys
      && forall r :: r in st.runtimes ==>
           if st.sessions[id].automaton == Some(r) && after != st then Closed(st.runtimes[r], after.runtimes[r], now)
           else after.runtimes[r] == st.runtimes[r]
  {
    hide FinalizeRefund;
    FinalizedIs(st, id, now);
  }

  // ---------------------------------------------------------------- canisters and their runtimes

  /// Every session's canister has a runtime.
  ghost predicate RuntimesKnown(st: State) {
    forall id :: id in st.sessions && st.sessions[id].automaton.Some? ==> st.sessions[id].automaton.value in st.runtimes
  }

  /// The sessions and their canisters are as they were.
  ghost predicate SameCanisters(st: State, after: State) {
    after.sessions.Keys == st.sessions.Keys && after.runtimes.Keys == st.runtimes.Keys
    && forall id :: id in st.sessions ==> after.sessions[id].automaton == st.sessions[id].automaton
  }

  lemma SameStayKnown(st: State, after: State)
    requires RuntimesKnown(st) && SameCanisters(st, after)
    ensures RuntimesKnown(after)
  {
  }

  lemma SameTwice(a: State, b: State, c: State)
    requires SameCanisters(a, b) && SameCanisters(b, c)
    ensures SameCanisters(a, c)
  {
  }

  lemma EventCanisters(st: State, id: string, actor: Actor, now: nat, event: Event, reason: string)
    ensures SameCanisters(st, ApplyEvent(st, id, actor, now, event, reason).state)
  {
    hide EdgeOf, ApplyMove;
    if id in st.sessions {
      var edge := EdgeOf(st.sessions[id], id in st.audit && st.audit[id] != [], now, event);
      if edge.Ok? && edge.value.Move? {
        MoveCanisters(st, id, actor, now, edge.value, reason);
      }
    }
  }

  lemma MoveCanisters(st: State, id: string, actor: Actor, now: nat, move: Edge, reason: string)
    requires id in st.sessions && move.Move?
    ensures SameCanisters(st, ApplyMove(st, id, actor, now, move, reason))
  {
    hide LastEntries;
  }

  lemma MergeCanisters(st: State, id: string, m: Merged, status: PaymentStatus, first: nat, last: nat, now: nat)
    requires id in st.sessions && id in st.claims
    ensures SameCanisters(st, WithMerge(st, id, m, status, first, last, now))
  {
  }

  lemma AfterMergeCanisters(st: State, id: string, was: Session, status: PaymentStatus, now: nat)
    ensures SameCanisters(st, AfterMerge(st, id, was, status, now))
  {
    hide ApplyEvent, EnqueueSpawn, SameCanisters;
    var moved := ApplyEvent(st, id, System, now, PaymentObserved, "payment detected from Base logs").state;
    var noticed := EnqueueSpawn(moved, id, now);
    JobsCanisters(st, st);
    EventCanisters(st, id, System, now, PaymentObserved, "payment detected from Base logs");
    EnqueueSame(moved, id, now);
    EnqueueRuntimes(moved, id, now);
    JobsCanisters(moved, noticed);
    SameTwice(st, moved, noticed);
    EventCanisters(st, id, System, now, SessionExpired, "payment scan observed expired session");
    EventCanisters(noticed, id, System, now, SessionExpired, "payment scan observed expired session");
    SameTwice(st, noticed, ApplyEvent(noticed, id, System, now, SessionExpired, "payment scan observed expired session").state);
  }

  lemma EnqueueRuntimes(st: State, id: string, now: nat)
    ensures EnqueueSpawn(st, id, now).runtimes == st.runtimes
  {
  }

  lemma JobsCanisters(st: State, after: State)
    requires after.sessions == st.sessions && after.runtimes == st.runtimes
    ensures SameCanisters(st, after)
  {
  }

  lemma OneCanisters(st: State, id: string, g: Groups, first: nat, last: nat, now: nat, canonical: Option<Canonical>)
    ensures SameCanisters(st, ReconcileOne(st, id, g, first, last, now, canonical).state)
  {
    hide AfterMerge, Verdict, WithMerge, SameCanisters, Merge;
    JobsCanisters(st, st);
    if id in st.sessions && id in st.claims {
      forall m, status ensures
        SameCanisters(st, AfterMerge(WithMerge(st, id, m, status, first, last, now), id, st.sessions[id], status, now))
      {
        var merged := WithMerge(st, id, m, status, first, last, now);
        MergeCanisters(st, id, m, status, first, last, now);
        AfterMergeCanisters(merged, id, st.sessions[id], status, now);
        SameTwice(st, merged, AfterMerge(merged, id, st.sessions[id], status, now));
      }
    }
  }

  lemma {:induction false} AllCanisters(st: State, ids: seq<string>, g: Groups, first: nat, last: nat, now: nat, canonical: Option<Canonical>)
    ensures SameCanisters(st, ReconcileAll(st, ids, g, first, last, now, canonical).state)
    decreases |ids|
  {
    hide ReconcileOne, SameCanisters, SyncPollJob;
    if ids == [] {
      SyncSame(st, now);
      SyncInOrder(st, now);
      JobsCanisters(st, SyncPollJob(st, now));
    } else {
      var one := ReconcileOne(st, ids[0], g, first, last, now, canonical);
      OneCanisters(st, ids[0], g, first, last, now, canonical);
      if one.error.None? {
        AllCanisters(one.state, ids[1..], g, first, last, now, canonical);
        SameTwice(st, one.state, ReconcileAll(one.state, ids[1..], g, first, last, now, canonical).state);
      }
    }
  }

  lemma PollCanisters(st: State, latest: nat, logs: seq<Log>, now: nat, canonical: Option<Canonical>)
    ensures SameCanisters(st, Poll(st, latest, logs, now, canonical).state)
  {
    hide Plan, Groupable, ReconcileAll, ActiveIds, Grouped, SameCanisters;
    JobsCanisters(st, st);
    if Plan(st, latest).Some? && Groupable(logs) {
      var p := Plan(st, latest).value;
      var moved := st.(scanned := Some(p.last));
      JobsCanisters(st, moved);
      AllCanisters(moved, ActiveIds(st), Grouped(logs), p.first, p.last, now, canonical);
      SameTwice(st, moved, ReconcileAll(moved, ActiveIds(st), Grouped(logs), p.first, p.last, now, canonical).state);
    }
  }

  lemma RefundCanisters(st: State, id: string, now: nat)
    requires Safe(st)
    ensures SameCanisters(st, FinalizeRefund(st, id, now).state)
  {
    hide FinalizeRefund, Safe, Audited, Closed;
    if id in st.sessions {
      RefundWrites(st, id, now);
      var after := FinalizeRefund(st, id, now).state;
      forall o ensures (o in after.sessions <==> o in st.sessions)
                       && (o in st.sessions ==> after.sessions[o].automaton == st.sessions[o].automaton)
      {
        if o != id && after != st {
          SameSession(st, after, o);
        }
      }
    } else {
      UnknownRefund(st, id, now);
    }
  }

  lemma UnknownRefund(st: State, id: string, now: nat)
    requires id !in st.sessions
    ensures FinalizeRefund(st, id, now).state == st
  {
  }

  lemma CreateKnown(st: State, id: string, claimId: string, gross: nat, minimum: nat, paused: bool, now: nat)
    requires Safe(st) && id !in st.sessions && RuntimesKnown(st)
    ensures RuntimesKnown(Create(st, id, claimId, gross, minimum, paused, now).state)
  {
    CreatedExactly(st, id, claimId, gross, minimum, paused, now);
    CreatedRuntimes(st, id, claimId, gross, minimum, paused, now);
    hide Safe, Create, PollDue, SameEntry;
    var after := Create(st, id, claimId, gross, minimum, paused, now).state;
    forall o | o in after.sessions && after.sessions[o].automaton.Some? ensures after.sessions[o].automaton.value in after.runtimes {
      if o != id && after != st {
        assert Untouched(st, after, o);
        SameSession(st, after, o);
      }
    }
  }

  lemma SameSession(st: State, after: State, o: string)
    requires Untouched(st, after, o)
    ensures SameEntry(st.sessions, after.sessions, o) && (o in after.sessions ==> o in st.sessions && after.sessions[o] == st.sessions[o])
  {
  }

  lemma CreatedRuntimes(st: State, id: string, claimId: string, gross: nat, minimum: nat, paused: bool, now: nat)
    ensures Create(st, id, claimId, gross, minimum, paused, now).state.runtimes == st.runtimes
  {
    hide ApplyEvent, PollSynced;
    var s := NewSession(st, claimId, gross, now);
    EventScan(st.(sessions := st.sessions[id := s], start := st.start[id := s.cursor], covered := st.covered[id := {}]),
              id, User, now, SessionCreated, "session created");
  }

  lemma EventStepCanisters(st: State, step: Step)
    requires step.Signal? || step.MarkFailed? || step.RetrySession?
    ensures SameCanisters(st, After(st, step))
  {
    hide ApplyEvent, EnqueueSpawn, SameCanisters;
    var event := if step.Signal? then step.event else if step.MarkFailed? then SpawnFailed else RetryRequested;
    var after := ApplyEvent(st, step.id, step.actor, step.now, event, step.reason).state;
    EventCanisters(st, step.id, step.actor, step.now, event, step.reason);
    EnqueueSame(after, step.id, step.now);
    EnqueueRuntimes(after, step.id, step.now);
    JobsCanisters(after, EnqueueSpawn(after, step.id, step.now));
    SameTwice(st, after, EnqueueSpawn(after, step.id, step.now));
  }

  lemma StepKnown(st: State, step: Step)
    requires Safe(st) && Enabled(st, step) && RuntimesKnown(st)
    ensures RuntimesKnown(After(st, step))
  {
    hide Safe, Create, Poll, ApplyEvent, FinalizeRefund, RuntimesKnown, Fail, RetrySpawn, ActiveJobs, Chosen, Active, AfterSuccess,
      AfterFailure, Attach, SameCanisters;
    var after := After(st, step);
    match step
    case CreateSession(id, claimId, gross, minimum, paused, now) => CreateKnown(st, id, claimId, gross, minimum, paused, now);
    case AttachAutomaton(id, canister) => AttachKnown(st, id, canister);
    case PollPayments(latest, logs, now, canonical) => PollCanisters(st, latest, logs, now, canonical); SameStayKnown(st, after);
    case RefundSession(id, now) => RefundCanisters(st, id, now); SameStayKnown(st, after);
    case Signal(_, _, _, _, _) => EventStepCanisters(st, step); SameStayKnown(st, after);
    case MarkFailed(_, _, _, _) => EventStepCanisters(st, step); SameStayKnown(st, after);
    case RetrySession(_, _, _, _) => EventStepCanisters(st, step); SameStayKnown(st, after);
    case _ => JobStepsKeepBooks(st, step); JobStepRuntimes(st, step); JobsCanisters(st, after); SameStayKnown(st, after);
  }

  lemma JobStepRuntimes(st: State, step: Step)
    requires step.LeaseJobs? || step.JobSucceeded? || step.PollFailed? || step.SpawnJobFailed?
    ensures After(st, step).runtimes == st.runtimes
  {
    hide Create, Poll, ApplyEvent, FinalizeRefund, Fail, RetrySpawn, ActiveJobs, Chosen, Active, AfterSuccess, AfterFailure, Attach;
  }

  lemma AttachKnown(st: State, id: string, canister: string)
    requires RuntimesKnown(st)
    ensures RuntimesKnown(Attach(st, id, canister))
    ensures id in st.sessions ==> Attach(st, id, canister).sessions[id].automaton == Some(canister)
    ensures id in st.sessions ==>
      var runtime := Attach(st, id, canister).runtimes[canister];
      runtime.handoffCompletedAt.None? && !runtime.providerKeysCleared
  {
  }

  /// Main result. In every reachable state a session's canister has a runtime, so that an open refund is
  /// recorded and never fails on a canister that is not known.
  lemma {:induction false} CanistersAreKnown(st: State, steps: seq<Step>)
    requires Safe(st) && CanRun(st, steps) && RuntimesKnown(st)
    ensures RuntimesKnown(Run(st, steps))
    decreases |steps|
  {
    hide Safe, RuntimesKnown, After, Enabled;
    if steps != [] {
      StepKnown(st, steps[0]);
      StepKeepsSafe(st, steps[0]);
      CanistersAreKnown(After(st, steps[0]), steps[1..]);
    }
  }
}
