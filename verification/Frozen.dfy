/// A refund is the work of the refund's last step alone, and nothing touches a refunded session's
/// claim afterwards.
module Frozen {
  import opened Deposits
  import opened Escrow
  import opened Evidence
  import opened Factory
  import opened FactoryRuns
  import opened Invariants
  import opened Ledger
  import opened Options
  import opened Polling
  import opened Scheduler

  /// How a step treats one session's money and refund time.
  ghost predicate KeepsRefund(st: State, after: State, o: string) {
    (o in st.sessions && st.sessions[o].payment == Refunded ==>
       o in after.sessions && after.sessions[o].payment == Refunded && o in st.claims && o in after.claims
       && after.claims[o].refundedAt == st.claims[o].refundedAt)
    && (o in after.sessions && after.sessions[o].payment == Refunded ==> o in st.sessions && st.sessions[o].payment == Refunded)
  }

  lemma UntouchedKeepsRefund(st: State, after: State, o: string)
    requires SessionsOk(st) && Untouched(st, after, o)
    ensures KeepsRefund(st, after, o)
  {
    assert o in st.sessions ==> SessionOk(st, o);
  }

  lemma KeepsRefundTwice(a: State, b: State, c: State, o: string)
    requires KeepsRefund(a, b, o) && KeepsRefund(b, c, o)
    ensures KeepsRefund(a, c, o)
  {
  }

  lemma SameBooksKeepRefund(a: State, b: State, o: string)
    requires SessionsOk(a) && SameBooks(a, b)
    ensures KeepsRefund(a, b, o)
  {
    hide SessionsOk;
    UntouchedKeepsRefund(a, b, o);
  }

  lemma EventKeepsRefund(st: State, id: string, actor: Actor, now: nat, event: Event, reason: string, o: string)
    requires SessionsOk(st)
    ensures KeepsRefund(st, ApplyEvent(st, id, actor, now, event, reason).state, o)
  {
    var after := ApplyEvent(st, id, actor, now, event, reason).state;
    UntouchedKeepsRefund(st, st, o);
    if id in st.sessions {
      assert SessionOk(st, id);
      StoredTrail(st, id);
      EventKeepsRecords(st, id, actor, now, event, reason);
      if o != id {
        hide ApplyEvent, SessionsOk, KeepsRefund;
        assert Untouched(st, after, o);
        UntouchedKeepsRefund(st, after, o);
      } else {
        MoveEffect(st, id, actor, now, event, reason);
        hide ApplyEvent, SessionsOk, LastEntries;
      }
    }
  }

  lemma {:induction false} ReconcileAllKeepsRefund(st: State, ids: seq<string>, g: Groups, first: nat, last: nat, now: nat,
                                                   canonical: Option<Canonical>, o: string)
    requires SessionsOk(st) && ToReconcile(st, ids)
    ensures KeepsRefund(st, ReconcileAll(st, ids, g, first, last, now, canonical).state, o)
    decreases |ids|
  {
    hide SessionsOk, ReconcileOne, OnlyTouches, SyncPollJob, KeepsRefund, ToReconcile;
    if ids == [] {
      SyncSame(st, now);
      SameBooksKeepRefund(st, SyncPollJob(st, now), o);
    } else {
      PendingFirst(st, ids);
      var one := ReconcileOne(st, ids[0], g, first, last, now, canonical);
      ReconcileOneKeeps(st, ids[0], g, first, last, now, canonical);
      ReconcileOneKeepsRefund(st, ids[0], g, first, last, now, canonical, o);
      if one.error.None? {
        PendingAfterOne(st, one.state, ids);
        ReconcileAllKeepsRefund(one.state, ids[1..], g, first, last, now, canonical, o);
        KeepsRefundTwice(st, one.state, ReconcileAll(one.state, ids[1..], g, first, last, now, canonical).state, o);
      }
    }
  }

  lemma ReconcileOneKeepsRefund(st: State, id: string, g: Groups, first: nat, last: nat, now: nat, canonical: Option<Canonical>, o: string)
    requires SessionsOk(st) && id in Active(st)
    ensures KeepsRefund(st, ReconcileOne(st, id, g, first, last, now, canonical).state, o)
  {
    var one := ReconcileOne(st, id, g, first, last, now, canonical);
    ReconcileOneKeeps(st, id, g, first, last, now, canonical);
    var m, status := ReconcileOneCases(st, id, g, first, last, now, canonical);
    UntouchedKeepsRefund(st, st, o);
    if o != id {
      hide ReconcileOne, SessionsOk, KeepsRefund;
      assert Untouched(st, one.state, o);
      UntouchedKeepsRefund(st, one.state, o);
    } else if one.error.None? {
      assert SessionOk(st, id);
      hide ReconcileOne, SessionsOk, Merge, AfterMerge, TrailOk, AmountsOk, BooksOk, OnlyTouches;
      MergeKeepsRecords(st, id, ScannedFor(g, st.sessions[id].claimId), m, status, first, last, now);
      AfterMergeIsOk(WithMerge(st, id, m, status, first, last, now), id, st.sessions[id], status, now);
    }
  }

  lemma PollKeepsRefund(st: State, latest: nat, logs: seq<Log>, now: nat, canonical: Option<Canonical>, o: string)
    requires Safe(st)
    ensures KeepsRefund(st, Poll(st, latest, logs, now, canonical).state, o)
  {
    SafeSessions(st);
    hide Plan, Reconcile, KeepsRefund, Safe;
    SameBooksKeepRefund(st, st, o);
    var plan := Plan(st, latest);
    if plan.Some? {
      ReconcileKeepsRefund(st, logs, plan.value.first, plan.value.last, now, canonical, o);
    }
  }

  lemma SafeSessions(st: State)
    requires Safe(st)
    ensures SessionsOk(st)
  {
  }

  lemma ReconcileKeepsRefund(st: State, logs: seq<Log>, first: nat, last: nat, now: nat, canonical: Option<Canonical>, o: string)
    requires Safe(st)
    ensures KeepsRefund(st, Reconcile(st, logs, first, last, now, canonical).state, o)
  {
    hide Groupable, ActiveIds, ReconcileAll, KeepsRefund, SessionsOk, PollsAreKept, ToReconcile;
    var moved := st.(scanned := Some(last));
    SameBooksKeepRefund(st, st, o);
    MovingTheScan(st, last);
    SameBooksKeepRefund(st, moved, o);
    ReconcileAllKeepsRefund(moved, ActiveIds(st), Grouped(logs), first, last, now, canonical, o);
    KeepsRefundTwice(st, moved, ReconcileAll(moved, ActiveIds(st), Grouped(logs), first, last, now, canonical).state, o);
  }

  lemma CreateKeepsRefund(st: State, id: string, claimId: string, gross: nat, minimum: nat, paused: bool, now: nat, o: string)
    requires Safe(st) && id !in st.sessions
    ensures KeepsRefund(st, Create(st, id, claimId, gross, minimum, paused, now).state, o)
  {
    UntouchedKeepsRefund(st, st, o);
    if !paused && gross >= minimum {
      var claimed := Claimed(st, id, claimId, gross, now);
      ClaimedFacts(st, id, claimId, gross, now);
      CreateIsClaimed(st, id, claimId, gross, minimum, now);
      ClaimedUnpaid(st, id, claimId, gross, now);
      hide Create, Claimed, SyncPollJob, SessionsOk, SessionOk, PollsAreKept;
      if o != id {
        assert Untouched(st, claimed, o);
        UntouchedKeepsRefund(st, claimed, o);
      }
      SyncSame(claimed, now);
      OneSessionStaysOk(st, claimed, id);
      SameBooksKeepRefund(claimed, SyncPollJob(claimed, now), o);
    }
  }

  lemma ClaimedUnpaid(st: State, id: string, claimId: string, gross: nat, now: nat)
    requires SessionsOk(st) && id !in st.sessions
    ensures var claimed := Claimed(st, id, claimId, gross, now);
      id in claimed.sessions && claimed.sessions[id].payment == Unpaid
  {
    var s := NewSession(st, claimId, gross, now);
    var base := st.(sessions := st.sessions[id := s], start := st.start[id := s.cursor], covered := st.covered[id := {}]);
    NoTrailYet(st, id);
    CreationMove(base, id, s, now);
    hide ApplyEvent, SessionsOk;
  }

  lemma EnqueueKeepsRefund(st: State, mid: State, id: string, now: nat, o: string)
    requires SessionsOk(mid) && KeepsRefund(st, mid, o)
    ensures KeepsRefund(st, EnqueueSpawn(mid, id, now), o)
  {
    hide SessionsOk, KeepsRefund, EnqueueSpawn;
    EnqueueSame(mid, id, now);
    SameBooksKeepRefund(mid, EnqueueSpawn(mid, id, now), o);
    KeepsRefundTwice(st, mid, EnqueueSpawn(mid, id, now), o);
  }

  lemma AttachKeepsRefund(st: State, id: string, canister: string, o: string)
    requires SessionsOk(st)
    ensures KeepsRefund(st, Attach(st, id, canister), o)
  {
    assert o in st.sessions ==> SessionOk(st, o);
    hide SessionsOk;
  }

  /// Any step but the refund's own leaves every refund as it was, and makes no new one.
  lemma StepKeepsRefund(st: State, step: Step, o: string)
    requires Safe(st) && Enabled(st, step) && !step.RefundSession?
    ensures KeepsRefund(st, After(st, step), o)
  {
    hide SessionsOk, PollsAreKept, Create, Poll, ApplyEvent, FinalizeRefund, Attach, Active, EnqueueSpawn, KeepsRefund,
      LeaseDue, FinishSuccess, FinishFailure, PollJobId, SpawnJobId;
    match step
    case CreateSession(id, claimId, gross, minimum, paused, now) => CreateKeepsRefund(st, id, claimId, gross, minimum, paused, now, o);
    case PollPayments(latest, logs, now, canonical) => PollKeepsRefund(st, latest, logs, now, canonical, o);
    case Signal(id, actor, now, event, reason) => EventKeepsRefund(st, id, actor, now, event, reason, o);
    case MarkFailed(id, actor, now, reason) =>
      EventKeepsRefund(st, id, actor, now, SpawnFailed, reason, o);
      EventKeepsSessions(st, id, actor, now, SpawnFailed, reason);
      EnqueueKeepsRefund(st, ApplyEvent(st, id, actor, now, SpawnFailed, reason).state, id, now, o);
    case RetrySession(id, actor, now, reason) =>
      EventKeepsRefund(st, id, actor, now, RetryRequested, reason, o);
      EventKeepsSessions(st, id, actor, now, RetryRequested, reason);
      EnqueueKeepsRefund(st, ApplyEvent(st, id, actor, now, RetryRequested, reason).state, id, now, o);
    case AttachAutomaton(id, canister) => AttachKeepsRefund(st, id, canister, o);
    case _ =>
      JobStepsKeepBooks(st, step);
      SameBooksKeepRefund(st, After(st, step), o);
  }

  /// The refund's last step, if it does anything, refunds this session now and no other.
  lemma FinalizeFacts(st: State, id: string, now: nat)
    requires Safe(st)
    ensures var after := FinalizeRefund(st, id, now).state;
      Safe(after)
      && (after != st ==>
            id in st.sessions && id in after.sessions && after.sessions[id].payment == Refunded
            && id in after.claims && after.claims[id].refundedAt == Some(now) && st.sessions[id].payment != Refunded)
      && (forall o :: o != id ==> KeepsRefund(st, after, o))
  {
    var after := FinalizeRefund(st, id, now).state;
    RefundKeepsSafe(st, id, now);
    if id in st.sessions && after != st {
      assert SessionOk(st, id);
      RefundEffect(st, id, now);
      RefundedIsOk(st, id, now, after.runtimes);
      hide LastEntries, KeepsRefund, FinalizeRefund, SessionOk;
      forall o | o != id ensures KeepsRefund(st, after, o) {
        assert Untouched(st, after, o);
        UntouchedKeepsRefund(st, after, o);
      }
    } else {
      forall o ensures KeepsRefund(st, st, o) {
        UntouchedKeepsRefund(st, st, o);
      }
    }
  }
}
