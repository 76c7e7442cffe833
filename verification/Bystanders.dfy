/// What the factory's other steps can do to a session that is being spawned: expire it, or leave it.
module Bystanders {
  import opened Deposits
  import opened Escrow
  import opened Evidence
  import opened Factory
  import opened FactoryRuns
  import opened Invariants
  import opened Ledger
  import opened Options
  import opened Polling
  import opened Scheduler

  /// The canister stays; the state stays, or the session expires, or a waiting one becomes ready to
  /// spawn, as a failed one does when it is retried.
  predicate Aside(s: Session, t: Session, retried: bool) {
    t.automaton == s.automaton
    && (t.state == s.state || (t.state == Expired && s.state != Complete)
        || (t.state == PaymentDetected && (s.state == AwaitingPayment || (retried && s.state == Failed))))
  }

  predicate AsideAt(st: State, after: State, o: string, retried: bool) {
    (o in st.sessions ==> o in after.sessions && Aside(st.sessions[o], after.sessions[o], retried))
    && (o !in st.sessions && o in after.sessions ==> after.sessions[o].state == AwaitingPayment && after.sessions[o].automaton.None?)
  }

  lemma AsideTwice(a: State, b: State, c: State, o: string, retried: bool)
    requires o in a.sessions && AsideAt(a, b, o, retried) && AsideAt(b, c, o, retried)
    ensures AsideAt(a, c, o, retried)
  {
  }

  lemma AsideWeaker(st: State, after: State, o: string, retried: bool)
    requires AsideAt(st, after, o, retried)
    ensures AsideAt(st, after, o, true)
  {
  }

  lemma SameBooksAside(st: State, after: State, o: string)
    requires SameBooks(st, after)
    ensures AsideAt(st, after, o, false)
  {
  }

  lemma SessionRecords(st: State, id: string)
    requires SessionsOk(st) && id in st.sessions
    ensures RecordsOk(st, id)
  {
    assert SessionOk(st, id);
  }

  lemma RecordsEventAside(st: State, id: string, actor: Actor, now: nat, event: Event, reason: string)
    requires RecordsOk(st, id) && event in {SessionExpired, RetryRequested, PaymentObserved}
    ensures AsideAt(st, ApplyEvent(st, id, actor, now, event, reason).state, id, event == RetryRequested)
  {
    hide ApplyEvent, LastEntries, BooksOk, AmountsOk, TrailOk;
    StoredTrail(st, id);
    MoveEffect(st, id, actor, now, event, reason);
  }

  lemma EventAside(st: State, id: string, actor: Actor, now: nat, event: Event, reason: string, o: string)
    requires SessionsOk(st) && event in {SessionExpired, RetryRequested, PaymentObserved}
    ensures AsideAt(st, ApplyEvent(st, id, actor, now, event, reason).state, o, event == RetryRequested && id == o)
  {
    if id in st.sessions {
      hide ApplyEvent, SessionsOk, RecordsOk, OnlyTouches, AsideAt;
      SessionRecords(st, id);
      EventKeepsRecords(st, id, actor, now, event, reason);
      RecordsEventAside(st, id, actor, now, event, reason);
      if o != id {
        TouchedAside(st, ApplyEvent(st, id, actor, now, event, reason).state, id, o);
      }
    } else {
      UnknownEvent(st, id, actor, now, event, reason);
      SameBooksAside(st, st, o);
    }
  }

  lemma UnknownEvent(st: State, id: string, actor: Actor, now: nat, event: Event, reason: string)
    requires id !in st.sessions
    ensures ApplyEvent(st, id, actor, now, event, reason).state == st
  {
  }

  lemma AfterMergeAside(st: State, id: string, was: Session, status: PaymentStatus, now: nat)
    requires RecordsOk(st, id)
    ensures AsideAt(st, AfterMerge(st, id, was, status, now), id, false)
  {
    hide ApplyEvent, RecordsOk, EnqueueSpawn;
    var noted, late := "payment detected from Base logs", "payment scan observed expired session";
    EventKeepsRecords(st, id, System, now, PaymentObserved, noted);
    RecordsEventAside(st, id, System, now, PaymentObserved, noted);
    RecordsEventAside(st, id, System, now, SessionExpired, late);
    var moved := ApplyEvent(st, id, System, now, PaymentObserved, noted).state;
    var queued := EnqueueSpawn(moved, id, now);
    EnqueueSame(moved, id, now);
    SameBooksKeep(moved, queued, id);
    SameBooksAside(moved, queued, id);
    RecordsEventAside(queued, id, System, now, SessionExpired, late);
    StoredKnown(st, id);
    AsideTwice(st, moved, queued, id, false);
    AsideTwice(st, queued, ApplyEvent(queued, id, System, now, SessionExpired, late).state, id, false);
  }

  lemma StoredKnown(st: State, id: string)
    requires RecordsOk(st, id)
    ensures id in st.sessions
  {
  }

  lemma ReconcileOneAside(st: State, id: string, g: Groups, first: nat, last: nat, now: nat, canonical: Option<Canonical>, o: string)
    requires SessionsOk(st) && id in Active(st)
    ensures AsideAt(st, ReconcileOne(st, id, g, first, last, now, canonical).state, o, false)
  {
    hide ReconcileOne, SessionsOk, Merge, AfterMerge, OnlyTouches, RecordsOk, SessionOk;
    var one := ReconcileOne(st, id, g, first, last, now, canonical);
    ReconcileOneKeeps(st, id, g, first, last, now, canonical);
    var m, status := ReconcileOneCases(st, id, g, first, last, now, canonical);
    if o != id {
      TouchedAside(st, one.state, id, o);
    } else if one.error.None? {
      SessionRecords(st, id);
      MergeAside(st, id, ScannedFor(g, st.sessions[id].claimId), m, status, first, last, now);
    }
  }

  lemma TouchedAside(st: State, after: State, id: string, o: string)
    requires OnlyTouches(st, after, id) && o != id
    ensures AsideAt(st, after, o, false)
  {
    assert Untouched(st, after, o);
  }

  lemma MergeAside(st: State, id: string, blocks: Option<Blocks>, m: Merged, status: PaymentStatus, first: nat, last: nat, now: nat)
    requires RecordsOk(st, id) && st.sessions[id].state == AwaitingPayment
    requires Merge(st.claims[id].paid, st.claims[id].cursor, st.claims[id].evidence, blocks) == Some(m)
    requires status == StatusFor(m.total, st.sessions[id].gross) || (status == Partial && m.total >= st.sessions[id].gross)
    ensures AsideAt(st, AfterMerge(WithMerge(st, id, m, status, first, last, now), id, st.sessions[id], status, now), id, false)
  {
    hide Merge, AfterMerge, BooksOk, AmountsOk, TrailOk;
    var next := WithMerge(st, id, m, status, first, last, now);
    MergeKeepsRecords(st, id, blocks, m, status, first, last, now);
    MergeCarries(st, id, m, status, first, last, now);
    assert AsideAt(st, next, id, false);
    AfterMergeAside(next, id, st.sessions[id], status, now);
    AsideTwice(st, next, AfterMerge(next, id, st.sessions[id], status, now), id, false);
  }

  lemma {:induction false} ReconcileAllAside(st: State, ids: seq<string>, g: Groups, first: nat, last: nat, now: nat,
                                             canonical: Option<Canonical>, o: string)
    requires SessionsOk(st) && ToReconcile(st, ids)
    ensures AsideAt(st, ReconcileAll(st, ids, g, first, last, now, canonical).state, o, false)
    decreases |ids|
  {
    hide SessionsOk, ReconcileOne, OnlyTouches, SyncPollJob, ToReconcile, AsideAt;
    if ids == [] {
      SyncSame(st, now);
      SameBooksAside(st, SyncPollJob(st, now), o);
    } else {
      PendingFirst(st, ids);
      var one := ReconcileOne(st, ids[0], g, first, last, now, canonical);
      ReconcileOneKeeps(st, ids[0], g, first, last, now, canonical);
      ReconcileOneAside(st, ids[0], g, first, last, now, canonical, o);
      if one.error.None? {
        PendingAfterOne(st, one.state, ids);
        ReconcileAllAside(one.state, ids[1..], g, first, last, now, canonical, o);
        OneKeepsKeys(st, one.state, ids[0], o);
        AsideOn(st, one.state, ReconcileAll(one.state, ids[1..], g, first, last, now, canonical).state, o, false);
      }
    }
  }

  lemma OneKeepsKeys(st: State, after: State, id: string, o: string)
    requires OnlyTouches(st, after, id) && id in st.sessions
    ensures o in after.sessions ==> o in st.sessions
  {
    if o != id {
      assert Untouched(st, after, o);
    }
  }

  lemma AsideOn(a: State, b: State, c: State, o: string, retried: bool)
    requires AsideAt(a, b, o, retried) && AsideAt(b, c, o, retried) && (o in b.sessions ==> o in a.sessions)
    ensures AsideAt(a, c, o, retried)
  {
  }

  lemma PollAside(st: State, latest: nat, logs: seq<Log>, now: nat, canonical: Option<Canonical>, o: string)
    requires Safe(st)
    ensures AsideAt(st, Poll(st, latest, logs, now, canonical).state, o, false)
  {
    hide Plan, Reconcile, AsideAt, Safe;
    SameBooksAside(st, st, o);
    var plan := Plan(st, latest);
    if plan.Some? {
      ReconcileAside(st, logs, plan.value.first, plan.value.last, now, canonical, o);
    }
  }

  lemma ReconcileAside(st: State, logs: seq<Log>, first: nat, last: nat, now: nat, canonical: Option<Canonical>, o: string)
    requires Safe(st)
    ensures AsideAt(st, Reconcile(st, logs, first, last, now, canonical).state, o, false)
  {
    hide Groupable, ActiveIds, ReconcileAll, AsideAt, SessionsOk, PollsAreKept, ToReconcile;
    var moved := st.(scanned := Some(last));
    SameBooksAside(st, st, o);
    MovingTheScan(st, last);
    SameBooksAside(st, moved, o);
    ReconcileAllAside(moved, ActiveIds(st), Grouped(logs), first, last, now, canonical, o);
    AsideOn(st, moved, ReconcileAll(moved, ActiveIds(st), Grouped(logs), first, last, now, canonical).state, o, false);
  }

  lemma CreateAside(st: State, id: string, claimId: string, gross: nat, minimum: nat, paused: bool, now: nat, o: string)
    requires Safe(st) && id !in st.sessions
    ensures AsideAt(st, Create(st, id, claimId, gross, minimum, paused, now).state, o, false)
  {
    hide Create, Claimed, SyncPollJob, SessionsOk, SessionOk, PollsAreKept, OnlyTouches;
    SafeParts(st);
    if paused || gross < minimum {
      CreateRefused(st, id, claimId, gross, minimum, paused, now);
      SameBooksAside(st, st, o);
    } else {
      var claimed := Claimed(st, id, claimId, gross, now);
      ClaimedFacts(st, id, claimId, gross, now);
      CreateIsClaimed(st, id, claimId, gross, minimum, now);
      NewIsAwaiting(st, id, claimId, gross, now);
      SyncSame(claimed, now);
      if o != id {
        TouchedAside(st, claimed, id, o);
      }
    }
  }

  lemma SafeParts(st: State)
    requires Safe(st)
    ensures SessionsOk(st)
  {
  }

  lemma CreateRefused(st: State, id: string, claimId: string, gross: nat, minimum: nat, paused: bool, now: nat)
    requires paused || gross < minimum
    ensures Create(st, id, claimId, gross, minimum, paused, now).state == st
  {
  }

  lemma NewIsAwaiting(st: State, id: string, claimId: string, gross: nat, now: nat)
    requires SessionsOk(st) && id !in st.sessions
    ensures var claimed := Claimed(st, id, claimId, gross, now);
      id in claimed.sessions && claimed.sessions[id].state == AwaitingPayment && claimed.sessions[id].automaton.None?
  {
    hide ApplyEvent;
    var s := NewSession(st, claimId, gross, now);
    var base := st.(sessions := st.sessions[id := s], start := st.start[id := s.cursor], covered := st.covered[id := {}]);
    NoTrailYet(st, id);
    CreationMove(base, id, s, now);
  }

  lemma RefundAside(st: State, id: string, now: nat, o: string)
    requires Safe(st)
    ensures AsideAt(st, FinalizeRefund(st, id, now).state, o, false)
  {
    SameBooksAside(st, st, o);
    if id in st.sessions {
      assert SessionOk(st, id);
      RefundEffect(st, id, now);
      hide FinalizeRefund, LastEntries, Safe, SessionOk;
    }
  }

  lemma EnqueueAside(st: State, mid: State, id: string, now: nat, o: string, retried: bool)
    requires AsideAt(st, mid, o, retried)
    ensures AsideAt(st, EnqueueSpawn(mid, id, now), o, retried)
  {
    EnqueueSame(mid, id, now);
  }

  /// The steps that are not a spawn's own leave every session aside.
  lemma StepAside(st: State, step: Step, o: string)
    requires Safe(st) && Enabled(st, step)
    requires !step.MarkFailed? && !step.AttachAutomaton? && (step.Signal? ==> step.event == SessionExpired)
    ensures AsideAt(st, After(st, step), o, step.RetrySession? && step.id == o)
  {
    hide SessionsOk, PollsAreKept, Create, Poll, ApplyEvent, FinalizeRefund, Attach, Active, EnqueueSpawn, AsideAt,
      LeaseDue, FinishSuccess, FinishFailure, PollJobId, SpawnJobId;
    match step
    case CreateSession(id, claimId, gross, minimum, paused, now) => CreateAside(st, id, claimId, gross, minimum, paused, now, o);
    case PollPayments(latest, logs, now, canonical) => PollAside(st, latest, logs, now, canonical, o);
    case Signal(id, actor, now, event, reason) => EventAside(st, id, actor, now, SessionExpired, reason, o);
    case RetrySession(id, actor, now, reason) =>
      EventAside(st, id, actor, now, RetryRequested, reason, o);
      EnqueueAside(st, ApplyEvent(st, id, actor, now, RetryRequested, reason).state, id, now, o, id == o);
    case RefundSession(id, now) => RefundAside(st, id, now, o);
    case _ =>
      JobStepsKeepBooks(st, step);
      SameBooksAside(st, After(st, step), o);
  }
}
