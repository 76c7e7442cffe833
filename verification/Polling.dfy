/// Payment polling keeps the invariants, whatever the node answers and wherever it stops.
module Polling {
  import opened Deposits
  import opened Escrow
  import opened Evidence
  import opened Factory
  import opened Invariants
  import opened Ledger
  import opened Limits
  import opened Options
  import opened Order
  import opened Scheduler

  // ---------------------------------------------------------------- frames

  lemma TouchesTwice(a: State, b: State, c: State, id: string)
    requires OnlyTouches(a, b, id) && OnlyTouches(b, c, id)
    ensures OnlyTouches(a, c, id)
  {
    forall o | o != id ensures Untouched(a, c, o) {
      assert Untouched(a, b, o) && Untouched(b, c, o);
    }
  }

  /// A change of jobs or of the scan position touches no session.
  predicate SameBooks(a: State, b: State) {
    a.sessions == b.sessions && a.claims == b.claims && a.audit == b.audit && a.history == b.history
    && a.start == b.start && a.covered == b.covered
  }

  lemma SameBooksKeep(a: State, b: State, id: string)
    requires SameBooks(a, b)
    ensures OnlyTouches(a, b, id) && (SessionOk(a, id) ==> SessionOk(b, id)) && (RecordsOk(a, id) ==> RecordsOk(b, id))
  {
  }

  lemma SameBooksStayOk(a: State, b: State)
    requires SameBooks(a, b) && SessionsOk(a)
    ensures SessionsOk(b)
  {
    hide SessionOk;
    forall id | id in b.sessions ensures SessionOk(b, id) {
      SameBooksKeep(a, b, id);
    }
  }

  // ---------------------------------------------------------------- one merge

  lemma MergeFacts(paid: nat, cursor: Option<nat>, evidence: seq<Proof>, blocks: Option<Blocks>)
    requires Ascending(evidence) && paid == Sum(evidence) < U128_LIMIT
    ensures var m := Merge(paid, cursor, evidence, blocks);
      m.Some? ==> Ascending(m.value.evidence) && m.value.total == Sum(m.value.evidence) < U128_LIMIT && m.value.total >= paid
  {
    if blocks.Some? {
      ArrangedUnion(evidence, blocks.value);
    }
  }

  function BookedSession(s: Session, m: Merged, status: PaymentStatus, last: nat, now: nat): Session {
    WithFlags(MergedSession(s, m, status, last, now), now)
  }

  function BookedClaim(s: Session, c: Claim, m: Merged, status: PaymentStatus, last: nat, now: nat): Claim {
    MergedClaim(c, m, status, last, now).(refundable := BookedSession(s, m, status, last, now).refundable, updatedAt := now)
  }

  function Booked(st: State, id: string, m: Merged, status: PaymentStatus, first: nat, last: nat, now: nat): State
    requires id in st.sessions && id in st.claims
  {
    st.(sessions := st.sessions[id := BookedSession(st.sessions[id], m, status, last, now)],
        claims := st.claims[id := BookedClaim(st.sessions[id], st.claims[id], m, status, last, now)],
        covered := st.covered[id := CoveredBy(st, id) + Window(first, last)])
  }

  lemma MergeCarries(st: State, id: string, m: Merged, status: PaymentStatus, first: nat, last: nat, now: nat)
    requires id in st.sessions && id in st.claims
    ensures WithMerge(st, id, m, status, first, last, now) == Booked(st, id, m, status, first, last, now)
  {
    var s := MergedSession(st.sessions[id], m, status, last, now);
    var c := MergedClaim(st.claims[id], m, status, last, now);
    Overwrite(st.sessions, id, s, WithFlags(s, now));
    Overwrite(st.claims, id, c, c.(refundable := WithFlags(s, now).refundable, updatedAt := now));
  }

  lemma BookedIsOk(s: Session, c: Claim, blocks: Option<Blocks>, m: Merged, status: PaymentStatus, last: nat, now: nat)
    requires BooksOk(s, c) && AmountsOk(s, c) && s.state == AwaitingPayment
    requires Merge(c.paid, c.cursor, c.evidence, blocks) == Some(m)
    requires status == StatusFor(m.total, s.gross) || (status == Partial && m.total >= s.gross)
    ensures var t, d := BookedSession(s, m, status, last, now), BookedClaim(s, c, m, status, last, now);
      BooksOk(t, d) && AmountsOk(t, d) && t.state == AwaitingPayment && t.payment == status && t.expiresAt == s.expiresAt
      && t.gross == s.gross
  {
    MergeFacts(c.paid, c.cursor, c.evidence, blocks);
    hide Merge, Ascending;
  }

  lemma VerdictIsSound(id: string, s: Session, m: Merged, canonical: Option<Canonical>)
    ensures var v := Verdict(id, s, m, canonical);
      v.Some? ==> v.value == StatusFor(m.total, s.gross) || (v.value == Partial && m.total >= s.gross)
  {
  }

  lemma MergeKeepsRecords(st: State, id: string, blocks: Option<Blocks>, m: Merged, status: PaymentStatus, first: nat, last: nat, now: nat)
    requires RecordsOk(st, id) && st.sessions[id].state == AwaitingPayment
    requires Merge(st.claims[id].paid, st.claims[id].cursor, st.claims[id].evidence, blocks) == Some(m)
    requires status == StatusFor(m.total, st.sessions[id].gross) || (status == Partial && m.total >= st.sessions[id].gross)
    ensures var after := WithMerge(st, id, m, status, first, last, now);
      RecordsOk(after, id) && OnlyTouches(st, after, id) && after.jobs == st.jobs
      && after.sessions[id].state == AwaitingPayment && after.sessions[id].payment == status
      && after.sessions[id].expiresAt == st.sessions[id].expiresAt
  {
    MergeCarries(st, id, m, status, first, last, now);
    BookedIsOk(st.sessions[id], st.claims[id], blocks, m, status, last, now);
    hide BooksOk, AmountsOk, Merge, BookedSession, BookedClaim, WithMerge;
  }

  // ---------------------------------------------------------------- what follows a merge

  lemma ExpiryMoves(st: State, id: string, now: nat, reason: string)
    requires RecordsOk(st, id) && st.sessions[id].state == AwaitingPayment && now > st.sessions[id].expiresAt
    requires st.sessions[id].payment != Refunded
    ensures var after := ApplyEvent(st, id, System, now, SessionExpired, reason).state;
      SessionOk(after, id) && OnlyTouches(st, after, id) && after.jobs == st.jobs && after.sessions[id].state == Expired
      && after.sessions[id].payment == st.sessions[id].payment
  {
    StoredTrail(st, id);
    EventKeepsRecords(st, id, System, now, SessionExpired, reason);
    MoveEffect(st, id, System, now, SessionExpired, reason);
    hide TrailOk, AmountsOk, BooksOk;
  }

  lemma DetectionMoves(st: State, id: string, now: nat, reason: string)
    requires RecordsOk(st, id) && st.sessions[id].state == AwaitingPayment && st.sessions[id].payment == Paid
    ensures var after := ApplyEvent(st, id, System, now, PaymentObserved, reason).state;
      SessionOk(after, id) && OnlyTouches(st, after, id) && after.jobs == st.jobs && after.sessions[id].state == PaymentDetected
      && after.sessions[id].payment == Paid
  {
    StoredTrail(st, id);
    EventKeepsRecords(st, id, System, now, PaymentObserved, reason);
    MoveEffect(st, id, System, now, PaymentObserved, reason);
    hide TrailOk, AmountsOk, BooksOk;
  }

  lemma AfterMergeIsOk(st: State, id: string, was: Session, status: PaymentStatus, now: nat)
    requires RecordsOk(st, id) && st.sessions[id].state == AwaitingPayment && st.sessions[id].payment == status != Refunded
    requires was.state == AwaitingPayment && was.expiresAt == st.sessions[id].expiresAt
    ensures var after := AfterMerge(st, id, was, status, now);
      SessionOk(after, id) && OnlyTouches(st, after, id)
      && (after.jobs == st.jobs || after.jobs == EnqueueSpawn(st, id, now).jobs)
      && after.sessions[id].payment == status
  {
    hide RecordsOk, ApplyEvent, EnqueueSpawn;
    if now > was.expiresAt {
      ExpiryMoves(st, id, now, "payment scan observed expired session");
    } else if status == Paid {
      DetectionMoves(st, id, now, "payment detected from Base logs");
      var moved := ApplyEvent(st, id, System, now, PaymentObserved, "payment detected from Base logs").state;
      EnqueueSame(moved, id, now);
      SameBooksKeep(moved, EnqueueSpawn(moved, id, now), id);
      TouchesTwice(st, moved, EnqueueSpawn(moved, id, now), id);
      EnqueueReadsJobs(st, moved, id, now);
    } else {
      StillAwaiting(st, id);
    }
  }

  lemma StillAwaiting(st: State, id: string)
    requires RecordsOk(st, id) && st.sessions[id].state == AwaitingPayment
    requires st.sessions[id].payment == Unpaid || st.sessions[id].payment == Partial
    ensures SessionOk(st, id) && OnlyTouches(st, st, id)
  {
  }

  lemma EnqueueSame(st: State, id: string, now: nat)
    ensures SameBooks(st, EnqueueSpawn(st, id, now))
  {
  }

  lemma EnqueueReadsJobs(a: State, b: State, id: string, now: nat)
    requires a.jobs == b.jobs
    ensures EnqueueSpawn(a, id, now).jobs == EnqueueSpawn(b, id, now).jobs
  {
  }

  // ---------------------------------------------------------------- one session, then all

  lemma MergedKeeps(st: State, id: string, blocks: Option<Blocks>, m: Merged, status: PaymentStatus, first: nat, last: nat, now: nat)
    requires SessionsOk(st) && id in Active(st) && id in st.claims
    requires Merge(st.claims[id].paid, st.claims[id].cursor, st.claims[id].evidence, blocks) == Some(m)
    requires status == StatusFor(m.total, st.sessions[id].gross) || (status == Partial && m.total >= st.sessions[id].gross)
    ensures var after := AfterMerge(WithMerge(st, id, m, status, first, last, now), id, st.sessions[id], status, now);
      SessionsOk(after) && OnlyTouches(st, after, id)
      && (after.jobs == st.jobs || after.jobs == EnqueueSpawn(st, id, now).jobs)
  {
    assert SessionOk(st, id);
    var next := WithMerge(st, id, m, status, first, last, now);
    hide Merge, EnqueueSpawn, AfterMerge, WithMerge, SessionsOk, BooksOk, AmountsOk, TrailOk, Untouched;
    MergeKeepsRecords(st, id, blocks, m, status, first, last, now);
    AfterMergeIsOk(next, id, st.sessions[id], status, now);
    EnqueueReadsJobs(st, next, id, now);
    TouchesTwice(st, next, AfterMerge(next, id, st.sessions[id], status, now), id);
    OneSessionStaysOk(st, AfterMerge(next, id, st.sessions[id], status, now), id);
  }

  /// Reconciling one polled session leaves every session in order, or changes nothing.
  lemma ReconcileOneKeeps(st: State, id: string, g: Groups, first: nat, last: nat, now: nat, canonical: Option<Canonical>)
    requires SessionsOk(st) && id in Active(st)
    ensures var one := ReconcileOne(st, id, g, first, last, now, canonical);
      SessionsOk(one.state) && OnlyTouches(st, one.state, id)
      && (one.error.Some? ==> one.state == st)
      && (one.state.jobs == st.jobs || one.state.jobs == EnqueueSpawn(st, id, now).jobs)
  {
    SameBooksKeep(st, st, id);
    assert SessionOk(st, id);
    hide SessionsOk, OnlyTouches, SessionOk, ReconcileOne, EnqueueSpawn, WithMerge, AfterMerge;
    var m, status := ReconcileOneCases(st, id, g, first, last, now, canonical);
    if ReconcileOne(st, id, g, first, last, now, canonical).error.None? {
      MergedKeeps(st, id, ScannedFor(g, st.sessions[id].claimId), m, status, first, last, now);
    }
  }

  /// Success is a merge with a sound verdict; failure is no change.
  lemma ReconcileOneCases(st: State, id: string, g: Groups, first: nat, last: nat, now: nat, canonical: Option<Canonical>)
    returns (m: Merged, status: PaymentStatus)
    requires id in Active(st)
    ensures var one := ReconcileOne(st, id, g, first, last, now, canonical);
      one.error.Some? ==> one.state == st
    ensures var one := ReconcileOne(st, id, g, first, last, now, canonical);
      one.error.None? ==>
        id in st.claims
        && Merge(st.claims[id].paid, st.claims[id].cursor, st.claims[id].evidence, ScannedFor(g, st.sessions[id].claimId)) == Some(m)
        && (status == StatusFor(m.total, st.sessions[id].gross) || (status == Partial && m.total >= st.sessions[id].gross))
        && one.state == AfterMerge(WithMerge(st, id, m, status, first, last, now), id, st.sessions[id], status, now)
  {
    hide Merge, Verdict, AfterMerge, WithMerge;
    m, status := Merged([], 0, 0, None), Unpaid;
    if id in st.claims {
      var s, c := st.sessions[id], st.claims[id];
      var merged := Merge(c.paid, c.cursor, c.evidence, ScannedFor(g, s.claimId));
      if merged.Some? {
        m := merged.value;
        VerdictIsSound(id, s, m, canonical);
        status := Verdict(id, s, m, canonical).GetOr(Unpaid);
      }
    }
  }

  /// The ids still to be reconciled are polled sessions, each listed once.
  predicate ToReconcile(st: State, ids: seq<string>) {
    (forall id :: id in ids ==> id in Active(st)) && forall i, j :: 0 <= i < j < |ids| ==> ids[i] != ids[j]
  }

  lemma PendingAfterOne(st: State, after: State, ids: seq<string>)
    requires ids != [] && ToReconcile(st, ids) && OnlyTouches(st, after, ids[0])
    ensures ToReconcile(after, ids[1..])
  {
    forall id | id in ids[1..] ensures id in Active(after) {
      var i :| 0 <= i < |ids| - 1 && ids[1..][i] == id;
      assert ids[0] != ids[i + 1] && id in ids;
      assert Untouched(st, after, id);
    }
  }

  lemma ActiveShrinks(st: State, after: State, id: string)
    requires OnlyTouches(st, after, id) && id in Active(st)
    ensures Active(after) <= Active(st)
  {
    forall o | o in Active(after) ensures o in Active(st) {
      if o != id {
        assert Untouched(st, after, o);
      }
    }
  }

  lemma FewerPolls(st: State, after: State, id: string, now: nat)
    requires PollsAreKept(st) && Active(after) <= Active(st)
    requires after.jobs == st.jobs || after.jobs == EnqueueSpawn(st, id, now).jobs
    ensures PollsAreKept(after)
  {
    EnqueueKeepsPolls(st, id, now);
    EnqueueSame(st, id, now);
    hide LeasesHaveTimes, PollJobReady, EnqueueSpawn;
  }

  /// The whole loop, including one that stops half-way.
  lemma {:induction false} ReconcileAllKeeps(st: State, ids: seq<string>, g: Groups, first: nat, last: nat, now: nat,
                                             canonical: Option<Canonical>)
    requires SessionsOk(st) && PollsAreKept(st) && ToReconcile(st, ids)
    ensures var all := ReconcileAll(st, ids, g, first, last, now, canonical);
      SessionsOk(all.state) && PollsAreKept(all.state)
    decreases |ids|
  {
    hide SessionsOk, PollsAreKept, ReconcileOne, OnlyTouches, SyncPollJob, EnqueueSpawn;
    if ids == [] {
      KeptPollsHaveTimes(st);
      SyncKeepsPolls(st, now);
      SyncSame(st, now);
      SameBooksStayOk(st, SyncPollJob(st, now));
    } else {
      var one := ReconcileOne(st, ids[0], g, first, last, now, canonical);
      ReconcileOneKeeps(st, ids[0], g, first, last, now, canonical);
      ActiveShrinks(st, one.state, ids[0]);
      FewerPolls(st, one.state, ids[0], now);
      if one.error.None? {
        PendingAfterOne(st, one.state, ids);
        ReconcileAllKeeps(one.state, ids[1..], g, first, last, now, canonical);
      }
    }
  }

  lemma KeptPollsHaveTimes(st: State)
    requires PollsAreKept(st)
    ensures LeasesHaveTimes(st.jobs)
  {
  }

  lemma SyncSame(st: State, now: nat)
    ensures SameBooks(st, SyncPollJob(st, now))
  {
  }

  lemma ActiveIdsPending(st: State)
    ensures ToReconcile(st, ActiveIds(st))
    ensures forall id :: id in ActiveIds(st) <==> id in Active(st)
  {
    var keys := set id | id in Active(st) :: Key(0, id);
    var list, ids := Listed(keys), ActiveIds(st);
    ListedFacts(keys);
    forall id ensures id in ids <==> id in Active(st) {
      if id in Active(st) {
        assert Key(0, id) in list;
        var i :| 0 <= i < |list| && list[i] == Key(0, id);
        assert ids[i] == id;
      }
      if id in ids {
        var i :| 0 <= i < |ids| && ids[i] == id;
        assert list[i] in keys;
      }
    }
    forall i, j | 0 <= i < j < |ids| ensures ids[i] != ids[j] {
      assert list[i] in keys && list[j] in keys;
      EarlierIsTotal(list[i], list[j]);
    }
  }

  /// A poll keeps every invariant whatever the node reports, and whether or not it succeeds.
  lemma PollKeeps(st: State, latest: nat, logs: seq<Log>, now: nat, canonical: Option<Canonical>)
    requires SessionsOk(st) && PollsAreKept(st)
    ensures var after := Poll(st, latest, logs, now, canonical).state;
      SessionsOk(after) && PollsAreKept(after)
  {
    var plan := Plan(st, latest);
    if plan.Some? {
      hide SessionsOk, PollsAreKept, ActiveIds, ReconcileAll, Plan, Groupable;
      MovingTheScan(st, plan.value.last);
      ReconcileAllKeeps(st.(scanned := Some(plan.value.last)), ActiveIds(st), Grouped(logs),
                        plan.value.first, plan.value.last, now, canonical);
    }
  }

  lemma MovingTheScan(st: State, last: nat)
    requires SessionsOk(st) && PollsAreKept(st)
    ensures var moved := st.(scanned := Some(last));
      SessionsOk(moved) && PollsAreKept(moved) && ActiveIds(moved) == ActiveIds(st) && ToReconcile(moved, ActiveIds(st))
  {
    hide LeasesHaveTimes, PollJobReady, SessionsOk;
    var moved := st.(scanned := Some(last));
    SameBooksStayOk(st, moved);
    ActiveIdsPending(moved);
    assert Active(moved) == Active(st);
  }
}
