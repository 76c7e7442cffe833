/// What one poll decides about every session it polls, told by the claim's evidence and the node's
/// answers alone (backend/factory/src/escrow.rs).
module Settlement {
  import opened Coverage
  import opened Deposits
  import opened Escrow
  import opened Evidence
  import opened Factory
  import opened FactoryRuns
  import opened Invariants
  import opened Ledger
  import opened Options
  import opened Polling
  import opened Scheduler
  import opened SpawnJobs

  // ---------------------------------------------------------------- the decision

  /// The node confirms the block of every proof, under the proof's hash.
  predicate Canonically(id: string, evidence: seq<Proof>, canonical: Canonical) {
    forall p :: p in evidence ==> canonical(id, p.block).Some? && SameUpToCase(canonical(id, p.block).value, p.hash)
  }

  /// The node gives another hash for the block of some proof.
  predicate Disputed(id: string, evidence: seq<Proof>, canonical: Canonical) {
    exists p :: p in evidence && canonical(id, p.block).Some? && !SameUpToCase(canonical(id, p.block).value, p.hash)
  }

  /// The payment that a claim amounts to: paid exactly when the price is reached and, if the node was
  /// asked, no block of the evidence has left the chain; what a dispute holds back counts as partial.
  predicate Amounts(id: string, gross: nat, payment: PaymentStatus, paid: nat, evidence: seq<Proof>, canonical: Option<Canonical>) {
    (payment == Paid <==> paid >= gross && (canonical.Some? ==> Canonically(id, evidence, canonical.value)))
    && (payment == Partial <==>
          0 < paid < gross || (paid >= gross && canonical.Some? && Disputed(id, evidence, canonical.value)))
    && (payment == Unpaid <==> paid == 0 && gross > 0)
  }

  lemma {:induction false} ConfirmedExactly(id: string, evidence: seq<Proof>, canonical: Canonical)
    ensures Confirmed(id, evidence, canonical) == Some(true) <==> Canonically(id, evidence, canonical)
    ensures Confirmed(id, evidence, canonical) == Some(false) ==> Disputed(id, evidence, canonical)
    decreases |evidence|
  {
    if evidence != [] {
      var p := evidence[0];
      assert evidence == [p] + evidence[1..];
      if canonical(id, p.block).Some? {
        SameHashExactly(canonical(id, p.block).value, p.hash);
        ConfirmedExactly(id, evidence[1..], canonical);
      }
    }
  }

  lemma NotBoth(id: string, evidence: seq<Proof>, canonical: Canonical)
    ensures !(Canonically(id, evidence, canonical) && Disputed(id, evidence, canonical))
  {
  }

  lemma VerdictAmounts(id: string, s: Session, m: Merged, canonical: Option<Canonical>)
    requires Verdict(id, s, m, canonical).Some?
    ensures Amounts(id, s.gross, Verdict(id, s, m, canonical).value, m.total, m.evidence, canonical)
  {
    hide Canonically, Disputed, Confirmed;
    if canonical.Some? {
      ConfirmedExactly(id, m.evidence, canonical.value);
      NotBoth(id, m.evidence, canonical.value);
    }
  }

  // ---------------------------------------------------------------- one session

  function StateAfter(was: Session, payment: PaymentStatus, now: nat): SessionState {
    if now > was.expiresAt then Expired else if payment == Paid then PaymentDetected else AwaitingPayment
  }

  /// The claim shows its last proof and what the scan added to `before`.
  predicate Shows(c: Claim, before: nat) {
    c.increment == (if c.paid > before then Some(c.paid - before) else None)
    && (if c.evidence == [] then c.evidenceBlock.None? && c.evidenceHash.None?
        else c.evidenceBlock == Some(c.evidence[|c.evidence| - 1].block) && c.evidenceHash == Some(c.evidence[|c.evidence| - 1].hash))
  }

  /// Session and claim carry the time of the poll.
  predicate Stamped(st: State, id: string, now: nat) {
    id in st.sessions && id in st.claims && st.sessions[id].updatedAt == now && st.claims[id].updatedAt == now
  }

  /// Session and claim after a poll, told by the session and the amount before it.
  ghost predicate Settled(was: Session, before: nat, after: State, id: string, now: nat, canonical: Option<Canonical>) {
    Stamped(after, id, now) && Shows(after.claims[id], before)
    && after.claims[id].payment == after.sessions[id].payment
    && Amounts(id, was.gross, after.sessions[id].payment, after.claims[id].paid, after.claims[id].evidence, canonical)
    && after.sessions[id].state == StateAfter(was, after.sessions[id].payment, now)
    && (after.sessions[id].state == PaymentDetected ==> SpawnDue(after.jobs, id, now))
  }

  lemma MergedState(st: State, id: string, was: Session, status: PaymentStatus, now: nat)
    requires RecordsOk(st, id) && st.sessions[id].state == AwaitingPayment && st.sessions[id].payment == status != Refunded
    requires was.state == AwaitingPayment && was.expiresAt == st.sessions[id].expiresAt
    ensures var after := AfterMerge(st, id, was, status, now);
      id in after.sessions && after.sessions[id].state == StateAfter(was, status, now)
      && after.jobs == if now <= was.expiresAt && status == Paid then EnqueueSpawn(st, id, now).jobs else st.jobs
  {
    StoredTrail(st, id);
    hide RecordsOk, ApplyEvent, EnqueueSpawn;
    if now > was.expiresAt {
      ExpiryMoves(st, id, now, "payment scan observed expired session");
    } else if status == Paid {
      DetectionMoves(st, id, now, "payment detected from Base logs");
      var moved := ApplyEvent(st, id, System, now, PaymentObserved, "payment detected from Base logs").state;
      EnqueueSame(moved, id, now);
      EnqueueReadsJobs(st, moved, id, now);
    }
  }

  lemma OneCases(st: State, id: string, g: Groups, first: nat, last: nat, now: nat, canonical: Option<Canonical>)
    returns (m: Merged, status: PaymentStatus)
    requires SessionsOk(st) && id in Active(st) && ReconcileOne(st, id, g, first, last, now, canonical).error.None?
    ensures id in st.claims
    ensures Merge(st.claims[id].paid, st.claims[id].cursor, st.claims[id].evidence, ScannedFor(g, st.sessions[id].claimId)) == Some(m)
    ensures Verdict(id, st.sessions[id], m, canonical) == Some(status)
    ensures ReconcileOne(st, id, g, first, last, now, canonical).state
      == AfterMerge(WithMerge(st, id, m, status, first, last, now), id, st.sessions[id], status, now)
  {
    hide Merge, Verdict, AfterMerge, WithMerge, SessionsOk;
    var s, c := st.sessions[id], st.claims[id];
    m := Merge(c.paid, c.cursor, c.evidence, ScannedFor(g, s.claimId)).value;
    status := Verdict(id, s, m, canonical).value;
  }

  /// Success is a merge with its verdict.
  lemma OneSettles(st: State, id: string, g: Groups, first: nat, last: nat, now: nat, canonical: Option<Canonical>)
    requires SessionsOk(st) && id in Active(st) && ReconcileOne(st, id, g, first, last, now, canonical).error.None?
    ensures id in st.claims
    ensures var after := ReconcileOne(st, id, g, first, last, now, canonical).state;
      Settled(st.sessions[id], st.claims[id].paid, after, id, now, canonical)
      && (after.sessions[id].state == PaymentDetected ==> after.jobs == EnqueueSpawn(st, id, now).jobs)
      && (after.sessions[id].state != PaymentDetected ==> after.jobs == st.jobs)
  {
    hide ReconcileOne, SessionsOk, Merge, Verdict, AfterMerge, WithMerge, RecordsOk, Amounts, EnqueueSpawn, SpawnDue;
    StoredParts(st, id);
    var m, status := OneCases(st, id, g, first, last, now, canonical);
    var s, merged := st.sessions[id], WithMerge(st, id, m, status, first, last, now);
    VerdictIsSound(id, s, m, canonical);
    VerdictAmounts(id, s, m, canonical);
    MergeKeepsRecords(st, id, ScannedFor(g, s.claimId), m, status, first, last, now);
    MergedClaimIs(st, id, m, status, first, last, now);
    MergedState(merged, id, s, status, now);
    AfterMergeIsOk(merged, id, s, status, now);
    AfterMergeKeepsLedger(merged, id, s, status, now);
    AgreeingBooks(AfterMerge(merged, id, s, status, now), id);
    IncrementIs(st.claims[id].paid, st.claims[id].cursor, st.claims[id].evidence, ScannedFor(g, s.claimId));
    AfterMergeShows(merged, id, s, status, now, st.claims[id].paid);
    MergedStamped(st, id, m, status, first, last, now);
    AfterMergeStamped(merged, id, s, status, now);
    EnqueueReadsJobs(st, merged, id, now);
    EnqueueMakesDue(st, id, now);
  }

  lemma MergedClaimIs(st: State, id: string, m: Merged, status: PaymentStatus, first: nat, last: nat, now: nat)
    requires id in st.sessions && id in st.claims
    ensures var after := WithMerge(st, id, m, status, first, last, now);
      id in after.claims && after.claims[id].paid == m.total && after.claims[id].evidence == m.evidence
      && after.claims[id].increment == (if m.increment > 0 then Some(m.increment) else None)
      && after.claims[id].evidenceBlock == (if m.evidence != [] then Some(m.evidence[|m.evidence| - 1].block) else None)
      && after.claims[id].evidenceHash == (if m.evidence != [] then Some(m.evidence[|m.evidence| - 1].hash) else None)
  {
  }

  lemma IncrementIs(paid: nat, cursor: Option<nat>, evidence: seq<Proof>, blocks: Option<Blocks>)
    ensures Merge(paid, cursor, evidence, blocks).Some? ==>
      Merge(paid, cursor, evidence, blocks).value.total == paid + Merge(paid, cursor, evidence, blocks).value.increment
  {
    hide Arranged, Fresh, HashesKept;
  }

  /// What follows a merge leaves what the claim shows.
  lemma AfterMergeShows(st: State, id: string, was: Session, status: PaymentStatus, now: nat, before: nat)
    requires RecordsOk(st, id) && Shows(st.claims[id], before)
    ensures var after := AfterMerge(st, id, was, status, now); id in after.claims && Shows(after.claims[id], before)
  {
    hide RecordsOk, ApplyEvent, EnqueueSpawn;
    StoredTrail(st, id);
    var moved := ApplyEvent(st, id, System, now, PaymentObserved, "payment detected from Base logs").state;
    var queued := EnqueueSpawn(moved, id, now);
    EventShows(st, id, now, PaymentObserved, "payment detected from Base logs", before);
    EventKeepsRecords(st, id, System, now, PaymentObserved, "payment detected from Base logs");
    EnqueueSame(moved, id, now);
    SameBooksKeep(moved, queued, id);
    EventShows(st, id, now, SessionExpired, "payment scan observed expired session", before);
    EventShows(queued, id, now, SessionExpired, "payment scan observed expired session", before);
  }

  lemma MergedStamped(st: State, id: string, m: Merged, status: PaymentStatus, first: nat, last: nat, now: nat)
    requires id in st.sessions && id in st.claims
    ensures Stamped(WithMerge(st, id, m, status, first, last, now), id, now)
  {
  }

  /// What follows a merge leaves the time.
  lemma AfterMergeStamped(st: State, id: string, was: Session, status: PaymentStatus, now: nat)
    requires RecordsOk(st, id) && Stamped(st, id, now)
    ensures Stamped(AfterMerge(st, id, was, status, now), id, now)
  {
    hide RecordsOk, ApplyEvent, EnqueueSpawn, Stamped;
    var moved := ApplyEvent(st, id, System, now, PaymentObserved, "payment detected from Base logs").state;
    var queued := EnqueueSpawn(moved, id, now);
    EventStamped(st, id, now, PaymentObserved, "payment detected from Base logs");
    EventKeepsRecords(st, id, System, now, PaymentObserved, "payment detected from Base logs");
    EnqueueSame(moved, id, now);
    SameBooksKeep(moved, queued, id);
    SameBooksStamped(moved, queued, id, now);
    EventStamped(st, id, now, SessionExpired, "payment scan observed expired session");
    EventStamped(queued, id, now, SessionExpired, "payment scan observed expired session");
  }

  lemma SameBooksStamped(a: State, b: State, id: string, now: nat)
    requires SameBooks(a, b) && Stamped(a, id, now)
    ensures Stamped(b, id, now)
  {
  }

  lemma EventStamped(st: State, id: string, now: nat, event: Event, reason: string)
    requires RecordsOk(st, id) && Stamped(st, id, now)
    ensures Stamped(ApplyEvent(st, id, System, now, event, reason).state, id, now)
  {
    hide TrailOk, AmountsOk, BooksOk, ApplyEvent, MoveOf, MovedTo, Stamped;
    StoredTrail(st, id);
    MoveEffect(st, id, System, now, event, reason);
    MoveShape(st.sessions[id], now, event);
    if MoveOf(st.sessions[id], now, event).Some? {
      MovedStamped(st, id, now, MoveOf(st.sessions[id], now, event).value, reason);
    }
  }

  lemma MovedStamped(st: State, id: string, now: nat, move: Edge, reason: string)
    requires Known(st, id) && move.Move?
    ensures Stamped(MovedTo(st, id, System, now, move, reason), id, now)
  {
    hide LastEntries;
  }

  lemma EventShows(st: State, id: string, now: nat, event: Event, reason: string, before: nat)
    requires RecordsOk(st, id) && Shows(st.claims[id], before)
    ensures var after := ApplyEvent(st, id, System, now, event, reason).state; id in after.claims && Shows(after.claims[id], before)
  {
    hide TrailOk, AmountsOk, BooksOk, ApplyEvent, MoveOf, MovedTo, Shows;
    StoredTrail(st, id);
    MoveEffect(st, id, System, now, event, reason);
    MoveShape(st.sessions[id], now, event);
    if MoveOf(st.sessions[id], now, event).Some? {
      MovedClaimShows(st, id, now, MoveOf(st.sessions[id], now, event).value, reason, before);
    }
  }

  lemma MovedClaimShows(st: State, id: string, now: nat, move: Edge, reason: string, before: nat)
    requires Known(st, id) && move.Move? && Shows(st.claims[id], before)
    ensures var after := MovedTo(st, id, System, now, move, reason); id in after.claims && Shows(after.claims[id], before)
  {
    hide LastEntries, Entered;
  }

  lemma AgreeingBooks(st: State, id: string)
    requires SessionOk(st, id)
    ensures id in st.sessions && id in st.claims && st.claims[id].payment == st.sessions[id].payment
  {
    hide AmountsOk, TrailOk;
  }

  // ---------------------------------------------------------------- all of them

  lemma SettledStays(was: Session, before: nat, a: State, b: State, id: string, now: nat, canonical: Option<Canonical>)
    requires Settled(was, before, a, id, now, canonical) && SameEntry(a.sessions, b.sessions, id) && SameEntry(a.claims, b.claims, id)
    requires SameEntry(a.jobs, b.jobs, "spawn-execution:" + id)
    ensures Settled(was, before, b, id, now, canonical)
  {
    hide Amounts;
  }

  lemma SyncLeavesSpawns(st: State, id: string, now: nat)
    ensures SameEntry(st.jobs, SyncPollJob(st, now).jobs, "spawn-execution:" + id)
  {
    PollJobIsOther(id);
    hide Active;
  }

  lemma OneLeavesSpawns(st: State, id: string, g: Groups, first: nat, last: nat, now: nat, canonical: Option<Canonical>, o: string)
    requires SessionsOk(st) && id in Active(st) && o != id
    ensures SameEntry(st.jobs, ReconcileOne(st, id, g, first, last, now, canonical).state.jobs, "spawn-execution:" + o)
  {
    hide ReconcileOne, EnqueueSpawn, SessionsOk, OnlyTouches;
    ReconcileOneKeeps(st, id, g, first, last, now, canonical);
    EnqueueMakesDue(st, id, now);
    OtherSpawnJob(id, o);
  }

  /// The session and its claim are as they were.
  ghost predicate Left(st: State, after: State, id: string) {
    SameEntry(st.sessions, after.sessions, id) && SameEntry(st.claims, after.claims, id)
  }

  /// In a loop that goes through, every session is settled; in one that stops, it is settled or left.
  lemma {:induction false} AllSettle(base: State, st: State, ids: seq<string>, g: Groups, first: nat, last: nat, now: nat,
                                     canonical: Option<Canonical>, id: string)
    requires SessionsOk(st) && ToReconcile(st, ids) && id in base.sessions && id in base.claims
    requires if id in ids then Left(base, st, id) else Settled(base.sessions[id], base.claims[id].paid, st, id, now, canonical)
    ensures var all := ReconcileAll(st, ids, g, first, last, now, canonical);
      Settled(base.sessions[id], base.claims[id].paid, all.state, id, now, canonical) || (all.error.Some? && Left(base, all.state, id))
    decreases |ids|
  {
    hide SessionsOk, ReconcileOne, OnlyTouches, SyncPollJob, ToReconcile, Settled;
    if ids == [] {
      SyncSame(st, now);
      SyncLeavesSpawns(st, id, now);
      SettledStays(base.sessions[id], base.claims[id].paid, st, SyncPollJob(st, now), id, now, canonical);
    } else {
      PendingFirst(st, ids);
      var one := ReconcileOne(st, ids[0], g, first, last, now, canonical);
      ReconcileOneKeeps(st, ids[0], g, first, last, now, canonical);
      if one.error.None? {
        PendingAfterOne(st, one.state, ids);
        AfterOneIs(base, st, ids, g, first, last, now, canonical, id);
        AllSettle(base, one.state, ids[1..], g, first, last, now, canonical, id);
      }
    }
  }

  lemma AfterOneIs(base: State, st: State, ids: seq<string>, g: Groups, first: nat, last: nat, now: nat,
                   canonical: Option<Canonical>, id: string)
    requires SessionsOk(st) && ids != [] && ToReconcile(st, ids) && id in base.sessions && id in base.claims
    requires if id in ids then Left(base, st, id) else Settled(base.sessions[id], base.claims[id].paid, st, id, now, canonical)
    requires ReconcileOne(st, ids[0], g, first, last, now, canonical).error.None?
    ensures var one := ReconcileOne(st, ids[0], g, first, last, now, canonical).state;
      if id in ids[1..] then Left(base, one, id) else Settled(base.sessions[id], base.claims[id].paid, one, id, now, canonical)
  {
    hide SessionsOk, ReconcileOne, Settled, EnqueueSpawn;
    PendingFirst(st, ids);
    OthersAreOthers(st, ids, id);
    var one := ReconcileOne(st, ids[0], g, first, last, now, canonical).state;
    ReconcileOneKeeps(st, ids[0], g, first, last, now, canonical);
    if id == ids[0] {
      OneSettles(st, id, g, first, last, now, canonical);
    } else {
      assert Untouched(st, one, id);
      if id !in ids {
        OneLeavesSpawns(st, ids[0], g, first, last, now, canonical, id);
        SettledStays(base.sessions[id], base.claims[id].paid, st, one, id, now, canonical);
      }
    }
  }

  lemma OthersAreOthers(st: State, ids: seq<string>, id: string)
    requires ids != [] && ToReconcile(st, ids)
    ensures id in ids <==> id == ids[0] || id in ids[1..]
    ensures id in ids[1..] ==> id != ids[0]
  {
    if id in ids[1..] {
      var i :| 0 <= i < |ids| - 1 && ids[1..][i] == id;
      assert ids[i + 1] == id && ids[0] != ids[i + 1];
    }
    assert ids == [ids[0]] + ids[1..];
  }

  /// Main result. A poll that goes through settles every session it polls: session and claim are paid
  /// exactly when the claim reaches the price on blocks that are still canonical, a session paid in
  /// time is ready to be spawned with its job due, and one past its deadline has expired. A poll that
  /// stops half-way has settled a session in this way or left it as it was.
  lemma PollSettles(st: State, latest: nat, logs: seq<Log>, now: nat, canonical: Option<Canonical>, id: string)
    requires Safe(st) && Plan(st, latest).Some? && id in Active(st)
    ensures id in st.claims
    ensures var poll := Poll(st, latest, logs, now, canonical);
      Settled(st.sessions[id], st.claims[id].paid, poll.state, id, now, canonical) || (poll.error.Some? && Left(st, poll.state, id))
  {
    hide Plan, Reconcile, Safe, Settled;
    var p := Plan(st, latest).value;
    ReconcileSettles(st, logs, p.first, p.last, now, canonical, id);
  }

  lemma ActiveIsStored(st: State, id: string)
    requires SessionsOk(st) && id in Active(st)
    ensures id in st.sessions && id in st.claims
  {
    assert SessionOk(st, id);
  }

  lemma ReconcileSettles(st: State, logs: seq<Log>, first: nat, last: nat, now: nat, canonical: Option<Canonical>, id: string)
    requires Safe(st) && id in Active(st)
    ensures id in st.claims
    ensures var all := Reconcile(st, logs, first, last, now, canonical);
      Settled(st.sessions[id], st.claims[id].paid, all.state, id, now, canonical) || (all.error.Some? && Left(st, all.state, id))
  {
    hide SessionsOk, PollsAreKept, ActiveIds, Active, ReconcileAll, Groupable, ToReconcile, Settled;
    var moved := st.(scanned := Some(last));
    MovingTheScan(st, last);
    ActiveIdsPending(st);
    ActiveIsStored(st, id);
    AllSettle(st, moved, ActiveIds(st), Grouped(logs), first, last, now, canonical, id);
  }
}
