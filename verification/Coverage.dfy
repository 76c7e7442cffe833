/// No deposit is missed and none is counted twice: what polling has established about the chain
/// after any run (backend/factory/src/escrow.rs).
module Coverage {
  import opened Deposits
  import opened Escrow
  import opened Evidence
  import opened Factory
  import opened FactoryRuns
  import opened Invariants
  import opened Ledger
  import opened Limits
  import opened Options
  import opened Polling
  import opened Scheduler

  /// The claim is the exact ledger of the windows merged into it, and every block between the
  /// cursor the session was created with and its cursor now lay in one of them.
  ghost predicate Exact(st: State, id: string, chain: seq<Log>) {
    Known(st, id)
    && Holds(st.claims[id].evidence, st.claims[id].paid, chain, st.sessions[id].claimId, st.covered[id])
    && (st.start[id].Some? ==>
          st.sessions[id].cursor.Some?
          && forall b :: st.start[id].value < b <= st.sessions[id].cursor.value ==> b in st.covered[id])
  }

  ghost predicate AllExact(st: State, chain: seq<Log>) {
    forall id :: id in st.sessions ==> Exact(st, id, chain)
  }

  lemma UntouchedStaysExact(st: State, after: State, o: string, chain: seq<Log>)
    requires Untouched(st, after, o) && Exact(st, o, chain)
    ensures Exact(after, o, chain)
  {
  }

  lemma OneStaysExact(st: State, after: State, id: string, chain: seq<Log>)
    requires AllExact(st, chain) && OnlyTouches(st, after, id)
    requires id in after.sessions ==> Exact(after, id, chain)
    ensures AllExact(after, chain)
  {
    hide Exact;
    forall o | o in after.sessions ensures Exact(after, o, chain) {
      if o != id {
        assert Untouched(st, after, o);
        UntouchedStaysExact(st, after, o, chain);
      }
    }
  }

  lemma SameBooksStayExact(a: State, b: State, chain: seq<Log>)
    requires SameBooks(a, b) && AllExact(a, chain)
    ensures AllExact(b, chain)
  {
    hide Exact;
    forall id | id in b.sessions ensures Exact(b, id, chain) {
      UntouchedStaysExact(a, b, id, chain);
    }
  }

  /// Whatever keeps a session's ledger, cursor and coverage keeps it exact.
  predicate SameLedger(st: State, after: State, id: string)
    requires Known(st, id)
  {
    Known(after, id) && after.claims[id].evidence == st.claims[id].evidence && after.claims[id].paid == st.claims[id].paid
    && after.sessions[id].claimId == st.sessions[id].claimId && after.sessions[id].cursor == st.sessions[id].cursor
    && after.covered[id] == st.covered[id] && after.start[id] == st.start[id]
  }

  lemma SameLedgerStaysExact(st: State, after: State, id: string, chain: seq<Log>)
    requires Exact(st, id, chain) && SameLedger(st, after, id)
    ensures Exact(after, id, chain)
  {
  }

  lemma EventKeepsLedger(st: State, id: string, actor: Actor, now: nat, event: Event, reason: string)
    requires RecordsOk(st, id)
    ensures Known(st, id) && SameLedger(st, ApplyEvent(st, id, actor, now, event, reason).state, id)
  {
    hide ApplyEvent, MoveOf, MovedTo, BooksOk, AmountsOk, TrailOk;
    StoredTrail(st, id);
    MoveShape(st.sessions[id], now, event);
    MoveEffect(st, id, actor, now, event, reason);
    var move := MoveOf(st.sessions[id], now, event);
    if move.Some? {
      MovedLedger(st, id, actor, now, move.value, reason);
    }
  }

  lemma MovedLedger(st: State, id: string, actor: Actor, now: nat, move: Edge, reason: string)
    requires Known(st, id) && move.Move?
    ensures SameLedger(st, MovedTo(st, id, actor, now, move, reason), id)
  {
    hide LastEntries;
  }

  // ---------------------------------------------------------------- one merge

  lemma CursorOfMerge(paid: nat, cursor: Option<nat>, evidence: seq<Proof>, blocks: Option<Blocks>, chain: seq<Log>, c: string,
                      first: nat, last: nat)
    requires Ascending(evidence) && ScanOf(blocks, chain, c, Window(first, last))
    ensures var m := Merge(paid, cursor, evidence, blocks);
      m.Some? ==> Max(last, m.value.cursor.GetOr(0)) == Max(last, cursor.GetOr(0))
  {
    if blocks.Some? {
      NewestInWindow(evidence, blocks.value, chain, c, first, last);
    }
    hide ScanOf, Arranged, Fresh, HashesKept, Ascending;
  }

  lemma NewestInWindow(evidence: seq<Proof>, blocks: Blocks, chain: seq<Log>, c: string, first: nat, last: nat)
    requires Ascending(evidence) && ScanOf(Some(blocks), chain, c, Window(first, last))
    ensures var added := Arranged(Fresh(evidence, blocks)); added != [] ==> added[|added| - 1].block <= last
  {
    var added := Arranged(Fresh(evidence, blocks));
    FreshIsDistinct(evidence, blocks);
    ArrangedFacts(Fresh(evidence, blocks));
    hide Arranged, Ascending, Distinct;
    if added != [] {
      LastIsMember(added);
      var p := added[|added| - 1];
      assert p in Fresh(evidence, blocks);
      assert p.block in blocks && p.block in Window(first, last);
    }
  }

  lemma LastIsMember(list: seq<Proof>)
    requires list != []
    ensures list[|list| - 1] in Members(list)
  {
  }

  lemma MergeHolds(evidence: seq<Proof>, paid: nat, cursor: Option<nat>, chain: seq<Log>, c: string, scanned: set<nat>,
                   blocks: Option<Blocks>, window: set<nat>)
    requires Holds(evidence, paid, chain, c, scanned) && ScanOf(blocks, chain, c, window)
    ensures var m := Merge(paid, cursor, evidence, blocks);
      m.Some? ==> Holds(m.value.evidence, m.value.total, chain, c, scanned + window)
  {
    hide Holds, ScanOf, HashesKept, Arranged;
    if blocks.Some? {
      CandidateHolds(evidence, paid, chain, c, scanned, blocks.value, window);
    } else {
      NothingFound(evidence, paid, chain, c, scanned, window);
    }
  }

  lemma BookedIsExact(st: State, id: string, blocks: Option<Blocks>, m: Merged, status: PaymentStatus, first: nat, last: nat, now: nat,
                      chain: seq<Log>)
    requires SessionOk(st, id) && Exact(st, id, chain)
    requires Merge(st.claims[id].paid, st.claims[id].cursor, st.claims[id].evidence, blocks) == Some(m)
    requires ScanOf(blocks, chain, st.sessions[id].claimId, Window(first, last))
    requires st.sessions[id].cursor.Some? ==> first <= st.sessions[id].cursor.value + 1
    ensures Exact(WithMerge(st, id, m, status, first, last, now), id, chain)
    ensures WithMerge(st, id, m, status, first, last, now).sessions[id].cursor
      == Some(Max(last, st.sessions[id].cursor.GetOr(0)))
  {
    var s, c := st.sessions[id], st.claims[id];
    assert c.cursor == s.cursor && Ascending(c.evidence);
    MergeHolds(c.evidence, c.paid, c.cursor, chain, s.claimId, st.covered[id], blocks, Window(first, last));
    CursorOfMerge(c.paid, c.cursor, c.evidence, blocks, chain, s.claimId, first, last);
    MergeCarries(st, id, m, status, first, last, now);
    hide WithMerge, Holds, Merge, ScanOf, TrailOk, AmountsOk;
  }

  /// A deadline or a detection after the merge leaves the ledger alone.
  lemma AfterMergeKeepsLedger(st: State, id: string, was: Session, status: PaymentStatus, now: nat)
    requires RecordsOk(st, id)
    ensures Known(st, id) && SameLedger(st, AfterMerge(st, id, was, status, now), id)
  {
    var noted := "payment detected from Base logs";
    EventKeepsLedger(st, id, System, now, PaymentObserved, noted);
    EventKeepsRecords(st, id, System, now, PaymentObserved, noted);
    var moved := ApplyEvent(st, id, System, now, PaymentObserved, noted).state;
    var queued := EnqueueSpawn(moved, id, now);
    EnqueueSame(moved, id, now);
    SameBooksKeep(moved, queued, id);
    hide ApplyEvent, RecordsOk, EnqueueSpawn;
    EventKeepsLedger(st, id, System, now, SessionExpired, "payment scan observed expired session");
    EventKeepsLedger(queued, id, System, now, SessionExpired, "payment scan observed expired session");
  }

  // ---------------------------------------------------------------- one poll

  /// The scan of a poll, for the sessions it was planned for.
  ghost predicate GoodScan(st: State, id: string, g: Groups, chain: seq<Log>, first: nat, last: nat) {
    id in st.sessions
    && ScanOf(ScannedFor(g, st.sessions[id].claimId), chain, st.sessions[id].claimId, Window(first, last))
    && (st.sessions[id].cursor.Some? ==> first <= st.sessions[id].cursor.value + 1)
  }

  lemma ReconcileOneExact(st: State, id: string, g: Groups, first: nat, last: nat, now: nat, canonical: Option<Canonical>, chain: seq<Log>)
    requires SessionsOk(st) && id in Active(st) && AllExact(st, chain) && GoodScan(st, id, g, chain, first, last)
    ensures var one := ReconcileOne(st, id, g, first, last, now, canonical);
      AllExact(one.state, chain)
      && (one.error.None? ==>
            id in one.state.sessions && one.state.sessions[id].cursor == Some(Max(last, st.sessions[id].cursor.GetOr(0))))
  {
    var one := ReconcileOne(st, id, g, first, last, now, canonical);
    assert SessionOk(st, id) && Exact(st, id, chain);
    ReconcileOneKeeps(st, id, g, first, last, now, canonical);
    var m, status := ReconcileOneCases(st, id, g, first, last, now, canonical);
    hide ReconcileOne, AllExact, SessionsOk, OnlyTouches, Exact, Merge, WithMerge, AfterMerge, ScanOf, TrailOk, AmountsOk, BooksOk;
    if one.error.None? {
      var blocks := ScannedFor(g, st.sessions[id].claimId);
      var next := WithMerge(st, id, m, status, first, last, now);
      MergeKeepsRecords(st, id, blocks, m, status, first, last, now);
      BookedIsExact(st, id, blocks, m, status, first, last, now, chain);
      AfterMergeKeepsLedger(next, id, st.sessions[id], status, now);
      SameLedgerStaysExact(next, one.state, id, chain);
      OneStaysExact(st, one.state, id, chain);
    }
  }

  /// Every session still to be reconciled has a good scan.
  ghost predicate GoodScans(st: State, ids: seq<string>, g: Groups, chain: seq<Log>, first: nat, last: nat) {
    forall id :: id in ids ==> GoodScan(st, id, g, chain, first, last)
  }

  lemma GoodScansAfterOne(st: State, after: State, ids: seq<string>, g: Groups, chain: seq<Log>, first: nat, last: nat)
    requires ids != [] && ToReconcile(st, ids) && OnlyTouches(st, after, ids[0]) && GoodScans(st, ids, g, chain, first, last)
    ensures GoodScans(after, ids[1..], g, chain, first, last)
  {
    hide ScanOf;
    forall id | id in ids[1..] ensures GoodScan(after, id, g, chain, first, last) {
      var i :| 0 <= i < |ids| - 1 && ids[1..][i] == id;
      assert ids[0] != ids[i + 1] && id in ids;
      assert GoodScan(st, id, g, chain, first, last);
      assert Untouched(st, after, id);
    }
  }

  /// The loop keeps every ledger exact, also when it stops half-way.
  lemma {:induction false} ReconcileAllExact(st: State, ids: seq<string>, g: Groups, first: nat, last: nat, now: nat,
                                             canonical: Option<Canonical>, chain: seq<Log>)
    requires SessionsOk(st) && ToReconcile(st, ids) && AllExact(st, chain) && GoodScans(st, ids, g, chain, first, last)
    ensures AllExact(ReconcileAll(st, ids, g, first, last, now, canonical).state, chain)
    decreases |ids|
  {
    hide SessionsOk, ReconcileOne, OnlyTouches, SyncPollJob, AllExact, ToReconcile, GoodScan;
    if ids == [] {
      SyncSame(st, now);
      SameBooksStayExact(st, SyncPollJob(st, now), chain);
    } else {
      PendingFirst(st, ids);
      FirstIsIn(ids);
      var one := ReconcileOne(st, ids[0], g, first, last, now, canonical);
      ReconcileOneKeeps(st, ids[0], g, first, last, now, canonical);
      ReconcileOneExact(st, ids[0], g, first, last, now, canonical, chain);
      if one.error.None? {
        PendingAfterOne(st, one.state, ids);
        GoodScansAfterOne(st, one.state, ids, g, chain, first, last);
        ReconcileAllExact(one.state, ids[1..], g, first, last, now, canonical, chain);
      }
    }
  }

  lemma FirstIsIn(ids: seq<string>)
    requires ids != []
    ensures ids[0] in ids
  {
  }

  /// A node that answers the planned filter from the chain.
  ghost predicate Honest(st: State, latest: nat, logs: seq<Log>, chain: seq<Log>) {
    latest <= U64_MAX
    && (Plan(st, latest).Some? ==>
          Answers(logs, chain, Plan(st, latest).value.names, Plan(st, latest).value.first, Plan(st, latest).value.last))
  }

  lemma PlannedScansAreGood(st: State, latest: nat, logs: seq<Log>, chain: seq<Log>)
    requires Plan(st, latest).Some? && Honest(st, latest, logs, chain) && HashesAgree(chain)
    ensures var p := Plan(st, latest).value;
      GoodScans(st.(scanned := Some(p.last)), ActiveIds(st), Grouped(logs), chain, p.first, p.last)
  {
    var p := Plan(st, latest).value;
    PlanIsSafe(st, latest);
    GroupedGroups(logs);
    ActiveIdsPending(st);
    forall id | id in ActiveIds(st)
      ensures GoodScan(st.(scanned := Some(p.last)), id, Grouped(logs), chain, p.first, p.last)
    {
      assert id in Active(st);
      assert st.sessions[id].claimId in p.names;
      AnswerIsScan(Grouped(logs), logs, chain, p.names, p.first, p.last, st.sessions[id].claimId);
    }
  }

  lemma PollExact(st: State, latest: nat, logs: seq<Log>, now: nat, canonical: Option<Canonical>, chain: seq<Log>)
    requires Safe(st) && AllExact(st, chain) && HashesAgree(chain) && Honest(st, latest, logs, chain)
    ensures AllExact(Poll(st, latest, logs, now, canonical).state, chain)
  {
    hide Plan, Honest, HashesAgree, Safe, AllExact, GoodScans, Reconcile;
    var plan := Plan(st, latest);
    if plan.Some? {
      PlannedScansAreGood(st, latest, logs, chain);
      ReconcileExact(st, logs, plan.value.first, plan.value.last, now, canonical, chain);
    }
  }

  lemma ReconcileExact(st: State, logs: seq<Log>, first: nat, last: nat, now: nat, canonical: Option<Canonical>, chain: seq<Log>)
    requires Safe(st) && AllExact(st, chain)
    requires GoodScans(st.(scanned := Some(last)), ActiveIds(st), Grouped(logs), chain, first, last)
    ensures AllExact(Reconcile(st, logs, first, last, now, canonical).state, chain)
  {
    var moved := st.(scanned := Some(last));
    hide SessionsOk, PollsAreKept, ActiveIds, ReconcileAll, Groupable, AllExact, GoodScans, ToReconcile;
    MovingTheScan(st, last);
    SameBooksStayExact(st, moved, chain);
    ReconcileAllExact(moved, ActiveIds(st), Grouped(logs), first, last, now, canonical, chain);
  }

  // ---------------------------------------------------------------- the other steps

  lemma EventExact(st: State, id: string, actor: Actor, now: nat, event: Event, reason: string, chain: seq<Log>)
    requires SessionsOk(st) && AllExact(st, chain)
    ensures AllExact(ApplyEvent(st, id, actor, now, event, reason).state, chain)
  {
    if id in st.sessions {
      assert SessionOk(st, id) && Exact(st, id, chain);
      EventKeepsRecords(st, id, actor, now, event, reason);
      EventKeepsLedger(st, id, actor, now, event, reason);
      hide ApplyEvent, AllExact, Exact, OnlyTouches;
      SameLedgerStaysExact(st, ApplyEvent(st, id, actor, now, event, reason).state, id, chain);
      OneStaysExact(st, ApplyEvent(st, id, actor, now, event, reason).state, id, chain);
    }
  }

  lemma EnqueueExact(st: State, id: string, now: nat, chain: seq<Log>)
    requires AllExact(st, chain)
    ensures AllExact(EnqueueSpawn(st, id, now), chain)
  {
    EnqueueSame(st, id, now);
    SameBooksStayExact(st, EnqueueSpawn(st, id, now), chain);
  }

  lemma CreateExact(st: State, id: string, claimId: string, gross: nat, minimum: nat, paused: bool, now: nat, chain: seq<Log>)
    requires SessionsOk(st) && id !in st.sessions && AllExact(st, chain)
    ensures AllExact(Create(st, id, claimId, gross, minimum, paused, now).state, chain)
  {
    if !paused && gross >= minimum {
      var claimed := Claimed(st, id, claimId, gross, now);
      ClaimedFacts(st, id, claimId, gross, now);
      CreateIsClaimed(st, id, claimId, gross, minimum, now);
      ClaimedLedger(st, id, claimId, gross, now);
      hide Create, Claimed, OnlyTouches, SyncPollJob, AllExact, SessionOk;
      NewIsExact(claimed, id, chain);
      OneStaysExact(st, claimed, id, chain);
      SyncSame(claimed, now);
      SameBooksStayExact(claimed, SyncPollJob(claimed, now), chain);
    }
  }

  predicate FreshLedger(st: State, id: string) {
    Known(st, id) && st.claims[id].evidence == [] && st.claims[id].paid == 0 && st.covered[id] == {}
    && st.start[id] == st.sessions[id].cursor
  }

  lemma ClaimedLedger(st: State, id: string, claimId: string, gross: nat, now: nat)
    requires SessionsOk(st) && id !in st.sessions
    ensures FreshLedger(Claimed(st, id, claimId, gross, now), id)
  {
    var s := NewSession(st, claimId, gross, now);
    var base := st.(sessions := st.sessions[id := s], start := st.start[id := s.cursor], covered := st.covered[id := {}]);
    NoTrailYet(st, id);
    CreationMove(base, id, s, now);
    hide ApplyEvent, LastEntries;
  }

  lemma NewIsExact(st: State, id: string, chain: seq<Log>)
    requires FreshLedger(st, id)
    ensures Exact(st, id, chain)
  {
  }

  lemma RefundExact(st: State, id: string, now: nat, chain: seq<Log>)
    requires SessionsOk(st) && AllExact(st, chain)
    ensures AllExact(FinalizeRefund(st, id, now).state, chain)
  {
    var after := FinalizeRefund(st, id, now).state;
    if id in st.sessions && after != st {
      assert SessionOk(st, id) && Exact(st, id, chain);
      RefundEffect(st, id, now);
      RefundedIsOk(st, id, now, after.runtimes);
      hide FinalizeRefund, OnlyTouches, Exact, SessionOk, LastEntries;
      SameLedgerStaysExact(st, after, id, chain);
      OneStaysExact(st, after, id, chain);
    }
  }

  lemma AttachExact(st: State, id: string, canister: string, chain: seq<Log>)
    requires AllExact(st, chain)
    ensures AllExact(Attach(st, id, canister), chain)
  {
    if id in st.sessions {
      assert Exact(st, id, chain);
      hide Exact;
      SameLedgerStaysExact(st, Attach(st, id, canister), id, chain);
      OneStaysExact(st, Attach(st, id, canister), id, chain);
    }
  }

  /// Polls hear honest answers; every other step is free.
  ghost predicate HonestStep(st: State, step: Step, chain: seq<Log>) {
    step.PollPayments? ==> Honest(st, step.latest, step.logs, chain)
  }

  lemma StepExact(st: State, step: Step, chain: seq<Log>)
    requires Safe(st) && Enabled(st, step) && AllExact(st, chain) && HashesAgree(chain) && HonestStep(st, step, chain)
    ensures AllExact(After(st, step), chain)
  {
    hide SessionsOk, PollsAreKept, Create, Poll, ApplyEvent, FinalizeRefund, Attach, Active, EnqueueSpawn, AllExact, HashesAgree,
      Honest, LeaseDue, FinishSuccess, FinishFailure;
    match step
    case CreateSession(id, claimId, gross, minimum, paused, now) => CreateExact(st, id, claimId, gross, minimum, paused, now, chain);
    case PollPayments(latest, logs, now, canonical) => PollExact(st, latest, logs, now, canonical, chain);
    case Signal(id, actor, now, event, reason) => EventExact(st, id, actor, now, event, reason, chain);
    case MarkFailed(id, actor, now, reason) =>
      EventExact(st, id, actor, now, SpawnFailed, reason, chain);
      EnqueueExact(ApplyEvent(st, id, actor, now, SpawnFailed, reason).state, id, now, chain);
    case RetrySession(id, actor, now, reason) =>
      EventExact(st, id, actor, now, RetryRequested, reason, chain);
      EnqueueExact(ApplyEvent(st, id, actor, now, RetryRequested, reason).state, id, now, chain);
    case RefundSession(id, now) => RefundExact(st, id, now, chain);
    case AttachAutomaton(id, canister) => AttachExact(st, id, canister, chain);
    case _ =>
      JobStepsKeepBooks(st, step);
      SameBooksStayExact(st, After(st, step), chain);
  }

  ghost predicate HonestRun(st: State, steps: seq<Step>, chain: seq<Log>)
    decreases |steps|
  {
    steps == [] || (HonestStep(st, steps[0], chain) && HonestRun(After(st, steps[0]), steps[1..], chain))
  }

  lemma {:induction false} EveryRunIsExact(st: State, steps: seq<Step>, chain: seq<Log>)
    requires Safe(st) && CanRun(st, steps) && AllExact(st, chain) && HashesAgree(chain) && HonestRun(st, steps, chain)
    ensures AllExact(Run(st, steps), chain)
    decreases |steps|
  {
    if steps != [] {
      StepExact(st, steps[0], chain);
      StepKeepsSafe(st, steps[0]);
      EveryRunIsExact(After(st, steps[0]), steps[1..], chain);
    }
  }

  /// Over every run of the factory against a fixed chain, whatever else happens between and inside
  /// the polls: what a claim has been paid is the sum of its deposits in the blocks scanned for it,
  /// and no block between the session's first and its present cursor was left out.
  lemma LedgerOverRuns(ttl: nat, depth: nat, steps: seq<Step>, chain: seq<Log>, id: string)
    requires CanRun(Initial(ttl, depth), steps) && HashesAgree(chain) && HonestRun(Initial(ttl, depth), steps, chain)
    requires id in Run(Initial(ttl, depth), steps).sessions
    ensures var st := Run(Initial(ttl, depth), steps);
      Exact(st, id, chain)
      && st.claims[id].paid == SumOver(chain, st.sessions[id].claimId, st.covered[id])
  {
    InitialIsSafe(ttl, depth);
    EveryRunIsExact(Initial(ttl, depth), steps, chain);
    var st := Run(Initial(ttl, depth), steps);
    assert Exact(st, id, chain);
    hide Run, CanRun, HonestRun, AllExact;
    PaidIsTheSum(st.claims[id].evidence, st.claims[id].paid, chain, st.sessions[id].claimId, st.covered[id]);
  }
}
