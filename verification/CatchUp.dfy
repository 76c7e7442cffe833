/// Polling makes progress: honest answers never stop it, and it closes any gap at ten thousand
/// blocks a poll (backend/factory/src/escrow.rs).
module CatchUp {
  import opened Coverage
  import opened Deposits
  import opened Escrow
  import opened Evidence
  import opened Factory
  import opened FactoryRuns
  import opened Invariants
  import opened Ledger
  import opened Limits
  import opened Options
  import opened Polling
  import opened Scheduler

  // ---------------------------------------------------------------- how far a successful poll gets

  lemma ReconcileOneAdvances(st: State, id: string, g: Groups, first: nat, last: nat, now: nat, canonical: Option<Canonical>)
    requires SessionsOk(st) && id in Active(st)
    ensures var one := ReconcileOne(st, id, g, first, last, now, canonical);
      one.error.None? ==>
        id in one.state.sessions && one.state.sessions[id].cursor.Some? && one.state.sessions[id].cursor.value >= last
  {
    hide ReconcileOne, SessionsOk, Merge, AfterMerge, RecordsOk, WithMerge, MoneyOk;
    assert SessionOk(st, id) by { StoredSession(st, id); }
    var m, status := ReconcileOneCases(st, id, g, first, last, now, canonical);
    if ReconcileOne(st, id, g, first, last, now, canonical).error.None? {
      MergedCursor(st, id, ScannedFor(g, st.sessions[id].claimId), m, status, first, last, now);
    }
  }

  lemma StoredSession(st: State, id: string)
    requires SessionsOk(st) && id in st.sessions
    ensures SessionOk(st, id)
  {
  }

  /// Merging moves the cursor to the end of the scan or beyond, and what follows leaves it.
  lemma MergedCursor(st: State, id: string, blocks: Option<Blocks>, m: Merged, status: PaymentStatus, first: nat, last: nat, now: nat)
    requires RecordsOk(st, id) && st.sessions[id].state == AwaitingPayment
    requires Merge(st.claims[id].paid, st.claims[id].cursor, st.claims[id].evidence, blocks) == Some(m)
    requires status == StatusFor(m.total, st.sessions[id].gross) || (status == Partial && m.total >= st.sessions[id].gross)
    ensures var after := AfterMerge(WithMerge(st, id, m, status, first, last, now), id, st.sessions[id], status, now);
      id in after.sessions && after.sessions[id].cursor.Some? && after.sessions[id].cursor.value >= last
  {
    hide Merge, AfterMerge, TrailOk, AmountsOk, BooksOk;
    MergeKeepsRecords(st, id, blocks, m, status, first, last, now);
    MergeCarries(st, id, m, status, first, last, now);
    AfterMergeKeepsLedger(WithMerge(st, id, m, status, first, last, now), id, st.sessions[id], status, now);
  }

  predicate ScannedTo(st: State, id: string, last: nat) {
    id in st.sessions && NeedsPoll(st.sessions[id])
    ==> st.sessions[id].cursor.Some? && st.sessions[id].cursor.value >= last
  }

  /// After a loop that went through, every session that still waits has been scanned to the end.
  lemma {:induction false} ReconcileAllAdvances(st: State, ids: seq<string>, g: Groups, first: nat, last: nat, now: nat,
                                                canonical: Option<Canonical>)
    requires SessionsOk(st) && ToReconcile(st, ids)
    requires forall id :: id in ids || ScannedTo(st, id, last)
    requires ReconcileAll(st, ids, g, first, last, now, canonical).error.None?
    ensures forall id :: ScannedTo(ReconcileAll(st, ids, g, first, last, now, canonical).state, id, last)
    decreases |ids|
  {
    hide SessionsOk, ReconcileOne, OnlyTouches, SyncPollJob, ToReconcile, ScannedTo;
    if ids == [] {
      SyncSame(st, now);
      forall id ensures ScannedTo(SyncPollJob(st, now), id, last) {
        SameScannedTo(st, SyncPollJob(st, now), id, last);
      }
    } else {
      PendingFirst(st, ids);
      var one := ReconcileOne(st, ids[0], g, first, last, now, canonical);
      ReconcileOneKeeps(st, ids[0], g, first, last, now, canonical);
      ReconcileOneAdvances(st, ids[0], g, first, last, now, canonical);
      PendingAfterOne(st, one.state, ids);
      forall id ensures id in ids[1..] || ScannedTo(one.state, id, last) {
        AdvancedByOne(st, one.state, ids, id, last);
      }
      ReconcileAllAdvances(one.state, ids[1..], g, first, last, now, canonical);
    }
  }

  lemma SameScannedTo(a: State, b: State, id: string, last: nat)
    requires a.sessions == b.sessions && ScannedTo(a, id, last)
    ensures ScannedTo(b, id, last)
  {
  }

  lemma AdvancedByOne(st: State, after: State, ids: seq<string>, id: string, last: nat)
    requires ids != [] && OnlyTouches(st, after, ids[0]) && (id in ids || ScannedTo(st, id, last))
    requires ids[0] in after.sessions && after.sessions[ids[0]].cursor.Some? && after.sessions[ids[0]].cursor.value >= last
    ensures id in ids[1..] || ScannedTo(after, id, last)
  {
    if id != ids[0] {
      assert Untouched(st, after, id);
    }
  }

  lemma PollAdvances(st: State, latest: nat, logs: seq<Log>, now: nat, canonical: Option<Canonical>)
    requires Safe(st) && Plan(st, latest).Some? && Poll(st, latest, logs, now, canonical).error.None?
    ensures forall id :: ScannedTo(Poll(st, latest, logs, now, canonical).state, id, Plan(st, latest).value.last)
  {
    var p := Plan(st, latest).value;
    var moved := st.(scanned := Some(p.last));
    MovingTheScan(st, p.last);
    ActiveIdsPending(st);
    forall id ensures id in ActiveIds(st) || ScannedTo(moved, id, p.last) {
      assert id in ActiveIds(st) <==> id in Active(st);
    }
    hide SessionsOk, PollsAreKept, ActiveIds, ReconcileAll, Plan, Groupable, ToReconcile, ScannedTo;
    ReconcileAllAdvances(moved, ActiveIds(st), Grouped(logs), p.first, p.last, now, canonical);
  }

  // ---------------------------------------------------------------- closing a gap

  /// No waiting session is more than `gap` blocks behind `head`.
  ghost predicate Within(st: State, head: nat, gap: nat) {
    forall id :: id in Active(st) ==> st.sessions[id].cursor.Some? && st.sessions[id].cursor.value + gap >= head
  }

  function Less(gap: nat): nat {
    if gap >= BASE_LOG_WINDOW_LIMIT then gap - BASE_LOG_WINDOW_LIMIT else 0
  }

  lemma PlanReaches(st: State, latest: nat, gap: nat)
    requires latest <= U64_MAX && Plan(st, latest).Some? && Within(st, SafeHead(st, latest), gap)
    ensures Plan(st, latest).value.last + Less(gap) >= SafeHead(st, latest)
  {
    var head := SafeHead(st, latest);
    var id :| id in Active(st);
    assert Plus(st.sessions[id].cursor.value, 1) in NextBlocks(st);
    SomeLeastNumber(NextBlocks(st));
    var b := FirstBlock(st, head);
    assert IsSmallest(b, NextBlocks(st));
    var o :| o in st.sessions && NeedsPoll(st.sessions[o]) && st.sessions[o].cursor.Some? && b == Plus(st.sessions[o].cursor.value, 1);
    assert o in Active(st);
  }

  /// A successful poll brings every waiting session ten thousand blocks closer to the safe head, or to it.
  lemma PollClosesTheGap(st: State, latest: nat, logs: seq<Log>, now: nat, canonical: Option<Canonical>, gap: nat)
    requires Safe(st) && latest <= U64_MAX && Plan(st, latest).Some? && Within(st, SafeHead(st, latest), gap)
    requires Poll(st, latest, logs, now, canonical).error.None?
    ensures Within(Poll(st, latest, logs, now, canonical).state, SafeHead(st, latest), Less(gap))
  {
    PlanReaches(st, latest, gap);
    PollAdvances(st, latest, logs, now, canonical);
    var after := Poll(st, latest, logs, now, canonical).state;
    hide Poll, Plan, Safe;
    forall id | id in Active(after)
      ensures after.sessions[id].cursor.Some? && after.sessions[id].cursor.value + Less(gap) >= SafeHead(st, latest)
    {
      assert ScannedTo(after, id, Plan(st, latest).value.last);
    }
  }

  datatype PollInput = PollInput(latest: nat, logs: seq<Log>, now: nat, canonical: Option<Canonical>)

  ghost function PollAll(st: State, polls: seq<PollInput>): State
    decreases |polls|
  {
    if polls == [] then st
    else PollAll(Poll(st, polls[0].latest, polls[0].logs, polls[0].now, polls[0].canonical).state, polls[1..])
  }

  /// Polls that each have something to do under the same safe head, and go through.
  ghost predicate Succeed(st: State, polls: seq<PollInput>, head: nat)
    decreases |polls|
  {
    polls == []
    || (polls[0].latest <= U64_MAX && Plan(st, polls[0].latest).Some? && SafeHead(st, polls[0].latest) == head
        && Poll(st, polls[0].latest, polls[0].logs, polls[0].now, polls[0].canonical).error.None?
        && Succeed(Poll(st, polls[0].latest, polls[0].logs, polls[0].now, polls[0].canonical).state, polls[1..], head))
  }

  /// With a fixed safe head, ceil(gap / 10000) successful polls bring every waiting session up to it.
  lemma {:induction false} PollsCatchUp(st: State, polls: seq<PollInput>, head: nat, gap: nat)
    requires Safe(st) && Within(st, head, gap) && Succeed(st, polls, head)
    requires |polls| * BASE_LOG_WINDOW_LIMIT >= gap
    ensures Within(PollAll(st, polls), head, 0)
    decreases |polls|
  {
    hide Poll, Plan, SessionsOk, PollsAreKept, SafeHead;
    if polls != [] {
      var p := polls[0];
      PollKeeps(st, p.latest, p.logs, p.now, p.canonical);
      PollClosesTheGap(st, p.latest, p.logs, p.now, p.canonical, gap);
      PollsCatchUp(Poll(st, p.latest, p.logs, p.now, p.canonical).state, polls[1..], head, Less(gap));
    }
  }

  // ---------------------------------------------------------------- nothing honest stops a poll

  predicate Answered(evidence: seq<Proof>, id: string, canonical: Canonical) {
    forall p :: p in evidence ==> canonical(id, p.block).Some?
  }

  lemma {:induction false} AnsweredConfirms(id: string, evidence: seq<Proof>, canonical: Canonical)
    requires Answered(evidence, id, canonical)
    ensures Confirmed(id, evidence, canonical).Some?
    decreases |evidence|
  {
    if evidence != [] {
      AnsweredConfirms(id, evidence[1..], canonical);
    }
  }

  ghost predicate AlwaysAnswers(canonical: Option<Canonical>) {
    canonical.Some? ==> forall id, b :: canonical.value(id, b).Some?
  }

  lemma ReconcileOneSucceeds(st: State, id: string, g: Groups, first: nat, last: nat, now: nat, canonical: Option<Canonical>, chain: seq<Log>)
    requires SessionsOk(st) && id in Active(st) && AllExact(st, chain) && GoodScan(st, id, g, chain, first, last)
    requires ClaimTotal(chain, st.sessions[id].claimId) < U128_LIMIT && AlwaysAnswers(canonical)
    ensures ReconcileOne(st, id, g, first, last, now, canonical).error.None?
  {
    assert SessionOk(st, id) && Exact(st, id, chain);
    var s, c := st.sessions[id], st.claims[id];
    hide Holds, ScanOf, Merge, SessionsOk, AllExact, AfterMerge, WithMerge, TrailOk, AmountsOk, StatusFor;
    ScanKeepsLedger(c.evidence, c.paid, c.cursor, chain, s.claimId, st.covered[id], ScannedFor(g, s.claimId), Window(first, last));
    var m := Merge(c.paid, c.cursor, c.evidence, ScannedFor(g, s.claimId)).value;
    if canonical.Some? {
      AnsweredConfirms(id, m.evidence, canonical.value);
    }
  }

  lemma {:induction false} ReconcileAllSucceeds(st: State, ids: seq<string>, g: Groups, first: nat, last: nat, now: nat,
                                                canonical: Option<Canonical>, chain: seq<Log>)
    requires SessionsOk(st) && ToReconcile(st, ids) && AllExact(st, chain) && GoodScans(st, ids, g, chain, first, last)
    requires (forall c :: ClaimTotal(chain, c) < U128_LIMIT) && AlwaysAnswers(canonical)
    ensures ReconcileAll(st, ids, g, first, last, now, canonical).error.None?
    decreases |ids|
  {
    hide SessionsOk, ReconcileOne, OnlyTouches, SyncPollJob, AllExact, ToReconcile, GoodScan, AlwaysAnswers;
    if ids != [] {
      PendingFirst(st, ids);
      FirstIsIn(ids);
      var one := ReconcileOne(st, ids[0], g, first, last, now, canonical);
      ReconcileOneKeeps(st, ids[0], g, first, last, now, canonical);
      ReconcileOneExact(st, ids[0], g, first, last, now, canonical, chain);
      ReconcileOneSucceeds(st, ids[0], g, first, last, now, canonical, chain);
      PendingAfterOne(st, one.state, ids);
      GoodScansAfterOne(st, one.state, ids, g, chain, first, last);
      ReconcileAllSucceeds(one.state, ids[1..], g, first, last, now, canonical, chain);
    }
  }

  lemma GroupableAgrees(chain: seq<Log>)
    requires Groupable(chain)
    ensures HashesAgree(chain)
  {
  }

  /// While the chain's amounts fit in 128 bits, its hashes are consistent and the node answers, a poll succeeds.
  lemma HonestPollSucceeds(st: State, latest: nat, logs: seq<Log>, now: nat, canonical: Option<Canonical>, chain: seq<Log>)
    requires Safe(st) && AllExact(st, chain) && Groupable(chain) && Honest(st, latest, logs, chain)
    requires (forall c :: ClaimTotal(chain, c) < U128_LIMIT) && AlwaysAnswers(canonical)
    ensures Poll(st, latest, logs, now, canonical).error.None?
  {
    hide SessionsOk, PollsAreKept, ActiveIds, ReconcileAll, Plan, Groupable, AllExact, GoodScans, ToReconcile, AlwaysAnswers,
      Answers, HashesAgree;
    var plan := Plan(st, latest);
    if plan.Some? {
      var p := plan.value;
      AnswerIsGroupable(logs, chain, p.names, p.first, p.last);
      GroupableAgrees(chain);
      PlannedScansAreGood(st, latest, logs, chain);
      MovingTheScan(st, p.last);
      SameBooksStayExact(st, st.(scanned := Some(p.last)), chain);
      ReconcileAllSucceeds(st.(scanned := Some(p.last)), ActiveIds(st), Grouped(logs), p.first, p.last, now, canonical, chain);
    }
  }
}
