/// A deposit is noticed: one poll after it lies under the required depth, the session it pays for is
/// ready to be spawned, and the next lease takes its job (backend/factory/src/api/public.rs, backend/factory/src/escrow.rs).
module FirstPayment {
  import opened CatchUp
  import opened Coverage
  import opened Deposits
  import opened Escrow
  import opened Evidence
  import opened Factory
  import opened FactoryRuns
  import opened Invariants
  import opened Ledger
  import opened Limits
  import opened Options
  import opened Order
  import opened Polling
  import opened Scheduler
  import opened Settlement
  import opened SpawnJobs

  // ---------------------------------------------------------------- one log on the chain

  function Deposit(claimId: string, gross: nat, hash: string): Log {
    Log(claimId, Some(gross), 0, hash)
  }

  lemma DepositTotals(claimId: string, gross: nat, hash: string)
    requires gross < U128_LIMIT
    ensures var chain := [Deposit(claimId, gross, hash)];
      Groupable(chain) && (forall c :: ClaimTotal(chain, c) < U128_LIMIT) && SumOver(chain, claimId, Window(0, 0)) == gross
      && Selected(chain, {claimId}, 0, 0) == chain
  {
    var chain := [Deposit(claimId, gross, hash)];
    assert chain[..0] == [];
  }

  // ---------------------------------------------------------------- the session before the poll

  /// The only session of a state, waiting for its first payment.
  ghost predicate Waits(st: State, s: string, claimId: string, gross: nat, expiresAt: nat) {
    Safe(st) && st.sessions.Keys == {s} && s in st.claims
    && st.sessions[s].state == AwaitingPayment && st.sessions[s].payment == Unpaid && st.sessions[s].claimId == claimId
    && st.sessions[s].gross == gross && st.sessions[s].expiresAt == expiresAt && st.sessions[s].cursor.None? && st.scanned.None?
  }

  lemma CreatedWaits(ttl: nat, depth: nat, s: string, claimId: string, gross: nat, minimum: nat, now: nat)
    requires gross >= minimum
    ensures var st := Create(Initial(ttl, depth), s, claimId, gross, minimum, false, now).state;
      Waits(st, s, claimId, gross, now + ttl) && st.depth == depth
  {
    hide Safe;
    var start := Initial(ttl, depth);
    InitialIsSafe(ttl, depth);
    SafeParts(start);
    CreateIsOk(start, s, claimId, gross, minimum, false, now);
    CreateIsClaimed(start, s, claimId, gross, minimum, now);
    var claimed := Claimed(start, s, claimId, gross, now);
    SyncSame(claimed, now);
    ClaimedIsNew(ttl, depth, s, claimId, gross, now);
  }

  lemma SafeParts(st: State)
    requires Safe(st)
    ensures SessionsOk(st)
  {
  }

  lemma ClaimedIsNew(ttl: nat, depth: nat, s: string, claimId: string, gross: nat, now: nat)
    ensures var claimed := Claimed(Initial(ttl, depth), s, claimId, gross, now);
      claimed.sessions.Keys == {s} && s in claimed.claims && claimed.scanned.None? && claimed.depth == depth
      && claimed.sessions[s] == WithFlags(NewSession(Initial(ttl, depth), claimId, gross, now), now)
  {
    hide LastEntries;
  }

  // ---------------------------------------------------------------- the poll

  lemma AnotherId(ids: seq<string>, s: string)
    requires forall i, j :: 0 <= i < j < |ids| ==> ids[i] != ids[j]
    ensures |ids| >= 2 ==> exists id :: id in ids && id != s
  {
    if |ids| >= 2 {
      if ids[0] == s {
        assert ids[1] in ids && ids[1] != s;
      } else {
        assert ids[0] in ids;
      }
    }
  }

  lemma OnlyOneId(st: State, s: string)
    requires Active(st) == {s}
    ensures ActiveIds(st) == [s]
  {
    var ids := ActiveIds(st);
    ActiveIdsPending(st);
    AnotherId(ids, s);
    assert s in ids;
  }

  lemma PlanIsTheFirstBlock(st: State, s: string, claimId: string, gross: nat, expiresAt: nat)
    requires Waits(st, s, claimId, gross, expiresAt) && 1 <= st.depth <= U64_MAX
    ensures Active(st) == {s} && Plan(st, st.depth - 1) == Some(ScanPlan({claimId}, 0, 0))
  {
    hide Safe;
    assert Active(st) == {s};
    assert st.sessions[s].claimId in Names(st);
    assert Names(st) == {claimId};
    assert NextBlocks(st) == {};
  }

  /// The node, if it is asked, still has the deposit's block.
  predicate Knows(canonical: Option<Canonical>, s: string, hash: string) {
    canonical.Some? ==> canonical.value(s, 0).Some? && SameUpToCase(canonical.value(s, 0).value, hash)
  }

  predicate FromTheBlock(evidence: seq<Proof>, hash: string) {
    forall p :: p in evidence ==> p.block == 0 && SameHash(p.hash, hash)
  }

  lemma VerdictIsPaid(id: string, s: Session, m: Merged, canonical: Option<Canonical>, hash: string)
    requires m.total >= s.gross && FromTheBlock(m.evidence, hash) && Knows(canonical, id, hash)
    ensures Verdict(id, s, m, canonical) == Some(Paid)
  {
    hide Confirmed, SameHash;
    if canonical.Some? {
      forall p | p in m.evidence
        ensures canonical.value(id, p.block).Some? && SameUpToCase(canonical.value(id, p.block).value, p.hash)
      {
        SameBlock(canonical.value(id, 0).value, p.hash, hash);
      }
      ConfirmedExactly(id, m.evidence, canonical.value);
    }
  }

  lemma SameBlock(x: string, y: string, hash: string)
    requires SameUpToCase(x, hash) && SameHash(y, hash)
    ensures SameUpToCase(x, y)
  {
    SameHashExactly(x, hash);
    SameHashExactly(x, y);
  }

  lemma ReconcilePaid(st: State, id: string, g: Groups, first: nat, last: nat, now: nat, canonical: Option<Canonical>, hash: string)
    requires id in st.sessions && id in st.claims
    requires var c, s := st.claims[id], st.sessions[id];
      var m := Merge(c.paid, c.cursor, c.evidence, ScannedFor(g, s.claimId));
      m.Some? && m.value.total >= s.gross && FromTheBlock(m.value.evidence, hash) && Knows(canonical, id, hash)
    ensures var c, s := st.claims[id], st.sessions[id];
      var m := Merge(c.paid, c.cursor, c.evidence, ScannedFor(g, s.claimId)).value;
      ReconcileOne(st, id, g, first, last, now, canonical)
      == Outcome(AfterMerge(WithMerge(st, id, m, Paid, first, last, now), id, s, Paid, now), None)
  {
    hide Merge, AfterMerge, WithMerge, Verdict, Knows, FromTheBlock;
    var c, s := st.claims[id], st.sessions[id];
    VerdictIsPaid(id, s, Merge(c.paid, c.cursor, c.evidence, ScannedFor(g, s.claimId)).value, canonical, hash);
  }

  /// The session is ready to be spawned.
  predicate Detected(st: State, s: string, expiresAt: nat) {
    s in st.sessions && st.sessions[s].state == PaymentDetected && st.sessions[s].payment == Paid && st.sessions[s].expiresAt == expiresAt
  }

  lemma PaidIsDetected(st: State, s: string, m: Merged, now: nat)
    requires s in st.sessions && s in st.claims && st.sessions[s].state == AwaitingPayment && now <= st.sessions[s].expiresAt
    ensures var after := AfterMerge(WithMerge(st, s, m, Paid, 0, 0, now), s, st.sessions[s], Paid, now);
      Detected(after, s, st.sessions[s].expiresAt) && after.sessions.Keys == st.sessions.Keys
      && after.jobs == EnqueueSpawn(st, s, now).jobs
  {
    hide ApplyEvent, EnqueueSpawn, AfterMerge;
    var merged := WithMerge(st, s, m, Paid, 0, 0, now);
    var moved := ApplyEvent(merged, s, System, now, PaymentObserved, "payment detected from Base logs").state;
    MergeCarries(st, s, m, Paid, 0, 0, now);
    hide WithMerge;
    ObservedMoves(merged, s, now);
    EventKeepsJobs(merged, s, System, now, PaymentObserved, "payment detected from Base logs");
    EnqueueSame(moved, s, now);
    EnqueueReadsJobs(moved, st, s, now);
    AfterPaidMerge(merged, s, st.sessions[s], now);
  }

  lemma AfterPaidMerge(st: State, s: string, was: Session, now: nat)
    requires was.state == AwaitingPayment && now <= was.expiresAt
    ensures AfterMerge(st, s, was, Paid, now)
      == EnqueueSpawn(ApplyEvent(st, s, System, now, PaymentObserved, "payment detected from Base logs").state, s, now)
  {
    hide ApplyEvent, EnqueueSpawn;
  }

  lemma ObservedMoves(st: State, s: string, now: nat)
    requires s in st.sessions && st.sessions[s].state == AwaitingPayment && st.sessions[s].payment == Paid
    ensures Detected(ApplyEvent(st, s, System, now, PaymentObserved, "payment detected from Base logs").state, s, st.sessions[s].expiresAt)
  {
    hide LastEntries;
  }

  lemma MovedScan(st: State, s: string, claimId: string, gross: nat, expiresAt: nat, hash: string)
    requires Waits(st, s, claimId, gross, expiresAt) && 1 <= st.depth <= U64_MAX && gross < U128_LIMIT
    requires AllExact(st, [Deposit(claimId, gross, hash)]) && FreshLedger(st, s)
    ensures var logs := [Deposit(claimId, gross, hash)];
      var m := Merge(st.claims[s].paid, st.claims[s].cursor, st.claims[s].evidence, ScannedFor(Grouped(logs), claimId));
      m.Some? && m.value.total == gross && FromTheBlock(m.value.evidence, hash)
  {
    hide Safe, Holds, ScanOf, Merge, SumOver, Selected, FromTheBlock;
    var logs := [Deposit(claimId, gross, hash)];
    DepositTotals(claimId, gross, hash);
    GroupableAgrees(logs);
    GroupedGroups(logs);
    AnswerIsScan(Grouped(logs), logs, logs, {claimId}, 0, 0, claimId);
    assert Exact(st, s, logs);
    var c := st.claims[s];
    ScanKeepsLedger(c.evidence, c.paid, c.cursor, logs, claimId, {}, ScannedFor(Grouped(logs), claimId), Window(0, 0));
    assert {} + Window(0, 0) == Window(0, 0);
    HeldFromTheBlock(Merge(c.paid, c.cursor, c.evidence, ScannedFor(Grouped(logs), claimId)).value.evidence, gross, claimId, gross, hash);
  }

  lemma HeldFromTheBlock(evidence: seq<Proof>, paid: nat, claimId: string, gross: nat, hash: string)
    requires Holds(evidence, paid, [Deposit(claimId, gross, hash)], claimId, Window(0, 0))
    ensures FromTheBlock(evidence, hash)
  {
    var chain := [Deposit(claimId, gross, hash)];
    assert chain[..0] == [];
    assert FirstHash(chain, claimId, 0) == hash;
  }

  lemma PollDetects(st: State, s: string, claimId: string, gross: nat, expiresAt: nat, hash: string, now: nat, canonical: Option<Canonical>)
    requires Waits(st, s, claimId, gross, expiresAt) && 1 <= st.depth <= U64_MAX && gross < U128_LIMIT && now <= expiresAt
    requires AllExact(st, [Deposit(claimId, gross, hash)]) && FreshLedger(st, s) && Knows(canonical, s, hash)
    ensures var poll := Poll(st, st.depth - 1, [Deposit(claimId, gross, hash)], now, canonical);
      poll.error.None? && Detected(poll.state, s, expiresAt) && poll.state.sessions.Keys == {s}
      && poll.state.jobs == PollSynced(EnqueueSpawn(st, s, now).jobs, false, now)
  {
    hide Safe, AllExact, Plan, Groupable, Merge, Grouped, AfterMerge, WithMerge, Active, ActiveIds, SyncPollJob, ReconcileOne,
      FromTheBlock, Knows, EnqueueSpawn, PollSynced;
    var logs := [Deposit(claimId, gross, hash)];
    var moved := st.(scanned := Some(0));
    PlanIsTheFirstBlock(st, s, claimId, gross, expiresAt);
    OnlyOneId(st, s);
    DepositTotals(claimId, gross, hash);
    MovedScan(st, s, claimId, gross, expiresAt, hash);
    ReconcilePaid(moved, s, Grouped(logs), 0, 0, now, canonical, hash);
    var m := Merge(st.claims[s].paid, st.claims[s].cursor, st.claims[s].evidence, ScannedFor(Grouped(logs), claimId)).value;
    PaidIsDetected(moved, s, m, now);
    var one := ReconcileOne(moved, s, Grouped(logs), 0, 0, now, canonical);
    OneThenSync(moved, s, Grouped(logs), now, canonical);
    SyncSame(one.state, now);
    NoMorePolls(one.state, s, now);
    EnqueueReadsJobs(moved, st, s, now);
  }

  lemma NoMorePolls(st: State, s: string, now: nat)
    requires st.sessions.Keys == {s} && st.sessions[s].state == PaymentDetected
    ensures SyncPollJob(st, now).jobs == PollSynced(st.jobs, false, now)
  {
    hide PollSynced;
    assert Active(st) == {};
  }

  lemma OneThenSync(st: State, s: string, g: Groups, now: nat, canonical: Option<Canonical>)
    ensures var one := ReconcileOne(st, s, g, 0, 0, now, canonical);
      one.error.None? ==> ReconcileAll(st, [s], g, 0, 0, now, canonical) == Outcome(SyncPollJob(one.state, now), None)
  {
    hide ReconcileOne, SyncPollJob;
    assert [s][1..] == [];
  }

  // ---------------------------------------------------------------- the lease

  /// The session's job is being run.
  predicate SpawnLeased(jobs: map<string, Job>, s: string, now: nat) {
    var name := "spawn-execution:" + s;
    name in jobs && jobs[name].status == Running && jobs[name].leasedUntil == Some(now + 60000) && jobs[name].lastStarted == Some(now)
  }

  lemma OneDue(st: State, s: string, now: nat, before: map<string, Job>)
    requires before.Keys <= {PollJobId()} && (PollJobId() in before ==> before[PollJobId()].leasedUntil.None?)
    requires st.jobs == PollSynced(EnqueueSpawn(st.(jobs := before), s, now).jobs, false, now)
    ensures |DueKeys(st, now)| <= 1 && SpawnDue(st.jobs, s, now)
    ensures var name := "spawn-execution:" + s; name in st.jobs && st.jobs[name].leasedUntil.None?
  {
    JobIdsDiffer(s, s);
    var name := SpawnJobId(s);
    var key := Key(now, name);
    assert DueKeys(st, now) <= {key};
    SubsetIsSmaller(DueKeys(st, now), {key});
  }

  lemma SubsetIsSmaller(a: set<Key>, b: set<Key>)
    requires a <= b
    ensures |a| <= |b|
  {
    assert b == a + (b - a);
  }

  lemma LeaseTakes(st: State, s: string, now: nat, limit: nat, before: map<string, Job>)
    requires before.Keys <= {PollJobId()} && (PollJobId() in before ==> before[PollJobId()].leasedUntil.None?) && limit >= 1
    requires st.jobs == PollSynced(EnqueueSpawn(st.(jobs := before), s, now).jobs, false, now)
    ensures SpawnLeased(LeaseDue(st, now, limit).jobs, s, now) && LeaseDue(st, now, limit).sessions == st.sessions
  {
    hide LeaseDue, PollSynced, EnqueueSpawn, SpawnDue;
    OneDue(st, s, now, before);
    DueIsLeased(st, s, now, limit);
    LeaseKeepsSessions(st, now, limit);
  }

  lemma LeaseKeepsSessions(st: State, now: nat, limit: nat)
    ensures LeaseDue(st, now, limit).sessions == st.sessions
  {
  }

  lemma CreatedJobs(ttl: nat, depth: nat, s: string, claimId: string, gross: nat, minimum: nat, now: nat)
    requires gross >= minimum
    ensures var jobs := Create(Initial(ttl, depth), s, claimId, gross, minimum, false, now).state.jobs;
      jobs.Keys <= {PollJobId()} && (PollJobId() in jobs ==> jobs[PollJobId()].leasedUntil.None?)
  {
    hide Safe, Claimed;
    var start := Initial(ttl, depth);
    InitialIsSafe(ttl, depth);
    SafeParts(start);
    CreateIsClaimed(start, s, claimId, gross, minimum, now);
    ClaimedFacts(start, s, claimId, gross, now);
  }

  // ---------------------------------------------------------------- from the start

  /// The three steps: a session is created, the node is asked once its deposit is deep enough, and
  /// jobs are leased.
  function FirstSteps(depth: nat, s: string, claimId: string, gross: nat, minimum: nat, hash: string, now: nat,
                      canonical: Option<Canonical>, limit: nat): seq<Step>
    requires depth >= 1
  {
    [CreateSession(s, claimId, gross, minimum, false, now),
     PollPayments(depth - 1, [Deposit(claimId, gross, hash)], now, canonical), LeaseJobs(now, limit)]
  }

  /// For every price, depth and hash: a session whose whole price was deposited is ready to be spawned
  /// after the first poll, whether or not the node is asked for the block again, and the first lease
  /// that takes a job takes the session's.
  lemma DepositIsDetected(ttl: nat, depth: nat, s: string, claimId: string, gross: nat, minimum: nat, hash: string, now: nat,
                          canonical: Option<Canonical>, limit: nat)
    requires 1 <= depth <= U64_MAX && minimum <= gross < U128_LIMIT && Knows(canonical, s, hash) && limit >= 1
    ensures var steps := FirstSteps(depth, s, claimId, gross, minimum, hash, now, canonical, limit);
      CanRun(Initial(ttl, depth), steps) && Detected(Run(Initial(ttl, depth), steps), s, now + ttl)
      && SpawnLeased(Run(Initial(ttl, depth), steps).jobs, s, now)
  {
    hide Waits, AllExact, Create, Poll, Claimed, FreshLedger, Knows, LeaseDue, EnqueueSpawn, PollSynced, SpawnLeased;
    var start, chain := Initial(ttl, depth), [Deposit(claimId, gross, hash)];
    var created := Create(start, s, claimId, gross, minimum, false, now).state;
    CreatedWaits(ttl, depth, s, claimId, gross, minimum, now);
    InitialIsSafe(ttl, depth);
    SafeParts(start);
    NothingIsExact(ttl, depth, chain);
    CreateExact(start, s, claimId, gross, minimum, false, now, chain);
    CreatedLedger(ttl, depth, s, claimId, gross, minimum, now);
    PollDetects(created, s, claimId, gross, now + ttl, hash, now, canonical);
    CreatedJobs(ttl, depth, s, claimId, gross, minimum, now);
    var polled := Poll(created, depth - 1, chain, now, canonical).state;
    EnqueueReadsJobs(created, polled.(jobs := created.jobs), s, now);
    LeaseTakes(polled, s, now, limit, created.jobs);
    ThreeSteps(start, FirstSteps(depth, s, claimId, gross, minimum, hash, now, canonical, limit));
  }

  lemma NothingIsExact(ttl: nat, depth: nat, chain: seq<Log>)
    ensures AllExact(Initial(ttl, depth), chain)
  {
  }

  lemma CreatedLedger(ttl: nat, depth: nat, s: string, claimId: string, gross: nat, minimum: nat, now: nat)
    requires gross >= minimum
    ensures FreshLedger(Create(Initial(ttl, depth), s, claimId, gross, minimum, false, now).state, s)
  {
    hide Safe, Claimed;
    var start := Initial(ttl, depth);
    InitialIsSafe(ttl, depth);
    SafeParts(start);
    CreateIsClaimed(start, s, claimId, gross, minimum, now);
    ClaimedLedger(start, s, claimId, gross, now);
    SyncSame(Claimed(start, s, claimId, gross, now), now);
  }

  lemma ThreeSteps(st: State, steps: seq<Step>)
    requires |steps| == 3 && Enabled(st, steps[0]) && Enabled(After(st, steps[0]), steps[1])
    requires Enabled(After(After(st, steps[0]), steps[1]), steps[2])
    ensures CanRun(st, steps) && Run(st, steps) == After(After(After(st, steps[0]), steps[1]), steps[2])
  {
    hide After, Enabled;
    var one := After(st, steps[0]);
    var two := After(one, steps[1]);
    var three := After(two, steps[2]);
    assert steps[1..] == [steps[1], steps[2]] && [steps[1], steps[2]][1..] == [steps[2]] && [steps[2]][1..] == [];
    assert CanRun(three, []) && Run(three, []) == three;
    assert CanRun(two, [steps[2]]) && Run(two, [steps[2]]) == three;
    assert CanRun(one, [steps[1], steps[2]]) && Run(one, [steps[1], steps[2]]) == three;
  }
}
