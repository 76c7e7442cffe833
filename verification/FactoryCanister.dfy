/// The factory as it runs: one object whose methods change sessions, claims and jobs in place
/// (backend/factory/src/session_transitions.rs, scheduler.rs, escrow.rs, retry.rs). Every method is
/// tied to the function of the same step on the state's value.
module FactoryCanister {
  import opened Deposits
  import opened Escrow
  import opened Evidence
  import opened Factory
  import opened FactoryRuns
  import opened Invariants
  import opened Ledger
  import opened Limits
  import opened Options
  import opened Order
  import opened Polling
  import opened Scheduler

  class Canister {
    var sessions: map<string, Session>
    var claims: map<string, Claim>
    var audit: map<string, seq<AuditEntry>>
    var jobs: map<string, Job>
    var runtimes: map<string, Runtime>
    var activeJobs: seq<string>
    var scanned: Option<nat>
    var ttl: nat
    var depth: nat
    ghost var history: map<string, seq<AuditEntry>>
    ghost var start: map<string, Option<nat>>
    ghost var covered: map<string, set<nat>>

    ghost function View(): State
      reads this
    {
      State(sessions, claims, audit, jobs, runtimes, activeJobs, scanned, ttl, depth, history, start, covered)
    }

    constructor (ttl: nat, depth: nat)
      ensures View() == Initial(ttl, depth) && Safe(View())
    {
      sessions, claims, audit, jobs, runtimes := map[], map[], map[], map[], map[];
      activeJobs, scanned := [], None;
      this.ttl, this.depth := ttl, depth;
      history, start, covered := map[], map[], map[];
      new;
      InitialIsSafe(ttl, depth);
    }

    // -------------------------------------------------------------- sessions

    method RecordSessionAudit(id: string, entry: AuditEntry)
      modifies `audit, `history
      ensures View() == Recorded(old(View()), id, entry)
    {
      var entries := if id in audit then audit[id] else [];
      entries := entries + [entry];
      if |entries| > MAX_AUDIT_ENTRIES_PER_SESSION {
        var excess := |entries| - MAX_AUDIT_ENTRIES_PER_SESSION;
        entries := entries[excess..];
      }
      audit := audit[id := entries];
      history := history[id := (if id in history then history[id] else []) + [entry]];
    }

    method SyncSessionDerivedFlags(id: string, now: nat) returns (error: Option<Error>)
      modifies `sessions, `claims
      ensures error == if id in old(sessions) then None else Some(SessionNotFound)
      ensures View() == if id in old(sessions) then SyncFlags(old(View()), id, now) else old(View())
    {
      if id !in sessions {
        return Some(SessionNotFound);
      }
      var s := sessions[id];
      s := s.(retryable := DeriveRetryable(s, now), refundable := DeriveRefundable(s));
      sessions := sessions[id := s];
      if id in claims {
        claims := claims[id := claims[id].(refundable := s.refundable, updatedAt := now)];
      }
      error := None;
    }

    method CarryOut(id: string, actor: Actor, now: nat, move: Edge, reason: string)
      requires id in sessions && move.Move?
      modifies `sessions, `claims, `audit, `history
      ensures View() == ApplyMove(old(View()), id, actor, now, move, reason)
    {
      hide SyncFlags, Recorded;
      var s := sessions[id];
      s := s.(state := move.target);
      if move.resetExpiry {
        s := s.(expiresAt := now + ttl);
      }
      sessions := sessions[id := s.(updatedAt := now)];
      var _ := SyncSessionDerivedFlags(id, now);
      RecordSessionAudit(id, AuditEntry(now, move.origin, move.target, actor, reason));
    }

    method ApplySessionEvent(id: string, actor: Actor, now: nat, event: Event, reason: string) returns (error: Option<Error>)
      modifies `sessions, `claims, `audit, `history
      ensures Outcome(View(), error) == ApplyEvent(old(View()), id, actor, now, event, reason)
    {
      hide EdgeOf, ApplyMove;
      if id !in sessions {
        return Some(SessionNotFound);
      }
      var edge := EdgeOf(sessions[id], id in audit && audit[id] != [], now, event);
      if edge.Err? {
        return Some(edge.error);
      }
      if edge.value.Move? {
        CarryOut(id, actor, now, edge.value, reason);
      }
      error := None;
    }

    // -------------------------------------------------------------- jobs

    method AnyNeedsPoll() returns (found: bool)
      ensures found <==> Active(View()) != {}
    {
      var rest := sessions.Keys;
      while rest != {}
        invariant rest <= sessions.Keys
        invariant forall id :: id in sessions && id !in rest ==> !NeedsPoll(sessions[id])
      {
        var id :| id in rest;
        if NeedsPoll(sessions[id]) {
          OneActive(View(), id);
          return true;
        }
        rest := rest - {id};
      }
      NoneActive(View());
      found := false;
    }

    method RefreshActiveJobIds(now: nat)
      modifies `activeJobs
      ensures View() == Refreshed(old(View()), now)
    {
      var live := set id | id in jobs && HasLiveLease(jobs[id], now) :: Key(0, id);
      var list := Sort(live);
      activeJobs := Ids(list);
    }

    method SyncPaymentPollJob(now: nat)
      modifies `jobs
      ensures View() == SyncPollJob(old(View()), now)
    {
      var waiting := AnyNeedsPoll();
      if !waiting {
        if PollJobId() in jobs && !HasLiveLease(jobs[PollJobId()], now) {
          jobs := jobs[PollJobId() := Idle(jobs[PollJobId()])];
        }
        return;
      }
      if PollJobId() !in jobs {
        jobs := jobs[PollJobId() := NewJob(PaymentPoll, now)];
      }
      var job := jobs[PollJobId()];
      if !HasLiveLease(job, now) {
        jobs := jobs[PollJobId() := RunAt(job, Min(job.nextRun.GetOr(now), now))];
      }
    }

    method EnqueueSpawnExecution(id: string, now: nat)
      modifies `jobs
      ensures View() == EnqueueSpawn(old(View()), id, now)
    {
      var jobId := SpawnJobId(id);
      if jobId !in jobs {
        jobs := jobs[jobId := NewJob(SpawnExecution(id), now)];
      }
      if !HasLiveLease(jobs[jobId], now) {
        jobs := jobs[jobId := RunAt(jobs[jobId], now)];
      }
    }

    method DueJobs(now: nat, limit: nat) returns (ids: seq<string>)
      ensures ids == Chosen(View(), now, limit)
    {
      var keys := set id | id in jobs && IsDue(jobs[id], now) :: Key(jobs[id].nextRun.value, id);
      assert keys == DueKeys(View(), now);
      var due := Sort(keys);
      ids := Ids(First(due, limit));
    }

    method LeaseDueJobs(now: nat, limit: nat) returns (leased: seq<string>)
      modifies `jobs, `activeJobs
      ensures leased == Chosen(old(View()), now, limit)
      ensures View() == LeaseDue(old(View()), now, limit)
    {
      hide Chosen, LeaseAll, ActiveJobs;
      ghost var st := View();
      RefreshActiveJobIds(now);
      leased := DueJobs(now, limit);
      ReadsJobs(st, View(), now, limit);
      ChosenOnce(st, now, limit);
      jobs := LeaseEach(jobs, leased, now);
      ReadsJobs(View(), st.(jobs := jobs), now, limit);
      RefreshActiveJobIds(now);
    }

    method FinalizeJobSuccess(jobId: string, now: nat)
      modifies `jobs, `activeJobs
      ensures View() == FinishSuccess(old(View()), jobId, now)
    {
      var polling := AnyNeedsPoll();
      if jobId !in jobs {
        return;
      }
      jobs := jobs[jobId := AfterSuccess(jobs[jobId], polling, now)];
      RefreshActiveJobIds(now);
    }

    method FinalizeJobFailure(jobId: string, action: FailureAction, now: nat)
      modifies `jobs, `activeJobs
      ensures View() == FinishFailure(old(View()), jobId, action, now)
    {
      var polling := AnyNeedsPoll();
      if jobId !in jobs {
        return;
      }
      jobs := jobs[jobId := AfterFailure(jobs[jobId], action, polling, now)];
      RefreshActiveJobIds(now);
    }

    // -------------------------------------------------------------- retry and failure

    method MarkSessionFailed(id: string, actor: Actor, now: nat, reason: string) returns (error: Option<Error>)
      modifies `sessions, `claims, `audit, `history, `jobs
      ensures Outcome(View(), error) == Fail(old(View()), id, actor, now, reason)
    {
      error := ApplySessionEvent(id, actor, now, SpawnFailed, reason);
      if error.None? && id in sessions && sessions[id].retryable {
        EnqueueSpawnExecution(id, now);
      }
    }

    method RetrySpawnSession(id: string, actor: Actor, now: nat, reason: string) returns (error: Option<Error>)
      modifies `sessions, `claims, `audit, `history, `jobs
      ensures Outcome(View(), error) == RetrySpawn(old(View()), id, actor, now, reason)
    {
      error := ApplySessionEvent(id, actor, now, RetryRequested, reason);
      if error.None? {
        EnqueueSpawnExecution(id, now);
      }
    }

    // -------------------------------------------------------------- payments

    /// The claims of the waiting sessions, and the first block any of them still lacks.
    method ScanNeeds() returns (names: set<string>, least: Option<nat>)
      ensures names == Names(View()) && LeastOf(least, NextBlocks(View()))
    {
      names, least := {}, None;
      var rest := sessions.Keys;
      while rest != {}
        invariant rest <= sessions.Keys
        invariant names == NamesAmong(sessions, sessions.Keys - rest)
        invariant LeastOf(least, NextAmong(sessions, sessions.Keys - rest))
      {
        var id :| id in rest;
        NeedsOneMore(sessions, sessions.Keys - rest, id);
        assert sessions.Keys - (rest - {id}) == (sessions.Keys - rest) + {id};
        var s := sessions[id];
        if NeedsPoll(s) {
          names := names + {s.claimId};
          if s.cursor.Some? && (least.None? || Plus(s.cursor.value, 1) < least.value) {
            least := Some(Plus(s.cursor.value, 1));
          }
        }
        rest := rest - {id};
      }
      assert sessions.Keys - {} == sessions.Keys;
      AllNeeds(View());
    }

    method NextPaymentScanPlan(latest: nat) returns (plan: Option<ScanPlan>)
      ensures plan == Plan(View(), latest)
    {
      var waiting := AnyNeedsPoll();
      if !waiting || depth == 0 || latest < depth - 1 {
        return None;
      }
      var safe := latest - (depth - 1);
      var names, least := ScanNeeds();
      var fallback := if safe >= BASE_LOG_WINDOW_LIMIT - 1 then safe - (BASE_LOG_WINDOW_LIMIT - 1) else 0;
      var first := if least.Some? then least.value else if scanned.Some? then Plus(scanned.value, 1) else fallback;
      LeastIsFirst(View(), safe, least);
      first := Min(first, safe);
      plan := Some(ScanPlan(names, first, Min(Plus(first, BASE_LOG_WINDOW_LIMIT - 1), safe)));
    }

    method ReconcileSession(id: string, g: Groups, ghost first: nat, last: nat, now: nat, canonical: Option<Canonical>)
      returns (error: Option<Error>)
      requires id in claims ==> claims[id].paid < U128_LIMIT && Ascending(claims[id].evidence)
      modifies `sessions, `claims, `audit, `history, `jobs, `covered
      ensures Outcome(View(), error) == ReconcileOne(old(View()), id, g, first, last, now, canonical)
    {
      hide Merge, Verdict, WithMerge, AfterMerge, Ascending;
      if id !in sessions {
        return Some(SessionNotFound);
      }
      if id !in claims {
        return Some(ClaimNotFound);
      }
      var s, c := sessions[id], claims[id];
      var merged := MergedClaimEvidence(c.paid, c.cursor, c.evidence, ScannedFor(g, s.claimId));
      if merged.Err? {
        return Some(ScanRefused);
      }
      var status := PaymentVerdict(id, s, merged.value, canonical);
      if status.None? {
        return Some(ScanRefused);
      }
      StoreMerge(id, merged.value, status.value, first, last, now);
      FollowMerge(id, s, status.value, now);
      error := None;
    }

    method StoreMerge(id: string, m: Merged, status: PaymentStatus, ghost first: nat, last: nat, now: nat)
      requires id in sessions && id in claims
      modifies `sessions, `claims, `covered
      ensures View() == WithMerge(old(View()), id, m, status, first, last, now)
    {
      hide MergedClaim, MergedSession, Window;
      claims := claims[id := MergedClaim(claims[id], m, status, last, now)];
      sessions := sessions[id := MergedSession(sessions[id], m, status, last, now)];
      covered := covered[id := CoveredBy(View(), id) + Window(first, last)];
      var _ := SyncSessionDerivedFlags(id, now);
    }

    method FollowMerge(id: string, was: Session, status: PaymentStatus, now: nat)
      modifies `sessions, `claims, `audit, `history, `jobs
      ensures View() == AfterMerge(old(View()), id, was, status, now)
    {
      hide ApplyEvent, EnqueueSpawn;
      if was.state == AwaitingPayment && status == Paid && now <= was.expiresAt {
        var _ := ApplySessionEvent(id, System, now, PaymentObserved, "payment detected from Base logs");
        EnqueueSpawnExecution(id, now);
      }
      if now > was.expiresAt {
        var _ := ApplySessionEvent(id, System, now, SessionExpired, "payment scan observed expired session");
      }
    }

    method ReconcileEscrowPayments(logs: seq<Log>, ghost first: nat, last: nat, now: nat, canonical: Option<Canonical>)
      returns (error: Option<Error>)
      requires SessionsOk(View())
      modifies `sessions, `claims, `audit, `history, `jobs, `covered, `scanned
      ensures Outcome(View(), error) == Reconcile(old(View()), logs, first, last, now, canonical)
      ensures SessionsOk(View())
    {
      hide ReconcileOne, SessionsOk, OnlyTouches, SyncPollJob, ActiveIds, Groupable, GroupsOf, ToReconcile;
      var groups := AmountsByClaim(logs);
      if groups.Err? {
        return Some(ScanRefused);
      }
      GroupedGroups(logs);
      GroupsAreUnique(groups.value, Grouped(logs), logs);
      var ids := SortedActiveIds();
      ghost var st := View();
      scanned := Some(last);
      SameBooksStayOk(st, View());
      ActiveIdsPending(st);
      PendingSame(st, View(), ids);
      ghost var moved := View();
      var i := 0;
      while i < |ids|
        invariant i <= |ids| && SessionsOk(View()) && ToReconcile(View(), ids[i..])
        invariant ReconcileAll(moved, ids, groups.value, first, last, now, canonical)
          == ReconcileAll(View(), ids[i..], groups.value, first, last, now, canonical)
      {
        ghost var was := View();
        PendingFirst(was, ids[i..]);
        OkSession(was, ids[i]);
        ReconcileOneKeeps(was, ids[i], groups.value, first, last, now, canonical);
        var failed := ReconcileSession(ids[i], groups.value, first, last, now, canonical);
        if failed.Some? {
          return failed;
        }
        PendingAfterOne(was, View(), ids[i..]);
        assert ids[i..][1..] == ids[i + 1..];
        i := i + 1;
      }
      SyncSame(View(), now);
      SameBooksStayOk(View(), SyncPollJob(View(), now));
      SyncPaymentPollJob(now);
      error := None;
    }

    method SortedActiveIds() returns (ids: seq<string>)
      ensures ids == ActiveIds(View())
    {
      var list := Sort(set id | id in sessions && NeedsPoll(sessions[id]) :: Key(0, id));
      assert (set id | id in sessions && NeedsPoll(sessions[id]) :: Key(0, id)) == set id | id in Active(View()) :: Key(0, id);
      ids := Ids(list);
    }

    // -------------------------------------------------------------- creation and refunds

    method CreateSession(id: string, claimId: string, gross: nat, minimum: nat, paused: bool, now: nat) returns (error: Option<Error>)
      modifies `sessions, `claims, `audit, `history, `jobs, `start, `covered
      ensures Outcome(View(), error) == Create(old(View()), id, claimId, gross, minimum, paused, now)
    {
      hide ApplyEvent, SyncPollJob;
      if paused {
        return Some(FactoryPaused);
      }
      if gross < minimum {
        return Some(BelowMinimum);
      }
      var s := Session(claimId, gross, now + ttl, AwaitingPayment, Unpaid, false, false, scanned, None, now);
      sessions := sessions[id := s];
      start, covered := start[id := s.cursor], covered[id := {}];
      error := ApplySessionEvent(id, User, now, SessionCreated, "session created");
      if error.Some? {
        return;
      }
      claims := claims[id := NewClaim(s, now)];
      SyncPaymentPollJob(now);
    }

    method ValidateEscrowRefund(id: string, now: nat) returns (check: RefundCheck)
      ensures check == ValidateRefund(View(), id, now)
    {
      if id !in sessions {
        return Refused(SessionNotFound);
      }
      if id !in claims {
        return Refused(ClaimNotFound);
      }
      var s, c := sessions[id], claims[id];
      if s.payment == Refunded {
        return Already(c.refundedAt.GetOr(now));
      }
      if (s.state != Expired && s.state != Failed) || !s.refundable || !c.refundable {
        return Refused(NotRefundable);
      }
      check := Allowed;
    }

    method FinalizeEscrowRefund(id: string, now: nat) returns (error: Option<Error>)
      modifies `sessions, `claims, `audit, `history, `runtimes
      ensures Outcome(View(), error) == FinalizeRefund(old(View()), id, now)
    {
      hide SyncFlags, Recorded;
      var check := ValidateEscrowRefund(id, now);
      if check.Refused? {
        return Some(check.error);
      }
      if check.Already? {
        return None;
      }
      var s := sessions[id];
      if s.automaton.Some? {
        if s.automaton.value !in runtimes {
          return Some(RuntimeNotFound);
        }
        runtimes := runtimes[s.automaton.value := HandedOver(runtimes[s.automaton.value], now)];
      }
      sessions := sessions[id := s.(payment := Refunded, updatedAt := now)];
      claims := claims[id := claims[id].(payment := Refunded, refundedAt := Some(now), updatedAt := now)];
      var _ := SyncSessionDerivedFlags(id, now);
      RecordSessionAudit(id, AuditEntry(now, Some(s.state), s.state, User, "refund transaction confirmed on-chain"));
      error := None;
    }
  }

  method LeaseEach(jobs: map<string, Job>, leased: seq<string>, now: nat) returns (updated: map<string, Job>)
    requires forall k :: 0 <= k < |leased| ==> leased[k] in jobs
    requires forall k, l :: 0 <= k < l < |leased| ==> leased[k] != leased[l]
    ensures updated == LeaseAll(jobs, leased, now)
  {
    updated := jobs;
    var i := 0;
    while i < |leased|
      invariant i <= |leased| && updated == LeaseAll(jobs, leased[..i], now)
    {
      assert leased[..i + 1] == leased[..i] + [leased[i]];
      updated := updated[leased[i] := Leased(updated[leased[i]], now)];
      i := i + 1;
    }
    assert leased[..i] == leased;
  }

  lemma ChosenOnce(st: State, now: nat, limit: nat)
    ensures var chosen := Chosen(st, now, limit);
      (forall k :: 0 <= k < |chosen| ==> chosen[k] in st.jobs)
      && forall k, l :: 0 <= k < l < |chosen| ==> chosen[k] != chosen[l]
  {
    var list, chosen := Listed(DueKeys(st, now)), Chosen(st, now, limit);
    LeasesTheLeast(st, now, limit);
    ListedFacts(DueKeys(st, now));
    forall k, l | 0 <= k < l < |chosen| ensures chosen[k] != chosen[l] {
      assert list[k] in DueKeys(st, now) && list[l] in DueKeys(st, now);
      EarlierIsTotal(list[k], list[l]);
    }
  }

  lemma ReadsJobs(a: State, b: State, now: nat, limit: nat)
    requires a.jobs == b.jobs
    ensures Chosen(a, now, limit) == Chosen(b, now, limit) && ActiveJobs(a, now) == ActiveJobs(b, now)
  {
    assert DueKeys(a, now) == DueKeys(b, now);
  }

  lemma OneActive(st: State, id: string)
    requires id in st.sessions && NeedsPoll(st.sessions[id])
    ensures Active(st) != {}
  {
    assert id in Active(st);
  }

  lemma NoneActive(st: State)
    requires forall id :: id in st.sessions ==> !NeedsPoll(st.sessions[id])
    ensures Active(st) == {}
  {
  }

  predicate LeastOf(least: Option<nat>, numbers: set<nat>) {
    match least
    case None => numbers == {}
    case Some(x) => IsSmallest(x, numbers)
  }

  lemma LeastIsFirst(st: State, safe: nat, least: Option<nat>)
    requires LeastOf(least, NextBlocks(st))
    ensures least.Some? ==> FirstBlock(st, safe) == least.value
    ensures least.None? <==> NextBlocks(st) == {}
  {
    if least.Some? {
      SomeLeastNumber(NextBlocks(st));
      assert IsSmallest(FirstBlock(st, safe), NextBlocks(st));
    }
  }

  /// The status a merge amounts to, asking the node block by block.
  method PaymentVerdict(id: string, s: Session, m: Merged, canonical: Option<Canonical>) returns (status: Option<PaymentStatus>)
    ensures status == Verdict(id, s, m, canonical)
  {
    var amount := StatusFor(m.total, s.gross);
    if amount != Paid || canonical.None? {
      return Some(amount);
    }
    var i := 0;
    while i < |m.evidence|
      invariant i <= |m.evidence| && Confirmed(id, m.evidence, canonical.value) == Confirmed(id, m.evidence[i..], canonical.value)
    {
      var hash := canonical.value(id, m.evidence[i].block);
      if hash.None? {
        return None;
      }
      if !SameHash(hash.value, m.evidence[i].hash) {
        return Some(Partial);
      }
      assert m.evidence[i..][1..] == m.evidence[i + 1..];
      i := i + 1;
    }
    status := Some(Paid);
  }

  lemma OkSession(st: State, id: string)
    requires SessionsOk(st) && id in Active(st)
    ensures id in st.claims && st.claims[id].paid < U128_LIMIT && Ascending(st.claims[id].evidence)
  {
    assert SessionOk(st, id);
  }

  lemma PendingSame(a: State, b: State, ids: seq<string>)
    requires a.sessions == b.sessions && ToReconcile(a, ids)
    ensures ToReconcile(b, ids) && ids[0..] == ids
  {
    assert Active(a) == Active(b);
  }

  function NamesAmong(sessions: map<string, Session>, ids: set<string>): set<string> {
    set id | id in ids && id in sessions && NeedsPoll(sessions[id]) :: sessions[id].claimId
  }

  function NextAmong(sessions: map<string, Session>, ids: set<string>): set<nat> {
    set id | id in ids && id in sessions && NeedsPoll(sessions[id]) && sessions[id].cursor.Some? :: Plus(sessions[id].cursor.value, 1)
  }

  lemma NeedsOneMore(sessions: map<string, Session>, ids: set<string>, id: string)
    requires id in sessions
    ensures NamesAmong(sessions, ids + {id})
      == NamesAmong(sessions, ids) + if NeedsPoll(sessions[id]) then {sessions[id].claimId} else {}
    ensures NextAmong(sessions, ids + {id}) == NextAmong(sessions, ids)
      + if NeedsPoll(sessions[id]) && sessions[id].cursor.Some? then {Plus(sessions[id].cursor.value, 1)} else {}
  {
  }

  lemma AllNeeds(st: State)
    ensures NamesAmong(st.sessions, st.sessions.Keys) == Names(st)
    ensures NextAmong(st.sessions, st.sessions.Keys) == NextBlocks(st)
  {
    forall name ensures name in NamesAmong(st.sessions, st.sessions.Keys) <==> name in Names(st) {
      if name in NamesAmong(st.sessions, st.sessions.Keys) {
        var id :| id in st.sessions && NeedsPoll(st.sessions[id]) && st.sessions[id].claimId == name;
        assert id in Active(st);
      }
    }
  }
}
