/// Payment polling, session creation and the refund's last step (backend/factory/src/escrow.rs,
/// backend/factory/src/api/public.rs).
module Escrow {
  import opened Deposits
  import opened Evidence
  import opened Factory
  import opened Ledger
  import opened Limits
  import opened Options
  import opened Order
  import opened Scheduler

  const BASE_LOG_WINDOW_LIMIT: nat := 10000

  // ---------------------------------------------------------------- planning a scan

  datatype ScanPlan = ScanPlan(names: set<string>, first: nat, last: nat)

  function Min(a: nat, b: nat): nat {
    if a <= b then a else b
  }

  function Plus(a: nat, b: nat): nat {
    Min(a + b, U64_MAX)
  }

  predicate IsSmallest(x: nat, numbers: set<nat>) {
    x in numbers && forall y :: y in numbers ==> x <= y
  }

  lemma {:induction false} FindLeast(numbers: set<nat>) returns (x: nat)
    requires numbers != {}
    ensures IsSmallest(x, numbers)
  {
    x :| x in numbers;
    if numbers != {x} {
      var y := FindLeast(numbers - {x});
      assert forall z :: z in numbers ==> z == x || z in numbers - {x};
      if y < x {
        x := y;
      }
    }
  }

  lemma SomeLeastNumber(numbers: set<nat>)
    requires numbers != {}
    ensures exists x :: IsSmallest(x, numbers)
  {
    var _ := FindLeast(numbers);
  }

  /// The block after the last one scanned, for every polled session that has been scanned.
  function NextBlocks(st: State): set<nat> {
    set id | id in st.sessions && NeedsPoll(st.sessions[id]) && st.sessions[id].cursor.Some?
      :: Plus(st.sessions[id].cursor.value, 1)
  }

  function Names(st: State): set<string> {
    set id | id in Active(st) :: st.sessions[id].claimId
  }

  function SafeHead(st: State, latest: nat): nat
    requires st.depth > 0 && latest >= st.depth - 1
  {
    latest - (st.depth - 1)
  }

  ghost function FirstBlock(st: State, safe: nat): nat {
    if NextBlocks(st) != {} then
      SomeLeastNumber(NextBlocks(st));
      var b: nat :| IsSmallest(b, NextBlocks(st));
      b
    else if st.scanned.Some? then Plus(st.scanned.value, 1)
    else if safe >= BASE_LOG_WINDOW_LIMIT - 1 then safe - (BASE_LOG_WINDOW_LIMIT - 1) else 0
  }

  /// `next_payment_scan_plan`
  ghost function Plan(st: State, latest: nat): Option<ScanPlan> {
    if Active(st) == {} || st.depth == 0 || latest < st.depth - 1 then None
    else
      var safe := SafeHead(st, latest);
      var first := Min(FirstBlock(st, safe), safe);
      Some(ScanPlan(Names(st), first, Min(Plus(first, BASE_LOG_WINDOW_LIMIT - 1), safe)))
  }

  /// A window has at most ten thousand blocks, each with the required confirmations under the head
  /// it was planned for, and starts no later than the first block any polled session still lacks.
  lemma PlanIsSafe(st: State, latest: nat)
    requires latest <= U64_MAX && Plan(st, latest).Some?
    ensures var p := Plan(st, latest).value;
      p.first <= p.last && p.last - p.first < BASE_LOG_WINDOW_LIMIT
      && p.last <= latest && latest - p.last + 1 >= st.depth
      && (forall id :: id in Active(st) && st.sessions[id].cursor.Some? ==>
           st.sessions[id].claimId in p.names && p.first <= Plus(st.sessions[id].cursor.value, 1))
  {
    forall id | id in Active(st) && st.sessions[id].cursor.Some?
      ensures Plus(st.sessions[id].cursor.value, 1) in NextBlocks(st)
    {
    }
    if NextBlocks(st) != {} {
      SomeLeastNumber(NextBlocks(st));
      assert IsSmallest(FirstBlock(st, SafeHead(st, latest)), NextBlocks(st));
    }
  }

  predicate Scanned(st: State, id: string) {
    id in st.sessions && NeedsPoll(st.sessions[id]) && st.sessions[id].cursor.Some?
  }

  /// Where a scan starts: after the cursor that lags furthest behind; if no polled session was ever
  /// scanned, after the last scan; if there was none, ten thousand blocks back. Never above the head.
  ghost predicate StartsAt(st: State, safe: nat, first: nat) {
    first <= safe
    && (if exists id :: Scanned(st, id) then
          (forall id :: Scanned(st, id) ==> first <= Plus(st.sessions[id].cursor.value, 1))
          && (first == safe || exists id :: Scanned(st, id) && first == Plus(st.sessions[id].cursor.value, 1))
        else if st.scanned.Some? then first == Min(Plus(st.scanned.value, 1), safe)
        else first == if safe >= 9999 then safe - 9999 else 0)
  }

  /// There is something to scan exactly when a session is polled and the chain is as long as the
  /// required depth; the scan then names every polled session's claim, starts where it should, and
  /// ends ten thousand blocks on or at the last block that is deep enough.
  lemma PlanExactly(st: State, latest: nat)
    requires latest <= U64_MAX
    ensures Plan(st, latest).Some? <==> (exists id :: id in st.sessions && NeedsPoll(st.sessions[id])) && 1 <= st.depth <= latest + 1
    ensures Plan(st, latest).Some? ==>
      (var p, safe := Plan(st, latest).value, latest + 1 - st.depth;
       StartsAt(st, safe, p.first) && p.last == (if p.first + 9999 <= safe then p.first + 9999 else safe)
       && forall c :: c in p.names <==> exists id :: id in st.sessions && NeedsPoll(st.sessions[id]) && st.sessions[id].claimId == c)
  {
    SomeoneIsPolled(st);
    if Plan(st, latest).Some? {
      ScannedBlocks(st);
      if NextBlocks(st) != {} {
        SomeLeastNumber(NextBlocks(st));
        assert IsSmallest(FirstBlock(st, SafeHead(st, latest)), NextBlocks(st));
      }
      NamedClaims(st);
    }
  }

  lemma SomeoneIsPolled(st: State)
    ensures Active(st) != {} <==> exists id :: id in st.sessions && NeedsPoll(st.sessions[id])
  {
    if id :| id in st.sessions && NeedsPoll(st.sessions[id]) {
      assert id in Active(st);
    }
    if Active(st) != {} {
      var id :| id in Active(st);
    }
  }

  lemma ScannedBlocks(st: State)
    ensures forall b :: b in NextBlocks(st) <==> exists id :: Scanned(st, id) && b == Plus(st.sessions[id].cursor.value, 1)
    ensures NextBlocks(st) != {} <==> exists id :: Scanned(st, id)
    ensures forall id :: Scanned(st, id) ==> Plus(st.sessions[id].cursor.value, 1) in NextBlocks(st)
  {
    forall id | Scanned(st, id) ensures Plus(st.sessions[id].cursor.value, 1) in NextBlocks(st) {
    }
    if NextBlocks(st) != {} {
      var b :| b in NextBlocks(st);
    }
  }

  lemma NamedClaims(st: State)
    ensures forall c :: c in Names(st) <==>
      exists id :: id in st.sessions && NeedsPoll(st.sessions[id]) && st.sessions[id].claimId == c
  {
    forall c ensures c in Names(st) <==>
      exists id :: id in st.sessions && NeedsPoll(st.sessions[id]) && st.sessions[id].claimId == c
    {
      if id :| id in st.sessions && NeedsPoll(st.sessions[id]) && st.sessions[id].claimId == c {
        assert id in Active(st);
      }
    }
  }

  // ---------------------------------------------------------------- reconciling one session

  function StatusFor(total: nat, required: nat): PaymentStatus {
    if total >= required then Paid else if total > 0 then Partial else Unpaid
  }

  /// The node's answer for the hash of a block, asked while reconciling a session; `None` is a failed call.
  type Canonical = (string, nat) -> Option<string>

  /// Whether every proof is on the canonical chain, as far as the node answers before a mismatch.
  function Confirmed(id: string, evidence: seq<Proof>, canonical: Canonical): Option<bool>
    decreases |evidence|
  {
    if evidence == [] then Some(true)
    else
      match canonical(id, evidence[0].block)
      case None => None
      case Some(hash) => if !SameHash(hash, evidence[0].hash) then Some(false) else Confirmed(id, evidence[1..], canonical)
  }

  /// The payment status after a merge: paid in full only if the evidence is still canonical.
  function Verdict(id: string, s: Session, m: Merged, canonical: Option<Canonical>): Option<PaymentStatus> {
    var status := StatusFor(m.total, s.gross);
    if status != Paid || canonical.None? then Some(status)
    else
      match Confirmed(id, m.evidence, canonical.value)
      case None => None
      case Some(all) => Some(if all then Paid else Partial)
  }

  function MergedClaim(c: Claim, m: Merged, status: PaymentStatus, last: nat, now: nat): Claim {
    var n := |m.evidence|;
    c.(paid := m.total, payment := status, evidence := m.evidence,
       evidenceBlock := if n > 0 then Some(m.evidence[n - 1].block) else None,
       evidenceHash := if n > 0 then Some(m.evidence[n - 1].hash) else None,
       increment := if m.increment > 0 then Some(m.increment) else None,
       cursor := Some(Max(last, m.cursor.GetOr(0))), updatedAt := now)
  }

  function MergedSession(s: Session, m: Merged, status: PaymentStatus, last: nat, now: nat): Session {
    s.(payment := status, cursor := Some(Max(last, m.cursor.GetOr(0))), updatedAt := now)
  }

  function CoveredBy(st: State, id: string): set<nat> {
    if id in st.covered then st.covered[id] else {}
  }

  /// The merge and the derived flags.
  function WithMerge(st: State, id: string, m: Merged, status: PaymentStatus, first: nat, last: nat, now: nat): State
    requires id in st.sessions && id in st.claims
  {
    var s := MergedSession(st.sessions[id], m, status, last, now);
    var c := MergedClaim(st.claims[id], m, status, last, now);
    SyncFlags(st.(sessions := st.sessions[id := s], claims := st.claims[id := c],
                  covered := st.covered[id := CoveredBy(st, id) + Window(first, last)]), id, now)
  }

  /// A payment in time starts the spawn; a deadline that has passed ends the session.
  function AfterMerge(st: State, id: string, was: Session, status: PaymentStatus, now: nat): State {
    var detected := was.state == AwaitingPayment && status == Paid && now <= was.expiresAt;
    var noticed := if detected
      then EnqueueSpawn(ApplyEvent(st, id, System, now, PaymentObserved, "payment detected from Base logs").state, id, now)
      else st;
    if now > was.expiresAt
    then ApplyEvent(noticed, id, System, now, SessionExpired, "payment scan observed expired session").state
    else noticed
  }

  ghost function ReconcileOne(st: State, id: string, g: Groups, first: nat, last: nat, now: nat, canonical: Option<Canonical>)
    : Outcome
  {
    if id !in st.sessions then Outcome(st, Some(SessionNotFound))
    else if id !in st.claims then Outcome(st, Some(ClaimNotFound))
    else
      var s, c := st.sessions[id], st.claims[id];
      match Merge(c.paid, c.cursor, c.evidence, ScannedFor(g, s.claimId))
      case None => Outcome(st, Some(ScanRefused))
      case Some(m) =>
        match Verdict(id, s, m, canonical)
        case None => Outcome(st, Some(ScanRefused))
        case Some(status) => Outcome(AfterMerge(WithMerge(st, id, m, status, first, last, now), id, s, status, now), None)
  }

  // ---------------------------------------------------------------- reconciling all of them

  /// A session that cannot be reconciled stops the loop; what was written before it stays.
  ghost function ReconcileAll(st: State, ids: seq<string>, g: Groups, first: nat, last: nat, now: nat, canonical: Option<Canonical>)
    : Outcome
    decreases |ids|
  {
    if ids == [] then Outcome(SyncPollJob(st, now), None)
    else
      var one := ReconcileOne(st, ids[0], g, first, last, now, canonical);
      if one.error.Some? then one else ReconcileAll(one.state, ids[1..], g, first, last, now, canonical)
  }

  ghost function ActiveIds(st: State): seq<string> {
    Ids(Listed(set id | id in Active(st) :: Key(0, id)))
  }

  /// `reconcile_escrow_payments` without the deletion of secrets: logs that do not group change
  /// nothing, otherwise the scan position moves first.
  ghost function Reconcile(st: State, logs: seq<Log>, first: nat, last: nat, now: nat, canonical: Option<Canonical>): Outcome {
    if !Groupable(logs) then Outcome(st, Some(ScanRefused))
    else ReconcileAll(st.(scanned := Some(last)), ActiveIds(st), Grouped(logs), first, last, now, canonical)
  }

  /// `poll_escrow_payments` once the node has answered.
  ghost function Poll(st: State, latest: nat, logs: seq<Log>, now: nat, canonical: Option<Canonical>): Outcome {
    match Plan(st, latest)
    case None => Outcome(st, None)
    case Some(p) => Reconcile(st, logs, p.first, p.last, now, canonical)
  }

  // ---------------------------------------------------------------- creating a session

  function NewSession(st: State, claimId: string, gross: nat, now: nat): Session {
    Session(claimId, gross, now + st.ttl, AwaitingPayment, Unpaid, false, false, st.scanned, None, now)
  }

  /// `register_escrow_claim`
  function NewClaim(s: Session, now: nat): Claim {
    Claim(s.claimId, 0, Unpaid, s.cursor, None, None, None, [], false, None, now)
  }

  /// The state-changing part of `create_spawn_session_with_session_id`.
  function Create(st: State, id: string, claimId: string, gross: nat, minimum: nat, paused: bool, now: nat): Outcome {
    if paused then Outcome(st, Some(FactoryPaused))
    else if gross < minimum then Outcome(st, Some(BelowMinimum))
    else
      var s := NewSession(st, claimId, gross, now);
      var created := ApplyEvent(st.(sessions := st.sessions[id := s], start := st.start[id := s.cursor],
                                    covered := st.covered[id := {}]),
                                id, User, now, SessionCreated, "session created");
      if created.error.Some? then created
      else Outcome(SyncPollJob(created.state.(claims := created.state.claims[id := NewClaim(s, now)]), now), None)
  }

  // ---------------------------------------------------------------- refunds

  datatype RefundCheck = Already(refundedAt: nat) | Allowed | Refused(error: Error)

  /// `validate_escrow_refund_in_state`
  function ValidateRefund(st: State, id: string, now: nat): RefundCheck {
    if id !in st.sessions then Refused(SessionNotFound)
    else if id !in st.claims then Refused(ClaimNotFound)
    else
      var s, c := st.sessions[id], st.claims[id];
      if s.payment == Refunded then Already(c.refundedAt.GetOr(now))
      else if (s.state != Expired && s.state != Failed) || !s.refundable || !c.refundable then Refused(NotRefundable)
      else Allowed
  }

  function HandedOver(r: Runtime, now: nat): Runtime {
    Runtime(if r.handoffCompletedAt.None? then Some(now) else r.handoffCompletedAt, true)
  }

  /// `finalize_escrow_refund_in_state`
  function FinalizeRefund(st: State, id: string, now: nat): Outcome {
    match ValidateRefund(st, id, now)
    case Refused(e) => Outcome(st, Some(e))
    case Already(_) => Outcome(st, None)
    case Allowed =>
      var s, c := st.sessions[id], st.claims[id];
      if s.automaton.Some? && s.automaton.value !in st.runtimes then Outcome(st, Some(RuntimeNotFound))
      else
        var runtimes := if s.automaton.Some?
          then st.runtimes[s.automaton.value := HandedOver(st.runtimes[s.automaton.value], now)] else st.runtimes;
        var paidBack := st.(runtimes := runtimes,
          sessions := st.sessions[id := s.(payment := Refunded, updatedAt := now)],
          claims := st.claims[id := c.(payment := Refunded, refundedAt := Some(now), updatedAt := now)]);
        Outcome(Recorded(SyncFlags(paidBack, id, now), id,
                         AuditEntry(now, Some(s.state), s.state, User, "refund transaction confirmed on-chain")), None)
  }
}
