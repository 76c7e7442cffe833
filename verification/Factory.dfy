/// The factory's sessions, claims and jobs as one value, and the session state machine
/// (backend/factory/src/session_transitions.rs, backend/factory/src/state.rs).
module Factory {
  import opened Evidence
  import opened Options

  const MAX_AUDIT_ENTRIES_PER_SESSION: nat := 100

  datatype SessionState = AwaitingPayment | PaymentDetected | Spawning | BroadcastingRelease | Complete | Failed | Expired

  datatype PaymentStatus = Unpaid | Partial | Paid | Refunded

  datatype Actor = System | User | Admin

  /// `expiresAt` and the other times are milliseconds; `cursor` is the last block scanned for the session.
  datatype Session = Session(
    claimId: string, gross: nat, expiresAt: nat, state: SessionState, payment: PaymentStatus,
    retryable: bool, refundable: bool, cursor: Option<nat>, automaton: Option<string>, updatedAt: nat)

  datatype Claim = Claim(
    claimId: string, paid: nat, payment: PaymentStatus, cursor: Option<nat>,
    evidenceBlock: Option<nat>, evidenceHash: Option<string>, increment: Option<nat>, evidence: seq<Proof>,
    refundable: bool, refundedAt: Option<nat>, updatedAt: nat)

  datatype AuditEntry = AuditEntry(timestamp: nat, origin: Option<SessionState>, target: SessionState, actor: Actor, reason: string)

  datatype JobKind = PaymentPoll | SpawnExecution(session: string)

  datatype JobStatus = Pending | Running | Finished | Backoff | Skipped | Terminal

  datatype FailureAction = Retry | BackOff | Skip | Terminate

  datatype Job = Job(
    kind: JobKind, status: JobStatus, nextRun: Option<nat>, leasedAt: Option<nat>, leasedUntil: Option<nat>,
    lastStarted: Option<nat>, lastFinished: Option<nat>, attempts: nat, failures: nat, successes: nat,
    lastFailure: Option<FailureAction>)

  datatype Runtime = Runtime(handoffCompletedAt: Option<nat>, providerKeysCleared: bool)

  /// The stored state. `history`, `start` and `covered` are not stored by the program: they remember
  /// the whole audit trail, the cursor a session was created with, and the blocks of the scans that
  /// were merged into its claim.
  datatype State = State(
    sessions: map<string, Session>, claims: map<string, Claim>, audit: map<string, seq<AuditEntry>>,
    jobs: map<string, Job>, runtimes: map<string, Runtime>, activeJobs: seq<string>,
    scanned: Option<nat>, ttl: nat, depth: nat,
    history: map<string, seq<AuditEntry>>, start: map<string, Option<nat>>, covered: map<string, set<nat>>)

  datatype Error =
    | SessionNotFound | ClaimNotFound | RuntimeNotFound
    | IllegalTransition | PaymentNotSettled | NotRetryable | NotRefundable
    | ScanRefused | FactoryPaused | BelowMinimum

  // ---------------------------------------------------------------- audit trail

  function LastEntries(entries: seq<AuditEntry>): seq<AuditEntry> {
    if |entries| > MAX_AUDIT_ENTRIES_PER_SESSION then entries[|entries| - MAX_AUDIT_ENTRIES_PER_SESSION..] else entries
  }

  /// `record_session_audit`
  function Recorded(st: State, id: string, entry: AuditEntry): State {
    var entries := if id in st.audit then st.audit[id] else [];
    var trail := if id in st.history then st.history[id] else [];
    st.(audit := st.audit[id := LastEntries(entries + [entry])], history := st.history[id := trail + [entry]])
  }

  /// Dropping the excess at every step leaves what dropping it once would leave.
  lemma LastEntriesOfLast(trail: seq<AuditEntry>, entry: AuditEntry)
    ensures LastEntries(LastEntries(trail) + [entry]) == LastEntries(trail + [entry])
  {
    var n := |trail|;
    if n > MAX_AUDIT_ENTRIES_PER_SESSION {
      assert trail[n - 100..] + [entry] == (trail + [entry])[n - 100..];
      assert (trail + [entry])[n - 100..][1..] == (trail + [entry])[n - 99..];
    }
  }

  // ---------------------------------------------------------------- derived flags

  predicate DeriveRetryable(s: Session, now: nat) {
    s.state == Failed && s.payment == Paid && now <= s.expiresAt
  }

  predicate DeriveRefundable(s: Session) {
    (s.state == Expired || s.state == Failed) && (s.payment == Partial || s.payment == Paid)
  }

  function WithFlags(s: Session, now: nat): Session {
    s.(retryable := DeriveRetryable(s, now), refundable := DeriveRefundable(s))
  }

  /// `sync_session_derived_flags_in_state`, for a stored session.
  function SyncFlags(st: State, id: string, now: nat): State
    requires id in st.sessions
  {
    var s := WithFlags(st.sessions[id], now);
    st.(sessions := st.sessions[id := s],
        claims := if id in st.claims
                  then st.claims[id := st.claims[id].(refundable := s.refundable, updatedAt := now)]
                  else st.claims)
  }

  // ---------------------------------------------------------------- events

  datatype Event =
    | SessionCreated | PaymentObserved | SpawnStarted | InstallSucceeded | ReleaseBroadcast
    | SpawnFailed | RetryRequested | SessionExpired

  /// What an event asks of a session: nothing, or a move recorded from `origin`.
  datatype Edge = Stay | Move(origin: Option<SessionState>, target: SessionState, resetExpiry: bool)

  function EdgeOf(s: Session, audited: bool, now: nat, event: Event): Result<Edge, Error> {
    match event
    case SessionCreated =>
      if s.state != AwaitingPayment || audited then Err(IllegalTransition) else Ok(Move(None, AwaitingPayment, false))
    case PaymentObserved =>
      if s.state != AwaitingPayment then Err(IllegalTransition)
      else if s.payment != Paid then Err(PaymentNotSettled)
      else Ok(Move(Some(s.state), PaymentDetected, false))
    case SpawnStarted =>
      if s.state != PaymentDetected then Err(IllegalTransition) else Ok(Move(Some(s.state), Spawning, false))
    case InstallSucceeded =>
      if s.state != Spawning then Err(IllegalTransition) else Ok(Move(Some(s.state), BroadcastingRelease, false))
    case ReleaseBroadcast =>
      if s.state != BroadcastingRelease then Err(IllegalTransition) else Ok(Move(Some(s.state), Complete, false))
    case SpawnFailed =>
      if s.state == PaymentDetected || s.state == Spawning || s.state == BroadcastingRelease
      then Ok(Move(Some(s.state), Failed, false)) else Err(IllegalTransition)
    case RetryRequested =>
      if s.state != Failed || !s.retryable then Err(NotRetryable)
      else if s.payment != Paid then Err(PaymentNotSettled)
      else Ok(Move(Some(s.state), PaymentDetected, true))
    case SessionExpired =>
      if s.state == Complete || s.state == Expired || s.payment == Refunded || now <= s.expiresAt then Ok(Stay)
      else Ok(Move(Some(s.state), Expired, false))
  }

  /// The moves a session can make, apart from being created.
  predicate LegalMove(origin: SessionState, event: Event, target: SessionState) {
    (origin, event, target) in {
      (AwaitingPayment, PaymentObserved, PaymentDetected),
      (PaymentDetected, SpawnStarted, Spawning),
      (Spawning, InstallSucceeded, BroadcastingRelease),
      (BroadcastingRelease, ReleaseBroadcast, Complete),
      (PaymentDetected, SpawnFailed, Failed), (Spawning, SpawnFailed, Failed), (BroadcastingRelease, SpawnFailed, Failed),
      (Failed, RetryRequested, PaymentDetected),
      (AwaitingPayment, SessionExpired, Expired), (PaymentDetected, SessionExpired, Expired),
      (Spawning, SessionExpired, Expired), (BroadcastingRelease, SessionExpired, Expired), (Failed, SessionExpired, Expired)}
  }

  /// What the money and the clock must say for an event to move a session.
  predicate Permitted(s: Session, now: nat, event: Event) {
    match event
    case SessionCreated => false
    case PaymentObserved => s.payment == Paid
    case RetryRequested => s.payment == Paid && s.retryable
    case SessionExpired => s.payment != Refunded && now > s.expiresAt
    case _ => true
  }

  /// Exactly the legal moves happen, exactly when they are permitted; only a retry moves the deadline.
  lemma MovesAreExactlyTheLegalOnes(s: Session, audited: bool, now: nat, event: Event, target: SessionState)
    requires event != SessionCreated
    ensures (LegalMove(s.state, event, target) && Permitted(s, now, event))
      <==> EdgeOf(s, audited, now, event) == Ok(Move(Some(s.state), target, event == RetryRequested))
    ensures EdgeOf(s, audited, now, event) == Ok(Stay)
      <==> event == SessionExpired && !(LegalMove(s.state, event, Expired) && Permitted(s, now, event))
  {
    match event
    case SessionCreated =>
    case PaymentObserved =>
    case SpawnStarted =>
    case InstallSucceeded =>
    case ReleaseBroadcast =>
    case SpawnFailed =>
    case RetryRequested =>
    case SessionExpired =>
  }

  /// A refused event and an expiry that does not apply change nothing.
  datatype Outcome = Outcome(state: State, error: Option<Error>)

  function ApplyMove(st: State, id: string, actor: Actor, now: nat, move: Edge, reason: string): State
    requires id in st.sessions && move.Move?
  {
    var s := st.sessions[id];
    var moved := s.(state := move.target, expiresAt := if move.resetExpiry then now + st.ttl else s.expiresAt, updatedAt := now);
    Recorded(SyncFlags(st.(sessions := st.sessions[id := moved]), id, now), id,
             AuditEntry(now, move.origin, move.target, actor, reason))
  }

  /// `apply_session_event_in_state`
  function ApplyEvent(st: State, id: string, actor: Actor, now: nat, event: Event, reason: string): Outcome {
    if id !in st.sessions then Outcome(st, Some(SessionNotFound))
    else
      match EdgeOf(st.sessions[id], id in st.audit && st.audit[id] != [], now, event)
      case Err(e) => Outcome(st, Some(e))
      case Ok(edge) => Outcome(if edge.Move? then ApplyMove(st, id, actor, now, edge, reason) else st, None)
  }
}
