/// What an event does to a session, told by the legal moves alone: everything that changes, and that
/// nothing else does (backend/factory/src/session_transitions.rs, backend/factory/src/state.rs).
module Events {
  import opened Factory
  import opened Invariants
  import opened Options

  predicate Moves(s: Session, now: nat, event: Event, target: SessionState) {
    LegalMove(s.state, event, target) && Permitted(s, now, event)
  }

  /// The session after a move: its state, its deadline if it is retried, and the two flags, which
  /// follow from state, payment and deadline.
  predicate Moved(s: Session, t: Session, event: Event, now: nat, ttl: nat) {
    LegalMove(s.state, event, t.state)
    && t == s.(state := t.state, expiresAt := if event == RetryRequested then now + ttl else s.expiresAt,
               retryable := t.retryable, refundable := t.refundable, updatedAt := now)
    && (t.retryable <==> t.state == Failed && t.payment == Paid && now <= t.expiresAt)
    && (t.refundable <==> t.state in {Expired, Failed} && t.payment in {Partial, Paid})
  }

  /// The last hundred entries, or all if there are fewer.
  predicate IsTail(stored: seq<AuditEntry>, whole: seq<AuditEntry>) {
    stored == if |whole| <= 100 then whole else whole[|whole| - 100..]
  }

  /// The whole trail grows by one entry that tells the move, and the stored trail is its tail.
  predicate Audited(st: State, after: State, id: string, entry: AuditEntry)
    requires id in st.history
  {
    id in after.history && id in after.audit && after.history[id] == st.history[id] + [entry]
    && IsTail(after.audit[id], after.history[id])
  }

  /// Nothing but the session, its claim and its trail changes.
  predicate NothingElse(st: State, after: State, id: string) {
    id in after.sessions && id in after.claims && id in after.audit && id in after.history
    && after == st.(sessions := st.sessions[id := after.sessions[id]], claims := st.claims[id := after.claims[id]],
                    audit := st.audit[id := after.audit[id]], history := st.history[id := after.history[id]])
  }

  lemma TailOfTrail(s: Session, stored: seq<AuditEntry>, whole: seq<AuditEntry>, entry: AuditEntry)
    requires TrailOk(s, stored, whole)
    ensures IsTail(LastEntries(stored + [entry]), whole + [entry])
  {
    LastEntriesOfLast(whole, entry);
  }

  lemma MovedToIs(st: State, id: string, actor: Actor, now: nat, move: Edge, reason: string)
    requires Known(st, id) && move.Move?
    ensures var after := MovedTo(st, id, actor, now, move, reason);
      var s := st.sessions[id];
      NothingElse(st, after, id)
      && after.sessions[id] == Entered(s, move.target, move.resetExpiry, now, st.ttl)
      && after.claims[id] == st.claims[id].(refundable := after.sessions[id].refundable, updatedAt := now)
      && after.history[id] == st.history[id] + [AuditEntry(now, Some(s.state), move.target, actor, reason)]
      && after.audit[id] == LastEntries(st.audit[id] + [AuditEntry(now, Some(s.state), move.target, actor, reason)])
  {
    hide LastEntries, Entered;
  }

  lemma MoveOfIs(s: Session, now: nat, event: Event)
    requires event != SessionCreated
    ensures var move := MoveOf(s, now, event);
      (move.Some? <==> exists target :: Moves(s, now, event, target))
      && (move.Some? ==> move.value.Move? && LegalMove(s.state, event, move.value.target)
                         && (move.value.resetExpiry <==> event == RetryRequested))
  {
    var targets := {PaymentDetected, Spawning, BroadcastingRelease, Complete, SessionState.Failed, Expired};
    forall target ensures Moves(s, now, event, target) ==> MoveOf(s, now, event) == Some(Move(Some(s.state), target, event == RetryRequested)) {
      MovesAreExactlyTheLegalOnes(s, true, now, event, target);
    }
    if MoveOf(s, now, event).Some? {
      MovesAreExactlyTheLegalOnes(s, true, now, event, MoveOf(s, now, event).value.target);
      assert Moves(s, now, event, MoveOf(s, now, event).value.target);
    }
  }

  lemma EnteredIsMoved(s: Session, target: SessionState, event: Event, now: nat, ttl: nat)
    requires LegalMove(s.state, event, target)
    ensures Moved(s, Entered(s, target, event == RetryRequested, now, ttl), event, now, ttl)
  {
    hide LegalMove;
  }

  /// Why an event is refused: a payment that is not settled, or a session that may not be retried, is
  /// told apart from a move that is not legal. A check of the deadline is never refused.
  function Complaint(s: Session, event: Event): Option<Error> {
    if event == SessionExpired then None
    else if event == PaymentObserved && s.state == AwaitingPayment then Some(PaymentNotSettled)
    else if event == RetryRequested then
      if s.state == Failed && s.retryable then Some(PaymentNotSettled) else Some(NotRetryable)
    else Some(IllegalTransition)
  }

  /// Main result. An event moves a stored session exactly when a legal move is permitted: then the
  /// session, its claim's flag and its trail change as the move says and nothing else does. Otherwise
  /// nothing changes, and the error is the complaint, if there is one.
  lemma EventExactly(st: State, id: string, actor: Actor, now: nat, event: Event, reason: string)
    requires SessionsOk(st) && id in st.sessions && event != SessionCreated
    ensures Known(st, id)
    ensures var s, after := st.sessions[id], ApplyEvent(st, id, actor, now, event, reason);
      if exists target :: Moves(s, now, event, target) then
        after.error.None? && NothingElse(st, after.state, id) && Moved(s, after.state.sessions[id], event, now, st.ttl)
        && after.state.claims[id] == st.claims[id].(refundable := after.state.sessions[id].refundable, updatedAt := now)
        && Audited(st, after.state, id, AuditEntry(now, Some(s.state), after.state.sessions[id].state, actor, reason))
      else after.state == st && after.error == Complaint(s, event)
  {
    hide ApplyEvent, MovedTo, MoveOf, Moves, Moved, Entered, TrailOk, LastEntries, AmountsOk, BooksOk, IsTail;
    assert SessionOk(st, id);
    StoredTrail(st, id);
    var s := st.sessions[id];
    MoveEffect(st, id, actor, now, event, reason);
    MoveOfIs(s, now, event);
    ErrorsAre(st, id, actor, now, event, reason);
    if MoveOf(s, now, event).Some? {
      var move := MoveOf(s, now, event).value;
      MovedToIs(st, id, actor, now, move, reason);
      EnteredIsMoved(s, move.target, event, now, st.ttl);
      EnteredState(s, move.target, move.resetExpiry, now, st.ttl);
      TailOfTrail(s, st.audit[id], st.history[id], AuditEntry(now, Some(s.state), move.target, actor, reason));
    }
  }

  lemma ErrorsAre(st: State, id: string, actor: Actor, now: nat, event: Event, reason: string)
    requires Known(st, id) && st.audit[id] != [] && event != SessionCreated
    ensures ApplyEvent(st, id, actor, now, event, reason).error.None?
      <==> MoveOf(st.sessions[id], now, event).Some? || event == SessionExpired
    ensures MoveOf(st.sessions[id], now, event).None? ==>
      ApplyEvent(st, id, actor, now, event, reason).error == Complaint(st.sessions[id], event)
  {
    hide ApplyMove;
  }
}
