/// What every step of the factory keeps: the money safety of the state machine, the agreement of
/// session and claim, and the audit trail.
module Invariants {
  import opened Evidence
  import opened Factory
  import opened Limits
  import opened Options

  // ---------------------------------------------------------------- one session

  /// Nothing is spawned or released before it is paid for, and nothing is refunded that was.
  predicate MoneyOk(s: Session) {
    (s.state in {PaymentDetected, Spawning, BroadcastingRelease, Complete} ==> s.payment == Paid)
    && (s.state == AwaitingPayment ==> s.payment == Unpaid || s.payment == Partial)
    && (s.state == Failed ==> s.payment == Paid || s.payment == Refunded)
    && (s.payment == Refunded ==> s.state == Failed || s.state == Expired)
  }

  /// Session and claim tell the same story, and the flags follow from it.
  predicate BooksOk(s: Session, c: Claim) {
    c.claimId == s.claimId && c.payment == s.payment && c.cursor == s.cursor && c.refundable == s.refundable
    && s.refundable == DeriveRefundable(s)
    && (s.retryable ==> s.state == Failed && s.payment == Paid)
  }

  /// The evidence is the amount paid, and the status is no better than the amount.
  predicate AmountsOk(s: Session, c: Claim) {
    Ascending(c.evidence) && c.paid == Sum(c.evidence) < U128_LIMIT
    && (s.payment == Paid ==> c.paid >= s.gross)
    && (s.payment == Partial ==> c.paid > 0 || c.paid >= s.gross)
  }

  predicate Linked(trail: seq<AuditEntry>) {
    forall i :: 0 < i < |trail| ==> trail[i].origin == Some(trail[i - 1].target)
  }

  /// The whole trail starts with the creation, is linked, and ends in the session's state; the
  /// stored trail is its last hundred entries.
  predicate TrailOk(s: Session, stored: seq<AuditEntry>, whole: seq<AuditEntry>) {
    whole != [] && whole[0].origin.None? && Linked(whole) && whole[|whole| - 1].target == s.state
    && stored == LastEntries(whole)
  }

  predicate Known(st: State, id: string) {
    id in st.sessions && id in st.claims && id in st.audit && id in st.history && id in st.start && id in st.covered
  }

  /// Everything but the money.
  ghost predicate RecordsOk(st: State, id: string) {
    Known(st, id) && BooksOk(st.sessions[id], st.claims[id]) && AmountsOk(st.sessions[id], st.claims[id])
    && TrailOk(st.sessions[id], st.audit[id], st.history[id])
  }

  ghost predicate SessionOk(st: State, id: string) {
    RecordsOk(st, id) && MoneyOk(st.sessions[id])
  }

  /// No stored trail without a session.
  ghost predicate SessionsOk(st: State) {
    (forall id :: id in st.sessions ==> SessionOk(st, id)) && st.audit.Keys <= st.sessions.Keys && st.history.Keys <= st.sessions.Keys
  }

  // ---------------------------------------------------------------- what a step leaves alone

  predicate SameEntry<T(==)>(a: map<string, T>, b: map<string, T>, id: string) {
    (id in a <==> id in b) && (id in a ==> a[id] == b[id])
  }

  predicate Untouched(st: State, after: State, o: string) {
    SameEntry(st.sessions, after.sessions, o) && SameEntry(st.claims, after.claims, o)
    && SameEntry(st.audit, after.audit, o) && SameEntry(st.history, after.history, o)
    && SameEntry(st.start, after.start, o) && SameEntry(st.covered, after.covered, o)
  }

  ghost predicate OnlyTouches(st: State, after: State, id: string) {
    forall o :: o != id ==> Untouched(st, after, o)
  }

  lemma UntouchedStaysOk(st: State, after: State, o: string)
    requires Untouched(st, after, o) && SessionOk(st, o)
    ensures SessionOk(after, o)
  {
  }

  lemma OneSessionStaysOk(st: State, after: State, id: string)
    requires SessionsOk(st) && OnlyTouches(st, after, id) && SessionOk(after, id)
    ensures SessionsOk(after)
  {
    hide SessionOk;
    forall o | o in after.sessions ensures SessionOk(after, o) {
      if o != id {
        UntouchedStaysOk(st, after, o);
      }
    }
    forall o | o in after.audit ensures o in after.sessions {
      if o == id {
        OkIsKnown(after, id);
      } else {
        assert Untouched(st, after, o);
      }
    }
    forall o | o in after.history ensures o in after.sessions {
      if o == id {
        OkIsKnown(after, id);
      } else {
        assert Untouched(st, after, o);
      }
    }
  }

  lemma OkIsKnown(st: State, id: string)
    requires SessionOk(st, id)
    ensures Known(st, id)
  {
  }

  // ---------------------------------------------------------------- events

  lemma LinkedSnoc(trail: seq<AuditEntry>, entry: AuditEntry)
    requires trail != [] && Linked(trail) && entry.origin == Some(trail[|trail| - 1].target)
    ensures Linked(trail + [entry])
  {
  }

  lemma RecordedTrail(s: Session, moved: Session, stored: seq<AuditEntry>, whole: seq<AuditEntry>, entry: AuditEntry)
    requires TrailOk(s, stored, whole) && entry.origin == Some(s.state) && entry.target == moved.state
    ensures TrailOk(moved, LastEntries(stored + [entry]), whole + [entry])
  {
    LastEntriesOfLast(whole, entry);
    LinkedSnoc(whole, entry);
  }

  function Entered(s: Session, target: SessionState, reset: bool, now: nat, ttl: nat): Session {
    WithFlags(s.(state := target, expiresAt := if reset then now + ttl else s.expiresAt, updatedAt := now), now)
  }

  lemma MoveKeepsBooks(s: Session, c: Claim, target: SessionState, reset: bool, now: nat, ttl: nat)
    requires BooksOk(s, c) && AmountsOk(s, c)
    ensures var t := Entered(s, target, reset, now, ttl);
      var d := c.(refundable := t.refundable, updatedAt := now);
      BooksOk(t, d) && AmountsOk(t, d)
  {
  }

  /// The move an event makes of a stored session, if it makes one.
  function MoveOf(s: Session, now: nat, event: Event): Option<Edge> {
    var edge := EdgeOf(s, true, now, event);
    if edge.Ok? && edge.value.Move? then Some(edge.value) else None
  }

  lemma MoveShape(s: Session, now: nat, event: Event)
    ensures var e := MoveOf(s, now, event); e.Some? ==> e.value.Move? && e.value.origin == Some(s.state)
  {
  }

  function MovedTo(st: State, id: string, actor: Actor, now: nat, move: Edge, reason: string): State
    requires Known(st, id) && move.Move?
  {
    var s := st.sessions[id];
    Carried(st, id, Entered(s, move.target, move.resetExpiry, now, st.ttl),
            AuditEntry(now, Some(s.state), move.target, actor, reason), now)
  }

  /// A move changes one session, its claim and its trail, and nothing else.
  lemma MoveEffect(st: State, id: string, actor: Actor, now: nat, event: Event, reason: string)
    requires Known(st, id) && st.audit[id] != []
    ensures var move := MoveOf(st.sessions[id], now, event);
      ApplyEvent(st, id, actor, now, event, reason).state
      == if move.Some? then MovedTo(st, id, actor, now, move.value, reason) else st
  {
    MoveShape(st.sessions[id], now, event);
    hide EdgeOf, ApplyMove, MovedTo;
    var move := MoveOf(st.sessions[id], now, event);
    if move.Some? {
      MoveCarries(st, id, actor, now, move.value, reason);
    }
  }

  lemma MoveCarries(st: State, id: string, actor: Actor, now: nat, move: Edge, reason: string)
    requires Known(st, id) && move.Move? && move.origin == Some(st.sessions[id].state)
    ensures ApplyMove(st, id, actor, now, move, reason) == MovedTo(st, id, actor, now, move, reason)
  {
    var s := st.sessions[id];
    var moved := s.(state := move.target, expiresAt := if move.resetExpiry then now + st.ttl else s.expiresAt, updatedAt := now);
    Overwrite(st.sessions, id, moved, WithFlags(moved, now));
  }

  lemma Overwrite<K, V>(m: map<K, V>, k: K, x: V, y: V)
    ensures m[k := x][k := y] == m[k := y]
  {
  }

  function Carried(st: State, id: string, s: Session, entry: AuditEntry, now: nat): State
    requires Known(st, id)
  {
    st.(sessions := st.sessions[id := s],
        claims := st.claims[id := st.claims[id].(refundable := s.refundable, updatedAt := now)],
        audit := st.audit[id := LastEntries(st.audit[id] + [entry])],
        history := st.history[id := st.history[id] + [entry]])
  }

  lemma CarriedTouches(st: State, id: string, s: Session, entry: AuditEntry, now: nat)
    requires Known(st, id)
    ensures OnlyTouches(st, Carried(st, id, s, entry, now), id)
    ensures Known(Carried(st, id, s, entry, now), id)
  {
  }

  lemma EventKeepsRecords(st: State, id: string, actor: Actor, now: nat, event: Event, reason: string)
    requires RecordsOk(st, id)
    ensures var after := ApplyEvent(st, id, actor, now, event, reason).state;
      RecordsOk(after, id) && OnlyTouches(st, after, id) && after.jobs == st.jobs
  {
    var after := ApplyEvent(st, id, actor, now, event, reason).state;
    StoredTrail(st, id);
    MoveEffect(st, id, actor, now, event, reason);
    MoveShape(st.sessions[id], now, event);
    var move := MoveOf(st.sessions[id], now, event);
    if move.Some? {
      var s := st.sessions[id];
      var t := Entered(s, move.value.target, move.value.resetExpiry, now, st.ttl);
      var entry := AuditEntry(now, Some(s.state), move.value.target, actor, reason);
      hide BooksOk, AmountsOk, TrailOk, Entered, ApplyEvent, MoveOf;
      MoveKeepsBooks(s, st.claims[id], move.value.target, move.value.resetExpiry, now, st.ttl);
      EnteredState(s, move.value.target, move.value.resetExpiry, now, st.ttl);
      RecordedTrail(s, t, st.audit[id], st.history[id], entry);
      CarriedTouches(st, id, t, entry, now);
    }
  }

  lemma EnteredState(s: Session, target: SessionState, reset: bool, now: nat, ttl: nat)
    ensures Entered(s, target, reset, now, ttl).state == target
  {
  }

  lemma StoredTrail(st: State, id: string)
    requires RecordsOk(st, id)
    ensures Known(st, id) && st.audit[id] != []
  {
  }

  lemma EventKeepsMoney(st: State, id: string, actor: Actor, now: nat, event: Event, reason: string)
    requires RecordsOk(st, id) && MoneyOk(st.sessions[id])
    ensures var after := ApplyEvent(st, id, actor, now, event, reason).state;
      id in after.sessions && MoneyOk(after.sessions[id])
  {
    hide TrailOk, AmountsOk;
    StoredTrail(st, id);
    MoveEffect(st, id, actor, now, event, reason);
  }

  /// No event, legal or refused, breaks a session.
  lemma EventKeepsSessions(st: State, id: string, actor: Actor, now: nat, event: Event, reason: string)
    requires SessionsOk(st)
    ensures SessionsOk(ApplyEvent(st, id, actor, now, event, reason).state)
  {
    if id in st.sessions {
      assert SessionOk(st, id);
      EventKeepsRecords(st, id, actor, now, event, reason);
      EventKeepsMoney(st, id, actor, now, event, reason);
      OneSessionStaysOk(st, ApplyEvent(st, id, actor, now, event, reason).state, id);
    }
  }
}
