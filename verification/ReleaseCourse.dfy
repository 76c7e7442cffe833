/// The whole course of a release: from a paid session, eight messages lead to a complete session, with
/// everything that is then on record (backend/factory/src/spawn.rs, backend/factory/src/evm.rs).
module ReleaseCourse {
  import opened Confirmations
  import opened Deposits
  import opened Factory
  import opened Limits
  import opened Options
  import opened RefundDraft
  import Refund
  import opened Release
  import ReleaseFinish
  import opened ReleaseLocal
  import opened ReleaseReach
  import opened ReleaseSafety

  /// What is on record of a session that was spawned and released: the hash and the record of the one
  /// transaction that was sent, its receipt, and the canister with the controllers that were verified.
  ghost predicate Released(w: World, v: World, s: string, now: nat, i: Inputs, text: string, a: Refund.Answer)
    requires a.Confirmation? && a.receipt.Some?
  {
    s in v.st.sessions && v.st.sessions[s].state == Complete && v.st.sessions[s].payment == Paid
    && v.st.sessions[s].automaton == Some(i.canister)
    && s in v.txHash && v.txHash[s] == text
    && RecordOf(v, s) == Some(Seen(SentRecord(i).(rpcTxHash := Some(text), broadcastAt := Some(now)), a))
    && i.canister in v.registry && v.registry[i.canister] == Entry(s, i.controllers) && (i.canister, i.controllers) in v.handoffs
    && (s, text) in v.confirmed && v.sent == w.sent + [(s, i.rawHash)] && v.execs == w.execs
  }

  lemma ReleaseEventKeeps(st: State, s: string, now: nat, reason: string)
    requires s in st.sessions && PaidIn(st, s, BroadcastingRelease, st.sessions[s].expiresAt)
    ensures var after := ApplyEvent(st, s, System, now, ReleaseBroadcast, reason).state;
      s in after.sessions && after.sessions[s].state == Complete && after.sessions[s].payment == Paid
      && after.sessions[s].automaton == st.sessions[s].automaton
  {
    hide ApplyEvent;
    MovesTo(st, s, now, ReleaseBroadcast, reason, Complete);
  }

  lemma OwnConfirms(u: World, id: nat, e: Exec, record: Record, hash: string, a: Refund.Answer)
    requires id in u.execs && u.execs[id] == e && e.phase == AtConfirm(record, hash) && Guarded(u, e) && Deep(a, e.depth)
    requires e.session in u.st.sessions
    ensures a.Confirmation? && a.receipt.Some?
    ensures var v := Resume(u, id, Receipts(a));
      v.st == ApplyEvent(u.st, e.session, System, e.now, ReleaseBroadcast,
                         "spawn completed after receipt-confirmed release and controller handoff").state
      && v.txHash == u.txHash[e.session := hash] && RecordOf(v, e.session) == Some(Seen(record, a))
      && v.registry == u.registry[e.canister := Entry(e.session, e.controllers)]
      && v.confirmed == u.confirmed + {(e.session, hash)} && v.handoffs == u.handoffs && v.sent == u.sent && v.execs == u.execs - {id}
  {
    hide Guarded, ApplyEvent, Refund.ConfirmDepth, BroadcastError, SameDraft, Deep;
    DeepHasReceipt(a, e.depth);
    ConfirmsExactly(record, e.depth, a);
    ReleaseFinish.OwnDraft(u, e.session, Seen(record, a));
    ReleaseFinish.NotedDraft(Persisted(u, e.session, Seen(record, a)), e.session, Seen(record, a), hash);
  }

  lemma ConfirmedIsReleased(w: World, u: World, s: string, id: nat, now: nat, deadline: nat, i: Inputs, text: string, a: Refund.Answer)
    requires OnTheWay(w, u, s, id, i.canister, now, BroadcastingRelease, deadline) && Deep(a, w.st.depth)
    requires u.execs[id].phase == AtConfirm(SentRecord(i).(rpcTxHash := Some(text), broadcastAt := Some(now)), text)
    requires u.execs[id].canister == i.canister && u.execs[id].controllers == i.controllers
    requires (i.canister, i.controllers) in u.handoffs && u.st.sessions[s].automaton == Some(i.canister)
    requires u.sent == w.sent + [(s, i.rawHash)]
    ensures a.Confirmation? && a.receipt.Some? && Goes(u, Continue(id, Receipts(a)), Resume(u, id, Receipts(a)))
    ensures Released(w, Resume(u, id, Receipts(a)), s, now, i, text, a)
  {
    hide ApplyEvent, Resume, Guarded, Deep, SentRecord, HasHash, Seen, RecordOf;
    StillGuarded(w, u, s, id, i.canister, now, deadline);
    DeepHasReceipt(a, w.st.depth);
    OwnConfirms(u, id, u.execs[id], SentRecord(i).(rpcTxHash := Some(text), broadcastAt := Some(now)), text, a);
    ReleaseEventKeeps(u.st, s, now, "spawn completed after receipt-confirmed release and controller handoff");
  }

  /// Main result. From a paid session that is ready to be spawned, an execution that nothing stops
  /// completes it in eight messages, sends one transaction, and leaves it on record with its receipt, its
  /// canister and the controllers that were verified.
  lemma ReleaseSucceeds(w: World, s: string, id: nat, now: nat, deadline: nat, i: Inputs, text: string, a: Refund.Answer)
    returns (v: World)
    requires Ready(w, s, i.canister, deadline) && id !in w.execs && Deep(a, w.st.depth)
    ensures a.Confirmation? && a.receipt.Some? && Reaches(w, v) && Released(w, v, s, now, i, text, a)
  {
    hide Ready, OnTheWay, Goes, Reaches, Resume, Guarded, Deep, Released, SentRecord;
    DeepHasReceipt(a, w.st.depth);
    var u := SixMessages(w, s, id, now, deadline, i);
    OwnExec(w, u, s, id, i.canister, now, BroadcastingRelease, deadline);
    StillGuarded(w, u, s, id, i.canister, now, deadline);
    HashArrives(u, id, SentRecord(i), text);
    StartedAt(w, u, s, id, i.canister, now, deadline);
    var known := SentRecord(i).(rpcTxHash := Some(text), broadcastAt := Some(now));
    var asked := Waiting(u, id, u.execs[id], AtConfirm(known, text));
    StepPhase(w, u, s, id, i.canister, now, deadline, AtConfirm(known, text));
    ConfirmedIsReleased(w, asked, s, id, now, deadline, i, text, a);
    v := Resume(asked, id, Receipts(a));
    ReachesOne(asked, Continue(id, Receipts(a)), v);
    ReachesFirst(u, Continue(id, Hash(text)), asked, v);
    ReachesThen(w, u, v);
  }

  lemma StartedAt(w: World, u: World, s: string, id: nat, canister: string, now: nat, deadline: nat)
    requires OnTheWay(w, u, s, id, canister, now, BroadcastingRelease, deadline)
    ensures id in u.execs && u.execs[id].now == now && s in u.st.sessions
  {
  }

  /// From nothing to a spawned automaton: for every price, depth and hash, and under any replies of a
  /// willing node and key service, a run from the start creates a session, detects its deposit, spawns,
  /// releases and completes it.
  lemma DepositBecomesAutomaton(ttl: nat, depth: nat, s: string, claimId: string, gross: nat, minimum: nat, hash: string, now: nat,
                                i: Inputs, text: string, a: Refund.Answer) returns (v: World)
    requires 1 <= depth <= U64_MAX && minimum <= gross < U128_LIMIT && Deep(a, depth)
    ensures a.Confirmation? && a.receipt.Some? && Reaches(Start(ttl, depth), v)
    ensures s in v.st.sessions && v.st.sessions[s].state == Complete && v.st.sessions[s].automaton == Some(i.canister)
    ensures s in v.txHash && v.txHash[s] == text && v.sent == [(s, i.rawHash)] && (s, text) in v.confirmed
  {
    hide Reaches, Ready, Deep, SentRecord, Seen;
    DeepHasReceipt(a, depth);
    var ready := ReadyFromTheStart(ttl, depth, s, claimId, gross, minimum, hash, now, i.canister);
    v := ReleaseSucceeds(ready, s, 0, now, now + ttl, i, text, a);
    ReachesThen(Start(ttl, depth), ready, v);
  }
}
