/// Finishing a confirmed release, in whichever way it was confirmed: what is always written, when the
/// session completes, and when it may be refunded all the same (backend/factory/src/spawn.rs).
module ReleaseFinish {
  import opened Confirmations
  import Escrow
  import opened Factory
  import FactoryRuns
  import Invariants
  import opened Options
  import Polling
  import opened RefundDraft
  import Refund
  import opened Release
  import opened ReleaseLocal
  import opened ReleaseRuns
  import opened ReleaseSafety
  import opened ReleaseTwins

  // ---------------------------------------------------------------- every way of finishing

  /// The answer is a successful, canonical receipt under as many blocks as asked for.
  predicate Confirms(depth: nat, answer: Answer) {
    answer.Receipts? && Deep(answer.answer, depth)
  }

  /// The messages that finish a release: the confirmation of an own transaction or of one on record,
  /// and the controllers of a resumed one.
  predicate Finishes(w: World, id: nat, answer: Answer) {
    id in w.execs && Guarded(w, w.execs[id])
    && (((w.execs[id].phase.AtConfirm? || w.execs[id].phase.AtExisting?) && Confirms(w.execs[id].depth, answer))
        || (w.execs[id].phase.AtHandoff? && answer.HandedOver? && SameDraft(RecordOf(w, w.execs[id].session), Some(w.execs[id].phase.plan))))
  }

  /// What finishing does to the session's state.
  ghost predicate Finished(w: World, v: World, s: string, canister: string, hash: string) {
    s in w.st.sessions && s in v.st.sessions && s in v.txHash && v.txHash[s] == hash && RegisteredFor(v, canister, s)
    && v.st.sessions[s].payment == w.st.sessions[s].payment && FactoryRuns.Safe(v.st)
    && v.st.sessions[s].state == (if w.st.sessions[s].state == BroadcastingRelease then Complete else w.st.sessions[s].state)
  }

  lemma ReleaseEvent(st: State, s: string, now: nat, reason: string)
    requires FactoryRuns.Safe(st) && s in st.sessions
    ensures var after := ApplyEvent(st, s, System, now, ReleaseBroadcast, reason).state;
      FactoryRuns.Safe(after) && s in after.sessions && after.sessions[s].payment == st.sessions[s].payment
      && after.sessions[s].state == (if st.sessions[s].state == BroadcastingRelease then Complete else st.sessions[s].state)
  {
    hide FactoryRuns.Safe, ApplyEvent, Target, OnlySession;
    EventOne(st, s, now, ReleaseBroadcast, reason);
    SpawnTargets(st.sessions[s], now);
    OnlyKnows(st, ApplyEvent(st, s, System, now, ReleaseBroadcast, reason).state, s);
    EventKeepsPayment(st, s, now, ReleaseBroadcast, reason);
  }

  lemma EventKeepsPayment(st: State, s: string, now: nat, event: Event, reason: string)
    requires s in st.sessions
    ensures var after := ApplyEvent(st, s, System, now, event, reason).state;
      s in after.sessions && after.sessions[s].payment == st.sessions[s].payment
  {
    hide LastEntries, EdgeOf;
  }

  lemma FinalizeFinishes(w: World, u: World, id: nat, e: Exec, record: Record, hash: string)
    requires FactoryRuns.Safe(w.st) && u.st == w.st && e.session in w.st.sessions && SameDraft(RecordOf(u, e.session), Some(record))
    ensures Finished(w, Finalize(u, id, e, record, hash), e.session, e.canister, hash)
  {
    hide FactoryRuns.Safe, ApplyEvent, SameDraft;
    ReleaseEvent(w.st, e.session, e.now, "spawn completed after receipt-confirmed release and controller handoff");
  }

  lemma OwnDraft(w: World, s: string, record: Record)
    ensures SameDraft(RecordOf(Persisted(w, s, record), s), Some(record))
  {
  }

  lemma ConfirmedFinishes(w: World, id: nat, e: Exec, answer: Answer)
    requires FactoryRuns.Safe(w.st) && id in w.execs && w.execs[id] == e && e.session in w.st.sessions && Guarded(w, e)
    requires (e.phase.AtConfirm? || e.phase.AtExisting?) && Confirms(e.depth, answer)
    ensures Finished(w, Resume(w, id, answer), e.session, e.canister, e.phase.hash)
  {
    hide FactoryRuns.Safe, Finalize, Guarded, SameDraft, Finished, Refund.ConfirmDepth, BroadcastError, FailSpawn, Deep;
    DeepHasReceipt(answer.answer, e.depth);
    ConfirmsExactly(e.phase.plan, e.depth, answer.answer);
    var seen := Refund.ConfirmDepth(e.phase.plan, e.depth, answer.answer).0;
    OwnDraft(w, e.session, seen);
    var kept := Persisted(w, e.session, seen);
    var noted := w.(confirmed := w.confirmed + {(e.session, e.phase.hash)});
    OwnDraft(noted, e.session, seen);
    NotedDraft(kept, e.session, seen, e.phase.hash);
    FinalizeFinishes(w, kept.(confirmed := kept.confirmed + {(e.session, e.phase.hash)}), id, e, seen, e.phase.hash);
    FinalizeFinishes(w, Persisted(noted, e.session, seen), id, e, seen, e.phase.hash);
  }

  lemma NotedDraft(w: World, s: string, record: Record, hash: string)
    requires SameDraft(RecordOf(w, s), Some(record))
    ensures SameDraft(RecordOf(w.(confirmed := w.confirmed + {(s, hash)}), s), Some(record))
  {
  }

  lemma ResumedFinishes(w: World, id: nat, e: Exec, answer: Answer)
    requires FactoryRuns.Safe(w.st) && id in w.execs && w.execs[id] == e && e.session in w.st.sessions && Guarded(w, e)
    requires e.phase.AtHandoff? && answer.HandedOver? && SameDraft(RecordOf(w, e.session), Some(e.phase.plan))
    ensures Finished(w, Resume(w, id, answer), e.session, e.canister, e.phase.hash)
  {
    hide FactoryRuns.Safe, Finalize, Guarded, SameDraft, Finished;
    var verified := w.(handoffs := w.handoffs + {(e.canister, answer.controllers)});
    assert RecordOf(verified, e.session) == RecordOf(w, e.session);
    FinalizeFinishes(w, verified, id, e.(controllers := answer.controllers), e.phase.plan, e.phase.hash);
  }

  lemma AnyFinishes(w: World, id: nat, answer: Answer)
    requires FactoryRuns.Safe(w.st) && Finishes(w, id, answer)
    ensures Finished(w, Resume(w, id, answer), w.execs[id].session, w.execs[id].canister, w.execs[id].phase.hash)
  {
    hide FactoryRuns.Safe, Resume, Finished, SameDraft, Confirms;
    if w.execs[id].phase.AtHandoff? {
      ResumedFinishes(w, id, w.execs[id], answer);
    } else {
      ConfirmedFinishes(w, id, w.execs[id], answer);
    }
  }

  /// A refund is open for a stored session in one of two states, with money in.
  lemma RefundOpenExactly(st: State, s: string, now: nat)
    requires FactoryRuns.Safe(st) && s in st.sessions
    ensures Escrow.ValidateRefund(st, s, now).Allowed?
      <==> st.sessions[s].state in {Expired, SessionState.Failed} && st.sessions[s].payment in {Partial, Paid}
  {
    assert Invariants.SessionOk(st, s);
  }

  // ---------------------------------------------------------------- a session being spawned was paid

  predicate ExecPaid(w: World, e: Exec) {
    e.session in w.st.sessions && FactoryRuns.Rank(w.st.sessions[e.session].payment) >= FactoryRuns.Rank(Paid)
  }

  ghost predicate AllPaid(w: World) {
    forall id :: id in w.execs ==> ExecPaid(w, w.execs[id])
  }

  lemma PaidStays(w: World, v: World, e: Exec)
    requires ExecPaid(w, e) && FactoryRuns.Forward(w.st, v.st)
    ensures ExecPaid(v, e)
  {
  }

  lemma LocalPaid(w: World, v: World, id: nat, s: string, e: Exec)
    requires AllPaid(w) && Local(w, v, id, s) && ExecPaid(w, e) && e.session == s
    ensures AllPaid(v)
  {
    hide FactoryRuns.Forward, ExecPaid;
    forall j | j in v.execs ensures ExecPaid(v, v.execs[j]) {
      if j != id {
        assert SameExec(w, v, j);
        PaidStays(w, v, w.execs[j]);
      } else {
        PaidStays(w, v, e);
        SamePaid(v, e, v.execs[j]);
      }
    }
  }

  lemma SamePaid(v: World, e: Exec, f: Exec)
    requires ExecPaid(v, e) && f.session == e.session
    ensures ExecPaid(v, f)
  {
  }

  lemma BeginPaid(w: World, id: nat, s: string, now: nat, ready: bool)
    requires FactoryRuns.Safe(w.st) && AllPaid(w)
    ensures AllPaid(Begin(w, id, s, now, ready))
  {
    hide FactoryRuns.Safe, Begin, Local, AllPaid;
    BeginLocal(w, id, s, now, ready);
    BeginNeedsPaid(w, id, s, now, ready);
    if Begin(w, id, s, now, ready) != w {
      LocalPaid(w, Begin(w, id, s, now, ready), id, s, Starting(w, s, now));
    }
  }

  lemma BeginNeedsPaid(w: World, id: nat, s: string, now: nat, ready: bool)
    ensures Begin(w, id, s, now, ready) != w ==> s in w.st.sessions && w.st.sessions[s].payment == Paid
  {
  }

  lemma StepPaid(w: World, step: Step)
    requires Sound(w) && AllPaid(w) && Enabled(w, step)
    ensures AllPaid(After(w, step))
  {
    hide Sound, FactoryRuns.Safe, FactoryRuns.After, FactoryRuns.Enabled, FactoryRuns.Forward, Begin, Resume, Local, ExecPaid;
    SafeOfSound(w);
    match step
    case Elsewhere(e) =>
      FactoryRuns.StepForward(w.st, e);
      forall j | j in w.execs ensures ExecPaid(After(w, step), w.execs[j]) {
        PaidStays(w, After(w, step), w.execs[j]);
      }
    case Execute(id, s, now, ready) => BeginPaid(w, id, s, now, ready);
    case Continue(id, answer) =>
      ResumeLocal(w, id, answer);
      LocalPaid(w, Resume(w, id, answer), id, w.execs[id].session, w.execs[id]);
  }

  lemma {:induction false} EveryRunPaid(w: World, steps: seq<Step>)
    requires Sound(w) && AllPaid(w) && CanRun(w, steps)
    ensures Sound(Run(w, steps)) && AllPaid(Run(w, steps))
    decreases |steps|
  {
    hide Sound, AllPaid, Enabled, After, Keeps;
    if steps != [] {
      StepKeeps(w, steps[0]);
      StepPaid(w, steps[0]);
      EveryRunPaid(After(w, steps[0]), steps[1..]);
    }
  }

  // ---------------------------------------------------------------- the main result

  /// Main result. However a confirmed release is finished, hash and registry are written; the session
  /// completes exactly when it was still being released; and it may be refunded afterwards exactly when
  /// it had expired or failed in between, unless it was refunded already.
  lemma CompletesExactly(ttl: nat, depth: nat, steps: seq<Step>, id: nat, answer: Answer, later: nat)
    requires CanRun(Start(ttl, depth), steps) && Finishes(Run(Start(ttl, depth), steps), id, answer)
    ensures var w := Run(Start(ttl, depth), steps);
      var e, v := w.execs[id], Resume(w, id, answer);
      e.session in w.st.sessions && e.session in v.st.sessions
      && e.session in v.txHash && v.txHash[e.session] == e.phase.hash && RegisteredFor(v, e.canister, e.session)
      && (v.st.sessions[e.session].state == Complete <==> w.st.sessions[e.session].state in {BroadcastingRelease, Complete})
      && (Escrow.ValidateRefund(v.st, e.session, later).Allowed?
          <==> w.st.sessions[e.session].state in {Expired, SessionState.Failed} && w.st.sessions[e.session].payment != Refunded)
  {
    hide Sound, AllPaid, CanRun, Run, Finishes, Resume, Escrow.ValidateRefund, FactoryRuns.Safe;
    var start := Start(ttl, depth);
    StartIsSound(ttl, depth);
    NobodyIsPaid(ttl, depth);
    EveryRunPaid(start, steps);
    var w := Run(start, steps);
    SafeOfSound(w);
    AnyFinishes(w, id, answer);
    FinisherIsThere(w, id, answer);
    RefundOpenExactly(Resume(w, id, answer).st, w.execs[id].session, later);
  }

  lemma NobodyIsPaid(ttl: nat, depth: nat)
    ensures AllPaid(Start(ttl, depth))
  {
  }

  lemma FinisherIsThere(w: World, id: nat, answer: Answer)
    requires AllPaid(w) && Finishes(w, id, answer)
    ensures id in w.execs && w.execs[id].session in w.st.sessions && w.st.sessions[w.execs[id].session].payment in {Paid, Refunded}
  {
    assert ExecPaid(w, w.execs[id]);
  }

  // ---------------------------------------------------------------- a reverted twin

  /// A receipt that says the transaction was reverted.
  predicate Reverts(a: Refund.Answer) {
    a.Confirmation? && a.receipt.Some? && !a.receipt.value.status
  }

  lemma SecondFails(w: World, id: nat, e: Exec, bad: Refund.Answer)
    requires FactoryRuns.Safe(w.st) && id in w.execs && w.execs[id] == e && e.phase.Resuming? && Guarded(w, e) && Reverts(bad)
    requires e.session in w.st.sessions
    requires w.st.sessions[e.session].state == BroadcastingRelease && w.st.sessions[e.session].payment == Paid
    ensures var v := Resume(w, id, Receipts(bad));
      FactoryRuns.Safe(v.st) && e.session in v.st.sessions && v.st.sessions[e.session].state == SessionState.Failed
      && v.st.sessions[e.session].payment == Paid && v.execs == w.execs - {id}
      && e.session in v.records && IdentityOf(v.records[e.session]) == IdentityOf(e.phase.plan)
  {
    hide FactoryRuns.Safe, FactoryRuns.Fail, Guarded, Target, OnlySession;
    FailOne(w.st, e.session, e.now);
    SpawnTargets(w.st.sessions[e.session], e.now);
    OnlyKnows(w.st, FactoryRuns.Fail(w.st, e.session, System, e.now, "spawn failed").state, e.session);
    FailKeepsPayment(w.st, e.session, e.now);
  }

  lemma FailKeepsPayment(st: State, s: string, now: nat)
    requires s in st.sessions
    ensures var after := FactoryRuns.Fail(st, s, System, now, "spawn failed").state;
      s in after.sessions && after.sessions[s].payment == st.sessions[s].payment
  {
    hide ApplyEvent;
    EventKeepsPayment(st, s, now, SpawnFailed, "spawn failed");
    Polling.EnqueueSame(ApplyEvent(st, s, System, now, SpawnFailed, "spawn failed").state, s, now);
  }

  /// A released session can be failed and refundable: of two executions that confirm the same release,
  /// one is told it was reverted, by a node on another fork, and the other finishes.
  lemma ReleasedCanBeFailed(w: World, s: string, now: nat, first: nat, second: nat, a: Refund.Answer, bad: Refund.Answer,
                            controllers: seq<string>, later: nat) returns (v: World)
    requires Sound(w) && Confirming(w, s) && first !in w.execs && second !in w.execs && first != second
    requires Deep(a, w.st.depth) && Reverts(bad)
    ensures Reaches(w, v) && s in v.txHash && (exists c :: RegisteredFor(v, c, s))
    ensures s in v.st.sessions && v.st.sessions[s].state == SessionState.Failed && Escrow.ValidateRefund(v.st, s, later).Allowed?
  {
    hide FactoryRuns.Safe, Resume, Begin, Sound, Goes, Halfway, Both, Deep, Guarded, SameDraft, Reaches, Escrow.ValidateRefund, Reverts;
    SoundSafe(w);
    DeepHasReceipt(a, w.st.depth);
    var half := Halfway(w, s, now, first, second, a);
    BothBegin(w, s, now, first, second);
    HalfwayIsReached(w, s, now, first, second, a);
    HalfwayTwins(w, s, now, first, second, a);
    SecondFails(half, second, half.execs[second], bad);
    var failed := Resume(half, second, Receipts(bad));
    ContinueGoes(half, second, Receipts(bad));
    FailedGuarded(failed, half.execs[first], half.execs[second].phase.plan);
    v := Resume(failed, first, HandedOver(controllers));
    ContinueGoes(failed, first, HandedOver(controllers));
    ResumedFinishes(failed, first, half.execs[first], HandedOver(controllers));
    RefundOpenExactly(v.st, s, later);
    ReachesOne(failed, Continue(first, HandedOver(controllers)), v);
    ReachesFirst(half, Continue(second, Receipts(bad)), failed, v);
    ReachesFirst(Both(w, s, now, first, second), Continue(first, Receipts(a)), half, v);
    ReachesFirst(After(w, Execute(first, s, now, true)), Execute(second, s, now, true), Both(w, s, now, first, second), v);
    ReachesFirst(w, Execute(first, s, now, true), After(w, Execute(first, s, now, true)), v);
  }

  lemma HalfwayTwins(w: World, s: string, now: nat, first: nat, second: nat, a: Refund.Answer)
    requires FactoryRuns.Safe(w.st) && Confirming(w, s) && first != second && a.Confirmation? && a.receipt.Some?
    ensures var half := Halfway(w, s, now, first, second, a);
      half.st == w.st && first in half.execs && second in half.execs
      && half.execs[second].session == s && half.execs[second].phase.Resuming? && Guarded(half, half.execs[second])
      && half.execs[first].session == s && half.execs[first].phase.AtHandoff?
      && half.execs[first].snapshot == Some(half.execs[second].phase.plan)
      && IdentityOf(half.execs[first].phase.plan) == IdentityOf(half.execs[second].phase.plan)
  {
    hide FactoryRuns.Safe;
  }

  lemma FailedGuarded(w: World, e: Exec, plan: Record)
    requires e.session in w.st.sessions && e.session in w.records && IdentityOf(w.records[e.session]) == IdentityOf(plan)
    requires e.snapshot == Some(plan) && e.phase.AtHandoff? && IdentityOf(e.phase.plan) == IdentityOf(plan)
    ensures Guarded(w, e) && SameDraft(RecordOf(w, e.session), Some(e.phase.plan))
  {
  }
}
