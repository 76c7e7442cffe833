/// What a recorded release does not keep safe. Two executions may confirm it at once, and the slower
/// one stores what it saw over the completed session's record; and a session may expire while its
/// confirmed release waits for the controllers (backend/factory/src/spawn.rs).
module ReleaseTwins {
  import opened Confirmations
  import Escrow
  import opened Factory
  import FactoryRuns
  import Invariants
  import opened Options
  import opened RefundDraft
  import Refund
  import RefundExact
  import opened Release
  import opened ReleaseLocal
  import opened ReleaseRuns
  import opened ReleaseSafety

  /// A paid session whose release is on record and being confirmed.
  predicate Confirming(w: World, s: string) {
    s in w.st.sessions && w.st.sessions[s].payment == Paid && w.st.sessions[s].state == BroadcastingRelease && HasHash(RecordOf(w, s))
  }

  function Twin(w: World, s: string, now: nat): Exec
    requires Confirming(w, s)
  {
    Starting(w, s, now).(phase := Resuming(w.records[s], w.records[s].rpcTxHash.value))
  }

  function Both(w: World, s: string, now: nat, first: nat, second: nat): World
    requires Confirming(w, s)
  {
    w.(execs := w.execs[first := Twin(w, s, now)][second := Twin(w, s, now)])
  }

  lemma BothBegin(w: World, s: string, now: nat, first: nat, second: nat)
    requires Confirming(w, s) && first !in w.execs && second !in w.execs && first != second
    ensures Enabled(w, Execute(first, s, now, true))
    ensures var one := After(w, Execute(first, s, now, true));
      Goes(w, Execute(first, s, now, true), one) && Goes(one, Execute(second, s, now, true), Both(w, s, now, first, second))
  {
    hide FailSpawn, ApplyEvent;
  }

  lemma DeepConfirms(record: Record, depth: nat, a: Refund.Answer)
    requires Deep(a, depth)
    ensures Refund.ConfirmDepth(record, depth, a) == (Seen(record, a), Some(true))
  {
    ConfirmsExactly(record, depth, a);
  }

  /// The faster execution sees the receipt.
  lemma FirstConfirms(w: World, id: nat, e: Exec, a: Refund.Answer)
    requires id in w.execs && w.execs[id] == e && e.phase.Resuming? && Guarded(w, e) && Deep(a, e.depth)
    ensures Resume(w, id, Receipts(a))
      == Waiting(w.(confirmed := w.confirmed + {(e.session, e.phase.hash)}), id, e, AtHandoff(Seen(e.phase.plan, a), e.phase.hash))
  {
    hide Guarded;
    DeepConfirms(e.phase.plan, e.depth, a);
  }

  /// It completes the session.
  lemma FirstCompletes(w: World, id: nat, e: Exec, controllers: seq<string>)
    requires FactoryRuns.Safe(w.st) && id in w.execs && w.execs[id] == e && e.phase.AtHandoff? && Guarded(w, e)
    requires SameDraft(RecordOf(w, e.session), Some(e.phase.plan)) && w.st.sessions[e.session].state == BroadcastingRelease
    ensures var v := Resume(w, id, HandedOver(controllers));
      v.execs == w.execs - {id} && v.records == w.records[e.session := e.phase.plan]
      && e.session in v.st.sessions && v.st.sessions[e.session].state == Complete
  {
    hide FactoryRuns.Safe, ApplyEvent, SameDraft, Target, OnlySession;
    var reason := "spawn completed after receipt-confirmed release and controller handoff";
    EventOne(w.st, e.session, e.now, ReleaseBroadcast, reason);
    SpawnTargets(w.st.sessions[e.session], e.now);
    OnlyKnows(w.st, ApplyEvent(w.st, e.session, System, e.now, ReleaseBroadcast, reason).state, e.session);
  }

  /// The slower one, answered without a receipt, stores that.
  lemma SecondForgets(w: World, id: nat, e: Exec, latest: nat)
    requires id in w.execs && w.execs[id] == e && e.phase.Resuming? && Guarded(w, e)
    ensures var v := Resume(w, id, Receipts(Refund.Confirmation(latest, None, "")));
      v.st == w.st && e.session in v.records && v.records[e.session].receiptStatus.None?
  {
    hide Guarded, Refund.ConfirmDepth;
    NoReceiptYet(e.phase.plan, e.depth, latest);
  }

  lemma NoReceiptYet(record: Record, depth: nat, latest: nat)
    ensures var (seen, confirmed) := Refund.ConfirmDepth(record, depth, Refund.Confirmation(latest, None, ""));
      seen.receiptStatus.None? && confirmed == Some(false)
  {
  }

  /// The first execution has seen the receipt and waits for the controllers.
  function Halfway(w: World, s: string, now: nat, first: nat, second: nat, a: Refund.Answer): World
    requires Confirming(w, s) && a.Confirmation? && a.receipt.Some?
  {
    var e, both := Twin(w, s, now), Both(w, s, now, first, second);
    Waiting(both.(confirmed := both.confirmed + {(s, e.phase.hash)}), first, e, AtHandoff(Seen(e.phase.plan, a), e.phase.hash))
  }

  lemma HalfwayIsReached(w: World, s: string, now: nat, first: nat, second: nat, a: Refund.Answer)
    requires Confirming(w, s) && first != second && Deep(a, w.st.depth)
    ensures Goes(Both(w, s, now, first, second), Continue(first, Receipts(a)), Halfway(w, s, now, first, second, a))
  {
    hide Resume, Guarded;
    BothGuarded(w, s, now, first, second);
    FirstConfirms(Both(w, s, now, first, second), first, Twin(w, s, now), a);
  }

  /// The session is complete with its receipt, and the second execution still waits for one.
  predicate Done(v: World, s: string, second: nat, e: Exec, record: Record) {
    second in v.execs && v.execs[second] == e && e.session == s && e.phase.Resuming? && RecordOf(v, s) == Some(record)
    && s in v.st.sessions && v.st.sessions[s].state == Complete
  }

  lemma DoneIsReached(w: World, s: string, now: nat, first: nat, second: nat, a: Refund.Answer, controllers: seq<string>)
    requires FactoryRuns.Safe(w.st) && Confirming(w, s) && first != second && a.Confirmation? && a.receipt.Some?
    ensures first in Halfway(w, s, now, first, second, a).execs
    ensures Done(Resume(Halfway(w, s, now, first, second, a), first, HandedOver(controllers)), s, second, Twin(w, s, now),
                 Seen(w.records[s], a))
  {
    hide FactoryRuns.Safe, Resume, SameDraft, Guarded;
    var e, half := Twin(w, s, now), Halfway(w, s, now, first, second, a);
    BothGuarded(w, s, now, first, second);
    SeenGuarded(w, Both(w, s, now, first, second), half, s, e, a, first);
    FirstCompletes(half, first, half.execs[first], controllers);
  }

  lemma LateForgets(w: World, s: string, now: nat, second: nat, a: Refund.Answer, done: World, latest: nat)
    requires Confirming(w, s) && a.Confirmation? && a.receipt.Some? && Done(done, s, second, Twin(w, s, now), Seen(w.records[s], a))
    ensures var late := Resume(done, second, Receipts(Refund.Confirmation(latest, None, "")));
      late.st == done.st && s in late.records && late.records[s].receiptStatus.None?
  {
    hide Resume, Guarded;
    DoneGuarded(done, Twin(w, s, now), Seen(w.records[s], a));
    SecondForgets(done, second, Twin(w, s, now), latest);
  }

  lemma ContinueGoes(w: World, id: nat, answer: Answer)
    requires id in w.execs && !answer.Installed?
    ensures Goes(w, Continue(id, answer), Resume(w, id, answer))
  {
    hide Resume;
  }

  /// A completed session can lose its stored receipt: of two executions that confirm the same release,
  /// the one that is answered late stores a record without one.
  lemma ReceiptCanBeForgotten(w: World, s: string, now: nat, first: nat, second: nat, a: Refund.Answer, controllers: seq<string>, latest: nat)
    returns (steps: seq<Step>, done: World, late: World)
    requires Sound(w) && Confirming(w, s) && first !in w.execs && second !in w.execs && first != second && Deep(a, w.st.depth)
    ensures |steps| == 5 && CanRun(w, steps[..4]) && Run(w, steps[..4]) == done && CanRun(done, steps[4..]) && Run(done, steps[4..]) == late
    ensures s in done.st.sessions && done.st.sessions[s].state == Complete
    ensures s in done.records && done.records[s].receiptStatus == Some(true)
    ensures s in late.st.sessions && late.st.sessions[s].state == Complete && s in late.records && late.records[s].receiptStatus.None?
  {
    steps := [Execute(first, s, now, true), Execute(second, s, now, true), Continue(first, Receipts(a)),
              Continue(first, HandedOver(controllers)), Continue(second, Receipts(Refund.Confirmation(latest, None, "")))];
    hide FactoryRuns.Safe, Resume, Begin, Sound, CanRun, Run, Goes, Halfway, Both, Twin;
    SoundSafe(w);
    var half := Halfway(w, s, now, first, second, a);
    BothBegin(w, s, now, first, second);
    HalfwayIsReached(w, s, now, first, second, a);
    DoneIsReached(w, s, now, first, second, a, controllers);
    done := Resume(half, first, HandedOver(controllers));
    ContinueGoes(half, first, HandedOver(controllers));
    LateForgets(w, s, now, second, a, done, latest);
    late := Resume(done, second, Receipts(Refund.Confirmation(latest, None, "")));
    ContinueGoes(done, second, Receipts(Refund.Confirmation(latest, None, "")));
    FiveSteps(w, steps, After(w, steps[0]), Both(w, s, now, first, second), half, done, late);
  }

  lemma SoundSafe(w: World)
    requires Sound(w)
    ensures FactoryRuns.Safe(w.st)
  {
  }

  lemma BothGuarded(w: World, s: string, now: nat, first: nat, second: nat)
    requires Confirming(w, s)
    ensures Guarded(Both(w, s, now, first, second), Twin(w, s, now))
  {
  }

  lemma SeenGuarded(w: World, both: World, seen: World, s: string, e: Exec, a: Refund.Answer, first: nat)
    requires Guarded(both, e) && e.session == s && e.phase.Resuming? && RecordOf(both, s) == Some(e.phase.plan)
    requires a.Confirmation? && a.receipt.Some?
    requires seen.st == both.st && seen.records == both.records
    requires first in seen.execs && seen.execs[first] == e.(phase := AtHandoff(Seen(e.phase.plan, a), e.phase.hash))
    ensures Guarded(seen, seen.execs[first]) && SameDraft(RecordOf(seen, s), Some(seen.execs[first].phase.plan))
  {
  }

  lemma DoneGuarded(done: World, e: Exec, seen: Record)
    requires e.session in done.st.sessions && RecordOf(done, e.session) == Some(seen) && e.snapshot.Some?
    requires IdentityOf(seen) == IdentityOf(e.snapshot.value)
    ensures Guarded(done, e)
  {
  }

  lemma FiveSteps(w: World, steps: seq<Step>, a: World, b: World, c: World, d: World, e: World)
    requires |steps| == 5 && Goes(w, steps[0], a) && Goes(a, steps[1], b) && Goes(b, steps[2], c) && Goes(c, steps[3], d) && Goes(d, steps[4], e)
    ensures CanRun(w, steps[..4]) && Run(w, steps[..4]) == d && CanRun(d, steps[4..]) && Run(d, steps[4..]) == e
  {
    hide Goes;
    OneStep(d, steps[4..], e);
    var three := steps[..4][1..];
    assert three == [steps[1], steps[2], steps[3]];
    assert three[1..] == [steps[2], steps[3]] && three[1..][1..] == [steps[3]];
    OneStep(c, [steps[3]], d);
    Prepend(b, [steps[2], steps[3]], c, d);
    Prepend(a, three, b, d);
    Prepend(w, steps[..4], a, d);
  }

  lemma OneStep(w: World, steps: seq<Step>, v: World)
    requires |steps| == 1 && Goes(w, steps[0], v)
    ensures CanRun(w, steps) && Run(w, steps) == v
  {
    hide Enabled, After;
    assert steps[1..] == [];
  }

  lemma Prepend(w: World, steps: seq<Step>, mid: World, v: World)
    requires steps != [] && Goes(w, steps[0], mid) && CanRun(mid, steps[1..]) && Run(mid, steps[1..]) == v
    ensures CanRun(w, steps) && Run(w, steps) == v
  {
    hide Enabled, After;
  }

  // ---------------------------------------------------------------- a deadline in between

  /// One execution has seen the receipt and waits for the controllers.
  function Alone(w: World, s: string, now: nat, id: nat, a: Refund.Answer): World
    requires Confirming(w, s) && a.Confirmation? && a.receipt.Some?
  {
    var e := Twin(w, s, now);
    w.(confirmed := w.confirmed + {(s, e.phase.hash)}, execs := w.execs[id := e.(phase := AtHandoff(Seen(e.phase.plan, a), e.phase.hash))])
  }

  lemma AloneIsReached(w: World, s: string, now: nat, id: nat, a: Refund.Answer)
    requires Confirming(w, s) && id !in w.execs && Deep(a, w.st.depth)
    ensures var begun := w.(execs := w.execs[id := Twin(w, s, now)]);
      Goes(w, Execute(id, s, now, true), begun) && Goes(begun, Continue(id, Receipts(a)), Alone(w, s, now, id, a))
  {
    hide FailSpawn, ApplyEvent, Deep, Resume;
    DeepHasReceipt(a, w.st.depth);
    var e, begun := Twin(w, s, now), w.(execs := w.execs[id := Twin(w, s, now)]);
    FirstConfirms(begun, id, e, a);
    assert begun.execs[id := e.(phase := AtHandoff(Seen(e.phase.plan, a), e.phase.hash))] == Alone(w, s, now, id, a).execs;
  }

  /// The deadline passes.
  function Deadline(w: World, s: string): FactoryRuns.Step
    requires s in w.st.sessions
  {
    FactoryRuns.Signal(s, System, w.st.sessions[s].expiresAt + 1, SessionExpired, "")
  }

  lemma DeadlineExpires(w: World, s: string)
    requires FactoryRuns.Safe(w.st) && Confirming(w, s)
    ensures FactoryRuns.Enabled(w.st, Deadline(w, s)) && OthersStep(Deadline(w, s))
    ensures var after := FactoryRuns.After(w.st, Deadline(w, s));
      FactoryRuns.Safe(after) && s in after.sessions && after.sessions[s].state == Expired && after.sessions[s].payment == Paid
  {
    hide FactoryRuns.Safe, FactoryRuns.After;
    FactoryRuns.StepKeepsSafe(w.st, Deadline(w, s));
    RefundExact.ExpiryState(w.st, s, w.st.sessions[s].expiresAt + 1);
  }

  lemma ExpiredRefuses(st: State, s: string, now: nat, reason: string)
    requires s in st.sessions && st.sessions[s].state == Expired
    ensures ApplyEvent(st, s, System, now, ReleaseBroadcast, reason).state == st
  {
  }

  lemma ExpiredIsRefundable(st: State, s: string, now: nat)
    requires FactoryRuns.Safe(st) && s in st.sessions && st.sessions[s].state == Expired && st.sessions[s].payment == Paid
    ensures Escrow.ValidateRefund(st, s, now).Allowed?
  {
    assert Invariants.SessionOk(st, s);
  }

  /// The release is written all the same: hash, record and registry come before the event that is refused.
  lemma WrittenAfterExpiry(w: World, id: nat, e: Exec, controllers: seq<string>)
    requires id in w.execs && w.execs[id] == e && e.phase.AtHandoff? && Guarded(w, e)
    requires SameDraft(RecordOf(w, e.session), Some(e.phase.plan)) && w.st.sessions[e.session].state == Expired
    ensures var v := Resume(w, id, HandedOver(controllers));
      v.st == w.st && v.confirmed == w.confirmed && e.session in v.txHash && v.txHash[e.session] == e.phase.hash && RegisteredFor(v, e.canister, e.session)
  {
    hide ApplyEvent, SameDraft;
    ExpiredRefuses(w.st, e.session, e.now, "spawn completed after receipt-confirmed release and controller handoff");
  }

  lemma ElsewhereGoes(w: World, step: FactoryRuns.Step)
    requires FactoryRuns.Enabled(w.st, step) && OthersStep(step)
    ensures Goes(w, Elsewhere(step), w.(st := FactoryRuns.After(w.st, step)))
  {
    hide FactoryRuns.After, FactoryRuns.Enabled;
  }

  lemma FourSteps(w: World, steps: seq<Step>, a: World, b: World, c: World, d: World)
    requires |steps| == 4 && Goes(w, steps[0], a) && Goes(a, steps[1], b) && Goes(b, steps[2], c) && Goes(c, steps[3], d)
    ensures CanRun(w, steps) && Run(w, steps) == d
  {
    hide Goes;
    assert steps[1..] == [steps[1], steps[2], steps[3]] && steps[1..][1..] == [steps[2], steps[3]] && steps[1..][1..][1..] == [steps[3]];
    OneStep(c, steps[1..][1..][1..], d);
    Prepend(b, steps[1..][1..], c, d);
    Prepend(a, steps[1..], b, d);
    Prepend(w, steps, a, d);
  }

  /// A released session can be refundable: when its deadline passes between the confirmation of the
  /// release and the verification of the controllers, the release is registered, the session stays
  /// expired, and the refund check allows it to be paid back.
  lemma ReleasedCanBeRefundable(w: World, s: string, now: nat, id: nat, a: Refund.Answer, controllers: seq<string>, later: nat)
    returns (steps: seq<Step>, late: World)
    requires Sound(w) && Confirming(w, s) && id !in w.execs && Deep(a, w.st.depth)
    ensures |steps| == 4 && CanRun(w, steps) && Run(w, steps) == late
    ensures s in late.txHash && (s, late.txHash[s]) in late.confirmed && exists c :: RegisteredFor(late, c, s)
    ensures Escrow.ValidateRefund(late.st, s, later).Allowed?
  {
    hide FactoryRuns.Safe, Resume, Begin, Sound, CanRun, Run, Goes, Deep, SameDraft, Guarded, FactoryRuns.After, FactoryRuns.Enabled,
      Escrow.ValidateRefund, OthersStep;
    SoundSafe(w);
    DeepHasReceipt(a, w.st.depth);
    var e, alone := Twin(w, s, now), Alone(w, s, now, id, a);
    AloneIsReached(w, s, now, id, a);
    DeadlineExpires(w, s);
    var expired := alone.(st := FactoryRuns.After(w.st, Deadline(w, s)));
    ElsewhereGoes(alone, Deadline(w, s));
    AloneGuarded(w, s, now, id, a, expired);
    WrittenAfterExpiry(expired, id, expired.execs[id], controllers);
    late := Resume(expired, id, HandedOver(controllers));
    ContinueGoes(expired, id, HandedOver(controllers));
    ExpiredIsRefundable(expired.st, s, later);
    steps := [Execute(id, s, now, true), Continue(id, Receipts(a)), Elsewhere(Deadline(w, s)), Continue(id, HandedOver(controllers))];
    FourSteps(w, steps, w.(execs := w.execs[id := e]), alone, expired, late);
  }

  lemma AloneGuarded(w: World, s: string, now: nat, id: nat, a: Refund.Answer, expired: World)
    requires Confirming(w, s) && a.Confirmation? && a.receipt.Some?
    requires expired == Alone(w, s, now, id, a).(st := expired.st) && s in expired.st.sessions
    ensures var e := expired.execs[id];
      e.session == s && e.phase.AtHandoff? && Guarded(expired, e) && SameDraft(RecordOf(expired, s), Some(e.phase.plan))
  {
  }
}
