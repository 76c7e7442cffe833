/// When the receipt of a completed session is safe: exactly when no execution in flight could still
/// confirm the recorded release once more (backend/factory/src/spawn.rs).
module ReleaseReceipts {
  import opened Factory
  import FactoryRuns
  import opened Options
  import opened RefundDraft
  import Refund
  import opened Release
  import opened ReleaseLocal
  import opened ReleaseRuns
  import opened ReleaseSafety

  predicate IsComplete(w: World, s: string) {
    s in w.st.sessions && w.st.sessions[s].state == Complete
  }

  predicate HasReceipt(w: World, s: string) {
    s in w.records && w.records[s].receiptStatus == Some(true)
  }

  /// An execution whose guard still holds and that has yet to ask for the recorded release's receipt.
  predicate Exposes(w: World, s: string, e: Exec) {
    e.session == s && Guarded(w, e) && (e.phase.Preparing? || e.phase.AtExisting? || e.phase.Resuming?)
  }

  ghost predicate Kept(w: World, s: string) {
    IsComplete(w, s) && HasReceipt(w, s) && forall id :: id in w.execs ==> !Exposes(w, s, w.execs[id])
  }

  // ---------------------------------------------------------------- one message

  /// A completed session's release is on record, so none of its executions may send.
  lemma CompleteHasHash(w: World, id: nat, s: string)
    requires Sound(w) && IsComplete(w, s) && id in w.execs && w.execs[id].session == s
    ensures !Capable(w.execs[id]) && PlanOk(w.execs[id]) && HasHashInside(w.execs[id])
  {
    hide FactoryRuns.Safe;
    assert ExecOk(w, w.execs[id]) && SessionOk(w, s) && TxOk(w, s);
  }

  /// What an execution that may not send knows about its snapshot while it installs and hands over.
  predicate HasHashInside(e: Exec) {
    e.phase.Creating? || e.phase.Preparing? ==> HasHash(e.snapshot)
  }

  lemma NoEventAtComplete(st: State, s: string, canister: string, now: nat)
    requires s in st.sessions && st.sessions[s].state == Complete
    ensures ApplyEvent(FactoryRuns.Attach(st, s, canister), s, System, now, InstallSucceeded, "automaton installed").error.Some?
  {
  }

  /// The record is as safe as it was, for executions that look at it.
  predicate SameFor(w: World, v: World, s: string) {
    HasReceipt(v, s) && SameDraft(RecordOf(w, s), RecordOf(v, s))
  }

  lemma StarterLeaves(w: World, id: nat, answer: Answer, s: string)
    requires IsComplete(w, s) && HasReceipt(w, s) && id in w.execs && w.execs[id].session == s && !Exposes(w, s, w.execs[id])
    requires HasHashInside(w.execs[id]) && !answer.Aborted? && (w.execs[id].phase.Creating? || w.execs[id].phase.Preparing?)
    ensures var v := Resume(w, id, answer); id !in v.execs && SameFor(w, v, s)
  {
    hide ApplyEvent, FactoryRuns.Attach, FactoryRuns.Fail, Guarded, IdentityOf;
    var e := w.execs[id];
    if e.phase.Creating? && answer.Installed? {
      NoEventAtComplete(w.st, s, answer.canister, e.now);
    }
    UnguardedHandoff(w, e);
  }

  lemma UnguardedHandoff(w: World, e: Exec)
    ensures !Guarded(w, e) ==> forall handoffs :: !Guarded(w.(handoffs := handoffs), e)
  {
  }

  lemma FollowerLeaves(w: World, id: nat, answer: Answer, s: string)
    requires IsComplete(w, s) && HasReceipt(w, s) && id in w.execs && w.execs[id].session == s && !Exposes(w, s, w.execs[id])
    requires w.execs[id].phase.AtExisting? || w.execs[id].phase.Resuming?
    ensures var v := Resume(w, id, answer); id !in v.execs && SameFor(w, v, s)
  {
    hide Guarded, IdentityOf, AfterRecordedReceipt;
  }

  lemma FinalizeLeaves(w: World, id: nat, e: Exec, record: Record, hash: string)
    requires HasReceipt(w, e.session) && record.receiptStatus == Some(true)
    ensures var v := Finalize(w, id, e, record, hash); id !in v.execs && SameFor(w, v, e.session)
  {
    hide IdentityOf, Finalize, SameDraft;
    FinalizeCases(w, id, e, record, hash);
    SelfDraft(RecordOf(w, e.session));
  }

  lemma SelfDraft(x: Option<Record>)
    ensures SameDraft(x, x)
  {
  }

  lemma FinisherLeaves(w: World, id: nat, answer: Answer, s: string)
    requires IsComplete(w, s) && HasReceipt(w, s) && id in w.execs && w.execs[id].session == s
    requires w.execs[id].phase.AtHandoff? && PlanOk(w.execs[id])
    ensures var v := Resume(w, id, answer); id !in v.execs && SameFor(w, v, s)
  {
    hide Guarded, IdentityOf, Finalize;
    var e := w.execs[id];
    if answer.HandedOver? {
      FinalizeLeaves(w.(handoffs := w.handoffs + {(e.canister, answer.controllers)}), id, e.(controllers := answer.controllers),
                     e.phase.plan, e.phase.hash);
    }
  }

  lemma AbortedLeaves(w: World, id: nat, s: string)
    requires HasReceipt(w, s) && id in w.execs
    ensures var v := Resume(w, id, Aborted); id !in v.execs && SameFor(w, v, s)
  {
    hide IdentityOf;
  }

  /// Every execution that does not expose the receipt ends with its next message and leaves it.
  lemma OwnLeaves(w: World, id: nat, answer: Answer, s: string)
    requires Sound(w) && Kept(w, s) && id in w.execs && w.execs[id].session == s
    ensures var v := Resume(w, id, answer); id !in v.execs && SameFor(w, v, s)
  {
    hide Sound, Resume, Exposes, SameFor, Capable, PlanOk, HasHashInside;
    CompleteHasHash(w, id, s);
    assert !Exposes(w, s, w.execs[id]);
    var p := w.execs[id].phase;
    IncapablePhases(w.execs[id]);
    if answer.Aborted? {
      AbortedLeaves(w, id, s);
    } else if p.Creating? || p.Preparing? {
      StarterLeaves(w, id, answer, s);
    } else if p.AtExisting? || p.Resuming? {
      FollowerLeaves(w, id, answer, s);
    } else {
      FinisherLeaves(w, id, answer, s);
    }
  }

  lemma IncapablePhases(e: Exec)
    requires !Capable(e)
    ensures e.phase.Creating? || e.phase.Preparing? || e.phase.AtExisting? || e.phase.Resuming? || e.phase.AtHandoff?
  {
  }

  // ---------------------------------------------------------------- every step

  lemma CompleteStays(w: World, v: World, s: string)
    requires IsComplete(w, s) && FactoryRuns.Forward(w.st, v.st)
    ensures IsComplete(v, s)
  {
  }

  /// An execution of the session that is still there is exposed only if it was.
  lemma StillHidden(w: World, v: World, s: string, e: Exec)
    requires !Exposes(w, s, e) && IsComplete(w, s) && SameDraft(RecordOf(w, s), RecordOf(v, s))
    ensures !Exposes(v, s, e)
  {
    hide IdentityOf;
  }

  lemma KeptAfter(w: World, v: World, id: nat, s: string, o: string)
    requires Kept(w, s) && Local(w, v, id, o) && SameFor(w, v, s) && (o == s ==> id !in v.execs)
    ensures Kept(v, s)
  {
    hide FactoryRuns.Forward, Exposes, SameDraft;
    CompleteStays(w, v, s);
    forall j | j in v.execs ensures !Exposes(v, s, v.execs[j]) {
      if j != id {
        assert SameExec(w, v, j) && !Exposes(w, s, w.execs[j]);
        StillHidden(w, v, s, v.execs[j]);
      } else {
        NotItsSession(v, s, v.execs[j]);
      }
    }
  }

  lemma NotItsSession(v: World, s: string, e: Exec)
    ensures e.session != s ==> !Exposes(v, s, e)
  {
  }

  lemma BesideSame(w: World, v: World, id: nat, s: string, o: string)
    requires Local(w, v, id, o) && o != s && HasReceipt(w, s)
    ensures SameFor(w, v, s)
  {
    hide FactoryRuns.Forward, IdentityOf;
    assert RecordOf(v, s) == RecordOf(w, s);
  }

  lemma ElsewhereKept(w: World, v: World, s: string)
    requires Kept(w, s) && v == w.(st := v.st) && FactoryRuns.Forward(w.st, v.st)
    ensures Kept(v, s)
  {
    hide FactoryRuns.Forward, IdentityOf;
    CompleteStays(w, v, s);
    forall j | j in v.execs ensures !Exposes(v, s, v.execs[j]) {
      assert !Exposes(w, s, w.execs[j]);
    }
  }

  lemma BeginsNothing(w: World, id: nat, s: string, now: nat, ready: bool)
    requires IsComplete(w, s)
    ensures Begin(w, id, s, now, ready) == w
  {
  }

  lemma StepKept(w: World, step: Step, s: string)
    requires Sound(w) && Kept(w, s) && Enabled(w, step)
    ensures Kept(After(w, step), s)
  {
    hide Sound, FactoryRuns.Safe, FactoryRuns.Forward, FactoryRuns.After, FactoryRuns.Enabled, Begin, Resume, Local, SameFor, Exposes;
    SafeOfSound(w);
    match step
    case Elsewhere(e) =>
      FactoryRuns.StepForward(w.st, e);
      ElsewhereKept(w, After(w, step), s);
    case Execute(id, o, now, ready) =>
      if o == s {
        BeginsNothing(w, id, s, now, ready);
      } else {
        BeginLocal(w, id, o, now, ready);
        if Begin(w, id, o, now, ready) != w {
          BesideSame(w, Begin(w, id, o, now, ready), id, s, o);
          KeptAfter(w, Begin(w, id, o, now, ready), id, s, o);
        }
      }
    case Continue(id, answer) =>
      var o := w.execs[id].session;
      ResumeLocal(w, id, answer);
      if o == s {
        OwnLeaves(w, id, answer, s);
      } else {
        BesideSame(w, Resume(w, id, answer), id, s, o);
      }
      KeptAfter(w, Resume(w, id, answer), id, s, o);
  }

  lemma {:induction false} EveryRunKept(w: World, steps: seq<Step>, s: string)
    requires Sound(w) && Kept(w, s) && CanRun(w, steps)
    ensures Kept(Run(w, steps), s)
    decreases |steps|
  {
    hide Sound, Kept, Enabled, After, Keeps;
    if steps != [] {
      StepKeeps(w, steps[0]);
      StepKept(w, steps[0], s);
      EveryRunKept(After(w, steps[0]), steps[1..], s);
    }
  }

  // ---------------------------------------------------------------- an exposed receipt is lost

  const NoReceipt: Answer := Receipts(Refund.Confirmation(0, None, ""))

  lemma NoReceiptYet(record: Record, depth: nat)
    ensures var (seen, confirmed) := Refund.ConfirmDepth(record, depth, NoReceipt.answer);
      seen.receiptStatus.None? && confirmed == Some(false)
  {
  }

  /// Answered without a receipt, the execution stores that.
  lemma AskerForgets(w: World, id: nat, s: string)
    requires id in w.execs && Exposes(w, s, w.execs[id]) && !w.execs[id].phase.Preparing?
    ensures Goes(w, Continue(id, NoReceipt), Resume(w, id, NoReceipt)) && !HasReceipt(Resume(w, id, NoReceipt), s)
  {
    hide Guarded, Refund.ConfirmDepth;
    NoReceiptYet(w.execs[id].phase.plan, w.execs[id].depth);
  }

  /// One that hands over first asks next.
  lemma PreparerAsks(w: World, id: nat, s: string)
    requires id in w.execs && Exposes(w, s, w.execs[id]) && w.execs[id].phase.Preparing? && HasHash(w.execs[id].snapshot)
    ensures var v := Resume(w, id, HandedOver([]));
      Goes(w, Continue(id, HandedOver([])), v) && id in v.execs && Exposes(v, s, v.execs[id]) && v.execs[id].phase.AtExisting?
  {
    hide IdentityOf;
  }

  ghost predicate CanForget(w: World, s: string) {
    exists v :: Reaches(w, v) && !HasReceipt(v, s)
  }

  lemma AskerCanForget(w: World, id: nat, s: string)
    requires id in w.execs && Exposes(w, s, w.execs[id]) && !w.execs[id].phase.Preparing?
    ensures CanForget(w, s)
  {
    hide Goes, Reaches, Resume, HasReceipt;
    AskerForgets(w, id, s);
    ReachesOne(w, Continue(id, NoReceipt), Resume(w, id, NoReceipt));
  }

  lemma ExposedCanForget(w: World, id: nat, s: string)
    requires Sound(w) && IsComplete(w, s) && id in w.execs && Exposes(w, s, w.execs[id])
    ensures CanForget(w, s)
  {
    hide Sound, Goes, Reaches, Resume, HasReceipt, Guarded;
    if w.execs[id].phase.Preparing? {
      CompleteHasHash(w, id, s);
      PreparerAsks(w, id, s);
      var v := Resume(w, id, HandedOver([]));
      AskerCanForget(v, id, s);
      var u :| Reaches(v, u) && !HasReceipt(u, s);
      ReachesFirst(w, Continue(id, HandedOver([])), v, u);
    } else {
      AskerCanForget(w, id, s);
    }
  }

  // ---------------------------------------------------------------- the main result

  /// Main result. A completed session keeps its successful receipt over every run exactly when no
  /// execution in flight for it that passes its guard has yet to ask for the receipt.
  lemma ReceiptIsKeptExactly(w: World, s: string)
    requires Sound(w) && IsComplete(w, s) && HasReceipt(w, s)
    ensures (forall v :: Reaches(w, v) ==> HasReceipt(v, s)) <==> (forall id :: id in w.execs ==> !Exposes(w, s, w.execs[id]))
  {
    hide Sound, Reaches, HasReceipt, Exposes, IsComplete;
    if id :| id in w.execs && Exposes(w, s, w.execs[id]) {
      ExposedCanForget(w, id, s);
    } else {
      forall v | Reaches(w, v) ensures HasReceipt(v, s) {
        ReachedKept(w, v, s);
      }
    }
  }

  lemma ReachedKept(w: World, v: World, s: string)
    requires Sound(w) && Kept(w, s) && Reaches(w, v)
    ensures HasReceipt(v, s)
  {
    hide Sound, CanRun, Run, Exposes, HasReceipt, IsComplete;
    var steps :| CanRun(w, steps) && Run(w, steps) == v;
    EveryRunKept(w, steps, s);
  }
}
