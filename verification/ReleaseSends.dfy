/// How often a release is sent: once, unless the session is retried (backend/factory/src/spawn.rs,
/// backend/factory/src/retry.rs).
module ReleaseSends {
  import Bystanders
  import opened Factory
  import FactoryRuns
  import opened RefundDraft
  import Refund
  import opened Release
  import opened ReleaseLocal
  import opened ReleasePhases
  import opened ReleaseRuns
  import opened ReleaseSafety

  /// An execution that has yet to send.
  predicate WillSend(e: Exec) {
    Capable(e) && !e.phase.AtSend? && !e.phase.AtConfirm?
  }

  /// Nothing of the session is about to send, and nothing can begin to.
  ghost predicate Over(w: World, s: string) {
    PastStart(w.st, s) && forall id :: id in w.execs && w.execs[id].session == s ==> !WillSend(w.execs[id])
  }

  ghost predicate SentOnce(w: World, s: string) {
    Sent(w.sent, s) == [] || (|Sent(w.sent, s)| == 1 && Over(w, s))
  }

  // ---------------------------------------------------------------- messages

  /// A message of an execution that has sent, or never will, sends nothing and does not begin to.
  lemma QuietStaysQuiet(w: World, id: nat, answer: Answer)
    requires id in w.execs && !WillSend(w.execs[id])
    ensures var v := Resume(w, id, answer); v.sent == w.sent && (id in v.execs ==> !WillSend(v.execs[id]))
  {
    hide Resume, Capable;
    var p := w.execs[id].phase;
    QuietPhases(w.execs[id]);
    if answer.Aborted? {
      AbortedQuiet(w, id);
    } else if p.Creating? || p.Preparing? {
      StarterQuiet(w, id, answer);
    } else if p.AtSend? || p.AtConfirm? {
      SenderQuiet(w, id, answer);
    } else {
      FollowerQuiet(w, id, answer);
    }
  }

  lemma QuietPhases(e: Exec)
    requires !WillSend(e)
    ensures e.phase.Creating? || e.phase.Preparing? ==> !Capable(e)
    ensures !e.phase.AtReserve? && !e.phase.AtKey? && !e.phase.AtSign?
  {
  }

  lemma AbortedQuiet(w: World, id: nat)
    requires id in w.execs
    ensures Quiet(w, Resume(w, id, Aborted), id)
  {
  }

  lemma StarterQuiet(w: World, id: nat, answer: Answer)
    requires id in w.execs && !answer.Aborted? && !Capable(w.execs[id]) && (w.execs[id].phase.Creating? || w.execs[id].phase.Preparing?)
    ensures var v := Resume(w, id, answer); v.sent == w.sent && (id in v.execs ==> !WillSend(v.execs[id]))
  {
    hide FailSpawn, AfterInstall, AfterHandoff, Capable, WillSend;
    var e := w.execs[id];
    FailQuiet(w, id, e);
    if e.phase.Creating? && answer.Installed? {
      InstallQuiet(w, id, e, answer.canister);
    }
    if e.phase.Preparing? && answer.HandedOver? {
      HandoffQuiet(w, id, e, answer.controllers);
    }
  }

  lemma SenderQuiet(w: World, id: nat, answer: Answer)
    requires id in w.execs && !answer.Aborted? && (w.execs[id].phase.AtSend? || w.execs[id].phase.AtConfirm?)
    ensures var v := Resume(w, id, answer); v.sent == w.sent && (id in v.execs ==> !WillSend(v.execs[id]))
  {
    hide Guarded, AfterOwnReceipt, BroadcastError;
    var e := w.execs[id];
    match e.phase
    case AtSend(record) => ErrorQuiet(w, id, e, record, false);
    case AtConfirm(record, hash) => OwnQuiet(w, id, e, record, hash, if answer.Receipts? then answer.answer else Refund.Failed);
  }

  lemma FollowerQuiet(w: World, id: nat, answer: Answer)
    requires id in w.execs && !answer.Aborted?
    requires w.execs[id].phase.AtExisting? || w.execs[id].phase.Resuming? || w.execs[id].phase.AtHandoff?
    ensures var v := Resume(w, id, answer); v.sent == w.sent && (id in v.execs ==> !WillSend(v.execs[id]))
  {
    hide Guarded, AfterRecordedReceipt, Finalize, WillSend;
    var e := w.execs[id];
    match e.phase
    case AtExisting(record, hash) => RecordedQuiet(w, id, e, record, hash, if answer.Receipts? then answer.answer else Refund.Failed, false);
    case Resuming(record, hash) => RecordedQuiet(w, id, e, record, hash, if answer.Receipts? then answer.answer else Refund.Failed, true);
    case AtHandoff(record, hash) =>
      if answer.HandedOver? {
        FinalizeQuiet(w.(handoffs := w.handoffs + {(e.canister, answer.controllers)}), id, e.(controllers := answer.controllers), record, hash);
      }
  }

  predicate Quiet(w: World, v: World, id: nat) {
    v.sent == w.sent && id !in v.execs
  }

  lemma FailQuiet(w: World, id: nat, e: Exec)
    ensures Quiet(w, FailSpawn(w, id, e), id)
  {
    hide FactoryRuns.Fail;
  }

  lemma ErrorQuiet(w: World, id: nat, e: Exec, record: Record, mayStillConfirm: bool)
    ensures Quiet(w, BroadcastError(w, id, e, record, mayStillConfirm), id)
  {
    hide FailSpawn;
    FailQuiet(Persisted(w, e.session, WithError(record)), id, e);
  }

  lemma FinalizeQuiet(w: World, id: nat, e: Exec, record: Record, hash: string)
    ensures Quiet(w, Finalize(w, id, e, record, hash), id)
  {
    hide SameDraft, Finalize;
    FinalizeCases(w, id, e, record, hash);
  }

  lemma InstallQuiet(w: World, id: nat, e: Exec, canister: string)
    requires !Capable(e) && e.phase.Creating?
    ensures var v := AfterInstall(w, id, e, canister); v.sent == w.sent && (id in v.execs ==> !WillSend(v.execs[id]))
  {
    hide ApplyEvent, FactoryRuns.Attach, HasHash;
  }

  lemma HandoffQuiet(w: World, id: nat, e: Exec, controllers: seq<string>)
    requires !Capable(e) && e.phase.Preparing?
    ensures var v := AfterHandoff(w, id, e, controllers); v.sent == w.sent && (id in v.execs ==> !WillSend(v.execs[id]))
  {
    hide AfterHandoff;
    HandoffCases(w, id, e, controllers);
  }

  lemma OwnQuiet(w: World, id: nat, e: Exec, record: Record, hash: string, a: Refund.Answer)
    ensures Quiet(w, AfterOwnReceipt(w, id, e, record, hash, a), id)
  {
    hide BroadcastError, Finalize, Refund.ConfirmDepth;
    ErrorQuiet(w, id, e, record, true);
    if a.Confirmation? {
      var (seen, confirmed) := Refund.ConfirmDepth(record, e.depth, a);
      ErrorQuiet(w, id, e, seen, !Reverted(a));
      var kept := Persisted(w, e.session, seen);
      FinalizeQuiet(kept.(confirmed := kept.confirmed + {(e.session, hash)}), id, e, seen, hash);
    }
  }

  lemma RecordedQuiet(w: World, id: nat, e: Exec, record: Record, hash: string, a: Refund.Answer, resuming: bool)
    ensures var v := AfterRecordedReceipt(w, id, e, record, hash, a, resuming);
      v.sent == w.sent && (id in v.execs ==> !WillSend(v.execs[id]))
  {
    hide FailSpawn, Finalize, Refund.ConfirmDepth, MayStillCome;
    if a.Confirmation? {
      var (seen, confirmed) := Refund.ConfirmDepth(record, e.depth, a);
      FailQuiet(Persisted(w, e.session, WithError(seen)), id, e);
      FinalizeQuiet(Persisted(w.(confirmed := w.confirmed + {(e.session, hash)}), e.session, seen), id, e, seen, hash);
    }
  }

  // ---------------------------------------------------------------- what a message sends

  /// A message sends at most once, for its own session, and then its execution will not send again.
  lemma ResumeSends(w: World, id: nat, answer: Answer)
    requires id in w.execs
    ensures var e, v := w.execs[id], Resume(w, id, answer);
      v.sent == w.sent || (e.phase.AtSign? && (exists h :: v.sent == w.sent + [(e.session, h)]) && id in v.execs && v.execs[id].phase.AtSend?)
  {
    hide Resume, WillSend;
    var p := w.execs[id].phase;
    if !WillSend(w.execs[id]) {
      QuietStaysQuiet(w, id, answer);
    } else if answer.Aborted? {
      AbortedQuiet(w, id);
    } else if p.Creating? || p.Preparing? {
      StarterSends(w, id, answer);
    } else {
      WillSendPhases(w.execs[id]);
      SenderSends(w, id, answer);
    }
  }

  lemma WillSendPhases(e: Exec)
    requires WillSend(e) && !e.phase.Creating? && !e.phase.Preparing?
    ensures e.phase.AtReserve? || e.phase.AtKey? || e.phase.AtSign?
  {
  }

  lemma StarterSends(w: World, id: nat, answer: Answer)
    requires id in w.execs && !answer.Aborted? && (w.execs[id].phase.Creating? || w.execs[id].phase.Preparing?)
    ensures Resume(w, id, answer).sent == w.sent
  {
    hide AfterInstall, AfterHandoff, FailSpawn;
    var e := w.execs[id];
    FailQuiet(w, id, e);
    if answer.Installed? {
      InstallSends(w, id, e, answer.canister);
    } else if answer.HandedOver? {
      HandoffSends(w, id, e, answer.controllers);
    }
  }

  lemma SenderSends(w: World, id: nat, answer: Answer)
    requires id in w.execs && !answer.Aborted?
    requires w.execs[id].phase.AtReserve? || w.execs[id].phase.AtKey? || w.execs[id].phase.AtSign?
    ensures var e, v := w.execs[id], Resume(w, id, answer);
      v.sent == w.sent || (e.phase.AtSign? && (exists h :: v.sent == w.sent + [(e.session, h)]) && id in v.execs && v.execs[id].phase.AtSend?)
  {
    hide Guarded, BroadcastError, FailSpawn;
    var e := w.execs[id];
    FailQuiet(w, id, e);
    match e.phase
    case AtReserve =>
    case AtKey(plan) => ErrorQuiet(w, id, e, plan, false);
    case AtSign(plan) => ErrorQuiet(w, id, e, plan, false);
  }

  lemma InstallSends(w: World, id: nat, e: Exec, canister: string)
    ensures AfterInstall(w, id, e, canister).sent == w.sent
  {
    hide ApplyEvent, FactoryRuns.Attach;
  }

  lemma HandoffSends(w: World, id: nat, e: Exec, controllers: seq<string>)
    ensures AfterHandoff(w, id, e, controllers).sent == w.sent
  {
    hide AfterHandoff;
    HandoffCases(w, id, e, controllers);
  }

  // ---------------------------------------------------------------- steps

  /// The step is a retry of session `s`.
  predicate Retries(step: Step, s: string) {
    step.Elsewhere? && step.step.RetrySession? && step.step.id == s
  }

  lemma PastStartAside(st: State, after: State, s: string)
    requires PastStart(st, s) && Bystanders.AsideAt(st, after, s, false)
    ensures PastStart(after, s)
  {
  }

  lemma PastStartLocal(w: World, v: World, id: nat, s: string, o: string)
    requires PastStart(w.st, s) && Local(w, v, id, o)
    ensures PastStart(v.st, s)
  {
    hide FactoryRuns.Forward;
    if o != s {
      assert SameOf(w.st, v.st, s);
    }
  }

  lemma OthersStayQuiet(w: World, v: World, id: nat, s: string, o: string)
    requires Over(w, s) && Local(w, v, id, o) && (id in v.execs && v.execs[id].session == s ==> !WillSend(v.execs[id]))
    ensures Over(v, s)
  {
    hide GoesForward, WillSend, PastStart;
    PastStartLocal(w, v, id, s, o);
    forall j | j in v.execs && v.execs[j].session == s ensures !WillSend(v.execs[j]) {
      if j != id {
        assert SameExec(w, v, j);
      }
    }
  }

  lemma LocalSession(w: World, v: World, id: nat, o: string)
    requires Local(w, v, id, o) && id in v.execs
    ensures v.execs[id].session == o
  {
  }

  lemma OverSends(w: World, id: nat, answer: Answer, s: string)
    requires Sound(w) && Over(w, s) && id in w.execs
    ensures Over(Resume(w, id, answer), s) && Sent(Resume(w, id, answer).sent, s) == Sent(w.sent, s)
  {
    hide Sound, Resume, Local, WillSend, PastStart, Sent;
    var o, v := w.execs[id].session, Resume(w, id, answer);
    ResumeLocal(w, id, answer);
    if o == s {
      QuietStaysQuiet(w, id, answer);
    } else {
      ResumeSends(w, id, answer);
      SentOther(w.sent, v.sent, o, s);
      if id in v.execs {
        LocalSession(w, v, id, o);
      }
    }
    OthersStayQuiet(w, v, id, s, o);
  }

  lemma OverBegins(w: World, id: nat, o: string, now: nat, ready: bool, s: string)
    requires Sound(w) && Over(w, s) && id !in w.execs
    ensures Over(Begin(w, id, o, now, ready), s) && Begin(w, id, o, now, ready).sent == w.sent
  {
    hide Sound, Local, WillSend, Begin;
    SafeOfSound(w);
    BeginLocal(w, id, o, now, ready);
    BeginSends(w, id, o, now, ready);
    var v := Begin(w, id, o, now, ready);
    if v != w {
      if id in v.execs {
        LocalSession(w, v, id, o);
      }
      OthersStayQuiet(w, v, id, s, o);
    }
  }

  lemma BeginSends(w: World, id: nat, o: string, now: nat, ready: bool)
    requires id !in w.execs
    ensures var v := Begin(w, id, o, now, ready); v.sent == w.sent && (PastStart(w.st, o) && id in v.execs ==> !WillSend(v.execs[id]))
  {
    hide ApplyEvent, FailSpawn;
    if o in w.st.sessions {
      FailQuiet(w, id, Starting(w, o, now));
    }
  }

  lemma OverElsewhere(w: World, step: FactoryRuns.Step, s: string)
    requires Sound(w) && Over(w, s) && Enabled(w, Elsewhere(step)) && !Retries(Elsewhere(step), s)
    ensures Over(w.(st := FactoryRuns.After(w.st, step)), s)
  {
    hide Sound, FactoryRuns.Safe, FactoryRuns.After, FactoryRuns.Enabled, Bystanders.AsideAt, PastStart, WillSend;
    SafeOfSound(w);
    Bystanders.StepAside(w.st, step, s);
    PastStartAside(w.st, FactoryRuns.After(w.st, step), s);
  }

  /// Once it is over, it stays over until the session is retried.
  lemma StepOver(w: World, step: Step, s: string)
    requires Sound(w) && Over(w, s) && Enabled(w, step) && !Retries(step, s)
    ensures Over(After(w, step), s) && Sent(After(w, step).sent, s) == Sent(w.sent, s)
  {
    hide Sound, FactoryRuns.After, FactoryRuns.Enabled, Begin, Resume, Over, Sent;
    match step
    case Elsewhere(e) => OverElsewhere(w, e, s);
    case Execute(id, o, now, ready) => OverBegins(w, id, o, now, ready, s);
    case Continue(id, answer) => OverSends(w, id, answer, s);
  }

  /// The first broadcast of a session is the only one under way.
  lemma FirstSend(w: World, id: nat, answer: Answer, s: string)
    requires Sound(w) && id in w.execs && Sent(w.sent, s) == []
    ensures SentOnce(Resume(w, id, answer), s)
  {
    hide Sound, Resume, Local, PastStart, Capable;
    var e, v := w.execs[id], Resume(w, id, answer);
    ResumeSends(w, id, answer);
    if v.sent != w.sent {
      ResumeLocal(w, id, answer);
      if e.session == s {
        OneSent(w.sent, v.sent, s);
        SendingIsPast(w, id);
        PastStartLocal(w, v, id, s, s);
        NoOtherSender(w, id);
        OnlyOneWas(w, v, id, s);
      } else {
        SentOther(w.sent, v.sent, e.session, s);
      }
    }
  }

  lemma OneSent(log: seq<(string, string)>, longer: seq<(string, string)>, s: string)
    requires Sent(log, s) == [] && exists h :: longer == log + [(s, h)]
    ensures |Sent(longer, s)| == 1
  {
    assert longer[..|longer| - 1] == log;
  }

  lemma SendingIsPast(w: World, id: nat)
    requires Sound(w) && id in w.execs && w.execs[id].phase.AtSign?
    ensures PastStart(w.st, w.execs[id].session)
  {
    hide FactoryRuns.Safe;
    assert ExecOk(w, w.execs[id]);
  }

  lemma OnlyOneWas(w: World, v: World, id: nat, s: string)
    requires Local(w, v, id, s) && Free(w, id, s) && id in v.execs && v.execs[id].phase.AtSend?
    ensures forall j :: j in v.execs && v.execs[j].session == s ==> !WillSend(v.execs[j])
  {
    hide GoesForward, Capable;
    forall j | j in v.execs && v.execs[j].session == s ensures !WillSend(v.execs[j]) {
      if j != id {
        assert SameExec(w, v, j);
      }
    }
  }

  lemma StepSentOnce(w: World, step: Step, s: string)
    requires Sound(w) && SentOnce(w, s) && Enabled(w, step) && !Retries(step, s)
    ensures SentOnce(After(w, step), s)
  {
    hide Sound, FactoryRuns.After, FactoryRuns.Enabled, Begin, Resume, Over, Sent;
    if Over(w, s) {
      StepOver(w, step, s);
    } else {
      match step
      case Elsewhere(e) =>
      case Execute(id, o, now, ready) => BeginSends(w, id, o, now, ready);
      case Continue(id, answer) => FirstSend(w, id, answer, s);
    }
  }

  lemma {:induction false} EveryRunSendsOnce(w: World, steps: seq<Step>, s: string)
    requires Sound(w) && SentOnce(w, s) && CanRun(w, steps) && forall i :: 0 <= i < |steps| ==> !Retries(steps[i], s)
    ensures SentOnce(Run(w, steps), s)
    decreases |steps|
  {
    hide Sound, SentOnce, Enabled, After, Keeps, Retries;
    if steps != [] {
      StepKeeps(w, steps[0]);
      StepSentOnce(w, steps[0], s);
      EveryRunSendsOnce(After(w, steps[0]), steps[1..], s);
    }
  }

  /// Main result. In every run that does not retry a session, at most one transaction is sent for it.
  lemma AtMostOneSend(ttl: nat, depth: nat, steps: seq<Step>, s: string)
    requires CanRun(Start(ttl, depth), steps) && forall i :: 0 <= i < |steps| ==> !Retries(steps[i], s)
    ensures |Sent(Run(Start(ttl, depth), steps).sent, s)| <= 1
  {
    hide Sound, CanRun, Run, Over, Retries;
    StartIsSound(ttl, depth);
    assert Sent(Start(ttl, depth).sent, s) == [];
    EveryRunSendsOnce(Start(ttl, depth), steps, s);
  }
}
