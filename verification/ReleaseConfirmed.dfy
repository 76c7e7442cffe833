/// Which releases count as confirmed: exactly those the node reported successful, canonical and deep
/// enough, to an execution whose draft was still the session's (backend/factory/src/evm.rs,
/// backend/factory/src/spawn.rs).
module ReleaseConfirmed {
  import opened Confirmations
  import opened Factory
  import FactoryRuns
  import opened Options
  import opened RefundDraft
  import Refund
  import opened Release
  import ReleaseLocal
  import opened ReleaseRuns
  import opened ReleaseSafety
  import Settings

  /// Every execution confirms to `depth`.
  ghost predicate DepthsAre(w: World, depth: nat) {
    w.st.depth == depth && forall id :: id in w.execs ==> w.execs[id].depth == depth
  }

  /// The answer that confirms transaction `hash` of session `s`.
  predicate Confirms(w: World, step: Step, s: string, hash: string, depth: nat) {
    step.Continue? && step.id in w.execs && w.execs[step.id].session == s && Guarded(w, w.execs[step.id])
    && (w.execs[step.id].phase.AtConfirm? || w.execs[step.id].phase.AtExisting? || w.execs[step.id].phase.Resuming?)
    && w.execs[step.id].phase.hash == hash && step.answer.Receipts? && Deep(step.answer.answer, depth)
  }

  // ---------------------------------------------------------------- one step

  /// What one message of an execution leaves: the settings, the other executions, its own depth, and
  /// what is confirmed by now.
  ghost predicate Leaves(w: World, v: World, id: nat, depth: nat, confirmed: set<(string, string)>) {
    v.st.depth == w.st.depth && v.confirmed == confirmed
    && (forall j :: j in v.execs && j != id ==> j in w.execs && v.execs[j] == w.execs[j])
    && (id in v.execs ==> v.execs[id].depth == depth)
  }

  lemma GoneLeaves(w: World, u: World, id: nat, depth: nat)
    requires u.st.depth == w.st.depth && u.execs == w.execs
    ensures Leaves(w, Gone(u, id), id, depth, u.confirmed)
  {
  }

  lemma WaitingLeaves(w: World, u: World, id: nat, e: Exec, phase: Phase)
    requires u.st.depth == w.st.depth && u.execs == w.execs
    ensures Leaves(w, Waiting(u, id, e, phase), id, e.depth, u.confirmed)
  {
  }

  lemma FinalizeLeaves(w: World, u: World, id: nat, e: Exec, record: Record, hash: string)
    requires u.st == w.st && u.execs == w.execs
    ensures Leaves(w, Finalize(u, id, e, record, hash), id, e.depth, u.confirmed)
  {
    hide ApplyEvent, SameDraft, Gone, Leaves;
    var reason := "spawn completed after receipt-confirmed release and controller handoff";
    Settings.EventSettings(w.st, e.session, System, e.now, ReleaseBroadcast, reason);
    GoneLeaves(w, u, id, e.depth);
    var written := ReleaseLocal.Written(u, e, record, hash).(st := ApplyEvent(u.st, e.session, System, e.now, ReleaseBroadcast, reason).state);
    GoneLeaves(w, written, id, e.depth);
  }

  lemma FailLeaves(w: World, u: World, id: nat, e: Exec)
    requires u.st == w.st && u.execs == w.execs
    ensures Leaves(w, FailSpawn(u, id, e), id, e.depth, u.confirmed)
  {
    hide FactoryRuns.Fail, Gone, Leaves;
    Settings.FailSettings(u.st, e.session, System, e.now, "spawn failed");
    GoneLeaves(w, u.(st := FactoryRuns.Fail(u.st, e.session, System, e.now, "spawn failed").state), id, e.depth);
  }

  lemma ErrorLeaves(w: World, id: nat, e: Exec, record: Record, mayStillConfirm: bool)
    ensures Leaves(w, BroadcastError(w, id, e, record, mayStillConfirm), id, e.depth, w.confirmed)
  {
    hide FailSpawn, Gone, Leaves;
    var kept := Persisted(w, e.session, WithError(record));
    GoneLeaves(w, kept, id, e.depth);
    FailLeaves(w, kept, id, e);
  }

  lemma NotDeep(a: Refund.Answer, depth: nat)
    requires !a.Confirmation?
    ensures !Deep(a, depth)
  {
  }

  function Told(w: World, e: Exec, hash: string, a: Refund.Answer): set<(string, string)> {
    if Deep(a, e.depth) then w.confirmed + {(e.session, hash)} else w.confirmed
  }

  lemma OwnLeaves(w: World, id: nat, e: Exec, record: Record, hash: string, a: Refund.Answer)
    ensures Leaves(w, AfterOwnReceipt(w, id, e, record, hash, a), id, e.depth, Told(w, e, hash, a))
  {
    hide Refund.ConfirmDepth, Finalize, BroadcastError, Deep, Gone, Leaves;
    ErrorLeaves(w, id, e, record, true);
    if a.Confirmation? {
      ConfirmsExactly(record, e.depth, a);
      var seen := Refund.ConfirmDepth(record, e.depth, a).0;
      ErrorLeaves(w, id, e, seen, !Reverted(a));
      var kept := Persisted(w, e.session, seen);
      GoneLeaves(w, kept, id, e.depth);
      FinalizeLeaves(w, kept.(confirmed := kept.confirmed + {(e.session, hash)}), id, e, seen, hash);
    } else {
      NotDeep(a, e.depth);
    }
  }

  lemma RecordedLeaves(w: World, id: nat, e: Exec, record: Record, hash: string, a: Refund.Answer, resuming: bool)
    ensures Leaves(w, AfterRecordedReceipt(w, id, e, record, hash, a, resuming), id, e.depth, Told(w, e, hash, a))
  {
    hide Refund.ConfirmDepth, Finalize, FailSpawn, Deep, Gone, Waiting, Leaves;
    GoneLeaves(w, Persisted(w, e.session, WithError(record)), id, e.depth);
    if a.Confirmation? {
      ConfirmsExactly(record, e.depth, a);
      var seen := Refund.ConfirmDepth(record, e.depth, a).0;
      var kept := Persisted(w, e.session, WithError(seen));
      GoneLeaves(w, kept, id, e.depth);
      FailLeaves(w, kept, id, e);
      var noted := w.(confirmed := w.confirmed + {(e.session, hash)});
      WaitingLeaves(w, noted, id, e, AtHandoff(seen, hash));
      FinalizeLeaves(w, Persisted(noted, e.session, seen), id, e, seen, hash);
    } else {
      NotDeep(a, e.depth);
    }
  }

  lemma InstallLeaves(w: World, id: nat, e: Exec, canister: string)
    ensures Leaves(w, AfterInstall(w, id, e, canister), id, e.depth, w.confirmed)
  {
    hide ApplyEvent, FactoryRuns.Attach, Gone, Waiting, Leaves;
    var attached := w.(st := FactoryRuns.Attach(w.st, e.session, canister), owner := w.owner[canister := e.session]);
    Settings.AttachSettings(w.st, e.session, canister);
    Settings.EventSettings(attached.st, e.session, System, e.now, InstallSucceeded, "automaton installed");
    var next := attached.(st := ApplyEvent(attached.st, e.session, System, e.now, InstallSucceeded, "automaton installed").state);
    GoneLeaves(w, next, id, e.depth);
    WaitingLeaves(w, next, id, e.(canister := canister), Preparing);
  }

  lemma HandoffLeaves(w: World, id: nat, e: Exec, controllers: seq<string>)
    ensures Leaves(w, AfterHandoff(w, id, e, controllers), id, e.depth, w.confirmed)
  {
    hide Guarded, Gone, Waiting, Leaves;
    var verified, told := w.(handoffs := w.handoffs + {(e.canister, controllers)}), e.(controllers := controllers);
    GoneLeaves(w, verified, id, e.depth);
    WaitingLeaves(w, verified, id, told, AtReserve);
    if HasHash(e.snapshot) {
      WaitingLeaves(w, verified, id, told, AtExisting(e.snapshot.value, e.snapshot.value.rpcTxHash.value));
    }
  }

  /// What is confirmed after a message.
  function ToldBy(w: World, id: nat, answer: Answer): set<(string, string)>
    requires id in w.execs
  {
    var e := w.execs[id];
    if Guarded(w, e) && (e.phase.AtConfirm? || e.phase.AtExisting? || e.phase.Resuming?) && answer.Receipts?
    then Told(w, e, e.phase.hash, answer.answer) else w.confirmed
  }

  lemma SenderLeaves(w: World, id: nat, answer: Answer)
    requires id in w.execs && !answer.Aborted?
    requires var p := w.execs[id].phase; p.AtReserve? || p.AtKey? || p.AtSign? || p.AtSend?
    ensures Leaves(w, Resume(w, id, answer), id, w.execs[id].depth, w.confirmed)
  {
    hide Guarded, BroadcastError, FailSpawn, Gone, Waiting, Leaves;
    var e := w.execs[id];
    GoneLeaves(w, w, id, e.depth);
    match e.phase
    case AtReserve =>
      FailLeaves(w, w, id, e);
      if answer.Planned? {
        WaitingLeaves(w, w, id, e, AtKey(answer.plan.(rpcTxHash := None)));
      }
    case AtKey(plan) =>
      ErrorLeaves(w, id, e, plan, false);
      WaitingLeaves(w, w, id, e, AtSign(plan));
    case AtSign(plan) =>
      ErrorLeaves(w, id, e, plan, false);
      if answer.Signature? {
        WaitingLeaves(w, w.(sent := w.sent + [(e.session, answer.rawHash)]), id, e,
                      AtSend(plan.(signature := Some(answer.signature), rawHash := Some(answer.rawHash), rawHex := Some(answer.rawHex))));
      }
    case AtSend(record) =>
      ErrorLeaves(w, id, e, record, false);
      if answer.Hash? {
        WaitingLeaves(w, w, id, e, AtConfirm(record.(rpcTxHash := Some(answer.text), broadcastAt := Some(e.now)), answer.text));
      }
  }

  lemma ResumeLeaves(w: World, id: nat, answer: Answer)
    requires id in w.execs
    ensures Leaves(w, Resume(w, id, answer), id, w.execs[id].depth, ToldBy(w, id, answer))
  {
    hide Guarded, AfterInstall, AfterHandoff, FailSpawn, BroadcastError, AfterOwnReceipt, AfterRecordedReceipt, Finalize, Deep, Gone,
      Leaves;
    var e := w.execs[id];
    var a := if answer.Receipts? then answer.answer else Refund.Failed;
    NotDeep(Refund.Failed, e.depth);
    GoneLeaves(w, w, id, e.depth);
    if !answer.Aborted? {
      FailLeaves(w, w, id, e);
      match e.phase
      case Creating => if answer.Installed? { InstallLeaves(w, id, e, answer.canister); }
      case Preparing => if answer.HandedOver? { HandoffLeaves(w, id, e, answer.controllers); }
      case AtConfirm(record, h) => OwnLeaves(w, id, e, record, h, a);
      case AtExisting(record, h) => RecordedLeaves(w, id, e, record, h, a, false);
      case Resuming(record, h) => RecordedLeaves(w, id, e, record, h, a, true);
      case AtHandoff(record, h) =>
        if answer.HandedOver? {
          FinalizeLeaves(w, w.(handoffs := w.handoffs + {(e.canister, answer.controllers)}), id,
                         e.(controllers := answer.controllers), record, h);
        }
      case _ => SenderLeaves(w, id, answer);
    }
  }

  lemma BeginLeaves(w: World, id: nat, s: string, now: nat, ready: bool)
    ensures Leaves(w, Begin(w, id, s, now, ready), id, w.st.depth, w.confirmed) || Begin(w, id, s, now, ready) == w
  {
    hide FailSpawn, ApplyEvent, Leaves;
    if s in w.st.sessions && w.st.sessions[s].payment == Paid {
      var e := Starting(w, s, now);
      FailLeaves(w, w, id, e);
      Settings.EventSettings(w.st, s, System, now, SpawnStarted, "spawn execution started");
      var started := w.(st := ApplyEvent(w.st, s, System, now, SpawnStarted, "spawn execution started").state);
      WaitingLeaves(w, started, id, e, Creating);
      if HasHash(RecordOf(w, s)) {
        WaitingLeaves(w, w, id, e, Resuming(w.records[s], w.records[s].rpcTxHash.value));
      }
    }
  }

  lemma LeavesDepths(w: World, v: World, id: nat, depth: nat, confirmed: set<(string, string)>)
    requires DepthsAre(w, depth) && Leaves(w, v, id, depth, confirmed)
    ensures DepthsAre(v, depth) && v.confirmed == confirmed
  {
  }

  /// A step confirms a transaction exactly when it is such an answer.
  lemma StepConfirms(w: World, step: Step, s: string, hash: string, depth: nat)
    requires DepthsAre(w, depth) && Enabled(w, step)
    ensures DepthsAre(After(w, step), depth)
    ensures (s, hash) in After(w, step).confirmed <==> (s, hash) in w.confirmed || Confirms(w, step, s, hash, depth)
  {
    hide FactoryRuns.After, FactoryRuns.Enabled, Begin, Resume, Deep, Guarded, Leaves;
    match step
    case Elsewhere(e) => Settings.SettingsStay(w.st, e);
    case Execute(id, t, now, ready) =>
      BeginLeaves(w, id, t, now, ready);
      if Begin(w, id, t, now, ready) != w {
        LeavesDepths(w, Begin(w, id, t, now, ready), id, depth, w.confirmed);
      }
    case Continue(id, answer) =>
      ResumeLeaves(w, id, answer);
      LeavesDepths(w, Resume(w, id, answer), id, depth, ToldBy(w, id, answer));
  }

  // ---------------------------------------------------------------- every run

  ghost predicate SomeConfirms(w: World, steps: seq<Step>, s: string, hash: string, depth: nat)
    requires CanRun(w, steps)
    decreases |steps|
  {
    steps != [] && (Confirms(w, steps[0], s, hash, depth) || SomeConfirms(After(w, steps[0]), steps[1..], s, hash, depth))
  }

  lemma {:induction false} ConfirmedExactly(w: World, steps: seq<Step>, s: string, hash: string, depth: nat)
    requires DepthsAre(w, depth) && CanRun(w, steps)
    ensures (s, hash) in Run(w, steps).confirmed <==> (s, hash) in w.confirmed || SomeConfirms(w, steps, s, hash, depth)
    decreases |steps|
  {
    hide DepthsAre, After, Enabled, Confirms;
    if steps != [] {
      StepConfirms(w, steps[0], s, hash, depth);
      ConfirmedExactly(After(w, steps[0]), steps[1..], s, hash, depth);
    }
  }

  /// Main result. In every run, a completed session carries the hash on record; at some message of the
  /// run the node reported that transaction successful, canonical and as deep as the factory asks;
  /// and a canister made for the session is registered with controllers that were verified.
  lemma CompleteIsConfirmed(ttl: nat, depth: nat, steps: seq<Step>, s: string)
    requires CanRun(Start(ttl, depth), steps)
    ensures var w := Run(Start(ttl, depth), steps);
      s in w.st.sessions && w.st.sessions[s].state == Complete ==>
        s in w.txHash && HashOf(w, s) == Some(w.txHash[s]) && SomeConfirms(Start(ttl, depth), steps, s, w.txHash[s], depth)
        && exists c :: RegisteredFor(w, c, s) && c in w.owner && w.owner[c] == s && (c, w.registry[c].controllers) in w.handoffs
  {
    hide CanRun, Run, SomeConfirms;
    CompleteIsReleased(ttl, depth, steps, s);
    var w := Run(Start(ttl, depth), steps);
    if s in w.st.sessions && w.st.sessions[s].state == Complete {
      ConfirmedExactly(Start(ttl, depth), steps, s, w.txHash[s], depth);
    }
  }
}
