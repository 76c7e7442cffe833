/// The continuations of an execution, phase by phase: each keeps the world sound and a recorded
/// release final.
module ReleasePhases {
  import opened Factory
  import FactoryRuns
  import opened Options
  import opened RefundDraft
  import Refund
  import opened Release
  import opened ReleaseRuns
  import opened ReleaseSteps

  predicate SameBut(w: World, v: World) {
    v == w.(confirmed := v.confirmed, handoffs := v.handoffs) && w.confirmed <= v.confirmed && w.handoffs <= v.handoffs
  }

  /// Learning something changes nothing else.
  lemma LearnedOk(w: World, v: World, e: Exec)
    requires SameBut(w, v) && ExecOk(w, e)
    ensures ExecOk(v, e)
  {
  }

  lemma LearningKeeps(w: World, v: World, id: nat)
    requires Sound(w) && id in w.execs && SameBut(w, v)
    ensures Sound(v) && Keeps(w, v)
  {
    hide FactoryRuns.Safe, ExecOk, Sound, Keeps;
    OwnOk(w, id);
    LearnedOk(w, v, w.execs[id]);
    assert w.execs[id := w.execs[id]] == w.execs;
    WaitKeeps(w, v, id, w.execs[id]);
  }

  lemma OwnOk(w: World, id: nat)
    requires Sound(w) && id in w.execs
    ensures ExecOk(w, w.execs[id]) && Free(w, id, w.execs[id].session) && w.execs[id].session in w.st.sessions
  {
    NoOtherSender(w, id);
  }

  lemma LearnedGoneKeeps(w: World, v: World, id: nat)
    requires Sound(w) && id in w.execs && SameBut(w, v)
    ensures Sound(Gone(v, id)) && Keeps(w, Gone(v, id))
  {
    hide Sound, Keeps;
    LearningKeeps(w, v, id);
    GoneKeeps(v, id);
    KeepsTwice(w, v, Gone(v, id));
  }

  // ---------------------------------------------------------------- installing

  lemma InstallSteps(st: State, s: string, canister: string, now: nat)
    requires FactoryRuns.Safe(st) && s in st.sessions
    ensures var after := ApplyEvent(FactoryRuns.Attach(st, s, canister), s, System, now, InstallSucceeded, "automaton installed");
      OnlySession(st, after.state, s) && s in after.state.sessions && after.state.sessions[s].automaton == Some(canister)
      && after.state.sessions[s].state == (if st.sessions[s].state == Spawning then BroadcastingRelease else st.sessions[s].state)
  {
    hide FactoryRuns.Safe, ApplyEvent, Target, OnlySession, FactoryRuns.Attach;
    AttachOne(st, s, canister);
    var attached := FactoryRuns.Attach(st, s, canister);
    OnlyKnows(st, attached, s);
    EventOne(attached, s, now, InstallSucceeded, "automaton installed");
    SpawnTargets(attached.sessions[s], now);
    var after := ApplyEvent(attached, s, System, now, InstallSucceeded, "automaton installed").state;
    OnlyKnows(attached, after, s);
    OnlyTwice(st, attached, after, s);
  }

  lemma OnlyTwice(st: State, mid: State, after: State, s: string)
    requires OnlySession(st, mid, s) && OnlySession(mid, after, s)
    ensures OnlySession(st, after, s)
  {
    hide FactoryRuns.Safe;
    forall o | o != s ensures SameOf(st, after, o) {
      assert SameOf(st, mid, o) && SameOf(mid, after, o);
    }
  }

  /// What installing writes: the session's canister, and whose it is.
  predicate Installs(w: World, v: World, id: nat, e: Exec, canister: string) {
    v.records == w.records && v.txHash == w.txHash && v.registry == w.registry && v.owner == w.owner[canister := e.session]
    && v.sent == w.sent && v.handoffs == w.handoffs && v.confirmed == w.confirmed
    && (v.execs == w.execs - {id} || v.execs == w.execs[id := e.(canister := canister, phase := Preparing)])
    && (canister in w.owner ==> w.owner[canister] == e.session)
    && e.session in w.st.sessions && e.session in v.st.sessions && v.st.sessions[e.session].automaton == Some(canister)
    && v.st.sessions[e.session].state
       == (if w.st.sessions[e.session].state == Spawning then BroadcastingRelease else w.st.sessions[e.session].state)
  }

  lemma InstallsWithin(w: World, v: World, id: nat, e: Exec, canister: string)
    requires Installs(w, v, id, e, canister) && OnlySession(w.st, v.st, e.session)
    ensures Within(w, v, e.session)
  {
    hide FactoryRuns.Safe;
    forall o | o != e.session ensures SameSession(w, v, o) {
      assert SameOf(w.st, v.st, o);
    }
  }

  lemma InstallsBooks(w: World, v: World, id: nat, e: Exec, canister: string)
    requires Installs(w, v, id, e, canister)
    requires TxOk(w, e.session) && SessionOk(w, e.session) && forall c :: EntryOk(w, c)
    ensures TxOk(v, e.session) && SessionOk(v, e.session) && forall c :: EntryOk(v, c)
  {
    if w.st.sessions[e.session].state == Complete {
      var c :| RegisteredFor(w, c, e.session);
      assert RegisteredFor(v, c, e.session);
    }
    forall c ensures EntryOk(v, c) {
      assert EntryOk(w, c);
    }
  }

  lemma InstallsMoves(w: World, v: World, id: nat, e: Exec, canister: string)
    requires Installs(w, v, id, e, canister) && e.phase.Creating? && ExecOk(w, e) && Free(w, id, e.session)
    ensures OneMoves(w, v, id, e.session)
  {
  }

  lemma InstallsKeeps(w: World, v: World, id: nat, e: Exec, canister: string)
    requires Sound(w) && Free(w, id, e.session) && ExecOk(w, e) && e.phase.Creating?
    requires Installs(w, v, id, e, canister) && OnlySession(w.st, v.st, e.session)
    ensures Sound(v) && Keeps(w, v)
  {
    hide FactoryRuns.Safe, ExecOk, SessionOk, Keeps, TxOk, EntryOk, OnlySession, Within, OneMoves;
    PartsOf(w, id, e.session);
    OnlyKnows(w.st, v.st, e.session);
    InstallsWithin(w, v, id, e, canister);
    InstallsBooks(w, v, id, e, canister);
    InstallsMoves(w, v, id, e, canister);
    StepOfOne(w, v, id, e.session);
  }

  lemma InstallKeeps(w: World, id: nat, canister: string)
    requires Sound(w) && id in w.execs && w.execs[id].phase.Creating?
    requires canister in w.owner ==> w.owner[canister] == w.execs[id].session
    ensures Sound(AfterInstall(w, id, w.execs[id], canister)) && Keeps(w, AfterInstall(w, id, w.execs[id], canister))
  {
    hide FactoryRuns.Safe, ExecOk, ExecsOk, BooksOk, Keeps, ApplyEvent, FactoryRuns.Attach, OnlySession;
    var e := w.execs[id];
    OwnOk(w, id);
    InstallSteps(w.st, e.session, canister, e.now);
    InstallsKeeps(w, AfterInstall(w, id, e, canister), id, e, canister);
  }

  // ---------------------------------------------------------------- handing over

  /// An execution goes on to `next`, with nothing but its own claims to prove.
  lemma GoesOn(w: World, v: World, id: nat, next: Exec)
    requires Sound(w) && id in w.execs && next.session == w.execs[id].session && ExecOk(v, next)
    requires v == w.(execs := w.execs[id := next], confirmed := v.confirmed, handoffs := v.handoffs)
    requires w.confirmed <= v.confirmed && w.handoffs <= v.handoffs
    ensures Sound(v) && Keeps(w, v)
  {
    hide FactoryRuns.Safe, ExecOk, Sound, Keeps;
    OwnOk(w, id);
    WaitKeeps(w, v, id, next);
  }

  /// Where a verified handoff leads: to the transaction on record, or to a nonce.
  function Onward(e: Exec, controllers: seq<string>): Exec {
    e.(controllers := controllers,
       phase := if HasHash(e.snapshot) then AtExisting(e.snapshot.value, e.snapshot.value.rpcTxHash.value) else AtReserve)
  }

  lemma OnwardOk(w: World, v: World, e: Exec, controllers: seq<string>)
    requires ExecOk(w, e) && e.phase.Preparing?
    requires v == w.(execs := v.execs, handoffs := w.handoffs + {(e.canister, controllers)})
    ensures ExecOk(v, Onward(e, controllers))
  {
  }

  lemma HandoffCases(w: World, id: nat, e: Exec, controllers: seq<string>)
    ensures var verified := w.(handoffs := w.handoffs + {(e.canister, controllers)});
      AfterHandoff(w, id, e, controllers) == Gone(verified, id)
      || AfterHandoff(w, id, e, controllers) == verified.(execs := w.execs[id := Onward(e, controllers)])
  {
    hide Guarded;
  }

  lemma HandoffKeeps(w: World, id: nat, controllers: seq<string>)
    requires Sound(w) && id in w.execs && w.execs[id].phase.Preparing?
    ensures Sound(AfterHandoff(w, id, w.execs[id], controllers)) && Keeps(w, AfterHandoff(w, id, w.execs[id], controllers))
  {
    hide FactoryRuns.Safe, ExecOk, Sound, Keeps, AfterHandoff;
    var e := w.execs[id];
    var v := AfterHandoff(w, id, e, controllers);
    var verified := w.(handoffs := w.handoffs + {(e.canister, controllers)});
    OwnOk(w, id);
    HandoffCases(w, id, e, controllers);
    if v == Gone(verified, id) {
      LearnedGoneKeeps(w, verified, id);
    } else {
      OnwardOk(w, v, e, controllers);
      GoesOn(w, v, id, Onward(e, controllers));
    }
  }

  // ---------------------------------------------------------------- sending

  lemma SenderHasNoHash(w: World, e: Exec)
    requires ExecOk(w, e) && Capable(e)
    ensures HashOf(w, e.session).None?
  {
  }

  /// Reserving, deriving the key, and sending.
  lemma PreparesOk(w: World, e: Exec, phase: Phase)
    requires ExecOk(w, e) && Capable(e) && TakenOver(e)
    requires phase.AtKey? || phase.AtSign? || phase.AtSend? || phase.AtConfirm?
    requires PlanOk(e.(phase := phase))
    ensures ExecOk(w, e.(phase := phase))
  {
  }

  lemma ExecsDoNotMatter(w: World, v: World, e: Exec)
    requires ExecOk(w, e) && v == w.(execs := v.execs, sent := v.sent)
    ensures ExecOk(v, e)
  {
  }

  lemma PreparingKeeps(w: World, id: nat, phase: Phase)
    requires Sound(w) && id in w.execs && Capable(w.execs[id]) && TakenOver(w.execs[id])
    requires phase.AtKey? || phase.AtSign? || phase.AtSend? || phase.AtConfirm?
    requires PlanOk(w.execs[id].(phase := phase))
    ensures var v := Waiting(w, id, w.execs[id], phase); Sound(v) && Keeps(w, v)
  {
    hide FactoryRuns.Safe, ExecOk, Sound, Keeps, Capable, TakenOver, PlanOk;
    var e := w.execs[id];
    var v := Waiting(w, id, e, phase);
    OwnOk(w, id);
    PreparesOk(w, e, phase);
    ExecsDoNotMatter(w, v, e.(phase := phase));
    GoesOn(w, v, id, e.(phase := phase));
  }

  /// The broadcast: the only step that sends.
  lemma SendingKeeps(w: World, id: nat, plan: Record, hash: string)
    requires Sound(w) && id in w.execs && Capable(w.execs[id]) && TakenOver(w.execs[id]) && plan.rpcTxHash.None?
    ensures var v := Waiting(w.(sent := w.sent + [(w.execs[id].session, hash)]), id, w.execs[id], AtSend(plan)); Sound(v) && Keeps(w, v)
  {
    hide FactoryRuns.Safe, ExecOk, Sound, Keeps, Capable, TakenOver;
    var e := w.execs[id];
    var v := Waiting(w.(sent := w.sent + [(e.session, hash)]), id, e, AtSend(plan));
    OwnOk(w, id);
    SenderHasNoHash(w, e);
    PreparesOk(w, e, AtSend(plan));
    ExecsDoNotMatter(w, v, e.(phase := AtSend(plan)));
    WaitKeeps(w, v, id, e.(phase := AtSend(plan)));
  }

  lemma SenderErrorKeeps(w: World, id: nat, record: Record, mayStillConfirm: bool)
    requires Sound(w) && id in w.execs && Capable(w.execs[id])
    ensures var v := BroadcastError(w, id, w.execs[id], record, mayStillConfirm); Sound(v) && Keeps(w, v)
  {
    hide FactoryRuns.Safe, ExecOk, Sound, Keeps, Capable, BroadcastError;
    OwnOk(w, id);
    SenderHasNoHash(w, w.execs[id]);
    BroadcastErrorKeeps(w, id, w.execs[id], record, mayStillConfirm);
  }

  // ---------------------------------------------------------------- confirming

  lemma SeenKeepsHash(record: Record, depth: nat, a: Refund.Answer)
    requires a.Confirmation?
    ensures Refund.ConfirmDepth(record, depth, a).0.rpcTxHash == record.rpcTxHash
    ensures IdentityOf(Refund.ConfirmDepth(record, depth, a).0) == IdentityOf(record)
    ensures Refund.ConfirmDepth(record, depth, a).1 == Some(true) ==> Refund.ConfirmDepth(record, depth, a).0.receiptStatus == Some(true)
  {
  }

  lemma OwnerOf(w: World, e: Exec)
    requires ExecOk(w, e) && !e.phase.Creating?
    ensures e.canister in w.owner && w.owner[e.canister] == e.session
    ensures TakenOver(e) ==> (e.canister, e.controllers) in w.handoffs
    ensures e.phase.AtHandoff? ==> (e.session, e.phase.hash) in w.confirmed
    ensures !Capable(e) ==> KnownHash(e).Some? && HashOf(w, e.session) == KnownHash(e)
    ensures PlanOk(e)
  {
  }

  lemma OwnFinalKeeps(w: World, id: nat, seen: Record, hash: string)
    requires Sound(w) && id in w.execs && w.execs[id].phase.AtConfirm? && seen.rpcTxHash == Some(hash)
    ensures var s := w.execs[id].session;
      var kept := Persisted(w, s, seen);
      var v := Finalize(kept.(confirmed := kept.confirmed + {(s, hash)}), id, w.execs[id], seen, hash);
      Sound(v) && Keeps(w, v)
  {
    hide FactoryRuns.Safe, ExecOk, Sound, Keeps, Finalize;
    var e := w.execs[id];
    OwnOk(w, id);
    OwnerOf(w, e);
    SenderHasNoHash(w, e);
    var kept := Persisted(w, e.session, seen);
    FinalizeKeeps(w, kept.(confirmed := kept.confirmed + {(e.session, hash)}), id, e, seen, hash);
  }

  lemma OwnReceiptKeeps(w: World, id: nat, record: Record, hash: string, a: Refund.Answer)
    requires Sound(w) && id in w.execs && w.execs[id].phase == AtConfirm(record, hash) && record.rpcTxHash == Some(hash)
    ensures var v := AfterOwnReceipt(w, id, w.execs[id], record, hash, a); Sound(v) && Keeps(w, v)
  {
    hide FactoryRuns.Safe, ExecOk, Sound, Keeps, Finalize, BroadcastError, Refund.ConfirmDepth, Gone;
    var e := w.execs[id];
    if !a.Confirmation? {
      SenderErrorKeeps(w, id, record, true);
    } else {
      var (seen, confirmed) := Refund.ConfirmDepth(record, e.depth, a);
      SeenKeepsHash(record, e.depth, a);
      OwnOk(w, id);
      SenderHasNoHash(w, e);
      if confirmed.None? {
        SenderErrorKeeps(w, id, seen, !Reverted(a));
      } else if confirmed.value {
        OwnFinalKeeps(w, id, seen, hash);
      } else {
        KeptKeeps(w, id, e, seen);
      }
    }
  }

  lemma RecordedFinalKeeps(w: World, id: nat, seen: Record, hash: string)
    requires Sound(w) && id in w.execs && w.execs[id].phase.AtExisting? && w.execs[id].phase.hash == hash && seen.rpcTxHash == Some(hash)
    ensures var noted := w.(confirmed := w.confirmed + {(w.execs[id].session, hash)});
      var v := Finalize(Persisted(noted, w.execs[id].session, seen), id, w.execs[id], seen, hash);
      Sound(v) && Keeps(w, v)
  {
    hide FactoryRuns.Safe, ExecOk, Sound, Keeps, Finalize;
    var e := w.execs[id];
    OwnOk(w, id);
    OwnerOf(w, e);
    var noted := w.(confirmed := w.confirmed + {(e.session, hash)});
    FinalizeKeeps(w, Persisted(noted, e.session, seen), id, e, seen, hash);
  }

  lemma ToHandoffOk(w: World, v: World, e: Exec, seen: Record, hash: string)
    requires ExecOk(w, e) && e.phase.Resuming? && e.phase.hash == hash && seen.rpcTxHash == Some(hash) && seen.receiptStatus == Some(true)
    requires v == w.(execs := v.execs, confirmed := w.confirmed + {(e.session, hash)})
    ensures ExecOk(v, e.(phase := AtHandoff(seen, hash)))
  {
  }

  lemma ToHandoffKeeps(w: World, id: nat, seen: Record, hash: string)
    requires Sound(w) && id in w.execs && w.execs[id].phase.Resuming? && w.execs[id].phase.hash == hash && seen.rpcTxHash == Some(hash)
    requires seen.receiptStatus == Some(true)
    ensures var v := Waiting(w.(confirmed := w.confirmed + {(w.execs[id].session, hash)}), id, w.execs[id], AtHandoff(seen, hash));
      Sound(v) && Keeps(w, v)
  {
    hide FactoryRuns.Safe, ExecOk, Sound, Keeps;
    var e := w.execs[id];
    var v := Waiting(w.(confirmed := w.confirmed + {(e.session, hash)}), id, e, AtHandoff(seen, hash));
    OwnOk(w, id);
    ToHandoffOk(w, v, e, seen, hash);
    GoesOn(w, v, id, e.(phase := AtHandoff(seen, hash)));
  }

  /// A recorded transaction whose receipt is missing, unsuccessful or not deep enough.
  lemma RecordedErrorKeeps(w: World, id: nat, record: Record, hash: string)
    requires Sound(w) && id in w.execs && (w.execs[id].phase.AtExisting? || w.execs[id].phase.Resuming?)
    requires w.execs[id].phase.hash == hash && record.rpcTxHash == Some(hash)
    ensures var s := w.execs[id].session;
      var kept := Persisted(w, s, WithError(record));
      Sound(Gone(kept, id)) && Keeps(w, Gone(kept, id))
      && Sound(FailSpawn(kept, id, w.execs[id])) && Keeps(w, FailSpawn(kept, id, w.execs[id]))
  {
    hide FactoryRuns.Safe, ExecOk, Sound, Keeps, FailSpawn, Gone;
    var e := w.execs[id];
    OwnOk(w, id);
    OwnerOf(w, e);
    KeptKeeps(w, id, e, WithError(record));
    KeptAndFailedKeeps(w, id, e, WithError(record));
  }

  lemma RecordedReceiptKeeps(w: World, id: nat, record: Record, hash: string, a: Refund.Answer, resuming: bool)
    requires Sound(w) && id in w.execs && record.rpcTxHash == Some(hash)
    requires w.execs[id].phase == if resuming then Resuming(record, hash) else AtExisting(record, hash)
    ensures var v := AfterRecordedReceipt(w, id, w.execs[id], record, hash, a, resuming); Sound(v) && Keeps(w, v)
  {
    hide FactoryRuns.Safe, Sound, Keeps, Finalize, FailSpawn, Refund.ConfirmDepth, Gone, MayStillCome;
    var e := w.execs[id];
    if !a.Confirmation? {
      RecordedErrorKeeps(w, id, record, hash);
    } else {
      var (seen, confirmed) := Refund.ConfirmDepth(record, e.depth, a);
      SeenKeepsHash(record, e.depth, a);
      if confirmed == Some(true) {
        if resuming {
          ToHandoffKeeps(w, id, seen, hash);
        } else {
          RecordedFinalKeeps(w, id, seen, hash);
        }
      } else {
        RecordedErrorKeeps(w, id, seen, hash);
      }
    }
  }

  /// The controllers of a resumed release are verified, and the session completes.
  lemma ResumedFinalKeeps(w: World, id: nat, record: Record, hash: string, controllers: seq<string>)
    requires Sound(w) && id in w.execs && w.execs[id].phase == AtHandoff(record, hash)
    ensures var e := w.execs[id];
      var v := Finalize(w.(handoffs := w.handoffs + {(e.canister, controllers)}), id, e.(controllers := controllers), record, hash);
      Sound(v) && Keeps(w, v)
  {
    hide FactoryRuns.Safe, ExecOk, Sound, Keeps, SameDraft, IdentityOf;
    var e := w.execs[id];
    var told := e.(controllers := controllers);
    var verified := w.(handoffs := w.handoffs + {(e.canister, controllers)});
    OwnOk(w, id);
    OwnerOf(w, e);
    if SameDraft(RecordOf(verified, e.session), Some(record)) {
      hide Finalize;
      FinalizeKeeps(w, verified, id, told, record, hash);
    } else {
      LearnedGoneKeeps(w, verified, id);
    }
  }
}
