/// Where the messages of one execution can reach: its own session, which only goes forward, and no
/// other execution; and runs put together from steps.
module ReleaseLocal {
  import opened Factory
  import FactoryRuns
  import Invariants
  import opened Options
  import opened RefundDraft
  import Refund
  import opened Release
  import opened ReleaseRuns
  import opened ReleaseSafety

  // ---------------------------------------------------------------- one message, one session

  /// A session that can no longer be spawned for the first time.
  predicate PastStart(st: State, s: string) {
    s in st.sessions && st.sessions[s].state != AwaitingPayment && st.sessions[s].state != PaymentDetected
  }

  /// Only session `s` changes; it goes forward, and not back to where it could be spawned.
  ghost predicate GoesForward(st: State, after: State, s: string) {
    FactoryRuns.Forward(st, after) && (forall o :: o != s ==> SameOf(st, after, o)) && (PastStart(st, s) ==> PastStart(after, s))
  }

  /// The state goes on for `s` alone, and no record but that of `s` changes.
  ghost predicate Books(w: World, u: World, s: string) {
    GoesForward(w.st, u.st, s) && u.execs == w.execs && forall o :: o != s ==> RecordOf(u, o) == RecordOf(w, o)
  }

  predicate SameExec(w: World, v: World, j: nat) {
    (j in v.execs <==> j in w.execs) && (j in w.execs ==> v.execs[j] == w.execs[j])
  }

  /// The same for a whole message of execution `id`, which leaves or goes on.
  ghost predicate Local(w: World, v: World, id: nat, s: string) {
    GoesForward(w.st, v.st, s)
    && (forall o :: o != s ==> RecordOf(v, o) == RecordOf(w, o))
    && (forall j :: j != id ==> SameExec(w, v, j))
    && (id in v.execs ==> v.execs[id].session == s)
  }

  lemma SelfBooks(w: World, u: World, s: string)
    requires u.st == w.st && u.records == w.records && u.execs == w.execs
    ensures Books(w, u, s)
  {
    SelfForward(w.st, s);
  }

  lemma SelfForward(st: State, s: string)
    ensures GoesForward(st, st, s)
  {
    FactoryRuns.SameForward(st, st);
  }

  lemma ForwardAgain(a: State, b: State, c: State, s: string)
    requires GoesForward(a, b, s) && GoesForward(b, c, s)
    ensures GoesForward(a, c, s)
  {
    hide FactoryRuns.Forward;
    FactoryRuns.ForwardTwice(a, b, c);
    forall o | o != s ensures SameOf(a, c, o) {
      assert SameOf(a, b, o) && SameOf(b, c, o);
    }
  }

  lemma PersistedBooks(w: World, u: World, s: string, record: Record)
    requires Books(w, u, s)
    ensures Books(w, Persisted(u, s, record), s)
  {
    hide GoesForward;
    var v := Persisted(u, s, record);
    forall o | o != s ensures RecordOf(v, o) == RecordOf(w, o) {
      assert RecordOf(u, o) == RecordOf(w, o);
    }
  }

  lemma GoneLocal(w: World, u: World, id: nat, s: string)
    requires Books(w, u, s)
    ensures Local(w, Gone(u, id), id, s)
  {
    hide GoesForward;
    var v := Gone(u, id);
    forall o | o != s ensures RecordOf(v, o) == RecordOf(w, o) {
      assert RecordOf(u, o) == RecordOf(w, o);
    }
  }

  lemma WaitingLocal(w: World, u: World, id: nat, e: Exec, phase: Phase)
    requires Books(w, u, e.session)
    ensures Local(w, Waiting(u, id, e, phase), id, e.session)
  {
    hide GoesForward;
    var v := Waiting(u, id, e, phase);
    forall o | o != e.session ensures RecordOf(v, o) == RecordOf(w, o) {
      assert RecordOf(u, o) == RecordOf(w, o);
    }
  }

  lemma MovedBooks(w: World, u: World, v: World, s: string)
    requires Books(w, u, s) && GoesForward(u.st, v.st, s) && v.execs == u.execs
    requires forall o :: o != s ==> RecordOf(v, o) == RecordOf(u, o)
    ensures Books(w, v, s)
  {
    hide GoesForward;
    ForwardAgain(w.st, u.st, v.st, s);
    forall o | o != s ensures RecordOf(v, o) == RecordOf(w, o) {
      assert RecordOf(u, o) == RecordOf(w, o);
    }
  }

  lemma SafeSessions(st: State)
    requires FactoryRuns.Safe(st)
    ensures Invariants.SessionsOk(st)
  {
  }

  /// An execution's events: none takes the session back.
  lemma EventGoesForward(st: State, s: string, now: nat, event: Event, reason: string)
    requires FactoryRuns.Safe(st) && s in st.sessions && event in {SpawnStarted, InstallSucceeded, ReleaseBroadcast, SpawnFailed}
    ensures GoesForward(st, ApplyEvent(st, s, System, now, event, reason).state, s)
  {
    hide FactoryRuns.Safe, FactoryRuns.Forward, ApplyEvent, Target;
    SafeSessions(st);
    FactoryRuns.EventForward(st, s, System, now, event, reason);
    EventOne(st, s, now, event, reason);
    SpawnTargets(st.sessions[s], now);
  }

  lemma FailGoesForward(st: State, s: string, now: nat)
    requires FactoryRuns.Safe(st) && s in st.sessions
    ensures GoesForward(st, FactoryRuns.Fail(st, s, System, now, "spawn failed").state, s)
  {
    hide FactoryRuns.Safe, FactoryRuns.Forward, ApplyEvent, Target;
    SafeSessions(st);
    FactoryRuns.EventForward(st, s, System, now, SpawnFailed, "spawn failed");
    FactoryRuns.EnqueueForward(st, ApplyEvent(st, s, System, now, SpawnFailed, "spawn failed").state, s, now);
    FailOne(st, s, now);
    SpawnTargets(st.sessions[s], now);
  }

  lemma AttachGoesForward(st: State, s: string, canister: string)
    requires FactoryRuns.Safe(st) && s in st.sessions
    ensures GoesForward(st, FactoryRuns.Attach(st, s, canister), s) && FactoryRuns.Safe(FactoryRuns.Attach(st, s, canister))
    ensures s in FactoryRuns.Attach(st, s, canister).sessions
  {
    hide FactoryRuns.Safe, FactoryRuns.Forward;
    SafeSessions(st);
    FactoryRuns.AttachKeepsSafe(st, s, canister);
    FactoryRuns.AttachForward(st, s, canister);
    AttachOne(st, s, canister);
  }

  lemma FailLocal(w: World, u: World, id: nat, e: Exec)
    requires Books(w, u, e.session) && FactoryRuns.Safe(u.st) && e.session in u.st.sessions
    ensures Local(w, FailSpawn(u, id, e), id, e.session)
  {
    hide FactoryRuns.Safe, GoesForward, FactoryRuns.Fail, Local;
    FailGoesForward(u.st, e.session, e.now);
    var failed := u.(st := FactoryRuns.Fail(u.st, e.session, System, e.now, "spawn failed").state);
    MovedBooks(w, u, failed, e.session);
    GoneLocal(w, failed, id, e.session);
  }

  lemma BroadcastErrorLocal(w: World, id: nat, e: Exec, record: Record, mayStillConfirm: bool)
    requires FactoryRuns.Safe(w.st) && e.session in w.st.sessions
    ensures Local(w, BroadcastError(w, id, e, record, mayStillConfirm), id, e.session)
  {
    hide FactoryRuns.Safe, Local, Books, FailSpawn, Gone;
    var kept := Persisted(w, e.session, WithError(record));
    SelfBooks(w, w, e.session);
    PersistedBooks(w, w, e.session, WithError(record));
    GoneLocal(w, kept, id, e.session);
    FailLocal(w, kept, id, e);
  }

  /// The world finalizing writes, before the event.
  function Written(u: World, e: Exec, record: Record, hash: string): World {
    u.(txHash := u.txHash[e.session := hash], records := u.records[e.session := record],
       registry := u.registry[e.canister := Entry(e.session, e.controllers)])
  }

  /// Finalizing writes everything or nothing.
  lemma FinalizeCases(w: World, id: nat, e: Exec, record: Record, hash: string)
    ensures var v := Finalize(w, id, e, record, hash);
      v == Gone(w, id)
      || (SameDraft(RecordOf(w, e.session), Some(record)) && v == Gone(Written(w, e, record, hash).(st := v.st), id))
  {
    hide SameDraft, ApplyEvent, RecordOf;
  }

  lemma FinalizeLocal(w: World, u: World, id: nat, e: Exec, record: Record, hash: string)
    requires Books(w, u, e.session) && FactoryRuns.Safe(u.st)
    ensures Local(w, Finalize(u, id, e, record, hash), id, e.session)
  {
    hide FactoryRuns.Safe, GoesForward, ApplyEvent, Local, SameDraft, Gone;
    GoneLocal(w, u, id, e.session);
    if e.session in u.st.sessions {
      var reason := "spawn completed after receipt-confirmed release and controller handoff";
      EventGoesForward(u.st, e.session, e.now, ReleaseBroadcast, reason);
      var done := Written(u, e, record, hash).(st := ApplyEvent(u.st, e.session, System, e.now, ReleaseBroadcast, reason).state);
      MovedBooks(w, u, done, e.session);
      GoneLocal(w, done, id, e.session);
    }
  }

  lemma InstallLocal(w: World, id: nat, e: Exec, canister: string)
    requires FactoryRuns.Safe(w.st) && e.session in w.st.sessions
    ensures Local(w, AfterInstall(w, id, e, canister), id, e.session)
  {
    hide FactoryRuns.Safe, GoesForward, ApplyEvent, Local, Books, FactoryRuns.Attach, Gone, Waiting;
    AttachGoesForward(w.st, e.session, canister);
    var attached := w.(st := FactoryRuns.Attach(w.st, e.session, canister), owner := w.owner[canister := e.session]);
    EventGoesForward(attached.st, e.session, e.now, InstallSucceeded, "automaton installed");
    var next := attached.(st := ApplyEvent(attached.st, e.session, System, e.now, InstallSucceeded, "automaton installed").state);
    SelfBooks(w, w, e.session);
    MovedBooks(w, w, attached, e.session);
    MovedBooks(w, attached, next, e.session);
    GoneLocal(w, next, id, e.session);
    WaitingLocal(w, next, id, e.(canister := canister), Preparing);
  }

  lemma HandoffLocal(w: World, id: nat, e: Exec, controllers: seq<string>)
    ensures Local(w, AfterHandoff(w, id, e, controllers), id, e.session)
  {
    hide Local, Books, Guarded, Gone, Waiting;
    var verified, told := w.(handoffs := w.handoffs + {(e.canister, controllers)}), e.(controllers := controllers);
    SelfBooks(w, verified, e.session);
    GoneLocal(w, verified, id, e.session);
    WaitingLocal(w, verified, id, told, AtReserve);
    if HasHash(e.snapshot) {
      WaitingLocal(w, verified, id, told, AtExisting(e.snapshot.value, e.snapshot.value.rpcTxHash.value));
    }
  }

  lemma OwnReceiptLocal(w: World, id: nat, e: Exec, record: Record, hash: string, a: Refund.Answer)
    requires FactoryRuns.Safe(w.st) && e.session in w.st.sessions
    ensures Local(w, AfterOwnReceipt(w, id, e, record, hash, a), id, e.session)
  {
    hide FactoryRuns.Safe, Local, Books, Finalize, BroadcastError, Gone, Refund.ConfirmDepth;
    BroadcastErrorLocal(w, id, e, record, true);
    if a.Confirmation? {
      var (seen, confirmed) := Refund.ConfirmDepth(record, e.depth, a);
      BroadcastErrorLocal(w, id, e, seen, !Reverted(a));
      SelfBooks(w, w, e.session);
      PersistedBooks(w, w, e.session, seen);
      var kept := Persisted(w, e.session, seen);
      GoneLocal(w, kept, id, e.session);
      var noted := kept.(confirmed := kept.confirmed + {(e.session, hash)});
      NotedBooks(w, kept, noted, e.session);
      FinalizeLocal(w, noted, id, e, seen, hash);
    }
  }

  lemma NotedBooks(w: World, u: World, v: World, s: string)
    requires Books(w, u, s) && v == u.(confirmed := v.confirmed, handoffs := v.handoffs)
    ensures Books(w, v, s)
  {
    hide GoesForward;
    forall o | o != s ensures RecordOf(v, o) == RecordOf(w, o) {
      assert RecordOf(u, o) == RecordOf(w, o);
    }
  }

  lemma RecordedReceiptLocal(w: World, id: nat, e: Exec, record: Record, hash: string, a: Refund.Answer, resuming: bool)
    requires FactoryRuns.Safe(w.st) && e.session in w.st.sessions
    ensures Local(w, AfterRecordedReceipt(w, id, e, record, hash, a, resuming), id, e.session)
  {
    hide FactoryRuns.Safe, Local, Books, Finalize, FailSpawn, Gone, Waiting, Refund.ConfirmDepth, MayStillCome;
    SelfBooks(w, w, e.session);
    PersistedBooks(w, w, e.session, WithError(record));
    GoneLocal(w, Persisted(w, e.session, WithError(record)), id, e.session);
    if a.Confirmation? {
      var (seen, confirmed) := Refund.ConfirmDepth(record, e.depth, a);
      var kept := Persisted(w, e.session, WithError(seen));
      PersistedBooks(w, w, e.session, WithError(seen));
      GoneLocal(w, kept, id, e.session);
      FailLocal(w, kept, id, e);
      var noted := w.(confirmed := w.confirmed + {(e.session, hash)});
      NotedBooks(w, w, noted, e.session);
      WaitingLocal(w, noted, id, e, AtHandoff(seen, hash));
      PersistedBooks(w, noted, e.session, seen);
      FinalizeLocal(w, Persisted(noted, e.session, seen), id, e, seen, hash);
    }
  }

  lemma SenderLocal(w: World, id: nat, answer: Answer)
    requires FactoryRuns.Safe(w.st) && id in w.execs && TakenOver(w.execs[id]) && Capable(w.execs[id]) && !answer.Aborted?
    requires w.execs[id].session in w.st.sessions
    ensures Local(w, Resume(w, id, answer), id, w.execs[id].session)
  {
    hide FactoryRuns.Safe, Local, Books, Guarded, BroadcastError, FailSpawn, Gone, Waiting, AfterOwnReceipt;
    var e := w.execs[id];
    SelfBooks(w, w, e.session);
    GoneLocal(w, w, id, e.session);
    match e.phase
    case AtReserve =>
      FailLocal(w, w, id, e);
      if answer.Planned? {
        WaitingLocal(w, w, id, e, AtKey(answer.plan.(rpcTxHash := None)));
      }
    case AtKey(plan) =>
      BroadcastErrorLocal(w, id, e, plan, false);
      WaitingLocal(w, w, id, e, AtSign(plan));
    case AtSign(plan) =>
      BroadcastErrorLocal(w, id, e, plan, false);
      if answer.Signature? {
        var sent := w.(sent := w.sent + [(e.session, answer.rawHash)]);
        SelfBooks(w, sent, e.session);
        WaitingLocal(w, sent, id, e,
                     AtSend(plan.(signature := Some(answer.signature), rawHash := Some(answer.rawHash), rawHex := Some(answer.rawHex))));
      }
    case AtSend(record) =>
      BroadcastErrorLocal(w, id, e, record, false);
      if answer.Hash? {
        WaitingLocal(w, w, id, e, AtConfirm(record.(rpcTxHash := Some(answer.text), broadcastAt := Some(e.now)), answer.text));
      }
    case AtConfirm(record, hash) =>
      OwnReceiptLocal(w, id, e, record, hash, if answer.Receipts? then answer.answer else Refund.Failed);
  }

  lemma OtherLocal(w: World, id: nat, answer: Answer)
    requires FactoryRuns.Safe(w.st) && id in w.execs && !answer.Aborted? && w.execs[id].session in w.st.sessions
    requires var p := w.execs[id].phase; p.Creating? || p.Preparing? || p.AtExisting? || p.Resuming? || p.AtHandoff?
    ensures Local(w, Resume(w, id, answer), id, w.execs[id].session)
  {
    hide FactoryRuns.Safe, Local, Books, Guarded, Finalize, FailSpawn, Gone, AfterInstall, AfterHandoff, AfterRecordedReceipt;
    var e := w.execs[id];
    SelfBooks(w, w, e.session);
    GoneLocal(w, w, id, e.session);
    FailLocal(w, w, id, e);
    match e.phase
    case Creating =>
      if answer.Installed? {
        InstallLocal(w, id, e, answer.canister);
      }
    case Preparing =>
      if answer.HandedOver? {
        HandoffLocal(w, id, e, answer.controllers);
      }
    case AtExisting(record, hash) =>
      RecordedReceiptLocal(w, id, e, record, hash, if answer.Receipts? then answer.answer else Refund.Failed, false);
    case Resuming(record, hash) =>
      RecordedReceiptLocal(w, id, e, record, hash, if answer.Receipts? then answer.answer else Refund.Failed, true);
    case AtHandoff(record, hash) =>
      if answer.HandedOver? {
        var verified := w.(handoffs := w.handoffs + {(e.canister, answer.controllers)});
        SelfBooks(w, verified, e.session);
        FinalizeLocal(w, verified, id, e.(controllers := answer.controllers), record, hash);
      }
  }

  lemma AbortedLocal(w: World, id: nat)
    requires id in w.execs
    ensures Local(w, Resume(w, id, Aborted), id, w.execs[id].session)
  {
    hide Local, Books, Gone;
    SelfBooks(w, w, w.execs[id].session);
    GoneLocal(w, w, id, w.execs[id].session);
  }

  /// A message of an execution stays within its session.
  lemma ResumeLocal(w: World, id: nat, answer: Answer)
    requires Sound(w) && id in w.execs
    ensures Local(w, Resume(w, id, answer), id, w.execs[id].session)
  {
    hide FactoryRuns.Safe, Local, Resume, ExecsOk, BooksOk;
    ExecInSession(w, id);
    if answer.Aborted? {
      AbortedLocal(w, id);
    } else if TakenOver(w.execs[id]) && Capable(w.execs[id]) {
      SenderLocal(w, id, answer);
    } else {
      OtherLocal(w, id, answer);
    }
  }

  lemma ExecInSession(w: World, id: nat)
    requires Sound(w) && id in w.execs
    ensures w.execs[id].session in w.st.sessions && ExecOk(w, w.execs[id]) && FactoryRuns.Safe(w.st)
  {
    hide FactoryRuns.Safe;
    assert ExecOk(w, w.execs[id]);
  }

  lemma BeginLocal(w: World, id: nat, s: string, now: nat, ready: bool)
    requires FactoryRuns.Safe(w.st)
    ensures Local(w, Begin(w, id, s, now, ready), id, s) || Begin(w, id, s, now, ready) == w
  {
    hide FactoryRuns.Safe, GoesForward, Local, Books, FailSpawn, ApplyEvent;
    if s in w.st.sessions && w.st.sessions[s].payment == Paid {
      SelfBooks(w, w, s);
      if w.st.sessions[s].state == PaymentDetected {
        FailLocal(w, w, id, Starting(w, s, now));
        EventGoesForward(w.st, s, now, SpawnStarted, "spawn execution started");
        var started := w.(st := ApplyEvent(w.st, s, System, now, SpawnStarted, "spawn execution started").state);
        MovedBooks(w, w, started, s);
        WaitingLocal(w, started, id, Starting(w, s, now), Creating);
      } else if w.st.sessions[s].state == BroadcastingRelease && HasHash(RecordOf(w, s)) {
        WaitingLocal(w, w, id, Starting(w, s, now), Resuming(w.records[s], w.records[s].rpcTxHash.value));
      }
    }
  }

  /// Every step sends sessions only forward.
  lemma StepForward(w: World, step: Step)
    requires Sound(w) && Enabled(w, step)
    ensures FactoryRuns.Forward(w.st, After(w, step).st)
  {
    hide Sound, FactoryRuns.Safe, FactoryRuns.Forward, FactoryRuns.After, FactoryRuns.Enabled, Begin, Resume;
    SafeOfSound(w);
    match step
    case Elsewhere(e) => FactoryRuns.StepForward(w.st, e);
    case Execute(id, s, now, ready) =>
      BeginLocal(w, id, s, now, ready);
      FactoryRuns.SameForward(w.st, w.st);
      LocalForward(w, Begin(w, id, s, now, ready), id, s);
    case Continue(id, answer) =>
      ResumeLocal(w, id, answer);
      LocalForward(w, Resume(w, id, answer), id, w.execs[id].session);
  }

  lemma LocalForward(w: World, v: World, id: nat, s: string)
    ensures Local(w, v, id, s) ==> FactoryRuns.Forward(w.st, v.st)
  {
    hide FactoryRuns.Forward;
  }

  lemma SafeOfSound(w: World)
    requires Sound(w)
    ensures FactoryRuns.Safe(w.st)
  {
  }

  // ---------------------------------------------------------------- runs from steps

  ghost predicate Goes(w: World, step: Step, v: World) {
    Enabled(w, step) && After(w, step) == v
  }

  ghost predicate Reaches(w: World, v: World) {
    exists steps :: CanRun(w, steps) && Run(w, steps) == v
  }

  lemma ReachesSelf(w: World)
    ensures Reaches(w, w)
  {
    assert CanRun(w, []) && Run(w, []) == w;
  }

  lemma ReachesFirst(w: World, step: Step, u: World, v: World)
    requires Goes(w, step, u) && Reaches(u, v)
    ensures Reaches(w, v)
  {
    hide Enabled, After;
    var steps :| CanRun(u, steps) && Run(u, steps) == v;
    assert ([step] + steps)[1..] == steps;
    assert CanRun(w, [step] + steps) && Run(w, [step] + steps) == v;
  }

  lemma ReachesOne(w: World, step: Step, v: World)
    requires Goes(w, step, v)
    ensures Reaches(w, v)
  {
    hide Goes, Reaches;
    ReachesSelf(v);
    ReachesFirst(w, step, v, v);
  }

  lemma {:induction false} RunThenReaches(w: World, steps: seq<Step>, v: World)
    requires CanRun(w, steps) && Reaches(Run(w, steps), v)
    ensures Reaches(w, v)
    decreases |steps|
  {
    hide Enabled, After, Reaches;
    if steps != [] {
      RunThenReaches(After(w, steps[0]), steps[1..], v);
      FirstGoes(w, steps);
      ReachesFirst(w, steps[0], After(w, steps[0]), v);
    }
  }

  lemma FirstGoes(w: World, steps: seq<Step>)
    requires CanRun(w, steps) && steps != []
    ensures Goes(w, steps[0], After(w, steps[0]))
  {
    hide Enabled, After;
  }

  lemma ReachesThen(u: World, v: World, w: World)
    requires Reaches(u, v) && Reaches(v, w)
    ensures Reaches(u, w)
  {
    hide CanRun, Run;
    var steps :| CanRun(u, steps) && Run(u, steps) == v;
    RunThenReaches(u, steps, w);
  }
}
