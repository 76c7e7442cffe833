/// Release safety over every run: whatever the interleaving of executions, retries, expiries and
/// polls, a recorded release hash is final, and a completed session was released by a confirmed
/// transaction and registered with verified controllers.
module ReleaseSafety {
  import Bystanders
  import opened Factory
  import FactoryRuns
  import opened Options
  import opened RefundDraft
  import Refund
  import opened Release
  import opened ReleaseRuns
  import opened ReleasePhases
  import opened ReleaseSteps

  // ---------------------------------------------------------------- continuing

  /// The phases in which the transaction is this execution's own.
  lemma SenderKeeps(w: World, id: nat, answer: Answer)
    requires Sound(w) && id in w.execs && !answer.Aborted? && TakenOver(w.execs[id]) && Capable(w.execs[id])
    ensures Sound(Resume(w, id, answer)) && Keeps(w, Resume(w, id, answer))
  {
    hide FactoryRuns.Safe, ExecOk, Sound, Keeps, Guarded, Gone, FailSpawn, BroadcastError, AfterOwnReceipt;
    var e := w.execs[id];
    OwnOk(w, id);
    OwnerOf(w, e);
    GoneKeeps(w, id);
    match e.phase
    case AtReserve =>
      FailedKeeps(w, id, e);
      if answer.Planned? {
        PreparingKeeps(w, id, AtKey(answer.plan.(rpcTxHash := None)));
      }
    case AtKey(plan) =>
      SenderErrorKeeps(w, id, plan, false);
      PreparingKeeps(w, id, AtSign(plan));
    case AtSign(plan) =>
      SenderErrorKeeps(w, id, plan, false);
      if answer.Signature? {
        var signed := plan.(signature := Some(answer.signature), rawHash := Some(answer.rawHash), rawHex := Some(answer.rawHex));
        SendingKeeps(w, id, signed, answer.rawHash);
      }
    case AtSend(record) =>
      SenderErrorKeeps(w, id, record, false);
      if answer.Hash? {
        PreparingKeeps(w, id, AtConfirm(record.(rpcTxHash := Some(answer.text), broadcastAt := Some(e.now)), answer.text));
      }
    case AtConfirm(record, hash) =>
      OwnReceiptKeeps(w, id, record, hash, if answer.Receipts? then answer.answer else Refund.Failed);
  }

  /// The phases before a transaction is chosen.
  lemma StarterKeeps(w: World, id: nat, answer: Answer)
    requires Sound(w) && id in w.execs && !answer.Aborted? && (w.execs[id].phase.Creating? || w.execs[id].phase.Preparing?)
    requires answer.Installed? && answer.canister in w.owner ==> w.owner[answer.canister] == w.execs[id].session
    ensures Sound(Resume(w, id, answer)) && Keeps(w, Resume(w, id, answer))
  {
    hide FactoryRuns.Safe, ExecOk, Sound, Keeps, FailSpawn, AfterInstall, AfterHandoff;
    var e := w.execs[id];
    OwnOk(w, id);
    FailedKeeps(w, id, e);
    if e.phase.Creating? && answer.Installed? {
      InstallKeeps(w, id, answer.canister);
    } else if e.phase.Preparing? && answer.HandedOver? {
      HandoffKeeps(w, id, answer.controllers);
    }
  }

  /// The phases that work on a transaction already on record.
  lemma FollowerKeeps(w: World, id: nat, answer: Answer)
    requires Sound(w) && id in w.execs && !answer.Aborted?
    requires w.execs[id].phase.AtExisting? || w.execs[id].phase.Resuming? || w.execs[id].phase.AtHandoff?
    ensures Sound(Resume(w, id, answer)) && Keeps(w, Resume(w, id, answer))
  {
    hide FactoryRuns.Safe, ExecOk, Sound, Keeps, Guarded, Gone, AfterRecordedReceipt, Finalize;
    var e := w.execs[id];
    OwnOk(w, id);
    OwnerOf(w, e);
    GoneKeeps(w, id);
    match e.phase
    case AtExisting(record, hash) =>
      RecordedReceiptKeeps(w, id, record, hash, if answer.Receipts? then answer.answer else Refund.Failed, false);
    case Resuming(record, hash) =>
      RecordedReceiptKeeps(w, id, record, hash, if answer.Receipts? then answer.answer else Refund.Failed, true);
    case AtHandoff(record, hash) =>
      if answer.HandedOver? {
        ResumedFinalKeeps(w, id, record, hash, answer.controllers);
      }
  }

  lemma AbortedKeeps(w: World, id: nat)
    requires Sound(w) && id in w.execs
    ensures Sound(Resume(w, id, Aborted)) && Keeps(w, Resume(w, id, Aborted))
  {
    hide Sound, Keeps, Gone;
    GoneKeeps(w, id);
  }

  lemma ResumeKeeps(w: World, id: nat, answer: Answer)
    requires Sound(w) && Enabled(w, Continue(id, answer))
    ensures Sound(Resume(w, id, answer)) && Keeps(w, Resume(w, id, answer))
  {
    hide Sound, Keeps, Resume;
    var e := w.execs[id];
    if answer.Aborted? {
      AbortedKeeps(w, id);
    } else if e.phase.Creating? || e.phase.Preparing? {
      StarterKeeps(w, id, answer);
    } else if e.phase.AtExisting? || e.phase.Resuming? || e.phase.AtHandoff? {
      FollowerKeeps(w, id, answer);
    } else {
      SenderKeeps(w, id, answer);
    }
  }

  // ---------------------------------------------------------------- beginning

  /// A session waiting to be spawned, and one with a hash, have no execution that may send.
  lemma NobodySends(w: World, id: nat, s: string)
    requires Sound(w) && s in w.st.sessions && (!InSpawning(w, s) || HashOf(w, s).Some?)
    ensures Free(w, id, s)
  {
    hide FactoryRuns.Safe;
    forall j | j in w.execs && j != id && w.execs[j].session == s ensures !Capable(w.execs[j]) {
      assert ExecOk(w, w.execs[j]);
    }
  }

  function Starting(w: World, s: string, now: nat): Exec
    requires s in w.st.sessions
  {
    Exec(s, RecordOf(w, s), Creating, now, w.st.depth, w.st.sessions[s].automaton.GetOr(""), [])
  }

  lemma StartSteps(st: State, s: string, now: nat)
    requires FactoryRuns.Safe(st) && s in st.sessions && st.sessions[s].state == PaymentDetected
    ensures var after := ApplyEvent(st, s, System, now, SpawnStarted, "spawn execution started").state;
      OnlySession(st, after, s) && s in after.sessions && after.sessions[s].automaton == st.sessions[s].automaton
      && after.sessions[s].state == Spawning
  {
    hide FactoryRuns.Safe, ApplyEvent, Target, OnlySession;
    EventOne(st, s, now, SpawnStarted, "spawn execution started");
    SpawnTargets(st.sessions[s], now);
    OnlyKnows(st, ApplyEvent(st, s, System, now, SpawnStarted, "spawn execution started").state, s);
  }

  /// The session starts to be spawned, by execution `e`.
  predicate Starts(w: World, v: World, id: nat, e: Exec) {
    v == w.(st := v.st, execs := w.execs[id := e])
    && e.session in w.st.sessions && e.session in v.st.sessions
    && v.st.sessions[e.session].automaton == w.st.sessions[e.session].automaton && v.st.sessions[e.session].state == Spawning
    && w.st.sessions[e.session].state != Complete
    && e.phase.Creating? && e.snapshot == RecordOf(w, e.session)
  }

  lemma StartsWithin(w: World, v: World, id: nat, e: Exec)
    requires Starts(w, v, id, e) && OnlySession(w.st, v.st, e.session)
    ensures Within(w, v, e.session)
  {
    hide FactoryRuns.Safe;
    forall o | o != e.session ensures SameSession(w, v, o) {
      assert SameOf(w.st, v.st, o);
    }
  }

  lemma StartsBooks(w: World, v: World, id: nat, e: Exec)
    requires Starts(w, v, id, e) && TxOk(w, e.session) && SessionOk(w, e.session) && forall c :: EntryOk(w, c)
    ensures TxOk(v, e.session) && SessionOk(v, e.session) && forall c :: EntryOk(v, c)
  {
    forall c ensures EntryOk(v, c) {
      assert EntryOk(w, c);
    }
  }

  lemma StartsMoves(w: World, v: World, id: nat, e: Exec)
    requires Starts(w, v, id, e) && Free(w, id, e.session)
    ensures OneMoves(w, v, id, e.session)
  {
  }

  lemma StartsKeeps(w: World, v: World, id: nat, e: Exec)
    requires Sound(w) && Free(w, id, e.session) && Starts(w, v, id, e) && OnlySession(w.st, v.st, e.session)
    ensures Sound(v) && Keeps(w, v)
  {
    hide FactoryRuns.Safe, ExecOk, SessionOk, Keeps, TxOk, EntryOk, OnlySession, Within, OneMoves;
    PartsOf(w, id, e.session);
    OnlyKnows(w.st, v.st, e.session);
    StartsWithin(w, v, id, e);
    StartsBooks(w, v, id, e);
    StartsMoves(w, v, id, e);
    StepOfOne(w, v, id, e.session);
  }

  lemma StartKeeps(w: World, id: nat, s: string, now: nat)
    requires Sound(w) && s in w.st.sessions && w.st.sessions[s].state == PaymentDetected
    ensures var v := w.(st := ApplyEvent(w.st, s, System, now, SpawnStarted, "spawn execution started").state,
                        execs := w.execs[id := Starting(w, s, now)]);
      Sound(v) && Keeps(w, v)
  {
    hide FactoryRuns.Safe, ExecsOk, BooksOk, Keeps, ApplyEvent, OnlySession;
    NobodySends(w, id, s);
    StartSteps(w.st, s, now);
    var v := w.(st := ApplyEvent(w.st, s, System, now, SpawnStarted, "spawn execution started").state,
                execs := w.execs[id := Starting(w, s, now)]);
    StartsKeeps(w, v, id, Starting(w, s, now));
  }

  lemma UnreadyKeeps(w: World, id: nat, s: string, now: nat)
    requires Sound(w) && s in w.st.sessions && w.st.sessions[s].state == PaymentDetected
    ensures Sound(FailSpawn(w, id, Starting(w, s, now))) && Keeps(w, FailSpawn(w, id, Starting(w, s, now)))
  {
    hide Sound, Keeps, FailSpawn;
    NobodySends(w, id, s);
    FailedKeeps(w, id, Starting(w, s, now));
  }

  lemma ResumingOk(w: World, v: World, id: nat, s: string, now: nat)
    requires SessionOk(w, s) && s in w.st.sessions && w.st.sessions[s].state == BroadcastingRelease && HasHash(RecordOf(w, s))
    requires v == w.(execs := v.execs)
    ensures ExecOk(v, Starting(w, s, now).(phase := Resuming(w.records[s], w.records[s].rpcTxHash.value)))
  {
  }

  lemma ResumingKeeps(w: World, id: nat, s: string, now: nat)
    requires Sound(w) && s in w.st.sessions && w.st.sessions[s].state == BroadcastingRelease && HasHash(RecordOf(w, s))
    ensures var e := Starting(w, s, now).(phase := Resuming(w.records[s], w.records[s].rpcTxHash.value));
      Sound(w.(execs := w.execs[id := e])) && Keeps(w, w.(execs := w.execs[id := e]))
  {
    hide FactoryRuns.Safe, Sound, Keeps, ExecOk, SessionOk, TxOk, EntryOk;
    NobodySends(w, id, s);
    PartsOf(w, id, s);
    var e := Starting(w, s, now).(phase := Resuming(w.records[s], w.records[s].rpcTxHash.value));
    ResumingOk(w, w.(execs := w.execs[id := e]), id, s, now);
    WaitKeeps(w, w.(execs := w.execs[id := e]), id, e);
  }

  lemma NothingKeeps(w: World)
    requires Sound(w)
    ensures Keeps(w, w)
  {
  }

  lemma BeginKeeps(w: World, id: nat, s: string, now: nat, ready: bool)
    requires Sound(w)
    ensures Sound(Begin(w, id, s, now, ready)) && Keeps(w, Begin(w, id, s, now, ready))
  {
    hide Sound, Keeps, FailSpawn, ApplyEvent;
    NothingKeeps(w);
    if s in w.st.sessions && w.st.sessions[s].payment == Paid {
      if w.st.sessions[s].state == PaymentDetected {
        UnreadyKeeps(w, id, s, now);
        StartKeeps(w, id, s, now);
      } else if w.st.sessions[s].state == BroadcastingRelease && HasHash(RecordOf(w, s)) {
        ResumingKeeps(w, id, s, now);
      }
    }
  }

  // ---------------------------------------------------------------- the factory's other steps

  ghost predicate AllAside(w: World, v: World) {
    v == w.(st := v.st) && forall o :: Bystanders.AsideAt(w.st, v.st, o, true)
  }

  lemma AsideExec(w: World, v: World, e: Exec)
    requires AllAside(w, v) && ExecOk(w, e)
    ensures ExecOk(v, e)
  {
    assert Bystanders.AsideAt(w.st, v.st, e.session, true);
  }

  lemma AsideSession(w: World, v: World, s: string)
    requires AllAside(w, v) && SessionOk(w, s)
    ensures SessionOk(v, s)
  {
    assert Bystanders.AsideAt(w.st, v.st, s, true);
    if s in w.st.sessions && w.st.sessions[s].state == Complete {
      var c :| RegisteredFor(w, c, s);
      assert RegisteredFor(v, c, s);
    }
  }

  lemma AsideSound(w: World, v: World)
    requires Sound(w) && AllAside(w, v) && FactoryRuns.Safe(v.st)
    ensures Sound(v) && Keeps(w, v)
  {
    hide FactoryRuns.Safe, ExecOk, SessionOk, AllAside;
    forall j | j in v.execs ensures ExecOk(v, v.execs[j]) {
      assert v.execs == w.execs by { AsideIs(w, v); }
      assert ExecOk(w, w.execs[j]);
      AsideExec(w, v, w.execs[j]);
    }
    AsideIs(w, v);
    forall o ensures TxOk(v, o) && SessionOk(v, o) && EntryOk(v, o) {
      assert TxOk(w, o) && SessionOk(w, o) && EntryOk(w, o);
      AsideSession(w, v, o);
    }
  }

  lemma AsideIs(w: World, v: World)
    requires AllAside(w, v)
    ensures v == w.(st := v.st)
  {
  }

  lemma ElsewhereKeeps(w: World, step: FactoryRuns.Step)
    requires Sound(w) && Enabled(w, Elsewhere(step))
    ensures var v := w.(st := FactoryRuns.After(w.st, step)); Sound(v) && Keeps(w, v)
  {
    hide FactoryRuns.Safe, ExecsOk, BooksOk, Keeps, FactoryRuns.After, Bystanders.AsideAt, FactoryRuns.Enabled;
    FactoryRuns.StepKeepsSafe(w.st, step);
    forall o ensures Bystanders.AsideAt(w.st, FactoryRuns.After(w.st, step), o, true) {
      Bystanders.StepAside(w.st, step, o);
      Bystanders.AsideWeaker(w.st, FactoryRuns.After(w.st, step), o, step.RetrySession? && step.id == o);
    }
    AsideSound(w, w.(st := FactoryRuns.After(w.st, step)));
  }

  // ---------------------------------------------------------------- runs

  lemma StepKeeps(w: World, step: Step)
    requires Sound(w) && Enabled(w, step)
    ensures Sound(After(w, step)) && Keeps(w, After(w, step))
  {
    hide Sound, Keeps, FactoryRuns.After, FactoryRuns.Enabled, Begin, Resume;
    match step
    case Elsewhere(s) => ElsewhereKeeps(w, s);
    case Execute(id, s, now, ready) => BeginKeeps(w, id, s, now, ready);
    case Continue(id, answer) => ResumeKeeps(w, id, answer);
  }

  ghost predicate CanRun(w: World, steps: seq<Step>)
    decreases |steps|
  {
    steps == [] || (Enabled(w, steps[0]) && CanRun(After(w, steps[0]), steps[1..]))
  }

  ghost function Run(w: World, steps: seq<Step>): World
    requires CanRun(w, steps)
    decreases |steps|
  {
    if steps == [] then w else Run(After(w, steps[0]), steps[1..])
  }

  lemma {:induction false} EveryRunKeeps(w: World, steps: seq<Step>)
    requires Sound(w) && CanRun(w, steps)
    ensures Sound(Run(w, steps)) && Keeps(w, Run(w, steps))
    decreases |steps|
  {
    hide Sound, Keeps, Enabled, After;
    if steps == [] {
      NothingKeeps(w);
    } else {
      StepKeeps(w, steps[0]);
      EveryRunKeeps(After(w, steps[0]), steps[1..]);
      KeepsTwice(w, After(w, steps[0]), Run(w, steps));
    }
  }

  /// The world before the first session.
  function Start(ttl: nat, depth: nat): World {
    World(FactoryRuns.Initial(ttl, depth), map[], map[], map[], map[], [], {}, {}, map[])
  }

  lemma StartIsSound(ttl: nat, depth: nat)
    ensures Sound(Start(ttl, depth))
  {
    hide FactoryRuns.Safe;
    FactoryRuns.InitialIsSafe(ttl, depth);
  }

  /// Main result. In every run, the release hash of a session, once recorded, is recorded for ever,
  /// and no transaction is sent for that session again, however many executions are in flight.
  lemma ReleasedOnce(ttl: nat, depth: nat, before: seq<Step>, after: seq<Step>, s: string)
    requires CanRun(Start(ttl, depth), before) && CanRun(Run(Start(ttl, depth), before), after)
    requires HashOf(Run(Start(ttl, depth), before), s).Some?
    ensures var w := Run(Start(ttl, depth), before);
      var v := Run(w, after);
      HashOf(v, s) == HashOf(w, s) && Sent(v.sent, s) == Sent(w.sent, s)
  {
    hide Sound, CanRun, Run;
    StartIsSound(ttl, depth);
    EveryRunKeeps(Start(ttl, depth), before);
    EveryRunKeeps(Run(Start(ttl, depth), before), after);
  }

  /// Main result. In every run, a completed session carries the hash on record, that transaction was
  /// confirmed, and a canister made for the session is registered with controllers that were verified.
  lemma CompleteIsReleased(ttl: nat, depth: nat, steps: seq<Step>, s: string)
    requires CanRun(Start(ttl, depth), steps)
    ensures var w := Run(Start(ttl, depth), steps);
      s in w.st.sessions && w.st.sessions[s].state == Complete ==>
        s in w.txHash && HashOf(w, s) == Some(w.txHash[s]) && (s, w.txHash[s]) in w.confirmed
        && exists c :: RegisteredFor(w, c, s) && c in w.owner && w.owner[c] == s && (c, w.registry[c].controllers) in w.handoffs
  {
    hide Sound, CanRun, Run;
    StartIsSound(ttl, depth);
    EveryRunKeeps(Start(ttl, depth), steps);
    SoundComplete(Run(Start(ttl, depth), steps), s);
  }

  lemma SoundComplete(w: World, s: string)
    requires Sound(w)
    ensures s in w.st.sessions && w.st.sessions[s].state == Complete ==>
              (s in w.txHash && HashOf(w, s) == Some(w.txHash[s]) && (s, w.txHash[s]) in w.confirmed
               && exists c :: RegisteredFor(w, c, s) && c in w.owner && w.owner[c] == s && (c, w.registry[c].controllers) in w.handoffs)
  {
    hide FactoryRuns.Safe;
    assert TxOk(w, s) && SessionOk(w, s);
    if s in w.st.sessions && w.st.sessions[s].state == Complete {
      var c :| RegisteredFor(w, c, s);
      assert EntryOk(w, c);
    }
  }
}
