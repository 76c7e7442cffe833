/// What spawning keeps over every interleaving of executions, twins included: a recorded release is
/// final, and completion means a confirmed one.
module ReleaseRuns {
  import opened Factory
  import FactoryRuns
  import Invariants
  import opened Options
  import Polling
  import opened Release
  import Scheduler

  // ---------------------------------------------------------------- one execution

  /// An execution that may still send a transaction.
  predicate Capable(e: Exec) {
    match e.phase
    case Creating => !HasHash(e.snapshot)
    case Preparing => !HasHash(e.snapshot)
    case AtReserve => true
    case AtKey(_) => true
    case AtSign(_) => true
    case AtSend(_) => true
    case AtConfirm(_, _) => true
    case _ => false
  }

  function HashOf(w: World, s: string): Option<string> {
    if s in w.records then w.records[s].rpcTxHash else None
  }

  /// The hash an execution works on, if it found one on record.
  function KnownHash(e: Exec): Option<string> {
    match e.phase
    case AtExisting(_, hash) => Some(hash)
    case Resuming(_, hash) => Some(hash)
    case AtHandoff(_, hash) => Some(hash)
    case Creating => if e.snapshot.Some? then e.snapshot.value.rpcTxHash else None
    case Preparing => if e.snapshot.Some? then e.snapshot.value.rpcTxHash else None
    case _ => None
  }

  predicate PlanOk(e: Exec) {
    match e.phase
    case AtKey(plan) => plan.rpcTxHash.None?
    case AtSign(plan) => plan.rpcTxHash.None?
    case AtSend(plan) => plan.rpcTxHash.None?
    case AtConfirm(plan, hash) => plan.rpcTxHash == Some(hash)
    case AtExisting(plan, hash) => plan.rpcTxHash == Some(hash)
    case Resuming(plan, hash) => plan.rpcTxHash == Some(hash)
    case AtHandoff(plan, hash) => plan.rpcTxHash == Some(hash) && plan.receiptStatus == Some(true)
    case _ => true
  }

  predicate InSpawning(w: World, s: string) {
    s in w.st.sessions && w.st.sessions[s].state in {Spawning, BroadcastingRelease, Expired}
  }

  /// The controllers of the canister have been verified in this execution.
  predicate TakenOver(e: Exec) {
    !e.phase.Creating? && !e.phase.Preparing? && !e.phase.Resuming? && !e.phase.AtHandoff?
  }

  /// An execution that may still send works for a session being spawned whose record has no hash;
  /// any other works on the hash that is on record.
  predicate ExecOk(w: World, e: Exec) {
    e.session in w.st.sessions && PlanOk(e)
    && (Capable(e) ==> HashOf(w, e.session).None? && InSpawning(w, e.session))
    && (!Capable(e) ==> KnownHash(e).Some? && HashOf(w, e.session) == KnownHash(e))
    && (e.phase.AtHandoff? ==> (e.session, e.phase.hash) in w.confirmed)
    && (!e.phase.Creating? ==> e.canister in w.owner && w.owner[e.canister] == e.session)
    && (TakenOver(e) ==> (e.canister, e.controllers) in w.handoffs)
  }

  // ---------------------------------------------------------------- one session

  /// A released session: its hash is the recorded one, and was confirmed.
  predicate TxOk(w: World, s: string) {
    s in w.txHash ==> HashOf(w, s) == Some(w.txHash[s]) && (s, w.txHash[s]) in w.confirmed
  }

  predicate RegisteredFor(w: World, c: string, s: string) {
    c in w.registry && w.registry[c].session == s
  }

  predicate EntryOk(w: World, c: string) {
    c in w.registry ==> c in w.owner && w.registry[c].session == w.owner[c] && (c, w.registry[c].controllers) in w.handoffs
  }

  ghost predicate SessionOk(w: World, s: string) {
    s in w.st.sessions ==>
      (w.st.sessions[s].automaton.Some? ==>
         w.st.sessions[s].automaton.value in w.owner && w.owner[w.st.sessions[s].automaton.value] == s)
      && (w.st.sessions[s].state == BroadcastingRelease ==> w.st.sessions[s].automaton.Some?)
      && (w.st.sessions[s].state == Complete ==> s in w.txHash && exists c :: RegisteredFor(w, c, s))
  }

  // ---------------------------------------------------------------- the world

  ghost predicate ExecsOk(w: World) {
    (forall id :: id in w.execs ==> ExecOk(w, w.execs[id]))
    && (forall i, j :: i in w.execs && j in w.execs && i != j && Capable(w.execs[i]) && Capable(w.execs[j])
          ==> w.execs[i].session != w.execs[j].session)
  }

  ghost predicate BooksOk(w: World) {
    (forall s :: TxOk(w, s)) && (forall c :: EntryOk(w, c)) && (forall s :: SessionOk(w, s))
  }

  ghost predicate Sound(w: World) {
    FactoryRuns.Safe(w.st) && ExecsOk(w) && BooksOk(w)
  }

  function Sent(log: seq<(string, string)>, s: string): seq<string> {
    if log == [] then []
    else Sent(log[..|log| - 1], s) + if log[|log| - 1].0 == s then [log[|log| - 1].1] else []
  }

  /// A recorded hash is final, and nothing is sent for the session any more.
  ghost predicate Keeps(w: World, v: World) {
    (forall s :: HashOf(w, s).Some? ==> HashOf(v, s) == HashOf(w, s) && Sent(v.sent, s) == Sent(w.sent, s))
    && w.confirmed <= v.confirmed
  }

  lemma KeepsTwice(u: World, v: World, w: World)
    requires Keeps(u, v) && Keeps(v, w)
    ensures Keeps(u, w)
  {
  }

  /// An execution that may still send is the only one of its session.
  lemma CapableIsAlone(w: World, i: nat, j: nat)
    requires ExecsOk(w) && i in w.execs && j in w.execs && i != j && Capable(w.execs[i])
    ensures w.execs[j].session != w.execs[i].session
  {
    assert ExecOk(w, w.execs[i]) && ExecOk(w, w.execs[j]);
  }

  // ---------------------------------------------------------------- steps of one session

  predicate SameSession(w: World, v: World, o: string) {
    (o in w.st.sessions <==> o in v.st.sessions) && (o in w.st.sessions ==> v.st.sessions[o] == w.st.sessions[o])
    && RecordOf(v, o) == RecordOf(w, o) && (o in w.txHash <==> o in v.txHash) && (o in w.txHash ==> v.txHash[o] == w.txHash[o])
  }

  /// Only session `s` changes; the memory of the world only grows.
  ghost predicate Within(w: World, v: World, s: string) {
    (forall o :: o != s ==> SameSession(w, v, o))
    && s in w.st.sessions && s in v.st.sessions
    && (HashOf(w, s).Some? ==> HashOf(v, s) == HashOf(w, s))
    && (s in w.txHash ==> s in v.txHash)
    && (forall c :: c in w.owner ==> c in v.owner && v.owner[c] == w.owner[c])
    && w.confirmed <= v.confirmed && w.handoffs <= v.handoffs
    && (forall c :: c in w.registry ==> c in v.registry && v.registry[c].session == w.registry[c].session)
  }

  /// Another execution's claims survive a step it has no part in.
  lemma OtherExecOk(w: World, v: World, s: string, e: Exec)
    requires Within(w, v, s) && ExecOk(w, e) && (e.session == s ==> !Capable(e))
    ensures ExecOk(v, e)
  {
    if e.session != s {
      assert SameSession(w, v, e.session);
    }
  }

  /// The execution `id` leaves or goes on; the others stay.
  ghost predicate OneMoves(w: World, v: World, id: nat, s: string) {
    (forall j :: j in v.execs && j != id ==> j in w.execs && v.execs[j] == w.execs[j])
    && (forall j :: j in w.execs && j != id && w.execs[j].session == s ==> !Capable(w.execs[j]))
    && (id in v.execs ==> v.execs[id].session == s && ExecOk(v, v.execs[id]))
  }

  lemma ExecsStayOk(w: World, v: World, id: nat, s: string)
    requires ExecsOk(w) && Within(w, v, s) && OneMoves(w, v, id, s)
    ensures ExecsOk(v)
  {
    hide ExecOk, Within;
    forall j | j in v.execs ensures ExecOk(v, v.execs[j]) {
      if j != id {
        assert ExecOk(w, w.execs[j]);
        OtherExecOk(w, v, s, w.execs[j]);
      }
    }
  }

  lemma BooksStayOk(w: World, v: World, s: string)
    requires BooksOk(w) && Within(w, v, s) && TxOk(v, s) && SessionOk(v, s) && forall c :: EntryOk(v, c)
    ensures BooksOk(v)
  {
    forall o ensures TxOk(v, o) {
      if o != s {
        assert SameSession(w, v, o) && TxOk(w, o);
      }
    }
    forall o ensures SessionOk(v, o) {
      if o != s {
        OtherSessionOk(w, v, s, o);
      }
    }
  }

  lemma OtherSessionOk(w: World, v: World, s: string, o: string)
    requires SessionOk(w, o) && Within(w, v, s) && o != s
    ensures SessionOk(v, o)
  {
    assert SameSession(w, v, o);
    if o in w.st.sessions && w.st.sessions[o].state == Complete {
      var c :| RegisteredFor(w, c, o);
      assert RegisteredFor(v, c, o);
    }
  }

  /// A step of one session by one execution, checked part by part.
  lemma StepOfOne(w: World, v: World, id: nat, s: string)
    requires Sound(w) && FactoryRuns.Safe(v.st) && Within(w, v, s) && OneMoves(w, v, id, s)
    requires TxOk(v, s) && SessionOk(v, s) && forall c :: EntryOk(v, c)
    requires v.sent == w.sent || (HashOf(w, s).None? && exists h :: v.sent == w.sent + [(s, h)])
    ensures Sound(v) && Keeps(w, v)
  {
    hide ExecsOk, BooksOk, FactoryRuns.Safe, ExecOk, SessionOk, TxOk, EntryOk;
    ExecsStayOk(w, v, id, s);
    BooksStayOk(w, v, s);
    forall o | HashOf(w, o).Some? ensures HashOf(v, o) == HashOf(w, o) && Sent(v.sent, o) == Sent(w.sent, o) {
      if o != s {
        assert SameSession(w, v, o);
      }
      SentOther(w.sent, v.sent, s, o);
    }
  }

  lemma SentOther(log: seq<(string, string)>, longer: seq<(string, string)>, s: string, o: string)
    requires longer == log || (o != s && exists h :: longer == log + [(s, h)])
    ensures Sent(longer, o) == Sent(log, o)
  {
    if longer != log {
      assert longer[..|longer| - 1] == log;
    }
  }

  // ---------------------------------------------------------------- the factory's part of a step

  predicate SameOf(st: State, after: State, o: string) {
    (o in st.sessions <==> o in after.sessions) && (o in st.sessions ==> after.sessions[o] == st.sessions[o])
  }

  /// A step of session `s` changes no other session.
  ghost predicate OnlySession(st: State, after: State, s: string) {
    FactoryRuns.Safe(after) && s in st.sessions && s in after.sessions && forall o :: o != s ==> SameOf(st, after, o)
  }

  function Target(s: Session, now: nat, event: Event): SessionState {
    var move := Invariants.MoveOf(s, now, event);
    if move.Some? && move.value.Move? then move.value.target else s.state
  }

  lemma TouchedIsOnly(st: State, after: State, s: string)
    requires FactoryRuns.Safe(after) && Invariants.OnlyTouches(st, after, s) && s in st.sessions && s in after.sessions
    ensures OnlySession(st, after, s)
  {
    hide FactoryRuns.Safe;
    forall o | o != s ensures SameOf(st, after, o) {
      assert Invariants.Untouched(st, after, o);
    }
  }

  lemma RecordsOf(st: State, s: string)
    requires FactoryRuns.Safe(st) && s in st.sessions
    ensures Invariants.RecordsOk(st, s) && Invariants.Known(st, s) && st.audit[s] != []
  {
    assert Invariants.SessionOk(st, s);
    Invariants.StoredTrail(st, s);
  }

  lemma EventTarget(st: State, s: string, now: nat, event: Event, reason: string)
    requires Invariants.Known(st, s) && st.audit[s] != []
    ensures var outcome := ApplyEvent(st, s, System, now, event, reason);
      s in outcome.state.sessions && outcome.state.sessions[s].automaton == st.sessions[s].automaton
      && outcome.state.sessions[s].state == Target(st.sessions[s], now, event)
  {
    hide ApplyEvent, LastEntries, EdgeOf;
    Invariants.MoveShape(st.sessions[s], now, event);
    Invariants.MoveEffect(st, s, System, now, event, reason);
  }

  lemma RefusedChangesNothing(st: State, s: string, now: nat, event: Event, reason: string)
    ensures var outcome := ApplyEvent(st, s, System, now, event, reason); outcome.error.Some? ==> outcome.state == st
  {
    hide EdgeOf, ApplyMove;
  }

  lemma EventOne(st: State, s: string, now: nat, event: Event, reason: string)
    requires FactoryRuns.Safe(st) && s in st.sessions
    ensures var outcome := ApplyEvent(st, s, System, now, event, reason);
      OnlySession(st, outcome.state, s) && outcome.state.sessions[s].automaton == st.sessions[s].automaton
      && outcome.state.sessions[s].state == Target(st.sessions[s], now, event)
      && (outcome.error.Some? ==> outcome.state == st)
  {
    hide ApplyEvent, FactoryRuns.Safe, Invariants.RecordsOk, Invariants.OnlyTouches, Target, OnlySession;
    RecordsOf(st, s);
    FactoryRuns.EventKeepsSafe(st, s, System, now, event, reason);
    Invariants.EventKeepsRecords(st, s, System, now, event, reason);
    EventTarget(st, s, now, event, reason);
    RefusedChangesNothing(st, s, now, event, reason);
    TouchedIsOnly(st, ApplyEvent(st, s, System, now, event, reason).state, s);
    OnlyKnows(st, ApplyEvent(st, s, System, now, event, reason).state, s);
  }

  lemma OnlyKnows(st: State, after: State, s: string)
    requires OnlySession(st, after, s)
    ensures s in st.sessions && s in after.sessions && FactoryRuns.Safe(after)
  {
  }

  lemma SameSessionsOnly(st: State, mid: State, after: State, s: string)
    requires OnlySession(st, mid, s) && mid.sessions == after.sessions && FactoryRuns.Safe(after)
    ensures OnlySession(st, after, s)
  {
    hide FactoryRuns.Safe;
    forall o | o != s ensures SameOf(st, after, o) {
      assert SameOf(st, mid, o);
    }
  }

  lemma FailOne(st: State, s: string, now: nat)
    requires FactoryRuns.Safe(st) && s in st.sessions
    ensures var after := FactoryRuns.Fail(st, s, System, now, "spawn failed").state;
      OnlySession(st, after, s) && after.sessions[s].automaton == st.sessions[s].automaton
      && after.sessions[s].state == Target(st.sessions[s], now, SpawnFailed)
  {
    hide ApplyEvent, FactoryRuns.Safe, Target, OnlySession, Scheduler.EnqueueSpawn;
    EventOne(st, s, now, SpawnFailed, "spawn failed");
    var failed := ApplyEvent(st, s, System, now, SpawnFailed, "spawn failed").state;
    OnlyKnows(st, failed, s);
    FactoryRuns.EnqueueKeepsSafe(failed, s, now);
    Polling.EnqueueSame(failed, s, now);
    SameSessionsOnly(st, failed, Scheduler.EnqueueSpawn(failed, s, now), s);
  }

  lemma AttachOne(st: State, s: string, canister: string)
    requires FactoryRuns.Safe(st) && s in st.sessions
    ensures var after := FactoryRuns.Attach(st, s, canister);
      OnlySession(st, after, s) && after.sessions[s].automaton == Some(canister) && after.sessions[s].state == st.sessions[s].state
  {
    hide FactoryRuns.Safe;
    FactoryRuns.AttachKeepsSafe(st, s, canister);
  }

  lemma SpawnTargets(s: Session, now: nat)
    ensures Target(s, now, SpawnFailed) == if s.state in {PaymentDetected, Spawning, BroadcastingRelease} then SessionState.Failed else s.state
    ensures Target(s, now, SpawnStarted) == if s.state == PaymentDetected then Spawning else s.state
    ensures Target(s, now, InstallSucceeded) == if s.state == Spawning then BroadcastingRelease else s.state
    ensures Target(s, now, ReleaseBroadcast) == if s.state == BroadcastingRelease then Complete else s.state
  {
  }

  // ---------------------------------------------------------------- leaving and waiting

  lemma PartsOf(w: World, id: nat, s: string)
    requires Sound(w)
    ensures FactoryRuns.Safe(w.st) && TxOk(w, s) && SessionOk(w, s) && (forall c :: EntryOk(w, c))
    ensures id in w.execs ==> ExecOk(w, w.execs[id])
  {
  }

  lemma GoneKeeps(w: World, id: nat)
    requires Sound(w) && id in w.execs
    ensures Sound(Gone(w, id)) && Keeps(w, Gone(w, id))
  {
    hide FactoryRuns.Safe, ExecOk, TxOk, SessionOk, EntryOk, Keeps;
    forall j | j in Gone(w, id).execs ensures ExecOk(Gone(w, id), Gone(w, id).execs[j]) {
      assert ExecOk(w, w.execs[j]);
      GoneExec(w, id, w.execs[j]);
    }
    forall o ensures TxOk(Gone(w, id), o) && SessionOk(Gone(w, id), o) && EntryOk(Gone(w, id), o) {
      assert TxOk(w, o) && SessionOk(w, o) && EntryOk(w, o);
      GoneSession(w, id, o);
    }
    GoneHashes(w, id);
  }

  lemma GoneHashes(w: World, id: nat)
    ensures Keeps(w, Gone(w, id))
  {
  }

  lemma GoneExec(w: World, id: nat, e: Exec)
    requires ExecOk(w, e)
    ensures ExecOk(Gone(w, id), e)
  {
  }

  lemma GoneSession(w: World, id: nat, o: string)
    requires TxOk(w, o) && SessionOk(w, o) && EntryOk(w, o)
    ensures TxOk(Gone(w, id), o) && SessionOk(Gone(w, id), o) && EntryOk(Gone(w, id), o)
  {
    if o in w.st.sessions && w.st.sessions[o].state == Complete {
      var c :| RegisteredFor(w, c, o);
      assert RegisteredFor(Gone(w, id), c, o);
    }
  }

  /// No other execution of session `s` may send.
  predicate Free(w: World, id: nat, s: string) {
    s in w.st.sessions && forall j :: j in w.execs && j != id && w.execs[j].session == s ==> !Capable(w.execs[j])
  }

  /// So it is when this one may, or when the session has a hash.
  lemma NoOtherSender(w: World, id: nat)
    requires Sound(w) && id in w.execs
    ensures Free(w, id, w.execs[id].session)
  {
    hide FactoryRuns.Safe;
    assert ExecOk(w, w.execs[id]);
    forall j | j in w.execs && j != id && w.execs[j].session == w.execs[id].session ensures !Capable(w.execs[j]) {
      assert ExecOk(w, w.execs[j]);
      if Capable(w.execs[id]) {
        CapableIsAlone(w, id, j);
      }
    }
  }

  /// Going on without writing to the session.
  lemma WaitKeeps(w: World, v: World, id: nat, e: Exec)
    requires Sound(w) && Free(w, id, e.session) && ExecOk(v, e)
    requires v == w.(execs := w.execs[id := e], confirmed := v.confirmed, handoffs := v.handoffs, sent := v.sent)
    requires w.confirmed <= v.confirmed && w.handoffs <= v.handoffs
    requires v.sent == w.sent || (HashOf(w, e.session).None? && exists h :: v.sent == w.sent + [(e.session, h)])
    ensures Sound(v) && Keeps(w, v)
  {
    hide FactoryRuns.Safe, ExecOk, SessionOk, Keeps;
    PartsOf(w, id, e.session);
    WaitWithin(w, v, e.session);
    MemoryGrows(w, v, e.session);
    StepOfOne(w, v, id, e.session);
  }

  lemma WaitWithin(w: World, v: World, s: string)
    requires v.st == w.st && v.records == w.records && v.txHash == w.txHash && v.registry == w.registry && v.owner == w.owner
    requires w.confirmed <= v.confirmed && w.handoffs <= v.handoffs && s in w.st.sessions
    ensures Within(w, v, s)
  {
  }

  lemma MemoryGrows(w: World, v: World, s: string)
    requires v.st == w.st && v.records == w.records && v.txHash == w.txHash && v.registry == w.registry && v.owner == w.owner
    requires w.confirmed <= v.confirmed && w.handoffs <= v.handoffs
    requires TxOk(w, s) && SessionOk(w, s) && forall c :: EntryOk(w, c)
    ensures TxOk(v, s) && SessionOk(v, s) && forall c :: EntryOk(v, c)
  {
    if s in w.st.sessions && w.st.sessions[s].state == Complete {
      var c :| RegisteredFor(w, c, s);
      assert RegisteredFor(v, c, s);
    }
    forall c ensures EntryOk(v, c) {
      assert EntryOk(w, c);
    }
  }
}
