/// Every step of every execution keeps a recorded release final, and completes only a confirmed one.
module ReleaseSteps {
  import opened Factory
  import FactoryRuns
  import opened Options
  import opened RefundDraft
  import opened Release
  import opened ReleaseRuns

  // ---------------------------------------------------------------- what a step writes

  /// The worlds a step of execution `e` can lead to: its record, its factory state, and what the
  /// world remembers.
  predicate Wrote(w: World, v: World, id: nat, s: string, record: Option<Record>) {
    v.records == (if record.Some? then w.records[s := record.value] else w.records)
    && v.txHash == w.txHash && v.registry == w.registry && v.owner == w.owner && v.sent == w.sent
    && v.execs == w.execs - {id} && v.handoffs == w.handoffs && w.confirmed <= v.confirmed
  }

  lemma WroteWithin(w: World, v: World, id: nat, s: string, record: Option<Record>)
    requires Wrote(w, v, id, s, record) && OnlySession(w.st, v.st, s)
    requires record.Some? && HashOf(w, s).Some? ==> record.value.rpcTxHash == HashOf(w, s)
    ensures Within(w, v, s)
  {
    hide FactoryRuns.Safe;
    forall o | o != s ensures SameSession(w, v, o) {
      assert SameOf(w.st, v.st, o);
    }
  }

  /// The session keeps its canister, and is in the same state or failed.
  predicate StateSteps(w: World, v: World, s: string) {
    s in w.st.sessions && s in v.st.sessions && v.st.sessions[s].automaton == w.st.sessions[s].automaton
    && (v.st.sessions[s].state == w.st.sessions[s].state || v.st.sessions[s].state == SessionState.Failed)
  }

  lemma WroteBooks(w: World, v: World, id: nat, s: string, record: Option<Record>)
    requires Wrote(w, v, id, s, record) && StateSteps(w, v, s)
    requires record.Some? && HashOf(w, s).Some? ==> record.value.rpcTxHash == HashOf(w, s)
    requires TxOk(w, s) && SessionOk(w, s) && forall c :: EntryOk(w, c)
    ensures TxOk(v, s) && SessionOk(v, s) && forall c :: EntryOk(v, c)
  {
    if w.st.sessions[s].state == Complete {
      var c :| RegisteredFor(w, c, s);
      assert RegisteredFor(v, c, s);
    }
    forall c ensures EntryOk(v, c) {
      assert EntryOk(w, c);
    }
  }

  /// An execution stores a record that does not lose a hash, perhaps fails the session, and ends.
  lemma LeavingKeeps(w: World, v: World, id: nat, s: string, record: Option<Record>)
    requires Sound(w) && Free(w, id, s)
    requires Wrote(w, v, id, s, record) && OnlySession(w.st, v.st, s) && StateSteps(w, v, s)
    requires record.Some? && HashOf(w, s).Some? ==> record.value.rpcTxHash == HashOf(w, s)
    ensures Sound(v) && Keeps(w, v)
  {
    hide FactoryRuns.Safe, ExecOk, SessionOk, Keeps, TxOk, EntryOk, OnlySession, StateSteps, Within;
    PartsOf(w, id, s);
    OnlyKnows(w.st, v.st, s);
    WroteWithin(w, v, id, s, record);
    WroteBooks(w, v, id, s, record);
    StepOfOne(w, v, id, s);
  }

  lemma StayedOnly(st: State, s: string)
    requires FactoryRuns.Safe(st) && s in st.sessions
    ensures OnlySession(st, st, s)
  {
    hide FactoryRuns.Safe;
  }

  /// Keeping the record and returning.
  lemma KeptKeeps(w: World, id: nat, e: Exec, record: Record)
    requires Sound(w) && Free(w, id, e.session)
    requires HashOf(w, e.session).Some? ==> record.rpcTxHash == HashOf(w, e.session)
    ensures Sound(Gone(Persisted(w, e.session, record), id)) && Keeps(w, Gone(Persisted(w, e.session, record), id))
  {
    hide FactoryRuns.Safe, ExecsOk, BooksOk, Keeps;
    StayedOnly(w.st, e.session);
    LeavingKeeps(w, Gone(Persisted(w, e.session, record), id), id, e.session, Some(record));
  }

  lemma FailSteps(st: State, s: string, now: nat)
    requires FactoryRuns.Safe(st) && s in st.sessions
    ensures var after := FactoryRuns.Fail(st, s, System, now, "spawn failed").state;
      OnlySession(st, after, s) && s in after.sessions && after.sessions[s].automaton == st.sessions[s].automaton
      && (after.sessions[s].state == st.sessions[s].state || after.sessions[s].state == SessionState.Failed)
  {
    hide FactoryRuns.Safe, FactoryRuns.Fail, Target, OnlySession;
    FailOne(st, s, now);
    SpawnTargets(st.sessions[s], now);
    OnlyKnows(st, FactoryRuns.Fail(st, s, System, now, "spawn failed").state, s);
  }

  /// Failing the session, with or without keeping a record.
  lemma FailedKeeps(w: World, id: nat, e: Exec)
    requires Sound(w) && Free(w, id, e.session)
    ensures Sound(FailSpawn(w, id, e)) && Keeps(w, FailSpawn(w, id, e))
  {
    hide FactoryRuns.Safe, ExecsOk, BooksOk, Keeps, FactoryRuns.Fail, OnlySession;
    SafeOf(w);
    FailSteps(w.st, e.session, e.now);
    LeavingKeeps(w, FailSpawn(w, id, e), id, e.session, None);
  }

  lemma SafeOf(w: World)
    requires Sound(w)
    ensures FactoryRuns.Safe(w.st)
  {
  }

  lemma KeptAndFailedKeeps(w: World, id: nat, e: Exec, record: Record)
    requires Sound(w) && Free(w, id, e.session)
    requires HashOf(w, e.session).Some? ==> record.rpcTxHash == HashOf(w, e.session)
    ensures Sound(FailSpawn(Persisted(w, e.session, record), id, e)) && Keeps(w, FailSpawn(Persisted(w, e.session, record), id, e))
  {
    hide FactoryRuns.Safe, ExecsOk, BooksOk, Keeps, FactoryRuns.Fail, OnlySession;
    SafeOf(w);
    FailSteps(w.st, e.session, e.now);
    LeavingKeeps(w, FailSpawn(Persisted(w, e.session, record), id, e), id, e.session, Some(record));
  }

  lemma BroadcastErrorKeeps(w: World, id: nat, e: Exec, record: Record, mayStillConfirm: bool)
    requires Sound(w) && Free(w, id, e.session)
    requires HashOf(w, e.session).Some? ==> record.rpcTxHash == HashOf(w, e.session)
    ensures Sound(BroadcastError(w, id, e, record, mayStillConfirm)) && Keeps(w, BroadcastError(w, id, e, record, mayStillConfirm))
  {
    hide Sound, Keeps, FailSpawn;
    KeptKeeps(w, id, e, WithError(record));
    KeptAndFailedKeeps(w, id, e, WithError(record));
  }

  // ---------------------------------------------------------------- finalizing

  /// What finalizing writes, relative to a world before the confirmation was noted.
  predicate Finalized(w: World, v: World, id: nat, e: Exec, record: Record, hash: string) {
    v.records == w.records[e.session := record] && v.txHash == w.txHash[e.session := hash]
    && v.registry == w.registry[e.canister := Entry(e.session, e.controllers)] && v.owner == w.owner && v.sent == w.sent
    && v.execs == w.execs - {id} && w.handoffs <= v.handoffs && w.confirmed <= v.confirmed
    && (e.session, hash) in v.confirmed && (e.canister, e.controllers) in v.handoffs
    && record.rpcTxHash == Some(hash) && (HashOf(w, e.session).Some? ==> HashOf(w, e.session) == Some(hash))
    && e.canister in w.owner && w.owner[e.canister] == e.session
  }

  lemma FinalizedWithin(w: World, v: World, id: nat, e: Exec, record: Record, hash: string)
    requires Finalized(w, v, id, e, record, hash) && OnlySession(w.st, v.st, e.session) && forall c :: EntryOk(w, c)
    ensures Within(w, v, e.session)
  {
    hide FactoryRuns.Safe;
    forall o | o != e.session ensures SameSession(w, v, o) {
      assert SameOf(w.st, v.st, o);
    }
    assert EntryOk(w, e.canister);
  }

  /// The session keeps its canister, and is in the same state or complete.
  predicate StateCompletes(w: World, v: World, s: string) {
    s in w.st.sessions && s in v.st.sessions && v.st.sessions[s].automaton == w.st.sessions[s].automaton
    && (v.st.sessions[s].state == w.st.sessions[s].state || v.st.sessions[s].state == Complete)
  }

  lemma FinalizedBooks(w: World, v: World, id: nat, e: Exec, record: Record, hash: string)
    requires Finalized(w, v, id, e, record, hash) && StateCompletes(w, v, e.session)
    requires TxOk(w, e.session) && SessionOk(w, e.session) && forall c :: EntryOk(w, c)
    ensures TxOk(v, e.session) && SessionOk(v, e.session) && forall c :: EntryOk(v, c)
  {
    assert RegisteredFor(v, e.canister, e.session);
    forall c ensures EntryOk(v, c) {
      assert EntryOk(w, c);
    }
  }

  lemma FinalizedKeeps(w: World, v: World, id: nat, e: Exec, record: Record, hash: string)
    requires Sound(w) && Free(w, id, e.session)
    requires Finalized(w, v, id, e, record, hash) && OnlySession(w.st, v.st, e.session) && StateCompletes(w, v, e.session)
    ensures Sound(v) && Keeps(w, v)
  {
    hide FactoryRuns.Safe, ExecOk, SessionOk, Keeps, TxOk, EntryOk, OnlySession, StateCompletes, Within;
    PartsOf(w, id, e.session);
    OnlyKnows(w.st, v.st, e.session);
    FinalizedWithin(w, v, id, e, record, hash);
    FinalizedBooks(w, v, id, e, record, hash);
    StepOfOne(w, v, id, e.session);
  }

  lemma ReleaseEventSteps(st: State, s: string, now: nat, reason: string)
    requires FactoryRuns.Safe(st) && s in st.sessions
    ensures var after := ApplyEvent(st, s, System, now, ReleaseBroadcast, reason).state;
      OnlySession(st, after, s) && s in after.sessions && after.sessions[s].automaton == st.sessions[s].automaton
      && (after.sessions[s].state == st.sessions[s].state || after.sessions[s].state == Complete)
  {
    hide FactoryRuns.Safe, ApplyEvent, Target, OnlySession;
    EventOne(st, s, now, ReleaseBroadcast, reason);
    SpawnTargets(st.sessions[s], now);
    OnlyKnows(st, ApplyEvent(st, s, System, now, ReleaseBroadcast, reason).state, s);
  }

  /// `base` is the world with the confirmation noted and, for an own broadcast, the record stored.
  lemma FinalizeKeeps(w: World, base: World, id: nat, e: Exec, record: Record, hash: string)
    requires Sound(w) && Free(w, id, e.session)
    requires base == w.(records := base.records, confirmed := base.confirmed, handoffs := base.handoffs)
    requires base.records == w.records || base.records == w.records[e.session := record]
    requires w.confirmed <= base.confirmed && w.handoffs <= base.handoffs
    requires (e.session, hash) in base.confirmed && (e.canister, e.controllers) in base.handoffs
    requires record.rpcTxHash == Some(hash) && (HashOf(w, e.session).Some? ==> HashOf(w, e.session) == Some(hash))
    requires e.canister in w.owner && w.owner[e.canister] == e.session
    requires SameDraft(RecordOf(base, e.session), Some(record))
    ensures Sound(Finalize(base, id, e, record, hash)) && Keeps(w, Finalize(base, id, e, record, hash))
  {
    hide FactoryRuns.Safe, ExecsOk, BooksOk, Keeps, ApplyEvent, OnlySession, SameDraft;
    SafeOf(w);
    ReleaseEventSteps(w.st, e.session, e.now, "spawn completed after receipt-confirmed release and controller handoff");
    FinalizedKeeps(w, Finalize(base, id, e, record, hash), id, e, record, hash);
  }
}
