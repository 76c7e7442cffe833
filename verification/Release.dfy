/// Spawning and releasing as they run between awaits (backend/factory/src/spawn.rs,
/// backend/factory/src/evm.rs): an execution drafts, signs and sends one transaction, records its
/// hash, and completes the session once the hash is confirmed.
module Release {
  import opened Deposits
  import opened Factory
  import FactoryRuns
  import opened Options
  import opened RefundDraft
  import Refund

  /// The fields by which a continuation recognises the record it started from.
  datatype Identity = Identity(
    claimId: string, recipient: string, escrow: string, nonce: nat, chainId: nat, maxPriorityFee: nat, maxFee: nat,
    gasLimit: nat, keyName: string, calldataHex: string, signingPayloadHash: string)

  /// `release_broadcast_draft_identity`
  function IdentityOf(r: Record): Identity {
    Identity(r.claimId, r.recipient, r.escrow, r.nonce, r.chainId, r.maxPriorityFee, r.maxFee, r.gasLimit,
             r.keyName.GetOr(""), r.calldataHex, r.signingPayloadHash.GetOr(""))
  }

  /// What an execution is waiting for.
  datatype Phase =
    | Creating
    | Preparing
    | AtReserve
    | AtKey(plan: Record)
    | AtSign(plan: Record)
    | AtSend(plan: Record)
    | AtConfirm(plan: Record, hash: string)
    | AtExisting(plan: Record, hash: string)
    | Resuming(plan: Record, hash: string)
    | AtHandoff(plan: Record, hash: string)

  /// An execution in flight: `snapshot` is the session's record when it began.
  datatype Exec = Exec(
    session: string, snapshot: Option<Record>, phase: Phase, now: nat, depth: nat, canister: string, controllers: seq<string>)

  datatype Entry = Entry(session: string, controllers: seq<string>)

  /// `sent`, `confirmed`, `handoffs` and `owner` are not stored: they remember every broadcast, every
  /// confirmation, every verified list of controllers, and which session a canister was created for.
  datatype World = World(
    st: State, records: map<string, Record>, txHash: map<string, string>, registry: map<string, Entry>,
    execs: map<nat, Exec>, sent: seq<(string, string)>, confirmed: set<(string, string)>,
    handoffs: set<(string, seq<string>)>, owner: map<string, string>)

  /// `Aborted` stands for every way of returning that writes nothing.
  datatype Answer =
    | Failed
    | Aborted
    | Installed(canister: string)
    | HandedOver(controllers: seq<string>)
    | Planned(plan: Record)
    | KeyFound
    | Signature(signature: RefundDraft.Signature, rawHash: string, rawHex: string)
    | Hash(text: string)
    | Receipts(answer: Refund.Answer)

  function RecordOf(w: World, s: string): Option<Record> {
    if s in w.records then Some(w.records[s]) else None
  }

  predicate SameDraft(x: Option<Record>, y: Option<Record>) {
    if x.Some? && y.Some? then IdentityOf(x.value) == IdentityOf(y.value) else x.None? && y.None?
  }

  /// `ensure_spawn_release_draft_guard`; a session's generation never changes.
  predicate Guarded(w: World, e: Exec) {
    e.session in w.st.sessions && SameDraft(RecordOf(w, e.session), e.snapshot)
  }

  predicate HasHash(r: Option<Record>) {
    r.Some? && r.value.rpcTxHash.Some?
  }

  // ---------------------------------------------------------------- pieces

  function Gone(w: World, id: nat): World {
    w.(execs := w.execs - {id})
  }

  function Waiting(w: World, id: nat, e: Exec, phase: Phase): World {
    w.(execs := w.execs[id := e.(phase := phase)])
  }

  function Persisted(w: World, s: string, record: Record): World {
    w.(records := w.records[s := record])
  }

  function WithError(r: Record): Record {
    r.(lastError := Some("release failed"))
  }

  /// `fail_spawn_session`: the event is refused when the session is not being spawned.
  function FailSpawn(w: World, id: nat, e: Exec): World {
    Gone(w.(st := FactoryRuns.Fail(w.st, e.session, System, e.now, "spawn failed").state), id)
  }

  /// A failed broadcast keeps its record; the session fails unless a receipt may still come.
  function BroadcastError(w: World, id: nat, e: Exec, record: Record, mayStillConfirm: bool): World {
    var kept := Persisted(w, e.session, WithError(record));
    if mayStillConfirm then Gone(kept, id) else FailSpawn(kept, id, e)
  }

  /// `finalize_confirmed_release`: everything is written before the event, which may be refused.
  function Finalize(w: World, id: nat, e: Exec, record: Record, hash: string): World {
    if !(e.session in w.st.sessions && SameDraft(RecordOf(w, e.session), Some(record))) then Gone(w, id)
    else
      var written := w.(txHash := w.txHash[e.session := hash], records := w.records[e.session := record],
                        registry := w.registry[e.canister := Entry(e.session, e.controllers)]);
      Gone(written.(st := ApplyEvent(w.st, e.session, System, e.now, ReleaseBroadcast,
                                     "spawn completed after receipt-confirmed release and controller handoff").state), id)
  }

  // ---------------------------------------------------------------- beginning

  /// `execute_spawn` up to its first await; `ready` says the prerequisites are met.
  function Begin(w: World, id: nat, s: string, now: nat, ready: bool): World {
    if s !in w.st.sessions || w.st.sessions[s].payment != Paid then w
    else
      var e := Exec(s, RecordOf(w, s), Creating, now, w.st.depth, w.st.sessions[s].automaton.GetOr(""), []);
      match w.st.sessions[s].state
      case PaymentDetected =>
        if !ready then FailSpawn(w, id, e)
        else
          w.(st := ApplyEvent(w.st, s, System, now, SpawnStarted, "spawn execution started").state, execs := w.execs[id := e])
      case BroadcastingRelease =>
        if !HasHash(RecordOf(w, s)) then w
        else w.(execs := w.execs[id := e.(phase := Resuming(w.records[s], w.records[s].rpcTxHash.value))])
      case _ => w
  }

  // ---------------------------------------------------------------- continuing

  function AfterInstall(w: World, id: nat, e: Exec, canister: string): World {
    var attached := w.(st := FactoryRuns.Attach(w.st, e.session, canister), owner := w.owner[canister := e.session]);
    var installed := ApplyEvent(attached.st, e.session, System, e.now, InstallSucceeded, "automaton installed");
    var next := attached.(st := installed.state);
    if installed.error.Some? then Gone(next, id) else Waiting(next, id, e.(canister := canister), Preparing)
  }

  function AfterHandoff(w: World, id: nat, e: Exec, controllers: seq<string>): World {
    var verified := w.(handoffs := w.handoffs + {(e.canister, controllers)});
    var told := e.(controllers := controllers);
    if HasHash(e.snapshot) then
      if !Guarded(w, e) then Gone(verified, id)
      else Waiting(verified, id, told, AtExisting(e.snapshot.value, e.snapshot.value.rpcTxHash.value))
    else Waiting(verified, id, told, AtReserve)
  }

  predicate Reverted(a: Refund.Answer) {
    a.Confirmation? && a.receipt.Some? && !a.receipt.value.status
  }

  /// A receipt that could not be confirmed yet but may be later: its block is in the future, or the
  /// count of blocks left 64 bits.
  predicate MayStillCome(a: Refund.Answer) {
    a.Confirmation? && a.receipt.Some? && a.receipt.value.status
    && (a.latest < a.receipt.value.block || SameHash(a.canonical, a.receipt.value.hash))
  }

  /// The confirmation of a transaction this execution sent itself.
  function AfterOwnReceipt(w: World, id: nat, e: Exec, record: Record, hash: string, a: Refund.Answer): World {
    if !a.Confirmation? then BroadcastError(w, id, e, record, true)
    else
      var (seen, confirmed) := Refund.ConfirmDepth(record, e.depth, a);
      match confirmed
      case None => BroadcastError(w, id, e, seen, !Reverted(a))
      case Some(done) =>
        var kept := Persisted(w, e.session, seen);
        if !done then Gone(kept, id)
        else Finalize(kept.(confirmed := kept.confirmed + {(e.session, hash)}), id, e, seen, hash)
  }

  /// The confirmation of a transaction that was already on record.
  function AfterRecordedReceipt(w: World, id: nat, e: Exec, record: Record, hash: string, a: Refund.Answer, resuming: bool): World {
    if !a.Confirmation? then Gone(Persisted(w, e.session, WithError(record)), id)
    else
      var (seen, confirmed) := Refund.ConfirmDepth(record, e.depth, a);
      match confirmed
      case None =>
        var kept := Persisted(w, e.session, WithError(seen));
        if MayStillCome(a) then Gone(kept, id) else FailSpawn(kept, id, e)
      case Some(done) =>
        if !done then Gone(Persisted(w, e.session, WithError(seen)), id)
        else
          var noted := w.(confirmed := w.confirmed + {(e.session, hash)});
          if resuming then Waiting(noted, id, e, AtHandoff(seen, hash))
          else Finalize(Persisted(noted, e.session, seen), id, e, seen, hash)
  }

  /// An execution resumes. Once it has a guard, a stale one returns without writing.
  function Resume(w: World, id: nat, answer: Answer): World
    requires id in w.execs
  {
    var e := w.execs[id];
    if answer.Aborted? then Gone(w, id)
    else
      match e.phase
      case Creating => if answer.Installed? then AfterInstall(w, id, e, answer.canister) else FailSpawn(w, id, e)
      case Preparing => if answer.HandedOver? then AfterHandoff(w, id, e, answer.controllers) else FailSpawn(w, id, e)
      case AtReserve =>
        if !answer.Planned? then FailSpawn(w, id, e)
        else if !Guarded(w, e) then Gone(w, id)
        else Waiting(w, id, e, AtKey(answer.plan.(rpcTxHash := None)))
      case AtKey(plan) =>
        if !Guarded(w, e) then Gone(w, id)
        else if !answer.KeyFound? then BroadcastError(w, id, e, plan, false)
        else Waiting(w, id, e, AtSign(plan))
      case AtSign(plan) =>
        if !Guarded(w, e) then Gone(w, id)
        else if !answer.Signature? then BroadcastError(w, id, e, plan, false)
        else
          Waiting(w.(sent := w.sent + [(e.session, answer.rawHash)]), id, e,
                  AtSend(plan.(signature := Some(answer.signature), rawHash := Some(answer.rawHash), rawHex := Some(answer.rawHex))))
      case AtSend(record) =>
        if !Guarded(w, e) then Gone(w, id)
        else if !answer.Hash? then BroadcastError(w, id, e, record, false)
        else Waiting(w, id, e, AtConfirm(record.(rpcTxHash := Some(answer.text), broadcastAt := Some(e.now)), answer.text))
      case AtConfirm(record, hash) =>
        if !Guarded(w, e) then Gone(w, id)
        else AfterOwnReceipt(w, id, e, record, hash, if answer.Receipts? then answer.answer else Refund.Failed)
      case AtExisting(record, hash) =>
        if !Guarded(w, e) then Gone(w, id)
        else AfterRecordedReceipt(w, id, e, record, hash, if answer.Receipts? then answer.answer else Refund.Failed, false)
      case Resuming(record, hash) =>
        if !Guarded(w, e) then Gone(w, id)
        else AfterRecordedReceipt(w, id, e, record, hash, if answer.Receipts? then answer.answer else Refund.Failed, true)
      case AtHandoff(record, hash) =>
        if !answer.HandedOver? || !Guarded(w, e) then Gone(w, id)
        else Finalize(w.(handoffs := w.handoffs + {(e.canister, answer.controllers)}), id,
                      e.(controllers := answer.controllers), record, hash)
  }

  // ---------------------------------------------------------------- steps

  /// The factory's other steps. Spawning, installing, releasing and failing are the executions' own.
  predicate OthersStep(s: FactoryRuns.Step) {
    !s.MarkFailed? && !s.AttachAutomaton? && (s.Signal? ==> s.event == SessionExpired)
  }

  datatype Step =
    | Elsewhere(step: FactoryRuns.Step)
    | Execute(id: nat, session: string, now: nat, ready: bool)
    | Continue(id: nat, answer: Answer)

  /// A canister is created for one session.
  ghost predicate Enabled(w: World, step: Step) {
    match step
    case Elsewhere(s) => FactoryRuns.Enabled(w.st, s) && OthersStep(s)
    case Execute(id, _, _, _) => id !in w.execs
    case Continue(id, answer) =>
      id in w.execs
      && (answer.Installed? && answer.canister in w.owner ==> w.owner[answer.canister] == w.execs[id].session)
  }

  ghost function After(w: World, step: Step): World
    requires Enabled(w, step)
  {
    match step
    case Elsewhere(s) => w.(st := FactoryRuns.After(w.st, s))
    case Execute(id, s, now, ready) => Begin(w, id, s, now, ready)
    case Continue(id, answer) => Resume(w, id, answer)
  }
}
