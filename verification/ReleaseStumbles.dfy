/// Where an execution can stop, and what it then leaves of the session and its record
/// (backend/factory/src/spawn.rs, backend/factory/src/evm.rs).
module ReleaseStumbles {
  import opened Confirmations
  import opened Deposits
  import opened Factory
  import FactoryRuns
  import opened Options
  import opened RefundDraft
  import Refund
  import opened Release
  import opened ReleaseSafety

  // ---------------------------------------------------------------- beginning

  /// An execution begins for a paid session that is detected, or being released with a hash on record;
  /// without its prerequisites it fails the session instead, and otherwise nothing happens.
  lemma BeginsExactly(w: World, id: nat, s: string, now: nat, ready: bool)
    requires id !in w.execs
    ensures var v := Begin(w, id, s, now, ready);
      var paid := s in w.st.sessions && w.st.sessions[s].payment == Paid;
      if paid && w.st.sessions[s].state == PaymentDetected then
        if ready then
          v.st == ApplyEvent(w.st, s, System, now, SpawnStarted, "spawn execution started").state
          && id in v.execs && v.execs[id] == Exec(s, RecordOf(w, s), Creating, now, w.st.depth, w.st.sessions[s].automaton.GetOr(""), [])
          && v.execs - {id} == w.execs && v.records == w.records
        else v == w.(st := FactoryRuns.Fail(w.st, s, System, now, "spawn failed").state)
      else if paid && w.st.sessions[s].state == BroadcastingRelease && s in w.records && w.records[s].rpcTxHash.Some? then
        v.st == w.st && v.execs - {id} == w.execs && v.records == w.records
        && id in v.execs && v.execs[id].phase == Resuming(w.records[s], w.records[s].rpcTxHash.value) && v.execs[id].session == s
        && v.execs[id].depth == w.st.depth && v.execs[id].canister == w.st.sessions[s].automaton.GetOr("")
      else v == w
  {
    hide FactoryRuns.Fail, ApplyEvent;
    NoTrace(w, id);
    if s in w.st.sessions {
      NoTraceOf(w, id, Starting(w, s, now));
      if HasHash(RecordOf(w, s)) {
        NoTraceOf(w, id, Starting(w, s, now).(phase := Resuming(w.records[s], w.records[s].rpcTxHash.value)));
      }
    }
  }

  lemma NoTrace(w: World, id: nat)
    requires id !in w.execs
    ensures w.execs - {id} == w.execs
  {
  }

  lemma NoTraceOf(w: World, id: nat, e: Exec)
    requires id !in w.execs
    ensures w.execs[id := e] - {id} == w.execs
  {
  }

  // ---------------------------------------------------------------- the guard

  /// Two records of one draft: everything that was planned is the same; an absent key or hash counts as
  /// an empty one. What was learnt later, signature, hashes and receipts, does not matter.
  predicate OneDraft(x: Record, y: Record) {
    x.claimId == y.claimId && x.recipient == y.recipient && x.escrow == y.escrow && x.nonce == y.nonce
    && x.chainId == y.chainId && x.maxPriorityFee == y.maxPriorityFee && x.maxFee == y.maxFee && x.gasLimit == y.gasLimit
    && x.keyName.GetOr("") == y.keyName.GetOr("") && x.calldataHex == y.calldataHex
    && x.signingPayloadHash.GetOr("") == y.signingPayloadHash.GetOr("")
  }

  /// An execution may go on exactly while its session is stored and has no record, if it had none when
  /// the execution began, or else one of the same draft.
  lemma GuardsExactly(w: World, e: Exec)
    ensures Guarded(w, e)
      <==> e.session in w.st.sessions
           && (if e.snapshot.None? then e.session !in w.records
               else e.session in w.records && OneDraft(w.records[e.session], e.snapshot.value))
  {
  }

  // ---------------------------------------------------------------- stopping

  /// What is left: the record as it is stored, and whether the session fails.
  datatype Fate = Fate(record: Option<Record>, fails: bool)

  predicate Told(a: Refund.Answer) {
    a.Confirmation? && a.receipt.Some?
  }

  /// The record with what was learnt about the receipt.
  function Learnt(record: Record, a: Refund.Answer): Record {
    if !a.Confirmation? then record
    else if a.receipt.Some? then Seen(record, a)
    else record.(receiptBlockNumber := None, receiptBlockHash := None, receiptStatus := None)
  }

  function Marred(record: Record): Record {
    record.(lastError := Some("release failed"))
  }

  /// The confirmation of an own transaction: only a revert fails the session. What may still come is
  /// stored without an error if the node simply has no deep receipt yet.
  function OwnFate(record: Record, depth: nat, a: Refund.Answer): Fate {
    if a.Confirmation? && (a.receipt.Some? ==> Deep(a, 0)) then Fate(Some(Learnt(record, a)), false)
    else Fate(Some(Marred(Learnt(record, a))), Told(a) && !a.receipt.value.status)
  }

  /// The confirmation of a transaction on record: a revert, or a block that left the chain, fails the
  /// session; a receipt from the future or too shallow, or none, does not.
  function RecordedFate(record: Record, a: Refund.Answer): Fate {
    Fate(Some(Marred(Learnt(record, a))),
         Told(a) && (!a.receipt.value.status
                     || (a.receipt.value.block <= a.latest && !SameUpToCase(a.canonical, a.receipt.value.hash))))
  }

  /// The answers that stop a guarded execution, and what they leave.
  function FateOf(e: Exec, answer: Answer): Option<Fate> {
    var a := if answer.Receipts? then answer.answer else Refund.Failed;
    if answer.Aborted? then Some(Fate(None, false))
    else
      match e.phase
      case Creating => if answer.Installed? then None else Some(Fate(None, true))
      case Preparing => if answer.HandedOver? then None else Some(Fate(None, true))
      case AtReserve => if answer.Planned? then None else Some(Fate(None, true))
      case AtKey(plan) => if answer.KeyFound? then None else Some(Fate(Some(Marred(plan)), true))
      case AtSign(plan) => if answer.Signature? then None else Some(Fate(Some(Marred(plan)), true))
      case AtSend(plan) => if answer.Hash? then None else Some(Fate(Some(Marred(plan)), true))
      case AtConfirm(plan, _) => if Deep(a, e.depth) then None else Some(OwnFate(plan, e.depth, a))
      case AtExisting(plan, _) => if Deep(a, e.depth) then None else Some(RecordedFate(plan, a))
      case Resuming(plan, _) => if Deep(a, e.depth) then None else Some(RecordedFate(plan, a))
      case AtHandoff(_, _) => if answer.HandedOver? then None else Some(Fate(None, false))
  }

  function Stopped(w: World, id: nat, e: Exec, fate: Fate): World {
    var kept := if fate.record.Some? then w.(records := w.records[e.session := fate.record.value]) else w;
    var st := if fate.fails then FactoryRuns.Fail(w.st, e.session, System, e.now, "spawn failed").state else w.st;
    kept.(st := st, execs := w.execs - {id})
  }

  lemma OwnStops(w: World, id: nat, e: Exec, record: Record, hash: string, a: Refund.Answer)
    requires !Deep(a, e.depth)
    ensures AfterOwnReceipt(w, id, e, record, hash, a) == Stopped(w, id, e, OwnFate(record, e.depth, a))
  {
    hide FactoryRuns.Fail, Finalize, Deep;
    if a.Confirmation? {
      ConfirmsExactly(record, e.depth, a);
      DeeperIsDeep(a, e.depth);
      if a.receipt.Some? {
        hide Refund.ConfirmDepth;
      }
    }
  }

  lemma RecordedStops(w: World, id: nat, e: Exec, record: Record, hash: string, a: Refund.Answer, resuming: bool)
    requires !Deep(a, e.depth)
    ensures AfterRecordedReceipt(w, id, e, record, hash, a, resuming) == Stopped(w, id, e, RecordedFate(record, a))
  {
    hide FactoryRuns.Fail, Finalize, Deep;
    if a.Confirmation? {
      ConfirmsExactly(record, e.depth, a);
      if a.receipt.Some? {
        SameHashExactly(a.canonical, a.receipt.value.hash);
        TerminalIsShallow(a);
        hide Refund.ConfirmDepth, SameHash, SameUpToCase;
      }
    }
  }

  lemma DeeperIsDeep(a: Refund.Answer, depth: nat)
    ensures Deep(a, depth) ==> Deep(a, 0)
  {
  }

  lemma TerminalIsShallow(a: Refund.Answer)
    requires Told(a)
    ensures Deep(a, 0) ==> a.receipt.value.status && SameUpToCase(a.canonical, a.receipt.value.hash)
  {
  }

  predicate Asks(p: Phase) {
    p.AtConfirm? || p.AtExisting? || p.Resuming?
  }

  lemma AskerStops(w: World, id: nat, answer: Answer)
    requires id in w.execs && Asks(w.execs[id].phase) && !answer.Aborted? && FateOf(w.execs[id], answer).Some? && Guarded(w, w.execs[id])
    ensures Resume(w, id, answer) == Stopped(w, id, w.execs[id], FateOf(w.execs[id], answer).value)
  {
    hide Guarded, AfterOwnReceipt, AfterRecordedReceipt, Deep, Stopped, OwnFate, RecordedFate;
    var e := w.execs[id];
    var a := if answer.Receipts? then answer.answer else Refund.Failed;
    match e.phase
    case AtConfirm(plan, hash) => OwnStops(w, id, e, plan, hash, a);
    case AtExisting(plan, hash) => RecordedStops(w, id, e, plan, hash, a, false);
    case Resuming(plan, hash) => RecordedStops(w, id, e, plan, hash, a, true);
  }

  lemma OtherStops(w: World, id: nat, answer: Answer)
    requires id in w.execs && (!Asks(w.execs[id].phase) || answer.Aborted?) && FateOf(w.execs[id], answer).Some?
    requires Guarded(w, w.execs[id])
    ensures Resume(w, id, answer) == Stopped(w, id, w.execs[id], FateOf(w.execs[id], answer).value)
  {
    hide Guarded, FactoryRuns.Fail, AfterOwnReceipt, AfterRecordedReceipt, AfterInstall, AfterHandoff, Finalize, Deep, OwnFate, RecordedFate;
  }

  /// An execution that is stopped while its draft is still the session's leaves exactly this.
  lemma StopsLeave(w: World, id: nat, answer: Answer)
    requires id in w.execs && Guarded(w, w.execs[id]) && FateOf(w.execs[id], answer).Some?
    ensures Resume(w, id, answer) == Stopped(w, id, w.execs[id], FateOf(w.execs[id], answer).value)
  {
    hide Guarded, Resume, FateOf, Stopped;
    if Asks(w.execs[id].phase) && !answer.Aborted? {
      AskerStops(w, id, answer);
    } else {
      OtherStops(w, id, answer);
    }
  }

  /// One whose draft is no longer the session's leaves nothing, once it has a guard to ask.
  lemma StaleLeavesNothing(w: World, id: nat, answer: Answer)
    requires id in w.execs && !Guarded(w, w.execs[id])
    requires var p := w.execs[id].phase; !p.Creating? && !p.Preparing? && !(p.AtReserve? && !answer.Planned?)
    ensures Resume(w, id, answer) == w.(execs := w.execs - {id})
  {
    hide Guarded, FailSpawn, BroadcastError, AfterOwnReceipt, AfterRecordedReceipt, Finalize;
  }
}
