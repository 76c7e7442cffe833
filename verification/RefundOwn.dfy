/// What is signed and sent is what the record says: in every run, the bytes stored with a refund read as
/// the record's own transaction under the record's own signature (backend/factory/src/evm.rs).
module RefundOwn {
  import opened Bits
  import Calldata
  import Escrow
  import opened Evm
  import Factory
  import FactoryRuns
  import opened Hex
  import opened Options
  import opened RefundDraft
  import opened Refund
  import RefundCourse
  import opened RefundRuns
  import opened RefundTidy
  import opened RlpEncoder

  // ---------------------------------------------------------------- the invariant

  /// Bytes, where there are any, pass the checks and are the record's own.
  predicate Own(keccak: Keccak, r: Record) {
    r.rawHex.Some? ==> CheckRaw(keccak, r).Ok? && IsItsOwnSigned(keccak, r, CheckRaw(keccak, r).value)
  }

  predicate OwnPhase(keccak: Keccak, p: Phase) {
    match p
    case AtNonce => true
    case AtKey(plan) => plan.rawHex.None?
    case AtSign(plan) => plan.rawHex.None?
    case AtSend(plan, _) => Own(keccak, plan)
    case AtConfirm(plan, _, _) => Own(keccak, plan)
  }

  predicate OwnRecord(keccak: Keccak, w: World, s: string) {
    s in w.records ==> Own(keccak, w.records[s])
  }

  ghost predicate AllOwn(keccak: Keccak, w: World) {
    (forall id :: id in w.calls ==> OwnPhase(keccak, w.calls[id].phase)) && forall s :: OwnRecord(keccak, w, s)
  }

  predicate WroteOwn(keccak: Keccak, v: World, id: nat, s: string) {
    OwnRecord(keccak, v, s) && (id in v.calls ==> OwnPhase(keccak, v.calls[id].phase))
  }

  /// The record's fields build a transaction with the record's calldata.
  predicate Consistent(keccak: Keccak, r: Record) {
    RecordTransaction(keccak, r).Ok? && r.calldataHex == Prefixed(RecordTransaction(keccak, r).value.data)
  }

  lemma SameIdentityConsistent(keccak: Keccak, x: Record, y: Record)
    requires SameIdentity(x, y) && Consistent(keccak, x)
    ensures Consistent(keccak, y)
  {
    hide Calldata.RefundCalldata, Decoded, Prefixed;
    assert RecordTransaction(keccak, x) == RecordTransaction(keccak, y);
  }

  lemma ValidIsConsistent(keccak: Keccak, r: Record, claimId: string, recipient: string)
    requires ValidateDraft(keccak, r, claimId, recipient, "").Ok?
    ensures Consistent(keccak, r)
  {
    hide ValidateDraft, RecordTransaction, Prefixed;
    ValidatesByTransaction(keccak, r, claimId, recipient, "");
  }

  // ---------------------------------------------------------------- records

  lemma SameOwn(keccak: Keccak, x: Record, y: Record)
    requires Own(keccak, x) && SameSignedFields(x, y) && x.rawHex == y.rawHex
    ensures Own(keccak, y)
  {
    hide CheckRaw, IsItsOwnSigned;
    SameChecks(keccak, x, y);
    if x.rawHex.Some? {
      RefundCourse.OwnSignedAlike(keccak, x, y, CheckRaw(keccak, x).value);
    }
  }

  lemma SignedOwn(keccak: Keccak, plan: Record, yParity: bool, signature: seq<byte>)
    requires Consistent(keccak, plan) && WithSignature(keccak, plan, yParity, signature).Some?
    ensures Own(keccak, WithSignature(keccak, plan, yParity, signature).value)
  {
    hide RefundTransaction, SignedRaw, Prefixed, Decoded, IsItsOwnSigned, CheckRaw;
    var record := WithSignature(keccak, plan, yParity, signature).value;
    var raw := SignedRaw(RecordTransaction(keccak, plan).value, yParity, signature);
    ReadingInvertsPrinting(signature[..32]);
    ReadingInvertsPrinting(signature[32..]);
    assert signature[..32] + signature[32..] == signature;
    assert RecordTransaction(keccak, record) == RecordTransaction(keccak, plan);
    SignedFormPassesTheChecks(keccak, record, raw);
    SignedFormIsItsOwn(keccak, record, raw);
  }

  lemma RebuiltOwn(keccak: Keccak, record: Record)
    requires Reconstruct(keccak, record).Ok?
    ensures Own(keccak, record.(rawHex := Some(Reconstruct(keccak, record).value)))
  {
    hide Reconstruct, CheckRaw, IsItsOwnSigned, Decoded, Prefixed, IsSignedForm;
    RebuiltIsSignedForm(keccak, record);
    var raw := Decoded(Reconstruct(keccak, record).value).value;
    RebuiltBytesAreTheRecords(keccak, record, raw);
    RefundCourse.OwnSignedAlike(keccak, record, record.(rawHex := Some(Reconstruct(keccak, record).value)), raw);
  }

  // ---------------------------------------------------------------- messages

  lemma GiveUpOwns(keccak: Keccak, w: World, id: nat, record: Record, via: Via)
    requires id in w.calls && OwnRecord(keccak, w, w.calls[id].session) && Own(keccak, record)
    ensures WroteOwn(keccak, GiveUp(w, id, record, via), id, w.calls[id].session)
  {
    hide Own;
    SameOwn(keccak, record, record.(lastError := Some("refund failed")));
  }

  lemma SendOwns(keccak: Keccak, w: World, id: nat, c: Call, record: Record, via: Via)
    requires id in w.calls && w.calls[id] == c && OwnRecord(keccak, w, c.session) && Own(keccak, record)
    ensures WroteOwn(keccak, Send(keccak, w, id, c, record, via), id, c.session)
  {
    hide Own, CheckRaw, GiveUp;
    GiveUpOwns(keccak, w, id, record, via);
  }

  lemma BareOwn(keccak: Keccak, record: Record)
    requires record.rawHex.None?
    ensures Own(keccak, record)
  {
  }

  lemma NonceOwns(keccak: Keccak, w: World, id: nat, c: Call, pending: u64)
    requires id in w.calls && w.calls[id] == c && OwnRecord(keccak, w, c.session) && Draft(keccak, w, c, pending).Some?
    ensures var (next, plan) := Draft(keccak, w, c, pending).value;
      WroteOwn(keccak, Waiting(next, id, c.(phase := AtKey(plan))), id, c.session)
  {
    hide BuildDraft, ValidateDraft, Own;
    if c.session in w.records {
      var record := w.records[c.session];
      var config := ValidateDraft(keccak, record, ClaimOf(w, c.session), Steward(w, c.session), c.config.keyName).value;
      DraftIsBare(keccak, record.claimId, record.recipient, record.escrow, record.nonce, config);
    } else {
      DraftIsBare(keccak, ClaimOf(w, c.session), Steward(w, c.session), c.escrow, Reserve(w.nextNonce, pending), c.config);
      BareOwn(keccak, Draft(keccak, w, c, pending).value.1);
    }
  }

  lemma SentOwns(keccak: Keccak, w: World, id: nat, c: Call, record: Record, via: Via, answer: Answer)
    requires id in w.calls && w.calls[id] == c && OwnRecord(keccak, w, c.session) && Own(keccak, record)
    ensures WroteOwn(keccak, AfterSend(w, id, c, record, via, answer), id, c.session)
  {
    hide Own, GiveUp;
    GiveUpOwns(keccak, w, id, record, via);
    if answer.Hash? {
      SameOwn(keccak, record, record.(rpcTxHash := Some(answer.text), broadcastAt := Some(c.now)));
    }
  }

  lemma ConfirmedOwns(keccak: Keccak, w: World, id: nat, c: Call, record: Record, via: Via, answer: Answer)
    requires id in w.calls && w.calls[id] == c && OwnRecord(keccak, w, c.session) && Own(keccak, record)
    ensures WroteOwn(keccak, AfterConfirm(w, id, c, record, via, answer), id, c.session)
  {
    hide Own, GiveUp, Escrow.FinalizeRefund, ConfirmDepth;
    GiveUpOwns(keccak, w, id, record, via);
    if answer.Confirmation? {
      var seen := ConfirmDepth(record, c.depth, answer).0;
      SeenFields(record, c.depth, answer);
      SameOwn(keccak, record, seen);
      GiveUpOwns(keccak, w, id, seen, via);
    }
  }

  lemma SeenFields(record: Record, depth: nat, answer: Answer)
    requires answer.Confirmation?
    ensures var seen := ConfirmDepth(record, depth, answer).0; SameSignedFields(record, seen) && record.rawHex == seen.rawHex
  {
  }

  lemma ResumeOwns(keccak: Keccak, w: World, id: nat, answer: Answer)
    requires id in w.calls && OwnRecord(keccak, w, w.calls[id].session) && OwnPhase(keccak, w.calls[id].phase)
    requires w.calls[id].phase.AtSign? ==> Consistent(keccak, w.calls[id].phase.plan)
    ensures WroteOwn(keccak, Resume(keccak, w, id, answer), id, w.calls[id].session)
  {
    hide Own, Consistent, GiveUp, Send, Draft, WithSignature, AfterSend, AfterConfirm;
    var c := w.calls[id];
    if Holds(w, c) {
      match c.phase
      case AtNonce =>
        if answer.PendingNonce? && Draft(keccak, w, c, answer.nonce).Some? {
          NonceOwns(keccak, w, id, c, answer.nonce);
        }
      case AtKey(plan) =>
        BareOwn(keccak, plan);
        GiveUpOwns(keccak, w, id, plan, ByBroadcast);
      case AtSign(plan) =>
        BareOwn(keccak, plan);
        GiveUpOwns(keccak, w, id, plan, ByBroadcast);
        if answer.Signed? && answer.yParity.Some? && WithSignature(keccak, plan, answer.yParity.value, answer.signature).Some? {
          var record := WithSignature(keccak, plan, answer.yParity.value, answer.signature).value;
          SignedOwn(keccak, plan, answer.yParity.value, answer.signature);
          SendOwns(keccak, Stored(w, c.session, record), id, c, record, ByBroadcast);
        }
      case AtSend(record, via) => SentOwns(keccak, w, id, c, record, via, answer);
      case AtConfirm(record, hash, via) => ConfirmedOwns(keccak, w, id, c, record, via, answer);
    }
  }

  lemma BeginOwns(keccak: Keccak, w: World, id: nat)
    requires id in w.calls && w.calls[id].phase.AtNonce? && OwnRecord(keccak, w, w.calls[id].session)
    ensures WroteOwn(keccak, Begin(keccak, w, id), id, w.calls[id].session)
  {
    hide Own, Send, Reconstruct, Escrow.ValidateRefund;
    var c := w.calls[id];
    if c.session in w.records {
      var record := w.records[c.session];
      SendOwns(keccak, w, id, c, record, ByRaw);
      if Reconstruct(keccak, record).Ok? {
        var rebuilt := record.(rawHex := Some(Reconstruct(keccak, record).value));
        RebuiltOwn(keccak, record);
        SendOwns(keccak, Stored(w, c.session, rebuilt), id, c, rebuilt, ByRaw);
      }
    }
  }

  // ---------------------------------------------------------------- every step, every run

  lemma OneCallOwns(keccak: Keccak, w: World, v: World, id: nat)
    requires AllOwn(keccak, w) && id in w.calls && OneCall(w, v, id, w.calls[id]) && WroteOwn(keccak, v, id, w.calls[id].session)
    ensures AllOwn(keccak, v)
  {
    hide Own, OwnPhase, Around;
    forall s ensures OwnRecord(keccak, v, s) {
      assert OwnRecord(keccak, w, s);
      if s != w.calls[id].session {
        assert SameRecord(w, v, s);
      }
    }
  }

  lemma SignerIsConsistent(keccak: Keccak, w: World, id: nat)
    requires Sound(w) && Tidy(keccak, w) && id in w.calls && w.calls[id].phase.AtSign?
    ensures Consistent(keccak, w.calls[id].phase.plan)
  {
    hide ValidateDraft, SameIdentity, Consistent, FactoryRuns.Safe, NoncesOk, AllRefundedOk;
    var c := w.calls[id];
    assert CallOk(w, c) && DraftOk(keccak, w, c.session);
    ValidIsConsistent(keccak, w.records[c.session], ClaimOf(w, c.session), Steward(w, c.session));
    Symmetric(c.phase.plan, w.records[c.session]);
    SameIdentityConsistent(keccak, w.records[c.session], c.phase.plan);
  }

  lemma Symmetric(x: Record, y: Record)
    requires SameIdentity(x, y)
    ensures SameIdentity(y, x)
  {
  }

  lemma ContinueOwns(keccak: Keccak, w: World, id: nat, answer: Answer)
    requires Sound(w) && Tidy(keccak, w) && AllOwn(keccak, w) && id in w.calls
    ensures AllOwn(keccak, Resume(keccak, w, id, answer))
  {
    hide Sound, Tidy, OneCall, Resume, Own, WroteOwn, Consistent, OwnPhase, FactoryRuns.Safe;
    OkIsSafe(w);
    if w.calls[id].phase.AtSign? {
      SignerIsConsistent(keccak, w, id);
    }
    assert OwnRecord(keccak, w, w.calls[id].session);
    ResumeOwns(keccak, w, id, answer);
    ResumeShape(keccak, w, id, answer);
    OneCallOwns(keccak, w, Resume(keccak, w, id, answer), id);
  }

  lemma AcquireOwns(keccak: Keccak, w: World, id: nat, session: string, now: nat)
    requires AllOwn(keccak, w) && id !in w.calls
    ensures AllOwn(keccak, Acquire(keccak, w, id, session, now))
  {
    hide Acquire, Begin, Due, OneCall, Own, WroteOwn, Escrow.ValidateRefund, NextGeneration;
    AcquireCases(keccak, w, id, session, now);
    var due := w.(st := Due(w, session, now));
    assert AllOwn(keccak, due) by { SameBooksOwn(keccak, w, due); }
    if NextGeneration(w, session, now).Some? {
      var generation := NextGeneration(w, session, now).value;
      var installed := Installed(due, id, session, NewLease(generation, now), NewCall(w, session, generation, now));
      InstalledOwns(keccak, due, id, session, NewLease(generation, now), NewCall(w, session, generation, now));
      assert OwnRecord(keccak, installed, session);
      BeginOwns(keccak, installed, id);
      BeginShape(keccak, installed, id);
      OneCallOwns(keccak, installed, Begin(keccak, installed, id), id);
    }
  }

  lemma SameBooksOwn(keccak: Keccak, w: World, v: World)
    requires AllOwn(keccak, w) && v.calls == w.calls && v.records == w.records
    ensures AllOwn(keccak, v)
  {
    hide Own, OwnPhase;
    forall s ensures OwnRecord(keccak, v, s) {
      assert OwnRecord(keccak, w, s);
    }
  }

  lemma InstalledOwns(keccak: Keccak, w: World, id: nat, s: string, lease: Lease, c: Call)
    requires AllOwn(keccak, w) && c.phase.AtNonce?
    ensures AllOwn(keccak, Installed(w, id, s, lease, c))
  {
    hide Own;
    forall o ensures OwnRecord(keccak, Installed(w, id, s, lease, c), o) {
      assert OwnRecord(keccak, w, o);
    }
  }

  lemma StepOwns(keccak: Keccak, w: World, step: Step)
    requires Sound(w) && Tidy(keccak, w) && AllOwn(keccak, w) && Enabled(w, step)
    ensures AllOwn(keccak, After(keccak, w, step))
  {
    hide Sound, Tidy, AllOwn, Acquire, Resume, FactoryRuns.After, FactoryRuns.Enabled;
    match step
    case Elsewhere(e) => SameBooksOwn(keccak, w, After(keccak, w, step));
    case Reconfigure(_, _) => SameBooksOwn(keccak, w, After(keccak, w, step));
    case ReleaseNonce(_) => SameBooksOwn(keccak, w, After(keccak, w, step));
    case Command(id, session, now) => AcquireOwns(keccak, w, id, session, now);
    case Continue(id, answer) => ContinueOwns(keccak, w, id, answer);
  }

  lemma {:induction false} EveryRunOwns(keccak: Keccak, w: World, steps: seq<Step>)
    requires Sound(w) && Tidy(keccak, w) && AllOwn(keccak, w) && CanRun(keccak, w, steps)
    ensures AllOwn(keccak, Run(keccak, w, steps))
    decreases |steps|
  {
    hide Sound, Tidy, AllOwn, After, Enabled, Keeps;
    if steps != [] {
      StepKeeps(keccak, w, steps[0]);
      StepTidy(keccak, w, steps[0]);
      StepOwns(keccak, w, steps[0]);
      EveryRunOwns(keccak, After(keccak, w, steps[0]), steps[1..]);
    }
  }

  /// Main result. From before the first refund, in every run: the bytes stored with a refund, and the
  /// bytes any call in flight is sending or has sent, read as a transaction with the record's own chain,
  /// nonce, fees, gas, escrow and calldata, a refund of the record's claim, under the record's own
  /// signature and hash.
  lemma StoredBytesAreOwn(keccak: Keccak, st: Factory.State, stewards: map<string, string>, escrow: string, config: Config,
                          nextNonce: Option<u64>, steps: seq<Step>, s: string, id: nat)
    requires FactoryRuns.Safe(st) && forall o :: o in st.sessions ==> st.sessions[o].payment != Factory.Refunded
    requires CanRun(keccak, Start(st, stewards, escrow, config, nextNonce), steps)
    ensures var w := Run(keccak, Start(st, stewards, escrow, config, nextNonce), steps);
      (s in w.records && w.records[s].rawHex.Some? ==>
         CheckRaw(keccak, w.records[s]).Ok? && IsItsOwnSigned(keccak, w.records[s], CheckRaw(keccak, w.records[s]).value))
      && (id in w.calls && w.calls[id].phase.AtSend? ==>
            CheckRaw(keccak, w.calls[id].phase.plan).Ok?
            && IsItsOwnSigned(keccak, w.calls[id].phase.plan, CheckRaw(keccak, w.calls[id].phase.plan).value))
  {
    hide Sound, CanRun, Run, FactoryRuns.Safe, CheckRaw, IsItsOwnSigned;
    var start := Start(st, stewards, escrow, config, nextNonce);
    StartIsOk(st, stewards, escrow, config, nextNonce);
    StartIsTidy(keccak, st, stewards, escrow, config, nextNonce);
    assert AllOwn(keccak, start);
    EveryRunOwns(keccak, start, steps);
    EveryRunIsTidy(keccak, start, steps);
    var w := Run(keccak, start, steps);
    assert OwnRecord(keccak, w, s);
    if id in w.calls && w.calls[id].phase.AtSend? {
      assert PhaseTidy(keccak, w.calls[id].phase) by { TidyParts(keccak, w, id); }
      CheckedHasBytes(keccak, w.calls[id].phase.plan);
    }
  }

  lemma CheckedHasBytes(keccak: Keccak, r: Record)
    requires CheckRaw(keccak, r).Ok?
    ensures r.rawHex.Some?
  {
  }
}
