/// What a refund record and the calls that carry one always satisfy: stored bytes pass the checks
/// that precede a broadcast, drafts validate, and a lease belongs to a call in flight.
module RefundTidy {
  import opened Bits
  import opened Escrow
  import opened Evm
  import Factory
  import FactoryRuns
  import Frozen
  import opened Hex
  import Invariants
  import opened Limits
  import opened Options
  import opened RefundDraft
  import opened Refund
  import opened RefundRuns
  import opened RlpEncoder

  // ---------------------------------------------------------------- the invariant

  /// Bytes, where there are any, pass the checks.
  predicate Checked(keccak: Keccak, r: Record) {
    r.rawHex.Some? ==> CheckRaw(keccak, r).Ok?
  }

  /// A draft being signed has no bytes; what is sent passes the checks.
  predicate PhaseTidy(keccak: Keccak, p: Phase) {
    match p
    case AtNonce => true
    case AtKey(plan) => plan.rawHex.None?
    case AtSign(plan) => plan.rawHex.None?
    case AtSend(plan, _) => CheckRaw(keccak, plan).Ok?
    case AtConfirm(plan, _, _) => Checked(keccak, plan)
  }

  predicate Paying(st: Factory.State, s: string) {
    s in st.sessions && FactoryRuns.Rank(st.sessions[s].payment) >= FactoryRuns.Rank(Factory.Partial)
  }

  predicate CallTidy(keccak: Keccak, w: World, c: Call) {
    PhaseTidy(keccak, c.phase) && 1 <= c.generation <= U64_MAX && Paying(w.st, c.session)
  }

  predicate HolderOf(w: World, id: nat, s: string) {
    id in w.calls && w.calls[id].session == s && Holds(w, w.calls[id])
  }

  ghost predicate LeaseTidy(w: World, s: string) {
    s in w.leases ==> exists id :: HolderOf(w, id, s)
  }

  /// The stored draft is the one the session's claim and steward call for.
  predicate DraftOk(keccak: Keccak, w: World, s: string) {
    s in w.records ==>
      Paying(w.st, s) && ValidateDraft(keccak, w.records[s], ClaimOf(w, s), Steward(w, s), "").Ok?
  }

  predicate RecordTidy(keccak: Keccak, w: World, s: string) {
    s in w.records ==> Checked(keccak, w.records[s])
  }

  ghost predicate Tidy(keccak: Keccak, w: World) {
    (forall id :: id in w.calls ==> CallTidy(keccak, w, w.calls[id]))
    && (forall s :: LeaseTidy(w, s)) && (forall s :: RecordTidy(keccak, w, s)) && (forall s :: DraftOk(keccak, w, s))
  }

  // ---------------------------------------------------------------- the shape of a step

  predicate SameRecord(w: World, v: World, o: string) {
    (o in v.records <==> o in w.records) && (o in w.records ==> v.records[o] == w.records[o])
  }

  ghost predicate Around(w: World, v: World) {
    v.stewards == w.stewards && FactoryRuns.Forward(w.st, v.st)
  }

  /// A message of one call: it goes on to another phase or ends, and touches only its own session.
  ghost predicate OneCall(w: World, v: World, id: nat, c: Call) {
    Around(w, v)
    && (forall o :: o != c.session ==> SameRecord(w, v, o))
    && (if id in v.calls
        then v.leases == w.leases && v.calls == w.calls[id := v.calls[id]] && v.calls[id] == c.(phase := v.calls[id].phase)
        else v.calls == w.calls - {id} && v.leases == (if Holds(w, c) then w.leases - {c.session} else w.leases))
  }

  lemma SelfAround(w: World, v: World)
    requires v.stewards == w.stewards && v.st == w.st
    ensures Around(w, v)
  {
    FactoryRuns.SameForward(w.st, v.st);
  }

  lemma EndedShape(w: World, u: World, id: nat)
    requires id in w.calls && u.calls == w.calls && u.leases == w.leases && Around(w, u)
    requires forall o :: o != w.calls[id].session ==> SameRecord(w, u, o)
    ensures OneCall(w, Ended(u, id), id, w.calls[id])
  {
    hide FactoryRuns.Forward;
    var v := Ended(u, id);
    assert Around(w, v);
    assert forall o :: o != w.calls[id].session ==> SameRecord(w, u, o) ==> SameRecord(w, v, o);
  }

  lemma WaitingShape(w: World, u: World, id: nat, phase: Phase)
    requires id in w.calls && u.calls == w.calls && u.leases == w.leases && Around(w, u)
    requires forall o :: o != w.calls[id].session ==> SameRecord(w, u, o)
    ensures OneCall(w, Waiting(u, id, w.calls[id].(phase := phase)), id, w.calls[id])
  {
    hide FactoryRuns.Forward;
    var v := Waiting(u, id, w.calls[id].(phase := phase));
    assert Around(w, v);
    assert forall o :: o != w.calls[id].session ==> SameRecord(w, u, o) ==> SameRecord(w, v, o);
  }

  lemma StoredShape(w: World, s: string, record: Record)
    ensures Around(w, Stored(w, s, record))
    ensures forall o :: o != s ==> SameRecord(w, Stored(w, s, record), o)
  {
    SelfAround(w, Stored(w, s, record));
  }

  lemma GiveUpShape(w: World, u: World, id: nat, record: Record, via: Via)
    requires id in w.calls && u.calls == w.calls && u.leases == w.leases && u.stewards == w.stewards && u.st == w.st
    requires forall o :: o != w.calls[id].session ==> SameRecord(w, u, o)
    ensures OneCall(w, GiveUp(u, id, record, via), id, w.calls[id])
  {
    hide OneCall, Ended, Around;
    SelfAround(w, u);
    var failed := Stored(u, w.calls[id].session, record.(lastError := Some("refund failed")));
    SelfAround(w, failed);
    assert forall o :: o != w.calls[id].session ==> SameRecord(w, u, o) ==> SameRecord(w, failed, o);
    EndedShape(w, u, id);
    EndedShape(w, failed, id);
  }

  lemma SendShape(keccak: Keccak, w: World, u: World, id: nat, record: Record, via: Via)
    requires id in w.calls && u.calls == w.calls && u.leases == w.leases && u.stewards == w.stewards && u.st == w.st
    requires forall o :: o != w.calls[id].session ==> SameRecord(w, u, o)
    ensures OneCall(w, Send(keccak, u, id, w.calls[id], record, via), id, w.calls[id])
  {
    hide OneCall, Around, GiveUp, CheckRaw, Waiting;
    SelfAround(w, u);
    GiveUpShape(w, u, id, record, via);
    WaitingShape(w, u, id, AtSend(record, via));
  }

  lemma FinishShape(w: World, id: nat, seen: Record)
    requires FactoryRuns.Safe(w.st) && id in w.calls
    ensures OneCall(w, Finish(Stored(w, w.calls[id].session, seen), id), id, w.calls[id])
  {
    hide OneCall, FactoryRuns.Safe, FinalizeRefund, Ended, FactoryRuns.Forward;
    var c := w.calls[id];
    SafeSessions(w);
    FactoryRuns.RefundForward(w.st, c.session, c.now);
    var stored := Stored(w, c.session, seen);
    EndedShape(w, stored.(st := FinalizeRefund(stored.st, c.session, c.now).state), id);
  }

  lemma SafeSessions(w: World)
    requires FactoryRuns.Safe(w.st)
    ensures Invariants.SessionsOk(w.st)
  {
  }

  lemma DraftShape(keccak: Keccak, w: World, c: Call, pending: u64)
    requires Draft(keccak, w, c, pending).Some?
    ensures var u := Draft(keccak, w, c, pending).value.0;
      u.calls == w.calls && u.leases == w.leases && u.stewards == w.stewards && u.st == w.st
      && forall o :: o != c.session ==> SameRecord(w, u, o)
  {
    hide BuildDraft, ValidateDraft;
  }

  lemma ResumeShape(keccak: Keccak, w: World, id: nat, answer: Answer)
    requires FactoryRuns.Safe(w.st) && id in w.calls
    ensures OneCall(w, Resume(keccak, w, id, answer), id, w.calls[id])
  {
    hide OneCall, Around, FactoryRuns.Safe, Ended, GiveUp, Send, Waiting, Finish, Draft, WithSignature, ConfirmDepth, AfterSend, AfterConfirm;
    var c := w.calls[id];
    SelfAround(w, w);
    EndedShape(w, w, id);
    if Holds(w, c) {
      match c.phase
      case AtNonce =>
        if answer.PendingNonce? && Draft(keccak, w, c, answer.nonce).Some? {
          DraftShape(keccak, w, c, answer.nonce);
          var (next, plan) := Draft(keccak, w, c, answer.nonce).value;
          SelfAround(w, next);
          WaitingShape(w, next, id, AtKey(plan));
        }
      case AtKey(plan) =>
        GiveUpShape(w, w, id, plan, ByBroadcast);
        WaitingShape(w, w, id, AtSign(plan));
      case AtSign(plan) =>
        GiveUpShape(w, w, id, plan, ByBroadcast);
        if answer.Signed? && answer.yParity.Some? && WithSignature(keccak, plan, answer.yParity.value, answer.signature).Some? {
          var record := WithSignature(keccak, plan, answer.yParity.value, answer.signature).value;
          StoredShape(w, c.session, record);
          SendShape(keccak, w, Stored(w, c.session, record), id, record, ByBroadcast);
        }
      case AtSend(record, via) => SentShape(w, id, record, via, answer);
      case AtConfirm(record, hash, via) => ConfirmedShape(w, id, record, via, answer);
    }
  }

  lemma SentShape(w: World, id: nat, record: Record, via: Via, answer: Answer)
    requires id in w.calls
    ensures OneCall(w, AfterSend(w, id, w.calls[id], record, via, answer), id, w.calls[id])
  {
    hide OneCall, Around, GiveUp, Waiting;
    GiveUpShape(w, w, id, record, via);
    if answer.Hash? {
      var sent := record.(rpcTxHash := Some(answer.text), broadcastAt := Some(w.calls[id].now));
      StoredShape(w, w.calls[id].session, sent);
      WaitingShape(w, Stored(w, w.calls[id].session, sent), id, AtConfirm(sent, answer.text, via));
    }
  }

  lemma ConfirmedShape(w: World, id: nat, record: Record, via: Via, answer: Answer)
    requires FactoryRuns.Safe(w.st) && id in w.calls
    ensures OneCall(w, AfterConfirm(w, id, w.calls[id], record, via, answer), id, w.calls[id])
  {
    hide OneCall, Around, GiveUp, Finish, Ended, ConfirmDepth, FactoryRuns.Safe;
    GiveUpShape(w, w, id, record, via);
    if answer.Confirmation? {
      var seen := ConfirmDepth(record, w.calls[id].depth, answer).0;
      GiveUpShape(w, w, id, seen, via);
      StoredShape(w, w.calls[id].session, seen);
      EndedShape(w, Stored(w, w.calls[id].session, seen), id);
      FinishShape(w, id, seen);
    }
  }

  lemma BeginShape(keccak: Keccak, w: World, id: nat)
    requires id in w.calls
    ensures OneCall(w, Begin(keccak, w, id), id, w.calls[id])
  {
    hide OneCall, Around, Ended, Send, Waiting, Reconstruct, ValidateRefund;
    var c := w.calls[id];
    SelfAround(w, w);
    EndedShape(w, w, id);
    WaitingShape(w, w, id, AtNonce);
    if c.session in w.records {
      var record := w.records[c.session];
      SendShape(keccak, w, w, id, record, ByRaw);
      if record.rpcTxHash.Some? {
        WaitingShape(w, w, id, AtConfirm(record, record.rpcTxHash.value, ByHash));
      }
      if Reconstruct(keccak, record).Ok? {
        var rebuilt := record.(rawHex := Some(Reconstruct(keccak, record).value));
        StoredShape(w, c.session, rebuilt);
        SendShape(keccak, w, Stored(w, c.session, rebuilt), id, rebuilt, ByRaw);
      }
    }
  }

  // ---------------------------------------------------------------- what a step writes

  /// Whatever the step stored for its session, and the phase it went on to, are in order.
  predicate WroteTidily(keccak: Keccak, v: World, id: nat, s: string) {
    RecordTidy(keccak, v, s) && (id in v.calls ==> PhaseTidy(keccak, v.calls[id].phase))
  }

  lemma SignedPasses(keccak: Keccak, plan: Record, yParity: bool, signature: seq<byte>)
    requires WithSignature(keccak, plan, yParity, signature).Some?
    ensures CheckRaw(keccak, WithSignature(keccak, plan, yParity, signature).value).Ok?
  {
    var tx := RecordTransaction(keccak, plan).value;
    var raw := SignedRaw(tx, yParity, signature);
    ReadingInvertsPrinting(raw);
    SignedRawIsShort(tx, yParity, signature);
    assert "0x" <= Prefixed(raw);
    hide RecordTransaction, SignedRaw, KeccakHex, Decoded, Prefixed;
  }

  lemma RebuiltPasses(keccak: Keccak, record: Record)
    requires Reconstruct(keccak, record).Ok?
    ensures CheckRaw(keccak, record.(rawHex := Some(Reconstruct(keccak, record).value))).Ok?
  {
    RebuiltIsSignedForm(keccak, record);
    RebuiltBytesAreTheRecords(keccak, record, Decoded(Reconstruct(keccak, record).value).value);
  }

  lemma SameChecks(keccak: Keccak, x: Record, y: Record)
    requires x.rawHex == y.rawHex && x.rawHash == y.rawHash
    ensures CheckRaw(keccak, x) == CheckRaw(keccak, y) && Checked(keccak, x) == Checked(keccak, y)
  {
  }

  lemma GiveUpWrites(keccak: Keccak, w: World, id: nat, record: Record, via: Via)
    requires id in w.calls && RecordTidy(keccak, w, w.calls[id].session) && Checked(keccak, record)
    ensures WroteTidily(keccak, GiveUp(w, id, record, via), id, w.calls[id].session)
  {
    hide CheckRaw, Checked;
    SameChecks(keccak, record, record.(lastError := Some("refund failed")));
  }

  lemma SendWrites(keccak: Keccak, w: World, id: nat, c: Call, record: Record, via: Via)
    requires id in w.calls && w.calls[id] == c && RecordTidy(keccak, w, c.session) && Checked(keccak, record)
    ensures WroteTidily(keccak, Send(keccak, w, id, c, record, via), id, c.session)
  {
    hide CheckRaw, Checked, GiveUp;
    GiveUpWrites(keccak, w, id, record, via);
  }

  lemma NonceWrites(keccak: Keccak, w: World, id: nat, c: Call, pending: u64)
    requires id in w.calls && w.calls[id] == c && RecordTidy(keccak, w, c.session) && Draft(keccak, w, c, pending).Some?
    ensures var (next, plan) := Draft(keccak, w, c, pending).value;
      WroteTidily(keccak, Waiting(next, id, c.(phase := AtKey(plan))), id, c.session)
  {
    hide BuildDraft, ValidateDraft, CheckRaw;
    if c.session in w.records {
      var record := w.records[c.session];
      var config := ValidateDraft(keccak, record, ClaimOf(w, c.session), Steward(w, c.session), c.config.keyName).value;
      DraftIsBare(keccak, record.claimId, record.recipient, record.escrow, record.nonce, config);
    } else {
      DraftIsBare(keccak, ClaimOf(w, c.session), Steward(w, c.session), c.escrow, Reserve(w.nextNonce, pending), c.config);
    }
  }

  lemma DraftIsBare(keccak: Keccak, claimId: string, recipient: string, escrow: string, nonce: u64, config: Config)
    ensures var draft := BuildDraft(keccak, claimId, recipient, escrow, nonce, config); draft.Ok? ==> draft.value.rawHex.None?
  {
    hide RefundTransaction, KeccakHex;
  }

  lemma SentWrites(keccak: Keccak, w: World, id: nat, c: Call, record: Record, via: Via, answer: Answer)
    requires id in w.calls && w.calls[id] == c && RecordTidy(keccak, w, c.session) && CheckRaw(keccak, record).Ok?
    ensures WroteTidily(keccak, AfterSend(w, id, c, record, via, answer), id, c.session)
  {
    hide CheckRaw, GiveUp;
    GiveUpWrites(keccak, w, id, record, via);
    if answer.Hash? {
      SameChecks(keccak, record, record.(rpcTxHash := Some(answer.text), broadcastAt := Some(c.now)));
    }
  }

  lemma ConfirmedWrites(keccak: Keccak, w: World, id: nat, c: Call, record: Record, via: Via, answer: Answer)
    requires id in w.calls && w.calls[id] == c && RecordTidy(keccak, w, c.session) && Checked(keccak, record)
    ensures WroteTidily(keccak, AfterConfirm(w, id, c, record, via, answer), id, c.session)
  {
    hide CheckRaw, Checked, GiveUp, FinalizeRefund;
    GiveUpWrites(keccak, w, id, record, via);
    if answer.Confirmation? {
      var seen := ConfirmDepth(record, c.depth, answer).0;
      SameChecks(keccak, record, seen);
      GiveUpWrites(keccak, w, id, seen, via);
    }
  }

  lemma ResumeWrites(keccak: Keccak, w: World, id: nat, answer: Answer)
    requires id in w.calls && RecordTidy(keccak, w, w.calls[id].session) && PhaseTidy(keccak, w.calls[id].phase)
    ensures WroteTidily(keccak, Resume(keccak, w, id, answer), id, w.calls[id].session)
  {
    hide CheckRaw, GiveUp, Send, Draft, WithSignature, AfterSend, AfterConfirm;
    var c := w.calls[id];
    if Holds(w, c) {
      match c.phase
      case AtNonce =>
        if answer.PendingNonce? && Draft(keccak, w, c, answer.nonce).Some? {
          NonceWrites(keccak, w, id, c, answer.nonce);
        }
      case AtKey(plan) => GiveUpWrites(keccak, w, id, plan, ByBroadcast);
      case AtSign(plan) =>
        GiveUpWrites(keccak, w, id, plan, ByBroadcast);
        if answer.Signed? && answer.yParity.Some? && WithSignature(keccak, plan, answer.yParity.value, answer.signature).Some? {
          var record := WithSignature(keccak, plan, answer.yParity.value, answer.signature).value;
          SignedPasses(keccak, plan, answer.yParity.value, answer.signature);
          SendWrites(keccak, Stored(w, c.session, record), id, c, record, ByBroadcast);
        }
      case AtSend(record, via) => SentWrites(keccak, w, id, c, record, via, answer);
      case AtConfirm(record, hash, via) => ConfirmedWrites(keccak, w, id, c, record, via, answer);
    }
  }

  lemma BeginWrites(keccak: Keccak, w: World, id: nat)
    requires id in w.calls && w.calls[id].phase.AtNonce? && RecordTidy(keccak, w, w.calls[id].session)
    ensures WroteTidily(keccak, Begin(keccak, w, id), id, w.calls[id].session)
  {
    hide CheckRaw, Checked, Send, Reconstruct, ValidateRefund;
    var c := w.calls[id];
    if c.session in w.records {
      var record := w.records[c.session];
      SendWrites(keccak, w, id, c, record, ByRaw);
      if Reconstruct(keccak, record).Ok? {
        var rebuilt := record.(rawHex := Some(Reconstruct(keccak, record).value));
        RebuiltPasses(keccak, record);
        PassesIsChecked(keccak, rebuilt);
        SendWrites(keccak, Stored(w, c.session, rebuilt), id, c, rebuilt, ByRaw);
      }
    }
  }

  lemma PassesIsChecked(keccak: Keccak, r: Record)
    requires CheckRaw(keccak, r).Ok?
    ensures Checked(keccak, r)
  {
  }

  // ---------------------------------------------------------------- the parts of the invariant

  lemma PayingStays(w: World, v: World, s: string)
    requires Around(w, v) && Paying(w.st, s)
    ensures Paying(v.st, s) && ClaimOf(v, s) == ClaimOf(w, s) && Steward(v, s) == Steward(w, s)
  {
  }

  lemma CallsStayTidy(keccak: Keccak, w: World, v: World, id: nat)
    requires id in w.calls && OneCall(w, v, id, w.calls[id]) && forall o :: o in w.calls ==> CallTidy(keccak, w, w.calls[o])
    requires id in v.calls ==> PhaseTidy(keccak, v.calls[id].phase)
    ensures forall o :: o in v.calls ==> CallTidy(keccak, v, v.calls[o])
  {
    hide PhaseTidy, FactoryRuns.Forward, Paying;
    forall o | o in v.calls ensures CallTidy(keccak, v, v.calls[o]) {
      assert CallTidy(keccak, w, w.calls[o]);
      PayingStays(w, v, w.calls[o].session);
    }
  }

  lemma LeasesStayTidy(w: World, v: World, id: nat)
    requires id in w.calls && OneCall(w, v, id, w.calls[id]) && forall s :: LeaseTidy(w, s)
    ensures forall s :: LeaseTidy(v, s)
  {
    hide Around;
    forall s ensures LeaseTidy(v, s) {
      if s in v.leases {
        assert LeaseTidy(w, s);
        var h :| HolderOf(w, h, s);
        assert HolderOf(v, h, s);
      }
    }
  }

  lemma RecordsStayTidy(keccak: Keccak, w: World, v: World, id: nat)
    requires id in w.calls && OneCall(w, v, id, w.calls[id]) && RecordTidy(keccak, v, w.calls[id].session)
    requires forall s :: RecordTidy(keccak, w, s)
    ensures forall s :: RecordTidy(keccak, v, s)
  {
    hide Around, Checked;
    forall s ensures RecordTidy(keccak, v, s) {
      assert RecordTidy(keccak, w, s);
      if s != w.calls[id].session {
        assert SameRecord(w, v, s);
      }
    }
  }

  /// A draft of the same transaction validates as long as claim and steward are the same.
  lemma SameDraftValidates(keccak: Keccak, x: Record, y: Record, claimId: string, recipient: string)
    requires SameIdentity(x, y) && ValidateDraft(keccak, x, claimId, recipient, "").Ok?
    ensures ValidateDraft(keccak, y, claimId, recipient, "").Ok?
  {
    ValidatesByTransaction(keccak, x, claimId, recipient, "");
    ValidatesByTransaction(keccak, y, claimId, recipient, "");
    assert RecordTransaction(keccak, x) == RecordTransaction(keccak, y);
    hide ValidateDraft, RefundTransaction, KeccakHex, SigningPayload;
  }

  lemma DraftStaysOk(keccak: Keccak, w: World, v: World, s: string)
    requires DraftOk(keccak, w, s) && Around(w, v) && Keeps(w, v) && (s in v.records ==> s in w.records)
    ensures DraftOk(keccak, v, s)
  {
    hide ValidateDraft, Paying, FactoryRuns.Forward, SameIdentity;
    if s in v.records {
      PayingStays(w, v, s);
      SameDraftValidates(keccak, w.records[s], v.records[s], ClaimOf(w, s), Steward(w, s));
    }
  }

  // ---------------------------------------------------------------- continuing

  predicate KeysStay(w: World, v: World) {
    forall s :: s in v.records ==> s in w.records
  }

  /// Only a call that waits for a nonce can make a new record.
  lemma ResumeKeys(keccak: Keccak, w: World, id: nat, answer: Answer)
    requires id in w.calls && CallOk(w, w.calls[id]) && (w.calls[id].phase.AtNonce? ==> w.calls[id].session in w.records)
    ensures KeysStay(w, Resume(keccak, w, id, answer))
  {
    hide SameIdentity, CheckRaw, WithSignature, ConfirmDepth, FinalizeRefund, BuildDraft, ValidateDraft;
  }

  lemma NewDraftOk(keccak: Keccak, w: World, id: nat, c: Call, pending: u64, s: string)
    requires id in w.calls && w.calls[id] == c && c.session !in w.records && Draft(keccak, w, c, pending).Some? && Paying(w.st, c.session)
    requires DraftOk(keccak, w, s)
    ensures var (next, plan) := Draft(keccak, w, c, pending).value;
      DraftOk(keccak, Waiting(next, id, c.(phase := AtKey(plan))), s)
  {
    hide BuildDraft, ValidateDraft, Paying;
    var nonce := Reserve(w.nextNonce, pending);
    DraftValidates(keccak, ClaimOf(w, c.session), Steward(w, c.session), c.escrow, nonce, c.config, "");
  }

  lemma ResumeDraftOk(keccak: Keccak, w: World, id: nat, answer: Answer, s: string)
    requires Sound(w) && id in w.calls && Paying(w.st, w.calls[id].session) && DraftOk(keccak, w, s)
    ensures DraftOk(keccak, Resume(keccak, w, id, answer), s)
  {
    hide Sound, Keeps, DraftOk, Paying, Resume, Draft, Around;
    var c := w.calls[id];
    var v := Resume(keccak, w, id, answer);
    CallIsOk(w, id);
    OkIsSafe(w);
    ResumeKeeps(keccak, w, id, answer);
    ResumeShape(keccak, w, id, answer);
    ShapeIsAround(w, v, id, c);
    if c.phase.AtNonce? && c.session !in w.records {
      NonceDraftOk(keccak, w, id, answer, s);
    } else {
      ResumeKeys(keccak, w, id, answer);
      DraftStaysOk(keccak, w, v, s);
    }
  }

  lemma ShapeIsAround(w: World, v: World, id: nat, c: Call)
    requires OneCall(w, v, id, c)
    ensures Around(w, v)
  {
  }

  lemma NonceDraftOk(keccak: Keccak, w: World, id: nat, answer: Answer, s: string)
    requires id in w.calls && w.calls[id].phase.AtNonce? && w.calls[id].session !in w.records
    requires Paying(w.st, w.calls[id].session) && DraftOk(keccak, w, s)
    ensures DraftOk(keccak, Resume(keccak, w, id, answer), s)
  {
    hide Paying, Draft, ValidateDraft;
    var c := w.calls[id];
    if Holds(w, c) && answer.PendingNonce? && Draft(keccak, w, c, answer.nonce).Some? {
      NewDraftOk(keccak, w, id, c, answer.nonce, s);
    }
  }

  lemma TidyParts(keccak: Keccak, w: World, id: nat)
    requires Tidy(keccak, w) && id in w.calls
    ensures CallTidy(keccak, w, w.calls[id]) && RecordTidy(keccak, w, w.calls[id].session)
    ensures PhaseTidy(keccak, w.calls[id].phase) && Paying(w.st, w.calls[id].session)
  {
  }

  lemma ResumeTidy(keccak: Keccak, w: World, id: nat, answer: Answer)
    requires Sound(w) && Tidy(keccak, w) && id in w.calls
    ensures Tidy(keccak, Resume(keccak, w, id, answer))
  {
    hide Sound, CallTidy, LeaseTidy, RecordTidy, DraftOk, OneCall, Resume, PhaseTidy, Paying;
    var v := Resume(keccak, w, id, answer);
    OkIsSafe(w);
    TidyParts(keccak, w, id);
    ResumeShape(keccak, w, id, answer);
    ResumeWrites(keccak, w, id, answer);
    CallsStayTidy(keccak, w, v, id);
    LeasesStayTidy(w, v, id);
    RecordsStayTidy(keccak, w, v, id);
    forall s ensures DraftOk(keccak, v, s) {
      ResumeDraftOk(keccak, w, id, answer, s);
    }
  }

  // ---------------------------------------------------------------- commands

  lemma InstalledTidy(keccak: Keccak, w: World, id: nat, s: string, lease: Lease, c: Call)
    requires Tidy(keccak, w) && id !in w.calls && c.session == s && c.generation == lease.generation && c.phase.AtNonce?
    requires 1 <= lease.generation <= U64_MAX && Paying(w.st, s)
    ensures Tidy(keccak, Installed(w, id, s, lease, c))
  {
    hide Paying, PhaseTidy, ValidateDraft, Checked;
    var v := Installed(w, id, s, lease, c);
    forall o | o in v.calls ensures CallTidy(keccak, v, v.calls[o]) {
      if o != id {
        assert CallTidy(keccak, w, w.calls[o]);
      } else {
        NonceIsTidy(keccak);
      }
    }
    forall o ensures LeaseTidy(v, o) && RecordTidy(keccak, v, o) && DraftOk(keccak, v, o) {
      assert LeaseTidy(w, o) && RecordTidy(keccak, w, o) && DraftOk(keccak, w, o);
      if o == s {
        assert HolderOf(v, id, s);
      } else if o in w.leases {
        var h :| HolderOf(w, h, o);
        assert HolderOf(v, h, o);
      }
    }
  }

  lemma NonceIsTidy(keccak: Keccak)
    ensures PhaseTidy(keccak, AtNonce)
  {
  }

  /// A change of the factory's state alone.
  lemma StateChangeTidy(keccak: Keccak, w: World, v: World)
    requires Tidy(keccak, w) && Around(w, v)
    requires v.records == w.records && v.calls == w.calls && v.leases == w.leases
    ensures Tidy(keccak, v)
  {
    hide Paying, PhaseTidy, ValidateDraft, Checked, Around;
    forall o | o in v.calls ensures CallTidy(keccak, v, v.calls[o]) {
      assert CallTidy(keccak, w, w.calls[o]);
      PayingStays(w, v, w.calls[o].session);
    }
    forall o ensures LeaseTidy(v, o) && RecordTidy(keccak, v, o) && DraftOk(keccak, v, o) {
      assert LeaseTidy(w, o) && RecordTidy(keccak, w, o) && DraftOk(keccak, w, o);
      if o in w.leases {
        var h :| HolderOf(w, h, o);
        assert HolderOf(v, h, o);
      }
      if o in w.records {
        PayingStays(w, v, o);
      }
    }
  }

  lemma BeginDraftOk(keccak: Keccak, w: World, id: nat, s: string)
    requires Sound(w) && id in w.calls && Holds(w, w.calls[id]) && w.calls[id].phase.AtNonce? && DraftOk(keccak, w, s)
    ensures DraftOk(keccak, Begin(keccak, w, id), s)
  {
    hide Sound, Keeps, DraftOk, Begin, Around;
    BeginKeeps(keccak, w, id);
    BeginShape(keccak, w, id);
    ShapeIsAround(w, Begin(keccak, w, id), id, w.calls[id]);
    BeginKeys(keccak, w, id);
    DraftStaysOk(keccak, w, Begin(keccak, w, id), s);
  }

  lemma BeginKeys(keccak: Keccak, w: World, id: nat)
    requires id in w.calls
    ensures KeysStay(w, Begin(keccak, w, id))
  {
    hide CheckRaw, Reconstruct, ValidateRefund;
  }

  lemma BeginTidy(keccak: Keccak, w: World, id: nat)
    requires Sound(w) && Tidy(keccak, w) && id in w.calls && Holds(w, w.calls[id]) && w.calls[id].phase.AtNonce?
    ensures Tidy(keccak, Begin(keccak, w, id))
  {
    hide Sound, CallTidy, LeaseTidy, RecordTidy, DraftOk, OneCall, Begin, PhaseTidy, Paying;
    var v := Begin(keccak, w, id);
    TidyParts(keccak, w, id);
    BeginShape(keccak, w, id);
    BeginWrites(keccak, w, id);
    CallsStayTidy(keccak, w, v, id);
    LeasesStayTidy(w, v, id);
    RecordsStayTidy(keccak, w, v, id);
    forall s ensures DraftOk(keccak, v, s) {
      BeginDraftOk(keccak, w, id, s);
    }
  }

  lemma CheckedIsPaying(st: Factory.State, s: string, now: nat)
    requires FactoryRuns.Safe(st) && !ValidateRefund(st, s, now).Refused?
    ensures Paying(st, s)
  {
    assert Invariants.SessionOk(st, s);
  }

  lemma GenerationBound(w: World, session: string, now: nat)
    requires NextGeneration(w, session, now).Some?
    ensures 1 <= NextGeneration(w, session, now).value <= U64_MAX
  {
  }

  /// What `Acquire` does once a generation is found.
  function Due(w: World, session: string, now: nat): Factory.State {
    if session in w.inFlight then w.st
    else Factory.ApplyEvent(w.st, session, Factory.User, now, Factory.SessionExpired, "refund requested by verified EVM steward").state
  }

  lemma AcquireCases(keccak: Keccak, w: World, id: nat, session: string, now: nat)
    ensures var v := Acquire(keccak, w, id, session, now);
      var due := w.(st := Due(w, session, now));
      v == w || v == due
      || (NextGeneration(w, session, now).Some? && session in w.st.sessions && !ValidateRefund(due.st, session, now).Refused?
          && v == Begin(keccak, Installed(due, id, session, NewLease(NextGeneration(w, session, now).value, now),
                                          NewCall(w, session, NextGeneration(w, session, now).value, now)), id))
  {
    hide Begin, Factory.ApplyEvent, ValidateRefund, NextGeneration;
  }

  lemma DueIsAround(w: World, session: string, now: nat)
    requires Sound(w)
    ensures var due := w.(st := Due(w, session, now)); Around(w, due) && Sound(due) && Keeps(w, due) && FactoryRuns.Safe(due.st)
  {
    hide Sound, Keeps, Factory.ApplyEvent, Frozen.KeepsRefund, FactoryRuns.Safe, FactoryRuns.Forward;
    OkIsSafe(w);
    SafeSessions(w);
    KeepsSelf(w);
    SelfAround(w, w);
    var reason := "refund requested by verified EVM steward";
    ExpiryFacts(w.st, session, now, reason);
    SelfRefund(w.st);
    FactoryRuns.EventForward(w.st, session, Factory.User, now, Factory.SessionExpired, reason);
    StateChangeKeeps(w, Due(w, session, now));
  }

  lemma OpenTidy(keccak: Keccak, w: World, id: nat, s: string, lease: Lease, c: Call)
    requires Sound(w) && Tidy(keccak, w) && id !in w.calls && !ValidateRefund(w.st, s, c.now).Refused?
    requires c.session == s && c.generation == lease.generation && c.phase.AtNonce? && 1 <= lease.generation <= U64_MAX
    ensures Tidy(keccak, Begin(keccak, Installed(w, id, s, lease, c), id))
  {
    hide Sound, Begin, Tidy;
    CheckTellsRefunded(w, s, c.now);
    OkIsSafe(w);
    CheckedIsPaying(w.st, s, c.now);
    hide ValidateRefund, IsRefunded, Paying;
    if IsRefunded(w, s) {
      ReplayChangesNothing(keccak, w, id, s, lease, c);
    } else {
      InstallKeeps(w, id, s, lease, c);
      InstalledTidy(keccak, w, id, s, lease, c);
      BeginTidy(keccak, Installed(w, id, s, lease, c), id);
    }
  }

  lemma AcquireTidy(keccak: Keccak, w: World, id: nat, session: string, now: nat)
    requires Sound(w) && Tidy(keccak, w) && id !in w.calls
    ensures Tidy(keccak, Acquire(keccak, w, id, session, now))
  {
    hide Sound, Tidy, Acquire, Begin, Around, Due, ValidateRefund, NextGeneration, Keeps, FactoryRuns.Safe;
    var due := w.(st := Due(w, session, now));
    AcquireCases(keccak, w, id, session, now);
    DueIsAround(w, session, now);
    StateChangeTidy(keccak, w, due);
    var generation := NextGeneration(w, session, now);
    if generation.Some? && !ValidateRefund(due.st, session, now).Refused? {
      GenerationBound(w, session, now);
      OpenTidy(keccak, due, id, session, NewLease(generation.value, now), NewCall(w, session, generation.value, now));
    }
  }

  // ---------------------------------------------------------------- every step, every run

  lemma StepTidy(keccak: Keccak, w: World, step: Step)
    requires Sound(w) && Tidy(keccak, w) && Enabled(w, step)
    ensures Tidy(keccak, After(keccak, w, step))
  {
    hide Sound, Tidy, Acquire, Resume, FactoryRuns.After, FactoryRuns.Enabled, Around, FactoryRuns.Safe;
    match step
    case Elsewhere(s) =>
      ElsewhereAround(w, s);
      StateChangeTidy(keccak, w, After(keccak, w, step));
    case Reconfigure(escrow, config) =>
      SelfAround(w, After(keccak, w, step));
      StateChangeTidy(keccak, w, After(keccak, w, step));
    case ReleaseNonce(pending) =>
      SelfAround(w, After(keccak, w, step));
      StateChangeTidy(keccak, w, After(keccak, w, step));
    case Command(id, session, now) => AcquireTidy(keccak, w, id, session, now);
    case Continue(id, answer) => ResumeTidy(keccak, w, id, answer);
  }

  lemma ElsewhereAround(w: World, s: FactoryRuns.Step)
    requires Sound(w) && FactoryRuns.Enabled(w.st, s)
    ensures Around(w, w.(st := FactoryRuns.After(w.st, s)))
  {
    hide FactoryRuns.After, FactoryRuns.Enabled, FactoryRuns.Safe, FactoryRuns.Forward;
    OkIsSafe(w);
    FactoryRuns.StepForward(w.st, s);
  }

  lemma {:induction false} EveryRunIsTidy(keccak: Keccak, w: World, steps: seq<Step>)
    requires Sound(w) && Tidy(keccak, w) && CanRun(keccak, w, steps)
    ensures Sound(Run(keccak, w, steps)) && Tidy(keccak, Run(keccak, w, steps))
    decreases |steps|
  {
    hide Sound, Tidy, After, Enabled, Keeps;
    if steps != [] {
      StepKeeps(keccak, w, steps[0]);
      StepTidy(keccak, w, steps[0]);
      EveryRunIsTidy(keccak, After(keccak, w, steps[0]), steps[1..]);
    }
  }

  lemma StartIsTidy(keccak: Keccak, st: Factory.State, stewards: map<string, string>, escrow: string, config: Config, nextNonce: Option<u64>)
    ensures Tidy(keccak, Start(st, stewards, escrow, config, nextNonce))
  {
  }
}
