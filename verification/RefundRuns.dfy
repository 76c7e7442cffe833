/// What refund commands keep over every interleaving, lease takeovers and reused generations included.
module RefundRuns {
  import opened Bits
  import opened Escrow
  import opened Evm
  import Factory
  import FactoryRuns
  import Frozen
  import Hex
  import opened Limits
  import opened Options
  import opened RefundDraft
  import opened Refund
  import opened RlpEncoder

  // ---------------------------------------------------------------- identity

  /// The transaction a record commits to.
  predicate SameIdentity(x: Record, y: Record) {
    x.claimId == y.claimId && x.recipient == y.recipient && x.escrow == y.escrow && x.nonce == y.nonce
    && x.chainId == y.chainId && x.maxPriorityFee == y.maxPriorityFee && x.maxFee == y.maxFee && x.gasLimit == y.gasLimit
    && x.calldataHex == y.calldataHex && x.signingPayloadHash == y.signingPayloadHash
  }

  function PlanOf(phase: Phase): Option<Record> {
    match phase
    case AtNonce => None
    case AtKey(plan) => Some(plan)
    case AtSign(plan) => Some(plan)
    case AtSend(plan, _) => Some(plan)
    case AtConfirm(plan, _, _) => Some(plan)
  }

  /// A call that carries a record carries the stored one's transaction, live or superseded.
  predicate CallOk(w: World, c: Call) {
    (PlanOf(c.phase).Some? ==> c.session in w.records && SameIdentity(PlanOf(c.phase).value, w.records[c.session]))
    && (c.phase.AtConfirm? ==> c.phase.plan.rpcTxHash == Some(c.phase.hash))
  }

  ghost predicate CallsOk(w: World) {
    forall id :: id in w.calls ==> CallOk(w, w.calls[id])
  }

  // ---------------------------------------------------------------- nonces

  predicate Taken(next: Option<u64>, nonce: u64) {
    nonce < U64_MAX ==> next.Some? && nonce < next.value
  }

  /// No two drafts share a nonce, no draft shares one with a release, and all lie behind the cursor.
  ghost predicate NoncesOk(w: World) {
    (forall s :: s in w.records ==> Taken(w.nextNonce, w.records[s].nonce))
    && (forall n :: n in w.released ==> n <= U64_MAX && Taken(w.nextNonce, n))
    && (forall s, t :: s in w.records && t in w.records && s != t && w.records[s].nonce == w.records[t].nonce
          ==> w.records[s].nonce == U64_MAX)
    && (forall s :: s in w.records && w.records[s].nonce in w.released ==> w.records[s].nonce == U64_MAX)
  }

  // ---------------------------------------------------------------- refunds

  predicate IsRefunded(w: World, s: string) {
    s in w.st.sessions && w.st.sessions[s].payment == Factory.Refunded
  }

  /// A refunded session has its successful receipt on record, a time, and no command that could
  /// still write.
  predicate RefundedOk(w: World, s: string) {
    s !in w.leases && s in w.records && w.records[s].receiptStatus == Some(true) && w.records[s].rpcTxHash.Some?
    && s in w.st.claims && w.st.claims[s].refundedAt.Some?
  }

  ghost predicate AllRefundedOk(w: World) {
    forall s :: IsRefunded(w, s) ==> RefundedOk(w, s)
  }

  ghost predicate Sound(w: World) {
    FactoryRuns.Safe(w.st) && w.leases.Keys == w.inFlight && CallsOk(w) && NoncesOk(w) && AllRefundedOk(w)
  }

  // ---------------------------------------------------------------- what never changes

  /// A draft's transaction is written once; a refund's record and time are final.
  ghost predicate Keeps(w: World, v: World) {
    (forall s :: s in w.records ==> s in v.records && SameIdentity(w.records[s], v.records[s]))
    && (forall s :: IsRefunded(w, s) ==>
          IsRefunded(v, s) && s in w.records && v.records[s] == w.records[s] && s in w.st.claims && s in v.st.claims
          && v.st.claims[s].refundedAt == w.st.claims[s].refundedAt)
  }

  lemma KeepsSelf(w: World)
    requires Sound(w)
    ensures Keeps(w, w)
  {
    hide CallsOk, NoncesOk, FactoryRuns.Safe;
  }

  lemma KeepsTwice(u: World, v: World, w: World)
    requires Keeps(u, v) && Keeps(v, w)
    ensures Keeps(u, w)
  {
  }

  // ---------------------------------------------------------------- the three ways to write

  /// Storing a record of the same transaction for a session that is not refunded.
  lemma StoreSame(w: World, s: string, record: Record)
    requires Sound(w) && s in w.records && SameIdentity(record, w.records[s]) && !IsRefunded(w, s)
    ensures Sound(Stored(w, s, record)) && Keeps(w, Stored(w, s, record))
  {
    hide FactoryRuns.Safe, CallsOk, NoncesOk, AllRefundedOk, Keeps, SameIdentity;
    StoreKeepsCalls(w, s, record);
    StoreKeepsNonces(w, s, record);
    StoreKeepsRefunds(w, s, record);
  }

  lemma StoreKeepsCalls(w: World, s: string, record: Record)
    requires CallsOk(w) && s in w.records && SameIdentity(record, w.records[s])
    ensures CallsOk(Stored(w, s, record))
  {
    var v := Stored(w, s, record);
    forall id | id in v.calls ensures CallOk(v, v.calls[id]) {
      assert CallOk(w, w.calls[id]);
    }
  }

  lemma StoreKeepsNonces(w: World, s: string, record: Record)
    requires NoncesOk(w) && s in w.records && SameIdentity(record, w.records[s])
    ensures NoncesOk(Stored(w, s, record))
  {
  }

  lemma StoreKeepsRefunds(w: World, s: string, record: Record)
    requires AllRefundedOk(w) && s in w.records && SameIdentity(record, w.records[s]) && !IsRefunded(w, s)
    ensures AllRefundedOk(Stored(w, s, record)) && Keeps(w, Stored(w, s, record))
  {
    var v := Stored(w, s, record);
    forall o | IsRefunded(w, o)
      ensures RefundedOk(v, o) && o in w.records && v.records[o] == w.records[o]
    {
      assert RefundedOk(w, o);
    }
    forall o | IsRefunded(v, o) ensures RefundedOk(v, o) {
      assert IsRefunded(w, o);
    }
  }

  /// A step that leaves the records and nonces alone, checked part by part.
  predicate SameRecords(w: World, v: World) {
    v.records == w.records && v.nextNonce == w.nextNonce && v.released == w.released
  }

  predicate RefundStays(w: World, v: World, o: string) {
    IsRefunded(v, o) && o in v.st.claims && o in w.st.claims && v.st.claims[o].refundedAt == w.st.claims[o].refundedAt
  }

  ghost predicate RefundsStay(w: World, v: World) {
    forall o :: IsRefunded(w, o) ==> RefundStays(w, v, o)
  }

  lemma RecordsAlone(w: World, v: World)
    requires Sound(w) && SameRecords(w, v) && FactoryRuns.Safe(v.st) && v.leases.Keys == v.inFlight
    requires CallsOk(v) && AllRefundedOk(v) && RefundsStay(w, v)
    ensures Sound(v) && Keeps(w, v)
  {
    hide FactoryRuns.Safe, CallsOk;
    forall o | IsRefunded(w, o) ensures o in w.records {
      assert RefundedOk(w, o);
    }
  }

  lemma SameRecordsCalls(w: World, v: World)
    requires CallsOk(w) && SameRecords(w, v) && forall o :: o in v.calls ==> o in w.calls && v.calls[o] == w.calls[o]
    ensures CallsOk(v)
  {
    hide SameIdentity;
    forall o | o in v.calls ensures CallOk(v, v.calls[o]) {
      assert CallOk(w, w.calls[o]);
    }
  }

  lemma WaitSame(w: World, id: nat, c: Call)
    requires Sound(w) && CallOk(w, c)
    ensures Sound(Waiting(w, id, c)) && Keeps(w, Waiting(w, id, c))
  {
    var v := Waiting(w, id, c);
    KeepsSelf(w);
    hide FactoryRuns.Safe, NoncesOk;
    forall o | o in v.calls ensures CallOk(v, v.calls[o]) {
      if o != id {
        assert CallOk(w, w.calls[o]);
      }
      assert CallOk(v, v.calls[o]) <==> CallOk(w, v.calls[o]);
    }
    forall s | IsRefunded(v, s) ensures RefundedOk(v, s) {
      assert IsRefunded(w, s);
    }
  }

  lemma EndSame(w: World, id: nat)
    requires Sound(w) && id in w.calls
    ensures Sound(Ended(w, id)) && Keeps(w, Ended(w, id))
  {
    var v := Ended(w, id);
    hide FactoryRuns.Safe, CallsOk, SameIdentity, Keeps;
    SameRecordsCalls(w, v);
    EndRefunds(w, id);
    RecordsAlone(w, v);
  }

  lemma EndRefunds(w: World, id: nat)
    requires AllRefundedOk(w) && id in w.calls
    ensures AllRefundedOk(Ended(w, id)) && RefundsStay(w, Ended(w, id))
  {
    var v := Ended(w, id);
    forall s | IsRefunded(w, s) ensures RefundStays(w, v, s) {
      assert RefundedOk(w, s);
    }
    forall s | IsRefunded(v, s) ensures RefundedOk(v, s) {
      assert IsRefunded(w, s) && RefundedOk(w, s);
    }
  }

  /// A live call's session is not refunded.
  lemma LiveIsNotRefunded(w: World, c: Call)
    requires Sound(w) && Holds(w, c)
    ensures !IsRefunded(w, c.session)
  {
    assert IsRefunded(w, c.session) ==> RefundedOk(w, c.session);
  }

  lemma GiveUpKeeps(w: World, id: nat, record: Record, via: Via)
    requires Sound(w) && id in w.calls && Holds(w, w.calls[id])
    requires w.calls[id].session in w.records && SameIdentity(record, w.records[w.calls[id].session])
    ensures Sound(GiveUp(w, id, record, via)) && Keeps(w, GiveUp(w, id, record, via))
  {
    var c := w.calls[id];
    hide Sound, Keeps;
    LiveIsNotRefunded(w, c);
    if via.ByBroadcast? {
      var failed := record.(lastError := Some("refund failed"));
      StoreSame(w, c.session, failed);
      EndSame(Stored(w, c.session, failed), id);
      KeepsTwice(w, Stored(w, c.session, failed), GiveUp(w, id, record, via));
    } else {
      EndSame(w, id);
    }
  }

  // ---------------------------------------------------------------- drafts

  lemma SelfIdentity(x: Record)
    ensures SameIdentity(x, x)
  {
  }

  /// A plan rebuilt from a stored draft is the stored draft's transaction.
  lemma ValidatedPlanIsTheDraft(keccak: Keccak, record: Record, claimId: string, recipient: string, keyName: string)
    requires ValidateDraft(keccak, record, claimId, recipient, keyName).Ok?
    ensures var config := ValidateDraft(keccak, record, claimId, recipient, keyName).value;
      var plan := BuildDraft(keccak, record.claimId, record.recipient, record.escrow, record.nonce, config);
      plan.Ok? && SameIdentity(plan.value, record)
  {
    hide RefundTransaction, KeccakHex;
  }

  lemma SignatureKeepsIdentity(keccak: Keccak, plan: Record, yParity: bool, signature: seq<byte>)
    ensures var signed := WithSignature(keccak, plan, yParity, signature);
      signed.Some? ==> SameIdentity(signed.value, plan) && signed.value.rawHex.Some? && signed.value.rawHash.Some?
  {
    hide RecordTransaction, SignedRaw, KeccakHex, Hex.Prefixed;
  }

  lemma DraftNonce(keccak: Keccak, claimId: string, recipient: string, escrow: string, nonce: u64, config: Config)
    ensures var draft := BuildDraft(keccak, claimId, recipient, escrow, nonce, config);
      draft.Ok? ==> draft.value.nonce == nonce
  {
    hide RefundTransaction, KeccakHex;
  }

  /// A new draft takes a nonce nobody has, unless nonces have run out.
  lemma NewDraftKeeps(w: World, s: string, draft: Record, pending: u64)
    requires Sound(w) && s !in w.records && draft.nonce == Reserve(w.nextNonce, pending)
    ensures var v := Stored(w.(nextNonce := Some(Following(draft.nonce))), s, draft);
      Sound(v) && Keeps(w, v)
  {
    hide FactoryRuns.Safe, SameIdentity;
    var v := Stored(w.(nextNonce := Some(Following(draft.nonce))), s, draft);
    NewDraftNonces(w, s, draft, pending);
    NewDraftCalls(w, s, draft);
    NewDraftRefunds(w, s, draft);
  }

  lemma NewDraftNonces(w: World, s: string, draft: Record, pending: u64)
    requires NoncesOk(w) && s !in w.records && draft.nonce == Reserve(w.nextNonce, pending)
    ensures NoncesOk(Stored(w.(nextNonce := Some(Following(draft.nonce))), s, draft))
  {
  }

  lemma NewDraftCalls(w: World, s: string, draft: Record)
    requires CallsOk(w) && s !in w.records
    ensures CallsOk(Stored(w.(nextNonce := Some(Following(draft.nonce))), s, draft))
  {
    var v := Stored(w.(nextNonce := Some(Following(draft.nonce))), s, draft);
    hide SameIdentity;
    forall id | id in v.calls ensures CallOk(v, v.calls[id]) {
      assert CallOk(w, w.calls[id]);
    }
  }

  lemma NewDraftRefunds(w: World, s: string, draft: Record)
    requires AllRefundedOk(w) && s !in w.records
    ensures var v := Stored(w.(nextNonce := Some(Following(draft.nonce))), s, draft);
      AllRefundedOk(v) && Keeps(w, v)
  {
    var v := Stored(w.(nextNonce := Some(Following(draft.nonce))), s, draft);
    forall o | IsRefunded(w, o) ensures RefundedOk(v, o) && o in w.records && v.records[o] == w.records[o] {
      assert RefundedOk(w, o);
    }
    forall o | IsRefunded(v, o) ensures RefundedOk(v, o) {
      assert IsRefunded(w, o);
    }
    forall o | o in w.records ensures SameIdentity(w.records[o], v.records[o]) {
    }
  }

  lemma DraftKeeps(keccak: Keccak, w: World, c: Call, pending: u64)
    requires Sound(w) && Draft(keccak, w, c, pending).Some?
    ensures var (v, plan) := Draft(keccak, w, c, pending).value;
      Sound(v) && Keeps(w, v) && c.session in v.records && SameIdentity(plan, v.records[c.session]) && v.calls == w.calls
      && v.leases == w.leases
  {
    hide Sound, Keeps, BuildDraft, ValidateDraft, SameIdentity;
    if c.session in w.records {
      var record := w.records[c.session];
      KeepsSelf(w);
      ValidatedPlanIsTheDraft(keccak, record, ClaimOf(w, c.session), Steward(w, c.session), c.config.keyName);
    } else {
      var nonce := Reserve(w.nextNonce, pending);
      DraftNonce(keccak, ClaimOf(w, c.session), Steward(w, c.session), c.escrow, nonce, c.config);
      var draft := BuildDraft(keccak, ClaimOf(w, c.session), Steward(w, c.session), c.escrow, nonce, c.config).value;
      NewDraftKeeps(w, c.session, draft, pending);
      SelfIdentity(draft);
    }
  }

  // ---------------------------------------------------------------- continuations

  lemma SendKeeps(keccak: Keccak, w: World, id: nat, c: Call, record: Record, via: Via)
    requires Sound(w) && id in w.calls && Holds(w, w.calls[id]) && w.calls[id].session == c.session
    requires c.session in w.records && SameIdentity(record, w.records[c.session])
    ensures Sound(Send(keccak, w, id, c, record, via)) && Keeps(w, Send(keccak, w, id, c, record, via))
  {
    hide Sound, Keeps, CheckRaw, SameIdentity, GiveUp, Waiting;
    if CheckRaw(keccak, record).Err? {
      GiveUpKeeps(w, id, record, via);
    } else {
      WaitSame(w, id, c.(phase := AtSend(record, via)));
    }
  }

  lemma AfterSendKeeps(w: World, id: nat, c: Call, record: Record, via: Via, answer: Answer)
    requires Sound(w) && id in w.calls && w.calls[id] == c && Holds(w, c)
    requires c.session in w.records && SameIdentity(record, w.records[c.session])
    ensures Sound(AfterSend(w, id, c, record, via, answer)) && Keeps(w, AfterSend(w, id, c, record, via, answer))
  {
    hide Sound, Keeps, GiveUp;
    LiveIsNotRefunded(w, c);
    GiveUpKeeps(w, id, record, via);
    if answer.Hash? {
      var sent := record.(rpcTxHash := Some(answer.text), broadcastAt := Some(c.now));
      StoreSame(w, c.session, sent);
      WaitSame(Stored(w, c.session, sent), id, c.(phase := AtConfirm(sent, answer.text, via)));
      KeepsTwice(w, Stored(w, c.session, sent), Waiting(Stored(w, c.session, sent), id, c.(phase := AtConfirm(sent, answer.text, via))));
    }
  }

  lemma ReceiptKeepsIdentity(record: Record, depth: nat, answer: Answer)
    requires answer.Confirmation?
    ensures var (seen, confirmed) := ConfirmDepth(record, depth, answer);
      SameIdentity(seen, record) && seen.rpcTxHash == record.rpcTxHash && seen.rawHex == record.rawHex
      && (confirmed == Some(true) ==> seen.receiptStatus == Some(true))
  {
  }

  /// Recording a confirmed refund: the session is refunded, its receipt is stored, its lease is gone.
  lemma FinishKeeps(w: World, id: nat)
    requires Sound(w) && id in w.calls && Holds(w, w.calls[id]) && w.calls[id].session in w.records
    requires w.records[w.calls[id].session].receiptStatus == Some(true) && w.records[w.calls[id].session].rpcTxHash.Some?
    ensures Sound(Finish(w, id)) && Keeps(w, Finish(w, id))
  {
    var c, v := w.calls[id], Finish(w, id);
    OkCalls(w);
    hide Sound, Finish, Keeps, CallsOk, AllRefundedOk, RefundsStay, SameRecords;
    FinishShape(w, id);
    SameRecordsCalls(w, v);
    FinishRefunds(w, id);
    RecordsAlone(w, v);
  }

  lemma FinishRefunds(w: World, id: nat)
    requires Sound(w) && id in w.calls && Holds(w, w.calls[id]) && w.calls[id].session in w.records
    requires w.records[w.calls[id].session].receiptStatus == Some(true) && w.records[w.calls[id].session].rpcTxHash.Some?
    ensures AllRefundedOk(Finish(w, id)) && RefundsStay(w, Finish(w, id))
  {
    var c, v := w.calls[id], Finish(w, id);
    LiveIsNotRefunded(w, c);
    hide FactoryRuns.Safe, FinalizeRefund, NoncesOk, CallsOk;
    OkIsSafe(w);
    Frozen.FinalizeFacts(w.st, c.session, c.now);
    forall o | IsRefunded(v, o) ensures RefundedOk(v, o) {
      if o != c.session {
        assert Frozen.KeepsRefund(w.st, v.st, o);
        assert IsRefunded(w, o) && RefundedOk(w, o);
      }
    }
    forall o | IsRefunded(w, o) ensures RefundStays(w, v, o) {
      assert Frozen.KeepsRefund(w.st, v.st, o) && RefundedOk(w, o);
    }
  }

  lemma OkCalls(w: World)
    requires Sound(w)
    ensures CallsOk(w)
  {
  }

  lemma FinishShape(w: World, id: nat)
    requires Sound(w) && id in w.calls
    ensures var v := Finish(w, id);
      SameRecords(w, v) && FactoryRuns.Safe(v.st) && v.leases.Keys == v.inFlight
      && forall o :: o in v.calls ==> o in w.calls && v.calls[o] == w.calls[o]
  {
    hide FactoryRuns.Safe, FinalizeRefund, CallsOk, NoncesOk, AllRefundedOk;
    Frozen.FinalizeFacts(w.st, w.calls[id].session, w.calls[id].now);
  }

  lemma AfterConfirmKeeps(w: World, id: nat, c: Call, record: Record, via: Via, answer: Answer)
    requires Sound(w) && id in w.calls && w.calls[id] == c && Holds(w, c)
    requires c.session in w.records && SameIdentity(record, w.records[c.session]) && record.rpcTxHash.Some?
    ensures Sound(AfterConfirm(w, id, c, record, via, answer)) && Keeps(w, AfterConfirm(w, id, c, record, via, answer))
  {
    hide Sound, Keeps, GiveUp, Finish, ConfirmDepth, Ended;
    LiveIsNotRefunded(w, c);
    if !answer.Confirmation? {
      GiveUpKeeps(w, id, record, via);
    } else {
      ReceiptKeepsIdentity(record, c.depth, answer);
      var (seen, confirmed) := ConfirmDepth(record, c.depth, answer);
      GiveUpKeeps(w, id, seen, via);
      var stored := Stored(w, c.session, seen);
      StoreSame(w, c.session, seen);
      EndSame(stored, id);
      if confirmed == Some(true) {
        FinishKeeps(stored, id);
        KeepsTwice(w, stored, Finish(stored, id));
      } else {
        KeepsTwice(w, stored, Ended(stored, id));
      }
    }
  }

  lemma NonceArrives(keccak: Keccak, w: World, id: nat, c: Call, pending: u64)
    requires Sound(w) && id in w.calls && w.calls[id] == c && Holds(w, c) && Draft(keccak, w, c, pending).Some?
    ensures var (next, plan) := Draft(keccak, w, c, pending).value;
      Sound(Waiting(next, id, c.(phase := AtKey(plan)))) && Keeps(w, Waiting(next, id, c.(phase := AtKey(plan))))
  {
    hide Sound, Keeps, Draft, Waiting, SameIdentity;
    DraftKeeps(keccak, w, c, pending);
    var (next, plan) := Draft(keccak, w, c, pending).value;
    WaitSame(next, id, c.(phase := AtKey(plan)));
    KeepsTwice(w, next, Waiting(next, id, c.(phase := AtKey(plan))));
  }

  lemma SignatureArrives(keccak: Keccak, w: World, id: nat, c: Call, plan: Record, yParity: bool, signature: seq<byte>)
    requires Sound(w) && id in w.calls && w.calls[id] == c && Holds(w, c)
    requires c.session in w.records && SameIdentity(plan, w.records[c.session])
    requires WithSignature(keccak, plan, yParity, signature).Some?
    ensures var record := WithSignature(keccak, plan, yParity, signature).value;
      var v := Send(keccak, Stored(w, c.session, record), id, c, record, ByBroadcast);
      Sound(v) && Keeps(w, v)
  {
    hide Sound, Keeps, WithSignature, Send;
    SignatureKeepsIdentity(keccak, plan, yParity, signature);
    LiveIsNotRefunded(w, c);
    var record := WithSignature(keccak, plan, yParity, signature).value;
    var stored := Stored(w, c.session, record);
    StoreSame(w, c.session, record);
    SendKeeps(keccak, stored, id, c, record, ByBroadcast);
    KeepsTwice(w, stored, Send(keccak, stored, id, c, record, ByBroadcast));
  }

  lemma CallIsOk(w: World, id: nat)
    requires Sound(w) && id in w.calls
    ensures CallOk(w, w.calls[id])
  {
  }

  lemma ResumeKeeps(keccak: Keccak, w: World, id: nat, answer: Answer)
    requires Sound(w) && id in w.calls
    ensures Sound(Resume(keccak, w, id, answer)) && Keeps(w, Resume(keccak, w, id, answer))
  {
    hide Sound, Keeps, Ended, GiveUp, Draft, Waiting, WithSignature, Send, AfterSend, AfterConfirm, SameIdentity;
    var c := w.calls[id];
    CallIsOk(w, id);
    EndSame(w, id);
    if Holds(w, c) {
      match c.phase
      case AtNonce =>
        if answer.PendingNonce? && Draft(keccak, w, c, answer.nonce).Some? {
          NonceArrives(keccak, w, id, c, answer.nonce);
        }
      case AtKey(plan) =>
        GiveUpKeeps(w, id, plan, ByBroadcast);
        WaitSame(w, id, c.(phase := AtSign(plan)));
      case AtSign(plan) =>
        GiveUpKeeps(w, id, plan, ByBroadcast);
        if answer.Signed? && answer.yParity.Some? && WithSignature(keccak, plan, answer.yParity.value, answer.signature).Some? {
          SignatureArrives(keccak, w, id, c, plan, answer.yParity.value, answer.signature);
        }
      case AtSend(record, via) => AfterSendKeeps(w, id, c, record, via, answer);
      case AtConfirm(record, hash, via) => AfterConfirmKeeps(w, id, c, record, via, answer);
    }
  }

  // ---------------------------------------------------------------- commands

  lemma BeginKeeps(keccak: Keccak, w: World, id: nat)
    requires Sound(w) && id in w.calls && Holds(w, w.calls[id]) && w.calls[id].phase.AtNonce?
    ensures Sound(Begin(keccak, w, id)) && Keeps(w, Begin(keccak, w, id))
  {
    hide Sound, Keeps, Ended, Waiting, Send, ValidateRefund, Reconstruct, SameIdentity;
    var c := w.calls[id];
    CallIsOk(w, id);
    EndSame(w, id);
    LiveIsNotRefunded(w, c);
    NonceIsOk(w, c);
    WaitSame(w, id, c.(phase := AtNonce));
    if c.session in w.records {
      var record := w.records[c.session];
      SelfIdentity(record);
      SendKeeps(keccak, w, id, c, record, ByRaw);
      if record.rpcTxHash.Some? {
        WaitSame(w, id, c.(phase := AtConfirm(record, record.rpcTxHash.value, ByHash)));
      }
      if Reconstruct(keccak, record).Ok? {
        var rebuilt := record.(rawHex := Some(Reconstruct(keccak, record).value));
        RebuiltIdentity(record, rebuilt.rawHex);
        StoreSame(w, c.session, rebuilt);
        SelfIdentity(rebuilt);
        SendKeeps(keccak, Stored(w, c.session, rebuilt), id, c, rebuilt, ByRaw);
        KeepsTwice(w, Stored(w, c.session, rebuilt), Send(keccak, Stored(w, c.session, rebuilt), id, c, rebuilt, ByRaw));
      }
    }
  }

  lemma NonceIsOk(w: World, c: Call)
    ensures CallOk(w, c.(phase := AtNonce))
  {
  }

  lemma RebuiltIdentity(record: Record, raw: Option<string>)
    ensures SameIdentity(record.(rawHex := raw), record)
  {
  }

  /// A change of the factory's state that leaves refunds alone.
  lemma StateChangeKeeps(w: World, st: Factory.State)
    requires Sound(w) && FactoryRuns.Safe(st) && forall o :: Frozen.KeepsRefund(w.st, st, o)
    ensures Sound(w.(st := st)) && Keeps(w, w.(st := st))
  {
    var v := w.(st := st);
    hide FactoryRuns.Safe, NoncesOk, CallsOk, Frozen.KeepsRefund, SameIdentity, Keeps;
    SameRecordsCalls(w, v);
    forall o | IsRefunded(v, o) ensures RefundedOk(v, o) {
      StateKeepsOne(w, st, o);
    }
    forall o | IsRefunded(w, o) ensures RefundStays(w, v, o) {
      StateKeepsOne(w, st, o);
    }
    RecordsAlone(w, v);
  }

  lemma StateKeepsOne(w: World, st: Factory.State, o: string)
    requires AllRefundedOk(w) && Frozen.KeepsRefund(w.st, st, o)
    ensures var v := w.(st := st);
      (IsRefunded(v, o) ==> RefundedOk(v, o)) && (IsRefunded(w, o) ==> RefundStays(w, v, o))
  {
    assert IsRefunded(w, o) ==> RefundedOk(w, o);
  }

  /// The lease and the call a command gets with a generation.
  function NewLease(generation: nat, now: nat): Lease {
    Lease(generation, if now + REFUND_COMMAND_LEASE_MS < U64_MAX then now + REFUND_COMMAND_LEASE_MS else U64_MAX)
  }

  function NewCall(w: World, session: string, generation: nat, now: nat): Call {
    Call(session, generation, now, w.escrow, w.config, w.st.depth, AtNonce)
  }

  function Installed(w: World, id: nat, session: string, lease: Lease, c: Call): World {
    w.(leases := w.leases[session := lease], inFlight := w.inFlight + {session}, calls := w.calls[id := c])
  }

  lemma InstallKeeps(w: World, id: nat, session: string, lease: Lease, c: Call)
    requires Sound(w) && id !in w.calls && c.session == session && c.phase.AtNonce? && !IsRefunded(w, session)
    ensures Sound(Installed(w, id, session, lease, c)) && Keeps(w, Installed(w, id, session, lease, c))
  {
    var v := Installed(w, id, session, lease, c);
    hide FactoryRuns.Safe, CallsOk, RefundedOk, SameIdentity, Keeps, RefundsStay;
    InstalledCalls(w, id, session, lease, c);
    InstalledRefunds(w, id, session, lease, c);
    RecordsAlone(w, v);
  }

  lemma InstalledCalls(w: World, id: nat, session: string, lease: Lease, c: Call)
    requires CallsOk(w) && c.phase.AtNonce?
    ensures CallsOk(Installed(w, id, session, lease, c))
  {
    var v := Installed(w, id, session, lease, c);
    hide SameIdentity;
    forall o | o in v.calls ensures CallOk(v, v.calls[o]) {
      if o != id {
        assert CallOk(w, w.calls[o]);
      }
    }
  }

  lemma InstalledRefunds(w: World, id: nat, session: string, lease: Lease, c: Call)
    requires AllRefundedOk(w) && !IsRefunded(w, session)
    ensures AllRefundedOk(Installed(w, id, session, lease, c)) && RefundsStay(w, Installed(w, id, session, lease, c))
  {
    var v := Installed(w, id, session, lease, c);
    forall s | IsRefunded(v, s) ensures RefundedOk(v, s) {
      assert IsRefunded(w, s) && RefundedOk(w, s);
    }
    forall s | IsRefunded(w, s) ensures s in w.st.claims {
      assert RefundedOk(w, s);
    }
  }

  /// A command for a refunded session answers at once and leaves no lease behind.
  lemma ReplayChangesNothing(keccak: Keccak, w: World, id: nat, session: string, lease: Lease, c: Call)
    requires Sound(w) && id !in w.calls && IsRefunded(w, session)
    requires c.session == session && c.generation == lease.generation && ValidateRefund(w.st, session, c.now).Already?
    ensures Begin(keccak, Installed(w, id, session, lease, c), id) == w
  {
    assert RefundedOk(w, session);
    InFlightHasLease(w, session);
    hide ValidateRefund, Sound, IsRefunded, RefundedOk, Send, Reconstruct;
    InstallAndEnd(w, id, session, lease, c);
  }

  lemma InstallAndEnd(w: World, id: nat, session: string, lease: Lease, c: Call)
    requires id !in w.calls && session !in w.leases && session !in w.inFlight
    requires c.session == session && c.generation == lease.generation
    ensures Ended(Installed(w, id, session, lease, c), id) == w
  {
    assert w.leases[session := lease] - {session} == w.leases;
    assert w.inFlight + {session} - {session} == w.inFlight;
    assert w.calls[id := c] - {id} == w.calls;
  }

  lemma InFlightHasLease(w: World, session: string)
    requires Sound(w) && session !in w.leases
    ensures session !in w.inFlight
  {
  }

  lemma AcquireKeeps(keccak: Keccak, w: World, id: nat, session: string, now: nat)
    requires Sound(w) && id !in w.calls
    ensures Sound(Acquire(keccak, w, id, session, now)) && Keeps(w, Acquire(keccak, w, id, session, now))
  {
    hide Sound, Keeps, Begin, Factory.ApplyEvent, Frozen.KeepsRefund, FactoryRuns.Safe, ValidateRefund, NextGeneration;
    KeepsSelf(w);
    OkIsSafe(w);
    var reason := "refund requested by verified EVM steward";
    var due := if session in w.inFlight then w.st
      else Factory.ApplyEvent(w.st, session, Factory.User, now, Factory.SessionExpired, reason).state;
    ExpiryFacts(w.st, session, now, reason);
    SelfRefund(w.st);
    StateChangeKeeps(w, due);
    var generation := NextGeneration(w, session, now);
    if generation.Some? && session in w.st.sessions && !ValidateRefund(due, session, now).Refused? {
      var lease := Lease(generation.value, if now + REFUND_COMMAND_LEASE_MS < U64_MAX then now + REFUND_COMMAND_LEASE_MS else U64_MAX);
      var c := Call(session, generation.value, now, w.escrow, w.config, w.st.depth, AtNonce);
      OpenKeeps(keccak, w.(st := due), id, session, lease, c);
      KeepsTwice(w, w.(st := due), Begin(keccak, Installed(w.(st := due), id, session, lease, c), id));
    }
  }

  lemma OpenKeeps(keccak: Keccak, w: World, id: nat, session: string, lease: Lease, c: Call)
    requires Sound(w) && id !in w.calls && !ValidateRefund(w.st, session, c.now).Refused?
    requires c.session == session && c.generation == lease.generation && c.phase.AtNonce?
    ensures var v := Begin(keccak, Installed(w, id, session, lease, c), id); Sound(v) && Keeps(w, v)
  {
    hide Sound, Keeps, Begin;
    CheckTellsRefunded(w, session, c.now);
    hide ValidateRefund, IsRefunded;
    KeepsSelf(w);
    if IsRefunded(w, session) {
      ReplayChangesNothing(keccak, w, id, session, lease, c);
    } else {
      var installed := Installed(w, id, session, lease, c);
      InstallKeeps(w, id, session, lease, c);
      BeginKeeps(keccak, installed, id);
      KeepsTwice(w, installed, Begin(keccak, installed, id));
    }
  }

  lemma OkIsSafe(w: World)
    requires Sound(w)
    ensures FactoryRuns.Safe(w.st)
  {
  }

  lemma CheckTellsRefunded(w: World, session: string, now: nat)
    requires !ValidateRefund(w.st, session, now).Refused?
    ensures IsRefunded(w, session) <==> ValidateRefund(w.st, session, now).Already?
  {
  }

  lemma ExpiryFacts(st: Factory.State, session: string, now: nat, reason: string)
    requires FactoryRuns.Safe(st)
    ensures var due := Factory.ApplyEvent(st, session, Factory.User, now, Factory.SessionExpired, reason).state;
      FactoryRuns.Safe(due) && forall o :: Frozen.KeepsRefund(st, due, o)
  {
    FactoryRuns.EventKeepsSafe(st, session, Factory.User, now, Factory.SessionExpired, reason);
    var due := Factory.ApplyEvent(st, session, Factory.User, now, Factory.SessionExpired, reason).state;
    hide Factory.ApplyEvent, Frozen.KeepsRefund;
    forall o ensures Frozen.KeepsRefund(st, due, o) {
      Frozen.EventKeepsRefund(st, session, Factory.User, now, Factory.SessionExpired, reason, o);
    }
  }

  lemma SelfRefund(st: Factory.State)
    requires FactoryRuns.Safe(st)
    ensures forall o :: Frozen.KeepsRefund(st, st, o)
  {
    hide Frozen.KeepsRefund;
    forall o ensures Frozen.KeepsRefund(st, st, o) {
      Frozen.UntouchedKeepsRefund(st, st, o);
    }
  }

  // ---------------------------------------------------------------- every step, every run

  lemma ReleaseNonceKeeps(w: World, pending: u64)
    requires Sound(w)
    ensures var nonce := Reserve(w.nextNonce, pending);
      var v := w.(nextNonce := Some(Following(nonce)), released := w.released + {nonce});
      Sound(v) && Keeps(w, v) && (nonce in w.released ==> nonce == U64_MAX)
  {
    var nonce := Reserve(w.nextNonce, pending);
    var v := w.(nextNonce := Some(Following(nonce)), released := w.released + {nonce});
    KeepsSelf(w);
    ReleasedNonces(w, pending);
    hide FactoryRuns.Safe, NoncesOk;
    forall id | id in v.calls ensures CallOk(v, v.calls[id]) {
      assert CallOk(w, w.calls[id]);
    }
    forall o | IsRefunded(v, o) ensures RefundedOk(v, o) {
      assert IsRefunded(w, o) && RefundedOk(w, o);
    }
  }

  lemma ReleasedNonces(w: World, pending: u64)
    requires NoncesOk(w)
    ensures var nonce := Reserve(w.nextNonce, pending);
      NoncesOk(w.(nextNonce := Some(Following(nonce)), released := w.released + {nonce}))
      && (nonce in w.released ==> nonce == U64_MAX)
  {
  }

  lemma ReconfigureKeeps(w: World, escrow: string, config: Config)
    requires Sound(w)
    ensures Sound(w.(escrow := escrow, config := config)) && Keeps(w, w.(escrow := escrow, config := config))
  {
    var v := w.(escrow := escrow, config := config);
    KeepsSelf(w);
    hide FactoryRuns.Safe, SameIdentity;
    forall id | id in v.calls ensures CallOk(v, v.calls[id]) {
      assert CallOk(w, w.calls[id]);
    }
    forall o | IsRefunded(v, o) ensures RefundedOk(v, o) {
      assert IsRefunded(w, o) && RefundedOk(w, o);
    }
  }

  lemma ElsewhereKeeps(w: World, s: FactoryRuns.Step)
    requires Sound(w) && FactoryRuns.Enabled(w.st, s) && !s.RefundSession?
    ensures var v := w.(st := FactoryRuns.After(w.st, s)); Sound(v) && Keeps(w, v)
  {
    var next := FactoryRuns.After(w.st, s);
    OkIsSafe(w);
    hide Sound, Keeps, Frozen.KeepsRefund, FactoryRuns.After;
    FactoryRuns.StepKeepsSafe(w.st, s);
    forall o ensures Frozen.KeepsRefund(w.st, next, o) {
      Frozen.StepKeepsRefund(w.st, s, o);
    }
    StateChangeKeeps(w, next);
  }

  /// Every step of every command, superseded or not, keeps the invariants, never rewrites a draft's
  /// transaction, and never touches a refund that is done.
  lemma StepKeeps(keccak: Keccak, w: World, step: Step)
    requires Sound(w) && Enabled(w, step)
    ensures Sound(After(keccak, w, step)) && Keeps(w, After(keccak, w, step))
  {
    hide Sound, Keeps, Acquire, Resume, FactoryRuns.After, FactoryRuns.Enabled;
    match step
    case Elsewhere(s) => ElsewhereKeeps(w, s);
    case Reconfigure(escrow, config) => ReconfigureKeeps(w, escrow, config);
    case ReleaseNonce(pending) => ReleaseNonceKeeps(w, pending);
    case Command(id, session, now) => AcquireKeeps(keccak, w, id, session, now);
    case Continue(id, answer) => ResumeKeeps(keccak, w, id, answer);
  }

  ghost predicate CanRun(keccak: Keccak, w: World, steps: seq<Step>)
    decreases |steps|
  {
    steps == [] || (Enabled(w, steps[0]) && CanRun(keccak, After(keccak, w, steps[0]), steps[1..]))
  }

  ghost function Run(keccak: Keccak, w: World, steps: seq<Step>): World
    requires CanRun(keccak, w, steps)
    decreases |steps|
  {
    if steps == [] then w else Run(keccak, After(keccak, w, steps[0]), steps[1..])
  }

  lemma {:induction false} EveryRunKeeps(keccak: Keccak, w: World, steps: seq<Step>)
    requires Sound(w) && CanRun(keccak, w, steps)
    ensures Sound(Run(keccak, w, steps)) && Keeps(w, Run(keccak, w, steps))
    decreases |steps|
  {
    hide Sound, Keeps, After, Enabled;
    if steps == [] {
      KeepsSelf(w);
    } else {
      var next := After(keccak, w, steps[0]);
      StepKeeps(keccak, w, steps[0]);
      EveryRunKeeps(keccak, next, steps[1..]);
      KeepsTwice(w, next, Run(keccak, next, steps[1..]));
    }
  }

  function Start(st: Factory.State, stewards: map<string, string>, escrow: string, config: Config, nextNonce: Option<u64>): World {
    World(st, stewards, map[], map[], {}, nextNonce, {}, map[], escrow, config)
  }

  lemma StartIsOk(st: Factory.State, stewards: map<string, string>, escrow: string, config: Config, nextNonce: Option<u64>)
    requires FactoryRuns.Safe(st) && forall s :: s in st.sessions ==> st.sessions[s].payment != Factory.Refunded
    ensures Sound(Start(st, stewards, escrow, config, nextNonce))
  {
  }

  // ---------------------------------------------------------------- the main results

  /// Over any run: the stored transaction of a refund, once drafted, is the same for ever, and no
  /// other draft or release takes its nonce (short of the last one).
  lemma DraftsAreWrittenOnce(keccak: Keccak, w: World, steps: seq<Step>, s: string, t: string)
    requires Sound(w) && CanRun(keccak, w, steps)
    ensures s in w.records ==> s in Run(keccak, w, steps).records && SameIdentity(w.records[s], Run(keccak, w, steps).records[s])
    ensures var v := Run(keccak, w, steps);
      s in v.records && t in v.records && s != t && v.records[s].nonce == v.records[t].nonce ==> v.records[s].nonce == U64_MAX
    ensures var v := Run(keccak, w, steps);
      s in v.records && v.records[s].nonce in v.released ==> v.records[s].nonce == U64_MAX
  {
    EveryRunKeeps(keccak, w, steps);
  }

  /// A refunded session has a stored successful receipt, in every reachable state.
  lemma RefundedHasReceipt(keccak: Keccak, w: World, steps: seq<Step>, s: string)
    requires Sound(w) && CanRun(keccak, w, steps) && IsRefunded(Run(keccak, w, steps), s)
    ensures var v := Run(keccak, w, steps);
      s in v.records && v.records[s].receiptStatus == Some(true) && v.records[s].rpcTxHash.Some? && s !in v.leases
  {
    EveryRunKeeps(keccak, w, steps);
    assert RefundedOk(Run(keccak, w, steps), s);
  }

  /// What a command answers for a refunded session.
  function Answered(w: World, s: string, now: nat): (RefundCheck, Option<string>) {
    (ValidateRefund(w.st, s, now), if s in w.records then w.records[s].rpcTxHash else None)
  }

  /// Asking again, however much later, gives the time and hash of the refund itself.
  lemma ReplayIsStable(keccak: Keccak, w: World, steps: seq<Step>, s: string, now: nat, later: nat)
    requires Sound(w) && CanRun(keccak, w, steps) && IsRefunded(w, s)
    ensures Answered(Run(keccak, w, steps), s, later) == Answered(w, s, now)
    ensures Answered(w, s, now).0.Already? && Answered(w, s, now).1.Some?
  {
    EveryRunKeeps(keccak, w, steps);
    assert RefundedOk(w, s);
    assert RefundedOk(Run(keccak, w, steps), s);
  }
}
