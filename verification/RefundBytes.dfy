/// The signed bytes of a refund: written once as long as no command is given the generation of a
/// call that is still in flight, and a run that loses them when one is
/// (backend/factory/src/api/public.rs, backend/factory/src/escrow.rs).
module RefundBytes {
  import opened Bits
  import opened Escrow
  import opened Evm
  import Factory
  import FactoryRuns
  import opened Limits
  import opened Options
  import opened RefundDraft
  import opened Refund
  import opened RefundRuns
  import opened RlpEncoder

  // ---------------------------------------------------------------- fresh generations

  /// A command is fresh when the generation it would get belongs to no call in flight.
  predicate Fresh(w: World, step: Step) {
    step.Command? && NextGeneration(w, step.session, step.now).Some? ==>
      forall id :: id in w.calls ==>
        w.calls[id].session != step.session || w.calls[id].generation != NextGeneration(w, step.session, step.now).value
  }

  /// No two calls of a session have the same generation.
  predicate Apart(w: World) {
    forall i, j :: i in w.calls && j in w.calls && i != j ==>
      w.calls[i].session != w.calls[j].session || w.calls[i].generation != w.calls[j].generation
  }

  predicate NoBytes(r: Record) {
    r.rawHex.None? && r.rawHash.None?
  }

  predicate SameBytes(x: Record, y: Record) {
    x.rawHex == y.rawHex && x.rawHash == y.rawHash
  }

  /// A draft that is being signed carries no bytes; only signed records are sent.
  predicate PlanOk(c: Call) {
    (c.phase.AtKey? || c.phase.AtSign? ==> NoBytes(c.phase.plan))
  }

  /// The call that holds the lease knows the stored bytes.
  predicate KnowsBytes(w: World, c: Call) {
    if c.phase.AtSend? || c.phase.AtConfirm? then c.session in w.records && SameBytes(c.phase.plan, w.records[c.session])
    else c.session in w.records ==> NoBytes(w.records[c.session])
  }

  ghost predicate BytesOk(w: World) {
    Apart(w)
    && (forall s :: s in w.records && w.records[s].rawHash.None? ==> w.records[s].rawHex.None?)
    && (forall id :: id in w.calls ==> PlanOk(w.calls[id]))
    && (forall id :: id in w.calls && Holds(w, w.calls[id]) ==> KnowsBytes(w, w.calls[id]))
  }

  /// The same, leaving one call aside.
  ghost predicate OthersOk(w: World, id: nat) {
    Apart(w)
    && (forall s :: s in w.records && w.records[s].rawHash.None? ==> w.records[s].rawHex.None?)
    && (forall o :: o in w.calls && o != id ==> PlanOk(w.calls[o]))
    && (forall o :: o in w.calls && o != id && Holds(w, w.calls[o]) ==> KnowsBytes(w, w.calls[o]))
  }

  /// Stored bytes and their hash never change.
  ghost predicate BytesKept(w: World, v: World) {
    forall s :: s in w.records ==>
      s in v.records && (w.records[s].rawHex.Some? ==> v.records[s].rawHex == w.records[s].rawHex)
      && (w.records[s].rawHash.Some? ==> v.records[s].rawHash == w.records[s].rawHash)
  }

  lemma BytesKeptTwice(u: World, v: World, w: World)
    requires BytesKept(u, v) && BytesKept(v, w)
    ensures BytesKept(u, w)
  {
  }

  /// The holder of a session's lease is the only call of that session that could write.
  lemma OneHolder(w: World, i: nat, j: nat)
    requires Apart(w) && i in w.calls && j in w.calls && Holds(w, w.calls[i]) && Holds(w, w.calls[j])
    requires w.calls[i].session == w.calls[j].session
    ensures i == j
  {
  }

  lemma EndedBytes(w: World, id: nat)
    requires OthersOk(w, id) && id in w.calls
    ensures BytesOk(Ended(w, id)) && BytesKept(w, Ended(w, id))
  {
    var v := Ended(w, id);
    assert forall o :: o in v.calls ==> o in w.calls && o != id && v.calls[o] == w.calls[o];
    forall o | o in v.calls && Holds(v, v.calls[o]) ensures KnowsBytes(v, v.calls[o]) {
      assert Holds(w, w.calls[o]);
    }
  }

  /// The holder stores a record with the bytes it knows, or with new bytes where there were none,
  /// and goes on with a phase that knows them.
  lemma HolderMoves(w: World, id: nat, record: Record, next: Phase)
    requires OthersOk(w, id) && id in w.calls && Holds(w, w.calls[id])
    requires w.calls[id].session in w.records ==>
      SameBytes(record, w.records[w.calls[id].session]) || NoBytes(w.records[w.calls[id].session])
    requires record.rawHash.None? ==> record.rawHex.None?
    requires PlanOk(w.calls[id].(phase := next))
    requires if next.AtSend? || next.AtConfirm? then SameBytes(next.plan, record) else NoBytes(record)
    ensures var v := Waiting(Stored(w, w.calls[id].session, record), id, w.calls[id].(phase := next));
      BytesOk(v) && BytesKept(w, v)
  {
    var c := w.calls[id];
    var v := Waiting(Stored(w, c.session, record), id, c.(phase := next));
    forall o | o in v.calls && Holds(v, v.calls[o]) ensures KnowsBytes(v, v.calls[o]) {
      if o != id {
        assert Holds(w, w.calls[o]) && KnowsBytes(w, w.calls[o]);
        if w.calls[o].session == c.session {
          OneHolder(w, o, id);
        }
      }
    }
  }

  lemma HolderStores(w: World, id: nat, record: Record)
    requires OthersOk(w, id) && id in w.calls && Holds(w, w.calls[id])
    requires w.calls[id].session in w.records ==>
      SameBytes(record, w.records[w.calls[id].session]) || NoBytes(w.records[w.calls[id].session])
    requires record.rawHash.None? ==> record.rawHex.None?
    ensures var v := Ended(Stored(w, w.calls[id].session, record), id); BytesOk(v) && BytesKept(w, v)
  {
    var c := w.calls[id];
    var stored := Stored(w, c.session, record);
    var v := Ended(stored, id);
    assert Holds(stored, c);
    forall o | o in v.calls && Holds(v, v.calls[o]) ensures KnowsBytes(v, v.calls[o]) {
      assert Holds(w, w.calls[o]) && KnowsBytes(w, w.calls[o]);
      assert w.calls[o].session != c.session;
    }
  }

  lemma GiveUpBytes(w: World, id: nat, record: Record, via: Via)
    requires OthersOk(w, id) && id in w.calls && Holds(w, w.calls[id])
    requires w.calls[id].session in w.records && SameBytes(record, w.records[w.calls[id].session])
    ensures BytesOk(GiveUp(w, id, record, via)) && BytesKept(w, GiveUp(w, id, record, via))
  {
    hide BytesKept, BytesOk;
    if via.ByBroadcast? {
      HolderBytes(w, id);
      HolderStores(w, id, record.(lastError := Some("refund failed")));
    } else {
      EndedBytes(w, id);
    }
  }

  lemma HolderBytes(w: World, id: nat)
    requires OthersOk(w, id) && id in w.calls && w.calls[id].session in w.records
    ensures w.records[w.calls[id].session].rawHash.None? ==> w.records[w.calls[id].session].rawHex.None?
  {
  }

  lemma HolderKnows(w: World, id: nat)
    requires BytesOk(w) && id in w.calls && Holds(w, w.calls[id])
    ensures KnowsBytes(w, w.calls[id]) && PlanOk(w.calls[id]) && OthersOk(w, id)
  {
  }

  lemma AllButOne(w: World, id: nat)
    requires BytesOk(w)
    ensures OthersOk(w, id)
  {
  }

  /// Going on without storing anything is storing what is stored.
  lemma HolderWaits(w: World, id: nat, next: Phase)
    requires OthersOk(w, id) && id in w.calls && Holds(w, w.calls[id])
    requires PlanOk(w.calls[id].(phase := next))
    requires KnowsBytes(w, w.calls[id].(phase := next))
    ensures var v := Waiting(w, id, w.calls[id].(phase := next)); BytesOk(v) && BytesKept(w, v)
  {
    var c := w.calls[id];
    var v := Waiting(w, id, c.(phase := next));
    forall o | o in v.calls && Holds(v, v.calls[o]) ensures KnowsBytes(v, v.calls[o]) {
      if o != id {
        assert Holds(w, w.calls[o]) && KnowsBytes(w, w.calls[o]);
      }
    }
  }

  /// Sending a record whose bytes the store already has.
  lemma SendBytes(keccak: Keccak, w: World, id: nat, c: Call, record: Record, via: Via)
    requires OthersOk(w, id) && id in w.calls && w.calls[id] == c && Holds(w, c)
    requires c.session in w.records && SameBytes(record, w.records[c.session])
    ensures BytesOk(Send(keccak, w, id, c, record, via)) && BytesKept(w, Send(keccak, w, id, c, record, via))
  {
    hide BytesOk, BytesKept, OthersOk, CheckRaw, GiveUp;
    GiveUpBytes(w, id, record, via);
    HolderWaits(w, id, AtSend(record, via));
  }

  /// Storing a record with bytes where there were none, and sending it.
  lemma StoreAndSend(keccak: Keccak, w: World, id: nat, c: Call, record: Record, via: Via)
    requires OthersOk(w, id) && id in w.calls && w.calls[id] == c && Holds(w, c) && c.session in w.records
    requires record.rawHash.Some?
    requires NoBytes(w.records[c.session]) || (w.records[c.session].rawHex.None? && w.records[c.session].rawHash == record.rawHash)
    ensures var v := Send(keccak, Stored(w, c.session, record), id, c, record, via); BytesOk(v) && BytesKept(w, v)
  {
    hide BytesOk, CheckRaw;
    var stored := Stored(w, c.session, record);
    StoredOthers(w, id, record);
    assert BytesKept(w, stored);
    assert Holds(stored, c);
    SendBytes(keccak, stored, id, c, record, via);
    BytesKeptTwice(w, stored, Send(keccak, stored, id, c, record, via));
  }

  lemma StoredOthers(w: World, id: nat, record: Record)
    requires OthersOk(w, id) && id in w.calls && Holds(w, w.calls[id]) && record.rawHash.Some?
    ensures OthersOk(Stored(w, w.calls[id].session, record), id)
  {
    var c := w.calls[id];
    var v := Stored(w, c.session, record);
    forall o | o in v.calls && o != id && Holds(v, v.calls[o]) ensures KnowsBytes(v, v.calls[o]) {
      assert Holds(w, w.calls[o]) && KnowsBytes(w, w.calls[o]);
      assert w.calls[o].session != c.session;
    }
  }

  // ---------------------------------------------------------------- continuations

  lemma DraftHasNoBytes(keccak: Keccak, claimId: string, recipient: string, escrow: string, nonce: u64, config: Config)
    ensures var draft := BuildDraft(keccak, claimId, recipient, escrow, nonce, config); draft.Ok? ==> NoBytes(draft.value)
  {
    hide RefundTransaction, KeccakHex;
  }

  lemma NonceBytes(keccak: Keccak, w: World, id: nat, c: Call, pending: u64)
    requires OthersOk(w, id) && id in w.calls && w.calls[id] == c && Holds(w, c) && Draft(keccak, w, c, pending).Some?
    requires c.session in w.records ==> NoBytes(w.records[c.session])
    ensures var (next, plan) := Draft(keccak, w, c, pending).value;
      var v := Waiting(next, id, c.(phase := AtKey(plan)));
      BytesOk(v) && BytesKept(w, v)
  {
    var (next, plan) := Draft(keccak, w, c, pending).value;
    if c.session in w.records {
      hide BytesOk, BytesKept, OthersOk, BuildDraft, ValidateDraft;
      var record := w.records[c.session];
      var config := ValidateDraft(keccak, record, ClaimOf(w, c.session), Steward(w, c.session), c.config.keyName).value;
      DraftHasNoBytes(keccak, record.claimId, record.recipient, record.escrow, record.nonce, config);
      HolderWaits(w, id, AtKey(plan));
    } else {
      var nonce := Reserve(w.nextNonce, pending);
      DraftHasNoBytes(keccak, ClaimOf(w, c.session), Steward(w, c.session), c.escrow, nonce, c.config);
      var moved := w.(nextNonce := Some(Following(nonce)));
      MovedOthers(w, id, Some(Following(nonce)));
      hide BytesOk, BytesKept, OthersOk, BuildDraft;
      HolderMoves(moved, id, plan, AtKey(plan));
      MovedKept(w, moved, Waiting(next, id, c.(phase := AtKey(plan))));
    }
  }

  lemma MovedOthers(w: World, id: nat, next: Option<u64>)
    requires OthersOk(w, id)
    ensures OthersOk(w.(nextNonce := next), id)
  {
    var v := w.(nextNonce := next);
    forall o | o in v.calls && o != id && Holds(v, v.calls[o]) ensures KnowsBytes(v, v.calls[o]) {
      assert Holds(w, w.calls[o]) && KnowsBytes(w, w.calls[o]);
    }
  }

  lemma MovedKept(w: World, moved: World, v: World)
    requires moved.records == w.records && BytesKept(moved, v)
    ensures BytesKept(w, v)
  {
  }

  lemma ConfirmBytes(w: World, id: nat, c: Call, record: Record, via: Via, answer: Answer)
    requires OthersOk(w, id) && id in w.calls && w.calls[id] == c && Holds(w, c)
    requires c.session in w.records && SameBytes(record, w.records[c.session])
    ensures BytesOk(AfterConfirm(w, id, c, record, via, answer)) && BytesKept(w, AfterConfirm(w, id, c, record, via, answer))
  {
    hide BytesOk, BytesKept, OthersOk, GiveUp, FinalizeRefund;
    GiveUpBytes(w, id, record, via);
    HolderBytes(w, id);
    if answer.Confirmation? {
      var (seen, confirmed) := ConfirmDepth(record, c.depth, answer);
      SeenBytes(record, c.depth, answer);
      GiveUpBytes(w, id, seen, via);
      HolderStores(w, id, seen);
      FinishedBytes(w, id, seen);
    }
  }

  lemma SeenBytes(record: Record, depth: nat, answer: Answer)
    requires answer.Confirmation?
    ensures SameBytes(ConfirmDepth(record, depth, answer).0, record)
  {
  }

  lemma FinishedBytes(w: World, id: nat, seen: Record)
    requires id in w.calls && BytesOk(Ended(Stored(w, w.calls[id].session, seen), id))
    requires BytesKept(w, Ended(Stored(w, w.calls[id].session, seen), id))
    ensures var v := Finish(Stored(w, w.calls[id].session, seen), id); BytesOk(v) && BytesKept(w, v)
  {
    hide FinalizeRefund;
    var u, v := Ended(Stored(w, w.calls[id].session, seen), id), Finish(Stored(w, w.calls[id].session, seen), id);
    assert v.calls == u.calls && v.records == u.records && v.leases == u.leases;
    forall o | o in v.calls && Holds(v, v.calls[o]) ensures KnowsBytes(v, v.calls[o]) {
      assert Holds(u, u.calls[o]) && KnowsBytes(u, u.calls[o]);
    }
  }

  lemma SentBytes(w: World, id: nat, c: Call, record: Record, via: Via, answer: Answer)
    requires OthersOk(w, id) && id in w.calls && w.calls[id] == c && Holds(w, c)
    requires c.session in w.records && SameBytes(record, w.records[c.session])
    ensures BytesOk(AfterSend(w, id, c, record, via, answer)) && BytesKept(w, AfterSend(w, id, c, record, via, answer))
  {
    hide BytesOk, BytesKept, OthersOk, GiveUp;
    GiveUpBytes(w, id, record, via);
    HolderBytes(w, id);
    if answer.Hash? {
      var sent := record.(rpcTxHash := Some(answer.text), broadcastAt := Some(c.now));
      HolderMoves(w, id, sent, AtConfirm(sent, answer.text, via));
    }
  }

  lemma KeyBytes(w: World, id: nat, c: Call, plan: Record)
    requires OthersOk(w, id) && id in w.calls && w.calls[id] == c && Holds(w, c) && c.session in w.records
    requires NoBytes(plan) && NoBytes(w.records[c.session])
    ensures BytesOk(GiveUp(w, id, plan, ByBroadcast)) && BytesKept(w, GiveUp(w, id, plan, ByBroadcast))
    ensures var v := Waiting(w, id, c.(phase := AtSign(plan))); BytesOk(v) && BytesKept(w, v)
  {
    hide BytesOk, BytesKept, OthersOk, GiveUp;
    GiveUpBytes(w, id, plan, ByBroadcast);
    HolderWaits(w, id, AtSign(plan));
  }

  lemma SignBytes(keccak: Keccak, w: World, id: nat, c: Call, plan: Record, yParity: bool, signature: seq<byte>)
    requires OthersOk(w, id) && id in w.calls && w.calls[id] == c && Holds(w, c) && c.session in w.records
    requires NoBytes(w.records[c.session]) && WithSignature(keccak, plan, yParity, signature).Some?
    ensures var record := WithSignature(keccak, plan, yParity, signature).value;
      var v := Send(keccak, Stored(w, c.session, record), id, c, record, ByBroadcast); BytesOk(v) && BytesKept(w, v)
  {
    hide BytesOk, BytesKept, OthersOk, Send, WithSignature;
    SignatureKeepsIdentity(keccak, plan, yParity, signature);
    StoreAndSend(keccak, w, id, c, WithSignature(keccak, plan, yParity, signature).value, ByBroadcast);
  }

  /// What the holder of a lease knows, phase by phase.
  lemma HolderPhase(w: World, id: nat)
    requires Sound(w) && BytesOk(w) && id in w.calls && Holds(w, w.calls[id])
    ensures var c := w.calls[id];
      match c.phase
      case AtNonce => c.session in w.records ==> NoBytes(w.records[c.session])
      case AtKey(plan) => c.session in w.records && NoBytes(plan) && NoBytes(w.records[c.session])
      case AtSign(plan) => c.session in w.records && NoBytes(plan) && NoBytes(w.records[c.session])
      case AtSend(plan, _) => c.session in w.records && SameBytes(plan, w.records[c.session])
      case AtConfirm(plan, _, _) => c.session in w.records && SameBytes(plan, w.records[c.session])
  {
    CallIsOk(w, id);
    HolderKnows(w, id);
    hide Sound, BytesOk, SameIdentity;
  }

  lemma ResumeBytes(keccak: Keccak, w: World, id: nat, answer: Answer)
    requires Sound(w) && BytesOk(w) && id in w.calls
    ensures BytesOk(Resume(keccak, w, id, answer)) && BytesKept(w, Resume(keccak, w, id, answer))
  {
    hide Sound, BytesOk, BytesKept, OthersOk, Ended, GiveUp, Draft, WithSignature, Send, AfterSend, AfterConfirm, NoBytes, SameBytes;
    var c := w.calls[id];
    AllButOne(w, id);
    EndedBytes(w, id);
    if Holds(w, c) {
      HolderPhase(w, id);
      match c.phase
      case AtNonce =>
        if answer.PendingNonce? && Draft(keccak, w, c, answer.nonce).Some? {
          NonceBytes(keccak, w, id, c, answer.nonce);
        }
      case AtKey(plan) => KeyBytes(w, id, c, plan);
      case AtSign(plan) =>
        KeyBytes(w, id, c, plan);
        if answer.Signed? && answer.yParity.Some? && WithSignature(keccak, plan, answer.yParity.value, answer.signature).Some? {
          SignBytes(keccak, w, id, c, plan, answer.yParity.value, answer.signature);
        }
      case AtSend(record, via) => SentBytes(w, id, c, record, via, answer);
      case AtConfirm(record, hash, via) => ConfirmBytes(w, id, c, record, via, answer);
    }
  }

  // ---------------------------------------------------------------- commands

  lemma BeginBytes(keccak: Keccak, w: World, id: nat)
    requires OthersOk(w, id) && id in w.calls && Holds(w, w.calls[id])
    ensures BytesOk(Begin(keccak, w, id)) && BytesKept(w, Begin(keccak, w, id))
  {
    var c := w.calls[id];
    if c.session in w.records {
      HolderBytes(w, id);
    }
    hide BytesOk, BytesKept, OthersOk, Ended, Send, ValidateRefund, Reconstruct;
    EndedBytes(w, id);
    if c.session !in w.records {
      HolderWaits(w, id, AtNonce);
    } else {
      var record := w.records[c.session];
      if record.rpcTxHash.Some? {
        HolderWaits(w, id, AtConfirm(record, record.rpcTxHash.value, ByHash));
      } else if record.rawHash.None? {
        HolderWaits(w, id, AtNonce);
      } else if record.rawHex.Some? {
        SendBytes(keccak, w, id, c, record, ByRaw);
      } else if Reconstruct(keccak, record).Ok? {
        StoreAndSend(keccak, w, id, c, record.(rawHex := Some(Reconstruct(keccak, record).value)), ByRaw);
      }
    }
  }

  lemma InstalledOthers(w: World, id: nat, session: string, lease: Lease, c: Call)
    requires BytesOk(w) && id !in w.calls && c.session == session && c.generation == lease.generation
    requires forall o :: o in w.calls ==> w.calls[o].session != session || w.calls[o].generation != lease.generation
    ensures OthersOk(Installed(w, id, session, lease, c), id)
  {
    var v := Installed(w, id, session, lease, c);
    forall o | o in v.calls && o != id && Holds(v, v.calls[o]) ensures KnowsBytes(v, v.calls[o]) {
      assert Holds(w, w.calls[o]) && KnowsBytes(w, w.calls[o]);
    }
  }

  lemma OtherFieldsBytes(w: World, v: World)
    requires BytesOk(w) && v.records == w.records && v.calls == w.calls && v.leases == w.leases
    ensures BytesOk(v) && BytesKept(w, v)
  {
    forall o | o in v.calls && Holds(v, v.calls[o]) ensures KnowsBytes(v, v.calls[o]) {
      assert Holds(w, w.calls[o]) && KnowsBytes(w, w.calls[o]);
    }
  }

  lemma AcquireBytes(keccak: Keccak, w: World, id: nat, session: string, now: nat)
    requires BytesOk(w) && id !in w.calls && Fresh(w, Command(id, session, now))
    ensures BytesOk(Acquire(keccak, w, id, session, now)) && BytesKept(w, Acquire(keccak, w, id, session, now))
  {
    hide BytesOk, BytesKept, Begin, Factory.ApplyEvent, ValidateRefund, NextGeneration;
    OtherFieldsBytes(w, w);
    var due := if session in w.inFlight then w.st
      else Factory.ApplyEvent(w.st, session, Factory.User, now, Factory.SessionExpired, "refund requested by verified EVM steward").state;
    var expired := w.(st := due);
    OtherFieldsBytes(w, expired);
    var generation := NextGeneration(w, session, now);
    if generation.Some? && session in w.st.sessions && !ValidateRefund(due, session, now).Refused? {
      var lease := Lease(generation.value, if now + REFUND_COMMAND_LEASE_MS < U64_MAX then now + REFUND_COMMAND_LEASE_MS else U64_MAX);
      var c := Call(session, generation.value, now, w.escrow, w.config, w.st.depth, AtNonce);
      assert Command(id, session, now).Command?;
      OpenBytes(keccak, expired, id, session, lease, c);
      MovedKept(w, expired, Begin(keccak, Installed(expired, id, session, lease, c), id));
    }
  }

  lemma OpenBytes(keccak: Keccak, w: World, id: nat, session: string, lease: Lease, c: Call)
    requires BytesOk(w) && id !in w.calls && c.session == session && c.generation == lease.generation
    requires forall o :: o in w.calls ==> w.calls[o].session != session || w.calls[o].generation != lease.generation
    ensures var v := Begin(keccak, Installed(w, id, session, lease, c), id); BytesOk(v) && BytesKept(w, v)
  {
    hide BytesOk, BytesKept, OthersOk, Begin;
    var installed := Installed(w, id, session, lease, c);
    InstalledOthers(w, id, session, lease, c);
    BeginBytes(keccak, installed, id);
    MovedKept(w, installed, Begin(keccak, installed, id));
  }

  lemma StepBytes(keccak: Keccak, w: World, step: Step)
    requires Sound(w) && BytesOk(w) && Enabled(w, step) && Fresh(w, step)
    ensures BytesOk(After(keccak, w, step)) && BytesKept(w, After(keccak, w, step))
  {
    hide Sound, BytesOk, BytesKept, Acquire, Resume, FactoryRuns.After, FactoryRuns.Enabled;
    match step
    case Elsewhere(s) => OtherFieldsBytes(w, After(keccak, w, step));
    case Reconfigure(escrow, config) => OtherFieldsBytes(w, After(keccak, w, step));
    case ReleaseNonce(pending) => OtherFieldsBytes(w, After(keccak, w, step));
    case Command(id, session, now) => AcquireBytes(keccak, w, id, session, now);
    case Continue(id, answer) => ResumeBytes(keccak, w, id, answer);
  }

  ghost predicate FreshRun(keccak: Keccak, w: World, steps: seq<Step>)
    requires CanRun(keccak, w, steps)
    decreases |steps|
  {
    steps == [] || (Fresh(w, steps[0]) && FreshRun(keccak, After(keccak, w, steps[0]), steps[1..]))
  }

  /// Over every run in which no command gets the generation of a call still in flight, the signed
  /// bytes of a refund and their hash are written once.
  lemma {:induction false} BytesAreWrittenOnce(keccak: Keccak, w: World, steps: seq<Step>)
    requires Sound(w) && BytesOk(w) && CanRun(keccak, w, steps) && FreshRun(keccak, w, steps)
    ensures BytesKept(w, Run(keccak, w, steps)) && BytesOk(Run(keccak, w, steps))
    decreases |steps|
  {
    hide Sound, BytesOk, BytesKept, After, Enabled, Fresh;
    if steps == [] {
      OtherFieldsBytes(w, w);
    } else {
      var next := After(keccak, w, steps[0]);
      StepKeeps(keccak, w, steps[0]);
      StepBytes(keccak, w, steps[0]);
      BytesAreWrittenOnce(keccak, next, steps[1..]);
      BytesKeptTwice(w, next, Run(keccak, next, steps[1..]));
    }
  }
}
