/// Where a refund can stop, and from where the next command goes on (backend/factory/src/api/public.rs,
/// backend/factory/src/escrow.rs, backend/factory/src/evm.rs).
module RefundStumbles {
  import opened Confirmations
  import opened Escrow
  import opened Evm
  import Factory
  import Hex
  import opened Limits
  import opened Options
  import opened RefundDraft
  import opened Refund
  import opened RefundRuns
  import opened RefundTidy
  import Sanitize

  // ---------------------------------------------------------------- the lease

  /// While a command is in flight and its lease has not run out, another command changes nothing.
  lemma LeaseExcludes(keccak: Keccak, w: World, id: nat, s: string, now: nat)
    requires s in w.inFlight && s in w.leases && now <= w.leases[s].expiresAt
    ensures Acquire(keccak, w, id, s, now) == w
  {
    hide Factory.ApplyEvent, ValidateRefund, Begin;
  }

  /// A command that goes on holds the session's lease for a minute, under the next generation, and
  /// carries the escrow, the fees and the depth that are set now.
  lemma LeaseIsAMinute(keccak: Keccak, w: World, id: nat, s: string, now: nat)
    requires id !in w.calls && id in Acquire(keccak, w, id, s, now).calls
    ensures var v := Acquire(keccak, w, id, s, now);
      s in v.leases && s in v.inFlight
      && v.leases[s] == Lease(if s in w.leases then w.leases[s].generation + 1 else 1, if now + 60000 < U64_MAX then now + 60000 else U64_MAX)
      && v.calls[id] == Call(s, v.leases[s].generation, now, w.escrow, w.config, w.st.depth, v.calls[id].phase)
  {
    hide Acquire, Begin, Due, ValidateRefund, Around, NextGeneration;
    AcquireCases(keccak, w, id, s, now);
    if NextGeneration(w, s, now).Some? {
      var generation := NextGeneration(w, s, now).value;
      GenerationIs(w, s, now);
      var installed := Installed(w.(st := Due(w, s, now)), id, s, NewLease(generation, now), NewCall(w, s, generation, now));
      BeginShape(keccak, installed, id);
      BeginInFlight(keccak, installed, id);
    }
  }

  lemma GenerationIs(w: World, s: string, now: nat)
    requires NextGeneration(w, s, now).Some?
    ensures NextGeneration(w, s, now).value == if s in w.leases then w.leases[s].generation + 1 else 1
  {
  }

  lemma BeginInFlight(keccak: Keccak, w: World, id: nat)
    requires id in w.calls && id in Begin(keccak, w, id).calls
    ensures Begin(keccak, w, id).inFlight == w.inFlight
  {
    hide CheckRaw, Reconstruct, ValidateRefund;
  }

  // ---------------------------------------------------------------- going on from a record

  /// What a command with its lease does first, told by the record alone: ask for the confirmation of a
  /// hash on record; ask for a nonce if nothing was signed; send signed bytes if they may be
  /// sent, and otherwise end; rebuild bytes that were dropped and send them.
  lemma GoesOnFromTheRecord(keccak: Keccak, w: World, id: nat, c: Call)
    requires id in w.calls && w.calls[id] == c && c.session in w.records && ValidateRefund(w.st, c.session, c.now) == Allowed
    ensures var record := w.records[c.session];
      var v := Begin(keccak, w, id);
      (record.rpcTxHash.Some? ==> v == Waiting(w, id, c.(phase := AtConfirm(record, record.rpcTxHash.value, ByHash))))
      && (record.rpcTxHash.None? && record.rawHash.None? ==> v == Waiting(w, id, c.(phase := AtNonce)))
      && (record.rpcTxHash.None? && record.rawHash.Some? && record.rawHex.Some? ==>
            v == if Sendable(keccak, record) then Waiting(w, id, c.(phase := AtSend(record, ByRaw))) else Ended(w, id))
      && (record.rpcTxHash.None? && record.rawHash.Some? && record.rawHex.None? ==>
            if Reconstruct(keccak, record).Err? then v == Ended(w, id)
            else
              (var rebuilt := record.(rawHex := Some(Reconstruct(keccak, record).value));
               v == Waiting(Stored(w, c.session, rebuilt), id, c.(phase := AtSend(rebuilt, ByRaw)))))
  {
    hide ValidateRefund, Reconstruct, Ended;
    var record := w.records[c.session];
    SendableExactly(keccak, record);
    if Reconstruct(keccak, record).Ok? {
      RebuiltPasses(keccak, record);
    }
    hide CheckRaw;
  }

  /// Stored bytes may be sent: some, at most 2048, printed with a prefix, under the recorded hash.
  predicate Sendable(keccak: Keccak, record: Record) {
    record.rawHex.Some? && "0x" <= record.rawHex.value && Hex.Decoded(record.rawHex.value).Some?
    && 0 < |Hex.Decoded(record.rawHex.value).value| <= 2048
    && record.rawHash == Some(Hex.Prefixed(keccak(Hex.Decoded(record.rawHex.value).value)))
  }

  lemma SendableExactly(keccak: Keccak, record: Record)
    ensures CheckRaw(keccak, record).Ok? <==> Sendable(keccak, record)
  {
    hide Hex.Decoded, Hex.Prefixed;
  }

  // ---------------------------------------------------------------- failures on the way

  /// The answers that stop a refund: no key or too few cycles, no whole signature, another hash than
  /// the one that was signed for, or a receipt that cannot stand.
  predicate Stops(phase: Phase, a: Answer) {
    match phase
    case AtNonce => !a.PendingNonce?
    case AtKey(_) => !(a.PublicKey? && a.enoughCycles)
    case AtSign(_) => !(a.Signed? && a.yParity.Some? && |a.signature| == 64)
    case AtSend(plan, _) => !(a.Hash? && plan.rawHash.Some? && SameLower(a.text, plan.rawHash.value))
    case AtConfirm(_, _, _) => !a.Confirmation? || (a.receipt.Some? && !Deep(a, 0))
  }

  /// The text in lower case is the given one.
  predicate SameLower(text: string, low: string) {
    |text| == |low| && forall i :: 0 <= i < |text| ==>
      low[i] == if 'A' <= text[i] <= 'Z' then (text[i] as int + 32) as char else text[i]
  }

  /// Only a call that signed, or was to sign, the transaction itself leaves its record behind with an
  /// error, and with the receipt if there was one; any other call leaves the record alone. All end.
  lemma StopsLeave(keccak: Keccak, w: World, id: nat, a: Answer)
    requires id in w.calls && Holds(w, w.calls[id]) && Stops(w.calls[id].phase, a)
    ensures var c := w.calls[id];
      Resume(keccak, w, id, a)
      == match c.phase
         case AtNonce => Ended(w, id)
         case AtKey(plan) => Ended(Stored(w, c.session, plan.(lastError := Some("refund failed"))), id)
         case AtSign(plan) => Ended(Stored(w, c.session, plan.(lastError := Some("refund failed"))), id)
         case AtSend(plan, via) =>
           if via.ByBroadcast? then Ended(Stored(w, c.session, plan.(lastError := Some("refund failed"))), id) else Ended(w, id)
         case AtConfirm(plan, _, via) =>
           if via.ByBroadcast?
           then Ended(Stored(w, c.session, Told(plan, a).(lastError := Some("refund failed"))), id) else Ended(w, id)
  {
    hide Ended, RecordTransaction, SignedRaw, Deep;
    match w.calls[id].phase
    case AtSend(plan, via) =>
      if a.Hash? && plan.rawHash.Some? {
        LowerExactly(a.text, plan.rawHash.value);
      }
    case AtConfirm(plan, _, via) =>
      if a.Confirmation? {
        hide ConfirmDepth;
        ConfirmsExactly(plan, w.calls[id].depth, a);
        DeepIsDeeper(a, w.calls[id].depth);
      }
    case _ =>
  }

  /// The record with the receipt of an answer, if it has one.
  function Told(plan: Record, a: Answer): Record {
    if a.Confirmation? && a.receipt.Some? then Seen(plan, a) else plan
  }

  lemma DeepIsDeeper(a: Answer, depth: nat)
    ensures Deep(a, depth) ==> Deep(a, 0)
  {
  }

  lemma LowerExactly(text: string, low: string)
    ensures SameLower(text, low) <==> Sanitize.ToAsciiLowercase(text) == low
  {
    var x := Sanitize.ToAsciiLowercase(text);
    if SameLower(text, low) {
      assert x == low;
    }
    if x == low {
      assert forall i :: 0 <= i < |text| ==> low[i] == x[i];
    }
  }

  /// An answer without a receipt, or with one that stands but is not deep enough yet, is stored, and
  /// the command ends: the next one asks again.
  lemma TooEarly(keccak: Keccak, w: World, id: nat, a: Answer)
    requires id in w.calls && Holds(w, w.calls[id]) && w.calls[id].phase.AtConfirm? && a.Confirmation?
    requires !Deep(a, w.calls[id].depth) && (a.receipt.Some? ==> Deep(a, 0))
    ensures var c := w.calls[id];
      Resume(keccak, w, id, a)
      == Ended(Stored(w, c.session,
                      if a.receipt.Some? then Seen(c.phase.plan, a)
                      else c.phase.plan.(receiptBlockNumber := None, receiptBlockHash := None, receiptStatus := None)), id)
  {
    hide Ended, Deep, GiveUp, Finish;
    var c := w.calls[id];
    ConfirmsExactly(c.phase.plan, c.depth, a);
    if a.receipt.Some? {
      hide ConfirmDepth;
    }
  }
}
