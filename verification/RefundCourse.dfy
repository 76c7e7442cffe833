/// The whole course of a refund: from a session whose money is in and whose time is over, six messages
/// lead to a recorded refund, with everything the record then says (backend/factory/src/api/public.rs,
/// backend/factory/src/escrow.rs, backend/factory/src/evm.rs).
module RefundCourse {
  import opened Bits
  import opened Calldata
  import opened Confirmations
  import opened Deposits
  import opened Escrow
  import opened Events
  import opened Evm
  import Factory
  import FactoryRuns
  import opened Hex
  import Invariants
  import opened Limits
  import opened Options
  import opened RefundDraft
  import opened Refund
  import RefundConfirmed
  import opened RefundReuse
  import opened RefundRuns
  import opened RefundTidy
  import opened RlpEncoder
  import Sanitize

  // ---------------------------------------------------------------- who can be refunded

  /// Money came in, and the session failed, expired, or is past its deadline short of completion.
  predicate Owed(st: Factory.State, s: string, now: nat) {
    s in st.sessions && st.sessions[s].payment in {Factory.Partial, Factory.Paid}
    && (st.sessions[s].state in {Factory.Expired, Factory.SessionState.Failed}
        || (st.sessions[s].state != Factory.Complete && now > st.sessions[s].expiresAt))
    && (st.sessions[s].automaton.Some? ==> st.sessions[s].automaton.value in st.runtimes)
  }

  /// Its escrow and claim can be read, and no refund of it has begun.
  predicate Untried(w: World, s: string) {
    s !in w.records && s !in w.leases && s !in w.inFlight && ReadsAs(ClaimOf(w, s), 32) && ReadsAs(w.escrow, 20)
  }

  lemma SafeParts(st: Factory.State, s: string)
    requires FactoryRuns.Safe(st) && s in st.sessions
    ensures Invariants.SessionsOk(st) && Invariants.Known(st, s) && Invariants.BooksOk(st.sessions[s], st.claims[s])
  {
    assert Invariants.SessionOk(st, s);
  }

  lemma ExpiryIsLegal(s: Factory.Session, now: nat)
    ensures (exists target :: Moves(s, now, Factory.SessionExpired, target))
      <==> s.state !in {Factory.Complete, Factory.Expired} && s.payment != Factory.Refunded && now > s.expiresAt
    ensures forall t: Factory.Session :: Factory.LegalMove(s.state, Factory.SessionExpired, t.state) ==> t.state == Factory.Expired
  {
    if s.state !in {Factory.Complete, Factory.Expired} && s.payment != Factory.Refunded && now > s.expiresAt {
      Factory.MovesAreExactlyTheLegalOnes(s, true, now, Factory.SessionExpired, Factory.Expired);
      assert Moves(s, now, Factory.SessionExpired, Factory.Expired);
    }
  }

  /// The first message of a refund expires a session whose time is over; the refund is then open.
  lemma OwedOpens(w: World, s: string, now: nat)
    requires FactoryRuns.Safe(w.st) && Owed(w.st, s, now) && s !in w.inFlight
    ensures RefundConfirmed.Open(Due(w, s, now), s) && ValidateRefund(Due(w, s, now), s, now) == Allowed
    ensures ClaimOf(w.(st := Due(w, s, now)), s) == ClaimOf(w, s)
  {
    hide Factory.ApplyEvent, Audited, Invariants.SessionsOk, FactoryRuns.Safe, Factory.LegalMove, Moves;
    SafeParts(w.st, s);
    ExpiryIsLegal(w.st.sessions[s], now);
    EventExactly(w.st, s, Factory.User, now, Factory.SessionExpired, "refund requested by verified EVM steward");
  }

  // ---------------------------------------------------------------- the messages

  lemma Begins(keccak: Keccak, w: World, id: nat, s: string, now: nat)
    requires FactoryRuns.Safe(w.st) && Owed(w.st, s, now) && Untried(w, s) && id !in w.calls
    ensures Goes(keccak, w, Command(id, s, now),
                 Installed(w.(st := Due(w, s, now)), id, s, NewLease(1, now), NewCall(w, s, 1, now)))
  {
    hide Factory.ApplyEvent, ValidateRefund, Send, Reconstruct, FactoryRuns.Safe, Owed, RefundConfirmed.Open;
    OwedOpens(w, s, now);
    OwedIsStored(w, s, now);
    var due := w.(st := Due(w, s, now));
    var v := Installed(due, id, s, NewLease(1, now), NewCall(w, s, 1, now));
    assert Begin(keccak, v, id) == v by { assert v.calls[id := v.calls[id]] == v.calls; }
  }

  lemma OwedIsStored(w: World, s: string, now: nat)
    requires Owed(w.st, s, now)
    ensures s in w.st.sessions
  {
  }

  /// A new draft takes the larger of the cursor and the node's pending nonce, and the cursor moves on.
  lemma Drafts(keccak: Keccak, w: World, id: nat, pending: u64, draft: Record)
    requires id in w.calls && Holds(w, w.calls[id]) && w.calls[id].phase == AtNonce && w.calls[id].session !in w.records
    requires var c := w.calls[id];
      BuildDraft(keccak, ClaimOf(w, c.session), Steward(w, c.session), c.escrow, Larger(w.nextNonce, pending), c.config) == Ok(draft)
    ensures var c := w.calls[id];
      Goes(keccak, w, Continue(id, PendingNonce(pending)),
           Waiting(Stored(w.(nextNonce := Some(Next(Larger(w.nextNonce, pending)))), c.session, draft), id, c.(phase := AtKey(draft))))
  {
    hide BuildDraft, Resume;
    NonceStep(keccak, w, id, pending);
  }

  function Larger(cursor: Option<u64>, pending: u64): u64 {
    if cursor.Some? && cursor.value > pending then cursor.value else pending
  }

  function Next(nonce: u64): u64 {
    if nonce == U64_MAX then U64_MAX else nonce + 1
  }

  lemma GetsKey(keccak: Keccak, w: World, id: nat, draft: Record)
    requires id in w.calls && Holds(w, w.calls[id]) && w.calls[id].phase == AtKey(draft)
    ensures Goes(keccak, w, Continue(id, PublicKey(true)), Waiting(w, id, w.calls[id].(phase := AtSign(draft))))
  {
    KeyStep(keccak, w, id, draft);
    hide Resume;
  }

  lemma GetsSigned(keccak: Keccak, w: World, id: nat, draft: Record, yParity: bool, signature: seq<byte>)
    requires id in w.calls && Holds(w, w.calls[id]) && w.calls[id].phase == AtSign(draft)
    requires WithSignature(keccak, draft, yParity, signature).Some?
    requires CheckRaw(keccak, WithSignature(keccak, draft, yParity, signature).value).Ok?
    ensures var record := WithSignature(keccak, draft, yParity, signature).value;
      Goes(keccak, w, Continue(id, Answer.Signed(signature, Some(yParity))),
           Waiting(Stored(w, w.calls[id].session, record), id, w.calls[id].(phase := AtSend(record, ByBroadcast))))
  {
    hide WithSignature, CheckRaw, GiveUp;
  }

  function Sent(record: Record, text: string, now: nat): Record {
    record.(rpcTxHash := Some(text), broadcastAt := Some(now))
  }

  lemma GetsSent(keccak: Keccak, w: World, id: nat, record: Record, text: string)
    requires id in w.calls && Holds(w, w.calls[id]) && w.calls[id].phase == AtSend(record, ByBroadcast)
    requires record.rawHash.Some? && SameUpToCase(text, record.rawHash.value) && IsLower(record.rawHash.value)
    ensures var sent := Sent(record, text, w.calls[id].now);
      Goes(keccak, w, Continue(id, Hash(text)),
           Waiting(Stored(w, w.calls[id].session, sent), id, w.calls[id].(phase := AtConfirm(sent, text, ByBroadcast))))
  {
    hide GiveUp;
    LowerIs(text, record.rawHash.value);
  }

  predicate IsLower(text: string) {
    forall i :: 0 <= i < |text| ==> !('A' <= text[i] <= 'Z')
  }

  lemma LowerIs(text: string, low: string)
    requires SameUpToCase(text, low) && IsLower(low)
    ensures Sanitize.ToAsciiLowercase(text) == low
  {
    forall i | 0 <= i < |text| ensures Sanitize.ToAsciiLowercase(text)[i] == low[i] {
      assert SameLetter(text[i], low[i]);
    }
  }

  lemma GetsConfirmed(keccak: Keccak, w: World, id: nat, record: Record, text: string, a: Answer)
    requires id in w.calls && Holds(w, w.calls[id]) && w.calls[id].phase == AtConfirm(record, text, ByBroadcast)
    requires Deep(a, w.calls[id].depth)
    ensures Goes(keccak, w, Continue(id, a), Finish(Stored(w, w.calls[id].session, Seen(record, a)), id))
  {
    hide ConfirmDepth, GiveUp, Finish, Deep;
    DeepHasReceipt(a, w.calls[id].depth);
    ConfirmsExactly(record, w.calls[id].depth, a);
  }

  // ---------------------------------------------------------------- what the record says

  lemma HexIsLower(bytes: seq<byte>)
    ensures IsLower(Prefixed(bytes))
  {
    HexTextIsLower(bytes);
  }

  lemma {:induction false} HexTextIsLower(bytes: seq<byte>)
    ensures IsLower(HexText(bytes))
  {
    if bytes != [] {
      HexTextIsLower(bytes[1..]);
    }
  }

  /// The draft that is built, and the signed record it becomes.
  lemma SignedRecord(keccak: Keccak, claimId: string, recipient: string, escrow: string, nonce: u64, config: Config, yParity: bool,
                     signature: seq<byte>)
    requires ReadsAs(claimId, 32) && ReadsAs(escrow, 20) && |signature| == 64
    ensures BuildDraft(keccak, claimId, recipient, escrow, nonce, config).Ok?
    ensures var draft := BuildDraft(keccak, claimId, recipient, escrow, nonce, config).value;
      WithSignature(keccak, draft, yParity, signature).Some?
      && SignDraft(keccak, claimId, recipient, escrow, nonce, config, yParity, signature)
         == Ok(WithSignature(keccak, draft, yParity, signature).value)
      && CheckRaw(keccak, WithSignature(keccak, draft, yParity, signature).value).Ok?
  {
    RefundCallRoundTrip(keccak, claimId);
    SameTransaction2(keccak, claimId, recipient, escrow, nonce, config);
    hide RefundCalldata, KeccakHex, SignedRaw, Decoded, CheckRaw, Prefixed, SigningPayload, RefundTransaction, RecordTransaction;
    SignedDraftPassesTheChecks(keccak, claimId, recipient, escrow, nonce, config, yParity, signature);
  }

  lemma SameTransaction2(keccak: Keccak, claimId: string, recipient: string, escrow: string, nonce: u64, config: Config)
    requires ReadsAs(claimId, 32) && ReadsAs(escrow, 20)
    ensures RefundTransaction(keccak, claimId, escrow, nonce, config).Ok?
    ensures BuildDraft(keccak, claimId, recipient, escrow, nonce, config).Ok?
    ensures RecordTransaction(keccak, BuildDraft(keccak, claimId, recipient, escrow, nonce, config).value)
      == RefundTransaction(keccak, claimId, escrow, nonce, config)
  {
    RefundCallRoundTrip(keccak, claimId);
    hide RefundCalldata, KeccakHex, SignedRaw, Decoded, Prefixed, SigningPayload;
  }

  /// Everything a refunded record says: what was asked for, a signature over it, bytes that read as the
  /// record's own transaction under that signature, where they were sent, and the receipt.
  predicate Says(keccak: Keccak, r: Record, claimId: string, recipient: string, escrow: string, nonce: u64, config: Config,
                 yParity: bool, signature: seq<byte>, text: string, now: nat, a: Answer)
    requires a.Confirmation? && a.receipt.Some? && |signature| == 64
  {
    r.claimId == claimId && r.recipient == recipient && r.escrow == escrow && r.nonce == nonce
    && r.chainId == config.chainId && r.maxPriorityFee == config.maxPriorityFee && r.maxFee == config.maxFee
    && r.gasLimit == config.gasLimit && r.keyName == Some(config.keyName)
    && CheckRaw(keccak, r).Ok?
    && (var raw := CheckRaw(keccak, r).value;
        IsItsOwnSigned(keccak, r, raw) && r.rawHex == Some(Prefixed(raw))
        && ReadSignedRaw(raw).value.yParity == yParity && ReadSignedRaw(raw).value.r == signature[..32]
        && ReadSignedRaw(raw).value.s == signature[32..])
    && r.rpcTxHash == Some(text) && r.broadcastAt == Some(now) && r.lastError.None?
    && r.receiptBlockNumber == Some(a.receipt.value.block) && r.receiptBlockHash == Some(a.receipt.value.hash)
    && r.receiptStatus == Some(true)
  }

  // ---------------------------------------------------------------- the course

  /// What the six messages bring.
  datatype Replies = Replies(pending: u64, yParity: bool, signature: seq<byte>, text: string, confirmation: Answer)

  function Messages(id: nat, s: string, now: nat, i: Replies): seq<Step> {
    [Command(id, s, now), Continue(id, PendingNonce(i.pending)), Continue(id, PublicKey(true)),
     Continue(id, Answer.Signed(i.signature, Some(i.yParity))), Continue(id, Hash(i.text)), Continue(id, i.confirmation)]
  }

  lemma SixSteps(keccak: Keccak, worlds: seq<World>, steps: seq<Step>)
    requires |worlds| == 7 && |steps| == 6
    requires Goes(keccak, worlds[0], steps[0], worlds[1]) && Goes(keccak, worlds[1], steps[1], worlds[2])
    requires Goes(keccak, worlds[2], steps[2], worlds[3]) && Goes(keccak, worlds[3], steps[3], worlds[4])
    requires Goes(keccak, worlds[4], steps[4], worlds[5]) && Goes(keccak, worlds[5], steps[5], worlds[6])
    ensures IsRun(keccak, worlds, steps)
  {
    hide Goes;
  }

  /// The world after the command and before the confirmation: the one call, with the lease, in `phase`.
  function Midway(w: World, id: nat, s: string, now: nat, phase: Phase, next: Option<u64>, records: map<string, Record>): World {
    var begun := Installed(w.(st := Due(w, s, now)), id, s, NewLease(1, now), NewCall(w, s, 1, now));
    begun.(nextNonce := next, records := records, calls := w.calls[id := NewCall(w, s, 1, now).(phase := phase)])
  }

  lemma MidwayHolds(w: World, id: nat, s: string, now: nat, phase: Phase, next: Option<u64>, records: map<string, Record>)
    ensures var u := Midway(w, id, s, now, phase, next, records);
      id in u.calls && Holds(u, u.calls[id]) && u.calls[id] == NewCall(w, s, 1, now).(phase := phase)
      && u.st == Due(w, s, now) && u.records == records && u.nextNonce == next && Steward(u, s) == Steward(w, s)
  {
    hide Due;
  }

  lemma MidwayGoesOn(w: World, id: nat, s: string, now: nat, p: Phase, q: Phase, next: Option<u64>, later: Option<u64>,
                     records: map<string, Record>, record: Record)
    ensures var u := Midway(w, id, s, now, p, next, records);
      var c := NewCall(w, s, 1, now);
      Waiting(u, id, c.(phase := q)) == Midway(w, id, s, now, q, next, records)
      && Waiting(Stored(u.(nextNonce := later), s, record), id, c.(phase := q))
         == Midway(w, id, s, now, q, later, records[s := record])
  {
    hide Due;
    var c := NewCall(w, s, 1, now);
    assert w.calls[id := c.(phase := p)][id := c.(phase := q)] == w.calls[id := c.(phase := q)];
  }

  /// The end: the refund is recorded, and the command has left nothing behind but the record.
  ghost predicate Refunded(keccak: Keccak, w: World, v: World, s: string, now: nat, i: Replies)
    requires i.confirmation.Confirmation? && i.confirmation.receipt.Some? && |i.signature| == 64
  {
    IsRefunded(v, s) && s in v.st.claims && v.st.claims[s].refundedAt == Some(now)
    && v.calls == w.calls && v.leases == w.leases && v.inFlight == w.inFlight
    && v.nextNonce == Some(Next(Larger(w.nextNonce, i.pending)))
    && s in v.records && v.records == w.records[s := v.records[s]]
    && Says(keccak, v.records[s], ClaimOf(w, s), Steward(w, s), w.escrow, Larger(w.nextNonce, i.pending), w.config,
            i.yParity, i.signature, i.text, now, i.confirmation)
  }

  lemma CallGoes(w: World, id: nat, s: string, now: nat, next: Option<u64>, records: map<string, Record>, phase: Phase)
    requires id !in w.calls && s !in w.leases && s !in w.inFlight
    ensures var u := Midway(w, id, s, now, phase, next, records);
      id in u.calls && u.calls[id].session == s && u.calls[id].now == now && Holds(u, u.calls[id])
      && u.calls - {id} == w.calls && u.leases - {s} == w.leases && u.inFlight - {s} == w.inFlight
      && u.nextNonce == next && u.records == records && u.st == Due(w, s, now)
  {
    hide Due;
    var c := NewCall(w, s, 1, now);
    assert w.calls[id := c.(phase := phase)] - {id} == w.calls;
    assert w.leases[s := NewLease(1, now)] - {s} == w.leases;
    assert w.inFlight + {s} - {s} == w.inFlight;
  }

  lemma FinishLeaves(w: World, id: nat, s: string, now: nat, next: Option<u64>, records: map<string, Record>, phase: Phase, record: Record)
    requires FactoryRuns.Safe(w.st) && Owed(w.st, s, now) && Untried(w, s) && id !in w.calls
    ensures var u := Midway(w, id, s, now, phase, next, records);
      id in u.calls
      && (var v := Finish(Stored(u, s, record), id);
          IsRefunded(v, s) && s in v.st.claims && v.st.claims[s].refundedAt == Some(now)
          && v.calls == w.calls && v.leases == w.leases && v.inFlight == w.inFlight && v.nextNonce == next
          && v.records == records[s := record])
  {
    hide FactoryRuns.Safe, Due, FinalizeRefund, Owed, Midway, RefundConfirmed.Open;
    OwedOpens(w, s, now);
    DueIsSafe(w, s, now);
    RefundConfirmed.FinalizeRefunds(Due(w, s, now), s, now);
    CallGoes(w, id, s, now, next, records, phase);
  }

  lemma DueIsSafe(w: World, s: string, now: nat)
    requires FactoryRuns.Safe(w.st)
    ensures FactoryRuns.Safe(Due(w, s, now))
  {
    hide FactoryRuns.Safe, Factory.ApplyEvent;
    FactoryRuns.EventKeepsSafe(w.st, s, Factory.User, now, Factory.SessionExpired, "refund requested by verified EVM steward");
  }

  lemma RecordSays(keccak: Keccak, signed: Record, claimId: string, recipient: string, escrow: string, nonce: u64, config: Config,
                   yParity: bool, signature: seq<byte>, text: string, now: nat, a: Answer)
    requires |signature| == 64 && SignDraft(keccak, claimId, recipient, escrow, nonce, config, yParity, signature) == Ok(signed)
    requires a.Confirmation? && a.receipt.Some? && a.receipt.value.status
    ensures Says(keccak, Seen(Sent(signed, text, now), a), claimId, recipient, escrow, nonce, config, yParity, signature, text, now, a)
  {
    hide ReadSignedRaw, SignsItsOwn;
    SignedDraftPassesTheChecks(keccak, claimId, recipient, escrow, nonce, config, yParity, signature);
    var r := Seen(Sent(signed, text, now), a);
    SameChecks(keccak, signed, r);
    SignedHex(keccak, claimId, recipient, escrow, nonce, config, yParity, signature);
    OwnSignedAlike(keccak, signed, r, CheckRaw(keccak, signed).value);
  }

  lemma OwnSignedAlike(keccak: Keccak, x: Record, y: Record, raw: seq<byte>)
    requires SameSignedFields(x, y) && IsItsOwnSigned(keccak, x, raw)
    ensures IsItsOwnSigned(keccak, y, raw)
  {
    hide ReadSignedRaw, Decoded, Prefixed, ReadRefundCall;
  }

  lemma SignedHex(keccak: Keccak, claimId: string, recipient: string, escrow: string, nonce: u64, config: Config, yParity: bool,
                  signature: seq<byte>)
    requires SignDraft(keccak, claimId, recipient, escrow, nonce, config, yParity, signature).Ok?
    ensures var r := SignDraft(keccak, claimId, recipient, escrow, nonce, config, yParity, signature).value;
      r.lastError.None? && (CheckRaw(keccak, r).Ok? ==> r.rawHex == Some(Prefixed(CheckRaw(keccak, r).value)))
  {
    hide RefundTransaction, KeccakHex, SigningPayload, SignedRaw, Prefixed, Decoded;
    var tx := RefundTransaction(keccak, claimId, escrow, nonce, config);
    if tx.Ok? && |signature| == 64 {
      ReadingInvertsPrinting(SignedRaw(tx.value, yParity, signature));
    }
  }

  /// The hash that is signed for is printed in lower case, so the node's answer names it in either case.
  lemma SignedHashIsLower(keccak: Keccak, r: Record)
    requires CheckRaw(keccak, r).Ok?
    ensures r.rawHash.Some? && IsLower(r.rawHash.value)
  {
    HexIsLower(keccak(CheckRaw(keccak, r).value));
  }

  /// Main result. For every session whose money is in and whose time is over, under any replies that a
  /// willing node gives, six messages record the refund. It is a transaction under the larger of the
  /// cursor and the node's pending nonce, with the fees and the escrow of the command's first message,
  /// signed as the key service signed it, sent and confirmed as the node answered; the command leaves
  /// no lease behind, and the cursor is past its nonce.
  lemma RefundSucceeds(keccak: Keccak, w: World, id: nat, s: string, now: nat, i: Replies) returns (worlds: seq<World>)
    requires FactoryRuns.Safe(w.st) && Owed(w.st, s, now) && Untried(w, s) && id !in w.calls
    requires |i.signature| == 64 && Deep(i.confirmation, w.st.depth) && i.confirmation.Confirmation? && i.confirmation.receipt.Some?
    requires var signed := SignDraft(keccak, ClaimOf(w, s), Steward(w, s), w.escrow, Larger(w.nextNonce, i.pending), w.config,
                                     i.yParity, i.signature);
      signed.Ok? ==> signed.value.rawHash.Some? && SameUpToCase(i.text, signed.value.rawHash.value)
    ensures IsRun(keccak, worlds, Messages(id, s, now, i)) && worlds[0] == w
    ensures Refunded(keccak, w, worlds[6], s, now, i)
  {
    hide Goes, Due, BuildDraft, SignDraft, WithSignature, CheckRaw, Installed, NewLease, NewCall, Midway, Waiting, Stored, Finish, Says,
      Owed, FactoryRuns.Safe, ClaimOf, Steward, Deep, IsRun, IsRefunded, Seen, Sent, ReadsAs;
    var nonce := Larger(w.nextNonce, i.pending);
    SignedRecord(keccak, ClaimOf(w, s), Steward(w, s), w.escrow, nonce, w.config, i.yParity, i.signature);
    var draft := BuildDraft(keccak, ClaimOf(w, s), Steward(w, s), w.escrow, nonce, w.config).value;
    var signed := WithSignature(keccak, draft, i.yParity, i.signature).value;
    SignedHashIsLower(keccak, signed);
    worlds := Worlds(w, id, s, now, i, draft, signed);
    CourseGoes(keccak, w, id, s, now, i, draft, signed);
    SixSteps(keccak, worlds, Messages(id, s, now, i));
    DeepSucceeds(i.confirmation, w.st.depth);
    RecordSays(keccak, signed, ClaimOf(w, s), Steward(w, s), w.escrow, nonce, w.config, i.yParity, i.signature, i.text, now, i.confirmation);
    EndsRefunded(keccak, w, id, s, now, i, draft, signed);
  }

  lemma DeepSucceeds(a: Answer, depth: nat)
    requires Deep(a, depth)
    ensures a.Confirmation? && a.receipt.Some? && a.receipt.value.status
  {
  }

  function Worlds(w: World, id: nat, s: string, now: nat, i: Replies, draft: Record, signed: Record): seq<World>
    requires i.confirmation.Confirmation? && i.confirmation.receipt.Some? && id !in w.calls
  {
    var next := Some(Next(Larger(w.nextNonce, i.pending)));
    var sent := Sent(signed, i.text, now);
    var last := Midway(w, id, s, now, AtConfirm(sent, i.text, ByBroadcast), next, w.records[s := sent]);
    MidwayHolds(w, id, s, now, AtConfirm(sent, i.text, ByBroadcast), next, w.records[s := sent]);
    [w, Midway(w, id, s, now, AtNonce, w.nextNonce, w.records),
     Midway(w, id, s, now, AtKey(draft), next, w.records[s := draft]),
     Midway(w, id, s, now, AtSign(draft), next, w.records[s := draft]),
     Midway(w, id, s, now, AtSend(signed, ByBroadcast), next, w.records[s := signed]),
     last, Finish(Stored(last, s, Seen(sent, i.confirmation)), id)]
  }

  lemma CourseGoes(keccak: Keccak, w: World, id: nat, s: string, now: nat, i: Replies, draft: Record, signed: Record)
    requires FactoryRuns.Safe(w.st) && Owed(w.st, s, now) && Untried(w, s) && id !in w.calls
    requires Deep(i.confirmation, w.st.depth) && i.confirmation.Confirmation? && i.confirmation.receipt.Some?
    requires BuildDraft(keccak, ClaimOf(w, s), Steward(w, s), w.escrow, Larger(w.nextNonce, i.pending), w.config) == Ok(draft)
    requires WithSignature(keccak, draft, i.yParity, i.signature) == Some(signed) && CheckRaw(keccak, signed).Ok?
    requires signed.rawHash.Some? && SameUpToCase(i.text, signed.rawHash.value) && IsLower(signed.rawHash.value)
    ensures var worlds, steps := Worlds(w, id, s, now, i, draft, signed), Messages(id, s, now, i);
      forall k :: 0 <= k < 6 ==> Goes(keccak, worlds[k], steps[k], worlds[k + 1])
  {
    hide Goes, Due, BuildDraft, WithSignature, CheckRaw, Installed, NewLease, Midway, Waiting, Stored, Finish, Owed, FactoryRuns.Safe,
      Deep, Seen, Sent, Untried;
    var next, c := Some(Next(Larger(w.nextNonce, i.pending))), NewCall(w, s, 1, now);
    var sent := Sent(signed, i.text, now);
    var worlds := Worlds(w, id, s, now, i, draft, signed);
    FirstWorld(keccak, w, id, s, now);
    SecondWorld(keccak, w, id, s, now, i.pending, draft);
    MidwayHolds(w, id, s, now, AtKey(draft), next, w.records[s := draft]);
    MidwayHolds(w, id, s, now, AtSign(draft), next, w.records[s := draft]);
    MidwayHolds(w, id, s, now, AtSend(signed, ByBroadcast), next, w.records[s := signed]);
    MidwayHolds(w, id, s, now, AtConfirm(sent, i.text, ByBroadcast), next, w.records[s := sent]);
    GetsKey(keccak, worlds[2], id, draft);
    MidwayGoesOn(w, id, s, now, AtKey(draft), AtSign(draft), next, next, w.records[s := draft], draft);
    GetsSigned(keccak, worlds[3], id, draft, i.yParity, i.signature);
    Overwritten(w, id, s, now, AtSign(draft), AtSend(signed, ByBroadcast), next, draft, signed);
    GetsSent(keccak, worlds[4], id, signed, i.text);
    Overwritten(w, id, s, now, AtSend(signed, ByBroadcast), AtConfirm(sent, i.text, ByBroadcast), next, signed, sent);
    GetsConfirmed(keccak, worlds[5], id, sent, i.text, i.confirmation);
  }

  lemma Overwritten(w: World, id: nat, s: string, now: nat, p: Phase, q: Phase, next: Option<u64>, x: Record, y: Record)
    ensures var u := Midway(w, id, s, now, p, next, w.records[s := x]);
      Waiting(Stored(u, s, y), id, NewCall(w, s, 1, now).(phase := q)) == Midway(w, id, s, now, q, next, w.records[s := y])
  {
    hide Due;
    var c := NewCall(w, s, 1, now);
    assert w.calls[id := c.(phase := p)][id := c.(phase := q)] == w.calls[id := c.(phase := q)];
    assert w.records[s := x][s := y] == w.records[s := y];
  }

  lemma FirstWorld(keccak: Keccak, w: World, id: nat, s: string, now: nat)
    requires FactoryRuns.Safe(w.st) && Owed(w.st, s, now) && Untried(w, s) && id !in w.calls
    ensures Goes(keccak, w, Command(id, s, now), Midway(w, id, s, now, AtNonce, w.nextNonce, w.records))
  {
    hide Goes, Due, FactoryRuns.Safe, Owed, Untried;
    Begins(keccak, w, id, s, now);
    assert NewCall(w, s, 1, now).(phase := AtNonce) == NewCall(w, s, 1, now);
  }

  lemma SecondWorld(keccak: Keccak, w: World, id: nat, s: string, now: nat, pending: u64, draft: Record)
    requires FactoryRuns.Safe(w.st) && Owed(w.st, s, now) && Untried(w, s)
    requires BuildDraft(keccak, ClaimOf(w, s), Steward(w, s), w.escrow, Larger(w.nextNonce, pending), w.config) == Ok(draft)
    ensures Goes(keccak, Midway(w, id, s, now, AtNonce, w.nextNonce, w.records), Continue(id, PendingNonce(pending)),
                 Midway(w, id, s, now, AtKey(draft), Some(Next(Larger(w.nextNonce, pending))), w.records[s := draft]))
  {
    hide Goes, Due, BuildDraft, FactoryRuns.Safe, Owed, Midway, Stored, Waiting;
    var u := Midway(w, id, s, now, AtNonce, w.nextNonce, w.records);
    MidwayHolds(w, id, s, now, AtNonce, w.nextNonce, w.records);
    OwedOpens(w, s, now);
    Drafts(keccak, u, id, pending, draft);
    MidwayGoesOn(w, id, s, now, AtNonce, AtKey(draft), w.nextNonce, Some(Next(Larger(w.nextNonce, pending))), w.records, draft);
  }

  lemma EndsRefunded(keccak: Keccak, w: World, id: nat, s: string, now: nat, i: Replies, draft: Record, signed: Record)
    requires FactoryRuns.Safe(w.st) && Owed(w.st, s, now) && Untried(w, s) && id !in w.calls
    requires i.confirmation.Confirmation? && i.confirmation.receipt.Some? && |i.signature| == 64
    requires Says(keccak, Seen(Sent(signed, i.text, now), i.confirmation), ClaimOf(w, s), Steward(w, s), w.escrow,
                  Larger(w.nextNonce, i.pending), w.config, i.yParity, i.signature, i.text, now, i.confirmation)
    ensures Refunded(keccak, w, Worlds(w, id, s, now, i, draft, signed)[6], s, now, i)
  {
    hide Says, Owed, FactoryRuns.Safe, Midway, Finish, Seen, Sent, Stored;
    var next, sent := Some(Next(Larger(w.nextNonce, i.pending))), Sent(signed, i.text, now);
    FinishLeaves(w, id, s, now, next, w.records[s := sent], AtConfirm(sent, i.text, ByBroadcast), Seen(sent, i.confirmation));
    assert w.records[s := sent][s := Seen(sent, i.confirmation)] == w.records[s := Seen(sent, i.confirmation)];
  }
}
