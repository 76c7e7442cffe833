/// Refund commands as they run between awaits: every step is one message, and a lease generation
/// decides whether a continuation may still write (backend/factory/src/escrow.rs,
/// backend/factory/src/evm.rs, backend/factory/src/api/public.rs).
module Refund {
  import opened Bits
  import opened Deposits
  import opened Escrow
  import opened Evm
  import Factory
  import FactoryRuns
  import opened Hex
  import opened Limits
  import opened Options
  import opened RefundDraft
  import opened RlpEncoder
  import Sanitize

  const REFUND_COMMAND_LEASE_MS: nat := 60000

  datatype Lease = Lease(generation: nat, expiresAt: nat)

  /// Who is waiting for a confirmation: a call that found a sent transaction, one that resumed a
  /// signed one, or one that signed it itself. Only the last stores its record when it fails.
  datatype Via = ByHash | ByRaw | ByBroadcast

  /// What a call is waiting for, with the record it carries across the await.
  datatype Phase =
    | AtNonce
    | AtKey(plan: Record)
    | AtSign(plan: Record)
    | AtSend(plan: Record, via: Via)
    | AtConfirm(plan: Record, hash: string, via: Via)

  /// A command in flight. The time, the escrow address and the fees are those of its first message.
  datatype Call = Call(session: string, generation: nat, now: nat, escrow: string, config: Config, depth: nat, phase: Phase)

  /// `nextNonce` is shared with releases; `released` remembers the nonces they took.
  datatype World = World(
    st: Factory.State, stewards: map<string, string>, records: map<string, Record>,
    leases: map<string, Lease>, inFlight: set<string>, nextNonce: Option<u64>, released: set<nat>,
    calls: map<nat, Call>, escrow: string, config: Config)

  /// What an await delivers; `Failed` is a rejected call.
  datatype Answer =
    | Failed
    | PendingNonce(nonce: u64)
    | PublicKey(enoughCycles: bool)
    | Signed(signature: seq<byte>, yParity: Option<bool>)
    | Hash(text: string)
    | Confirmation(latest: nat, receipt: Option<Receipt>, canonical: string)

  datatype Receipt = Receipt(block: nat, hash: string, status: bool)

  function Steward(w: World, session: string): string {
    if session in w.stewards then w.stewards[session] else ""
  }

  function ClaimOf(w: World, session: string): string {
    if session in w.st.sessions then w.st.sessions[session].claimId else ""
  }

  // ---------------------------------------------------------------- fencing

  predicate Holds(w: World, c: Call) {
    c.session in w.leases && w.leases[c.session].generation == c.generation
  }

  /// `clear_refund_in_flight` when the command returns.
  function Ended(w: World, id: nat): World
    requires id in w.calls
  {
    var c := w.calls[id];
    var over := w.(calls := w.calls - {id});
    if Holds(w, c) then over.(leases := over.leases - {c.session}, inFlight := over.inFlight - {c.session}) else over
  }

  function Stored(w: World, session: string, record: Record): World {
    w.(records := w.records[session := record])
  }

  function Waiting(w: World, id: nat, c: Call): World {
    w.(calls := w.calls[id := c])
  }

  // ---------------------------------------------------------------- the pieces of a command

  /// `reserve_release_nonce_value`
  function Reserve(next: Option<u64>, pending: u64): u64 {
    if next.Some? && next.value > pending then next.value else pending
  }

  function Following(nonce: u64): u64 {
    if nonce < U64_MAX then nonce + 1 else nonce
  }

  /// `confirm_release_receipt_depth`, its three reads taken together: the record with what was
  /// learnt about the receipt, and whether the transaction is confirmed; `None` is an error.
  function ConfirmDepth(record: Record, depth: nat, answer: Answer): (Record, Option<bool>)
    requires answer.Confirmation?
  {
    match answer.receipt
    case None => (record.(receiptBlockNumber := None, receiptBlockHash := None, receiptStatus := None), Some(false))
    case Some(r) =>
      var seen := record.(receiptBlockNumber := Some(r.block), receiptBlockHash := Some(r.hash), receiptStatus := Some(r.status));
      if !r.status || answer.latest < r.block || !SameHash(answer.canonical, r.hash) then (seen, None)
      else if answer.latest - r.block >= U64_MAX then (seen, None)
      else (seen, Some(answer.latest - r.block + 1 >= depth))
  }

  /// What a signature adds to a draft; `None` when the transaction cannot be built.
  function WithSignature(keccak: Keccak, plan: Record, yParity: bool, signature: seq<byte>): Option<Record> {
    var tx := RecordTransaction(keccak, plan);
    if tx.Err? || |signature| != 64 then None
    else
      var raw := SignedRaw(tx.value, yParity, signature);
      Some(plan.(signature := Some(Signature(yParity, Prefixed(signature[..32]), Prefixed(signature[32..]))),
                 rawHash := Some(KeccakHex(keccak, raw)), rawHex := Some(Prefixed(raw))))
  }

  /// A failed broadcast stores the record with its error; other ways of failing store nothing.
  function GiveUp(w: World, id: nat, record: Record, via: Via): World
    requires id in w.calls
  {
    var c := w.calls[id];
    Ended(if via.ByBroadcast? then Stored(w, c.session, record.(lastError := Some("refund failed"))) else w, id)
  }

  /// The confirmed refund is recorded and, in the same message, the command returns.
  function Finish(w: World, id: nat): World
    requires id in w.calls
  {
    var c := w.calls[id];
    Ended(w.(st := FinalizeRefund(w.st, c.session, c.now).state), id)
  }

  /// Send the stored bytes, after the checks that precede every broadcast.
  function Send(keccak: Keccak, w: World, id: nat, c: Call, record: Record, via: Via): World
    requires id in w.calls
  {
    if CheckRaw(keccak, record).Err? then GiveUp(w, id, record, via)
    else Waiting(w, id, c.(phase := AtSend(record, via)))
  }

  // ---------------------------------------------------------------- the first message

  /// What a command does before its first await, once its lease is installed.
  function Begin(keccak: Keccak, w: World, id: nat): World
    requires id in w.calls
  {
    var c := w.calls[id];
    var check := ValidateRefund(w.st, c.session, c.now);
    if !check.Allowed? then Ended(w, id)
    else if c.session !in w.records then Waiting(w, id, c.(phase := AtNonce))
    else
      var record := w.records[c.session];
      if record.rpcTxHash.Some? then Waiting(w, id, c.(phase := AtConfirm(record, record.rpcTxHash.value, ByHash)))
      else if record.rawHash.None? then Waiting(w, id, c.(phase := AtNonce))
      else if record.rawHex.Some? then Send(keccak, w, id, c, record, ByRaw)
      else
        match Reconstruct(keccak, record)
        case Err(_) => Ended(w, id)
        case Ok(raw) =>
          var rebuilt := record.(rawHex := Some(raw));
          Send(keccak, Stored(w, c.session, rebuilt), id, c, rebuilt, ByRaw)
  }

  /// The generation a new command gets; `None` while another one is live.
  function NextGeneration(w: World, session: string, now: nat): Option<nat> {
    if session !in w.leases then Some(1)
    else
      var lease := w.leases[session];
      if session in w.inFlight && now <= lease.expiresAt then None
      else if lease.generation >= U64_MAX then None
      else Some(lease.generation + 1)
  }

  /// `authorize_and_consume` for a verified refund command, and the command's first message.
  function Acquire(keccak: Keccak, w: World, id: nat, session: string, now: nat): World {
    var generation := NextGeneration(w, session, now);
    if generation.None? || session !in w.st.sessions then w
    else
      var due := if session in w.inFlight then w.st
        else Factory.ApplyEvent(w.st, session, Factory.User, now, Factory.SessionExpired,
                                "refund requested by verified EVM steward").state;
      var expired := w.(st := due);
      if ValidateRefund(due, session, now).Refused? then expired
      else
        var lease := Lease(generation.value, if now + REFUND_COMMAND_LEASE_MS < U64_MAX then now + REFUND_COMMAND_LEASE_MS else U64_MAX);
        var c := Call(session, generation.value, now, w.escrow, w.config, w.st.depth, AtNonce);
        Begin(keccak, expired.(leases := w.leases[session := lease], inFlight := w.inFlight + {session}, calls := w.calls[id := c]), id)
  }

  // ---------------------------------------------------------------- continuations

  /// The record of the transaction to sign: the stored draft's, or a new draft under a new nonce.
  function Draft(keccak: Keccak, w: World, c: Call, pending: u64): Option<(World, Record)> {
    if c.session in w.records then
      var record := w.records[c.session];
      match ValidateDraft(keccak, record, ClaimOf(w, c.session), Steward(w, c.session), c.config.keyName)
      case Err(_) => None
      case Ok(config) =>
        match BuildDraft(keccak, record.claimId, record.recipient, record.escrow, record.nonce, config)
        case Err(_) => None
        case Ok(plan) => Some((w, plan))
    else
      var nonce := Reserve(w.nextNonce, pending);
      match BuildDraft(keccak, ClaimOf(w, c.session), Steward(w, c.session), c.escrow, nonce, c.config)
      case Err(_) => None
      case Ok(draft) => Some((Stored(w.(nextNonce := Some(Following(nonce))), c.session, draft), draft))
  }

  function AfterSend(w: World, id: nat, c: Call, record: Record, via: Via, answer: Answer): World
    requires id in w.calls
  {
    if !answer.Hash? then GiveUp(w, id, record, via)
    else if record.rawHash != Some(Sanitize.ToAsciiLowercase(answer.text)) then GiveUp(w, id, record, via)
    else
      var sent := record.(rpcTxHash := Some(answer.text), broadcastAt := Some(c.now));
      Waiting(Stored(w, c.session, sent), id, c.(phase := AtConfirm(sent, answer.text, via)))
  }

  function AfterConfirm(w: World, id: nat, c: Call, record: Record, via: Via, answer: Answer): World
    requires id in w.calls
  {
    if !answer.Confirmation? then GiveUp(w, id, record, via)
    else
      var (seen, confirmed) := ConfirmDepth(record, c.depth, answer);
      match confirmed
      case None => GiveUp(w, id, seen, via)
      case Some(done) => if done then Finish(Stored(w, c.session, seen), id) else Ended(Stored(w, c.session, seen), id)
  }

  /// A call resumes with an answer. A call whose generation is not the lease's just ends.
  function Resume(keccak: Keccak, w: World, id: nat, answer: Answer): World
    requires id in w.calls
  {
    var c := w.calls[id];
    if !Holds(w, c) then Ended(w, id)
    else
      match c.phase
      case AtNonce =>
        if !answer.PendingNonce? then Ended(w, id)
        else
          (match Draft(keccak, w, c, answer.nonce)
           case None => Ended(w, id)
           case Some((next, plan)) => Waiting(next, id, c.(phase := AtKey(plan))))
      case AtKey(plan) =>
        if !answer.PublicKey? || !answer.enoughCycles then GiveUp(w, id, plan, ByBroadcast)
        else Waiting(w, id, c.(phase := AtSign(plan)))
      case AtSign(plan) =>
        if !answer.Signed? || answer.yParity.None? then GiveUp(w, id, plan, ByBroadcast)
        else
          (match WithSignature(keccak, plan, answer.yParity.value, answer.signature)
           case None => GiveUp(w, id, plan, ByBroadcast)
           case Some(record) => Send(keccak, Stored(w, c.session, record), id, c, record, ByBroadcast))
      case AtSend(record, via) => AfterSend(w, id, c, record, via, answer)
      case AtConfirm(record, hash, via) => AfterConfirm(w, id, c, record, via, answer)
  }

  // ---------------------------------------------------------------- steps

  datatype Step =
    | Elsewhere(step: FactoryRuns.Step)
    | Reconfigure(escrow: string, config: Config)
    | ReleaseNonce(pending: u64)
    | Command(id: nat, session: string, now: nat)
    | Continue(id: nat, answer: Answer)

  /// Refunds are finalized only by commands; call numbers are not reused.
  ghost predicate Enabled(w: World, step: Step) {
    match step
    case Elsewhere(s) => FactoryRuns.Enabled(w.st, s) && !s.RefundSession?
    case Reconfigure(_, _) => true
    case ReleaseNonce(_) => true
    case Command(id, _, _) => id !in w.calls
    case Continue(id, _) => id in w.calls
  }

  ghost function After(keccak: Keccak, w: World, step: Step): World
    requires Enabled(w, step)
  {
    match step
    case Elsewhere(s) => w.(st := FactoryRuns.After(w.st, s))
    case Reconfigure(escrow, config) => w.(escrow := escrow, config := config)
    case ReleaseNonce(pending) =>
      var nonce := Reserve(w.nextNonce, pending);
      w.(nextNonce := Some(Following(nonce)), released := w.released + {nonce})
    case Command(id, session, now) => Acquire(keccak, w, id, session, now)
    case Continue(id, answer) => Resume(keccak, w, id, answer)
  }

  /// A superseded continuation changes nothing but itself: no session, claim, record, nonce, lease
  /// or other call.
  lemma SupersededChangesNothing(keccak: Keccak, w: World, id: nat, answer: Answer)
    requires id in w.calls && !Holds(w, w.calls[id])
    ensures Resume(keccak, w, id, answer) == w.(calls := w.calls - {id})
  {
  }
}
