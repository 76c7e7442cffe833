/// The stored record of a refund transaction and what can be recovered from it
/// (backend/factory/src/evm.rs).
module RefundDraft {
  import opened Bits
  import opened Calldata
  import opened Evm
  import opened Hex
  import opened Options
  import opened RlpEncoder

  datatype Config = Config(chainId: u64, maxPriorityFee: u64, maxFee: u64, gasLimit: u64, keyName: string)

  datatype Signature = Signature(yParity: bool, r: string, s: string)

  datatype Record = Record(
    claimId: string, recipient: string, escrow: string, nonce: u64,
    chainId: u64, maxPriorityFee: u64, maxFee: u64, gasLimit: u64, keyName: Option<string>,
    calldataHex: string, signingPayloadHash: Option<string>, signature: Option<Signature>,
    rawHash: Option<string>, rawHex: Option<string>, rpcTxHash: Option<string>, broadcastAt: Option<nat>,
    receiptBlockNumber: Option<nat>, receiptBlockHash: Option<string>, receiptStatus: Option<bool>,
    lastError: Option<string>)

  function KeccakHex(keccak: Keccak, bytes: seq<byte>): string {
    Prefixed(keccak(bytes))
  }

  // ---------------------------------------------------------------- building

  /// The calldata is read before the escrow address.
  function RefundTransaction(keccak: Keccak, claimId: string, escrow: string, nonce: u64, config: Config)
    : (tx: Result<Transaction, FactoryError>)
    ensures tx.Ok? ==> |tx.value.data| == 36
  {
    match RefundCalldata(keccak, claimId)
    case Err(e) => Err(e)
    case Ok(data) =>
      RefundCallRoundTrip(keccak, claimId);
      match FixedHex(escrow, 20)
      case Err(e) => Err(e)
      case Ok(target) => Ok(Transaction(config.chainId, nonce, config.maxPriorityFee, config.maxFee, config.gasLimit, target, data))
  }

  /// `build_refund_transaction_draft`
  function BuildDraft(keccak: Keccak, claimId: string, recipient: string, escrow: string, nonce: u64, config: Config)
    : Result<Record, FactoryError>
  {
    match RefundTransaction(keccak, claimId, escrow, nonce, config)
    case Err(e) => Err(e)
    case Ok(tx) =>
      Ok(Record(claimId, recipient, escrow, nonce,
                config.chainId, config.maxPriorityFee, config.maxFee, config.gasLimit, Some(config.keyName),
                Prefixed(tx.data), Some(KeccakHex(keccak, SigningPayload(tx))), None,
                None, None, None, None, None, None, None, None))
  }

  function RecordConfig(record: Record, keyName: string): Config {
    Config(record.chainId, record.maxPriorityFee, record.maxFee, record.gasLimit, record.keyName.GetOr(keyName))
  }

  /// `validate_refund_transaction_draft`
  function ValidateDraft(keccak: Keccak, record: Record, claimId: string, recipient: string, keyName: string)
    : Result<Config, FactoryError>
  {
    if record.claimId != claimId || record.recipient != recipient then
      Err(ManagementCallFailed("resume_refund_draft", "persisted refund draft identity does not match the session"))
    else
      var config := RecordConfig(record, keyName);
      match BuildDraft(keccak, record.claimId, record.recipient, record.escrow, record.nonce, config)
      case Err(e) => Err(e)
      case Ok(expected) =>
        if expected.calldataHex != record.calldataHex || expected.signingPayloadHash != record.signingPayloadHash then
          Err(ManagementCallFailed("resume_refund_draft", "persisted refund draft transaction fields are inconsistent"))
        else Ok(config)
  }

  /// What a completed signature adds to a draft (the refund branch of `broadcast_release_transaction`).
  function SignDraft(keccak: Keccak, claimId: string, recipient: string, escrow: string, nonce: u64, config: Config,
                     yParity: bool, signature: seq<byte>): (record: Result<Record, FactoryError>)
    ensures record.Ok? ==> record.value.rawHex.Some?
  {
    match BuildDraft(keccak, claimId, recipient, escrow, nonce, config)
    case Err(e) => Err(e)
    case Ok(draft) =>
      var tx := RefundTransaction(keccak, claimId, escrow, nonce, config).value;
      if |signature| != 64 then Err(ManagementCallFailed("sign_with_ecdsa", "signature must be 64 bytes"))
      else
        var raw := SignedRaw(tx, yParity, signature);
        Ok(draft.(signature := Some(Signature(yParity, Prefixed(signature[..32]), Prefixed(signature[32..]))),
                  rawHash := Some(KeccakHex(keccak, raw)), rawHex := Some(Prefixed(raw))))
  }

  /// `reconstruct_legacy_refund_raw_transaction`
  function Reconstruct(keccak: Keccak, record: Record): Result<string, FactoryError> {
    match RefundCalldata(keccak, record.claimId)
    case Err(e) => Err(e)
    case Ok(data) =>
      if Prefixed(data) != record.calldataHex then
        Err(ManagementCallFailed("resume_refund_broadcast", "legacy refund calldata does not match the deterministic refund plan"))
      else if record.signature.None? then
        Err(ManagementCallFailed("resume_refund_broadcast", "legacy refund requires explicit migration: signature is missing"))
      else
        match Decoded(record.signature.value.r)
        case None => Err(InvalidAmount(record.signature.value.r))
        case Some(r) =>
          match Decoded(record.signature.value.s)
          case None => Err(InvalidAmount(record.signature.value.s))
          case Some(s) =>
            match RefundTransaction(keccak, record.claimId, record.escrow, record.nonce, RecordConfig(record, "key_1"))
            case Err(e) => Err(e)
            case Ok(tx) =>
              match SignedRawOrError(tx, record.signature.value.yParity, r + s)
              case Err(e) => Err(e)
              case Ok(raw) =>
                if record.rawHash.None? then
                  Err(ManagementCallFailed("resume_refund_broadcast", "legacy refund requires explicit migration: raw transaction hash is missing"))
                else if KeccakHex(keccak, raw) != record.rawHash.value then
                  Err(ManagementCallFailed("resume_refund_broadcast", "legacy refund reconstruction does not match its persisted transaction hash"))
                else Ok(Prefixed(raw))
  }

  /// The checks a stored raw transaction passes before every broadcast.
  function CheckRaw(keccak: Keccak, record: Record): Result<seq<byte>, FactoryError> {
    match record.rawHex
    case None => Err(ManagementCallFailed("resume_refund_broadcast", "persisted refund intent is missing exact raw transaction bytes"))
    case Some(rawHex) =>
      match Decoded(rawHex)
      case None => Err(InvalidAmount(rawHex))
      case Some(raw) =>
        if raw == [] || |raw| > 2048 || !("0x" <= rawHex) then
          Err(ManagementCallFailed("resume_refund_broadcast", "persisted refund raw transaction is empty, oversized, or not canonical 0x hex"))
        else if record.rawHash != Some(KeccakHex(keccak, raw)) then
          Err(ManagementCallFailed("resume_refund_broadcast", "persisted refund raw transaction hash mismatch"))
        else Ok(raw)
  }

  // ---------------------------------------------------------------- what a record determines

  /// The transaction a record stands for, by its own fields alone.
  function RecordTransaction(keccak: Keccak, record: Record): Result<Transaction, FactoryError> {
    RefundTransaction(keccak, record.claimId, record.escrow, record.nonce, RecordConfig(record, ""))
  }

  /// A fresh draft validates, to the very configuration it was built from, whatever key is configured now.
  lemma DraftValidates(keccak: Keccak, claimId: string, recipient: string, escrow: string, nonce: u64, config: Config, keyName: string)
    requires BuildDraft(keccak, claimId, recipient, escrow, nonce, config).Ok?
    ensures var draft := BuildDraft(keccak, claimId, recipient, escrow, nonce, config).value;
      ValidateDraft(keccak, draft, claimId, recipient, keyName) == Ok(config)
      && BuildDraft(keccak, draft.claimId, draft.recipient, draft.escrow, draft.nonce, config) == Ok(draft)
  {
    var draft := BuildDraft(keccak, claimId, recipient, escrow, nonce, config).value;
    assert RecordConfig(draft, keyName) == config;
  }

  lemma ValidatesByTransaction(keccak: Keccak, record: Record, claimId: string, recipient: string, keyName: string)
    ensures ValidateDraft(keccak, record, claimId, recipient, keyName).Ok?
      <==> (record.claimId == claimId && record.recipient == recipient
            && RecordTransaction(keccak, record).Ok?
            && record.calldataHex == Prefixed(RecordTransaction(keccak, record).value.data)
            && record.signingPayloadHash == Some(KeccakHex(keccak, SigningPayload(RecordTransaction(keccak, record).value))))
  {
    assert RefundTransaction(keccak, record.claimId, record.escrow, record.nonce, RecordConfig(record, keyName))
      == RecordTransaction(keccak, record);
  }

  /// The transaction has the fields the record shows, goes to the record's escrow with the record's
  /// calldata, and calls the refund of the record's claim.
  predicate IsItsOwn(keccak: Keccak, record: Record, tx: Transaction) {
    tx.chainId == record.chainId && tx.nonce == record.nonce
    && tx.maxPriorityFee == record.maxPriorityFee && tx.maxFee == record.maxFee && tx.gasLimit == record.gasLimit
    && Decoded(record.escrow) == Some(tx.target)
    && Decoded(record.calldataHex) == Some(tx.data) && record.calldataHex == Prefixed(tx.data)
    && Decoded(record.claimId).Some? && ReadRefundCall(keccak, tx.data) == Decoded(record.claimId)
  }

  /// The bytes read as the record's own transaction, and their hash is the record's signing hash.
  predicate SignsItsOwn(keccak: Keccak, record: Record, payload: seq<byte>) {
    ReadSigningPayload(payload).Some? && IsItsOwn(keccak, record, ReadSigningPayload(payload).value)
    && record.signingPayloadHash == Some(Prefixed(keccak(payload)))
  }

  lemma OneRefundCall(keccak: Keccak, claimId: string, data: seq<byte>)
    requires Decoded(claimId).Some? && ReadRefundCall(keccak, data) == Decoded(claimId)
    ensures RefundCalldata(keccak, claimId) == Ok(data)
  {
    hide Decoded, Ascii;
    RefundCallRoundTrip(keccak, claimId);
    var call := RefundCalldata(keccak, claimId).value;
    assert data == data[..4] + WordAt(data, 0);
    assert call == call[..4] + WordAt(call, 0);
  }

  /// Only one transaction is a record's own: the one that its fields, read as text, build.
  lemma ItsOwnIsOne(keccak: Keccak, record: Record, tx: Transaction)
    ensures IsItsOwn(keccak, record, tx)
      <==> RecordTransaction(keccak, record) == Ok(tx) && record.calldataHex == Prefixed(tx.data)
  {
    hide Decoded, Prefixed, RefundCalldata, ReadRefundCall;
    RefundCallRoundTrip(keccak, record.claimId);
    ReadingInvertsPrinting(tx.data);
    if IsItsOwn(keccak, record, tx) {
      OneRefundCall(keccak, record.claimId, tx.data);
    }
  }

  /// A record validates exactly when it names the session and its signing hash is that of bytes
  /// that read as its own transaction; the configuration is the record's, with its key if it has one.
  lemma ValidatesExactly(keccak: Keccak, record: Record, claimId: string, recipient: string, keyName: string)
    ensures ValidateDraft(keccak, record, claimId, recipient, keyName).Ok?
      <==> (record.claimId == claimId && record.recipient == recipient
            && exists payload :: SignsItsOwn(keccak, record, payload))
    ensures ValidateDraft(keccak, record, claimId, recipient, keyName).Ok? ==>
      (var config := ValidateDraft(keccak, record, claimId, recipient, keyName).value;
       config.chainId == record.chainId && config.maxPriorityFee == record.maxPriorityFee
       && config.maxFee == record.maxFee && config.gasLimit == record.gasLimit
       && config.keyName == if record.keyName.Some? then record.keyName.value else keyName)
  {
    hide IsItsOwn, RecordTransaction, BuildDraft, SigningPayload, Prefixed;
    ValidatesByTransaction(keccak, record, claimId, recipient, keyName);
    if ValidateDraft(keccak, record, claimId, recipient, keyName).Ok? {
      var tx := RecordTransaction(keccak, record).value;
      ItsOwnIsOne(keccak, record, tx);
      SigningPayloadRoundTrip(tx);
      assert SignsItsOwn(keccak, record, SigningPayload(tx));
    }
    forall payload | SignsItsOwn(keccak, record, payload)
      ensures RecordTransaction(keccak, record) == Ok(ReadSigningPayload(payload).value)
      ensures record.calldataHex == Prefixed(ReadSigningPayload(payload).value.data)
      ensures payload == SigningPayload(ReadSigningPayload(payload).value)
    {
      ItsOwnIsOne(keccak, record, ReadSigningPayload(payload).value);
      SigningPayloadIsExact(payload);
    }
  }

  ghost predicate Collision(keccak: Keccak) {
    exists a, b :: a != b && keccak(a) == keccak(b)
  }

  /// The signing hash pins the whole transaction: two valid records that share it stand for the
  /// same transaction, down to the address and calldata, or two byte strings collide.
  lemma SameHashSameTransaction(keccak: Keccak, x: Record, y: Record, keyX: string, keyY: string)
    requires ValidateDraft(keccak, x, x.claimId, x.recipient, keyX).Ok?
    requires ValidateDraft(keccak, y, y.claimId, y.recipient, keyY).Ok?
    requires x.signingPayloadHash == y.signingPayloadHash
    ensures Collision(keccak) || (RecordTransaction(keccak, x) == RecordTransaction(keccak, y)
      && x.nonce == y.nonce && x.chainId == y.chainId && Decoded(x.claimId) == Decoded(y.claimId))
  {
    ValidatesByTransaction(keccak, x, x.claimId, x.recipient, keyX);
    ValidatesByTransaction(keccak, y, y.claimId, y.recipient, keyY);
    var a, b := RecordTransaction(keccak, x).value, RecordTransaction(keccak, y).value;
    PrefixedIsInjective(keccak(SigningPayload(a)), keccak(SigningPayload(b)));
    if SigningPayload(a) == SigningPayload(b) {
      SigningPayloadIsInjective(a, b);
      RefundCallRoundTrip(keccak, x.claimId);
      RefundCallRoundTrip(keccak, y.claimId);
    } else {
      assert Collision(keccak);
    }
  }

  // ---------------------------------------------------------------- dropped bytes

  /// Agreement on everything the rebuilding reads; receipts, errors, the key name and the raw
  /// bytes themselves may differ.
  predicate SameSignedFields(x: Record, y: Record) {
    x.claimId == y.claimId && x.escrow == y.escrow && x.nonce == y.nonce && x.chainId == y.chainId
    && x.maxPriorityFee == y.maxPriorityFee && x.maxFee == y.maxFee && x.gasLimit == y.gasLimit
    && x.calldataHex == y.calldataHex && x.signature == y.signature && x.rawHash == y.rawHash
  }

  /// Signed bytes that were dropped from a record are rebuilt identically from what is left.
  lemma DroppedBytesAreRebuilt(keccak: Keccak, claimId: string, recipient: string, escrow: string, nonce: u64,
                               config: Config, yParity: bool, signature: seq<byte>, stored: Record)
    requires SignDraft(keccak, claimId, recipient, escrow, nonce, config, yParity, signature).Ok?
    requires SameSignedFields(stored, SignDraft(keccak, claimId, recipient, escrow, nonce, config, yParity, signature).value)
    ensures Reconstruct(keccak, stored)
      == Ok(SignDraft(keccak, claimId, recipient, escrow, nonce, config, yParity, signature).value.rawHex.value)
  {
    ReadingInvertsPrinting(signature[..32]);
    ReadingInvertsPrinting(signature[32..]);
    assert signature[..32] + signature[32..] == signature;
    assert RefundTransaction(keccak, stored.claimId, stored.escrow, stored.nonce, RecordConfig(stored, "key_1"))
      == RefundTransaction(keccak, claimId, escrow, nonce, config);
  }

  function Concatenated(signature: Signature): Option<seq<byte>> {
    if Decoded(signature.r).Some? && Decoded(signature.s).Some?
    then Some(Decoded(signature.r).value + Decoded(signature.s).value) else None
  }

  /// The record holds a whole signature for a transaction its fields describe, and `raw` is their
  /// signed form under the recorded hash.
  predicate IsSignedForm(keccak: Keccak, record: Record, raw: seq<byte>) {
    record.signature.Some? && RecordTransaction(keccak, record).Ok?
    && Concatenated(record.signature.value).Some? && |Concatenated(record.signature.value).value| == 64
    && raw == SignedRaw(RecordTransaction(keccak, record).value, record.signature.value.yParity,
                        Concatenated(record.signature.value).value)
    && record.rawHash == Some(KeccakHex(keccak, raw))
  }

  lemma KeyNameDoesNotMatter(keccak: Keccak, record: Record)
    ensures RefundTransaction(keccak, record.claimId, record.escrow, record.nonce, RecordConfig(record, "key_1"))
      == RecordTransaction(keccak, record)
  {
  }

  lemma RebuiltIsSignedForm(keccak: Keccak, record: Record)
    requires Reconstruct(keccak, record).Ok?
    ensures Decoded(Reconstruct(keccak, record).value).Some?
    ensures IsSignedForm(keccak, record, Decoded(Reconstruct(keccak, record).value).value)
    ensures Prefixed(Decoded(Reconstruct(keccak, record).value).value) == Reconstruct(keccak, record).value
  {
    hide RefundTransaction, RecordTransaction, SignedRaw, KeccakHex, RefundCalldata, Prefixed, Decoded;
    var tx := RecordTransaction(keccak, record);
    KeyNameDoesNotMatter(keccak, record);
    ReadingInvertsPrinting(SignedRaw(tx.value, record.signature.value.yParity, Concatenated(record.signature.value).value));
  }

  lemma SignedFormPassesTheChecks(keccak: Keccak, record: Record, raw: seq<byte>)
    requires IsSignedForm(keccak, record, raw) && record.rawHex == Some(Prefixed(raw))
    ensures CheckRaw(keccak, record) == Ok(raw)
  {
    ReadingInvertsPrinting(raw);
    SignedRawIsShort(RecordTransaction(keccak, record).value, record.signature.value.yParity,
                     Concatenated(record.signature.value).value);
    assert "0x" <= Prefixed(raw);
  }

  /// The bytes read as the record's own transaction under the record's own signature, and have the
  /// recorded hash.
  predicate IsItsOwnSigned(keccak: Keccak, record: Record, raw: seq<byte>) {
    ReadSignedRaw(raw).Some? && record.signature.Some?
    && IsItsOwn(keccak, record, ReadSignedRaw(raw).value.tx)
    && ReadSignedRaw(raw).value.yParity == record.signature.value.yParity
    && Some(ReadSignedRaw(raw).value.r + ReadSignedRaw(raw).value.s) == Concatenated(record.signature.value)
    && record.rawHash == Some(Prefixed(keccak(raw)))
  }

  lemma SignedFormIsItsOwn(keccak: Keccak, record: Record, raw: seq<byte>)
    requires RecordTransaction(keccak, record).Ok? && record.calldataHex == Prefixed(RecordTransaction(keccak, record).value.data)
    requires IsSignedForm(keccak, record, raw)
    ensures IsItsOwnSigned(keccak, record, raw)
  {
    hide IsItsOwn, RecordTransaction, SignedRaw, Prefixed, ReadSignedRaw, Concatenated;
    var tx, signature := RecordTransaction(keccak, record).value, Concatenated(record.signature.value).value;
    ItsOwnIsOne(keccak, record, tx);
    SignedRawRoundTrip(tx, record.signature.value.yParity, signature);
    assert signature[..32] + signature[32..] == signature;
  }

  lemma ItsOwnIsSignedForm(keccak: Keccak, record: Record, raw: seq<byte>)
    requires IsItsOwnSigned(keccak, record, raw)
    ensures IsSignedForm(keccak, record, raw) && Reconstruct(keccak, record) == Ok(Prefixed(raw))
  {
    hide IsItsOwn, RefundTransaction, RecordTransaction, SignedRaw, Prefixed, ReadSignedRaw, RefundCalldata, Decoded;
    SignedRawIsExact(raw);
    ItsOwnIsOne(keccak, record, ReadSignedRaw(raw).value.tx);
    KeyNameDoesNotMatter(keccak, record);
    TransactionData(keccak, record);
  }

  lemma SameFieldsSameTransaction(keccak: Keccak, x: Record, y: Record)
    requires SameSignedFields(x, y)
    ensures RecordTransaction(keccak, x) == RecordTransaction(keccak, y)
  {
  }

  lemma TransactionData(keccak: Keccak, record: Record)
    requires RecordTransaction(keccak, record).Ok?
    ensures RefundCalldata(keccak, record.claimId) == Ok(RecordTransaction(keccak, record).value.data)
  {
  }

  /// A record can be rebuilt exactly when some bytes are its own signed form; what is rebuilt is
  /// those bytes, and they pass the checks before broadcast.
  lemma RebuiltBytesAreTheRecords(keccak: Keccak, record: Record, raw: seq<byte>)
    ensures Reconstruct(keccak, record) == Ok(Prefixed(raw)) <==> IsItsOwnSigned(keccak, record, raw)
    ensures Reconstruct(keccak, record) == Ok(Prefixed(raw)) ==>
      CheckRaw(keccak, record.(rawHex := Some(Prefixed(raw)))) == Ok(raw)
  {
    hide IsItsOwnSigned, RefundTransaction, RecordTransaction, SignedRaw, KeccakHex, Prefixed, Decoded, CheckRaw, RefundCalldata;
    if IsItsOwnSigned(keccak, record, raw) {
      ItsOwnIsSignedForm(keccak, record, raw);
    }
    if Reconstruct(keccak, record) == Ok(Prefixed(raw)) {
      RebuiltIsSignedForm(keccak, record);
      ReadingInvertsPrinting(raw);
      SameFieldsSameTransaction(keccak, record.(rawHex := Some(Prefixed(raw))), record);
      SignedFormPassesTheChecks(keccak, record.(rawHex := Some(Prefixed(raw))), raw);
      TransactionData(keccak, record);
      SignedFormIsItsOwn(keccak, record, raw);
    }
  }

  /// A draft shows what was asked for, and its signing hash is that of bytes that read as its own
  /// transaction. Once signed, its bytes read as that transaction under the signature that was
  /// given, and pass the checks before broadcast.
  lemma SignedDraftPassesTheChecks(keccak: Keccak, claimId: string, recipient: string, escrow: string, nonce: u64,
                                   config: Config, yParity: bool, signature: seq<byte>)
    requires SignDraft(keccak, claimId, recipient, escrow, nonce, config, yParity, signature).Ok?
    ensures var signed := SignDraft(keccak, claimId, recipient, escrow, nonce, config, yParity, signature).value;
      signed.claimId == claimId && signed.recipient == recipient && signed.escrow == escrow && signed.nonce == nonce
      && signed.chainId == config.chainId && signed.maxPriorityFee == config.maxPriorityFee
      && signed.maxFee == config.maxFee && signed.gasLimit == config.gasLimit && signed.keyName == Some(config.keyName)
      && (exists payload :: SignsItsOwn(keccak, signed, payload))
      && CheckRaw(keccak, signed).Ok?
      && (var raw := CheckRaw(keccak, signed).value;
          IsItsOwnSigned(keccak, signed, raw) && ReadSignedRaw(raw).value.yParity == yParity
          && ReadSignedRaw(raw).value.r == signature[..32] && ReadSignedRaw(raw).value.s == signature[32..])
  {
    hide IsItsOwn, RefundTransaction, SignedRaw, Prefixed, Decoded, ReadSignedRaw;
    var draft := BuildDraft(keccak, claimId, recipient, escrow, nonce, config).value;
    var signed := SignDraft(keccak, claimId, recipient, escrow, nonce, config, yParity, signature).value;
    DraftValidates(keccak, claimId, recipient, escrow, nonce, config, "");
    ValidatesExactly(keccak, draft, claimId, recipient, "");
    OwnOfSigned(keccak, draft, signed);
    ValidatesByTransaction(keccak, draft, claimId, recipient, "");
    ReadingInvertsPrinting(signature[..32]);
    ReadingInvertsPrinting(signature[32..]);
    assert signature[..32] + signature[32..] == signature;
    var tx := RecordTransaction(keccak, signed).value;
    var raw := SignedRaw(tx, yParity, signature);
    assert RecordTransaction(keccak, draft) == RecordTransaction(keccak, signed);
    SignedFormPassesTheChecks(keccak, signed, raw);
    SignedFormIsItsOwn(keccak, signed, raw);
    SignedRawRoundTrip(tx, yParity, signature);
  }

  lemma OwnOfSigned(keccak: Keccak, draft: Record, signed: Record)
    requires signed == draft.(signature := signed.signature, rawHash := signed.rawHash, rawHex := signed.rawHex)
    ensures forall payload :: SignsItsOwn(keccak, draft, payload) ==> SignsItsOwn(keccak, signed, payload)
  {
  }
}
