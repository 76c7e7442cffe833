/// EIP-1559 transactions of the factory: calldata, signing payloads, signed bytes, and the
/// stored record they can be rebuilt from (backend/factory/src/evm.rs).
module Evm {
  import opened Bits
  import opened Limits
  import opened Options
  import opened Rlp
  import opened RlpEncoder

  /// Calldata is held in one buffer of the 32-bit machine the factory runs on.
  const DATA_LIMIT: nat := 0x1_0000_0000

  type Address = b: seq<byte> | |b| == 20 witness [0, 0, 0, 0, 0, 0, 0, 0, 0, 0, 0, 0, 0, 0, 0, 0, 0, 0, 0, 0]
  type Digest = b: seq<byte> | |b| == 32 witness ToBigEndian(0, 32)
  type Calldata = b: seq<byte> | |b| < DATA_LIMIT witness []
  type u128 = n: nat | n < U128_LIMIT
  type Keccak = seq<byte> -> Digest

  datatype FactoryError =
    | InvalidAmount(value: string)
    | ManagementCallFailed(call: string, message: string)

  datatype Transaction = Transaction(
    chainId: u64, nonce: u64, maxPriorityFee: u64, maxFee: u64, gasLimit: u64, target: Address, data: Calldata)

  // ---------------------------------------------------------------- payloads

  /// The nine base fields of EIP-1559: the value is zero and the access list empty.
  function BaseFields(tx: Transaction): (items: seq<Item>)
    ensures |items| == 9
  {
    [Str(Minimal(tx.chainId)), Str(Minimal(tx.nonce)), Str(Minimal(tx.maxPriorityFee)),
     Str(Minimal(tx.maxFee)), Str(Minimal(tx.gasLimit)), Str(tx.target), Str([]), Str(tx.data), List([])]
  }

  /// The base fields, the parity of the signature, and its two halves as 32-byte strings.
  function SignedFields(tx: Transaction, yParity: bool, signature: seq<byte>): (items: seq<Item>)
    requires |signature| == 64
    ensures |items| == 12
  {
    BaseFields(tx) + [Str(Minimal(if yParity then 1 else 0)), Str(signature[..32]), Str(signature[32..])]
  }

  predicate Short(item: Item, n: nat) {
    match item
    case Str(bytes) => |bytes| <= n
    case List(items) => items == []
  }

  lemma ShortEncodes(item: Item, n: nat)
    requires Short(item, n) && n < DATA_LIMIT
    ensures Fits(item) && |Encode(item)| <= n + 9
  {
    if item.Str? {
      LengthBytes(|item.bytes|);
    }
  }

  lemma {:induction false} ShortListFits(items: seq<Item>, n: nat)
    requires n < DATA_LIMIT && forall i :: 0 <= i < |items| ==> Short(items[i], n)
    ensures AllFit(items) && |EncodeAll(items)| <= |items| * (n + 9)
  {
    if items != [] {
      ShortEncodes(items[0], n);
      ShortListFits(items[1..], n);
      OneMoreItem(|items| - 1, n + 9);
    }
  }

  lemma OneMoreItem(k: nat, m: nat)
    ensures (k + 1) * m == k * m + m
  {
  }

  lemma BaseFieldsShort(tx: Transaction, n: nat)
    requires 20 <= n && |tx.data| <= n
    ensures forall i :: 0 <= i < 9 ==> Short(BaseFields(tx)[i], n)
  {
    U64Bytes(tx.chainId);
    U64Bytes(tx.nonce);
    U64Bytes(tx.maxPriorityFee);
    U64Bytes(tx.maxFee);
    U64Bytes(tx.gasLimit);
  }

  lemma PayloadFits(tx: Transaction)
    ensures Fits(List(BaseFields(tx)))
    ensures forall i :: 0 <= i < 9 ==> Fits(BaseFields(tx)[i])
  {
    BaseFieldsShort(tx, DATA_LIMIT - 1);
    ShortListFits(BaseFields(tx), DATA_LIMIT - 1);
    forall i | 0 <= i < 9 ensures Fits(BaseFields(tx)[i]) {
      ShortEncodes(BaseFields(tx)[i], DATA_LIMIT - 1);
    }
  }

  lemma SignedFieldsShort(tx: Transaction, yParity: bool, signature: seq<byte>, n: nat)
    requires |signature| == 64 && 32 <= n && |tx.data| <= n
    ensures forall i :: 0 <= i < 12 ==> Short(SignedFields(tx, yParity, signature)[i], n)
  {
    BaseFieldsShort(tx, n);
    U64Bytes(if yParity then 1 else 0);
    forall i | 0 <= i < 12 ensures Short(SignedFields(tx, yParity, signature)[i], n) {
      if i < 9 {
        assert SignedFields(tx, yParity, signature)[i] == BaseFields(tx)[i];
      }
    }
  }

  lemma SignedFits(tx: Transaction, yParity: bool, signature: seq<byte>)
    requires |signature| == 64
    ensures Fits(List(SignedFields(tx, yParity, signature)))
  {
    SignedFieldsShort(tx, yParity, signature, DATA_LIMIT - 1);
    ShortListFits(SignedFields(tx, yParity, signature), DATA_LIMIT - 1);
  }

  function SigningPayload(tx: Transaction): seq<byte> {
    PayloadFits(tx);
    [2] + Encode(List(BaseFields(tx)))
  }

  function SignedRaw(tx: Transaction, yParity: bool, signature: seq<byte>): seq<byte>
    requires |signature| == 64
  {
    SignedFits(tx, yParity, signature);
    [2] + Encode(List(SignedFields(tx, yParity, signature)))
  }

  predicate EncodesAll(fields: seq<seq<byte>>, items: seq<Item>) {
    |fields| == |items| && forall i :: 0 <= i < |items| ==> Fits(items[i]) && fields[i] == Encode(items[i])
  }

  method EncodeU64Field(value: u64) returns (field: seq<byte>)
    ensures Fits(Str(Minimal(value))) && field == Encode(Str(Minimal(value)))
  {
    var out := new ByteBuffer();
    RlpEncodeU64(value, out);
    field := out.bytes;
  }

  method EncodeBytesField(bytes: seq<byte>) returns (field: seq<byte>)
    requires |bytes| < DATA_LIMIT
    ensures field == Encode(Str(bytes))
  {
    var out := new ByteBuffer();
    RlpEncodeBytes(bytes, out);
    field := out.bytes;
  }

  lemma EmptyListEncodes()
    ensures Encode(List([])) == [0xc0]
  {
    assert LengthPrefix(0, 0xc0) + [] == [0xc0];
  }

  method EncodeBaseFields(tx: Transaction) returns (fields: seq<seq<byte>>)
    ensures EncodesAll(fields, BaseFields(tx))
  {
    var chainId := EncodeU64Field(tx.chainId);
    var nonce := EncodeU64Field(tx.nonce);
    var maxPriorityFee := EncodeU64Field(tx.maxPriorityFee);
    var maxFee := EncodeU64Field(tx.maxFee);
    var gasLimit := EncodeU64Field(tx.gasLimit);
    var target := EncodeBytesField(tx.target);
    var value := EncodeU64Field(0);
    var data := EncodeBytesField(tx.data);
    PayloadFits(tx);
    EmptyListEncodes();
    fields := [chainId, nonce, maxPriorityFee, maxFee, gasLimit, target, value, data, [0xc0]];
  }

  method BuildSigningPayload(tx: Transaction) returns (payload: seq<byte>)
    ensures payload == SigningPayload(tx)
  {
    var fields := EncodeBaseFields(tx);
    PayloadFits(tx);
    FlattenedEncodings(fields, BaseFields(tx));
    var list := RlpEncodeList(fields);
    payload := [2] + list;
  }

  method BuildSignedRawTransaction(tx: Transaction, yParity: bool, signature: seq<byte>)
    returns (raw: Result<seq<byte>, FactoryError>)
    ensures raw == SignedRawOrError(tx, yParity, signature)
  {
    if |signature| != 64 {
      return Err(ManagementCallFailed("sign_with_ecdsa", "signature must be 64 bytes"));
    }
    var fields := EncodeBaseFields(tx);
    var parity := EncodeU64Field(if yParity then 1 else 0);
    var r := EncodeBytesField(signature[..32]);
    var s := EncodeBytesField(signature[32..]);
    var all := fields + [parity, r, s];
    SignedFits(tx, yParity, signature);
    assert EncodesAll(all, SignedFields(tx, yParity, signature));
    FlattenedEncodings(all, SignedFields(tx, yParity, signature));
    var list := RlpEncodeList(all);
    raw := Ok([2] + list);
  }

  function SignedRawOrError(tx: Transaction, yParity: bool, signature: seq<byte>): Result<seq<byte>, FactoryError> {
    if |signature| != 64 then Err(ManagementCallFailed("sign_with_ecdsa", "signature must be 64 bytes"))
    else Ok(SignedRaw(tx, yParity, signature))
  }

  // ---------------------------------------------------------------- reading payloads back

  function ReadU64(item: Item): (v: Option<u64>) {
    if item.Str? && |item.bytes| <= 8 && (item.bytes == [] || item.bytes[0] != 0) && FromBigEndian(item.bytes) < U64_LIMIT
    then Some(FromBigEndian(item.bytes)) else None
  }

  function ReadBase(items: seq<Item>): Option<Transaction>
    requires |items| >= 9
  {
    var chainId, nonce, maxPriorityFee, maxFee, gasLimit :=
      ReadU64(items[0]), ReadU64(items[1]), ReadU64(items[2]), ReadU64(items[3]), ReadU64(items[4]);
    if chainId.Some? && nonce.Some? && maxPriorityFee.Some? && maxFee.Some? && gasLimit.Some?
      && items[5].Str? && |items[5].bytes| == 20 && items[6] == Str([])
      && items[7].Str? && |items[7].bytes| < DATA_LIMIT && items[8] == List([])
    then Some(Transaction(chainId.value, nonce.value, maxPriorityFee.value, maxFee.value, gasLimit.value,
                          items[5].bytes, items[7].bytes))
    else None
  }

  /// The fields of a type-2 envelope, if the bytes are exactly one.
  function ReadEnvelope(bytes: seq<byte>): Option<seq<Item>> {
    if bytes == [] || bytes[0] != 2 then None
    else
      match Decode(bytes[1..])
      case None => None
      case Some((item, rest)) => if item.List? && rest == [] then Some(item.items) else None
  }

  function ReadSigningPayload(bytes: seq<byte>): Option<Transaction> {
    match ReadEnvelope(bytes)
    case Some(items) => if |items| == 9 then ReadBase(items) else None
    case None => None
  }

  datatype Signed = Signed(tx: Transaction, yParity: bool, r: seq<byte>, s: seq<byte>)

  function ReadSigned(items: seq<Item>): Option<Signed>
    requires |items| == 12
  {
    var tx, parity := ReadBase(items), ReadU64(items[9]);
    if tx.Some? && parity.Some? && parity.value <= 1
      && items[10].Str? && |items[10].bytes| == 32 && items[11].Str? && |items[11].bytes| == 32
    then Some(Signed(tx.value, parity.value == 1, items[10].bytes, items[11].bytes))
    else None
  }

  function ReadSignedRaw(bytes: seq<byte>): Option<Signed> {
    match ReadEnvelope(bytes)
    case None => None
    case Some(items) => if |items| == 12 then ReadSigned(items) else None
  }

  lemma ReadEnvelopeOf(items: seq<Item>)
    requires Fits(List(items))
    ensures ReadEnvelope([2] + Encode(List(items))) == Some(items)
  {
    DecodeInvertsEncode(List(items), []);
    var bytes := [2] + Encode(List(items));
    assert bytes[1..] == Encode(List(items)) + [] == Encode(List(items));
  }

  lemma ReadU64Of(value: u64)
    ensures ReadU64(Str(Minimal(value))) == Some(value)
  {
    U64Bytes(value);
    MinimalValue(value);
  }

  lemma ReadBaseOf(tx: Transaction, items: seq<Item>)
    requires BaseFields(tx) <= items
    ensures ReadBase(items) == Some(tx)
  {
    ReadU64Of(tx.chainId);
    ReadU64Of(tx.nonce);
    ReadU64Of(tx.maxPriorityFee);
    ReadU64Of(tx.maxFee);
    ReadU64Of(tx.gasLimit);
  }

  /// The payload that is signed determines every field of the transaction.
  lemma SigningPayloadRoundTrip(tx: Transaction)
    ensures ReadSigningPayload(SigningPayload(tx)) == Some(tx)
  {
    PayloadFits(tx);
    ReadEnvelopeOf(BaseFields(tx));
    ReadBaseOf(tx, BaseFields(tx));
  }

  lemma SigningPayloadIsInjective(a: Transaction, b: Transaction)
    requires SigningPayload(a) == SigningPayload(b)
    ensures a == b
  {
    SigningPayloadRoundTrip(a);
    SigningPayloadRoundTrip(b);
  }

  lemma ReadSignedOf(tx: Transaction, parity: u64, r: seq<byte>, s: seq<byte>)
    requires parity <= 1 && |r| == 32 && |s| == 32
    ensures ReadSigned(BaseFields(tx) + [Str(Minimal(parity)), Str(r), Str(s)]) == Some(Signed(tx, parity == 1, r, s))
  {
    var tail := [Str(Minimal(parity)), Str(r), Str(s)];
    var items := BaseFields(tx) + tail;
    ReadBaseOf(tx, items);
    ReadU64Of(parity);
    assert items[9] == tail[0] && items[10] == tail[1] && items[11] == tail[2];
  }

  /// The broadcast bytes hold exactly what was signed, the parity, and the two halves unshortened.
  lemma SignedRawRoundTrip(tx: Transaction, yParity: bool, signature: seq<byte>)
    requires |signature| == 64
    ensures ReadSignedRaw(SignedRaw(tx, yParity, signature))
      == Some(Signed(tx, yParity, signature[..32], signature[32..]))
  {
    SignedFits(tx, yParity, signature);
    ReadEnvelopeOf(SignedFields(tx, yParity, signature));
    ReadSignedOf(tx, if yParity then 1 else 0, signature[..32], signature[32..]);
  }

  // ---------------------------------------------------------------- only these bytes read so

  lemma ReadU64IsExact(item: Item)
    requires ReadU64(item).Some?
    ensures item == Str(Minimal(ReadU64(item).value))
  {
    MinimalOfValue(item.bytes);
  }

  lemma ReadBaseIsExact(items: seq<Item>)
    requires |items| >= 9 && ReadBase(items).Some?
    ensures items[..9] == BaseFields(ReadBase(items).value)
  {
    hide ReadU64;
    ReadU64IsExact(items[0]);
    ReadU64IsExact(items[1]);
    ReadU64IsExact(items[2]);
    ReadU64IsExact(items[3]);
    ReadU64IsExact(items[4]);
  }

  lemma ReadEnvelopeIsExact(bytes: seq<byte>)
    requires ReadEnvelope(bytes).Some?
    ensures Fits(List(ReadEnvelope(bytes).value)) && bytes == [2] + Encode(List(ReadEnvelope(bytes).value))
  {
    EncodeInvertsDecode(bytes[1..]);
    assert bytes == [2] + bytes[1..];
  }

  /// Only the signing payload of a transaction reads as that transaction.
  lemma SigningPayloadIsExact(bytes: seq<byte>)
    requires ReadSigningPayload(bytes).Some?
    ensures bytes == SigningPayload(ReadSigningPayload(bytes).value)
  {
    hide ReadBase, Encode, BaseFields, Fits;
    ReadEnvelopeIsExact(bytes);
    var items := ReadEnvelope(bytes).value;
    ReadBaseIsExact(items);
    assert items == items[..9];
  }

  /// Only the signed form of a transaction reads as that transaction under that signature.
  lemma SignedRawIsExact(bytes: seq<byte>)
    requires ReadSignedRaw(bytes).Some?
    ensures var signed := ReadSignedRaw(bytes).value;
      |signed.r| == 32 && |signed.s| == 32 && bytes == SignedRaw(signed.tx, signed.yParity, signed.r + signed.s)
  {
    hide ReadBase, Encode, BaseFields, Fits, ReadU64;
    ReadEnvelopeIsExact(bytes);
    var items := ReadEnvelope(bytes).value;
    ReadBaseIsExact(items);
    ReadU64IsExact(items[9]);
    var signed := ReadSignedRaw(bytes).value;
    assert (signed.r + signed.s)[..32] == signed.r && (signed.r + signed.s)[32..] == signed.s;
    assert items == items[..9] + [items[9], items[10], items[11]];
  }

  lemma SignedRawIsShort(tx: Transaction, yParity: bool, signature: seq<byte>)
    requires |signature| == 64 && |tx.data| <= 36
    ensures 0 < |SignedRaw(tx, yParity, signature)| <= 2048
  {
    SignedFits(tx, yParity, signature);
    SignedFieldsShort(tx, yParity, signature, 36);
    EnvelopeIsShort(SignedFields(tx, yParity, signature));
  }

  lemma EnvelopeIsShort(items: seq<Item>)
    requires Fits(List(items)) && |items| == 12 && forall i :: 0 <= i < |items| ==> Short(items[i], 36)
    ensures |[2] + Encode(List(items))| <= 2048
  {
    ShortListFits(items, 36);
    LengthBytes(|EncodeAll(items)|);
  }
}
