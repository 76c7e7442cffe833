/// Contract calls the factory signs: a selector and 32-byte words (backend/factory/src/evm.rs).
module Calldata {
  import opened Bits
  import opened Evm
  import opened Hex
  import opened Limits
  import opened Options
  import opened Rlp
  import opened RlpEncoder
  import opened Sequences

  type Word = b: seq<byte> | |b| == 32 witness ToBigEndian(0, 32)

  datatype ReproductionRelease = ReproductionRelease(
    childAmount: u128, royaltyOneRecipient: string, royaltyOneAmount: u128,
    royaltyTwoRecipient: string, royaltyTwoAmount: u128)

  function FixedHex(value: string, n: nat): (r: Result<seq<byte>, FactoryError>)
    ensures r.Ok? ==> |r.value| == n
  {
    match Decoded(value)
    case Some(bytes) => if |bytes| == n then Ok(bytes) else Err(InvalidAmount(value))
    case None => Err(InvalidAmount(value))
  }

  function Ascii(text: string): seq<byte> {
    seq(|text|, i requires 0 <= i < |text| => text[i] as int % 256)
  }

  function Selector(keccak: Keccak, signature: string): seq<byte> {
    keccak(Ascii(signature))[..4]
  }

  function Zero(n: nat): (b: seq<byte>)
    ensures |b| == n
  {
    seq(n, _ => 0)
  }

  function AddressWord(address: Address): (word: Word)
    ensures word[12..] == address
  {
    Zero(12) + address
  }

  function AmountWord(amount: u128): Word {
    Zero(16) + ToBigEndian(amount, 16)
  }

  // ---------------------------------------------------------------- the calls

  /// A call's meaning: a selector, then the words in order.
  function Call(keccak: Keccak, signature: string, words: seq<Word>): (data: seq<byte>)
    ensures |data| == 4 + |Concat(words)|
  {
    Selector(keccak, signature) + Concat(words)
  }

  function Concat(words: seq<Word>): (bytes: seq<byte>)
    ensures |bytes| == 32 * |words|
  {
    if words == [] then [] else words[0] + Concat(words[1..])
  }

  function RefundCalldata(keccak: Keccak, claimId: string): (data: Result<Calldata, FactoryError>) {
    match FixedHex(claimId, 32)
    case Err(e) => Err(e)
    case Ok(claim) => Ok(Call(keccak, "refund(bytes32)", [claim]))
  }

  function ReleaseCalldata(keccak: Keccak, claimId: string, recipient: string): Result<Calldata, FactoryError> {
    match FixedHex(claimId, 32)
    case Err(e) => Err(e)
    case Ok(claim) =>
      match FixedHex(recipient, 20)
      case Err(e) => Err(e)
      case Ok(address) => Ok(Call(keccak, "release(bytes32,address)", [claim, AddressWord(address)]))
  }

  function Arguments(claim: Word, child: Address, one: Address, two: Address, release: ReproductionRelease): (words: seq<Word>)
    ensures |words| == 7
  {
    [claim, AddressWord(child), AmountWord(release.childAmount), AddressWord(one),
     AmountWord(release.royaltyOneAmount), AddressWord(two), AmountWord(release.royaltyTwoAmount)]
  }

  const REPRODUCTION_SIGNATURE := "releaseReproduction(bytes32" + ",address,uint256" + ",address,uint256" + ",address,uint256" + ")"

  function ReproductionCalldata(keccak: Keccak, claimId: string, child: string, release: ReproductionRelease)
    : Result<Calldata, FactoryError>
  {
    match FixedHex(claimId, 32)
    case Err(e) => Err(e)
    case Ok(claim) =>
      match FixedHex(child, 20)
      case Err(e) => Err(e)
      case Ok(childAddress) =>
        match FixedHex(release.royaltyOneRecipient, 20)
        case Err(e) => Err(e)
        case Ok(one) =>
          match FixedHex(release.royaltyTwoRecipient, 20)
          case Err(e) => Err(e)
          case Ok(two) => Ok(Call(keccak, REPRODUCTION_SIGNATURE, Arguments(claim, childAddress, one, two, release)))
  }

  // ---------------------------------------------------------------- the encoders

  method DecodeFixedHex(value: string, n: nat) returns (r: Result<seq<byte>, FactoryError>)
    ensures r == FixedHex(value, n)
  {
    var bytes := DecodeHex(value);
    r := if bytes.Some? && |bytes.value| == n then Ok(bytes.value) else Err(InvalidAmount(value));
  }

  lemma {:induction false} ConcatSnoc(words: seq<Word>, word: Word)
    ensures Concat(words + [word]) == Concat(words) + word
  {
    if words != [] {
      assert (words + [word])[1..] == words[1..] + [word];
      ConcatSnoc(words[1..], word);
      Associate(words[0], Concat(words[1..]), word);
    }
  }

  /// Appends one word to a call under construction.
  method AppendWord(out: ByteBuffer, ghost selector: seq<byte>, ghost words: seq<Word>, word: Word)
    requires out.bytes == selector + Concat(words)
    modifies out
    ensures out.bytes == selector + Concat(words + [word])
  {
    ConcatSnoc(words, word);
    Associate(selector, Concat(words), word);
    out.Extend(word);
  }

  /// Appends a recipient and what it is paid.
  method AppendShare(out: ByteBuffer, ghost selector: seq<byte>, ghost words: seq<Word>, recipient: string, amount: u128)
    returns (address: Result<seq<byte>, FactoryError>)
    requires out.bytes == selector + Concat(words)
    modifies out
    ensures address == FixedHex(recipient, 20)
    ensures address.Ok? ==>
      out.bytes == selector + Concat(words + [AddressWord(address.value), AmountWord(amount)])
  {
    address := DecodeFixedHex(recipient, 20);
    if address.Ok? {
      AppendWord(out, selector, words, AddressWord(address.value));
      AppendWord(out, selector, words + [AddressWord(address.value)], AmountWord(amount));
      assert words + [AddressWord(address.value)] + [AmountWord(amount)]
        == words + [AddressWord(address.value), AmountWord(amount)];
    }
  }

  method EncodeRefundCalldata(keccak: Keccak, claimId: string) returns (data: Result<seq<byte>, FactoryError>)
    ensures data == RefundCalldata(keccak, claimId)
  {
    var claim := DecodeFixedHex(claimId, 32);
    if claim.Err? {
      return Err(claim.error);
    }
    var selector := Selector(keccak, "refund(bytes32)");
    var out := new ByteBuffer();
    out.Extend(selector);
    assert out.bytes == selector + Concat([]);
    AppendWord(out, selector, [], claim.value);
    data := Ok(out.bytes);
  }

  method EncodeReleaseCalldata(keccak: Keccak, claimId: string, recipient: string)
    returns (data: Result<seq<byte>, FactoryError>)
    ensures data == ReleaseCalldata(keccak, claimId, recipient)
  {
    var claim := DecodeFixedHex(claimId, 32);
    if claim.Err? {
      return Err(claim.error);
    }
    var address := DecodeFixedHex(recipient, 20);
    if address.Err? {
      return Err(address.error);
    }
    var selector := Selector(keccak, "release(bytes32,address)");
    var out := new ByteBuffer();
    out.Extend(selector);
    assert out.bytes == selector + Concat([]);
    AppendWord(out, selector, [], claim.value);
    AppendWord(out, selector, [claim.value], AddressWord(address.value));
    assert [claim.value] + [AddressWord(address.value)] == [claim.value, AddressWord(address.value)];
    data := Ok(out.bytes);
  }

  /// `encode_reproduction_release_calldata`: the words are appended one after another, and the
  /// first address that does not read stops the call.
  method EncodeReproductionReleaseCalldata(keccak: Keccak, claimId: string, child: string, release: ReproductionRelease)
    returns (data: Result<seq<byte>, FactoryError>)
    ensures data == ReproductionCalldata(keccak, claimId, child, release)
  {
    hide Concat, AddressWord, AmountWord, FixedHex;
    var claim := DecodeFixedHex(claimId, 32);
    if claim.Err? {
      return Err(claim.error);
    }
    var selector := Selector(keccak, REPRODUCTION_SIGNATURE);
    var out := new ByteBuffer();
    out.Extend(selector);
    assert out.bytes == selector + Concat([]);
    AppendWord(out, selector, [], claim.value);
    ghost var w1: seq<Word> := [claim.value];
    assert [] + [claim.value] == w1;
    var childAddress := AppendShare(out, selector, w1, child, release.childAmount);
    if childAddress.Err? {
      return Err(childAddress.error);
    }
    ghost var w3 := w1 + [AddressWord(childAddress.value), AmountWord(release.childAmount)];
    var one := AppendShare(out, selector, w3, release.royaltyOneRecipient, release.royaltyOneAmount);
    if one.Err? {
      return Err(one.error);
    }
    ghost var w5 := w3 + [AddressWord(one.value), AmountWord(release.royaltyOneAmount)];
    var two := AppendShare(out, selector, w5, release.royaltyTwoRecipient, release.royaltyTwoAmount);
    if two.Err? {
      return Err(two.error);
    }
    assert w5 + [AddressWord(two.value), AmountWord(release.royaltyTwoAmount)]
      == Arguments(claim.value, childAddress.value, one.value, two.value, release);
    data := Ok(out.bytes);
  }

  // ---------------------------------------------------------------- reading calls back

  function WordAt(data: seq<byte>, i: nat): Word
    requires |data| >= 4 + 32 * (i + 1)
  {
    data[4 + 32 * i..4 + 32 * (i + 1)]
  }

  lemma {:induction false} ConcatAt(words: seq<Word>, i: nat)
    requires i < |words|
    ensures Concat(words)[32 * i..32 * (i + 1)] == words[i]
  {
    if i > 0 {
      ConcatAt(words[1..], i - 1);
      DropWord(words[0], Concat(words[1..]), i);
    }
  }

  lemma DropWord(word: Word, rest: seq<byte>, i: nat)
    requires 0 < i && 32 * i <= |rest|
    ensures (word + rest)[32 * i..32 * (i + 1)] == rest[32 * (i - 1)..32 * i]
  {
  }

  /// A call's words are where the ABI says they are.
  lemma CallWordAt(keccak: Keccak, signature: string, words: seq<Word>, i: nat)
    requires i < |words|
    ensures WordAt(Call(keccak, signature, words), i) == words[i]
  {
    ConcatAt(words, i);
    assert Call(keccak, signature, words)[4..] == Concat(words);
  }

  lemma {:induction false} BigEndianValue(x: nat, n: nat)
    requires x < Power256(n)
    ensures FromBigEndian(ToBigEndian(x, n)) == x
    decreases n
  {
    if n > 0 {
      BigEndianValue(x / 256, n - 1);
      assert ToBigEndian(x, n)[..n - 1] == ToBigEndian(x / 256, n - 1);
    }
  }

  lemma {:induction false} PaddedValue(n: nat, b: seq<byte>)
    ensures FromBigEndian(Zero(n) + b) == FromBigEndian(b)
    decreases n + |b|
  {
    var padded := Zero(n) + b;
    if b == [] {
      if n > 0 {
        PaddedValue(n - 1, []);
        assert padded[..n - 1] == Zero(n - 1) + [];
      }
    } else {
      PaddedValue(n, b[..|b| - 1]);
      assert padded[..|padded| - 1] == Zero(n) + b[..|b| - 1];
    }
  }

  lemma {:induction false} PowerSum(m: nat, n: nat)
    ensures Power256(m + n) == Power256(m) * Power256(n)
  {
    if m > 0 {
      PowerSum(m - 1, n);
      MultiplyFirst(256, Power256(m - 1), Power256(n));
    }
  }

  lemma MultiplyFirst(a: nat, b: nat, c: nat)
    ensures a * (b * c) == (a * b) * c
  {
  }

  lemma AmountWordValue(amount: u128)
    ensures FromBigEndian(AmountWord(amount)) == amount
  {
    PowerSum(8, 8);
    assert Power256(8) == U64_LIMIT;
    BigEndianValue(amount, 16);
    PaddedValue(16, ToBigEndian(amount, 16));
  }

  // The three signatures as the bytes that are hashed.

  function RefundBytes(): (b: seq<byte>)
    ensures |b| == 15
  {
    [114, 101, 102, 117, 110, 100, 40, 98, 121, 116, 101, 115, 51, 50, 41]
  }

  function ReleaseBytes(): (b: seq<byte>)
    ensures |b| == 24
  {
    [114, 101, 108, 101, 97, 115, 101, 40, 98, 121, 116, 101, 115, 51, 50, 44, 97, 100, 100, 114, 101,
     115, 115, 41]
  }

  function ShareBytes(): seq<byte> {
    [44, 97, 100, 100, 114, 101, 115, 115, 44, 117, 105, 110, 116, 50, 53, 54]
  }

  function ReproductionBytes(): seq<byte> {
    [114, 101, 108, 101, 97, 115, 101, 82, 101, 112, 114, 111, 100, 117, 99, 116, 105, 111, 110, 40, 98, 121, 116, 101, 115, 51, 50]
    + ShareBytes() + ShareBytes() + ShareBytes() + [41]
  }

  lemma AsciiJoins(a: string, b: string)
    ensures Ascii(a + b) == Ascii(a) + Ascii(b)
  {
  }

  lemma ReproductionNameIsAscii()
    ensures Ascii("releaseReproduction(bytes32") == ReproductionBytes()[..27]
  {
  }

  lemma ReproductionPartsAreAscii()
    ensures Ascii(",address,uint256") == ShareBytes()
    ensures Ascii(")") == [41]
  {
  }

  lemma RefundIsAscii()
    ensures Ascii("refund(bytes32)") == RefundBytes()
  {
  }

  lemma ReleaseIsAscii()
    ensures Ascii("release(bytes32,address)") == ReleaseBytes()
  {
  }

  lemma ReproductionIsAscii()
    ensures Ascii(REPRODUCTION_SIGNATURE) == ReproductionBytes()
  {
    hide Ascii;
    ReproductionNameIsAscii();
    ReproductionPartsAreAscii();
    var head, share := "releaseReproduction(bytes32", ",address,uint256";
    AsciiJoins(head, share);
    AsciiJoins(head + share, share);
    AsciiJoins(head + share + share, share);
    AsciiJoins(head + share + share + share, ")");
  }

  /// A contract runs the function whose hashed signature begins with the four bytes of the call,
  /// if the arguments are as long as that function's.
  predicate Invokes(keccak: Keccak, signature: seq<byte>, words: nat, data: seq<byte>) {
    |data| == 4 + 32 * words && data[..4] == keccak(signature)[..4]
  }

  /// An address is the last twenty bytes of its word; the first twelve must be zero.
  function ReadAddress(word: Word): Option<seq<byte>> {
    if forall i :: 0 <= i < 12 ==> word[i] == 0 then Some(word[12..]) else None
  }

  function ReadRefundCall(keccak: Keccak, data: seq<byte>): Option<seq<byte>> {
    if Invokes(keccak, RefundBytes(), 1, data) then Some(WordAt(data, 0)) else None
  }

  datatype ReleaseCall = ReleaseCall(claim: seq<byte>, recipient: seq<byte>)

  function ReadReleaseCall(keccak: Keccak, data: seq<byte>): Option<ReleaseCall> {
    if Invokes(keccak, ReleaseBytes(), 2, data) && ReadAddress(WordAt(data, 1)).Some?
    then Some(ReleaseCall(WordAt(data, 0), ReadAddress(WordAt(data, 1)).value)) else None
  }

  datatype ReproductionCall = ReproductionCall(
    claim: seq<byte>, child: seq<byte>, childAmount: nat, one: seq<byte>, oneAmount: nat, two: seq<byte>, twoAmount: nat)

  function ReadReproductionWords(data: seq<byte>): Option<ReproductionCall>
    requires |data| == 228
  {
    var child, one, two := ReadAddress(WordAt(data, 1)), ReadAddress(WordAt(data, 3)), ReadAddress(WordAt(data, 5));
    if child.Some? && one.Some? && two.Some?
    then Some(ReproductionCall(
                WordAt(data, 0), child.value, FromBigEndian(WordAt(data, 2)),
                one.value, FromBigEndian(WordAt(data, 4)), two.value, FromBigEndian(WordAt(data, 6))))
    else None
  }

  /// What the contract reads from its seven arguments.
  function ReadReproductionCall(keccak: Keccak, data: seq<byte>): Option<ReproductionCall> {
    if Invokes(keccak, ReproductionBytes(), 7, data) then ReadReproductionWords(data) else None
  }

  lemma CallInvokes(keccak: Keccak, signature: string, words: seq<Word>)
    ensures Invokes(keccak, Ascii(signature), |words|, Call(keccak, signature, words))
  {
    assert Call(keccak, signature, words)[..4] == keccak(Ascii(signature))[..4];
  }

  lemma ReadAddressOf(address: Address)
    ensures ReadAddress(AddressWord(address)) == Some(address)
  {
  }

  predicate ReadsAs(value: string, n: nat) {
    Decoded(value).Some? && |Decoded(value).value| == n
  }

  lemma ReadArguments(keccak: Keccak, claim: Word, child: Address, one: Address, two: Address, release: ReproductionRelease)
    ensures ReadReproductionCall(keccak, Call(keccak, REPRODUCTION_SIGNATURE, Arguments(claim, child, one, two, release)))
      == Some(ReproductionCall(claim, child, release.childAmount, one, release.royaltyOneAmount, two, release.royaltyTwoAmount))
  {
    hide Call, AddressWord, AmountWord, ReproductionBytes, Invokes, ReadAddress, WordAt;
    var words := Arguments(claim, child, one, two, release);
    var data := Call(keccak, REPRODUCTION_SIGNATURE, words);
    forall i | 0 <= i < 7
      ensures WordAt(data, i) == words[i]
    {
      CallWordAt(keccak, REPRODUCTION_SIGNATURE, words, i);
    }
    ReproductionIsAscii();
    CallInvokes(keccak, REPRODUCTION_SIGNATURE, words);
    ReadAddressOf(child);
    ReadAddressOf(one);
    ReadAddressOf(two);
    AmountWordValue(release.childAmount);
    AmountWordValue(release.royaltyOneAmount);
    AmountWordValue(release.royaltyTwoAmount);
  }

  /// The contract runs the reproduction's function and sees the claim, the three recipients and
  /// the three amounts that were meant, whenever the call can be encoded at all. It can exactly
  /// when every identifier reads; the first that does not is the error.
  lemma ReproductionCallRoundTrip(keccak: Keccak, claimId: string, child: string, release: ReproductionRelease)
    ensures ReproductionCalldata(keccak, claimId, child, release).Ok?
      <==> (ReadsAs(claimId, 32) && ReadsAs(child, 20)
            && ReadsAs(release.royaltyOneRecipient, 20) && ReadsAs(release.royaltyTwoRecipient, 20))
    ensures ReproductionCalldata(keccak, claimId, child, release).Err? ==>
      ReproductionCalldata(keccak, claimId, child, release).error == InvalidAmount(
        if !ReadsAs(claimId, 32) then claimId
        else if !ReadsAs(child, 20) then child
        else if !ReadsAs(release.royaltyOneRecipient, 20) then release.royaltyOneRecipient
        else release.royaltyTwoRecipient)
    ensures ReproductionCalldata(keccak, claimId, child, release).Ok? ==>
      ReadReproductionCall(keccak, ReproductionCalldata(keccak, claimId, child, release).value)
        == Some(ReproductionCall(
             Decoded(claimId).value, Decoded(child).value, release.childAmount,
             Decoded(release.royaltyOneRecipient).value, release.royaltyOneAmount,
             Decoded(release.royaltyTwoRecipient).value, release.royaltyTwoAmount))
  {
    hide ReadReproductionCall, Call, Arguments, Decoded;
    var claim, childAddress := FixedHex(claimId, 32), FixedHex(child, 20);
    var one, two := FixedHex(release.royaltyOneRecipient, 20), FixedHex(release.royaltyTwoRecipient, 20);
    if claim.Ok? && childAddress.Ok? && one.Ok? && two.Ok? {
      ReadArguments(keccak, claim.value, childAddress.value, one.value, two.value, release);
    }
  }

  /// The contract runs the plain release and sees its claim and its recipient.
  lemma ReleaseCallRoundTrip(keccak: Keccak, claimId: string, recipient: string)
    ensures ReleaseCalldata(keccak, claimId, recipient).Ok? <==> ReadsAs(claimId, 32) && ReadsAs(recipient, 20)
    ensures ReleaseCalldata(keccak, claimId, recipient).Err? ==>
      ReleaseCalldata(keccak, claimId, recipient).error == InvalidAmount(if !ReadsAs(claimId, 32) then claimId else recipient)
    ensures ReleaseCalldata(keccak, claimId, recipient).Ok? ==>
      ReadReleaseCall(keccak, ReleaseCalldata(keccak, claimId, recipient).value)
        == Some(ReleaseCall(Decoded(claimId).value, Decoded(recipient).value))
  {
    hide Decoded, Call, Ascii, WordAt, ReadAddress, AddressWord, ReleaseBytes;
    if ReleaseCalldata(keccak, claimId, recipient).Ok? {
      var words: seq<Word> := [FixedHex(claimId, 32).value, AddressWord(FixedHex(recipient, 20).value)];
      CallWordAt(keccak, "release(bytes32,address)", words, 0);
      CallWordAt(keccak, "release(bytes32,address)", words, 1);
      ReleaseIsAscii();
      CallInvokes(keccak, "release(bytes32,address)", words);
      ReadAddressOf(FixedHex(recipient, 20).value);
    }
  }

  /// The contract runs the refund and sees its claim.
  lemma RefundCallRoundTrip(keccak: Keccak, claimId: string)
    ensures RefundCalldata(keccak, claimId).Ok? <==> ReadsAs(claimId, 32)
    ensures RefundCalldata(keccak, claimId).Err? ==> RefundCalldata(keccak, claimId).error == InvalidAmount(claimId)
    ensures RefundCalldata(keccak, claimId).Ok? ==>
      ReadRefundCall(keccak, RefundCalldata(keccak, claimId).value) == Some(Decoded(claimId).value)
  {
    hide Decoded, Call, Ascii, WordAt, RefundBytes;
    if RefundCalldata(keccak, claimId).Ok? {
      var words: seq<Word> := [FixedHex(claimId, 32).value];
      CallWordAt(keccak, "refund(bytes32)", words, 0);
      RefundIsAscii();
      CallInvokes(keccak, "refund(bytes32)", words);
    }
  }
}
