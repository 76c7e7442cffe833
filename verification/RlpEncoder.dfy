/// The encoder as the factory runs it: bytes are appended to a growing buffer
/// (backend/factory/src/evm.rs). `Rlp` says what the appended bytes mean.
module RlpEncoder {
  import opened Bits
  import opened Limits
  import opened Rlp
  import opened Sequences

  type u64 = n: nat | n < U64_LIMIT

  class ByteBuffer {
    var bytes: seq<byte>

    constructor ()
      ensures bytes == []
    {
      bytes := [];
    }

    method Push(b: byte)
      modifies this
      ensures bytes == old(bytes) + [b]
    {
      bytes := bytes + [b];
    }

    method Extend(more: seq<byte>)
      modifies this
      ensures bytes == old(bytes) + more
    {
      bytes := bytes + more;
    }
  }

  /// Everything from the first non-zero byte on; the last byte when all are zero.
  method SignificantBytes(bytes: seq<byte>) returns (tail: seq<byte>)
    requires bytes != []
    ensures tail == if StripLeadingZeros(bytes) == [] then [0] else StripLeadingZeros(bytes)
  {
    var first := 0;
    while first < |bytes| && bytes[first] == 0
      invariant first <= |bytes|
      invariant StripLeadingZeros(bytes[first..]) == StripLeadingZeros(bytes)
      invariant forall i :: 0 <= i < first ==> bytes[i] == 0
    {
      assert bytes[first..][1..] == bytes[first + 1..];
      first := first + 1;
    }
    if first == |bytes| {
      first := |bytes| - 1;
    }
    tail := bytes[first..];
  }

  lemma LongLength(len: nat, offset: nat)
    requires 55 < len < U64_LIMIT && (offset == 0x80 || offset == 0xc0)
    ensures StripLeadingZeros(ToBigEndian(len, 8)) == Minimal(len) != [] && |Minimal(len)| <= 8
    ensures LengthPrefix(len, offset) == [offset + 55 + |Minimal(len)|] + Minimal(len)
  {
    LengthBytes(len);
    MinimalValue(len);
  }

  method EncodeLengthPrefix(len: nat, offset: nat, out: ByteBuffer)
    requires len < U64_LIMIT && (offset == 0x80 || offset == 0xc0)
    modifies out
    ensures out.bytes == old(out.bytes) + LengthPrefix(len, offset)
  {
    if len <= 55 {
      out.Push(offset + len);
      return;
    }
    LongLength(len, offset);
    ghost var before := out.bytes;
    var lengthSlice := SignificantBytes(ToBigEndian(len, 8));
    assert LengthPrefix(len, offset) == [offset + 55 + |lengthSlice|] + lengthSlice;
    out.Push(offset + 55 + |lengthSlice|);
    out.Extend(lengthSlice);
    Associate(before, [offset + 55 + |lengthSlice|], lengthSlice);
  }

  method RlpEncodeBytes(bytes: seq<byte>, out: ByteBuffer)
    requires |bytes| < U64_LIMIT
    modifies out
    ensures out.bytes == old(out.bytes) + Encode(Str(bytes))
  {
    ghost var before := out.bytes;
    if |bytes| == 1 && bytes[0] < 0x80 {
      assert Encode(Str(bytes)) == [bytes[0]];
      out.Push(bytes[0]);
      return;
    }
    assert Encode(Str(bytes)) == LengthPrefix(|bytes|, 0x80) + bytes;
    EncodeLengthPrefix(|bytes|, 0x80, out);
    out.Extend(bytes);
    Associate(before, LengthPrefix(|bytes|, 0x80), bytes);
  }

  lemma U64Bytes(value: nat)
    requires value < U64_LIMIT
    ensures StripLeadingZeros(ToBigEndian(value, 8)) == Minimal(value) && |Minimal(value)| <= 8
  {
    LengthBytes(value);
  }

  /// An integer is the string of its shortest big-endian form.
  method RlpEncodeU64(value: u64, out: ByteBuffer)
    modifies out
    ensures |Minimal(value)| <= 8
    ensures out.bytes == old(out.bytes) + Encode(Str(Minimal(value)))
  {
    U64Bytes(value);
    if value == 0 {
      out.Push(0x80);
      assert EncodeBytes([]) == [0x80] + [] == [0x80];
      return;
    }
    MinimalValue(value);
    var tail := SignificantBytes(ToBigEndian(value, 8));
    RlpEncodeBytes(tail, out);
  }

  function Flatten(items: seq<seq<byte>>): seq<byte> {
    if items == [] then [] else items[0] + Flatten(items[1..])
  }

  lemma {:induction false} FlattenSnoc(items: seq<seq<byte>>, n: nat)
    requires n < |items|
    ensures Flatten(items[..n + 1]) == Flatten(items[..n]) + items[n]
    decreases n
  {
    if n == 0 {
      assert items[..1][1..] == [];
    } else {
      FlattenSnoc(items[1..], n - 1);
      assert items[..n + 1][1..] == items[1..][..n];
      assert items[..n][1..] == items[1..][..n - 1];
      assert items[0] + (Flatten(items[1..][..n - 1]) + items[n]) == items[0] + Flatten(items[1..][..n - 1]) + items[n];
    }
  }

  /// Concatenating the encodings of a list's items is encoding the list's payload.
  lemma {:induction false} FlattenedEncodings(fields: seq<seq<byte>>, items: seq<Item>)
    requires |fields| == |items|
    requires forall i :: 0 <= i < |items| ==> Fits(items[i]) && fields[i] == Encode(items[i])
    ensures AllFit(items) && Flatten(fields) == EncodeAll(items)
  {
    if items != [] {
      FlattenedEncodings(fields[1..], items[1..]);
    }
  }

  method TotalLength(items: seq<seq<byte>>) returns (total: nat)
    ensures total == |Flatten(items)|
  {
    total := 0;
    var i := 0;
    while i < |items|
      invariant i <= |items| && total == |Flatten(items[..i])|
    {
      FlattenSnoc(items, i);
      total := total + |items[i]|;
      i := i + 1;
    }
    assert items[..i] == items;
  }

  /// `rlp_encode_list`: the length of the payload first, then the items in order.
  method RlpEncodeList(items: seq<seq<byte>>) returns (encoded: seq<byte>)
    requires |Flatten(items)| < U64_LIMIT
    ensures encoded == EncodeList(Flatten(items))
  {
    var payloadLen := TotalLength(items);
    var i := 0;
    assert items[..|items|] == items;
    var out := new ByteBuffer();
    EncodeLengthPrefix(payloadLen, 0xc0, out);
    ghost var prefix := out.bytes;
    while i < |items|
      invariant i <= |items| && out.bytes == prefix + Flatten(items[..i])
    {
      FlattenSnoc(items, i);
      Associate(prefix, Flatten(items[..i]), items[i]);
      out.Extend(items[i]);
      i := i + 1;
    }
    encoded := out.bytes;
    assert prefix == LengthPrefix(payloadLen, 0xc0);
  }
}
