/// Recursive length prefix encoding (backend/factory/src/evm.rs), against a decoder.
module Rlp {
  import opened Bits
  import opened Limits
  import opened Options

  // ---------------------------------------------------------------- big-endian integers

  function FromBigEndian(b: seq<byte>): nat {
    if b == [] then 0 else 256 * FromBigEndian(b[..|b| - 1]) + b[|b| - 1]
  }

  /// `to_be_bytes` at a width of `n` bytes.
  function ToBigEndian(x: nat, n: nat): (b: seq<byte>)
    ensures |b| == n
    decreases n
  {
    if n == 0 then [] else ToBigEndian(x / 256, n - 1) + [x % 256]
  }

  /// The shortest big-endian form; zero is the empty string.
  function Minimal(x: nat): seq<byte> {
    if x == 0 then [] else Minimal(x / 256) + [x % 256]
  }

  function StripLeadingZeros(b: seq<byte>): seq<byte> {
    if b == [] || b[0] != 0 then b else StripLeadingZeros(b[1..])
  }

  function Power256(n: nat): (p: nat)
    ensures p > 0
  {
    if n == 0 then 1 else 256 * Power256(n - 1)
  }

  lemma {:induction false} StripAppend(b: seq<byte>, last: byte)
    requires StripLeadingZeros(b) != [] || last != 0
    ensures StripLeadingZeros(b + [last]) == StripLeadingZeros(b) + [last]
    decreases |b|
  {
    if b != [] {
      assert (b + [last])[0] == b[0];
      if b[0] == 0 {
        assert (b + [last])[1..] == b[1..] + [last];
        StripAppend(b[1..], last);
      }
    }
  }

  lemma {:induction false} StripZeros(n: nat)
    ensures StripLeadingZeros(ToBigEndian(0, n)) == []
    ensures forall i :: 0 <= i < n ==> ToBigEndian(0, n)[i] == 0
    decreases n
  {
    if n > 0 {
      StripZeros(n - 1);
      AllZerosStrip(ToBigEndian(0, n));
    }
  }

  lemma {:induction false} AllZerosStrip(b: seq<byte>)
    requires forall i :: 0 <= i < |b| ==> b[i] == 0
    ensures StripLeadingZeros(b) == []
    decreases |b|
  {
    if b != [] {
      AllZerosStrip(b[1..]);
    }
  }

  /// Dropping the leading zeros of a fixed-width integer gives its shortest form.
  lemma {:induction false} StripIsMinimal(x: nat, n: nat)
    requires x < Power256(n)
    ensures StripLeadingZeros(ToBigEndian(x, n)) == Minimal(x)
    decreases n
  {
    if x == 0 {
      StripZeros(n);
    } else {
      StripIsMinimal(x / 256, n - 1);
      MinimalIsShort(x / 256, n - 1);
      assert x % 256 != 0 || Minimal(x / 256) != [];
      StripAppend(ToBigEndian(x / 256, n - 1), x % 256);
    }
  }

  lemma {:induction false} MinimalIsShort(x: nat, n: nat)
    requires x < Power256(n)
    ensures |Minimal(x)| <= n
    decreases n
  {
    if x > 0 {
      MinimalIsShort(x / 256, n - 1);
    }
  }

  /// Integers survive the encoding and have no leading zero byte.
  lemma {:induction false} MinimalValue(x: nat)
    ensures FromBigEndian(Minimal(x)) == x
    ensures Minimal(x) == [] || Minimal(x)[0] != 0
  {
    if x > 0 {
      MinimalValue(x / 256);
      var b := Minimal(x);
      assert b[..|b| - 1] == Minimal(x / 256);
    }
  }

  lemma Digit(x: nat, last: byte)
    ensures (256 * x + last) / 256 == x && (256 * x + last) % 256 == last
  {
  }

  lemma {:induction false} MinimalOfValue(b: seq<byte>)
    requires b == [] || b[0] != 0
    ensures Minimal(FromBigEndian(b)) == b
    ensures b != [] ==> FromBigEndian(b) > 0
    decreases |b|
  {
    if b != [] {
      var front, last := b[..|b| - 1], b[|b| - 1];
      MinimalOfValue(front);
      Digit(FromBigEndian(front), last);
      assert b == front + [last];
    }
  }

  // ---------------------------------------------------------------- encoder

  datatype Item = Str(bytes: seq<byte>) | List(items: seq<Item>)

  /// `rlp_encode_length_prefix`
  function LengthPrefix(len: nat, offset: nat): seq<byte>
    requires len < U64_LIMIT && (offset == 0x80 || offset == 0xc0)
  {
    if len <= 55 then [offset + len]
    else
      var bytes := StripLeadingZeros(ToBigEndian(len, 8));
      LengthBytes(len);
      [offset + 55 + |bytes|] + bytes
  }

  lemma LengthBytes(len: nat)
    requires len < U64_LIMIT
    ensures StripLeadingZeros(ToBigEndian(len, 8)) == Minimal(len) && |Minimal(len)| <= 8
  {
    assert Power256(8) == U64_LIMIT;
    StripIsMinimal(len, 8);
    MinimalIsShort(len, 8);
  }

  function EncodeBytes(bytes: seq<byte>): seq<byte>
    requires |bytes| < U64_LIMIT
  {
    if |bytes| == 1 && bytes[0] < 0x80 then bytes else LengthPrefix(|bytes|, 0x80) + bytes
  }

  function EncodeList(payload: seq<byte>): seq<byte>
    requires |payload| < U64_LIMIT
  {
    LengthPrefix(|payload|, 0xc0) + payload
  }

  /// Every string and every list payload has a length that fits the machine's `usize`.
  predicate Fits(item: Item)
    decreases item, 0
  {
    match item
    case Str(bytes) => |bytes| < U64_LIMIT
    case List(items) => AllFit(items) && |EncodeAll(items)| < U64_LIMIT
  }

  predicate AllFit(items: seq<Item>)
    decreases items, 0
  {
    items == [] || (Fits(items[0]) && AllFit(items[1..]))
  }

  /// Appendix B of the Ethereum Yellow Paper.
  function Encode(item: Item): seq<byte>
    requires Fits(item)
    decreases item, 1
  {
    match item
    case Str(bytes) => EncodeBytes(bytes)
    case List(items) => EncodeList(EncodeAll(items))
  }

  function EncodeAll(items: seq<Item>): seq<byte>
    requires AllFit(items)
    decreases items, 1
  {
    if items == [] then [] else Encode(items[0]) + EncodeAll(items[1..])
  }

  // ---------------------------------------------------------------- decoder

  /// Reads a length prefix; refuses leading zeros, long forms of short lengths and truncated bodies.
  function ReadHeader(bs: seq<byte>): (r: Option<(nat, seq<byte>)>)
    requires bs != [] && bs[0] >= 0x80
    ensures r.Some? ==> r.value.0 <= |r.value.1| < |bs|
  {
    var k := bs[0] - (if bs[0] < 0xc0 then 0x80 else 0xc0);
    if k <= 55 then
      if |bs| - 1 < k then None else Some((k, bs[1..]))
    else
      var n := k - 55;
      if |bs| - 1 < n || bs[1] == 0 then None
      else
        var len := FromBigEndian(bs[1..n + 1]);
        if len <= 55 || |bs| - 1 - n < len then None else Some((len, bs[n + 1..]))
  }

  function Decode(bs: seq<byte>): (r: Option<(Item, seq<byte>)>)
    ensures r.Some? ==> |r.value.1| < |bs|
    decreases |bs|, 0
  {
    if bs == [] then None
    else if bs[0] < 0x80 then Some((Str([bs[0]]), bs[1..]))
    else
      match ReadHeader(bs)
      case None => None
      case Some((len, body)) =>
        if bs[0] < 0xc0 then
          if len == 1 && body[0] < 0x80 then None else Some((Str(body[..len]), body[len..]))
        else
          match DecodeAll(body[..len])
          case None => None
          case Some(items) => Some((List(items), body[len..]))
  }

  function DecodeAll(bs: seq<byte>): Option<seq<Item>>
    decreases |bs|, 1
  {
    if bs == [] then Some([])
    else
      match Decode(bs)
      case None => None
      case Some((item, rest)) =>
        match DecodeAll(rest)
        case None => None
        case Some(items) => Some([item] + items)
  }

  // ---------------------------------------------------------------- round trip

  lemma HeaderRoundTrip(len: nat, offset: nat, body: seq<byte>)
    requires len < U64_LIMIT && (offset == 0x80 || offset == 0xc0) && len <= |body|
    ensures var bs := LengthPrefix(len, offset) + body;
      bs[0] >= 0x80 && (bs[0] < 0xc0 <==> offset == 0x80) && ReadHeader(bs) == Some((len, body))
  {
    var prefix := LengthPrefix(len, offset);
    var bs := prefix + body;
    if len <= 55 {
      assert bs[1..] == body;
    } else {
      LengthBytes(len);
      MinimalValue(len);
      var n := |Minimal(len)|;
      assert bs[1..n + 1] == Minimal(len);
      assert bs[n + 1..] == body;
    }
  }

  lemma {:induction false} DecodeInvertsEncode(item: Item, rest: seq<byte>)
    requires Fits(item)
    ensures Decode(Encode(item) + rest) == Some((item, rest))
    decreases item, 1
  {
    match item
    case Str(bytes) =>
      if |bytes| == 1 && bytes[0] < 0x80 {
        assert (bytes + rest)[1..] == rest && [(bytes + rest)[0]] == bytes;
      } else {
        HeaderRoundTrip(|bytes|, 0x80, bytes + rest);
        Split(LengthPrefix(|bytes|, 0x80), bytes, rest);
      }
    case List(items) =>
      var payload := EncodeAll(items);
      HeaderRoundTrip(|payload|, 0xc0, payload + rest);
      Split(LengthPrefix(|payload|, 0xc0), payload, rest);
      DecodeAllInverts(items);
  }

  lemma Split(prefix: seq<byte>, body: seq<byte>, rest: seq<byte>)
    ensures (prefix + body) + rest == prefix + (body + rest)
    ensures (body + rest)[..|body|] == body && (body + rest)[|body|..] == rest
  {
  }

  lemma {:induction false} DecodeAllInverts(items: seq<Item>)
    requires AllFit(items)
    ensures DecodeAll(EncodeAll(items)) == Some(items)
    decreases items, 0
  {
    if items != [] {
      DecodeInvertsEncode(items[0], EncodeAll(items[1..]));
      DecodeAllInverts(items[1..]);
      assert [items[0]] + items[1..] == items;
    }
  }

  /// No encoding is a prefix of another, and the encoding determines the item.
  lemma EncodingIsPrefixFree(x: Item, y: Item, r: seq<byte>, s: seq<byte>)
    requires Fits(x) && Fits(y) && Encode(x) + r == Encode(y) + s
    ensures x == y && r == s
  {
    DecodeInvertsEncode(x, r);
    DecodeInvertsEncode(y, s);
  }

  // ---------------------------------------------------------------- only canonical text decodes

  lemma {:induction false} ShortValue(b: seq<byte>, n: nat)
    requires |b| <= n
    ensures FromBigEndian(b) < Power256(n)
    decreases n
  {
    if b != [] {
      ShortValue(b[..|b| - 1], n - 1);
    }
  }

  /// A length is at most eight bytes long, so it always fits.
  lemma HeaderIsCanonical(bs: seq<byte>)
    requires bs != [] && bs[0] >= 0x80 && ReadHeader(bs).Some?
    ensures var (len, body) := ReadHeader(bs).value;
      len < U64_LIMIT && bs == LengthPrefix(len, if bs[0] < 0xc0 then 0x80 else 0xc0) + body
  {
    var offset := if bs[0] < 0xc0 then 0x80 else 0xc0;
    var (len, body) := ReadHeader(bs).value;
    if bs[0] - offset <= 55 {
      assert bs == [bs[0]] + bs[1..];
    } else {
      var n := bs[0] - offset - 55;
      ShortValue(bs[1..n + 1], 8);
      LongHeader(bs[1..n + 1], offset);
      SplitHead(bs, n);
      assert Power256(8) == U64_LIMIT;
    }
  }

  lemma LongHeader(b: seq<byte>, offset: nat)
    requires b != [] && b[0] != 0 && 55 < FromBigEndian(b) < U64_LIMIT
    requires offset == 0x80 || offset == 0xc0
    ensures LengthPrefix(FromBigEndian(b), offset) == [offset + 55 + |b|] + b
  {
    LengthBytes(FromBigEndian(b));
    MinimalOfValue(b);
  }

  lemma SplitHead(bs: seq<byte>, n: nat)
    requires n < |bs|
    ensures bs == [bs[0]] + bs[1..n + 1] + bs[n + 1..]
  {
  }

  /// Whatever decodes is the encoding of what it decodes to.
  lemma {:induction false} EncodeInvertsDecode(bs: seq<byte>)
    requires Decode(bs).Some?
    ensures var (item, rest) := Decode(bs).value; Fits(item) && bs == Encode(item) + rest
    decreases |bs|, 0
  {
    if bs[0] < 0x80 {
      assert bs == [bs[0]] + bs[1..];
    } else {
      var (len, body) := ReadHeader(bs).value;
      HeaderIsCanonical(bs);
      CutBody(bs, len, body, if bs[0] < 0xc0 then 0x80 else 0xc0);
      if bs[0] >= 0xc0 {
        EncodeAllInverts(body[..len]);
      }
    }
  }

  lemma CutBody(bs: seq<byte>, len: nat, body: seq<byte>, offset: nat)
    requires len < U64_LIMIT && len <= |body| && (offset == 0x80 || offset == 0xc0)
    requires bs == LengthPrefix(len, offset) + body
    ensures bs == LengthPrefix(len, offset) + body[..len] + body[len..]
  {
    assert body == body[..len] + body[len..];
  }

  lemma {:induction false} EncodeAllInverts(bs: seq<byte>)
    requires DecodeAll(bs).Some?
    ensures AllFit(DecodeAll(bs).value) && EncodeAll(DecodeAll(bs).value) == bs
    decreases |bs|, 1
  {
    if bs != [] {
      var (item, rest) := Decode(bs).value;
      EncodeInvertsDecode(bs);
      EncodeAllInverts(rest);
      var items := DecodeAll(rest).value;
      assert ([item] + items)[1..] == items;
    }
  }
}
