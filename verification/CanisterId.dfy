/// Base32 and textual canister ids (apps/indexer/src/config.ts).
module CanisterId {
  import opened Bits
  import opened Crc32
  import opened Options
  import opened Sequences

  // ---------------------------------------------------------------- big-endian bit lists

  function Reverse(s: seq<bool>): (r: seq<bool>)
    ensures |r| == |s| && forall i :: 0 <= i < |s| ==> r[i] == s[|s| - 1 - i]
  {
    seq(|s|, i requires 0 <= i < |s| => s[|s| - 1 - i])
  }

  /// The `n` low bits of a number, highest first.
  function BigEndian(x: nat, n: nat): (bits: seq<bool>)
    ensures |bits| == n
  {
    Reverse(OfNat(x, n))
  }

  function BigEndianValue(bits: seq<bool>): nat {
    Value(Reverse(bits))
  }

  lemma BigEndianInverse(bits: seq<bool>)
    ensures BigEndian(BigEndianValue(bits), |bits|) == bits
  {
    OfValue(Reverse(bits), |bits|);
  }

  lemma BigEndianValueOf(x: nat, n: nat)
    requires x < Pow2(n)
    ensures BigEndianValue(BigEndian(x, n)) == x
  {
    ValueOf(x, n);
    assert Reverse(BigEndian(x, n)) == OfNat(x, n);
  }

  lemma {:induction false} ValueOfConcat(a: seq<bool>, b: seq<bool>)
    ensures Value(a + b) == Value(a) + Pow2(|a|) * Value(b)
    decreases |a|
  {
    if a == [] {
      assert a + b == b;
    } else {
      ValueOfConcat(a[1..], b);
      assert (a + b)[1..] == a[1..] + b;
      DoubleProduct(Pow2(|a| - 1), Value(b));
    }
  }

  lemma DoubleProduct(p: int, v: int)
    ensures 2 * (p * v) == (2 * p) * v
  {
  }

  lemma ReverseConcat(a: seq<bool>, b: seq<bool>)
    ensures Reverse(a + b) == Reverse(b) + Reverse(a)
  {
  }

  lemma BigEndianConcat(a: seq<bool>, b: seq<bool>)
    ensures BigEndianValue(a + b) == Pow2(|b|) * BigEndianValue(a) + BigEndianValue(b)
  {
    ReverseConcat(a, b);
    ValueOfConcat(Reverse(b), Reverse(a));
  }

  // ---------------------------------------------------------------- base32 as RFC 4648 groups bits

  /// Concatenates `width` bits per number.
  function Expand(xs: seq<nat>, width: nat): seq<bool> {
    if xs == [] then [] else BigEndian(xs[0], width) + Expand(xs[1..], width)
  }

  /// Reads whole groups of `width` bits and drops an incomplete last group.
  function Group(bits: seq<bool>, width: nat): seq<nat>
    requires width > 0
    decreases |bits|
  {
    if |bits| < width then [] else [BigEndianValue(bits[..width])] + Group(bits[width..], width)
  }

  lemma {:induction false} ExpandAppend(xs: seq<nat>, ys: seq<nat>, width: nat)
    ensures Expand(xs + ys, width) == Expand(xs, width) + Expand(ys, width)
  {
    if xs == [] {
      assert xs + ys == ys;
    } else {
      ExpandAppend(xs[1..], ys, width);
      assert (xs + ys)[1..] == xs[1..] + ys && (xs + ys)[0] == xs[0];
      Associate(BigEndian(xs[0], width), Expand(xs[1..], width), Expand(ys, width));
    }
  }

  lemma {:induction false} GroupAppend(a: seq<bool>, b: seq<bool>, width: nat)
    requires width > 0 && |a| % width == 0
    ensures Group(a + b, width) == Group(a, width) + Group(b, width)
    decreases |a|
  {
    if a == [] {
      assert a + b == b;
    } else {
      WholeGroups(|a|, width);
      assert (a + b)[..width] == a[..width];
      assert (a + b)[width..] == a[width..] + b;
      GroupAppend(a[width..], b, width);
    }
  }

  lemma WholeGroups(n: nat, width: nat)
    requires width > 0 && n > 0 && n % width == 0
    ensures n >= width && (n - width) % width == 0
  {
    var q := n / width;
    assert n == q * width;
    if q == 0 {
      assert false;
    }
    assert n - width == (q - 1) * width + 0;
    Quotient(n - width, width, q - 1, 0);
  }

  /// Regrouping whole groups and expanding them again gives the bits back.
  lemma {:induction false} ExpandGroup(bits: seq<bool>, width: nat)
    requires width > 0 && |bits| % width == 0
    ensures Expand(Group(bits, width), width) == bits
    decreases |bits|
  {
    if bits != [] {
      WholeGroups(|bits|, width);
      ExpandGroup(bits[width..], width);
      BigEndianInverse(bits[..width]);
    }
  }

  lemma PrefixGroup(first: seq<bool>, rest: seq<bool>, width: nat)
    requires width > 0 && |first| == width
    ensures Group(first + rest, width) == [BigEndianValue(first)] + Group(rest, width)
  {
    assert (first + rest)[..width] == first && (first + rest)[width..] == rest;
  }

  /// Expanding numbers and regrouping gives them back, whatever short remainder follows.
  lemma {:induction false} GroupExpand(xs: seq<nat>, remainder: seq<bool>, width: nat)
    requires width > 0 && |remainder| < width && forall x :: x in xs ==> x < Pow2(width)
    ensures Group(Expand(xs, width) + remainder, width) == xs
  {
    if xs == [] {
      assert Expand(xs, width) + remainder == remainder;
    } else {
      var first, others := BigEndian(xs[0], width), Expand(xs[1..], width);
      Associate(first, others, remainder);
      assert xs[0] in xs && forall x :: x in xs[1..] ==> x in xs;
      BigEndianValueOf(xs[0], width);
      GroupExpand(xs[1..], remainder, width);
      PrefixGroup(first, others + remainder, width);
    }
  }

  lemma {:induction false} GroupBound(bits: seq<bool>, width: nat, x: nat)
    requires width > 0 && x in Group(bits, width)
    ensures x < Pow2(width)
    decreases |bits|
  {
    if x != BigEndianValue(bits[..width]) {
      GroupBound(bits[width..], width, x);
    }
  }

  // ---------------------------------------------------------------- base32 text

  /// `BASE32_ALPHABET.indexOf`
  function Digit(c: char): (d: Option<nat>)
    ensures d.Some? ==> d.value < 32
  {
    if 'a' <= c <= 'z' then Some(c as int - 'a' as int)
    else if '2' <= c <= '7' then Some(26 + c as int - '2' as int)
    else None
  }

  function DigitChar(d: nat): (c: char)
    requires d < 32
    ensures Digit(c) == Some(d)
  {
    if d < 26 then 'a' + d as char else '2' + (d - 26) as char
  }

  predicate AllDigits(s: string) {
    forall i :: 0 <= i < |s| ==> Digit(s[i]).Some?
  }

  function Digits(s: string): (ds: seq<nat>)
    requires AllDigits(s)
    ensures |ds| == |s| && forall i :: 0 <= i < |s| ==> Digit(s[i]) == Some(ds[i])
  {
    seq(|s|, i requires 0 <= i < |s| => Digit(s[i]).value)
  }

  function BytesOf(bits: seq<bool>): seq<byte> {
    ByteWidth();
    var bytes := Group(bits, 8);
    assert forall i :: 0 <= i < |bytes| ==> bytes[i] < 256 by {
      forall i | 0 <= i < |bytes| {
        GroupBound(bits, 8, bytes[i]);
      }
    }
    bytes
  }

  /// All bits of the text in one list; whole bytes are read off, the remainder must be zero.
  function Decoded(s: string): Option<seq<byte>> {
    if !AllDigits(s) then None
    else
      var bits := Expand(Digits(s), 5);
      var whole := |bits| - |bits| % 8;
      if bits[whole..] == Zeros(|bits| % 8) then Some(BytesOf(bits[..whole])) else None
  }

  // ---------------------------------------------------------------- the decoder's 32-bit buffer

  lemma Distribute(a: int, b: int, c: int, q: int, m: int)
    ensures 32 * (m * b + a) - 32 * ((m * c) * q) == (b - c * q) * (32 * m) + 32 * a
  {
    assert (m * c) * q == m * (c * q);
    assert m * b - m * (c * q) == m * (b - c * q);
  }

  /// The wrap drops a multiple of 32 * m, so the low bits survive it.
  lemma WrapShift(buffer: nat, v: nat, m: nat, c: nat)
    requires v < 32 && m > 0 && m * c == 0x800_0000
    ensures ((buffer * 32) % 0x1_0000_0000 + v) % (32 * m) == 32 * (buffer % m) + v
  {
    var q := (buffer * 32) / 0x1_0000_0000;
    DivisionIdentity(buffer, m);
    Distribute(buffer % m, buffer / m, c, q, m);
    Quotient((buffer * 32) % 0x1_0000_0000 + v, 32 * m, buffer / m - c * q, 32 * (buffer % m) + v);
  }

  lemma Wrapped(buffer: nat, v: nat, m: nat, c: nat, low: nat)
    requires v < 32 && m > 0 && m * c == 0x800_0000 && buffer % m == low
    ensures ((buffer * 32) % 0x1_0000_0000 + v) % (32 * m) == 32 * low + v
  {
    WrapShift(buffer, v, m, c);
  }

  lemma SmallPower(n: nat)
    requires n < 8
    ensures Pow2(n) * Pow2(27 - n) == 0x800_0000
    ensures Pow2(5) == 32 && Pow2(n + 5) == 32 * Pow2(n)
  {
    PowerSum(5, n);
    PowerSum(n, 27 - n);
    PowerSum(9, 9);
    PowerSum(18, 9);
    assert Pow2(9) == 512;
  }

  /// Appending five bits to a wrapping 32-bit buffer keeps the pending bits in its low end.
  lemma PushDigit(buffer: nat, pending: seq<bool>, v: nat)
    requires |pending| < 8 && v < 32
    requires buffer % Pow2(|pending|) == BigEndianValue(pending)
    ensures ((buffer * 32) % 0x1_0000_0000 + v) % Pow2(|pending| + 5) == BigEndianValue(pending + BigEndian(v, 5))
  {
    hide Pow2, BigEndian, BigEndianValue;
    SmallPower(|pending|);
    BigEndianConcat(pending, BigEndian(v, 5));
    BigEndianValueOf(v, 5);
    Wrapped(buffer, v, Pow2(|pending|), Pow2(27 - |pending|), BigEndianValue(pending));
  }

  lemma DivisionIdentity(x: nat, d: nat)
    requires d > 0
    ensures x == d * (x / d) + x % d
  {
  }

  lemma HighBitsSplit(buffer: nat, m: nat, high: nat, low: nat)
    requires m > 0 && low < m && high < 256
    requires buffer % (m * 256) == m * high + low
    ensures (buffer / m) % 256 == high && buffer % m == low
  {
    var d := m * 256;
    var k := buffer / d;
    DivisionIdentity(buffer, d);
    Regroup(m, k, high);
    Quotient(buffer, m, 256 * k + high, low);
  }

  lemma Regroup(m: int, k: int, high: int)
    ensures (m * 256) * k + m * high == (256 * k + high) * m
  {
  }

  /// Taking a byte off the pending bits.
  lemma PopByte(buffer: nat, high: seq<bool>, low: seq<bool>)
    requires |high| == 8 && buffer % Pow2(|low| + 8) == BigEndianValue(high + low)
    ensures (buffer / Pow2(|low|)) % 256 == BigEndianValue(high)
    ensures buffer % Pow2(|low|) == BigEndianValue(low)
  {
    BigEndianConcat(high, low);
    ByteWidth();
    PowerSum(|low|, 8);
    HighBitsSplit(buffer, Pow2(|low|), BigEndianValue(high), BigEndianValue(low));
  }

  lemma {:induction false} PowerSum(a: nat, b: nat)
    ensures Pow2(a + b) == Pow2(a) * Pow2(b)
    decreases b
  {
    if b > 0 {
      PowerSum(a, b - 1);
      assert Pow2(a + b) == 2 * Pow2(a + b - 1);
      DoubleProduct(Pow2(a), Pow2(b - 1));
    }
  }

  lemma OneMore(k: int, width: int)
    ensures (k + 1) * width == k * width + width
  {
  }

  lemma {:induction false} ExpandLength(xs: seq<nat>, width: nat)
    ensures |Expand(xs, width)| == |xs| * width
  {
    if xs != [] {
      ExpandLength(xs[1..], width);
      OneMore(|xs| - 1, width);
    }
  }

  lemma RemainderOf(consumed: seq<bool>, pending: seq<bool>)
    requires |consumed| % 8 == 0 && |pending| < 8
    ensures var bits := consumed + pending;
      |bits| % 8 == |pending| && bits[..|bits| - |bits| % 8] == consumed && bits[|bits| - |bits| % 8..] == pending
  {
  }

  lemma ZeroValue(bits: seq<bool>)
    ensures BigEndianValue(bits) == 0 <==> bits == Zeros(|bits|)
  {
    BigEndianInverse(bits);
    OfValue([], |bits|);
    AllZeroValue(|bits|);
    assert BigEndian(0, |bits|) == Zeros(|bits|);
    assert bits == Zeros(|bits|) ==> Reverse(bits) == Zeros(|bits|);
  }

  lemma {:induction false} AllZeroValue(n: nat)
    ensures Value(Zeros(n)) == 0
  {
    if n > 0 {
      AllZeroValue(n - 1);
      assert Zeros(n)[1..] == Zeros(n - 1);
    }
  }

  lemma TakeByte(output: seq<byte>, consumed: seq<bool>, high: seq<bool>)
    requires |high| == 8 && |consumed| % 8 == 0 && Group(consumed, 8) == output
    ensures Group(consumed + high, 8) == output + [BigEndianValue(high)]
  {
    GroupAppend(consumed, high, 8);
    PrefixGroup(high, [], 8);
    assert high + [] == high;
  }

  /// The digits so far are the bytes already output plus the pending bits.
  ghost predicate Consumed(ds: seq<nat>, output: seq<byte>, consumed: seq<bool>, pending: seq<bool>) {
    && |consumed| % 8 == 0
    && consumed + pending == Expand(ds, 5)
    && Group(consumed, 8) == output
  }

  /// The pending bits are the low end of the buffer.
  ghost predicate Buffered(buffer: nat, pending: seq<bool>) {
    buffer % Pow2(|pending|) == BigEndianValue(pending)
  }

  lemma PushStep(ds: seq<nat>, output: seq<byte>, consumed: seq<bool>, pending: seq<bool>, v: nat)
    requires Consumed(ds, output, consumed, pending)
    ensures Consumed(ds + [v], output, consumed, pending + BigEndian(v, 5))
  {
    ExpandAppend(ds, [v], 5);
    assert Expand([v], 5) == BigEndian(v, 5);
    Associate(consumed, pending, BigEndian(v, 5));
  }

  lemma PopStep(ds: seq<nat>, output: seq<byte>, consumed: seq<bool>, high: seq<bool>, low: seq<bool>, b: byte)
    requires |high| == 8 && Consumed(ds, output, consumed, high + low) && b == BigEndianValue(high)
    ensures Consumed(ds, output + [b], consumed + high, low)
  {
    TakeByte(output, consumed, high);
    Associate(consumed, high, low);
  }

  lemma Finished(input: string, output: seq<byte>, buffer: nat, consumed: seq<bool>, pending: seq<bool>)
    requires AllDigits(input) && Consumed(Digits(input), output, consumed, pending)
    requires Buffered(buffer, pending) && |pending| < 8
    ensures Decoded(input) == if |pending| > 0 && buffer % Pow2(|pending|) != 0 then None else Some(output)
  {
    RemainderOf(consumed, pending);
    ZeroValue(pending);
    assert BytesOf(consumed) == output;
  }

  /// `decodeBase32`, with the buffer that is shifted but never masked.
  method DecodeBase32(input: string) returns (r: Option<seq<byte>>)
    ensures r == Decoded(input)
  {
    var output: seq<byte> := [];
    var buffer: nat := 0;
    var bits: nat := 0;
    ghost var ds: seq<nat>, consumed: seq<bool>, pending: seq<bool> := [], [], [];
    for n := 0 to |input|
      invariant AllDigits(input[..n]) && ds == Digits(input[..n])
      invariant Consumed(ds, output, consumed, pending)
      invariant Buffered(buffer, pending) && |pending| == bits < 8
    {
      var digit := Digit(input[n]);
      if digit.None? {
        return None;
      }
      var value := digit.value;
      PushDigit(buffer, pending, value);
      PushStep(ds, output, consumed, pending, value);
      buffer := (buffer * 32) % 0x1_0000_0000 + value;
      bits := bits + 5;
      ds, pending := ds + [value], pending + BigEndian(value, 5);
      assert input[..n + 1] == input[..n] + [input[n]];
      while bits >= 8
        invariant Consumed(ds, output, consumed, pending)
        invariant Buffered(buffer, pending) && |pending| == bits < 13
      {
        ghost var high, low := pending[..8], pending[8..];
        assert pending == high + low;
        PopByte(buffer, high, low);
        bits := bits - 8;
        var b: byte := (buffer / Pow2(bits)) % 256;
        PopStep(ds, output, consumed, high, low, b);
        output := output + [b];
        consumed, pending := consumed + high, low;
      }
    }
    assert input[..|input|] == input;
    Finished(input, output, buffer, consumed, pending);
    if bits > 0 && buffer % Pow2(bits) != 0 {
      return None;
    }
    return Some(output);
  }

  // ---------------------------------------------------------------- printing, as section 6 of RFC 4648

  function Encode(bytes: seq<byte>): (text: string)
    ensures AllDigits(text)
  {
    var digits := EncodedDigits(bytes);
    seq(|digits|, i requires 0 <= i < |digits| => DigitChar(digits[i]))
  }

  /// The byte string's bits, padded with zeros to whole groups of five.
  function PaddedBits(bytes: seq<byte>): seq<bool> {
    var bits := Expand(bytes, 8);
    bits + Zeros((5 - |bits| % 5) % 5)
  }

  function EncodedDigits(bytes: seq<byte>): (digits: seq<nat>)
    ensures forall i :: 0 <= i < |digits| ==> digits[i] < 32
  {
    assert Pow2(5) == 32;
    var digits := Group(PaddedBits(bytes), 5);
    assert forall i :: 0 <= i < |digits| ==> digits[i] < 32 by {
      forall i | 0 <= i < |digits| {
        GroupBound(PaddedBits(bytes), 5, digits[i]);
      }
    }
    digits
  }

  lemma BitsOfEncoded(bytes: seq<byte>)
    ensures Expand(Digits(Encode(bytes)), 5) == PaddedBits(bytes)
  {
    assert Digits(Encode(bytes)) == Group(PaddedBits(bytes), 5);
    ExpandGroup(PaddedBits(bytes), 5);
  }

  lemma BytesOfExpanded(bytes: seq<byte>)
    ensures |Expand(bytes, 8)| % 8 == 0 && BytesOf(Expand(bytes, 8)) == bytes
  {
    ExpandLength(bytes, 8);
    ByteWidth();
    GroupExpand(bytes, [], 8);
    assert Expand(bytes, 8) + [] == Expand(bytes, 8);
  }

  /// The decoder inverts unpadded base32 for every byte string.
  lemma DecodeInvertsEncode(bytes: seq<byte>)
    ensures Decoded(Encode(bytes)) == Some(bytes)
  {
    BitsOfEncoded(bytes);
    BytesOfExpanded(bytes);
    RemainderOf(Expand(bytes, 8), Zeros((5 - |Expand(bytes, 8)| % 5) % 5));
  }

  /// Groups of five characters, separated by dashes.
  function Grouped(s: string): string
    decreases |s|
  {
    if |s| <= 5 then s else s[..5] + "-" + Grouped(s[5..])
  }

  /// A CRC word as four bytes, highest first.
  function ChecksumBytes(w: Word): (bytes: seq<byte>)
    ensures |bytes| == 4
  {
    ByteWidth();
    [Value(w[24..32]), Value(w[16..24]), Value(w[8..16]), Value(w[0..8])]
  }

  /// `(d0 << 24) | (d1 << 16) | (d2 << 8) | d3`
  function ChecksumWord(d: seq<byte>): Word
    requires |d| >= 4
  {
    OfNat(d[3], 8) + OfNat(d[2], 8) + OfNat(d[1], 8) + OfNat(d[0], 8)
  }

  lemma ChecksumWordOfBytes(w: Word, rest: seq<byte>)
    ensures ChecksumWord(ChecksumBytes(w) + rest) == w
  {
    OfValue(w[24..32], 8);
    OfValue(w[16..24], 8);
    OfValue(w[8..16], 8);
    OfValue(w[0..8], 8);
    assert w == w[0..8] + w[8..16] + w[16..24] + w[24..32];
  }

  lemma ChecksumBytesOfWord(d: seq<byte>)
    requires |d| >= 4
    ensures ChecksumBytes(ChecksumWord(d)) == d[..4]
  {
    var w := ChecksumWord(d);
    ByteWidth();
    assert w[0..8] == OfNat(d[3], 8) && w[8..16] == OfNat(d[2], 8);
    assert w[16..24] == OfNat(d[1], 8) && w[24..32] == OfNat(d[0], 8);
    ValueOf(d[0], 8);
    ValueOf(d[1], 8);
    ValueOf(d[2], 8);
    ValueOf(d[3], 8);
  }

  /// A principal's bytes behind their checksum.
  function WithChecksum(principal: seq<byte>): seq<byte> {
    ChecksumBytes(Crc(Polynomial(), principal)) + principal
  }

  function PrintedId(principal: seq<byte>): string {
    Grouped(Encode(WithChecksum(principal)))
  }

  lemma EmptyChecksum()
    ensures WithChecksum([]) == [0, 0, 0, 0]
  {
    hide Polynomial;
    var w := Crc(Polynomial(), []);
    assert w == Zeros(32);
    AllZeroValue(8);
    assert w[24..32] == Zeros(8) && w[16..24] == Zeros(8) && w[8..16] == Zeros(8) && w[0..8] == Zeros(8);
  }

  lemma {:induction false} ZeroDigits(n: nat)
    ensures Group(Zeros(5 * n), 5) == seq(n, _ => 0)
    decreases n
  {
    if n > 0 {
      var bits := Zeros(5 * n);
      assert bits[..5] == Zeros(5) && bits[5..] == Zeros(5 * (n - 1));
      assert Reverse(Zeros(5)) == Zeros(5);
      ZeroValue(Zeros(5));
      ZeroDigits(n - 1);
    }
  }

  lemma {:induction false} ZeroBits(bytes: seq<byte>)
    requires forall i :: 0 <= i < |bytes| ==> bytes[i] == 0
    ensures Expand(bytes, 8) == Zeros(8 * |bytes|)
  {
    if bytes != [] {
      ZeroBits(bytes[1..]);
      assert OfNat(0, 8) == Zeros(8);
      assert Reverse(Zeros(8)) == Zeros(8);
      assert Zeros(8) + Zeros(8 * (|bytes| - 1)) == Zeros(8 * |bytes|);
    }
  }

  lemma EmptyDigits()
    ensures EncodedDigits([0, 0, 0, 0]) == seq(7, _ => 0)
  {
    hide Group, Expand;
    ZeroBits([0, 0, 0, 0]);
    assert Zeros(32) + Zeros(3) == Zeros(35);
    ZeroDigits(7);
  }

  /// The empty principal is printed as the management canister's name.
  lemma ManagementCanister()
    ensures PrintedId([]) == "aaaaa-aa"
  {
    hide WithChecksum, EncodedDigits, Decoded;
    EmptyChecksum();
    EmptyDigits();
    var text := Encode([0, 0, 0, 0]);
    assert Digit('a') == Some(0) && DigitChar(0) == 'a';
    assert text == ['a', 'a', 'a', 'a', 'a', 'a', 'a'];
    assert text[..5] == "aaaaa" && text[5..] == "aa";
    assert Grouped(text[5..]) == "aa";
  }

  // ---------------------------------------------------------------- the validator

  predicate IdCharacter(c: char) {
    Digit(c).Some? || c == '-'
  }

  /// `value.split("-")`
  function Split(s: string): (groups: seq<string>)
    ensures |groups| > 0
  {
    if s == "" then [""]
    else if s[0] == '-' then [""] + Split(s[1..])
    else
      var groups := Split(s[1..]);
      [[s[0]] + groups[0]] + groups[1..]
  }

  function Join(groups: seq<string>): string {
    if groups == [] then "" else groups[0] + Join(groups[1..])
  }

  /// Non-empty groups of at most five characters, all but the last exactly five long.
  predicate WellGrouped(groups: seq<string>) {
    && (forall g :: g in groups ==> 0 < |g| <= 5)
    && (forall i :: 0 <= i < |groups| - 1 ==> |groups[i]| == 5)
  }

  /// The text is well formed and its bytes are some principal behind its own checksum.
  ghost predicate IsCanisterIdText(value: string) {
    && (forall i :: 0 <= i < |value| ==> IdCharacter(value[i]))
    && WellGrouped(Split(value))
    && exists principal: seq<byte> :: Decoded(Join(Split(value))) == Some(WithChecksum(principal))
  }

  lemma ChecksumDecides(decoded: seq<byte>)
    requires |decoded| >= 4
    ensures ChecksumWord(decoded) == Crc(Polynomial(), decoded[4..]) <==> decoded == WithChecksum(decoded[4..])
  {
    ChecksumBytesOfWord(decoded);
    ChecksumWordOfBytes(Crc(Polynomial(), decoded[4..]), decoded[4..]);
    assert decoded == decoded[..4] + decoded[4..];
  }

  /// `isValidCanisterId`
  method IsValidCanisterId(table: array<Word>, value: string) returns (ok: bool)
    requires IsTable(Polynomial(), table[..])
    ensures ok <==> IsCanisterIdText(value)
  {
    if value == "" || exists i :: 0 <= i < |value| && !IdCharacter(value[i]) {
      assert value == "" ==> Split(value)[0] == "";
      return false;
    }
    var groups := Split(value);
    if !WellGrouped(groups) {
      return false;
    }
    var decoded := DecodeBase32(Join(groups));
    if decoded.None? || |decoded.value| < 4 {
      return false;
    }
    var checksum := ChecksumWord(decoded.value);
    var principal := decoded.value[4..];
    var crc := ComputeCrc32(Polynomial(), table, principal);
    ChecksumDecides(decoded.value);
    assert forall p: seq<byte> :: WithChecksum(p)[4..] == p;
    return checksum == crc;
  }

  // ---------------------------------------------------------------- printed ids are accepted

  lemma {:induction false} SplitAtDash(a: string, b: string)
    requires '-' !in a
    ensures Split(a + "-" + b) == [a] + Split(b)
  {
    if a == "" {
      assert (a + "-" + b)[1..] == b;
    } else {
      SplitAtDash(a[1..], b);
      assert (a + "-" + b)[1..] == a[1..] + "-" + b;
      assert [a[0]] + a[1..] == a;
    }
  }

  lemma {:induction false} SplitWithoutDash(a: string)
    requires '-' !in a
    ensures Split(a) == [a]
  {
    if a != "" {
      SplitWithoutDash(a[1..]);
      assert [a[0]] + a[1..] == a;
    }
  }

  lemma PushGroup(g: string, groups: seq<string>)
    requires |g| == 5 && WellGrouped(groups)
    ensures WellGrouped([g] + groups) && Join([g] + groups) == g + Join(groups)
  {
    assert ([g] + groups)[1..] == groups;
  }

  lemma {:induction false} GroupedCharacters(s: string, i: nat)
    requires AllDigits(s) && i < |Grouped(s)|
    ensures IdCharacter(Grouped(s)[i])
    decreases |s|
  {
    if |s| > 5 && i > 5 {
      assert Grouped(s) == (s[..5] + "-") + Grouped(s[5..]);
      GroupedCharacters(s[5..], i - 6);
    }
  }

  lemma {:induction false} SplitOfGrouped(s: string)
    requires s != "" && AllDigits(s)
    ensures WellGrouped(Split(Grouped(s))) && Join(Split(Grouped(s))) == s
    decreases |s|
  {
    if |s| <= 5 {
      SplitWithoutDash(s);
      assert Join([s]) == s + Join([]);
    } else {
      SplitOfGrouped(s[5..]);
      SplitAtDash(s[..5], Grouped(s[5..]));
      PushGroup(s[..5], Split(Grouped(s[5..])));
    }
  }

  lemma GroupedTextIsAccepted(s: string, principal: seq<byte>)
    requires AllDigits(s) && s != "" && Decoded(s) == Some(WithChecksum(principal))
    ensures IsCanisterIdText(Grouped(s))
    ensures Decoded(Join(Split(Grouped(s)))) == Some(WithChecksum(principal))
  {
    SplitOfGrouped(s);
    forall i | 0 <= i < |Grouped(s)|
      ensures IdCharacter(Grouped(s)[i])
    {
      GroupedCharacters(s, i);
    }
  }

  lemma NoBytesInNothing()
    ensures Decoded("") == Some([])
  {
  }

  /// Every principal's printed form is accepted, and it decodes to the principal behind its checksum.
  lemma PrintedIdIsValid(principal: seq<byte>)
    ensures IsCanisterIdText(PrintedId(principal))
    ensures Decoded(Join(Split(PrintedId(principal)))) == Some(WithChecksum(principal))
  {
    DecodeInvertsEncode(WithChecksum(principal));
    NoBytesInNothing();
    GroupedTextIsAccepted(Encode(WithChecksum(principal)), principal);
  }

  /// Different principals have different printed forms.
  lemma PrintedIdIsInjective(p: seq<byte>, q: seq<byte>)
    requires PrintedId(p) == PrintedId(q)
    ensures p == q
  {
    PrintedIdIsValid(p);
    PrintedIdIsValid(q);
    assert WithChecksum(p)[4..] == p && WithChecksum(q)[4..] == q;
  }

  // ---------------------------------------------------------------- where decoding is not injective

  lemma ZeroDigit()
    ensures Expand([0], 5) == Zeros(5)
  {
    assert forall i: nat :: 0 / Pow2(i) == 0;
    assert BigEndian(0, 5) == Zeros(5);
  }

  lemma DecodedParts(s: string, whole: seq<bool>, left: seq<bool>)
    requires AllDigits(s) && Expand(Digits(s), 5) == whole + left && |whole| % 8 == 0 && |left| < 8
    ensures Decoded(s) == if left == Zeros(|left|) then Some(BytesOf(whole)) else None
  {
    RemainderOf(whole, left);
  }

  lemma ExtraDigitIgnored(s: string, whole: seq<bool>, left: nat)
    requires AllDigits(s) && Expand(Digits(s), 5) == whole + Zeros(left) && |whole| % 8 == 0 && left < 3
    ensures Decoded(s + "a") == Decoded(s)
  {
    assert Digits(s + "a") == Digits(s) + [0];
    ExpandAppend(Digits(s), [0], 5);
    ZeroDigit();
    Associate(whole, Zeros(left), Zeros(5));
    assert Zeros(left) + Zeros(5) == Zeros(left + 5);
    DecodedParts(s, whole, Zeros(left));
    DecodedParts(s + "a", whole, Zeros(left + 5));
  }

  lemma ExtraDigitAddsByte(s: string, whole: seq<bool>, left: nat)
    requires AllDigits(s) && Expand(Digits(s), 5) == whole + Zeros(left) && |whole| % 8 == 0 && 3 <= left < 8
    ensures Decoded(s + "a") != Decoded(s)
  {
    hide Decoded, BytesOf, Expand;
    FiveMoreZeros(s, whole, left);
    DecodedParts(s, whole, Zeros(left));
    DecodedParts(s + "a", whole + Zeros(8), Zeros(left - 3));
    ZeroByteAdds(whole);
  }

  lemma FiveMoreZeros(s: string, whole: seq<bool>, left: nat)
    requires AllDigits(s) && Expand(Digits(s), 5) == whole + Zeros(left) && 3 <= left
    ensures AllDigits(s + "a") && Expand(Digits(s + "a"), 5) == (whole + Zeros(8)) + Zeros(left - 3)
  {
    assert Digits(s + "a") == Digits(s) + [0];
    ExpandAppend(Digits(s), [0], 5);
    ZeroDigit();
    Associate(whole, Zeros(left), Zeros(5));
    assert Zeros(left) + Zeros(5) == Zeros(8) + Zeros(left - 3);
    Associate(whole, Zeros(8), Zeros(left - 3));
    hide Expand;
  }

  lemma ZeroByteAdds(whole: seq<bool>)
    requires |whole| % 8 == 0
    ensures BytesOf(whole + Zeros(8)) != BytesOf(whole)
  {
    GroupAppend(whole, Zeros(8), 8);
    PrefixGroup(Zeros(8), [], 8);
    assert Zeros(8) + [] == Zeros(8);
  }

  lemma SplitRemainder(bits: seq<bool>) returns (whole: seq<bool>, left: nat)
    requires bits[|bits| - |bits| % 8..] == Zeros(|bits| % 8)
    ensures left == |bits| % 8 && |whole| % 8 == 0 && bits == whole + Zeros(left)
  {
    left := |bits| % 8;
    whole := bits[..|bits| - left];
  }

  /// The decoder ignores a further zero digit exactly when fewer than three bits are left over.
  lemma ExtraZeroDigit(s: string)
    requires Decoded(s).Some?
    ensures Decoded(s + "a") == Decoded(s) <==> (5 * |s|) % 8 < 3
  {
    ExpandLength(Digits(s), 5);
    var whole, left := SplitRemainder(Expand(Digits(s), 5));
    if left < 3 {
      ExtraDigitIgnored(s, whole, left);
    } else {
      ExtraDigitAddsByte(s, whole, left);
    }
  }

  // ---------------------------------------------------------------- which accepted texts are printed forms

  /// Splitting at dashes and joining with them are inverse, where the groups are well formed.
  lemma {:induction false} GroupedOfSplit(v: string)
    requires WellGrouped(Split(v))
    ensures Grouped(Join(Split(v))) == v
    decreases |v|
  {
    var groups := Split(v);
    var n := FirstDash(v);
    if n == |v| {
      SplitWithoutDash(v);
      assert Join([v]) == v + Join([]);
    } else {
      var rest := v[n + 1..];
      assert v == v[..n] + "-" + rest;
      SplitAtDash(v[..n], rest);
      assert groups == [v[..n]] + Split(rest);
      GroupedTail(v[..n], rest);
      GroupedOfSplit(rest);
    }
  }

  lemma {:induction false} FirstDash(v: string) returns (n: nat)
    ensures n <= |v| && '-' !in v[..n] && (n < |v| ==> v[n] == '-')
    ensures n == |v| ==> '-' !in v
  {
    if v == "" || v[0] == '-' {
      n := 0;
    } else {
      n := FirstDash(v[1..]);
      n := n + 1;
      assert v[..n] == [v[0]] + v[1..][..n - 1];
    }
  }

  lemma GroupedTail(first: string, rest: string)
    requires WellGrouped([first] + Split(rest))
    ensures |first| == 5 && WellGrouped(Split(rest)) && Join([first] + Split(rest)) == first + Join(Split(rest)) && Join(Split(rest)) != ""
    ensures Grouped(first + Join(Split(rest))) == first + "-" + Grouped(Join(Split(rest)))
  {
    var groups := [first] + Split(rest);
    assert groups[1..] == Split(rest);
    assert |groups[0]| == 5;
    forall g | g in Split(rest) ensures 0 < |g| <= 5 {
      assert g in groups;
    }
    forall i | 0 <= i < |Split(rest)| - 1 ensures |Split(rest)[i]| == 5 {
      assert groups[i + 1] == Split(rest)[i];
    }
    assert Split(rest)[0] in Split(rest);
    var text := first + Join(Split(rest));
    assert text[..5] == first && text[5..] == Join(Split(rest));
  }

  /// The bits of a text that decodes: those of its bytes, and fewer than eight zeros.
  lemma BitsOfDecoded(s: string)
    requires Decoded(s).Some?
    ensures AllDigits(s) && Expand(Digits(s), 5) == Expand(Decoded(s).value, 8) + Zeros((5 * |s|) % 8)
  {
    ExpandLength(Digits(s), 5);
    var bits := Expand(Digits(s), 5);
    var whole, left := SplitRemainder(bits);
    DecodedParts(s, whole, Zeros(left));
    assert Decoded(s) == Some(BytesOf(whole));
    ExpandGroup(whole, 8);
  }

  lemma SameDigitsSameText(s: string, t: string)
    requires AllDigits(s) && AllDigits(t) && Digits(s) == Digits(t)
    ensures s == t
  {
    forall i | 0 <= i < |s| ensures s[i] == t[i] {
      assert Digit(s[i]) == Some(Digits(s)[i]) && Digit(t[i]) == Some(Digits(t)[i]);
    }
  }

  lemma DigitsAreSmall(s: string)
    requires AllDigits(s)
    ensures forall x :: x in Digits(s) ==> x < Pow2(5)
  {
    assert Pow2(5) == 32;
    forall x | x in Digits(s) ensures x < 32 {
      var i :| 0 <= i < |s| && Digits(s)[i] == x;
      assert Digit(s[i]) == Some(x);
    }
  }

  lemma SameBitsSameText(s: string, t: string)
    requires AllDigits(s) && AllDigits(t) && Expand(Digits(s), 5) == Expand(Digits(t), 5)
    ensures s == t
  {
    DigitsAreSmall(s);
    DigitsAreSmall(t);
    GroupExpand(Digits(s), [], 5);
    GroupExpand(Digits(t), [], 5);
    SameDigitsSameText(s, t);
  }

  /// `m` digits hold `n` bytes and less than a byte; `k` digits are the fewest that hold them.
  lemma LeftOver(m: nat, k: nat, n: nat)
    requires 5 * m == 8 * n + (5 * m) % 8 && 5 * k == 8 * n + (5 - 8 * n % 5) % 5
    ensures if (5 * m) % 8 < 5 then m == k && (5 * m) % 8 == (5 - 8 * n % 5) % 5 else m == k + 1
  {
  }

  lemma DecodedLength(s: string)
    requires Decoded(s).Some?
    ensures 5 * |s| == 8 * |Decoded(s).value| + (5 * |s|) % 8
  {
    hide Decoded, Expand;
    BitsOfDecoded(s);
    ExpandLength(Digits(s), 5);
    ExpandLength(Decoded(s).value, 8);
  }

  lemma FewLeftIsEncoded(s: string)
    requires Decoded(s).Some? && (5 * |s|) % 8 == (5 - 8 * |Decoded(s).value| % 5) % 5
    ensures s == Encode(Decoded(s).value)
  {
    hide Decoded, Expand, Encode;
    BitsOfDecoded(s);
    BitsOfEncoded(Decoded(s).value);
    ExpandLength(Decoded(s).value, 8);
    SameBitsSameText(s, Encode(Decoded(s).value));
  }

  /// A text that decodes is its bytes' own encoding exactly when fewer than five bits are left over.
  lemma EncodedExactly(s: string)
    requires Decoded(s).Some?
    ensures s == Encode(Decoded(s).value) <==> (5 * |s|) % 8 < 5
    ensures |Encode(Decoded(s).value)| == |s| || (|Encode(Decoded(s).value)| + 1 == |s| && (5 * |s|) % 8 >= 5)
  {
    hide Decoded, Encode;
    DecodedLength(s);
    DigitCount(Decoded(s).value);
    LeftOver(|s|, |Encode(Decoded(s).value)|, |Decoded(s).value|);
    if (5 * |s|) % 8 < 5 {
      FewLeftIsEncoded(s);
    }
  }

  /// Among the texts accepted for a principal, its printed form is the one with fewer than five bits left over.
  lemma PrintedExactly(v: string, principal: seq<byte>)
    requires IsCanisterIdText(v) && Decoded(Join(Split(v))) == Some(WithChecksum(principal))
    ensures v == PrintedId(principal) <==> (5 * |Join(Split(v))|) % 8 < 5
  {
    hide Decoded, Encode, Grouped, Split, Join, WithChecksum, WellGrouped;
    GroupedOfSplit(v);
    EncodedExactly(Join(Split(v)));
    if v == PrintedId(principal) {
      JoinedPrinted(principal);
    }
  }

  lemma JoinedPrinted(principal: seq<byte>)
    ensures Join(Split(PrintedId(principal))) == Encode(WithChecksum(principal))
  {
    NoBytesInNothing();
    DecodeInvertsEncode(WithChecksum(principal));
    SplitOfGrouped(Encode(WithChecksum(principal)));
  }

  ghost predicate AcceptedFor(v: string, principal: seq<byte>) {
    IsCanisterIdText(v) && Decoded(Join(Split(v))) == Some(WithChecksum(principal))
  }

  /// The printed form with a zero digit more.
  function SecondText(principal: seq<byte>): string {
    Grouped(Encode(WithChecksum(principal)) + "a")
  }

  lemma SecondTextIsAccepted(principal: seq<byte>)
    requires (5 * |Encode(WithChecksum(principal))|) % 8 < 3
    ensures AcceptedFor(SecondText(principal), principal) && SecondText(principal) != PrintedId(principal)
  {
    hide Decoded, Encode, Grouped, Split, Join, WithChecksum;
    var text := Encode(WithChecksum(principal));
    DecodeInvertsEncode(WithChecksum(principal));
    ExtraZeroDigit(text);
    GroupedTextIsAccepted(text + "a", principal);
    SplitOfGrouped(text + "a");
    JoinedPrinted(principal);
  }

  /// A principal has an accepted text other than its printed form exactly when its encoding, checksum
  /// included, leaves fewer than three bits over; the canister ids of ten bytes have none.
  lemma SecondTextExactly(principal: seq<byte>)
    ensures (exists v :: AcceptedFor(v, principal) && v != PrintedId(principal)) <==> (8 * |WithChecksum(principal)|) % 5 !in {1, 2}
    ensures |principal| == 10 ==> forall v :: AcceptedFor(v, principal) ==> v == PrintedId(principal)
  {
    hide AcceptedFor, PrintedId, WithChecksum, Encode, SecondText;
    EncodedLength(WithChecksum(principal));
    ChecksumLength(principal);
    if (8 * |WithChecksum(principal)|) % 5 !in {1, 2} {
      SecondTextIsAccepted(principal);
    }
    forall v | AcceptedFor(v, principal) && v != PrintedId(principal) ensures (8 * |WithChecksum(principal)|) % 5 !in {1, 2} {
      OtherTextIsLonger(v, principal);
    }
  }

  lemma ChecksumLength(principal: seq<byte>)
    ensures |WithChecksum(principal)| == |principal| + 4
  {
  }

  lemma OtherTextIsLonger(v: string, principal: seq<byte>)
    requires AcceptedFor(v, principal) && v != PrintedId(principal)
    ensures (8 * |WithChecksum(principal)|) % 5 !in {1, 2}
  {
    hide Decoded, Encode, Grouped, Split, Join, IsCanisterIdText, WithChecksum;
    var bytes := WithChecksum(principal);
    PrintedExactly(v, principal);
    EncodedExactly(Join(Split(v)));
    EncodedLength(bytes);
    LongerByOne(|Join(Split(v))|, |Encode(bytes)|, |bytes|, (5 - 8 * |bytes| % 5) % 5);
  }

  lemma LongerByOne(m: nat, k: nat, n: nat, pad: nat)
    requires pad == (5 - 8 * n % 5) % 5 && 5 * k == 8 * n + pad && m == k + 1 && (5 * m) % 8 >= 5
    ensures (8 * n) % 5 !in {1, 2}
  {
    LeftBits(k, n, pad);
    if pad >= 3 {
      LeftBits(m, n + 1, pad - 3);
    }
  }

  lemma LeftBits(k: nat, n: nat, pad: nat)
    requires 5 * k == 8 * n + pad && pad < 8
    ensures (5 * k) % 8 == pad
  {
  }

  lemma EncodedLength(bytes: seq<byte>)
    ensures 5 * |Encode(bytes)| == 8 * |bytes| + (5 - 8 * |bytes| % 5) % 5
    ensures (5 * |Encode(bytes)|) % 8 < 3 <==> (8 * |bytes|) % 5 !in {1, 2}
  {
    hide Encode;
    DigitCount(bytes);
    LeftBits(|Encode(bytes)|, |bytes|, (5 - 8 * |bytes| % 5) % 5);
    PaddingOf((8 * |bytes|) % 5);
  }

  lemma DigitCount(bytes: seq<byte>)
    ensures 5 * |Encode(bytes)| == 8 * |bytes| + (5 - 8 * |bytes| % 5) % 5
  {
    hide Encode, Expand;
    BitsOfEncoded(bytes);
    ExpandLength(Digits(Encode(bytes)), 5);
    ExpandLength(bytes, 8);
  }

  lemma PaddingOf(over: nat)
    requires over < 5
    ensures (5 - over) % 5 < 3 <==> over !in {1, 2}
  {
  }
}
