/// Table-driven CRC-32 (apps/indexer/src/config.ts), against the bit-serial definition.
///
/// The register is a 32-bit word, lowest bit first: `value & 1` is bit 0, `value >>> n` drops n bits.
/// The lemmas hold for division by any polynomial of degree 32.
module Crc32 {
  import opened Bits

  // ---------------------------------------------------------------- bit-serial reference

  /// One step of the reflected division: shift out the low bit and subtract the divisor if it was set.
  function ShiftStep(poly: Word, x: Word): Word {
    if x[0] then Xor(ShiftRight(x, 1), poly) else ShiftRight(x, 1)
  }

  /// Message bits enter one at a time at the low end of the register.
  function FeedBits(poly: Word, crc: Word, message: seq<bool>): Word
    decreases |message|
  {
    if message == [] then crc
    else FeedBits(poly, ShiftStep(poly, [crc[0] != message[0]] + crc[1..]), message[1..])
  }

  /// Bytes enter in order, each with its lowest bit first.
  function Division(poly: Word, crc: Word, bytes: seq<byte>): Word
    decreases |bytes|
  {
    if bytes == [] then crc else Division(poly, FeedBits(poly, crc, OfNat(bytes[0], 8)), bytes[1..])
  }

  function AllOnes(): Word {
    seq(32, i => true)
  }

  /// CRC as section 8 of RFC 1952 defines it: register preset to ones, final complement.
  function Crc(poly: Word, bytes: seq<byte>): Word {
    Xor(Division(poly, AllOnes(), bytes), AllOnes())
  }

  // ---------------------------------------------------------------- the division is linear

  function Steps(poly: Word, x: Word, n: nat): Word
    decreases n
  {
    if n == 0 then x else Steps(poly, ShiftStep(poly, x), n - 1)
  }

  lemma ShiftStepIsLinear(poly: Word, x: Word, y: Word)
    ensures ShiftStep(poly, Xor(x, y)) == Xor(ShiftStep(poly, x), ShiftStep(poly, y))
  {
  }

  lemma {:induction false} StepsAreLinear(poly: Word, x: Word, y: Word, n: nat)
    ensures Steps(poly, Xor(x, y), n) == Xor(Steps(poly, x, n), Steps(poly, y, n))
    decreases n
  {
    if n > 0 {
      ShiftStepIsLinear(poly, x, y);
      StepsAreLinear(poly, ShiftStep(poly, x), ShiftStep(poly, y), n - 1);
    }
  }

  lemma {:induction false} ZerosOnlyShift(poly: Word, x: Word, n: nat)
    requires n <= 32 && x[..n] == Zeros(n)
    ensures Steps(poly, x, n) == ShiftRight(x, n)
    decreases n
  {
    if n > 0 {
      assert x[0] == x[..n][0];
      var y := ShiftRight(x, 1);
      assert y[..n - 1] == x[..n][1..];
      ZerosOnlyShift(poly, y, n - 1);
      assert ShiftRight(y, n - 1) == ShiftRight(x, n);
    } else {
      assert ShiftRight(x, 0) == x;
    }
  }

  /// Feeding bits one by one is shifting the sum of register and message.
  lemma {:induction false} FeedingIsShifting(poly: Word, crc: Word, message: seq<bool>)
    requires |message| <= 32
    ensures FeedBits(poly, crc, message) == Steps(poly, Xor(crc, Pad(message)), |message|)
    decreases |message|
  {
    if message == [] {
      assert Xor(crc, Pad(message)) == crc;
    } else {
      var first: Word := [crc[0] != message[0]] + crc[1..];
      var others: Word := [false] + Pad(message)[1..];
      assert Xor(crc, Pad(message)) == Xor(first, others);
      ShiftStepIsLinear(poly, first, others);
      assert ShiftStep(poly, others) == Pad(message[1..]);
      FeedingIsShifting(poly, ShiftStep(poly, first), message[1..]);
    }
  }

  /// n shift steps are one look-up on the low n bits, combined with a plain shift.
  lemma StepsByTable(poly: Word, x: Word, n: nat)
    requires n <= 32
    ensures Steps(poly, x, n) == Xor(Steps(poly, Pad(x[..n]), n), ShiftRight(x, n))
  {
    var low := Pad(x[..n]);
    var high: Word := Zeros(n) + x[n..];
    assert x == Xor(low, high);
    StepsAreLinear(poly, low, high, n);
    assert high[..n] == Zeros(n);
    ZerosOnlyShift(poly, high, n);
    assert ShiftRight(high, n) == ShiftRight(x, n);
  }

  // ---------------------------------------------------------------- the program

  function Polynomial(): Word {
    OfNat(0xedb88320, 32)
  }

  ghost predicate HasEntries(poly: Word, table: seq<Word>, bits: nat) {
    forall i :: 0 <= i < |table| ==> table[i] == Steps(poly, OfNat(i, 32), bits)
  }

  ghost predicate IsTable(poly: Word, table: seq<Word>) {
    |table| == 256 && HasEntries(poly, table, 8)
  }

  /// The inner loop of `buildCrc32Table`.
  method TableEntry(poly: Word, index: nat, bits: nat) returns (value: Word)
    ensures value == Steps(poly, OfNat(index, 32), bits)
  {
    value := OfNat(index, 32);
    for bit := 0 to bits
      invariant Steps(poly, value, bits - bit) == Steps(poly, OfNat(index, 32), bits)
    {
      value := if !value[0] then ShiftRight(value, 1) else Xor(ShiftRight(value, 1), poly);
    }
  }

  lemma AddEntry(poly: Word, table: seq<Word>, entry: Word, bits: nat)
    requires HasEntries(poly, table, bits) && entry == Steps(poly, OfNat(|table|, 32), bits)
    ensures HasEntries(poly, table + [entry], bits)
  {
  }

  /// `buildCrc32Table`
  method BuildCrc32Table(poly: Word) returns (table: array<Word>)
    ensures fresh(table) && IsTable(poly, table[..])
  {
    table := new Word[256];
    for index := 0 to 256
      invariant HasEntries(poly, table[..index], 8)
    {
      var value := TableEntry(poly, index, 8);
      AddEntry(poly, table[..index], value, 8);
      table[index] := value;
      assert table[..index + 1] == table[..index] + [value];
    }
  }

  lemma ByteWidth()
    ensures Pow2(8) == 256
  {
  }

  lemma ByteIndex(bits: seq<bool>)
    requires |bits| == 8
    ensures Value(bits) < 256 && OfNat(Value(bits), 32) == Pad(bits)
  {
    ByteWidth();
    OfValue(bits, 32);
  }

  lemma LookUp(poly: Word, crc: Word, message: seq<bool>)
    requires |message| <= 32
    ensures var n := |message|;
      Xor(Steps(poly, Pad(Xor(crc, Pad(message))[..n]), n), ShiftRight(crc, n)) == FeedBits(poly, crc, message)
  {
    var x: Word := Xor(crc, Pad(message));
    FeedingIsShifting(poly, crc, message);
    StepsByTable(poly, x, |message|);
    assert ShiftRight(x, |message|) == ShiftRight(crc, |message|);
  }

  /// One look-up absorbs one byte.
  lemma TableStep(poly: Word, table: seq<Word>, crc: Word, b: byte)
    requires IsTable(poly, table)
    ensures var i := Value(Xor(crc, OfNat(b, 32))[..8]);
      i < 256 && Xor(table[i], ShiftRight(crc, 8)) == FeedBits(poly, crc, OfNat(b, 8))
  {
    var message := OfNat(b, 8);
    ByteWidth();
    ValueOf(b, 8);
    ByteIndex(message);
    var low := Xor(crc, OfNat(b, 32))[..8];
    ByteIndex(low);
    LookUp(poly, crc, message);
    assert table[Value(low)] == Steps(poly, Pad(low), |message|);
  }

  /// `computeCrc32`: one table look-up per byte computes the bit-serial CRC.
  method ComputeCrc32(poly: Word, table: array<Word>, bytes: seq<byte>) returns (r: Word)
    requires IsTable(poly, table[..])
    ensures r == Crc(poly, bytes)
  {
    var crc: Word := AllOnes();
    for n := 0 to |bytes|
      invariant Division(poly, crc, bytes[n..]) == Division(poly, AllOnes(), bytes)
    {
      TableStep(poly, table[..], crc, bytes[n]);
      assert bytes[n..][1..] == bytes[n + 1..];
      crc := Xor(table[Value(Xor(crc, OfNat(bytes[n], 32))[..8])], ShiftRight(crc, 8));
    }
    r := Xor(crc, AllOnes());
  }
}
