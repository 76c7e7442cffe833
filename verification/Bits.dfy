/// Numbers as lists of bits, lowest bit first, and 32-bit words.
module Bits {
  type byte = x: int | 0 <= x < 256
  type Word = w: seq<bool> | |w| == 32 witness seq(32, i => false)

  function Pow2(n: nat): (p: nat)
    ensures p > 0
  {
    if n == 0 then 1 else 2 * Pow2(n - 1)
  }

  function OfNat(x: nat, n: nat): (bits: seq<bool>)
    ensures |bits| == n
  {
    seq(n, i requires 0 <= i < n => (x / Pow2(i)) % 2 == 1)
  }

  lemma OfNatHead(x: nat, n: nat)
    requires n > 0
    ensures OfNat(x, n) == [x % 2 == 1] + OfNat(x / 2, n - 1)
  {
    forall i | 0 < i < n
      ensures x / Pow2(i) == (x / 2) / Pow2(i - 1)
    {
      DivDiv(x, Pow2(i - 1));
    }
  }

  lemma DivDiv(x: nat, m: nat)
    requires m > 0
    ensures x / (2 * m) == (x / 2) / m
  {
    var h := x / 2;
    var q, r := h / m, h % m;
    assert x == 2 * (q * m + r) + x % 2;
    assert x == q * (2 * m) + (2 * r + x % 2);
    assert 2 * r + x % 2 < 2 * m;
    Quotient(x, 2 * m, q, 2 * r + x % 2);
  }

  lemma Quotient(x: nat, d: nat, q: int, r: nat)
    requires d > 0 && x == q * d + r && r < d
    ensures x / d == q && x % d == r
  {
    SmallMultiple(q - x / d, d);
  }

  lemma Multiples(k: int, d: int)
    requires d > 0
    ensures k >= 1 ==> k * d >= d
    ensures k <= -1 ==> k * d <= -d
  {
    if k >= 1 {
      assert k * d == (k - 1) * d + d;
    } else if k <= -1 {
      assert k * d == (k + 1) * d - d;
    }
  }

  lemma SmallMultiple(k: int, d: int)
    requires d > 0 && -d < k * d < d
    ensures k == 0
  {
    Multiples(k, d);
  }

  function Value(bits: seq<bool>): (v: nat)
    ensures v < Pow2(|bits|)
    decreases |bits|
  {
    if bits == [] then 0
    else
      assert Pow2(|bits|) == 2 * Pow2(|bits[1..]|);
      (if bits[0] then 1 else 0) + 2 * Value(bits[1..])
  }

  lemma {:induction false} ValueOf(x: nat, n: nat)
    requires x < Pow2(n)
    ensures Value(OfNat(x, n)) == x
    decreases n
  {
    if n > 0 {
      OfNatHead(x, n);
      ValueOf(x / 2, n - 1);
      assert OfNat(x, n)[1..] == OfNat(x / 2, n - 1);
    }
  }

  function Zeros(n: nat): (z: seq<bool>)
    ensures |z| == n && forall i :: 0 <= i < n ==> !z[i]
  {
    seq(n, i => false)
  }

  function Xor(a: seq<bool>, b: seq<bool>): (c: seq<bool>)
    requires |a| == |b|
    ensures |c| == |a| && forall i :: 0 <= i < |a| ==> c[i] == (a[i] != b[i])
  {
    seq(|a|, i requires 0 <= i < |a| => a[i] != b[i])
  }

  /// Reading a value back at a wider width appends zeros.
  lemma {:induction false} OfValue(bits: seq<bool>, n: nat)
    requires |bits| <= n
    ensures OfNat(Value(bits), n) == bits + Zeros(n - |bits|)
    decreases n
  {
    if n > 0 {
      if bits == [] {
        assert forall i :: 0 <= i < n ==> 0 / Pow2(i) == 0;
      } else {
        OfNatHead(Value(bits), n);
        OfValue(bits[1..], n - 1);
        assert bits == [bits[0]] + bits[1..];
      }
    }
  }

  /// Logical right shift of a word.
  function ShiftRight(w: Word, n: nat): Word
    requires n <= 32
  {
    w[n..] + Zeros(n)
  }

  /// A short bit list in the low end of a word.
  function Pad(bits: seq<bool>): Word
    requires |bits| <= 32
  {
    bits + Zeros(32 - |bits|)
  }
}
