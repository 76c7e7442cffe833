/// Hexadecimal text as the factory prints and reads it
/// (backend/factory/src/evm.rs, backend/factory/src/types.rs).
module Hex {
  import opened Bits
  import opened Options

  function HexValue(c: char): (v: Option<nat>)
    ensures v.Some? ==> v.value < 16
  {
    if '0' <= c <= '9' then Some(c as int - '0' as int)
    else if 'a' <= c <= 'f' then Some(c as int - 'a' as int + 10)
    else if 'A' <= c <= 'F' then Some(c as int - 'A' as int + 10)
    else None
  }

  function HexDigit(v: nat): (c: char)
    requires v < 16
  {
    if v < 10 then ('0' as int + v) as char else ('a' as int + v - 10) as char
  }

  function LowerHex(c: char): char {
    if 'A' <= c <= 'F' then (c as int + 32) as char else c
  }

  function HexText(bytes: seq<byte>): (text: string)
    ensures |text| == 2 * |bytes|
  {
    if bytes == [] then []
    else [HexDigit(bytes[0] / 16), HexDigit(bytes[0] % 16)] + HexText(bytes[1..])
  }

  /// `hex_encode_prefixed`
  method HexEncodePrefixed(bytes: seq<byte>) returns (text: string)
    ensures text == Prefixed(bytes)
  {
    var output: string := [];
    var i := 0;
    while i < |bytes|
      invariant i <= |bytes| && output + HexText(bytes[i..]) == HexText(bytes)
    {
      ghost var was := output;
      var pair := [HexDigit(bytes[i] / 16), HexDigit(bytes[i] % 16)];
      assert bytes[i..][1..] == bytes[i + 1..];
      assert was + (pair + HexText(bytes[i + 1..])) == was + pair + HexText(bytes[i + 1..]);
      output := output + pair;
      i := i + 1;
    }
    text := "0x" + output;
  }

  function Prefixed(bytes: seq<byte>): string {
    "0x" + HexText(bytes)
  }

  function StripHexPrefix(value: string): string {
    if |value| >= 2 && value[..2] == "0x" then value[2..] else value
  }

  predicate IsHex(text: string) {
    forall i :: 0 <= i < |text| ==> HexValue(text[i]).Some?
  }

  function FromHex(text: string): (bytes: seq<byte>)
    requires IsHex(text) && |text| % 2 == 0
    ensures |bytes| == |text| / 2
  {
    if text == [] then []
    else [16 * HexValue(text[0]).value + HexValue(text[1]).value] + FromHex(text[2..])
  }

  /// What `decode_hex` answers: an even number of hex digits after an optional prefix, or nothing.
  function Decoded(value: string): Option<seq<byte>> {
    var text := StripHexPrefix(value);
    if |text| % 2 == 0 && IsHex(text) then Some(FromHex(text)) else None
  }

  lemma {:induction false} FromHexSnoc(text: string, high: char, low: char)
    requires IsHex(text) && |text| % 2 == 0 && HexValue(high).Some? && HexValue(low).Some?
    ensures IsHex(text + [high, low])
    ensures FromHex(text + [high, low]) == FromHex(text) + [16 * HexValue(high).value + HexValue(low).value]
    decreases |text|
  {
    if text == [] {
      assert text + [high, low] == [high, low];
    } else {
      FromHexSnoc(text[2..], high, low);
      assert (text + [high, low])[2..] == text[2..] + [high, low];
    }
  }

  /// `decode_hex`
  method DecodeHex(value: string) returns (bytes: Option<seq<byte>>)
    ensures bytes == Decoded(value)
  {
    var text := StripHexPrefix(value);
    if text == [] {
      return Some([]);
    }
    if |text| % 2 != 0 {
      return None;
    }
    var output: seq<byte> := [];
    var i := 0;
    while i < |text|
      invariant i <= |text| && i % 2 == 0
      invariant IsHex(text[..i]) && output == FromHex(text[..i])
    {
      var high, low := HexValue(text[i]), HexValue(text[i + 1]);
      if high.None? || low.None? {
        return None;
      }
      FromHexSnoc(text[..i], text[i], text[i + 1]);
      assert text[..i + 2] == text[..i] + [text[i], text[i + 1]];
      output := output + [16 * high.value + low.value];
      i := i + 2;
    }
    assert text[..i] == text;
    bytes := Some(output);
  }

  lemma DigitValue(v: nat)
    requires v < 16
    ensures HexValue(HexDigit(v)) == Some(v)
  {
  }

  lemma {:induction false} HexTextReads(bytes: seq<byte>)
    ensures IsHex(HexText(bytes)) && FromHex(HexText(bytes)) == bytes
  {
    if bytes != [] {
      var text := HexText(bytes);
      DigitValue(bytes[0] / 16);
      DigitValue(bytes[0] % 16);
      HexTextReads(bytes[1..]);
      assert text[2..] == HexText(bytes[1..]);
      forall i | 0 <= i < |text| ensures HexValue(text[i]).Some? {
        if i >= 2 {
          assert text[i] == HexText(bytes[1..])[i - 2];
        }
      }
    }
  }

  /// Reading what was printed gives the bytes back.
  lemma ReadingInvertsPrinting(bytes: seq<byte>)
    ensures Decoded(Prefixed(bytes)) == Some(bytes)
  {
    HexTextReads(bytes);
    assert Prefixed(bytes)[..2] == "0x";
    assert Prefixed(bytes)[2..] == HexText(bytes);
  }

  lemma PrefixedIsInjective(a: seq<byte>, b: seq<byte>)
    requires Prefixed(a) == Prefixed(b)
    ensures a == b
  {
    ReadingInvertsPrinting(a);
    ReadingInvertsPrinting(b);
  }

  lemma DigitText(c: char)
    requires HexValue(c).Some?
    ensures HexDigit(HexValue(c).value) == LowerHex(c)
  {
  }

  lemma {:induction false} TextReprints(text: string)
    requires IsHex(text) && |text| % 2 == 0
    ensures HexText(FromHex(text)) == seq(|text|, i requires 0 <= i < |text| => LowerHex(text[i]))
    decreases |text|
  {
    if text != [] {
      DigitText(text[0]);
      DigitText(text[1]);
      TextReprints(text[2..]);
      var b := FromHex(text);
      assert b[1..] == FromHex(text[2..]);
      assert b[0] / 16 == HexValue(text[0]).value && b[0] % 16 == HexValue(text[1]).value;
    }
  }

  /// Text that reads is, but for its prefix and the case of its letters, what would be printed.
  lemma PrintingInvertsReading(value: string)
    requires Decoded(value).Some?
    ensures var text := StripHexPrefix(value);
      Prefixed(Decoded(value).value) == "0x" + seq(|text|, i requires 0 <= i < |text| => LowerHex(text[i]))
  {
    TextReprints(StripHexPrefix(value));
  }
}
