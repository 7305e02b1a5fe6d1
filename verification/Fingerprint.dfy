/** Colon-separated upper-case hexadecimal, written three times in the source. */
module Fingerprint {
  import opened Wrappers

  function HexDigit(n: int): char
    requires 0 <= n < 16
  {
    "0123456789ABCDEF"[n]
  }

  /** Rust's `{b:02X}`. */
  function HexByte(b: Byte): (s: string)
    ensures |s| == 2
  {
    [HexDigit(b / 16), HexDigit(b % 16)]
  }

  function FingerprintHex(bytes: seq<Byte>): string {
    if |bytes| == 0 then ""
    else if |bytes| == 1 then HexByte(bytes[0])
    else HexByte(bytes[0]) + ":" + FingerprintHex(bytes[1..])
  }

  lemma {:induction false} FingerprintLength(bytes: seq<Byte>)
    ensures |FingerprintHex(bytes)| == if |bytes| == 0 then 0 else 3 * |bytes| - 1
  {
    if |bytes| > 1 {
      FingerprintLength(bytes[1..]);
    }
  }

  /** The value of an upper-case hexadecimal digit. */
  function DigitValue(c: char): Option<int> {
    if '0' <= c <= '9' then Some(c as int - '0' as int)
    else if 'A' <= c <= 'F' then Some(c as int - 'A' as int + 10)
    else None
  }

  lemma DigitReads(n: int)
    requires 0 <= n < 16
    ensures DigitValue(HexDigit(n)) == Some(n)
  {}

  lemma HexByteReads(b: Byte)
    ensures var (high, low) := (DigitValue(HexByte(b)[0]), DigitValue(HexByte(b)[1]));
            high.Some? && low.Some? && high.value * 16 + low.value == b
  {
    DigitReads(b / 16);
    DigitReads(b % 16);
    hide HexDigit, DigitValue;
  }

  lemma HexByteInjective(a: Byte, b: Byte)
    requires HexByte(a) == HexByte(b)
    ensures a == b
  {
    HexByteReads(a);
    HexByteReads(b);
    hide HexByte, DigitValue;
  }

  lemma {:induction false} FingerprintAt(bytes: seq<Byte>, i: nat)
    requires i < |bytes|
    ensures var s := FingerprintHex(bytes);
            && |s| == 3 * |bytes| - 1
            && s[3 * i] == HexByte(bytes[i])[0] && s[3 * i + 1] == HexByte(bytes[i])[1]
            && (i + 1 < |bytes| ==> s[3 * i + 2] == ':')
  {
    FingerprintLength(bytes);
    hide HexByte;
    if i > 0 {
      var k := i - 1;
      FingerprintAt(bytes[1..], k);
      assert bytes[1..][k] == bytes[i];
      assert FingerprintHex(bytes) == HexByte(bytes[0]) + ":" + FingerprintHex(bytes[1..]);
      hide FingerprintHex;
      ShiftedBy3(HexByte(bytes[0]) + ":", FingerprintHex(bytes[1..]), k);
    }
  }

  lemma ShiftedBy3(head: string, tail: string, k: nat)
    requires |head| == 3 && 3 * k + 1 < |tail|
    ensures (head + tail)[3 * (k + 1)] == tail[3 * k] && (head + tail)[3 * (k + 1) + 1] == tail[3 * k + 1]
    ensures 3 * k + 2 < |tail| ==> (head + tail)[3 * (k + 1) + 2] == tail[3 * k + 2]
  {}

  /** Byte after byte: two upper-case digits that read as it, and a colon between it and the next. */
  lemma FingerprintReads(bytes: seq<Byte>, i: nat)
    requires i < |bytes|
    ensures var s := FingerprintHex(bytes);
            && |s| == 3 * |bytes| - 1
            && (var (high, low) := (DigitValue(s[3 * i]), DigitValue(s[3 * i + 1]));
                high.Some? && low.Some? && high.value * 16 + low.value == bytes[i])
            && (i + 1 < |bytes| ==> s[3 * i + 2] == ':')
  {
    FingerprintAt(bytes, i);
    HexByteReads(bytes[i]);
    hide FingerprintHex, HexByte, DigitValue;
  }

  /** Equal fingerprints mean equal digests. */
  lemma {:induction false} FingerprintInjective(a: seq<Byte>, b: seq<Byte>)
    requires FingerprintHex(a) == FingerprintHex(b)
    ensures a == b
  {
    FingerprintLength(a);
    FingerprintLength(b);
    assert |a| == |b|;
    if |a| == 1 {
      HexByteInjective(a[0], b[0]);
    } else if |a| > 1 {
      var s, t := FingerprintHex(a), FingerprintHex(b);
      assert s[..2] == HexByte(a[0]) && t[..2] == HexByte(b[0]);
      assert s[3..] == FingerprintHex(a[1..]) && t[3..] == FingerprintHex(b[1..]);
      HexByteInjective(a[0], b[0]);
      FingerprintInjective(a[1..], b[1..]);
    }
  }
}
