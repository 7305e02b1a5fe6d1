/** The standard Base64 engine of section 4 of RFC 4648: canonical padding, no stray bits. */
module Base64 {
  import opened Wrappers

  type Sextet = x: int | 0 <= x < 64

  function Symbol(v: Sextet): char {
    if v < 26 then ('A' as int + v) as char
    else if v < 52 then ('a' as int + v - 26) as char
    else if v < 62 then ('0' as int + v - 52) as char
    else if v == 62 then '+' else '/'
  }

  function Value(c: char): Option<Sextet> {
    if 'A' <= c <= 'Z' then Some(c as int - 'A' as int)
    else if 'a' <= c <= 'z' then Some(c as int - 'a' as int + 26)
    else if '0' <= c <= '9' then Some(c as int - '0' as int + 52)
    else if c == '+' then Some(62)
    else if c == '/' then Some(63)
    else None
  }

  /** One to three bytes become exactly four characters, padded with `=`. */
  function EncodeGroup(b: seq<Byte>): (s: string)
    requires 1 <= |b| <= 3
    ensures |s| == 4
  {
    var b1 := if |b| > 1 then b[1] else 0;
    var b2 := if |b| > 2 then b[2] else 0;
    [Symbol(b[0] / 4),
     Symbol(b[0] % 4 * 16 + b1 / 16),
     if |b| > 1 then Symbol(b1 % 16 * 4 + b2 / 64) else '=',
     if |b| > 2 then Symbol(b2 % 64) else '=']
  }

  function Encode(b: seq<Byte>): string {
    if |b| == 0 then ""
    else if |b| <= 3 then EncodeGroup(b)
    else EncodeGroup(b[..3]) + Encode(b[3..])
  }

  /** A byte from its high bits and its low bits. */
  function Join(high: int, scale: int, low: int): Byte
    requires (scale == 4 || scale == 16 || scale == 64) && 0 <= low < scale && 0 <= high < 256 / scale
  {
    high * scale + low
  }

  /** Padding is allowed in the last group only, and the bits it drops must be zero. */
  function DecodeGroup(s: string, last: bool): (r: Option<seq<Byte>>)
    requires |s| == 4
    ensures r.Some? ==> 1 <= |r.value| <= 3 && (!last ==> |r.value| == 3)
  {
    match (Value(s[0]), Value(s[1]), Value(s[2]), Value(s[3]))
    case (Some(v0), Some(v1), Some(v2), Some(v3)) =>
      Some([Join(v0, 4, v1 / 16), Join(v1 % 16, 16, v2 / 4), Join(v2 % 4, 64, v3)])
    case (Some(v0), Some(v1), Some(v2), None) =>
      if last && s[3] == '=' && v2 % 4 == 0 then Some([Join(v0, 4, v1 / 16), Join(v1 % 16, 16, v2 / 4)]) else None
    case (Some(v0), Some(v1), None, None) =>
      if last && s[2..] == "==" && v1 % 16 == 0 then Some([Join(v0, 4, v1 / 16)]) else None
    case _ => None
  }

  function Decode(s: string): Option<seq<Byte>> {
    if |s| == 0 then Some([])
    else if |s| < 4 then None
    else
      match DecodeGroup(s[..4], |s| == 4)
      case None => None
      case Some(group) =>
        match Decode(s[4..])
        case None => None
        case Some(rest) => Some(group + rest)
  }

  lemma SymbolValue(v: Sextet)
    ensures Value(Symbol(v)) == Some(v)
  {}

  lemma ValueSymbol(c: char)
    requires Value(c).Some?
    ensures Symbol(Value(c).value) == c
  {}

  const LETTERS := "ABCDEFGHIJKLMNOPQRSTUVWXYZ"
  const LOWER_LETTERS := "abcdefghijklmnopqrstuvwxyz"

  /** Table 1 of RFC 4648. */
  lemma Alphabet(v: Sextet)
    ensures Symbol(v) ==
      if v < 26 then LETTERS[v] else if v < 52 then LOWER_LETTERS[v - 26] else "0123456789+/"[v - 52]
  {}

  function Bits(c: char): int {
    if Value(c).Some? then Value(c).value else 0
  }

  /** The 24 bits of three bytes are those of their four symbols, most significant first. */
  lemma GroupBits(b: seq<Byte>)
    requires |b| == 3
    ensures var s := EncodeGroup(b);
            var b0: int, b1: int, b2: int := b[0], b[1], b[2];
            && (forall i :: 0 <= i < 4 ==> Value(s[i]).Some?)
            && Bits(s[0]) * 0x4_0000 + Bits(s[1]) * 0x1000 + Bits(s[2]) * 0x40 + Bits(s[3])
               == b0 * 0x1_0000 + b1 * 0x100 + b2
  {
    SymbolValue(b[0] / 4);
    SymbolValue(b[0] % 4 * 16 + b[1] / 16);
    SymbolValue(b[1] % 16 * 4 + b[2] / 64);
    SymbolValue(b[2] % 64);
  }

  lemma DivMod(high: int, scale: int, low: int)
    requires (scale == 4 || scale == 16 || scale == 64) && 0 <= low < scale
    ensures (high * scale + low) / scale == high && (high * scale + low) % scale == low
  {}

  lemma GroupRoundTrip(b: seq<Byte>, last: bool)
    requires 1 <= |b| <= 3 && (!last ==> |b| == 3)
    ensures DecodeGroup(EncodeGroup(b), last) == Some(b)
  {
    var s := EncodeGroup(b);
    var b1 := if |b| > 1 then b[1] else 0;
    var b2 := if |b| > 2 then b[2] else 0;
    SymbolValue(b[0] / 4);
    SymbolValue(b[0] % 4 * 16 + b1 / 16);
    SymbolValue(b1 % 16 * 4 + b2 / 64);
    SymbolValue(b2 % 64);
    DivMod(b[0] % 4, 16, b1 / 16);
    DivMod(b1 % 16, 4, b2 / 64);
    if |b| == 1 {
      assert s[2..] == "==";
      assert DecodeGroup(s, last).value == [b[0]] == b;
    } else if |b| == 2 {
      assert DecodeGroup(s, last).value == [b[0], b[1]] == b;
    } else {
      assert DecodeGroup(s, last).value == [b[0], b[1], b[2]] == b;
    }
  }

  lemma JoinSplit(high: int, scale: int, low: int)
    requires (scale == 4 || scale == 16 || scale == 64) && 0 <= low < scale && 0 <= high < 256 / scale
    ensures Join(high, scale, low) / scale == high && Join(high, scale, low) % scale == low
  {
    DivMod(high, scale, low);
  }

  lemma GroupCanonical(s: string, last: bool)
    requires |s| == 4 && DecodeGroup(s, last).Some?
    ensures EncodeGroup(DecodeGroup(s, last).value) == s
  {
    ValueSymbol(s[0]);
    ValueSymbol(s[1]);
    var v1 := Value(s[1]).value;
    if Value(s[2]).None? {
      assert s[2] == s[2..][0] && s[3] == s[2..][1];
      JoinSplit(Value(s[0]).value, 4, v1 / 16);
    } else {
      ValueSymbol(s[2]);
      var v2 := Value(s[2]).value;
      JoinSplit(Value(s[0]).value, 4, v1 / 16);
      JoinSplit(v1 % 16, 16, v2 / 4);
      if Value(s[3]).Some? {
        ValueSymbol(s[3]);
        JoinSplit(v2 % 4, 64, Value(s[3]).value);
      }
    }
  }

  lemma {:induction false} RoundTrip(b: seq<Byte>)
    ensures Decode(Encode(b)) == Some(b)
  {
    if |b| == 0 {
    } else if |b| <= 3 {
      GroupRoundTrip(b, true);
      assert Encode(b)[..4] == Encode(b) && Encode(b)[4..] == "";
      assert b + [] == b;
    } else {
      GroupRoundTrip(b[..3], false);
      RoundTrip(b[3..]);
      var s := Encode(b);
      assert s[..4] == EncodeGroup(b[..3]) && s[4..] == Encode(b[3..]);
      assert |b[3..]| > 0 && |Encode(b[3..])| > 0;
      assert b[..3] + b[3..] == b;
    }
  }

  lemma {:induction false} Canonical(s: string)
    requires Decode(s).Some?
    ensures Encode(Decode(s).value) == s
  {
    if |s| == 0 {
    } else {
      var group := DecodeGroup(s[..4], |s| == 4).value;
      var rest := Decode(s[4..]).value;
      GroupCanonical(s[..4], |s| == 4);
      Canonical(s[4..]);
      assert s == s[..4] + s[4..];
      if |s| == 4 {
        assert group + rest == group;
        assert s[..4] == s;
      } else {
        assert |group| == 3 && |rest| > 0;
        assert (group + rest)[..3] == group && (group + rest)[3..] == rest;
      }
    }
  }

  /** Decoding accepts exactly the encoder's outputs, and undoes them. */
  lemma DecodeIffEncode(s: string, b: seq<Byte>)
    ensures Decode(s) == Some(b) <==> s == Encode(b)
  {
    RoundTrip(b);
    if Decode(s) == Some(b) {
      Canonical(s);
    }
  }

  lemma {:induction false} EncodedLength(b: seq<Byte>)
    ensures |Encode(b)| == (|b| + 2) / 3 * 4
  {
    if |b| > 3 {
      var rest: int := |b| - 3;
      EncodedLength(b[3..]);
      assert (|b| + 2) / 3 == (rest + 2) / 3 + 1;
    }
  }

  ghost predicate IsBase64Char(c: char) {
    Value(c).Some? || c == '='
  }

  lemma {:induction false} EncodedAlphabet(b: seq<Byte>)
    ensures forall c :: c in Encode(b) ==> IsBase64Char(c)
  {
    if |b| > 3 {
      EncodedAlphabet(b[3..]);
      GroupAlphabet(b[..3]);
    } else if |b| > 0 {
      GroupAlphabet(b);
    }
  }

  lemma GroupAlphabet(b: seq<Byte>)
    requires 1 <= |b| <= 3
    ensures forall c :: c in EncodeGroup(b) ==> IsBase64Char(c)
  {
    forall v: Sextet ensures Value(Symbol(v)) == Some(v) { SymbolValue(v); }
  }
}
