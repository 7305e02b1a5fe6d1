/** UTF-8 (RFC 3629): strict decoding, and the lossy decoding that substitutes U+FFFD. */
module Utf8 {
  import opened Wrappers

  const REPLACEMENT: char := '\U{FFFD}'

  function EncodeScalar(c: char): (b: seq<Byte>)
    ensures 1 <= |b| <= 4
  {
    var n := c as int;
    if n < 0x80 then [n]
    else if n < 0x800 then [0xC0 + n / 0x40, 0x80 + n % 0x40]
    else if n < 0x1_0000 then [0xE0 + n / 0x1000, 0x80 + n / 0x40 % 0x40, 0x80 + n % 0x40]
    else [0xF0 + n / 0x4_0000, 0x80 + n / 0x1000 % 0x40, 0x80 + n / 0x40 % 0x40, 0x80 + n % 0x40]
  }

  function Encode(s: string): seq<Byte> {
    if |s| == 0 then [] else EncodeScalar(s[0]) + Encode(s[1..])
  }

  /** The first code point of a byte string, or the length of the ill-formed prefix. */
  datatype Step = Scalar(c: char, width: nat) | IllFormed(width: nat)

  predicate Continuation(b: seq<Byte>, i: nat) {
    i < |b| && 0x80 <= b[i] < 0xC0
  }

  /** The second-byte ranges that exclude overlong forms, surrogates and values past U+10FFFF. */
  predicate SecondByteFits(first: Byte, second: Byte) {
    && (first == 0xE0 ==> 0xA0 <= second)
    && (first == 0xED ==> second < 0xA0)
    && (first == 0xF0 ==> 0x90 <= second)
    && (first == 0xF4 ==> second < 0x90)
  }

  /** The low six bits of a continuation byte. */
  function Low6(b: seq<Byte>, i: nat): (n: int)
    requires Continuation(b, i)
    ensures 0 <= n < 0x40
  {
    b[i] as int - 0x80
  }

  function DecodeStep(b: seq<Byte>): (r: Step)
    requires |b| > 0
    ensures 1 <= r.width <= |b|
  {
    var first: int := b[0];
    if first < 0x80 then Scalar(first as char, 1)
    else if first < 0xC2 || first > 0xF4 then IllFormed(1)
    else if !Continuation(b, 1) || !SecondByteFits(first, b[1]) then IllFormed(1)
    else if first < 0xE0 then
      Scalar(((first - 0xC0) * 0x40 + Low6(b, 1)) as char, 2)
    else if !Continuation(b, 2) then IllFormed(2)
    else if first < 0xF0 then
      Scalar(((first - 0xE0) * 0x1000 + Low6(b, 1) * 0x40 + Low6(b, 2)) as char, 3)
    else if !Continuation(b, 3) then IllFormed(3)
    else
      Scalar(((first - 0xF0) * 0x4_0000 + Low6(b, 1) * 0x1000 + Low6(b, 2) * 0x40 + Low6(b, 3)) as char, 4)
  }

  /** `str::from_utf8`. */
  function Decode(b: seq<Byte>): Option<string> {
    if |b| == 0 then Some("")
    else
      match DecodeStep(b)
      case IllFormed(_) => None
      case Scalar(c, width) =>
        match Decode(b[width..])
        case None => None
        case Some(rest) => Some([c] + rest)
  }

  /** `String::from_utf8_lossy`. */
  function DecodeLossy(b: seq<Byte>): string {
    if |b| == 0 then ""
    else
      var step := DecodeStep(b);
      [if step.Scalar? then step.c else REPLACEMENT] + DecodeLossy(b[step.width..])
  }

  lemma StepOfEncoded(c: char, rest: seq<Byte>)
    ensures DecodeStep(EncodeScalar(c) + rest) == Scalar(c, |EncodeScalar(c)|)
  {
    var n: int := c as int;
    var head := EncodeScalar(c);
    var b := head + rest;
    assert |head| > 0 && b[0] == head[0];
    assert |head| > 1 ==> b[1] == head[1];
    assert |head| > 2 ==> b[2] == head[2];
    assert |head| > 3 ==> b[3] == head[3];
    if 0x80 <= n < 0x800 {
      Digits2(n);
    } else if 0x800 <= n < 0x1_0000 {
      Digits3(n);
    } else if 0x1_0000 <= n {
      Digits4(n);
    }
  }

  lemma Digits2(n: int)
    requires 0x80 <= n < 0x800
    ensures 2 <= n / 0x40 < 0x20 && n == n / 0x40 * 0x40 + n % 0x40
  {}

  lemma Digits3(n: int)
    requires 0x800 <= n < 0x1_0000 && !(0xD800 <= n < 0xE000)
    ensures 0 <= n / 0x1000 < 0x10
    ensures n == n / 0x1000 * 0x1000 + n / 0x40 % 0x40 * 0x40 + n % 0x40
    ensures n / 0x1000 == 0 ==> 0x20 <= n / 0x40 % 0x40
    ensures n / 0x1000 == 0xD ==> n / 0x40 % 0x40 < 0x20
  {
    var q := n / 0x40;
    assert n / 0x1000 == q / 0x40;
    assert q == q / 0x40 * 0x40 + q % 0x40;
  }

  lemma Digits4(n: int)
    requires 0x1_0000 <= n < 0x11_0000
    ensures 0 <= n / 0x4_0000 < 5
    ensures n == n / 0x4_0000 * 0x4_0000 + n / 0x1000 % 0x40 * 0x1000 + n / 0x40 % 0x40 * 0x40 + n % 0x40
    ensures n / 0x4_0000 == 0 ==> 0x10 <= n / 0x1000 % 0x40
    ensures n / 0x4_0000 == 4 ==> n / 0x1000 % 0x40 < 0x10
  {
    var q, r := n / 0x40, n / 0x1000;
    assert r == q / 0x40 && n / 0x4_0000 == r / 0x40;
    assert q == q / 0x40 * 0x40 + q % 0x40;
    assert r == r / 0x40 * 0x40 + r % 0x40;
  }

  lemma StepIsEncoded(b: seq<Byte>)
    requires |b| > 0 && DecodeStep(b).Scalar?
    ensures b[..DecodeStep(b).width] == EncodeScalar(DecodeStep(b).c)
  {
    var step := DecodeStep(b);
    var first: int := b[0];
    if step.width == 2 {
      Horner2(first - 0xC0, Low6(b, 1));
    } else if step.width == 3 {
      Horner3(first - 0xE0, Low6(b, 1), Low6(b, 2));
    } else if step.width == 4 {
      Horner4(first - 0xF0, Low6(b, 1), Low6(b, 2), Low6(b, 3));
    }
  }

  lemma Horner2(h: int, x: int)
    requires 0 <= h < 0x20 && 0 <= x < 0x40
    ensures (h * 0x40 + x) / 0x40 == h && (h * 0x40 + x) % 0x40 == x
  {}

  lemma Horner3(h: int, x: int, y: int)
    requires 0 <= h < 0x10 && 0 <= x < 0x40 && 0 <= y < 0x40
    ensures var n := h * 0x1000 + x * 0x40 + y; n / 0x1000 == h && n / 0x40 % 0x40 == x && n % 0x40 == y
  {
    var n := h * 0x1000 + x * 0x40 + y;
    assert n / 0x40 == h * 0x40 + x;
    assert n / 0x1000 == n / 0x40 / 0x40;
  }

  lemma Horner4(h: int, x: int, y: int, z: int)
    requires 0 <= h < 8 && 0 <= x < 0x40 && 0 <= y < 0x40 && 0 <= z < 0x40
    ensures var n := h * 0x4_0000 + x * 0x1000 + y * 0x40 + z;
            n / 0x4_0000 == h && n / 0x1000 % 0x40 == x && n / 0x40 % 0x40 == y && n % 0x40 == z
  {
    var n := h * 0x4_0000 + x * 0x1000 + y * 0x40 + z;
    var q := h * 0x1000 + x * 0x40 + y;
    assert n / 0x40 == q;
    assert q / 0x40 == h * 0x40 + x;
    assert n / 0x1000 == q / 0x40 && n / 0x4_0000 == q / 0x40 / 0x40;
  }

  /** Section 3 of RFC 3629: the lead byte says how many bytes follow, each of them holds six bits,
      and together they hold the scalar. */
  lemma ScalarLayout(c: char)
    ensures var (n, b) := (c as int, EncodeScalar(c));
            var lead: int := b[0];
            if n < 0x80 then b == [n]
            else if n < 0x800 then
              && |b| == 2 && 0xC0 <= lead < 0xE0 && Continuation(b, 1)
              && n == (lead - 0xC0) * 0x40 + Low6(b, 1)
            else if n < 0x1_0000 then
              && |b| == 3 && 0xE0 <= lead < 0xF0 && Continuation(b, 1) && Continuation(b, 2)
              && n == (lead - 0xE0) * 0x1000 + Low6(b, 1) * 0x40 + Low6(b, 2)
            else
              && |b| == 4 && 0xF0 <= lead < 0xF8 && Continuation(b, 1) && Continuation(b, 2) && Continuation(b, 3)
              && n == (lead - 0xF0) * 0x4_0000 + Low6(b, 1) * 0x1000 + Low6(b, 2) * 0x40 + Low6(b, 3)
  {
    var n := c as int;
    if 0x80 <= n < 0x800 {
      Digits2(n);
    } else if 0x800 <= n < 0x1_0000 {
      Digits3(n);
    } else if 0x1_0000 <= n {
      Digits4(n);
    }
  }

  lemma {:induction false} RoundTrip(s: string)
    ensures Decode(Encode(s)) == Some(s)
    ensures DecodeLossy(Encode(s)) == s
  {
    hide EncodeScalar, DecodeStep;
    if |s| > 0 {
      var head := EncodeScalar(s[0]);
      StepOfEncoded(s[0], Encode(s[1..]));
      RoundTrip(s[1..]);
      assert Encode(s)[|head|..] == Encode(s[1..]);
      assert [s[0]] + s[1..] == s;
    }
  }

  lemma {:induction false} Canonical(b: seq<Byte>)
    requires Decode(b).Some?
    ensures Encode(Decode(b).value) == b
  {
    hide EncodeScalar, SecondByteFits;
    if |b| > 0 {
      var step := DecodeStep(b);
      StepIsEncoded(b);
      Canonical(b[step.width..]);
      var s := Decode(b).value;
      assert s[1..] == Decode(b[step.width..]).value;
      assert b == b[..step.width] + b[step.width..];
    }
  }

  // Ill-formed input.

  /** Does some scalar's encoding begin like this? */
  ghost predicate Begins(b: seq<Byte>) {
    exists c :: b <= EncodeScalar(c)
  }

  lemma Completed(b: seq<Byte>, rest: seq<Byte>)
    requires |b| > 0 && DecodeStep(b + rest).Scalar? && DecodeStep(b + rest).width == |b + rest|
    ensures Begins(b)
  {
    hide EncodeScalar, DecodeStep;
    StepIsEncoded(b + rest);
    assert (b + rest)[..|b + rest|] == b + rest;
    assert b <= EncodeScalar(DecodeStep(b + rest).c);
  }

  lemma Truncated3(b: seq<Byte>)
    requires |b| == 2 && 0xE0 <= b[0] < 0xF0 && Continuation(b, 1) && SecondByteFits(b[0], b[1])
    ensures Begins(b)
  {
    var all: seq<Byte> := b + [0x80];
    assert all[0] == b[0] && all[1] == b[1] && Continuation(all, 2);
    hide SecondByteFits, EncodeScalar;
    Completed(b, [0x80]);
  }

  lemma Truncated4(b: seq<Byte>)
    requires 2 <= |b| <= 3 && 0xF0 <= b[0] <= 0xF4 && Continuation(b, 1) && SecondByteFits(b[0], b[1])
    requires |b| == 3 ==> Continuation(b, 2)
    ensures Begins(b)
  {
    var rest: seq<Byte> := if |b| == 3 then [0x80] else [0x80, 0x80];
    var all := b + rest;
    assert all[0] == b[0] && all[1] == b[1] && Continuation(all, 2) && Continuation(all, 3);
    assert |b| == 3 ==> all[2] == b[2];
    hide SecondByteFits, EncodeScalar;
    Completed(b, rest);
  }

  /** What the lossy decoder replaces by one U+FFFD: the longest prefix with which an encoding could
      begin, or one byte if there is none; never a whole encoding, nor more than it must. */
  lemma IllFormedIsMaximal(b: seq<Byte>)
    requires |b| > 0 && DecodeStep(b).IllFormed?
    ensures var w := DecodeStep(b).width;
            && (w > 1 ==> Begins(b[..w]))
            && (w < |b| ==> !Begins(b[..w + 1]))
            && (forall c :: !(EncodeScalar(c) <= b))
  {
    var w := DecodeStep(b).width;
    if w > 1 {
      if b[0] < 0xF0 {
        Truncated3(b[..2]);
      } else {
        Truncated4(b[..w]);
      }
    }
    if w < |b| {
      forall c ensures !(b[..w + 1] <= EncodeScalar(c)) {
        NoLonger(b, c);
      }
    }
    forall c ensures !(EncodeScalar(c) <= b) {
      if EncodeScalar(c) <= b {
        StepOfEncoded(c, b[|EncodeScalar(c)|..]);
      }
    }
  }

  lemma PrefixAt(p: seq<Byte>, e: seq<Byte>)
    ensures p <= e ==> |p| <= |e| && forall i :: 0 <= i < |p| ==> e[i] == p[i]
  {}

  lemma NoLonger(b: seq<Byte>, c: char)
    requires |b| > 0 && DecodeStep(b).IllFormed? && DecodeStep(b).width < |b|
    ensures !(b[..DecodeStep(b).width + 1] <= EncodeScalar(c))
  {
    var e := EncodeScalar(c);
    StepOfEncoded(c, []);
    assert e + [] == e;
    PrefixAt(b[..DecodeStep(b).width + 1], e);
    hide EncodeScalar;
  }

  /** The lossy decoder, unit by unit: text is read as it is, and what is replaced becomes one U+FFFD. */
  lemma {:induction false} LossyStep(s: string, bad: seq<Byte>, rest: seq<Byte>)
    requires |bad| > 0 && DecodeStep(bad + rest) == IllFormed(|bad|)
    ensures DecodeLossy(Encode(s) + (bad + rest)) == s + ['\U{FFFD}'] + DecodeLossy(rest)
  {
    hide EncodeScalar, DecodeStep;
    if |s| == 0 {
      assert Encode(s) + (bad + rest) == bad + rest && (bad + rest)[|bad|..] == rest;
    } else {
      var head, tail := EncodeScalar(s[0]), Encode(s[1..]) + (bad + rest);
      LossyStep(s[1..], bad, rest);
      StepOfEncoded(s[0], tail);
      assert Encode(s) + (bad + rest) == head + tail;
      assert (head + tail)[|head|..] == tail;
      assert s == [s[0]] + s[1..];
    }
  }

  /** Strict decoding accepts exactly the encodings of strings, and undoes them. */
  lemma DecodeIffEncode(b: seq<Byte>, s: string)
    ensures Decode(b) == Some(s) <==> b == Encode(s)
  {
    RoundTrip(s);
    if Decode(b) == Some(s) {
      Canonical(b);
    }
  }

  lemma EncodeInjective(s: string, t: string)
    requires Encode(s) == Encode(t)
    ensures s == t
  {
    RoundTrip(s);
    RoundTrip(t);
  }

  lemma Regroup(a: seq<Byte>, b: seq<Byte>, c: seq<Byte>)
    ensures a + (b + c) == a + b + c
  {}

  lemma {:induction false} EncodeConcat(s: string, t: string)
    ensures Encode(s + t) == Encode(s) + Encode(t)
  {
    hide EncodeScalar;
    if |s| == 0 {
      assert s + t == t;
    } else {
      EncodeConcat(s[1..], t);
      assert (s + t)[0] == s[0] && (s + t)[1..] == s[1..] + t;
      Regroup(EncodeScalar(s[0]), Encode(s[1..]), Encode(t));
    }
  }
}
