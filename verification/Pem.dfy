/** PEM text for one certificate: the settings dialog prints it, the hub reads it back. */
module Pem {
  import opened Wrappers
  import opened Text
  import opened Fingerprint
  import Base64
  import Utf8

  const BEGIN_LINE := "-----BEGIN CERTIFICATE-----\n"
  const END_LINE := "-----END CERTIFICATE-----\n"
  const BEGIN_MARK := "-----BEGIN "
  const END_MARK := "-----END "
  const COLUMNS := 64

  datatype Error = NotUtf8 | NoBeginMarker | IncompleteBeginLine | NoEndMarker | BadBase64

  /** The body broken into lines of at most 64 characters, each ended by a newline. */
  function Wrapped(s: string): string {
    if |s| == 0 then ""
    else if |s| <= COLUMNS then s + "\n"
    else s[..COLUMNS] + "\n" + Wrapped(s[COLUMNS..])
  }

  function PemText(der: seq<Byte>): string {
    BEGIN_LINE + Wrapped(Base64.Encode(der)) + END_LINE
  }

  lemma WrappedStep(s: string, i: nat, end: nat)
    requires i < |s| && end == if i + COLUMNS < |s| then i + COLUMNS else |s|
    ensures Wrapped(s[i..]) == s[i..end] + "\n" + Wrapped(s[end..])
  {
    assert s[i..][..end - i] == s[i..end] && s[i..][end - i..] == s[end..];
  }

  method DerToPem(der: seq<Byte>) returns (out: string)
    ensures out == PemText(der)
  {
    var b64 := Base64.Encode(der);
    out := BEGIN_LINE;
    var i := 0;
    while i < |b64|
      invariant 0 <= i <= |b64|
      invariant out + Wrapped(b64[i..]) == BEGIN_LINE + Wrapped(b64)
    {
      var end := if i + COLUMNS < |b64| then i + COLUMNS else |b64|;
      WrappedStep(b64, i, end);
      Assoc(out, b64[i..end] + "\n", Wrapped(b64[end..]));
      Assoc(out, b64[i..end], "\n");
      out := out + b64[i..end] + "\n";
      i := end;
    }
    out := out + END_LINE;
  }

  /** The decoder, once the bytes are known to be text. */
  function FirstBlock(s: string): Result<seq<Byte>, Error> {
    match Find(s, BEGIN_MARK)
    case None => Err(NoBeginMarker)
    case Some(begin) =>
      match Find(s[begin..], "\n")
      case None => Err(IncompleteBeginLine)
      case Some(i) =>
        var afterBegin := s[begin + i + 1..];
        match Find(afterBegin, END_MARK)
        case None => Err(NoEndMarker)
        case Some(end) =>
          match Base64.Decode(DropWhitespace(afterBegin[..end]))
          case None => Err(BadBase64)
          case Some(der) => Ok(der)
  }

  function FirstPemBlockToDer(pem: seq<Byte>): Result<seq<Byte>, Error> {
    match Utf8.Decode(pem)
    case None => Err(NotUtf8)
    case Some(s) => FirstBlock(s)
  }

  /** The fingerprint computed from a certificate's bytes, for a digest function `sha`. */
  function FingerprintOfDer(sha: seq<Byte> -> seq<Byte>, der: seq<Byte>): string {
    FingerprintHex(sha(der))
  }

  function FingerprintOfPem(sha: seq<Byte> -> seq<Byte>, pem: seq<Byte>): Result<string, Error> {
    match FirstPemBlockToDer(pem)
    case Err(e) => Err(e)
    case Ok(der) => Ok(FingerprintOfDer(sha, der))
  }

  lemma {:induction false} WrappedAlphabet(s: string)
    requires forall c :: c in s ==> c != '-'
    ensures forall c :: c in Wrapped(s) ==> c != '-'
  {
    if |s| > COLUMNS {
      assert forall c :: c in s[COLUMNS..] || c in s[..COLUMNS] ==> c in s;
      WrappedAlphabet(s[COLUMNS..]);
    }
  }

  lemma {:induction false} UnwrapWrapped(s: string)
    requires forall c :: c in s ==> !IsWhitespace(c)
    ensures DropWhitespace(Wrapped(s)) == s
  {
    assert DropWhitespace("\n") == "";
    if |s| == 0 {
    } else if |s| <= COLUMNS {
      DropNothing(s);
      DropWhitespaceConcat(s, "\n");
    } else {
      var line, rest := s[..COLUMNS], s[COLUMNS..];
      assert forall c :: c in line || c in rest ==> c in s;
      DropNothing(line);
      UnwrapWrapped(rest);
      DropWhitespaceConcat(line, "\n");
      DropWhitespaceConcat(line + "\n", Wrapped(rest));
      assert s == line + rest;
    }
  }

  /** The layout of the body: after every 64 characters, and at its end, one newline. */
  lemma {:induction false} WrappedLayout(s: string, i: nat)
    requires i < |Wrapped(s)| && '\n' !in s
    ensures |Wrapped(s)| == |s| + (|s| + 63) / 64
    ensures Wrapped(s)[i] == '\n' <==> i % 65 == 64 || i == |Wrapped(s)| - 1
    ensures Wrapped(s)[i] != '\n' ==> i - i / 65 < |s| && Wrapped(s)[i] == s[i - i / 65]
  {
    if |s| > COLUMNS {
      var rest := s[COLUMNS..];
      WrappedLength(rest);
      assert '\n' !in rest && '\n' !in s[..COLUMNS];
      assert Wrapped(s) == s[..COLUMNS] + "\n" + Wrapped(rest);
      if i > COLUMNS {
        var k := i - 65;
        WrappedLayout(rest, k);
        assert Wrapped(s)[i] == Wrapped(rest)[k];
        assert i / 65 == k / 65 + 1 && i % 65 == k % 65;
        assert k - k / 65 < |rest| ==> rest[k - k / 65] == s[i - i / 65];
      }
    }
  }

  lemma {:induction false} WrappedLength(s: string)
    ensures |Wrapped(s)| == |s| + (|s| + 63) / 64
  {
    if |s| > COLUMNS {
      WrappedLength(s[COLUMNS..]);
    }
  }

  /** A marker cannot straddle the end of text that holds none: its last character, a space, occurs
      nowhere else in it. */
  lemma MarkAfterPrefix(prefix: string, m: string, tail: string)
    requires |m| > 0 && m[|m| - 1] == ' ' && ' ' !in m[..|m| - 1]
    requires Find(prefix, m).None? && m <= tail
    ensures Find(prefix + tail, m) == Some(|prefix|)
  {
    hide Find;
    var s, last := prefix + tail, |m| - 1;
    assert s[|prefix|..] == tail;
    forall i: nat | i < |prefix| ensures !OccursAt(s, m, i) {
      if i + last < |prefix| {
        assert !OccursAt(prefix, m, i);
        assert s[i..] == prefix[i..] + tail;
      } else {
        var k := i + last - |prefix|;
        assert m[..last][k] == m[k] == tail[k] && s[i + last] == tail[k] != ' ';
        NoOccurrence(s, m, i, last);
      }
    }
    FindIs(s, m, |prefix|);
  }

  lemma MarksEndInSpace()
    ensures BEGIN_MARK[|BEGIN_MARK| - 1] == ' ' && ' ' !in BEGIN_MARK[..|BEGIN_MARK| - 1]
    ensures END_MARK[|END_MARK| - 1] == ' ' && ' ' !in END_MARK[..|END_MARK| - 1]
  {}

  lemma EndAfterBody(body: string, rest: string)
    requires forall c :: c in body ==> c != '-'
    ensures Find(body + END_LINE + rest, END_MARK) == Some(|body|)
  {
    var s := body + END_LINE + rest;
    assert s[|body|..] == END_LINE + rest;
    forall i: nat | i < |body| ensures !OccursAt(s, END_MARK, i) {
      assert s[i] == body[i] && body[i] in body;
      NoOccurrence(s, END_MARK, i, 0);
    }
    FindIs(s, END_MARK, |body|);
  }

  lemma FirstNewline(line: string, rest: string)
    requires '\n' !in line
    ensures Find(line + ("\n" + rest), "\n") == Some(|line|)
    ensures Find(line, "\n") == None
  {
    hide Find;
    var s := line + ("\n" + rest);
    assert s[|line|..] == "\n" + rest;
    forall i: nat | i < |line| ensures !OccursAt(s, "\n", i) {
      assert s[i] == line[i] && line[i] in line;
      NoOccurrence(s, "\n", i, 0);
    }
    FindIs(s, "\n", |line|);
    forall i: nat ensures !OccursAt(line, "\n", i) {
      assert i < |line| ==> line[i] in line;
      NoOccurrence(line, "\n", i, 0);
    }
  }

  /** The text after the marker decides: without the end of its line the block is incomplete, and
      otherwise what follows that line is searched for the end marker. */
  lemma AfterMarker(prefix: string, kind: string, rest: string)
    requires Find(prefix, BEGIN_MARK).None? && '\n' !in kind
    ensures FirstBlock(prefix + (BEGIN_MARK + kind)) == Err(IncompleteBeginLine)
    ensures FirstBlock(prefix + (BEGIN_MARK + kind + ("\n" + rest))) ==
      match Find(rest, END_MARK)
      case None => Err(NoEndMarker)
      case Some(end) =>
        match Base64.Decode(DropWhitespace(rest[..end])) case None => Err(BadBase64) case Some(der) => Ok(der)
  {
    hide Find, Base64.Decode, DropWhitespace;
    var line := BEGIN_MARK + kind;
    MarkHasNoNewline();
    FirstNewline(line, rest);
    MarksEndInSpace();
    MarkAfterPrefix(prefix, BEGIN_MARK, line);
    assert (prefix + line)[|prefix|..] == line;
    var tail := line + ("\n" + rest);
    assert tail[..|BEGIN_MARK|] == BEGIN_MARK;
    MarkAfterPrefix(prefix, BEGIN_MARK, tail);
    assert (prefix + tail)[|prefix|..] == tail;
    assert (prefix + tail)[|prefix| + |line| + 1..] == rest;
  }

  lemma MarkHasNoNewline()
    ensures '\n' !in BEGIN_MARK
  {}

  /** Which text is read, as what, and what is refused. Without a begin marker there is no block. After
      the first one comes the rest of its line, `kind`, which is not looked at: a block of any kind is
      taken for the certificate. Without the end of that line or an end marker after it there is no
      block either; and what precedes the end marker must, white space dropped, be the encoding of the bytes returned. */
  lemma FirstBlockIff(s: string, prefix: string, kind: string, body: string, rest: string)
    requires Find(prefix, BEGIN_MARK).None? && '\n' !in kind && Find(body, END_MARK).None?
    ensures FirstBlock(s) == Err(NoBeginMarker) <==> forall i: nat :: !OccursAt(s, BEGIN_MARK, i)
    ensures FirstBlock(prefix + (BEGIN_MARK + kind)) == Err(IncompleteBeginLine)
    ensures FirstBlock(prefix + (BEGIN_MARK + kind + ("\n" + body))) == Err(NoEndMarker)
    ensures var whole := prefix + (BEGIN_MARK + kind + ("\n" + (body + END_MARK + rest)));
            forall der ::
              && (FirstBlock(whole) == Ok(der) <==> DropWhitespace(body) == Base64.Encode(der))
              && (FirstBlock(whole).Err? ==> FirstBlock(whole) == Err(BadBase64))
  {
    hide Find, Base64.Decode, Base64.Encode, DropWhitespace, FirstBlock;
    NoMarker(s);
    AfterMarker(prefix, kind, body);
    var c := body + END_MARK + rest;
    AfterMarker(prefix, kind, c);
    MarksEndInSpace();
    assert c == body + (END_MARK + rest) && c[..|body|] == body;
    MarkAfterPrefix(body, END_MARK, END_MARK + rest);
    forall der ensures Base64.Decode(DropWhitespace(body)) == Some(der) <==> DropWhitespace(body) == Base64.Encode(der) {
      Base64.DecodeIffEncode(DropWhitespace(body), der);
    }
  }

  lemma NoMarker(s: string)
    ensures FirstBlock(s) == Err(NoBeginMarker) <==> forall i: nat :: !OccursAt(s, BEGIN_MARK, i)
  {
    hide Base64.Decode, DropWhitespace;
  }

  /** Reading back a body printed in 64-column lines. */
  lemma BodyRoundTrip(der: seq<Byte>)
    ensures Base64.Decode(DropWhitespace(Wrapped(Base64.Encode(der)))) == Some(der)
    ensures forall c :: c in Wrapped(Base64.Encode(der)) ==> c != '-'
  {
    var b64 := Base64.Encode(der);
    Base64.EncodedAlphabet(der);
    assert forall c :: c in b64 ==> c != '-' && !IsWhitespace(c);
    WrappedAlphabet(b64);
    UnwrapWrapped(b64);
    Base64.RoundTrip(der);
  }

  /** The decoder returns the first certificate whatever precedes it without a begin marker and
      whatever follows it, so a chain yields its first member. */
  lemma FirstBlockOfPem(prefix: string, der: seq<Byte>, rest: string)
    requires Find(prefix, BEGIN_MARK).None?
    ensures FirstBlock(prefix + PemText(der) + rest) == Ok(der)
  {
    hide Find, Base64.Decode, Base64.Encode, DropWhitespace, Wrapped, FirstBlock;
    BodyRoundTrip(der);
    var body := Wrapped(Base64.Encode(der));
    assert prefix + PemText(der) + rest == prefix + (BEGIN_LINE + (body + END_LINE + rest));
    FirstBlockIs(prefix, body, rest);
  }

  lemma FirstBlockIs(prefix: string, body: string, rest: string)
    requires Find(prefix, BEGIN_MARK).None? && forall c :: c in body ==> c != '-'
    requires Base64.Decode(DropWhitespace(body)).Some?
    ensures FirstBlock(prefix + (BEGIN_LINE + (body + END_LINE + rest))) == Ok(Base64.Decode(DropWhitespace(body)).value)
  {
    hide Find, Base64.Decode, DropWhitespace, FirstBlock;
    var kind, afterBegin := "CERTIFICATE-----", body + END_LINE + rest;
    assert '\n' !in kind;
    AfterMarker(prefix, kind, afterBegin);
    assert BEGIN_LINE + afterBegin == BEGIN_MARK + kind + ("\n" + afterBegin);
    EndAfterBody(body, rest);
    assert afterBegin[..|body|] == body;
  }

  /** The certificate the hub reads back is the one the client wrote, and both ends show the
      same fingerprint for it. */
  lemma PemRoundTrip(sha: seq<Byte> -> seq<Byte>, der: seq<Byte>)
    ensures FirstPemBlockToDer(Utf8.Encode(PemText(der))) == Ok(der)
    ensures FingerprintOfPem(sha, Utf8.Encode(PemText(der))) == Ok(FingerprintOfDer(sha, der))
  {
    hide FirstBlock, PemText, Utf8.Encode, Utf8.Decode;
    Utf8.RoundTrip(PemText(der));
    FirstBlockOfPem("", der, "");
    assert "" + PemText(der) + "" == PemText(der);
  }

  /** Two pinned certificates show the same fingerprint only if their digests agree. */
  lemma SameFingerprint(sha: seq<Byte> -> seq<Byte>, a: seq<Byte>, b: seq<Byte>)
    ensures FingerprintOfPem(sha, Utf8.Encode(PemText(a))) == Ok(FingerprintOfDer(sha, b)) <==> sha(a) == sha(b)
  {
    PemRoundTrip(sha, a);
    if FingerprintOfDer(sha, a) == FingerprintOfDer(sha, b) {
      FingerprintInjective(sha(a), sha(b));
    }
  }
}
