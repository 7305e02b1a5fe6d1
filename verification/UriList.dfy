/** The Linux files clipboard: `text/uri-list` bodies (section 5 of RFC 2483), percent-encoding
    (section 2.1 of RFC 3986) and `file` URIs (section 2 of RFC 8089). A path is its bytes. */
module UriList {
  import opened Wrappers
  import opened Text
  import opened Fingerprint
  import Utf8

  type Path = seq<Byte>

  const SCHEME := "file://"
  const CRLF := "\r\n"

  predicate IsUnreserved(b: Byte) {
    var n: int := b;
    || 'A' as int <= n <= 'Z' as int || 'a' as int <= n <= 'z' as int || '0' as int <= n <= '9' as int
    || n == '-' as int || n == '.' as int || n == '_' as int || n == '~' as int || n == '/' as int
  }

  function EncodeByte(b: Byte): string {
    if IsUnreserved(b) then [b as int as char] else "%" + HexByte(b)
  }

  function PercentEncodeBytes(bytes: seq<Byte>): string {
    if |bytes| == 0 then "" else EncodeByte(bytes[0]) + PercentEncodeBytes(bytes[1..])
  }

  function PercentEncode(s: string): string {
    PercentEncodeBytes(Utf8.Encode(s))
  }

  function FromHex(b: Byte): (r: Option<int>)
    ensures r.Some? ==> 0 <= r.value < 16
  {
    var n: int := b;
    if '0' as int <= n <= '9' as int then Some(n - '0' as int)
    else if 'a' as int <= n <= 'f' as int then Some(n - 'a' as int + 10)
    else if 'A' as int <= n <= 'F' as int then Some(n - 'A' as int + 10)
    else None
  }

  /** The byte a well-formed escape at the front stands for. */
  function Escape(bytes: seq<Byte>): (r: Option<Byte>)
    ensures r.Some? ==> |bytes| > 2
  {
    if |bytes| > 2 && bytes[0] == '%' as int then
      match (FromHex(bytes[1]), FromHex(bytes[2]))
      case (Some(hi), Some(lo)) => Some(hi * 16 + lo)
      case _ => None
    else None
  }

  function PercentDecodeBytes(bytes: seq<Byte>): seq<Byte> {
    if |bytes| == 0 then []
    else
      match Escape(bytes)
      case Some(b) => [b] + PercentDecodeBytes(bytes[3..])
      case None => [bytes[0]] + PercentDecodeBytes(bytes[1..])
  }

  function PercentDecode(s: string): string {
    Utf8.DecodeLossy(PercentDecodeBytes(Utf8.Encode(s)))
  }

  function LineOf(path: Path): string {
    SCHEME + PercentEncode(Utf8.DecodeLossy(path))
  }

  function RenderText(paths: seq<Path>): string {
    if |paths| == 0 then "" else LineOf(paths[0]) + CRLF + RenderText(paths[1..])
  }

  function RenderUriList(paths: seq<Path>): seq<Byte> {
    Utf8.Encode(RenderText(paths))
  }

  /** `str::split(['\n', '\r'])`. */
  function SplitLines(s: string): (lines: seq<string>)
    ensures |lines| > 0
  {
    if |s| == 0 then [""]
    else
      var rest := SplitLines(s[1..]);
      if s[0] == '\n' || s[0] == '\r' then [""] + rest else [[s[0]] + rest[0]] + rest[1..]
  }

  /** What is left of a URI's authority and path once the authority is dropped. */
  function DropHost(s: string): string {
    if "localhost" <= s then s[9..]
    else
      match Find(s, "/")
      case None => s
      case Some(i) => s[i..]
  }

  function FileUrlToPath(uri: string): Option<Path> {
    if SCHEME <= uri then Some(Utf8.Encode(PercentDecode(DropHost(uri[|SCHEME|..])))) else None
  }

  function PathsOfLines(lines: seq<string>): seq<Path> {
    if |lines| == 0 then []
    else
      var line := Trim(lines[0]);
      var rest := PathsOfLines(lines[1..]);
      if |line| == 0 || line[0] == '#' then rest
      else match FileUrlToPath(line) case None => rest case Some(path) => [path] + rest
  }

  function ParseUriList(bytes: seq<Byte>): seq<Path> {
    PathsOfLines(SplitLines(Utf8.DecodeLossy(bytes)))
  }

  // The loops of the source.

  method PercentEncodeLoop(s: string) returns (out: string)
    ensures out == PercentEncode(s)
  {
    out := "";
    var bytes := Utf8.Encode(s);
    for i := 0 to |bytes|
      invariant out + PercentEncodeBytes(bytes[i..]) == PercentEncodeBytes(bytes)
    {
      EncodeStep(bytes, i, out);
      out := out + EncodeByte(bytes[i]);
    }
  }

  lemma EncodeStep(bytes: seq<Byte>, i: nat, out: string)
    requires i < |bytes|
    ensures out + PercentEncodeBytes(bytes[i..]) == out + EncodeByte(bytes[i]) + PercentEncodeBytes(bytes[i + 1..])
  {
    hide EncodeByte;
    assert bytes[i..][0] == bytes[i] && bytes[i..][1..] == bytes[i + 1..];
    Assoc(out, EncodeByte(bytes[i]), PercentEncodeBytes(bytes[i + 1..]));
  }

  method PercentDecodeLoop(s: string) returns (decoded: string)
    ensures decoded == PercentDecode(s)
  {
    var out: seq<Byte> := [];
    var bytes := Utf8.Encode(s);
    var i := 0;
    while i < |bytes|
      invariant 0 <= i <= |bytes|
      invariant out + PercentDecodeBytes(bytes[i..]) == PercentDecodeBytes(bytes)
    {
      DecodeStep(bytes, i, out);
      match Escape(bytes[i..])
      case Some(b) =>
        out := out + [b];
        i := i + 3;
      case None =>
        out := out + [bytes[i]];
        i := i + 1;
    }
    assert out == PercentDecodeBytes(bytes);
    decoded := Utf8.DecodeLossy(out);
  }

  lemma DecodeStep(bytes: seq<Byte>, i: nat, out: seq<Byte>)
    requires i < |bytes|
    ensures out + PercentDecodeBytes(bytes[i..]) ==
      match Escape(bytes[i..])
      case Some(b) => out + [b] + PercentDecodeBytes(bytes[i + 3..])
      case None => out + [bytes[i]] + PercentDecodeBytes(bytes[i + 1..])
  {
    hide Escape;
    var rest := bytes[i..];
    assert rest[0] == bytes[i] && rest[1..] == bytes[i + 1..];
    if Escape(rest).Some? {
      assert rest[3..] == bytes[i + 3..];
    }
  }

  method RenderUriListLoop(paths: seq<Path>) returns (bytes: seq<Byte>)
    ensures bytes == RenderUriList(paths)
  {
    var out := "";
    for i := 0 to |paths|
      invariant out + RenderText(paths[i..]) == RenderText(paths)
    {
      var encoded := PercentEncodeLoop(Utf8.DecodeLossy(paths[i]));
      RenderStep(paths, i, out);
      out := out + (SCHEME + encoded + CRLF);
    }
    assert out == RenderText(paths);
    bytes := Utf8.Encode(out);
  }

  lemma RenderStep(paths: seq<Path>, i: nat, out: string)
    requires i < |paths|
    ensures out + RenderText(paths[i..]) == out + (LineOf(paths[i]) + CRLF) + RenderText(paths[i + 1..])
  {
    hide LineOf;
    assert paths[i..][0] == paths[i] && paths[i..][1..] == paths[i + 1..];
    Assoc(out, LineOf(paths[i]) + CRLF, RenderText(paths[i + 1..]));
  }

  // Decoding undoes encoding.

  lemma EscapeOfEncoded(b: Byte, rest: seq<Byte>)
    requires !IsUnreserved(b)
    ensures |Utf8.Encode(EncodeByte(b))| == 3
    ensures Escape(Utf8.Encode(EncodeByte(b)) + rest) == Some(b)
  {
    hide Utf8.Encode, HexDigit;
    var e := EncodeByte(b);
    assert e == ['%', HexDigit(b / 16), HexDigit(b % 16)];
    FromHexDigit(b / 16);
    FromHexDigit(b % 16);
    AsciiBytes(e);
    var bytes := Utf8.Encode(e) + rest;
    assert bytes[0] == '%' as int && bytes[1] == HexDigit(b / 16) as int && bytes[2] == HexDigit(b % 16) as int;
    assert b / 16 * 16 + b % 16 == b as int;
  }

  lemma FromHexDigit(n: int)
    requires 0 <= n < 16
    ensures HexDigit(n) as int < 0x80 && FromHex(HexDigit(n) as int) == Some(n)
  {}

  lemma {:induction false} AsciiBytes(s: string)
    requires forall c :: c in s ==> c as int < 0x80
    ensures |Utf8.Encode(s)| == |s| && forall i :: 0 <= i < |s| ==> Utf8.Encode(s)[i] == s[i] as int
  {
    if |s| > 0 {
      assert s[0] in s && forall c :: c in s[1..] ==> c in s;
      AsciiBytes(s[1..]);
      assert Utf8.EncodeScalar(s[0]) == [s[0] as int];
      forall i | 0 <= i < |s| ensures Utf8.Encode(s)[i] == s[i] as int {
        if i > 0 {
          assert Utf8.Encode(s)[i] == Utf8.Encode(s[1..])[i - 1];
        }
      }
    }
  }

  /** `percent_decode` inverts `percent_encode_path` on every byte string. */
  lemma {:induction false} PercentBytesRoundTrip(bytes: seq<Byte>)
    ensures PercentDecodeBytes(Utf8.Encode(PercentEncodeBytes(bytes))) == bytes
  {
    if |bytes| > 0 {
      var b := bytes[0];
      var rest := Utf8.Encode(PercentEncodeBytes(bytes[1..]));
      PercentBytesRoundTrip(bytes[1..]);
      Utf8.EncodeConcat(EncodeByte(b), PercentEncodeBytes(bytes[1..]));
      var all := Utf8.Encode(EncodeByte(b)) + rest;
      if IsUnreserved(b) {
        AsciiBytes(EncodeByte(b));
        assert all[0] == b && all[1..] == rest;
        assert b != '%' as int;
      } else {
        EscapeOfEncoded(b, rest);
        assert all[3..] == rest;
      }
    }
  }

  lemma PercentRoundTrip(s: string)
    ensures PercentDecode(PercentEncode(s)) == s
  {
    PercentBytesRoundTrip(Utf8.Encode(s));
    Utf8.RoundTrip(s);
  }

  lemma {:induction false} EncodedIsGraphic(bytes: seq<Byte>)
    ensures forall c :: c in PercentEncodeBytes(bytes) ==> IsGraphic(c)
  {
    if |bytes| > 0 {
      EncodedIsGraphic(bytes[1..]);
      EncodedByteIsGraphic(bytes[0]);
    }
  }

  lemma EncodedByteIsGraphic(b: Byte)
    ensures forall c :: c in EncodeByte(b) ==> IsGraphic(c)
  {}

  // What other programs write.

  const HEX_DIGITS := "0123456789ABCDEF"
  const LOWER_HEX_DIGITS := "0123456789abcdef"

  /** How a byte is spelled: as itself, or as an escape whose digits are of either case. */
  datatype Spelling = Plain | Escaped(upperHigh: bool, upperLow: bool)

  function Digit(n: int, upper: bool): char
    requires 0 <= n < 16
  {
    (if upper then HEX_DIGITS else LOWER_HEX_DIGITS)[n]
  }

  function SpelledByte(b: Byte, how: Spelling): seq<Byte> {
    match how
    case Plain => [b]
    case Escaped(high, low) => ['%' as int, Digit(b / 16, high) as int, Digit(b % 16, low) as int]
  }

  function Spelled(bytes: seq<Byte>, how: seq<Spelling>): seq<Byte>
    requires |how| == |bytes|
  {
    if |bytes| == 0 then [] else SpelledByte(bytes[0], how[0]) + Spelled(bytes[1..], how[1..])
  }

  lemma DigitReads(n: int, upper: bool)
    requires 0 <= n < 16
    ensures Digit(n, upper) as int < 0x80 && FromHex(Digit(n, upper) as int) == Some(n)
  {}

  lemma SpelledByteDecodes(b: Byte, how: Spelling, rest: seq<Byte>)
    requires how.Plain? ==> b != '%' as int
    ensures PercentDecodeBytes(SpelledByte(b, how) + rest) == [b] + PercentDecodeBytes(rest)
  {
    var all := SpelledByte(b, how) + rest;
    match how
    case Plain =>
      assert all[1..] == rest;
    case Escaped(high, low) =>
      DigitReads(b / 16, high);
      DigitReads(b % 16, low);
      hide Digit, FromHex;
      assert all[3..] == rest;
  }

  /** Section 2.1 of RFC 3986: whichever bytes a writer escapes, and in whichever case, the bytes come
      back, as long as it escapes every percent sign. */
  lemma {:induction false} AnySpelling(bytes: seq<Byte>, how: seq<Spelling>)
    requires |how| == |bytes|
    requires forall i :: 0 <= i < |bytes| && bytes[i] == '%' as int ==> how[i].Escaped?
    ensures PercentDecodeBytes(Spelled(bytes, how)) == bytes
  {
    hide SpelledByte, PercentDecodeBytes;
    if |bytes| == 0 {
      assert PercentDecodeBytes([]) == [] by { DecodesEmpty(); }
    } else {
      AnySpelling(bytes[1..], how[1..]);
      SpelledByteDecodes(bytes[0], how[0], Spelled(bytes[1..], how[1..]));
    }
  }

  lemma DecodesEmpty()
    ensures PercentDecodeBytes([]) == []
  {}

  /** An escape is a percent sign and two hexadecimal digits; any other percent sign stands for itself. */
  lemma EscapeIff(bytes: seq<Byte>)
    ensures Escape(bytes).Some? <==>
      && |bytes| > 2 && bytes[0] == '%' as int
      && IsHexDigit(bytes[1]) && IsHexDigit(bytes[2])
  {
    if |bytes| > 2 {
      HexDigitIff(bytes[1]);
      HexDigitIff(bytes[2]);
      hide IsHexDigit, FromHex;
    }
  }

  predicate IsHexDigit(b: Byte) {
    b < 0x80 && (b as int as char in HEX_DIGITS || b as int as char in LOWER_HEX_DIGITS)
  }

  lemma HexDigitIff(b: Byte)
    ensures FromHex(b).Some? <==> IsHexDigit(b)
  {
    if FromHex(b).Some? {
      var n := FromHex(b).value;
      assert b as int as char == HEX_DIGITS[n] || b as int as char == LOWER_HEX_DIGITS[n];
    }
  }

  /** Text without an escape is read as it stands. */
  lemma {:induction false} NoEscapes(bytes: seq<Byte>)
    requires forall i :: 0 <= i <= |bytes| ==> Escape(bytes[i..]).None?
    ensures PercentDecodeBytes(bytes) == bytes
  {
    hide Escape;
    if |bytes| > 0 {
      forall i | 0 <= i <= |bytes[1..]| ensures Escape(bytes[1..][i..]).None? {
        assert bytes[1..][i..] == bytes[i + 1..];
      }
      NoEscapes(bytes[1..]);
      assert bytes[0..] == bytes;
    }
  }

  /** Letters, digits and `-._~/` are printed as themselves, any other byte as an upper-case escape. */
  lemma PrintedByte(b: Byte)
    ensures var c := b as int as char;
            if 'A' <= c <= 'Z' || 'a' <= c <= 'z' || '0' <= c <= '9' || c in "-._~/" then EncodeByte(b) == [c]
            else EncodeByte(b) == "%" + HexByte(b)
  {
    hide HexByte;
    var c, marks := b as int as char, "-._~/";
    assert c in marks <==> c == marks[0] || c == marks[1] || c == marks[2] || c == marks[3] || c == marks[4];
  }

  // Lines survive splitting and trimming.

  lemma SplitCrlf(rest: string)
    ensures SplitLines(CRLF + rest) == ["", ""] + SplitLines(rest)
  {
    var s := CRLF + rest;
    assert s[0] == '\r' && s[1..][0] == '\n' && s[1..][1..] == rest;
    assert SplitLines(s[1..]) == [""] + SplitLines(rest);
  }

  lemma SplitCons(c: char, s: string)
    requires c != '\n' && c != '\r'
    ensures SplitLines([c] + s) == [[c] + SplitLines(s)[0]] + SplitLines(s)[1..]
  {
    assert ([c] + s)[1..] == s;
  }

  lemma {:induction false} SplitOneLine(line: string, rest: string)
    requires forall c :: c in line ==> c != '\n' && c != '\r'
    ensures SplitLines(line + CRLF + rest) == [line, ""] + SplitLines(rest)
  {
    hide SplitLines;
    if |line| == 0 {
      assert line + CRLF + rest == CRLF + rest;
      SplitCrlf(rest);
    } else {
      assert line[0] in line && forall c :: c in line[1..] ==> c in line;
      SplitOneLine(line[1..], rest);
      assert line + CRLF + rest == [line[0]] + (line[1..] + CRLF + rest);
      SplitCons(line[0], line[1..] + CRLF + rest);
      assert [line[0]] + line[1..] == line;
    }
  }

  /** Lines, each ended by its own terminator. */
  function Terminated(lines: seq<string>, ends: seq<string>): string
    requires |ends| == |lines|
  {
    if |lines| == 0 then "" else lines[0] + ends[0] + Terminated(lines[1..], ends[1..])
  }

  ghost predicate OneLine(line: string) {
    forall c :: c in line ==> c != '\n' && c != '\r'
  }

  ghost predicate IsTerminator(end: string) {
    end == "\n" || end == "\r" || end == CRLF
  }

  lemma {:induction false} SplitTerminated(line: string, end: string, rest: string)
    requires IsTerminator(end) && OneLine(line)
    ensures SplitLines(line + end + rest) == [line] + (if end == CRLF then [""] else []) + SplitLines(rest)
  {
    hide SplitLines;
    if end == CRLF {
      SplitOneLine(line, rest);
    } else if |line| == 0 {
      assert line + end + rest == end + rest;
      SplitEnd(end, rest);
    } else {
      assert line[0] in line && forall c :: c in line[1..] ==> c in line;
      SplitTerminated(line[1..], end, rest);
      assert line + end + rest == [line[0]] + (line[1..] + end + rest);
      SplitCons(line[0], line[1..] + end + rest);
      assert [line[0]] + line[1..] == line;
    }
  }

  lemma SplitEnd(end: string, rest: string)
    requires end == "\n" || end == "\r"
    ensures SplitLines(end + rest) == [""] + SplitLines(rest)
  {
    assert (end + rest)[1..] == rest;
  }

  /** Is this line blank, a comment, or a URI of another scheme? */
  predicate Skipped(line: string) {
    var trimmed := Trim(line);
    |trimmed| == 0 || trimmed[0] == '#' || !(SCHEME <= trimmed)
  }

  lemma PathsOfLine(line: string, rest: seq<string>)
    ensures PathsOfLines([line] + rest) ==
      (if Skipped(line) then [] else [FileUrlToPath(Trim(line)).value]) + PathsOfLines(rest)
  {
    assert ([line] + rest)[1..] == rest;
  }

  function Listed(lines: seq<string>): seq<Path> {
    if |lines| == 0 then []
    else (if Skipped(lines[0]) then [] else [FileUrlToPath(Trim(lines[0])).value]) + Listed(lines[1..])
  }

  /** Bodies of other programs: whichever terminators end its lines, a body lists the paths of its
      `file://` lines in order, and nothing for comments, blank lines and other schemes. */
  lemma {:induction false} AnyTerminators(lines: seq<string>, ends: seq<string>)
    requires |ends| == |lines|
    requires forall end :: end in ends ==> IsTerminator(end)
    requires forall line :: line in lines ==> OneLine(line)
    ensures ParseUriList(Utf8.Encode(Terminated(lines, ends))) == Listed(lines)
  {
    hide SplitLines, PathsOfLines, Skipped, FileUrlToPath, Utf8.Encode, Utf8.DecodeLossy, IsTerminator, Trim;
    Utf8.RoundTrip(Terminated(lines, ends));
    if |lines| == 0 {
      NoLines();
    } else {
      var rest := Terminated(lines[1..], ends[1..]);
      assert ends[0] in ends && lines[0] in lines;
      AnyTerminators(lines[1..], ends[1..]);
      Utf8.RoundTrip(rest);
      SplitTerminated(lines[0], ends[0], rest);
      BlankLine(SplitLines(rest));
      PathsOfLine(lines[0], (if ends[0] == CRLF then [""] else []) + SplitLines(rest));
      assert [lines[0]] + (if ends[0] == CRLF then [""] else []) + SplitLines(rest)
          == [lines[0]] + ((if ends[0] == CRLF then [""] else []) + SplitLines(rest));
      assert [] + SplitLines(rest) == SplitLines(rest);
    }
  }

  lemma NoLines()
    ensures PathsOfLines(SplitLines("")) == []
  {
    assert SplitLines("") == [""] && Trim("") == "";
    assert PathsOfLines([""]) == PathsOfLines([]);
  }

  lemma BlankLine(rest: seq<string>)
    ensures PathsOfLines([""] + rest) == PathsOfLines(rest)
  {
    assert Trim("") == "";
    assert ([""] + rest)[1..] == rest;
  }

  lemma TrimGraphic(s: string)
    requires forall c :: c in s ==> IsGraphic(c)
    ensures Trim(s) == s
  {
    if |s| > 0 {
      assert s[0] in s && s[|s| - 1] in s;
    }
  }

  /** What comes back for one path that is written and read again. */
  function PathBack(path: Path): Path {
    Utf8.Encode(PercentDecode(DropHost(PercentEncode(Utf8.DecodeLossy(path)))))
  }

  lemma LineComesBack(path: Path, rest: seq<string>)
    ensures PathsOfLines([LineOf(path), ""] + rest) == [PathBack(path)] + PathsOfLines(rest)
    ensures forall c :: c in LineOf(path) ==> c != '\n' && c != '\r'
  {
    hide DropHost, PercentDecode, Utf8.Encode, Utf8.DecodeLossy, PercentEncodeBytes;
    var line := LineOf(path);
    var encoded := PercentEncode(Utf8.DecodeLossy(path));
    EncodedIsGraphic(Utf8.Encode(Utf8.DecodeLossy(path)));
    assert forall c :: c in SCHEME ==> IsGraphic(c);
    TrimGraphic(line);
    assert line[|SCHEME|..] == encoded && line[..|SCHEME|] == SCHEME;
    var lines := [line, ""] + rest;
    assert lines[1..] == [""] + rest && lines[1..][1..] == rest;
    assert Trim("") == "";
    assert PathsOfLines(lines[1..]) == PathsOfLines(rest);
    assert line[0] == SCHEME[0] != '#';
    assert FileUrlToPath(line) == Some(PathBack(path));
  }

  function Back(paths: seq<Path>): seq<Path> {
    if |paths| == 0 then [] else [PathBack(paths[0])] + Back(paths[1..])
  }

  lemma {:induction false} ListComesBack(paths: seq<Path>)
    ensures ParseUriList(RenderUriList(paths)) == Back(paths)
  {
    hide LineOf, PathBack, Utf8.Encode, Utf8.DecodeLossy;
    Utf8.RoundTrip(RenderText(paths));
    if |paths| == 0 {
      assert SplitLines("") == [""] && Trim("") == "";
      assert PathsOfLines([""]) == PathsOfLines([]) == [];
    } else {
      var rest := RenderText(paths[1..]);
      ListComesBack(paths[1..]);
      Utf8.RoundTrip(rest);
      LineComesBack(paths[0], SplitLines(rest));
      SplitOneLine(LineOf(paths[0]), rest);
    }
  }

  // Which paths come back unchanged.

  /** A path that is text, names no host, and is absolute unless it has a single component. */
  predicate RoundTrips(path: Path) {
    match Utf8.Decode(path)
    case None => false
    case Some(s) => !("localhost" <= s) && ('/' in s ==> s[0] == '/')
  }

  predicate IsPlain(c: char) {
    c as int < 0x80 && IsUnreserved(c as int)
  }

  lemma EncodeHead(s: string)
    requires |s| > 0
    ensures PercentEncode(s) == PercentEncodeBytes(Utf8.EncodeScalar(s[0])) + PercentEncode(s[1..])
    ensures IsPlain(s[0]) ==> PercentEncode(s) == [s[0]] + PercentEncode(s[1..])
    ensures !IsPlain(s[0]) ==> PercentEncode(s)[..1] == "%"
  {
    var head := Utf8.EncodeScalar(s[0]);
    EncodeBytesConcat(head, Utf8.Encode(s[1..]));
    assert PercentEncodeBytes(head) == EncodeByte(head[0]) + PercentEncodeBytes(head[1..]);
    if IsPlain(s[0]) {
      assert head == [s[0] as int] && head[1..] == [];
    } else {
      assert !IsUnreserved(head[0]);
    }
  }

  lemma {:induction false} EncodeBytesConcat(a: seq<Byte>, b: seq<Byte>)
    ensures PercentEncodeBytes(a + b) == PercentEncodeBytes(a) + PercentEncodeBytes(b)
  {
    hide EncodeByte;
    if |a| == 0 {
      assert a + b == b;
    } else {
      EncodeBytesConcat(a[1..], b);
      calc {
        PercentEncodeBytes(a + b);
      == { assert (a + b)[0] == a[0] && (a + b)[1..] == a[1..] + b; }
        EncodeByte(a[0]) + (PercentEncodeBytes(a[1..]) + PercentEncodeBytes(b));
      ==
        EncodeByte(a[0]) + PercentEncodeBytes(a[1..]) + PercentEncodeBytes(b);
      }
    }
  }

  /** A plain prefix is visible through the encoding. */
  lemma {:induction false} PlainPrefix(word: string, s: string)
    requires forall c :: c in word ==> IsPlain(c)
    ensures word <= PercentEncode(s) <==> word <= s
    ensures word <= s ==> PercentEncode(s)[|word|..] == PercentEncode(s[|word|..])
  {
    if |word| == 0 {
    } else if |s| == 0 {
    } else {
      assert word[0] in word && word[0] != '%' && forall c :: c in word[1..] ==> c in word;
      hide PercentEncode, PercentEncodeBytes, Utf8.EncodeScalar, IsUnreserved;
      PlainPrefix(word[1..], s[1..]);
      EncodeHead(s);
      var e := PercentEncode(s);
      if IsPlain(s[0]) {
        assert e[0] == s[0] && e[1..] == PercentEncode(s[1..]);
        PrefixByHead(word, e);
        PrefixByHead(word, s);
      } else {
        assert e[..1][0] == e[0] == '%';
        assert word[0] != s[0];
      }
    }
  }

  lemma PrefixByHead(word: string, s: string)
    requires |word| > 0 && |s| > 0
    ensures word <= s <==> word[0] == s[0] && word[1..] <= s[1..]
    ensures word <= s ==> s[|word|..] == s[1..][|word[1..]|..]
  {
    assert word == [word[0]] + word[1..] && s == [s[0]] + s[1..];
  }

  /** The first slash, and what follows it, are visible through the encoding. */
  lemma {:induction false} FirstSlash(s: string) returns (k: nat)
    ensures Find(PercentEncode(s), "/").Some? <==> '/' in s
    ensures '/' in s ==> k < |s| && (k == 0 <==> s[0] == '/')
    ensures '/' in s ==> PercentEncode(s)[Find(PercentEncode(s), "/").value..] == PercentEncode(s[k..])
  {
    hide PercentEncode, Find;
    var e := PercentEncode(s);
    k := 0;
    if |s| == 0 {
      EmptyEncodes();
    } else {
      EncodeHead(s);
      if s[0] == '/' {
        assert s[0..] == s && e[0] == '/' && e[0..] == e;
        assert OccursAt(e, "/", 0);
      } else {
        hide IsPlain, PercentEncodeBytes, Utf8.EncodeScalar, OccursAt;
        var j := FirstSlash(s[1..]);
        var head, tail := PercentEncodeBytes(Utf8.EncodeScalar(s[0])), PercentEncode(s[1..]);
        NoSlashInHead(s[0]);
        SkipHead(head, tail);
        assert e == head + tail && e[|head|..] == tail;
        assert '/' in s <==> '/' in s[1..];
        if '/' in s {
          var i := Find(tail, "/").value;
          DropMore(s, 1, j);
          DropMore(e, |head|, i);
          k := j + 1;
        }
      }
    }
  }

  lemma DropMore(s: string, i: nat, j: nat)
    requires i + j <= |s|
    ensures s[i..][j..] == s[i + j..]
  {}

  lemma EmptyEncodes()
    ensures PercentEncode("") == ""
  {}

  lemma NoSlashInHead(c: char)
    requires c != '/'
    ensures '/' !in PercentEncodeBytes(Utf8.EncodeScalar(c))
  {
    var bytes := Utf8.EncodeScalar(c);
    assert forall b :: b in bytes ==> b != '/' as int;
    NoSlashBytes(bytes);
  }

  lemma {:induction false} NoSlashBytes(bytes: seq<Byte>)
    requires forall b :: b in bytes ==> b != '/' as int
    ensures '/' !in PercentEncodeBytes(bytes)
  {
    if |bytes| > 0 {
      assert bytes[0] in bytes && forall b :: b in bytes[1..] ==> b in bytes;
      NoSlashBytes(bytes[1..]);
      NoSlashByte(bytes[0]);
      hide EncodeByte;
    }
  }

  lemma NoSlashByte(b: Byte)
    requires b != '/' as int
    ensures '/' !in EncodeByte(b)
  {
    if !IsUnreserved(b) {
      HexByteReads(b);
      hide HexByte;
      assert HexByte(b)[0] != '/' && HexByte(b)[1] != '/';
    }
  }

  lemma SkipHead(head: string, tail: string)
    requires '/' !in head
    ensures Find(head + tail, "/") ==
      match Find(tail, "/") case None => None case Some(i) => Some(|head| + i)
  {
    var s := head + tail;
    forall i: nat ensures OccursAt(s, "/", i) <==> i >= |head| && OccursAt(tail, "/", i - |head|) {
      if i < |head| {
        assert s[i] == head[i] && head[i] in head;
        NoOccurrence(s, "/", i, 0);
      } else if i <= |s| {
        assert s[i..] == tail[i - |head|..];
      }
    }
    match Find(tail, "/")
    case None =>
    case Some(i) =>
      assert OccursAt(s, "/", |head| + i);
      FindIs(s, "/", |head| + i);
  }

  lemma PathBackIff(path: Path)
    ensures PathBack(path) == path <==> RoundTrips(path)
  {
    var s := Utf8.DecodeLossy(path);
    var e := PercentEncode(s);
    assert forall c :: c in "localhost" ==> IsPlain(c);
    PlainPrefix("localhost", s);
    var k := FirstSlash(s);
    var back: string;
    if "localhost" <= s {
      back := s[9..];
    } else if '/' in s {
      back := s[k..];
    } else {
      back := s;
    }
    assert DropHost(e) == PercentEncode(back);
    PercentRoundTrip(back);
    assert PathBack(path) == Utf8.Encode(back);
    Utf8.DecodeIffEncode(path, back);
    Utf8.DecodeIffEncode(path, s);
    if Utf8.Decode(path).Some? {
      Utf8.Canonical(path);
      Utf8.RoundTrip(Utf8.Decode(path).value);
    }
  }

  lemma EncodeHeadSlash(s: string)
    requires |s| > 0 && s[0] == '/'
    ensures |PercentEncode(s)| > 0 && PercentEncode(s)[0] == '/'
  {
    hide PercentEncodeBytes, Utf8.EncodeScalar;
    EncodeHead(s);
  }

  /** Section 2 of RFC 8089: an absolute path comes back from a URI with an empty host, with
      `localhost`, and with any other host that does not begin with that word. */
  lemma HostIsDropped(host: string, s: string)
    requires |s| > 0 && s[0] == '/' && '/' !in host
    requires host == "localhost" || !("localhost" <= host)
    ensures FileUrlToPath(SCHEME + (host + PercentEncode(s))) == Some(Utf8.Encode(s))
  {
    hide PercentEncode, PercentDecode, DropHost, Utf8.Encode;
    var rest := host + PercentEncode(s);
    EncodeHeadSlash(s);
    DropsHost(host, PercentEncode(s));
    PercentRoundTrip(s);
    assert (SCHEME + rest)[..|SCHEME|] == SCHEME && (SCHEME + rest)[|SCHEME|..] == rest;
  }

  lemma DropsHost(host: string, path: string)
    requires |path| > 0 && path[0] == '/' && '/' !in host
    requires host == "localhost" || !("localhost" <= host)
    ensures DropHost(host + path) == path
  {
    hide Find;
    assert (host + path)[|host|..] == path;
    if host != "localhost" {
      NotLocalhost(host, path);
      SkipHead(host, path);
      assert path[0..] == path && OccursAt(path, "/", 0);
    }
  }

  lemma NotLocalhost(host: string, tail: string)
    requires !("localhost" <= host) && |tail| > 0 && tail[0] == '/'
    ensures !("localhost" <= host + tail)
  {
    var word := "localhost";
    if |host| < |word| {
      assert word[|host|] != (host + tail)[|host|];
    }
  }

  lemma {:induction false} BackIff(paths: seq<Path>)
    ensures Back(paths) == paths <==> forall p :: p in paths ==> RoundTrips(p)
  {
    hide PathBack, RoundTrips;
    if |paths| > 0 {
      PathBackIff(paths[0]);
      BackIff(paths[1..]);
      assert paths == [paths[0]] + paths[1..];
      assert Back(paths) == paths <==> PathBack(paths[0]) == paths[0] && Back(paths[1..]) == paths[1..];
    }
  }

  /** A list of paths survives the clipboard exactly when every path is text, does not start like
      the host `localhost`, and starts at a slash if it has one: every absolute text path does. */
  lemma UriListRoundTrip(paths: seq<Path>)
    ensures ParseUriList(RenderUriList(paths)) == paths <==> forall p :: p in paths ==> RoundTrips(p)
  {
    ListComesBack(paths);
    BackIff(paths);
  }

  lemma AbsolutePathsRoundTrip(s: string)
    requires |s| > 0 && s[0] == '/'
    ensures RoundTrips(Utf8.Encode(s))
  {
    Utf8.RoundTrip(s);
  }
}
