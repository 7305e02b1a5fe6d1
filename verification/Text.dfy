/** The `str` operations the source relies on, over sequences of Unicode scalar values. */
module Text {
  import opened Wrappers

  lemma Assoc(a: string, b: string, c: string)
    ensures a + (b + c) == a + b + c
  {}

  /** Unicode White_Space, as `char::is_whitespace`. */
  predicate IsWhitespace(c: char) {
    var n := c as int;
    || 0x09 <= n <= 0x0D || n == 0x20 || n == 0x85 || n == 0xA0 || n == 0x1680
    || 0x2000 <= n <= 0x200A || n == 0x2028 || n == 0x2029 || n == 0x202F || n == 0x205F || n == 0x3000
  }

  /** Printable ASCII other than the space. */
  predicate IsGraphic(c: char) {
    '!' <= c <= '~'
  }

  function TrimStart(s: string): string {
    if |s| > 0 && IsWhitespace(s[0]) then TrimStart(s[1..]) else s
  }

  function TrimEnd(s: string): string {
    if |s| > 0 && IsWhitespace(s[|s| - 1]) then TrimEnd(s[..|s| - 1]) else s
  }

  function Trim(s: string): string {
    TrimEnd(TrimStart(s))
  }

  lemma {:induction false} TrimStartIs(s: string) returns (i: nat)
    ensures i <= |s| && TrimStart(s) == s[i..]
    ensures forall k :: 0 <= k < i ==> IsWhitespace(s[k])
    ensures i < |s| ==> !IsWhitespace(s[i])
  {
    hide IsWhitespace;
    i := 0;
    if |s| > 0 && IsWhitespace(s[0]) {
      var j := TrimStartIs(s[1..]);
      i := j + 1;
      assert s[1..][j..] == s[i..];
      assert forall k :: 0 < k < |s| ==> s[k] == s[1..][k - 1];
    }
  }

  lemma {:induction false} TrimEndIs(s: string) returns (j: nat)
    ensures j <= |s| && TrimEnd(s) == s[..j]
    ensures forall k :: j <= k < |s| ==> IsWhitespace(s[k])
    ensures j > 0 ==> !IsWhitespace(s[j - 1])
  {
    hide IsWhitespace;
    j := |s|;
    if |s| > 0 && IsWhitespace(s[|s| - 1]) {
      var rest := s[..|s| - 1];
      j := TrimEndIs(rest);
      assert rest[..j] == s[..j];
      assert forall k :: 0 <= k < |rest| ==> s[k] == rest[k];
    }
  }

  /** What trimming keeps: all of the text but white space at either end, and no white space there. */
  lemma TrimIs(s: string) returns (i: nat, j: nat)
    ensures i <= j <= |s| && Trim(s) == s[i..j]
    ensures forall k :: 0 <= k < i || j <= k < |s| ==> IsWhitespace(s[k])
    ensures i < j ==> !IsWhitespace(s[i]) && !IsWhitespace(s[j - 1])
  {
    hide IsWhitespace;
    i := TrimStartIs(s);
    var rest := s[i..];
    var n := TrimEndIs(rest);
    j := i + n;
    assert rest[..n] == s[i..j];
    assert forall k :: 0 <= k < |rest| ==> rest[k] == s[i + k];
    assert forall k :: i <= k < |s| ==> s[k] == rest[k - i];
  }

  /** `str::chars().filter(|c| !c.is_whitespace())`. */
  function DropWhitespace(s: string): string {
    if |s| == 0 then ""
    else (if IsWhitespace(s[0]) then "" else [s[0]]) + DropWhitespace(s[1..])
  }

  lemma {:induction false} DropWhitespaceConcat(s: string, t: string)
    ensures DropWhitespace(s + t) == DropWhitespace(s) + DropWhitespace(t)
  {
    hide IsWhitespace;
    if |s| == 0 {
      assert s + t == t;
    } else {
      DropWhitespaceConcat(s[1..], t);
      var head := if IsWhitespace(s[0]) then "" else [s[0]];
      calc {
        DropWhitespace(s + t);
      == { assert (s + t)[0] == s[0] && (s + t)[1..] == s[1..] + t; }
        head + (DropWhitespace(s[1..]) + DropWhitespace(t));
      ==
        head + DropWhitespace(s[1..]) + DropWhitespace(t);
      }
    }
  }

  lemma {:induction false} DropNothing(s: string)
    requires forall c :: c in s ==> !IsWhitespace(c)
    ensures DropWhitespace(s) == s
  {
    if |s| > 0 {
      assert forall c :: c in s[1..] ==> c in s;
      DropNothing(s[1..]);
    }
  }

  ghost predicate OccursAt(s: string, pattern: string, i: nat) {
    i <= |s| && pattern <= s[i..]
  }

  lemma OccurrencesInTail(s: string, pattern: string)
    requires |s| > 0
    ensures forall i: nat :: i > 0 ==> (OccursAt(s, pattern, i) <==> OccursAt(s[1..], pattern, i - 1))
  {
    forall i: nat | i > 0 ensures OccursAt(s, pattern, i) <==> OccursAt(s[1..], pattern, i - 1) {
      assert i <= |s| ==> s[i..] == s[1..][i - 1..];
    }
  }

  /** `str::find`: the first occurrence. */
  function Find(s: string, pattern: string): (r: Option<nat>)
    ensures r.None? ==> forall i: nat :: !OccursAt(s, pattern, i)
    ensures r.Some? ==> OccursAt(s, pattern, r.value) && forall i: nat :: i < r.value ==> !OccursAt(s, pattern, i)
  {
    if pattern <= s then
      assert OccursAt(s, pattern, 0);
      Some(0)
    else if |s| == 0 then None
    else
      OccurrencesInTail(s, pattern);
      match Find(s[1..], pattern)
      case None => None
      case Some(i) => Some(i + 1)
  }

  /** One differing character rules an occurrence out. */
  lemma NoOccurrence(s: string, pattern: string, i: nat, k: nat)
    requires k < |pattern| && (i + k < |s| ==> s[i + k] != pattern[k])
    ensures !OccursAt(s, pattern, i)
  {
    assert i + k < |s| ==> s[i..][k] == s[i + k];
  }

  /** What fixes the result of `Find`. */
  lemma FindIs(s: string, pattern: string, at: nat)
    requires OccursAt(s, pattern, at)
    requires forall i: nat :: i < at ==> !OccursAt(s, pattern, i)
    ensures Find(s, pattern) == Some(at)
  {}
}
