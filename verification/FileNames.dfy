/** Where a received file may land: name sanitising and collision-free naming. */
module FileNames {
  import opened Wrappers
  import opened Text

  const FALLBACK_NAME := "received-file"
  const MAX_NUMBERED := 10_000

  /** Unicode general category Cc, as `char::is_control`. */
  predicate IsControl(c: char) {
    var n := c as int;
    n <= 0x1F || 0x7F <= n <= 0x9F
  }

  predicate IsForbidden(c: char) {
    c == '/' || c == '\\' || c == '\0' || c == ':' || IsControl(c)
  }

  function Scrub(s: string): string {
    if |s| == 0 then "" else [if IsForbidden(s[0]) then '_' else s[0]] + Scrub(s[1..])
  }

  function TrimDots(s: string): string {
    if |s| > 0 && s[|s| - 1] == '.' then TrimDots(s[..|s| - 1]) else s
  }

  function SanitizeFilename(name: string): string {
    var cleaned := TrimDots(Scrub(Trim(name)));
    if cleaned == "" || cleaned == "." || cleaned == ".." then FALLBACK_NAME else cleaned
  }

  /** One path component that stays in its directory. */
  ghost predicate SafeComponent(s: string) {
    s != "" && s != "." && s != ".." && forall c :: c in s ==> !IsForbidden(c)
  }

  lemma {:induction false} ScrubIsClean(s: string)
    ensures |Scrub(s)| == |s| && forall c :: c in Scrub(s) ==> !IsForbidden(c)
    ensures Scrub(s) == s <==> forall c :: c in s ==> !IsForbidden(c)
  {
    if |s| > 0 {
      ScrubIsClean(s[1..]);
      assert s == [s[0]] + s[1..];
      assert Scrub(s)[0] == s[0] <==> !IsForbidden(s[0]);
      assert Scrub(s)[1..] == Scrub(s[1..]);
      assert Scrub(s) == s <==> Scrub(s)[0] == s[0] && Scrub(s)[1..] == s[1..];
      assert (forall c :: c in s ==> !IsForbidden(c)) <==> !IsForbidden(s[0]) && forall c :: c in s[1..] ==> !IsForbidden(c);
    }
  }

  lemma {:induction false} ScrubAt(s: string, i: nat)
    requires i < |s|
    ensures |Scrub(s)| == |s| && Scrub(s)[i] == if IsForbidden(s[i]) then '_' else s[i]
  {
    ScrubIsClean(s);
    if i > 0 {
      ScrubAt(s[1..], i - 1);
    }
  }

  lemma {:induction false} TrimDotsIsPrefix(s: string)
    ensures TrimDots(s) <= s
    ensures forall i :: |TrimDots(s)| <= i < |s| ==> s[i] == '.'
    ensures |TrimDots(s)| > 0 ==> TrimDots(s)[|TrimDots(s)| - 1] != '.'
    ensures TrimDots(s) == s <==> (|s| > 0 ==> s[|s| - 1] != '.')
  {
    if |s| > 0 && s[|s| - 1] == '.' {
      TrimDotsIsPrefix(s[..|s| - 1]);
    }
  }

  lemma {:induction false} TrimShortens(s: string)
    ensures |TrimStart(s)| <= |s| && (|TrimStart(s)| == |s| ==> TrimStart(s) == s)
    ensures |TrimEnd(s)| <= |s| && (|TrimEnd(s)| == |s| ==> TrimEnd(s) == s)
  {
    if |s| > 0 {
      TrimShortens(s[1..]);
      TrimShortens(s[..|s| - 1]);
    }
  }

  /** Whatever the sender announces, the name is a safe component that does not end in a dot. */
  lemma SanitizedIsSafe(name: string)
    ensures var s := SanitizeFilename(name);
            SafeComponent(s) && s[|s| - 1] != '.'
  {
    hide IsForbidden, Trim, Scrub, TrimDots;
    var scrubbed := Scrub(Trim(name));
    ScrubIsClean(Trim(name));
    TrimDotsIsPrefix(scrubbed);
    assert forall c :: c in TrimDots(scrubbed) ==> c in scrubbed;
    FallbackIsKept();
  }

  /** Exactly the names that are already safe, with nothing to trim, are kept as they are. */
  lemma SanitizedIsSameIff(name: string)
    ensures SanitizeFilename(name) == name <==>
      SafeComponent(name) && Trim(name) == name && name[|name| - 1] != '.'
  {
    hide IsForbidden, TrimStart, TrimEnd, Scrub, TrimDots;
    var trimmed := Trim(name);
    ScrubIsClean(trimmed);
    TrimDotsIsPrefix(Scrub(trimmed));
    SanitizedIsSafe(name);
    TrimShortens(name);
    TrimShortens(TrimStart(name));
    FallbackIsKept();
    if SanitizeFilename(name) == name && name != FALLBACK_NAME {
      assert |name| == |TrimDots(Scrub(trimmed))| <= |trimmed| <= |name|;
      assert trimmed == name;
    }
  }

  /** What becomes of an announced name: the trimmed name is kept character by character, with an
      underscore for each forbidden one, up to the dots at its end; only a name that has nothing but
      dots is replaced. */
  lemma SanitizedCharacters(name: string)
    ensures var s, trimmed := SanitizeFilename(name), Trim(name);
            if forall c :: c in trimmed ==> c == '.' then s == FALLBACK_NAME
            else
              && 0 < |s| <= |trimmed| && s[|s| - 1] != '.'
              && (forall i :: 0 <= i < |s| ==> s[i] == if IsForbidden(trimmed[i]) then '_' else trimmed[i])
              && (forall i :: |s| <= i < |trimmed| ==> trimmed[i] == '.')
  {
    hide Trim, Scrub, TrimDots;
    var trimmed := Trim(name);
    var scrubbed := Scrub(trimmed);
    ScrubIsClean(trimmed);
    TrimDotsIsPrefix(scrubbed);
    forall i | 0 <= i < |trimmed| ensures scrubbed[i] == if IsForbidden(trimmed[i]) then '_' else trimmed[i] {
      ScrubAt(trimmed, i);
    }
    hide IsForbidden;
    DotIsAllowed();
    if forall c :: c in trimmed ==> c == '.' {
      assert forall i :: 0 <= i < |trimmed| ==> trimmed[i] in trimmed;
      DotsTrimAway(scrubbed);
    } else {
      var c :| c in trimmed && c != '.';
      var i :| 0 <= i < |trimmed| && trimmed[i] == c;
      assert scrubbed[i] != '.' && i < |TrimDots(scrubbed)|;
    }
  }

  lemma {:induction false} DotsTrimAway(s: string)
    requires forall i :: 0 <= i < |s| ==> s[i] == '.'
    ensures TrimDots(s) == ""
  {
    if |s| > 0 {
      DotsTrimAway(s[..|s| - 1]);
    }
  }

  lemma DotIsAllowed()
    ensures !IsForbidden('.')
  {}

  lemma FallbackIsKept()
    ensures SafeComponent(FALLBACK_NAME) && Trim(FALLBACK_NAME) == FALLBACK_NAME
  {
    var s := FALLBACK_NAME;
    assert s[0] == 'r' && s[|s| - 1] == 'e';
  }

  // Numbered names.

  function LastDot(s: string): (r: Option<nat>)
    ensures r.Some? ==> r.value < |s| && s[r.value] == '.' && '.' !in s[r.value + 1..]
    ensures r.None? ==> '.' !in s
  {
    if |s| == 0 then None
    else if s[|s| - 1] == '.' then Some(|s| - 1)
    else LastDot(s[..|s| - 1])
  }

  /** `Path::file_stem` and `Path::extension` of a single component. */
  function StemAndExtension(name: string): (string, Option<string>) {
    match LastDot(name)
    case None => (name, None)
    case Some(i) => if i == 0 || name == ".." then (name, None) else (name[..i], Some(name[i + 1..]))
  }

  /** An extension is what follows the last dot, if something precedes that dot. */
  lemma ExtensionIff(name: string, stem: string, extension: string)
    ensures StemAndExtension(name) == (stem, Some(extension)) <==>
      name == stem + "." + extension && '.' !in extension && stem != "" && name != ".."
  {
    if name == stem + "." + extension && '.' !in extension && stem != "" && name != ".." {
      assert name[|stem|] == '.' && name[|stem| + 1..] == extension && name[..|stem|] == stem;
    }
    if LastDot(name).Some? {
      var i := LastDot(name).value;
      assert name == name[..i] + [name[i]] + name[i + 1..];
    }
  }

  function Decimal(n: nat): string {
    (if n < 10 then "" else Decimal(n / 10)) + [('0' as int + n % 10) as char]
  }

  function Numbered(name: string, n: nat): string {
    var (stem, extension) := StemAndExtension(name);
    stem + " (" + Decimal(n) + ")" + (match extension case None => "" case Some(e) => "." + e)
  }

  function Fallback(name: string, suffix: Uuid): string {
    name + "-" + suffix
  }

  function FirstFree(entries: set<string>, name: string, suffix: Uuid, n: nat): string
    decreases MAX_NUMBERED - n
  {
    if n >= MAX_NUMBERED then Fallback(name, suffix)
    else if Numbered(name, n) !in entries then Numbered(name, n)
    else FirstFree(entries, name, suffix, n + 1)
  }

  function UniqueName(entries: set<string>, name: string, suffix: Uuid): string {
    if name !in entries then name else FirstFree(entries, name, suffix, 1)
  }

  method UniquePath(entries: set<string>, name: string, suffix: Uuid) returns (candidate: string)
    ensures candidate == UniqueName(entries, name, suffix)
  {
    if name !in entries {
      return name;
    }
    for n := 1 to MAX_NUMBERED
      invariant FirstFree(entries, name, suffix, 1) == FirstFree(entries, name, suffix, n)
    {
      candidate := Numbered(name, n);
      if candidate !in entries {
        return;
      }
    }
    candidate := Fallback(name, suffix);
  }

  function ReadDecimal(s: string): int {
    if |s| == 0 then 0 else ReadDecimal(s[..|s| - 1]) * 10 + (s[|s| - 1] as int - '0' as int)
  }

  /** Digits that read back as the number, without leading zeros. */
  lemma {:induction false} DecimalReads(n: nat)
    ensures ReadDecimal(Decimal(n)) == n
    ensures forall c :: c in Decimal(n) ==> '0' <= c <= '9'
    ensures |Decimal(n)| > 0 && (Decimal(n)[0] == '0' ==> n == 0)
  {
    var s := Decimal(n);
    assert s[..|s| - 1] == (if n < 10 then "" else Decimal(n / 10));
    if n >= 10 {
      DecimalReads(n / 10);
    }
  }

  /** A name and its parts: the rest is the extension with its dot, or empty. */
  ghost predicate SplitsInto(name: string, stem: string, rest: string) {
    && name == stem + rest
    && (if name != ".." && exists i :: 0 < i < |name| && name[i] == '.'
        then stem != "" && |rest| > 0 && rest[0] == '.' && '.' !in rest[1..] else rest == "")
  }

  lemma {:induction false} LastDotIsLast(s: string, i: nat)
    requires i < |s| && s[i] == '.'
    ensures LastDot(s).Some? && i <= LastDot(s).value
  {
    if s[|s| - 1] != '.' {
      LastDotIsLast(s[..|s| - 1], i);
    }
  }

  lemma DottedHasExtension(name: string, i: nat)
    requires 0 < i < |name| && name[i] == '.' && name != ".."
    ensures StemAndExtension(name).1.Some?
  {
    LastDotIsLast(name, i);
  }

  lemma Parts(name: string) returns (rest: string)
    ensures SplitsInto(name, StemAndExtension(name).0, rest)
    ensures rest == match StemAndExtension(name).1 case None => "" case Some(e) => "." + e
  {
    hide StemAndExtension;
    var (stem, extension) := StemAndExtension(name);
    if extension.Some? {
      rest := "." + extension.value;
      ExtensionIff(name, stem, extension.value);
      assert name == stem + rest && rest[1..] == extension.value && name[|stem|] == '.';
    } else {
      rest := "";
      NoExtension(name);
      forall i | 0 < i < |name| && name != ".." ensures name[i] != '.' {
        if name[i] == '.' {
          DottedHasExtension(name, i);
        }
      }
    }
  }

  lemma NoExtension(name: string)
    requires StemAndExtension(name).1.None?
    ensures StemAndExtension(name).0 == name == name + ""
  {}

  /** Where the number goes: before the extension, or at the end of a name that has none. */
  lemma NumberedAt(name: string, n: nat) returns (stem: string, rest: string)
    ensures SplitsInto(name, stem, rest) && Numbered(name, n) == stem + " (" + Decimal(n) + ")" + rest
  {
    stem := StemAndExtension(name).0;
    rest := Parts(name);
    hide StemAndExtension, Decimal, SplitsInto;
  }

  lemma NumberedInjective(name: string, m: nat, n: nat)
    requires Numbered(name, m) == Numbered(name, n)
    ensures m == n
  {
    hide Decimal, StemAndExtension;
    var (stem, extension) := StemAndExtension(name);
    var tail := ")" + (match extension case None => "" case Some(e) => "." + e);
    var head := stem + " (";
    Cancel(head, Decimal(m), Decimal(n), tail, Numbered(name, m), Numbered(name, n));
    DecimalReads(m);
    DecimalReads(n);
  }

  lemma Cancel(head: string, a: string, b: string, tail: string, s: string, t: string)
    requires s == head + a + tail && t == head + b + tail && s == t
    ensures a == b
  {
    assert |a| == |b|;
    assert a == s[|head|..|head| + |a|] && b == t[|head|..|head| + |b|];
  }

  lemma NumberedIsNew(name: string, n: nat)
    ensures |Numbered(name, n)| > |name|
  {
    hide Decimal;
    var (stem, extension) := StemAndExtension(name);
    assert |name| == |stem| + if extension.None? then 0 else 1 + |extension.value|;
  }

  /** The name itself and its numbered forms below `k`. */
  ghost function Candidates(name: string, k: nat): set<string> {
    if k == 0 then {}
    else if k == 1 then {name}
    else Candidates(name, k - 1) + {Numbered(name, k - 1)}
  }

  lemma {:induction false} CandidatesAre(name: string, k: nat)
    ensures forall s :: s in Candidates(name, k) ==> s == name || exists n :: 1 <= n < k && s == Numbered(name, n)
    ensures |Candidates(name, k)| == k
  {
    hide Numbered;
    if k > 1 {
      CandidatesAre(name, k - 1);
      NumberedIsNew(name, k - 1);
      if Numbered(name, k - 1) in Candidates(name, k - 1) {
        var n :| 1 <= n < k - 1 && Numbered(name, k - 1) == Numbered(name, n);
        NumberedInjective(name, k - 1, n);
      }
    }
  }

  lemma {:induction false} FirstFreeResult(entries: set<string>, name: string, suffix: Uuid, n: nat)
    requires 1 <= n <= MAX_NUMBERED && Candidates(name, n) <= entries
    ensures var r := FirstFree(entries, name, suffix, n);
            r !in entries || (r == Fallback(name, suffix) && Candidates(name, MAX_NUMBERED) <= entries)
    decreases MAX_NUMBERED - n
  {
    if n < MAX_NUMBERED && Numbered(name, n) in entries {
      assert Candidates(name, n + 1) == Candidates(name, n) + {Numbered(name, n)};
      FirstFreeResult(entries, name, suffix, n + 1);
    }
  }

  /** The chosen name is free unless ten thousand names are taken and the random fallback is too;
      a directory with fewer entries always has a free candidate. */
  lemma UniqueNameIsFree(entries: set<string>, name: string, suffix: Uuid)
    requires |entries| < MAX_NUMBERED || Fallback(name, suffix) !in entries
    ensures UniqueName(entries, name, suffix) !in entries
  {
    if name in entries {
      assert Candidates(name, 1) == {name};
      FirstFreeResult(entries, name, suffix, 1);
      if Candidates(name, MAX_NUMBERED) <= entries {
        CandidatesAre(name, MAX_NUMBERED);
        SubsetSize(Candidates(name, MAX_NUMBERED), entries);
      }
    }
  }

  /** The directory can only be too full when every candidate is taken. */
  lemma UniqueNameTakenIff(entries: set<string>, name: string, suffix: Uuid)
    ensures UniqueName(entries, name, suffix) in entries <==>
      Candidates(name, MAX_NUMBERED) <= entries && Fallback(name, suffix) in entries
  {
    assert Candidates(name, 1) == {name};
    if name in entries {
      FirstFreeResult(entries, name, suffix, 1);
      if Candidates(name, MAX_NUMBERED) <= entries {
        AllTaken(entries, name, suffix, 1);
      }
    } else {
      NameIsCandidate(name, MAX_NUMBERED);
    }
  }

  /** A taken name gets the smallest free number, or the fallback when no number is free. */
  lemma UniqueNameIsFirst(entries: set<string>, name: string, suffix: Uuid) returns (n: nat)
    requires name in entries
    ensures 1 <= n <= MAX_NUMBERED
    ensures forall m :: 1 <= m < n ==> Numbered(name, m) in entries
    ensures n < MAX_NUMBERED ==> Numbered(name, n) !in entries && UniqueName(entries, name, suffix) == Numbered(name, n)
    ensures n == MAX_NUMBERED ==> UniqueName(entries, name, suffix) == Fallback(name, suffix)
  {
    hide Numbered, Fallback;
    n := 1;
    while n < MAX_NUMBERED && Numbered(name, n) in entries
      invariant 1 <= n <= MAX_NUMBERED
      invariant forall m :: 1 <= m < n ==> Numbered(name, m) in entries
      invariant FirstFree(entries, name, suffix, 1) == FirstFree(entries, name, suffix, n)
    {
      n := n + 1;
    }
  }

  lemma {:induction false} NameIsCandidate(name: string, k: nat)
    requires k >= 1
    ensures name in Candidates(name, k)
    ensures forall n :: 1 <= n < k ==> Numbered(name, n) in Candidates(name, k)
  {
    hide Numbered;
    if k > 1 {
      NameIsCandidate(name, k - 1);
    }
  }

  lemma {:induction false} AllTaken(entries: set<string>, name: string, suffix: Uuid, n: nat)
    requires 1 <= n <= MAX_NUMBERED && Candidates(name, MAX_NUMBERED) <= entries
    ensures FirstFree(entries, name, suffix, n) == Fallback(name, suffix)
    decreases MAX_NUMBERED - n
  {
    hide Numbered;
    NameIsCandidate(name, MAX_NUMBERED);
    if n < MAX_NUMBERED {
      AllTaken(entries, name, suffix, n + 1);
    }
  }

  /** Numbering keeps a safe component safe. */
  lemma UniqueNameIsSafe(entries: set<string>, name: string, suffix: Uuid)
    requires SafeComponent(name) && forall c :: c in suffix ==> !IsForbidden(c)
    ensures SafeComponent(UniqueName(entries, name, suffix))
  {
    if name in entries {
      FirstFreeIsSafe(entries, name, suffix, 1);
    }
  }

  lemma {:induction false} FirstFreeIsSafe(entries: set<string>, name: string, suffix: Uuid, n: nat)
    requires SafeComponent(name) && forall c :: c in suffix ==> !IsForbidden(c)
    ensures SafeComponent(FirstFree(entries, name, suffix, n))
    decreases MAX_NUMBERED - n
  {
    hide Numbered;
    if n >= MAX_NUMBERED {
      assert |Fallback(name, suffix)| > |name|;
      assert '-' in Fallback(name, suffix);
    } else if Numbered(name, n) !in entries {
      NumberedIsSafe(name, n);
    } else {
      FirstFreeIsSafe(entries, name, suffix, n + 1);
    }
  }

  lemma NumberedIsSafe(name: string, n: nat)
    requires SafeComponent(name)
    ensures SafeComponent(Numbered(name, n))
  {
    DecimalReads(n);
    hide Decimal, IsForbidden;
    var (stem, extension) := StemAndExtension(name);
    assert forall c :: c in stem ==> c in name;
    assert extension.Some? ==> forall c :: c in extension.value ==> c in name;
    var s := Numbered(name, n);
    PunctuationIsAllowed();
    assert ')' in s;
  }

  lemma PunctuationIsAllowed()
    ensures !IsForbidden(' ') && !IsForbidden('(') && !IsForbidden(')') && !IsForbidden('.')
    ensures forall c :: '0' <= c <= '9' ==> !IsForbidden(c)
  {}

  // The name a transfer ends up with.

  /** A name that is kept as it is announced. */
  ghost predicate PlainName(name: string) {
    SafeComponent(name) && Trim(name) == name && name[|name| - 1] != '.'
  }

  /** The announced name as it may be used, if it is free; else its smallest free number; else, all
      numbers being taken, the random form. */
  ghost predicate NamedFor(final: string, announced: string, entries: set<string>, suffix: Uuid) {
    var clean := SanitizeFilename(announced);
    if clean !in entries then final == clean
    else
      || (exists n :: 1 <= n < MAX_NUMBERED && final == Numbered(clean, n) && Numbered(clean, n) !in entries
                      && forall m :: 1 <= m < n ==> Numbered(clean, m) in entries)
      || (final == Fallback(clean, suffix) && forall m :: 1 <= m < MAX_NUMBERED ==> Numbered(clean, m) in entries)
  }

  /** The name chosen for an announced one, and the plain case: a plain name that is free is kept. */
  lemma ChosenName(announced: string, entries: set<string>, suffix: Uuid)
    ensures NamedFor(UniqueName(entries, SanitizeFilename(announced), suffix), announced, entries, suffix)
    ensures PlainName(announced) && announced !in entries ==>
      UniqueName(entries, SanitizeFilename(announced), suffix) == announced
  {
    hide SanitizeFilename, Numbered, Fallback, FirstFree, Trim, SafeComponent;
    SanitizedIsSameIff(announced);
    var clean := SanitizeFilename(announced);
    if clean in entries {
      var n := UniqueNameIsFirst(entries, clean, suffix);
    }
  }
}
