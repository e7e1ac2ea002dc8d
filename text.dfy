/** The string helpers the cleaners and parsers share: Python's whitespace class,
    `str.strip`, `re.sub(r'\s+', ' ', s)`, `str.replace(p, '')`, `str.split` and
    `str.join`, written out on `seq<char>`. */
module Text {

  /** Python's `str.isspace()`, which is also the set `\s` matches in a str pattern. */
  predicate IsSpace(c: char) {
    var n := c as int;
    n == 32 || 9 <= n <= 13 || 28 <= n <= 31 || n == 0x85 || n == 0xA0 || n == 0x1680
    || 0x2000 <= n <= 0x200A || n == 0x2028 || n == 0x2029 || n == 0x202F || n == 0x205F
    || n == 0x3000
  }

  /** `\d`, restricted to the ASCII digits. */
  predicate IsDigit(c: char) {
    '0' <= c <= '9'
  }

  /** The character class `[:\s]` of the tax-code patterns. */
  predicate IsColonOrSpace(c: char) {
    c == ':' || IsSpace(c)
  }

  predicate StartsWith(s: string, p: string) {
    |p| <= |s| && s[..|p|] == p
  }

  predicate Contains(s: string, p: string)
    decreases |s|
  {
    StartsWith(s, p) || (s != [] && Contains(s[1..], p))
  }

  lemma {:induction false} ContainsFits(s: string, p: string)
    ensures Contains(s, p) ==> |p| <= |s|
    decreases |s|
  {
    if s != [] {
      ContainsFits(s[1..], p);
    }
  }

  /** The number of leading characters of `s` that belong to a class; a greedy
      `[class]*` at the start of `s` consumes exactly these. */
  function LeadingRun(s: string, inClass: char -> bool): (n: nat)
    ensures n <= |s|
    ensures n == |s| || !inClass(s[n])
  {
    if s != [] && inClass(s[0]) then 1 + LeadingRun(s[1..], inClass) else 0
  }

  /** Every character the leading run counts is in the class. */
  lemma {:induction false} LeadingRunInClass(s: string, inClass: char -> bool, i: nat)
    requires i < LeadingRun(s, inClass)
    ensures inClass(s[i])
  {
    if i > 0 {
      LeadingRunInClass(s[1..], inClass, i - 1);
    }
  }

  /** The number of trailing characters of `s` that belong to a class. */
  function TrailingRun(s: string, inClass: char -> bool): (n: nat)
    ensures n <= |s|
    ensures n == |s| || !inClass(s[|s| - n - 1])
  {
    if s != [] && inClass(s[|s| - 1]) then 1 + TrailingRun(s[..|s| - 1], inClass) else 0
  }

  /** The non-whitespace characters of `s`, in order. */
  function Ink(s: string): string
  {
    if s == [] then [] else (if IsSpace(s[0]) then [] else [s[0]]) + Ink(s[1..])
  }

  lemma {:induction false} InkConcat(a: string, b: string)
    ensures Ink(a + b) == Ink(a) + Ink(b)
  {
    if a != [] {
      var h: string := if IsSpace(a[0]) then [] else [a[0]];
      assert (a + b)[0] == a[0];
      assert (a + b)[1..] == a[1..] + b;
      InkConcat(a[1..], b);
      calc {
        Ink(a + b);
        h + Ink(a[1..] + b);
        h + (Ink(a[1..]) + Ink(b));
        (h + Ink(a[1..])) + Ink(b);
        Ink(a) + Ink(b);
      }
    } else {
      assert a + b == b;
    }
  }

  /** `Ink` of a string of whitespace only is empty. */
  lemma {:induction false} InkOfSpaces(s: string)
    requires forall i :: 0 <= i < |s| ==> IsSpace(s[i])
    ensures Ink(s) == []
  {
    if s != [] {
      InkOfSpaces(s[1..]);
    }
  }

  /** `s.lstrip()` */
  function LStrip(s: string): (r: string)
    ensures |r| <= |s|
    ensures r == [] || !IsSpace(r[0])
  {
    if s != [] && IsSpace(s[0]) then LStrip(s[1..]) else s
  }

  /** What `lstrip` removes is whitespace. */
  lemma {:induction false} LStripRemovesSpaces(s: string)
    ensures forall i :: 0 <= i < |s| - |LStrip(s)| ==> IsSpace(s[i])
  {
    if s != [] && IsSpace(s[0]) {
      LStripRemovesSpaces(s[1..]);
      assert forall i :: 1 <= i < |s| - |LStrip(s)| ==> s[i] == s[1..][i - 1];
    }
  }

  /** `s.rstrip()` */
  function RStrip(s: string): (r: string)
    ensures |r| <= |s|
    ensures r == [] || !IsSpace(r[|r| - 1])
    ensures r != [] ==> r[0] == s[0]
  {
    if s != [] && IsSpace(s[|s| - 1]) then RStrip(s[..|s| - 1]) else s
  }

  /** What `rstrip` removes is whitespace. */
  lemma {:induction false} RStripRemovesSpaces(s: string)
    ensures forall i :: |RStrip(s)| <= i < |s| ==> IsSpace(s[i])
  {
    if s != [] && IsSpace(s[|s| - 1]) {
      RStripRemovesSpaces(s[..|s| - 1]);
    }
  }

  predicate Trimmed(s: string) {
    s == [] || (!IsSpace(s[0]) && !IsSpace(s[|s| - 1]))
  }

  /** `s.strip()`: the longest piece of `s` that neither starts nor ends with
      whitespace, obtained by removing whitespace only. */
  function Strip(s: string): (r: string)
    ensures |r| <= |s| && Trimmed(r)
    ensures Trimmed(s) ==> r == s
  {
    RStrip(LStrip(s))
  }

  /** Stripping removes whitespace only. */
  lemma StripInk(s: string)
    ensures Ink(Strip(s)) == Ink(s)
  {
    LStripInk(s);
    RStripInk(LStrip(s));
  }

  lemma {:induction false} LStripInk(s: string)
    ensures Ink(LStrip(s)) == Ink(s)
  {
    if s != [] && IsSpace(s[0]) {
      LStripInk(s[1..]);
    }
  }

  lemma {:induction false} RStripInk(s: string)
    ensures Ink(RStrip(s)) == Ink(s)
  {
    if s != [] && IsSpace(s[|s| - 1]) {
      var init := s[..|s| - 1];
      RStripInk(init);
      assert s == init + [s[|s| - 1]];
      InkConcat(init, [s[|s| - 1]]);
      assert Ink([s[|s| - 1]]) == [];
    }
  }

  /** No whitespace other than ' ', and never two whitespace characters in a row. */
  predicate SingleSpaced(s: string) {
    s == [] ||
    ((IsSpace(s[0]) ==> s[0] == ' ' && (|s| == 1 || !IsSpace(s[1]))) && SingleSpaced(s[1..]))
  }

  lemma {:induction false} SingleSpacedPrefix(s: string, k: nat)
    requires SingleSpaced(s) && k <= |s|
    ensures SingleSpaced(s[..k])
  {
    if k > 0 {
      SingleSpacedPrefix(s[1..], k - 1);
      assert s[..k][1..] == s[1..][..k - 1];
    }
  }

  /** `re.sub(r'\s+', ' ', s)`: every maximal run of whitespace becomes one ' '. */
  function CollapseSpaces(s: string): (r: string)
    ensures |r| <= |s|
    ensures r == [] <==> s == []
    ensures s != [] ==> (IsSpace(r[0]) <==> IsSpace(s[0]))
    ensures SingleSpaced(r)
    decreases |s|
  {
    if s == [] then []
    else if IsSpace(s[0]) then " " + CollapseSpaces(LStrip(s))
    else [s[0]] + CollapseSpaces(s[1..])
  }

  /** Collapsing whitespace keeps every other character, in order. */
  lemma {:induction false} CollapseInk(s: string)
    ensures Ink(CollapseSpaces(s)) == Ink(s)
    decreases |s|
  {
    if s != [] {
      if IsSpace(s[0]) {
        LStripInk(s);
        CollapseInk(LStrip(s));
        InkConcat(" ", CollapseSpaces(LStrip(s)));
        assert Ink(" ") == [];
      } else {
        CollapseInk(s[1..]);
        InkConcat([s[0]], CollapseSpaces(s[1..]));
        assert Ink([s[0]]) == [s[0]];
      }
    }
  }

  /** A string that whitespace normalisation leaves unchanged. */
  predicate Normal(s: string) {
    SingleSpaced(s) && Trimmed(s)
  }

  /** `re.sub(r'\s+', ' ', s).strip()` */
  function Normalize(s: string): (r: string)
    ensures Normal(r)
    ensures |r| <= |s|
  {
    var c := CollapseSpaces(s);
    var r := Strip(c);
    StripKeepsSingleSpaced(c);
    r
  }

  /** Normalisation removes and merges whitespace only. */
  lemma NormalizeInk(s: string)
    ensures Ink(Normalize(s)) == Ink(s)
  {
    CollapseInk(s);
    StripInk(CollapseSpaces(s));
  }

  lemma {:induction false} StripKeepsSingleSpaced(s: string)
    requires SingleSpaced(s)
    ensures SingleSpaced(Strip(s))
  {
    LStripKeepsSingleSpaced(s);
    RStripKeepsSingleSpaced(LStrip(s));
  }

  lemma {:induction false} LStripKeepsSingleSpaced(s: string)
    requires SingleSpaced(s)
    ensures SingleSpaced(LStrip(s))
  {
    if s != [] && IsSpace(s[0]) {
      LStripKeepsSingleSpaced(s[1..]);
    }
  }

  lemma {:induction false} RStripKeepsSingleSpaced(s: string)
    requires SingleSpaced(s)
    ensures SingleSpaced(RStrip(s))
  {
    if s != [] && IsSpace(s[|s| - 1]) {
      SingleSpacedPrefix(s, |s| - 1);
      RStripKeepsSingleSpaced(s[..|s| - 1]);
    }
  }

  /** Whitespace normalisation is the identity on normal strings, hence idempotent. */
  lemma {:induction false} CollapseNormalIdentity(s: string)
    requires SingleSpaced(s)
    requires s == [] || !IsSpace(s[0])
    ensures CollapseSpaces(s) == s
    decreases |s|
  {
    if s != [] {
      if |s| >= 2 && IsSpace(s[1]) {
        assert s[1] == ' ';
        var t := s[1..];
        assert t[1..] == s[2..];
        assert |s| == 2 || !IsSpace(s[2]);
        assert LStrip(t) == t[1..];
        CollapseNormalIdentity(s[2..]);
        assert CollapseSpaces(t) == " " + s[2..];
      } else {
        CollapseNormalIdentity(s[1..]);
      }
    }
  }

  lemma NormalizeNormalIdentity(s: string)
    requires Normal(s)
    ensures Normalize(s) == s
  {
    CollapseNormalIdentity(s);
  }

  lemma NormalizeIdempotent(s: string)
    ensures Normalize(Normalize(s)) == Normalize(s)
  {
    NormalizeNormalIdentity(Normalize(s));
  }

  /** `s.replace(p, '')`: occurrences of `p` removed left to right, without overlap. */
  function RemoveAll(s: string, p: string): (r: string)
    requires |p| > 0
    ensures |r| <= |s|
    ensures !Contains(s, p) ==> r == s
    ensures Contains(s, p) ==> |r| < |s|
    decreases |s|
  {
    if |s| < |p| then
      ContainsFits(s, p);
      s
    else if s[..|p|] == p then RemoveAll(s[|p|..], p)
    else [s[0]] + RemoveAll(s[1..], p)
  }

  function IndexOf(s: string, c: char): (i: nat)
    requires c in s
    ensures i < |s| && s[i] == c && c !in s[..i]
  {
    if s[0] == c then 0 else 1 + IndexOf(s[1..], c)
  }

  /** The position of the first `c` in `s`, or `|s|` when there is none. */
  function Find(s: string, c: char): (i: nat)
    ensures i <= |s| && (i < |s| ==> s[i] == c)
  {
    if s == [] then 0 else if s[0] == c then 0 else 1 + Find(s[1..], c)
  }

  lemma {:induction false} FindMissing(s: string, c: char)
    ensures Find(s, c) == |s| <==> c !in s
  {
    if s != [] && s[0] != c {
      FindMissing(s[1..], c);
      assert c in s <==> c in s[1..];
    }
  }

  lemma {:induction false} FindFirst(a: string, c: char, b: string)
    requires c !in a
    ensures Find(a + [c] + b, c) == |a|
  {
    if a != [] {
      assert (a + [c] + b)[1..] == a[1..] + [c] + b;
      FindFirst(a[1..], c, b);
    }
  }

  function LastIndexOf(s: string, c: char): (i: nat)
    requires c in s
    ensures i < |s| && s[i] == c && c !in s[i + 1..]
  {
    if s[|s| - 1] == c then |s| - 1 else LastIndexOf(s[..|s| - 1], c)
  }

  /** `sep.join(parts)` */
  function Join(parts: seq<string>, sep: string): string
  {
    if parts == [] then ""
    else if |parts| == 1 then parts[0]
    else parts[0] + sep + Join(parts[1..], sep)
  }

  /** `s.split(sep)` for a one-character separator; joined back it is `s` again. */
  function Split(s: string, sep: char): (parts: seq<string>)
    ensures |parts| >= 1
    ensures forall k :: 0 <= k < |parts| ==> sep !in parts[k]
    ensures Join(parts, [sep]) == s
    decreases |s|
  {
    if sep !in s then [s]
    else
      var i := IndexOf(s, sep);
      assert s == s[..i] + [sep] + s[i + 1..];
      [s[..i]] + Split(s[i + 1..], sep)
  }
  /** A piece of `s` with an occurrence of `p` means `s` has one. */
  lemma {:induction false} ContainsInSuffix(s: string, i: nat, p: string)
    requires i <= |s| && Contains(s[i..], p)
    ensures Contains(s, p)
  {
    if i > 0 {
      assert s[i..] == s[1..][i - 1..];
      ContainsInSuffix(s[1..], i - 1, p);
    }
  }

  lemma {:induction false} ContainsInPrefix(s: string, j: nat, p: string)
    requires j <= |s| && Contains(s[..j], p)
    ensures Contains(s, p)
  {
    if StartsWith(s[..j], p) {
      assert s[..j][..|p|] == s[..|p|];
    } else {
      assert s[..j][1..] == s[1..][..j - 1];
      ContainsInPrefix(s[1..], j - 1, p);
    }
  }

  /** `lstrip` keeps a suffix, `rstrip` a prefix. */
  lemma {:induction false} LStripIsSuffix(s: string)
    ensures LStrip(s) == s[|s| - |LStrip(s)|..]
  {
    if s != [] && IsSpace(s[0]) {
      LStripIsSuffix(s[1..]);
    }
  }

  lemma {:induction false} RStripIsPrefix(s: string)
    ensures RStrip(s) == s[..|RStrip(s)|]
  {
    if s != [] && IsSpace(s[|s| - 1]) {
      RStripIsPrefix(s[..|s| - 1]);
    }
  }

  /** Stripping cannot create an occurrence of a pattern. */
  lemma {:induction false} StripKeepsOut(s: string, p: string)
    requires !Contains(s, p)
    ensures !Contains(Strip(s), p)
  {
    var l := LStrip(s);
    LStripIsSuffix(s);
    RStripIsPrefix(l);
    if Contains(Strip(s), p) {
      ContainsInPrefix(l, |RStrip(l)|, p);
      ContainsInSuffix(s, |s| - |l|, p);
    }
  }

  /** Removing `p` leaves a piece of text in front without the first
      character of `p` alone. */
  lemma {:induction false} RemoveAllKeepsHead(a: string, b: string, p: string)
    requires |p| > 0 && p[0] !in a
    ensures RemoveAll(a + b, p) == a + RemoveAll(b, p)
  {
    if a != [] {
      if |a + b| < |p| {
        assert RemoveAll(b, p) == b;
      } else {
        assert (a + b)[..|p|][0] == a[0];
        assert (a + b)[1..] == a[1..] + b;
        RemoveAllKeepsHead(a[1..], b, p);
        assert a == [a[0]] + a[1..];
      }
    } else {
      assert a + b == b;
    }
  }

  /** An occurrence at the front is removed. */
  lemma {:induction false} RemoveAllFront(b: string, p: string)
    requires |p| > 0
    ensures RemoveAll(p + b, p) == RemoveAll(b, p)
  {
    assert (p + b)[..|p|] == p;
    assert (p + b)[|p|..] == b;
  }
}
