/** The item-name cleaners: a chain of anchored prefix removals (tax codes, the
    tax-exempt marker, the trade-markup marker), quote removal at both ends, and
    whitespace normalisation. parser.py removes at most one quote at each end;
    the LLM-based cleaners remove whole runs of quotes. */
module ItemNames {
  import opened Wrappers
  import opened Text

  const Vat: string := "ƏDV"
  const VatExempt: string := "ƏDV-dən"
  const Azad: string := "azad"
  const Trade: string := "Ticarət"
  const Markup: string := "əlavəsi"

  /** The class `["']`. */
  predicate IsQuote(c: char) {
    c == '"' || c == '\''
  }

  /** `s` with the leading run of a character class removed. */
  function DropRun(s: string, inClass: char -> bool): (r: string)
    ensures |r| <= |s|
    ensures r == [] || !inClass(r[0])
  {
    s[LeadingRun(s, inClass)..]
  }

  /** A greedy run that stops in front of a character outside the class. */
  lemma {:induction false} LeadingRunConcat(a: string, b: string, inClass: char -> bool)
    requires forall i :: 0 <= i < |a| ==> inClass(a[i])
    requires b == [] || !inClass(b[0])
    ensures LeadingRun(a + b, inClass) == |a|
  {
    if a != [] {
      assert (a + b)[1..] == a[1..] + b;
      LeadingRunConcat(a[1..], b, inClass);
    } else {
      assert a + b == b;
    }
  }

  lemma {:induction false} DropRunConcat(a: string, b: string, inClass: char -> bool)
    requires forall i :: 0 <= i < |a| ==> inClass(a[i])
    requires b == [] || !inClass(b[0])
    ensures DropRun(a + b, inClass) == b
  {
    LeadingRunConcat(a, b, inClass);
    assert (a + b)[|a|..] == b;
  }

  /** `re.sub(r'^M?ƏDV[:\s]*\d+[:\s]*', '', s)` with `M` the optional marker
      character ('v' in the first pattern, '"' in the second). */
  function StripVatCode(s: string, marker: char): (r: string)
    requires marker != 'Ə'
    ensures |r| <= |s|
  {
    var k := VatPrefix(s, marker);
    if k == 0 then s
    else
      match AfterCode(s[k..])
      case None => s
      case Some(rest) => rest
  }

  /** The length of `M?ƏDV` at the start of `s`, or 0 when it is not there. */
  function VatPrefix(s: string, marker: char): (k: nat)
    ensures k <= |s|
  {
    if StartsWith(s, [marker] + Vat) then 4 else if StartsWith(s, Vat) then 3 else 0
  }

  /** `[:\s]*\d+[:\s]*` at the start of `t`: what follows, or `None` when there
      is no digit. */
  function AfterCode(t: string): (r: Option<string>)
    ensures r.Some? ==> |r.value| < |t|
  {
    var rest := DropRun(t, IsColonOrSpace);
    var d := LeadingRun(rest, IsDigit);
    if d == 0 then None else Some(DropRun(rest[d..], IsColonOrSpace))
  }

  /** `^W1\s+W2` at the start of `s`: what follows, or `None` when it is not
      there. */
  function AfterWords(s: string, w1: string, w2: string): (r: Option<string>)
    ensures r.Some? ==> |r.value| < |s|
  {
    if !StartsWith(s, w1) then None
    else
      var rest := s[|w1|..];
      var a := LeadingRun(rest, IsSpace);
      if a == 0 || !StartsWith(rest[a..], w2) then None
      else Some(rest[a + |w2|..])
  }

  /** `re.sub(r'^ƏDV-dən\s+azad\s+', '', s)` */
  function StripVatExempt(s: string): (r: string)
    ensures |r| <= |s|
  {
    match AfterWords(s, VatExempt, Azad)
    case None => s
    case Some(tail) => if LeadingRun(tail, IsSpace) == 0 then s else DropRun(tail, IsSpace)
  }

  /** `re.sub(r'^Ticarət\s+əlavəsi[:\s]*\d*\s*', '', s)` */
  function StripTradeMarkup(s: string): (r: string)
    ensures |r| <= |s|
  {
    match AfterWords(s, Trade, Markup)
    case None => s
    case Some(tail) => AfterMarkup(tail)
  }

  /** `[:\s]*\d*\s*` at the start of `t` removed. */
  function AfterMarkup(t: string): (r: string)
    ensures |r| <= |t|
  {
    DropRun(DropRun(DropRun(t, IsColonOrSpace), IsDigit), IsSpace)
  }

  /** Where a pattern's `$` first matches: before a final newline, or at the end. */
  function EndAnchor(s: string): (e: nat)
    ensures e <= |s|
  {
    if s != [] && s[|s| - 1] == '\n' then |s| - 1 else |s|
  }

  /** `re.sub(r'^["\']|["\']$', '', s)`: one quote at the start and one quote at
      the end (in front of a final newline) are removed. */
  function StripOneQuote(s: string): (r: string)
    ensures |r| <= |s|
  {
    var l := if s != [] && IsQuote(s[0]) then 1 else 0;
    var e := EndAnchor(s);
    if e >= l + 1 && IsQuote(s[e - 1]) then s[l..e - 1] + s[e..] else s[l..]
  }

  /** `re.sub(r'^["\']+|["\']+$', '', s)`: the run of quotes at the start and the
      run at the end (in front of a final newline) are removed. */
  function StripQuoteRuns(s: string): (r: string)
    ensures |r| <= |s|
  {
    var l := LeadingRun(s, IsQuote);
    var e := EndAnchor(s);
    var t := TrailingRun(s[..e], IsQuote);
    if t > 0 && e - t >= l then s[l..e - t] + s[e..] else s[l..]
  }

  /** The prefix removals both cleaners share, in the order the patterns run. */
  function StripPrefixes(s: string): (r: string)
    ensures |r| <= |s|
  {
    StripTradeMarkup(StripVatExempt(StripVatCode(StripVatCode(s, 'v'), '"')))
  }

  /** `clean_item_name` of parser.py. */
  function CleanItemName(name: string): (r: string)
    ensures |r| <= |name|
    ensures Normal(r)
  {
    if name == [] then [] else Normalize(StripOneQuote(StripPrefixes(name)))
  }

  /** The name cleaning inside the LLM-based validators. */
  function CleanItemNameAi(name: string): (r: string)
    ensures |r| <= |name|
    ensures Normal(r)
  {
    Normalize(StripQuoteRuns(StripPrefixes(name)))
  }

  /** None of the prefix patterns matches at the start of `x`. */
  predicate NoPrefix(x: string) {
    StripVatCode(x, 'v') == x && StripVatCode(x, '"') == x
    && StripVatExempt(x) == x && StripTradeMarkup(x) == x
  }

  /** A cleaned name none of the removals touches: normal, not empty, with no
      quote at either end, and no prefix pattern matching at its start. */
  predicate Plain(x: string) {
    Normal(x) && x != [] && !IsQuote(x[0]) && !IsQuote(x[|x| - 1]) && NoPrefix(x)
  }

  /** The first character of a plain name is no whitespace. */
  lemma {:induction false} PlainHead(x: string)
    requires Plain(x)
    ensures x != [] && !IsSpace(x[0])
  {
  }

  lemma {:induction false} PlainUntouched(x: string)
    requires Plain(x)
    ensures StripPrefixes(x) == x
    ensures StripOneQuote(x) == x
    ensures StripQuoteRuns(x) == x
    ensures Normalize(x) == x
  {
    NoQuoteAt(x);
    NormalizeNormalIdentity(x);
  }

  /** None of the prefix patterns matches a name whose first character is not
      the first character of any of them, so names such as "Süd" or "Çörək"
      have no prefix. */
  lemma {:induction false} NoPrefixAt(x: string)
    requires x != [] && x[0] != 'Ə' && x[0] != 'T' && x[0] != 'v' && x[0] != '"'
    ensures NoPrefix(x)
    ensures StripPrefixes(x) == x
  {
    StartsWithHead(x, ['v'] + Vat);
    StartsWithHead(x, ['"'] + Vat);
    StartsWithHead(x, Vat);
    StartsWithHead(x, VatExempt);
    StartsWithHead(x, Trade);
  }

  /** Names that start like a prefix but are not one, such as "Tort" and
      "Ət", have no prefix either. */
  lemma {:induction false} LookalikesHaveNoPrefix()
    ensures NoPrefix("Tort") && NoPrefix("Ət")
  {
    var t := "Tort";
    NoPrefixAtTrade(t);
    assert !StartsWith(t, Trade) by {
      assert |t| < |Trade|;
    }
    var e := "Ət";
    StartsWithHead(e, ['v'] + Vat);
    StartsWithHead(e, ['"'] + Vat);
    StartsWithHead(e, Trade);
    assert !StartsWith(e, Vat) && !StartsWith(e, VatExempt) by {
      assert |e| < |Vat| <= |VatExempt|;
    }
  }

  lemma {:induction false} StartsWithHead(s: string, p: string)
    requires s != [] && p != [] && s[0] != p[0]
    ensures !StartsWith(s, p)
  {
  }

  /** Neither quote pattern matches a name that neither starts nor ends with a
      quote or whitespace. */
  lemma {:induction false} NoQuoteAt(x: string)
    requires x != [] && !IsQuote(x[0]) && !IsQuote(x[|x| - 1]) && !IsSpace(x[|x| - 1])
    ensures StripOneQuote(x) == x
    ensures StripQuoteRuns(x) == x
  {
    assert EndAnchor(x) == |x|;
    assert x[..|x|] == x;
    assert LeadingRun(x, IsQuote) == 0;
    assert TrailingRun(x, IsQuote) == 0;
  }

  /** Both cleaners leave a plain name as it is. */
  lemma {:induction false} CleanPlain(x: string)
    requires Plain(x)
    ensures CleanItemName(x) == x && CleanItemNameAi(x) == x
  {
    PlainUntouched(x);
  }

  /** A name whose prefixes come off to leave a plain name cleans to that name. */
  lemma {:induction false} CleanAfterPrefixes(s: string, x: string)
    requires Plain(x) && s != [] && StripPrefixes(s) == x
    ensures CleanItemName(s) == x && CleanItemNameAi(s) == x
  {
    PlainUntouched(x);
  }

  lemma {:induction false} VatPrefixOf(marker: char, useMarker: bool, t: string)
    requires marker != 'Ə'
    ensures VatPrefix((if useMarker then [marker] else []) + Vat + t, marker) == if useMarker then 4 else 3
  {
    var s := (if useMarker then [marker] else []) + Vat + t;
    if useMarker {
      assert s[..4] == [marker] + Vat;
    } else {
      assert s[..3] == Vat;
      assert s[0] == 'Ə';
    }
  }

  lemma {:induction false} AfterCodeOf(sep: string, code: string, sep2: string, x: string)
    requires forall i :: 0 <= i < |sep| ==> IsColonOrSpace(sep[i])
    requires code != [] && forall i :: 0 <= i < |code| ==> IsDigit(code[i])
    requires forall i :: 0 <= i < |sep2| ==> IsColonOrSpace(sep2[i])
    requires sep2 != [] || x == [] || !IsDigit(x[0])
    requires x == [] || !IsColonOrSpace(x[0])
    ensures AfterCode(sep + code + sep2 + x) == Some(x)
  {
    var rest := code + (sep2 + x);
    assert sep + code + sep2 + x == sep + rest;
    DropRunConcat(sep, rest, IsColonOrSpace);
    assert (sep2 + x) == [] || !IsDigit((sep2 + x)[0]);
    LeadingRunConcat(code, sep2 + x, IsDigit);
    assert rest[|code|..] == sep2 + x;
    DropRunConcat(sep2, x, IsColonOrSpace);
  }

  /** `ƏDV` then separators, a tax code and separators, in front of `x`. */
  lemma {:induction false} StripVatCodeOf(marker: char, useMarker: bool, sep: string, code: string, sep2: string, x: string)
    requires marker != 'Ə'
    requires forall i :: 0 <= i < |sep| ==> IsColonOrSpace(sep[i])
    requires code != [] && forall i :: 0 <= i < |code| ==> IsDigit(code[i])
    requires forall i :: 0 <= i < |sep2| ==> IsColonOrSpace(sep2[i])
    requires sep2 != [] || x == [] || !IsDigit(x[0])
    requires x == [] || !IsColonOrSpace(x[0])
    ensures StripVatCode((if useMarker then [marker] else []) + Vat + sep + code + sep2 + x, marker) == x
  {
    var m: string := if useMarker then [marker] else [];
    var t := sep + code + sep2 + x;
    var s := m + Vat + t;
    assert s == m + Vat + sep + code + sep2 + x;
    VatPrefixOf(marker, useMarker, t);
    assert s[|m| + 3..] == t;
    AfterCodeOf(sep, code, sep2, x);
  }

  /** The five prefixes the cleaners exist for are removed: "ƏDV: 189: X",
      "vƏDV: 189: X", "\"ƏDV: 189: X", "ƏDV-dən azad X" and "Ticarət əlavəsi: 5 X"
      all clean to "X", for every plain name X, one starting with a digit,
      'T', 'v' or 'Ə' included; after a tax code X must not start with ':',
      which the separator run `[:\s]*` would take. */
  lemma {:induction false} CleanVatCode(x: string)
    requires Plain(x) && x[0] != ':'
    ensures CleanItemName("ƏDV: 189: " + x) == x
    ensures CleanItemNameAi("ƏDV: 189: " + x) == x
  {
    var s := "ƏDV: 189: " + x;
    PlainHead(x);
    assert s == [] + Vat + ": " + "189" + ": " + x;
    StripVatCodeOf('v', false, ": ", "189", ": ", x);
    CleanAfterPrefixes(s, x);
  }

  lemma {:induction false} CleanMarkedVatCode(x: string)
    requires Plain(x) && x[0] != ':'
    ensures CleanItemName("vƏDV: 189: " + x) == x
    ensures CleanItemNameAi("vƏDV: 189: " + x) == x
  {
    var s := "vƏDV: 189: " + x;
    PlainHead(x);
    assert s == ['v'] + Vat + ": " + "189" + ": " + x;
    StripVatCodeOf('v', true, ": ", "189", ": ", x);
    CleanAfterPrefixes(s, x);
  }

  lemma {:induction false} CleanQuotedVatCode(x: string)
    requires Plain(x) && x[0] != ':'
    ensures CleanItemName("\"ƏDV: 189: " + x) == x
    ensures CleanItemNameAi("\"ƏDV: 189: " + x) == x
  {
    var s := "\"ƏDV: 189: " + x;
    PlainHead(x);
    assert StripVatCode(s, 'v') == s by {
      assert s[0] == '"';
      assert VatPrefix(s, 'v') == 0;
    }
    assert s == ['"'] + Vat + ": " + "189" + ": " + x;
    StripVatCodeOf('"', true, ": ", "189", ": ", x);
    CleanAfterPrefixes(s, x);
  }

  /** `W1`, a run of whitespace and `W2` in front of `t`. */
  lemma {:induction false} AfterWordsOf(w1: string, sp: string, w2: string, t: string)
    requires sp != [] && forall i :: 0 <= i < |sp| ==> IsSpace(sp[i])
    requires w2 != [] && !IsSpace(w2[0])
    ensures AfterWords(w1 + sp + w2 + t, w1, w2) == Some(t)
  {
    var s := w1 + sp + w2 + t;
    assert s[..|w1|] == w1;
    var rest := s[|w1|..];
    assert rest == sp + (w2 + t);
    LeadingRunConcat(sp, w2 + t, IsSpace);
    assert rest[|sp|..] == w2 + t;
    assert (w2 + t)[..|w2|] == w2;
    assert rest[|sp| + |w2|..] == t;
  }

  /** `ƏDV-dən azad ` in front of `x`: the exemption pattern removes it. */
  lemma {:induction false} StripVatExemptOf(x: string)
    requires x == [] || !IsSpace(x[0])
    ensures StripVatExempt("ƏDV-dən azad " + x) == x
  {
    assert "ƏDV-dən azad " == VatExempt + " " + Azad + " ";
    assert "ƏDV-dən azad " + x == VatExempt + " " + Azad + (" " + x);
    AfterWordsOf(VatExempt, " ", Azad, " " + x);
    LeadingRunConcat(" ", x, IsSpace);
    DropRunConcat(" ", x, IsSpace);
  }

  lemma {:induction false} CleanVatExempt(x: string)
    requires Plain(x)
    ensures CleanItemName("ƏDV-dən azad " + x) == x
    ensures CleanItemNameAi("ƏDV-dən azad " + x) == x
  {
    var s := "ƏDV-dən azad " + x;
    assert "ƏDV-dən azad " == VatExempt + " " + Azad + " ";
    PlainHead(x);
    assert VatPrefix(s, 'v') == 3 && VatPrefix(s, '"') == 3 by {
      assert s[..3] == Vat && s[0] == 'Ə';
    }
    assert AfterCode(s[3..]) == None by {
      assert s[3..] == "-dən azad " + x;
      assert DropRun(s[3..], IsColonOrSpace) == s[3..];
    }
    StripVatExemptOf(x);
    CleanAfterPrefixes(s, x);
  }

  /** `Ticarət əlavəsi: 5 ` in front of `x`: the markup pattern removes it. */
  lemma {:induction false} StripTradeMarkupOf(x: string)
    requires x == [] || !IsSpace(x[0])
    ensures StripTradeMarkup(Trade + " " + Markup + (": 5 " + x)) == x
  {
    AfterWordsOf(Trade, " ", Markup, ": 5 " + x);
    assert ": 5 " + x == ": " + "5" + " " + x;
    AfterMarkupOf(": ", "5", " ", x);
  }

  /** Separators, digits and whitespace in front of `x`. */
  lemma {:induction false} AfterMarkupOf(sep: string, code: string, sp: string, x: string)
    requires forall i :: 0 <= i < |sep| ==> IsColonOrSpace(sep[i])
    requires forall i :: 0 <= i < |code| ==> IsDigit(code[i])
    requires forall i :: 0 <= i < |sp| ==> IsSpace(sp[i])
    requires code != [] && sp != []
    requires x == [] || !IsSpace(x[0])
    ensures AfterMarkup(sep + code + sp + x) == x
  {
    assert sep + code + sp + x == sep + (code + (sp + x));
    DropRunConcat(sep, code + (sp + x), IsColonOrSpace);
    DropRunConcat(code, sp + x, IsDigit);
    DropRunConcat(sp, x, IsSpace);
  }

  lemma {:induction false} CleanTradeMarkup(x: string)
    requires Plain(x)
    ensures CleanItemName("Ticarət əlavəsi: 5 " + x) == x
    ensures CleanItemNameAi("Ticarət əlavəsi: 5 " + x) == x
  {
    var s := "Ticarət əlavəsi: 5 " + x;
    assert "Ticarət əlavəsi: 5 " == Trade + " " + Markup + ": 5 ";
    assert s == Trade + " " + Markup + (": 5 " + x);
    PlainHead(x);
    assert s[0] == 'T';
    NoPrefixAtTrade(s);
    StripTradeMarkupOf(x);
    CleanAfterPrefixes(s, x);
  }

  /** Only the markup pattern can match at a 'T'. */
  lemma {:induction false} NoPrefixAtTrade(s: string)
    requires s != [] && s[0] == 'T'
    ensures StripVatCode(s, 'v') == s && StripVatCode(s, '"') == s && StripVatExempt(s) == s
  {
    StartsWithHead(s, ['v'] + Vat);
    StartsWithHead(s, ['"'] + Vat);
    StartsWithHead(s, Vat);
    StartsWithHead(s, VatExempt);
  }

  /** No prefix pattern matches at a quote that is not followed by `ƏDV`. */
  lemma {:induction false} NoPrefixAtQuote(x: string)
    requires |x| >= 2 && x[0] == '"' && x[1] != 'Ə'
    ensures StripPrefixes(x) == x
  {
    assert StartsWith(x, ['"'] + Vat) ==> StartsWith(x[1..], Vat) by {
      if StartsWith(x, ['"'] + Vat) {
        assert x[1..][..3] == x[..4][1..];
      }
    }
    StartsWithHead(x, ['v'] + Vat);
    StartsWithHead(x, Vat);
    StartsWithHead(x[1..], Vat);
    StartsWithHead(x, VatExempt);
    StartsWithHead(x, Trade);
  }

  /** parser.py removes one quote per end and per pass, so a doubled leading
      quote survives one cleaning and goes at the second: the parser's cleaner is
      not idempotent, while the run-removing cleaner removes both at once. */
  lemma {:induction false} OneQuotePerPass()
    ensures CleanItemName("\"\"X") == "\"X"
    ensures CleanItemName("\"X") == "X"
    ensures CleanItemNameAi("\"\"X") == "X"
  {
    DoubledQuoteParser();
    SingleQuoteParser();
    DoubledQuoteRuns();
  }

  lemma {:induction false} DoubledQuoteParser()
    ensures CleanItemName("\"\"X") == "\"X"
  {
    var s := "\"\"X";
    NoPrefixAtQuote(s);
    assert EndAnchor(s) == 3;
    assert StripOneQuote(s) == s[1..];
    assert s[1..] == "\"X";
    NormalizeNormalIdentity("\"X");
  }

  lemma {:induction false} SingleQuoteParser()
    ensures CleanItemName("\"X") == "X"
  {
    var s := "\"X";
    NoPrefixAtQuote(s);
    assert EndAnchor(s) == 2;
    assert StripOneQuote(s) == s[1..];
    assert s[1..] == "X";
    NormalizeNormalIdentity("X");
  }

  lemma {:induction false} DoubledQuoteRuns()
    ensures CleanItemNameAi("\"\"X") == "X"
  {
    var s := "\"\"X";
    NoPrefixAtQuote(s);
    assert s[1..] == "\"X" && s[2..] == "X";
    assert LeadingRun(s, IsQuote) == 2;
    assert EndAnchor(s) == 3 && s[..3] == s;
    assert TrailingRun(s, IsQuote) == 0;
    assert StripQuoteRuns(s) == "X";
    NormalizeNormalIdentity("X");
  }

  /** The run-removing cleaner is not idempotent either: in " \"X" the quote
      is not at the start, so only the whitespace goes, and cleaning the
      result again removes the quote. */
  lemma {:induction false} RunsCleanerNotIdempotent()
    ensures CleanItemNameAi(" \"X") == "\"X"
    ensures CleanItemNameAi("\"X") == "X"
  {
    var s := " \"X";
    var t := "\"X";
    assert s[0] == ' ' && s[1..] == t;
    NoPrefixAt(s);
    NoQuoteRunAtSpace(s);
    SpaceThenNormal(t);
    assert s == " " + t;
    QuoteRunOff();
  }

  /** A name starting with whitespace and ending in a letter loses no quote run. */
  lemma {:induction false} NoQuoteRunAtSpace(s: string)
    requires s != [] && IsSpace(s[0]) && !IsQuote(s[|s| - 1]) && !IsSpace(s[|s| - 1])
    ensures StripQuoteRuns(s) == s
  {
    assert LeadingRun(s, IsQuote) == 0;
    assert EndAnchor(s) == |s| && s[..|s|] == s;
    assert TrailingRun(s, IsQuote) == 0;
  }

  /** One space in front of a normal name is normalised away. */
  lemma {:induction false} SpaceThenNormal(t: string)
    requires Normal(t) && t != []
    ensures Normalize(" " + t) == t
  {
    var s := " " + t;
    assert s[1..] == t;
    assert LStrip(s) == LStrip(t);
    assert LStrip(t) == t;
    CollapseNormalIdentity(t);
    assert CollapseSpaces(s) == s;
    assert LStrip(s) == t;
    assert RStrip(t) == t;
  }

  lemma {:induction false} QuoteRunOff()
    ensures CleanItemNameAi("\"X") == "X"
  {
    var s := "\"X";
    NoPrefixAtQuote(s);
    assert s[1..] == "X";
    assert LeadingRun(s, IsQuote) == 1;
    assert EndAnchor(s) == 2 && s[..2] == s;
    assert TrailingRun(s, IsQuote) == 0;
    assert StripQuoteRuns(s) == "X";
    NormalizeNormalIdentity("X");
  }

  /** A name made of one quote cleans to the empty name in both cleaners. */
  lemma {:induction false} QuoteNameCleansToEmpty()
    ensures CleanItemNameAi("'") == ""
    ensures CleanItemName("'") == ""
  {
    var s := "'";
    StartsWithHead(s, ['v'] + Vat);
    StartsWithHead(s, ['"'] + Vat);
    StartsWithHead(s, Vat);
    StartsWithHead(s, VatExempt);
    StartsWithHead(s, Trade);
    assert StripPrefixes(s) == s;
    assert LeadingRun(s, IsQuote) == 1;
    assert EndAnchor(s) == 1 && s[..1] == s;
    assert StripQuoteRuns(s) == "";
    assert StripOneQuote(s) == "";
    assert Normalize("") == "";
  }
}
