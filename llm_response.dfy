/** What the LLM-based extractor does with the model's reply (ai_parse.py
    `extract_items_with_ai` and `try_fallback_parsing`): the code fences are
    removed, the JSON array is located and parsed, every element is
    validated, and on a parse error the item objects are recovered one by
    one. The chat API and `json.loads` are parameters: `replies[k]` is the
    stripped content of attempt `k` (None when the call raised), `loads` is
    `json.loads` (None when it raises `JSONDecodeError`). */
module LlmResponse {
  import opened Wrappers
  import opened Text
  import opened Values
  import opened Decimal
  import opened ItemNames
  import opened Reconcile
  import opened ItemValidation

  const JsonFence: string := "```json"
  const Fence: string := "```"

  // ---------------------------------------------------------------------
  // Code fences
  // ---------------------------------------------------------------------

  /** The reply after the fence markers are removed: a reply that starts with
      a fence loses every fence token, and the text is stripped. */
  function StripFences(content: string): (r: string)
    ensures Trimmed(r)
  {
    var t := Strip(content);
    var u :=
      if StartsWith(t, JsonFence) then Strip(RemoveAll(RemoveAll(t, JsonFence), Fence))
      else if StartsWith(t, Fence) then Strip(RemoveAll(t, Fence))
      else t;
    Strip(u)
  }

  /** A reply that does not start with a fence is only stripped. */
  lemma {:induction false} UnfencedReply(content: string)
    requires !StartsWith(Strip(content), Fence)
    ensures StripFences(content) == Strip(content)
  {
  }

  /** No fence token is left in a reply that started with one. */
  lemma {:induction false} FencedReplyClean(content: string)
    requires StartsWith(Strip(content), Fence)
    ensures !Contains(StripFences(content), Fence)
  {
    var t := Strip(content);
    var x := if StartsWith(t, JsonFence) then RemoveAll(t, JsonFence) else t;
    NoFenceAfterRemoval(x);
    StripKeepsOut(RemoveAll(x, Fence), Fence);
    StripKeepsOut(Strip(RemoveAll(x, Fence)), Fence);
  }

  /** A reply ```` ```json BODY ``` ```` gives the stripped body. */
  lemma {:induction false} JsonFencedReply(body: string)
    requires '`' !in body
    ensures StripFences(JsonFence + body + Fence) == Strip(body)
  {
    var c := JsonFence + body + Fence;
    assert c[0] == '`' && c[|c| - 1] == '`';
    assert Trimmed(c);
    assert c[..7] == JsonFence;
    assert c == JsonFence + (body + Fence);
    RemoveAllFront(body + Fence, JsonFence);
    RemoveAllKeepsHead(body, Fence, JsonFence);
    RemoveAllKeepsHead(body, Fence, Fence);
    RemoveAllFront([], Fence);
    assert Fence + [] == Fence;
    assert body + [] == body;
  }

  /** A reply ```` ``` BODY ``` ```` gives the stripped body, when the body
      does not start with "json". */
  lemma {:induction false} BareFencedReply(body: string)
    requires '`' !in body && !StartsWith(body, "json")
    ensures StripFences(Fence + body + Fence) == Strip(body)
  {
    var c := Fence + body + Fence;
    assert c[0] == '`' && c[|c| - 1] == '`';
    assert Trimmed(c);
    NoJsonFenceAfterBareFence(body);
    assert c == Fence + (body + Fence);
    RemoveAllFront(body + Fence, Fence);
    RemoveAllKeepsHead(body, Fence, Fence);
    RemoveAllFront([], Fence);
    assert body + [] == body;
  }

  /** A bare fence followed by a body starts with "```json" only when the
      body starts with "json". */
  lemma {:induction false} NoJsonFenceAfterBareFence(body: string)
    ensures StartsWith(Fence + body + Fence, JsonFence) ==> StartsWith(body, "json")
  {
    var c := Fence + body + Fence;
    if |body| >= 4 {
      assert body[..4] == [c[3], c[4], c[5], c[6]];
    } else {
      assert c[3 + |body|] == '`';
    }
  }

  /** Removing every "```" leaves none: backtick runs shrink to fewer than
      three and runs on either side of a removal stay apart. */
  lemma {:induction false} NoFenceAfterRemoval(s: string)
    ensures !Contains(RemoveAll(s, Fence), Fence)
    decreases |s|
  {
    var r := RemoveAll(s, Fence);
    if |s| < 3 {
      ContainsFits(r, Fence);
    } else if s[..3] == Fence {
      NoFenceAfterRemoval(s[3..]);
    } else {
      var rest := RemoveAll(s[1..], Fence);
      NoFenceAfterRemoval(s[1..]);
      assert r == [s[0]] + rest;
      assert r[1..] == rest;
    }
  }

  // ---------------------------------------------------------------------
  // Locating the array
  // ---------------------------------------------------------------------

  /** `re.search(r'\[.*\]', t, re.DOTALL)`: the span from the first `[` to
      the last `]`, or None when no `]` follows the first `[`. */
  function ArraySpan(t: string): Option<string>
  {
    if '[' in t && ']' in t && IndexOf(t, '[') < LastIndexOf(t, ']') then
      Some(t[IndexOf(t, '[')..LastIndexOf(t, ']') + 1])
    else None
  }

  /** A span exists exactly when some `]` follows some `[`; it then runs
      from the first `[` to the last `]`. */
  lemma {:induction false} ArraySpanFound(t: string)
    ensures ArraySpan(t).Some? <==> exists i, j :: 0 <= i < j < |t| && t[i] == '[' && t[j] == ']'
    ensures ArraySpan(t).Some? ==>
      var i, j := IndexOf(t, '['), LastIndexOf(t, ']');
      ArraySpan(t).value == t[i..j + 1] && '[' !in t[..i] && ']' !in t[j + 1..]
      && t[i] == '[' && t[j] == ']'
  {
    if exists i, j :: 0 <= i < j < |t| && t[i] == '[' && t[j] == ']' {
      var i, j :| 0 <= i < j < |t| && t[i] == '[' && t[j] == ']';
      assert '[' in t && ']' in t;
    }
  }

  /** The text `json.loads` gets: the reply itself when it starts with `[`,
      otherwise the located span; None when there is none and the attempt
      fails. */
  function PayloadText(t: string): Option<string>
  {
    if StartsWith(t, "[") then Some(t) else ArraySpan(t)
  }

  // ---------------------------------------------------------------------
  // Fallback fragments
  // ---------------------------------------------------------------------

  predicate NotBrace(c: char) {
    c != '{' && c != '}'
  }

  const ItemKey: string := "\"item_name\""

  /** `re.findall(r'\{[^{}]*"item_name"[^{}]*\}', s)`: from each `{` the
      match can only run to the first brace after it, so it succeeds when
      that brace is `}` and the text between holds `"item_name"`; the search
      goes on after a match, and one character further after a failure. */
  function Fragments(s: string): seq<string>
    decreases |s|
  {
    if s == [] then []
    else if s[0] != '{' then Fragments(s[1..])
    else
      var j := 1 + LeadingRun(s[1..], NotBrace);
      if j < |s| && s[j] == '}' && Contains(s[1..j], ItemKey) then [s[..j + 1]] + Fragments(s[j + 1..])
      else Fragments(s[1..])
  }

  /** A non-nested object text that mentions `"item_name"`. */
  predicate IsFragment(f: string) {
    |f| >= 2 && f[0] == '{' && f[|f| - 1] == '}'
    && (forall k :: 1 <= k < |f| - 1 ==> NotBrace(f[k]))
    && Contains(f[1..|f| - 1], ItemKey)
  }

  /** Every fragment found is such an object text and occurs in `s`. */
  lemma {:induction false} FragmentsShape(s: string)
    ensures forall k :: 0 <= k < |Fragments(s)| ==> IsFragment(Fragments(s)[k]) && Contains(s, Fragments(s)[k])
    decreases |s|
  {
    if s != [] {
      if s[0] != '{' {
        FragmentsShape(s[1..]);
        forall k | 0 <= k < |Fragments(s)|
          ensures Contains(s, Fragments(s)[k])
        {
          ContainsInSuffix(s, 1, Fragments(s)[k]);
        }
      } else {
        var j := 1 + LeadingRun(s[1..], NotBrace);
        if j < |s| && s[j] == '}' && Contains(s[1..j], ItemKey) {
          var f := s[..j + 1];
          FragmentsShape(s[j + 1..]);
          forall k | 1 <= k < |f| - 1
            ensures NotBrace(f[k])
          {
            LeadingRunInClass(s[1..], NotBrace, k - 1);
          }
          assert f[1..|f| - 1] == s[1..j];
          assert IsFragment(f);
          assert StartsWith(s, f);
          forall k | 0 <= k < |Fragments(s)|
            ensures IsFragment(Fragments(s)[k]) && Contains(s, Fragments(s)[k])
          {
            if k > 0 {
              assert Fragments(s)[k] == Fragments(s[j + 1..])[k - 1];
              ContainsInSuffix(s, j + 1, Fragments(s)[k]);
            }
          }
        } else {
          FragmentsShape(s[1..]);
          forall k | 0 <= k < |Fragments(s)|
            ensures Contains(s, Fragments(s)[k])
          {
            ContainsInSuffix(s, 1, Fragments(s)[k]);
          }
        }
      }
    }
  }

  /** Text without `{` contributes no fragment. */
  lemma {:induction false} FragmentsSkip(a: string, b: string)
    requires '{' !in a
    ensures Fragments(a + b) == Fragments(b)
  {
    if a != [] {
      assert (a + b)[0] == a[0];
      assert (a + b)[1..] == a[1..] + b;
      FragmentsSkip(a[1..], b);
    } else {
      assert a + b == b;
    }
  }

  /** An object text at the front is found whole. */
  lemma {:induction false} FragmentsFront(f: string, b: string)
    requires IsFragment(f)
    ensures Fragments(f + b) == [f] + Fragments(b)
  {
    var s := f + b;
    var inner := f[1..|f| - 1];
    assert s[1..] == inner + ['}'] + b;
    LeadingRunStops(inner, '}', b);
    var j := 1 + LeadingRun(s[1..], NotBrace);
    assert j == |f| - 1;
    assert s[1..j] == inner;
    assert s[..j + 1] == f;
    assert s[j + 1..] == b;
  }

  /** The run of non-braces ends at the first brace. */
  lemma {:induction false} LeadingRunStops(x: string, c: char, y: string)
    requires forall k :: 0 <= k < |x| ==> NotBrace(x[k])
    requires !NotBrace(c)
    ensures LeadingRun(x + [c] + y, NotBrace) == |x|
  {
    if x != [] {
      assert (x + [c] + y)[1..] == x[1..] + [c] + y;
      LeadingRunStops(x[1..], c, y);
    } else {
      assert (x + [c] + y)[0] == c;
    }
  }

  /** Two object texts in prose without `{` are the two fragments found. */
  lemma {:induction false} TwoFragmentsInProse(a: string, f1: string, b: string, f2: string, c: string)
    requires '{' !in a && '{' !in b && '{' !in c
    requires IsFragment(f1) && IsFragment(f2)
    ensures Fragments(a + f1 + b + f2 + c) == [f1, f2]
  {
    assert a + f1 + b + f2 + c == a + (f1 + (b + (f2 + c)));
    FragmentsSkip(a, f1 + (b + (f2 + c)));
    FragmentsFront(f1, b + (f2 + c));
    FragmentsSkip(b, f2 + c);
    FragmentsFront(f2, c);
    FragmentsSkip(c, []);
    assert c + [] == c;
  }

  // ---------------------------------------------------------------------
  // Parsing and validating the elements
  // ---------------------------------------------------------------------

  /** The texts `json.loads` accepts, parsed, in order; the others are
      skipped. */
  function Parsed(texts: seq<string>, loads: string -> Option<Json>): (r: seq<Json>)
    ensures |r| <= |texts|
  {
    if texts == [] then []
    else
      var init := Parsed(texts[..|texts| - 1], loads);
      match loads(texts[|texts| - 1])
      case Some(v) => init + [v]
      case None => init
  }

  /** The items `validate_and_clean_item` keeps, as it returns them, in order. */
  function ValidItems(vs: seq<Json>): seq<Dict>
  {
    if vs == [] then []
    else
      var init := ValidItems(vs[..|vs| - 1]);
      match ValidatedValue(vs[|vs| - 1])
      case Some(x) => init + [x]
      case None => init
  }

  /** `extracted_items`, a non-list result wrapped in a list. */
  function AsList(v: Json): seq<Json>
  {
    if v.JArr? then v.items else [v]
  }

  /** Every kept item is a kept dict of the input after validation, and its
      name is the cleaned str name. */
  lemma {:induction false} ValidItemsFrom(vs: seq<Json>)
    ensures |ValidItems(vs)| <= |vs|
    ensures forall x :: x in ValidItems(vs) ==>
      exists m :: JObj(m) in vs && Kept(m) && x == ValidatedState(m)
  {
    if vs != [] {
      var init := vs[..|vs| - 1];
      ValidItemsFrom(init);
      forall x | x in ValidItems(vs)
        ensures exists m :: JObj(m) in vs && Kept(m) && x == ValidatedState(m)
      {
        if x in ValidItems(init) {
          var m :| JObj(m) in init && Kept(m) && x == ValidatedState(m);
          assert JObj(m) in vs;
        } else {
          assert JObj(vs[|vs| - 1].fields) in vs;
        }
      }
    }
  }

  /** Every kept dict of the input gives an item. */
  lemma {:induction false} ValidItemsKeepAll(vs: seq<Json>, m: Dict)
    requires JObj(m) in vs && Kept(m)
    ensures ValidatedState(m) in ValidItems(vs)
  {
    var init := vs[..|vs| - 1];
    if vs[|vs| - 1] != JObj(m) {
      InEarlier(vs, JObj(m));
      ValidItemsKeepAll(init, m);
    } else {
      KeptValue(m);
    }
  }

  /** A value of a list that is not its last is in the list without it. */
  lemma {:induction false} InEarlier(vs: seq<Json>, v: Json)
    requires v in vs && vs[|vs| - 1] != v
    ensures v in vs[..|vs| - 1]
  {
    assert vs == vs[..|vs| - 1] + [vs[|vs| - 1]];
  }

  /** Two kept objects in prose, as the local test expects, give two items:
      validated once by the corrected fallback, and one entry each, the item
      validated a second time, in the list as written. */
  lemma {:induction false} TwoItemsInProse(a: string, f1: string, b: string, f2: string, c: string,
                                           loads: string -> Option<Json>, m1: Dict, m2: Dict)
    requires '{' !in a && '{' !in b && '{' !in c
    requires IsFragment(f1) && IsFragment(f2)
    requires loads(f1) == Some(JObj(m1)) && loads(f2) == Some(JObj(m2))
    requires Kept(m1) && Kept(m2)
    ensures FallbackItems(a + f1 + b + f2 + c, loads) == [ValidatedState(m1), ValidatedState(m2)]
    ensures DoubleValidated(Parsed(Fragments(a + f1 + b + f2 + c), loads))
      == [ValidatedValue(JObj(ValidatedState(m1))), ValidatedValue(JObj(ValidatedState(m2)))]
  {
    TwoFragmentsInProse(a, f1, b, f2, c);
    ParsedTwo(f1, f2, loads, JObj(m1), JObj(m2));
    ValidItemsTwo(m1, m2);
  }

  /** Two kept dicts give their two validated states, and the list as written
      the second validation of each. */
  lemma {:induction false} ValidItemsTwo(m1: Dict, m2: Dict)
    requires Kept(m1) && Kept(m2)
    ensures ValidItems([JObj(m1), JObj(m2)]) == [ValidatedState(m1), ValidatedState(m2)]
    ensures DoubleValidated([JObj(m1), JObj(m2)])
      == [ValidatedValue(JObj(ValidatedState(m1))), ValidatedValue(JObj(ValidatedState(m2)))]
  {
    KeptValue(m1);
    KeptValue(m2);
    TwoValidated(JObj(m1), JObj(m2), ValidatedState(m1), ValidatedState(m2));
    TwoDoubleValidated(JObj(m1), JObj(m2), ValidatedState(m1), ValidatedState(m2));
  }

  /** Two values the validator keeps: the main path keeps both, in order. */
  lemma {:induction false} TwoValidated(v1: Json, v2: Json, x1: Dict, x2: Dict)
    requires ValidatedValue(v1) == Some(x1) && ValidatedValue(v2) == Some(x2)
    ensures ValidItems([v1, v2]) == [x1, x2]
  {
    Pair(v1, v2);
    Pair(x1, x2);
    ValidItemsSnoc([], v1, x1);
    ValidItemsSnoc([v1], v2, x2);
  }

  /** Two values the validator keeps: the list as written holds the second
      call's result for each, in order. */
  lemma {:induction false} TwoDoubleValidated(v1: Json, v2: Json, x1: Dict, x2: Dict)
    requires ValidatedValue(v1) == Some(x1) && ValidatedValue(v2) == Some(x2)
    ensures DoubleValidated([v1, v2]) == [ValidatedValue(JObj(x1)), ValidatedValue(JObj(x2))]
  {
    Pair(v1, v2);
    Pair(ValidatedValue(JObj(x1)), ValidatedValue(JObj(x2)));
    DoubleOneKept(v1, x1);
    DoubleOneKept(v2, x2);
    DoubleValidatedSnoc([], v1);
    DoubleValidatedSnoc([v1], v2);
  }

  /** A two-element list built one element at a time. */
  lemma Pair<T>(a: T, b: T)
    ensures [] + [a] == [a] && [a] + [b] == [a, b]
  {
  }

  /** A kept value appends its validated dict. */
  lemma {:induction false} ValidItemsSnoc(vs: seq<Json>, v: Json, x: Dict)
    requires ValidatedValue(v) == Some(x)
    ensures ValidItems(vs + [v]) == ValidItems(vs) + [x]
  {
    assert (vs + [v])[..|vs|] == vs;
  }

  /** Each value appends what the comprehension adds for it. */
  lemma {:induction false} DoubleValidatedSnoc(vs: seq<Json>, v: Json)
    ensures DoubleValidated(vs + [v]) == DoubleValidated(vs) + DoubleOne(v)
  {
    assert (vs + [v])[..|vs|] == vs;
  }

  /** A kept value adds the second call's result to the list as written. */
  lemma {:induction false} DoubleOneKept(v: Json, x: Dict)
    requires ValidatedValue(v) == Some(x)
    ensures DoubleOne(v) == [ValidatedValue(JObj(x))]
  {
  }

  /** Two texts `json.loads` accepts are parsed in order. */
  lemma {:induction false} ParsedTwo(f1: string, f2: string, loads: string -> Option<Json>, v1: Json, v2: Json)
    requires loads(f1) == Some(v1) && loads(f2) == Some(v2)
    ensures Parsed([f1, f2], loads) == [v1, v2]
  {
    assert [f1, f2][..1] == [f1];
    assert [f1][..0] == [];
  }

  /** The items recovered from a reply `json.loads` rejected (corrected
      version: each dict is validated once). */
  function FallbackItems(response: string, loads: string -> Option<Json>): seq<Dict>
  {
    ValidItems(Parsed(Fragments(response), loads))
  }

  /** `try_fallback_parsing` as written: the comprehension calls the in-place
      validator in its condition and again for the element, so each kept
      dict is validated a second time, and an element is None when the
      second call rejects. */
  function DoubleValidated(vs: seq<Json>): seq<Option<Dict>>
  {
    if vs == [] then []
    else
      DoubleValidated(vs[..|vs| - 1]) + DoubleOne(vs[|vs| - 1])
  }

  /** What the comprehension adds for one parsed value: nothing when the
      first call rejects it, else the second call's result. */
  function DoubleOne(v: Json): seq<Option<Dict>>
  {
    match ValidatedValue(v)
    case Some(x) => [ValidatedValue(JObj(x))]
    case None => []
  }

  /** The second validator call on each once-validated item. */
  function Revalidated(ds: seq<Dict>): (r: seq<Option<Dict>>)
    ensures |r| == |ds|
  {
    seq(|ds|, k requires 0 <= k < |ds| => ValidatedValue(JObj(ds[k])))
  }

  /** The list as written has one entry per item the main path would keep,
      in order: that item validated a second time. */
  lemma {:induction false} DoubleIsRevalidated(vs: seq<Json>)
    ensures DoubleValidated(vs) == Revalidated(ValidItems(vs))
  {
    if vs != [] {
      var init, last := vs[..|vs| - 1], vs[|vs| - 1];
      DoubleIsRevalidated(init);
      match ValidatedValue(last)
      case Some(x) =>
        RevalidatedSnoc(ValidItems(init), x);
      case None =>
    }
  }

  lemma {:induction false} RevalidatedSnoc(ds: seq<Dict>, d: Dict)
    ensures Revalidated(ds + [d]) == Revalidated(ds) + [ValidatedValue(JObj(d))]
  {
    assert forall k :: 0 <= k < |ds| ==> (ds + [d])[k] == ds[k];
  }

  // ---------------------------------------------------------------------
  // One attempt and the attempt loop
  // ---------------------------------------------------------------------

  /** What an attempt ends with: the items it returns, or a failure that
      moves on to the next attempt (or returns [] after the last one). */
  datatype Outcome = Items(items: seq<Option<Dict>>) | Failed

  /** The main path's validated dicts as list entries: every one present. */
  function Present(ds: seq<Dict>): (r: seq<Option<Dict>>)
    ensures |r| == |ds|
  {
    seq(|ds|, k requires 0 <= k < |ds| => Some(ds[k]))
  }

  /** One attempt on the reply content. */
  function AttemptOutcome(reply: Option<string>, loads: string -> Option<Json>): Outcome
  {
    match reply
    case None => Failed
    case Some(content) =>
      match PayloadText(StripFences(content))
      case None => Failed
      case Some(text) =>
        match loads(text)
        case None =>
          var recovered := DoubleValidated(Parsed(Fragments(text), loads));
          if recovered == [] then Failed else Items(recovered)
        case Some(v) =>
          var validated := ValidItems(AsList(v));
          if validated == [] then Failed else Items(Present(validated))
  }

  /** The reply of attempt `k`; a missing one counts as a raised call. */
  function Reply(replies: seq<Option<string>>, k: nat): Option<string>
  {
    if k < |replies| then replies[k] else None
  }

  /** The outcomes of the attempts `range(maxRetries)` makes. */
  function Outcomes(replies: seq<Option<string>>, loads: string -> Option<Json>, maxRetries: nat): (os: seq<Outcome>)
    ensures |os| == maxRetries
    ensures forall k :: 0 <= k < maxRetries ==> os[k] == AttemptOutcome(Reply(replies, k), loads)
  {
    seq(maxRetries, k requires 0 <= k < maxRetries => AttemptOutcome(Reply(replies, k), loads))
  }

  /** The items of the first attempt that returns some, or [] when every
      attempt fails. */
  function FirstItems(os: seq<Outcome>): seq<Option<Dict>>
  {
    if os == [] then []
    else
      match os[0]
      case Items(vs) => vs
      case Failed => FirstItems(os[1..])
  }

  /** What `extract_items_with_ai` returns. */
  function Extracted(replies: seq<Option<string>>, loads: string -> Option<Json>, maxRetries: nat): seq<Option<Dict>>
  {
    FirstItems(Outcomes(replies, loads, maxRetries))
  }

  /** An attempt that returns items returns at least one. */
  lemma {:induction false} ItemsNonEmpty(reply: Option<string>, loads: string -> Option<Json>)
    ensures AttemptOutcome(reply, loads).Items? ==> AttemptOutcome(reply, loads).items != []
  {
  }

  /** No attempt returns an empty item list. */
  predicate NoEmptyItems(os: seq<Outcome>) {
    forall k :: 0 <= k < |os| && os[k].Items? ==> os[k].items != []
  }

  lemma {:induction false} OutcomesNoEmptyItems(replies: seq<Option<string>>, loads: string -> Option<Json>, maxRetries: nat)
    ensures NoEmptyItems(Outcomes(replies, loads, maxRetries))
  {
    forall k | 0 <= k < maxRetries {
      ItemsNonEmpty(Reply(replies, k), loads);
    }
  }

  /** The result is [] exactly when every attempt fails. */
  lemma {:induction false} FirstItemsEmptyIff(os: seq<Outcome>)
    requires NoEmptyItems(os)
    ensures FirstItems(os) == [] <==> forall k :: 0 <= k < |os| ==> os[k].Failed?
  {
    if os != [] && os[0].Failed? {
      assert NoEmptyItems(os[1..]) by {
        forall k | 0 <= k < |os| - 1 && os[1..][k].Items?
          ensures os[1..][k].items != []
        {
          assert os[1..][k] == os[k + 1];
        }
      }
      FirstItemsEmptyIff(os[1..]);
      assert forall k :: 0 <= k < |os| - 1 ==> os[1..][k] == os[k + 1];
      if forall k :: 0 <= k < |os| - 1 ==> os[1..][k].Failed? {
        forall k | 0 <= k < |os|
          ensures os[k].Failed?
        {
          if k > 0 {
            assert os[1..][k - 1] == os[k];
          }
        }
      }
    }
  }

  /** A non-empty result is what the first attempt that did not fail
      returned. */
  lemma {:induction false} FirstItemsIsFirst(os: seq<Outcome>)
    requires FirstItems(os) != []
    ensures exists k :: (0 <= k < |os| && os[k] == Items(FirstItems(os))
      && forall j :: 0 <= j < k ==> os[j].Failed?)
  {
    if os[0].Failed? {
      FirstItemsIsFirst(os[1..]);
      var k :| 0 <= k < |os| - 1 && os[1..][k] == Items(FirstItems(os[1..]))
        && (forall j :: 0 <= j < k ==> os[1..][j].Failed?);
      assert os[k + 1] == os[1..][k];
      forall j | 0 <= j < k + 1
        ensures os[j].Failed?
      {
        if j > 0 {
          assert os[j] == os[1..][j - 1];
        }
      }
    }
  }

  /** The result is [] exactly when every attempt fails; otherwise it is what
      the first attempt that did not fail returned. */
  lemma {:induction false} ExtractedFirstSuccess(replies: seq<Option<string>>, loads: string -> Option<Json>, maxRetries: nat)
    ensures Extracted(replies, loads, maxRetries) == [] <==>
      forall k :: 0 <= k < maxRetries ==> AttemptOutcome(Reply(replies, k), loads).Failed?
    ensures Extracted(replies, loads, maxRetries) != [] ==>
      exists k :: (0 <= k < maxRetries
        && AttemptOutcome(Reply(replies, k), loads) == Items(Extracted(replies, loads, maxRetries))
        && forall j :: 0 <= j < k ==> AttemptOutcome(Reply(replies, j), loads).Failed?)
  {
    var os := Outcomes(replies, loads, maxRetries);
    OutcomesNoEmptyItems(replies, loads, maxRetries);
    FirstItemsEmptyIff(os);
    if FirstItems(os) != [] {
      FirstItemsIsFirst(os);
    }
  }

  /** At most `maxRetries` attempts are made: later replies are never read. */
  lemma {:induction false} AttemptsBounded(replies: seq<Option<string>>, later: seq<Option<string>>, loads: string -> Option<Json>)
    ensures Extracted(replies + later, loads, |replies|) == Extracted(replies, loads, |replies|)
  {
    var n := |replies|;
    forall k | 0 <= k < n
      ensures Reply(replies + later, k) == Reply(replies, k)
    {
    }
    assert Outcomes(replies + later, loads, n) == Outcomes(replies, loads, n);
  }

  /** With no attempt allowed, nothing is extracted. */
  lemma {:induction false} NoAttemptsNoItems(replies: seq<Option<string>>, loads: string -> Option<Json>)
    ensures Extracted(replies, loads, 0) == []
  {
    assert Outcomes(replies, loads, 0) == [];
  }

  /** Every entry an attempt returns that is not None is a kept dict after
      validation. */
  lemma {:induction false} OutcomeValidated(reply: Option<string>, loads: string -> Option<Json>)
    ensures AttemptOutcome(reply, loads).Items? ==>
      forall x :: x in AttemptOutcome(reply, loads).items && x.Some? ==>
        exists m :: Kept(m) && x.value == ValidatedState(m)
  {
    if AttemptOutcome(reply, loads).Items? {
      var text := PayloadText(StripFences(reply.value)).value;
      match loads(text)
      case None => DoubleValidatedFrom(Parsed(Fragments(text), loads));
      case Some(v) => ValidItemsFrom(AsList(v)); PresentFrom(ValidItems(AsList(v)));
    }
  }

  /** The main path's entries are its dicts, none of them None. */
  lemma {:induction false} PresentFrom(ds: seq<Dict>)
    ensures None !in Present(ds)
    ensures forall x :: x in Present(ds) ==> x.Some? && x.value in ds
  {
    forall x | x in Present(ds)
      ensures x.Some? && x.value in ds
    {
      var k :| 0 <= k < |ds| && Present(ds)[k] == x;
    }
  }

  /** Every present entry of the comprehension as written is a kept dict
      after validation. */
  lemma {:induction false} DoubleValidatedFrom(vs: seq<Json>)
    ensures forall x :: x in DoubleValidated(vs) && x.Some? ==>
      exists m :: Kept(m) && x.value == ValidatedState(m)
  {
    DoubleIsRevalidated(vs);
    var ds := ValidItems(vs);
    forall x | x in Revalidated(ds) && x.Some?
      ensures exists m :: Kept(m) && x.value == ValidatedState(m)
    {
      var k :| 0 <= k < |ds| && Revalidated(ds)[k] == x;
      assert Kept(ds[k]) && x.value == ValidatedState(ds[k]);
    }
  }

  /** A reply that gets as far as `json.loads`, which rejects it. */
  predicate LoadsRejected(reply: Option<string>, loads: string -> Option<Json>) {
    reply.Some? && PayloadText(StripFences(reply.value)).Some?
    && loads(PayloadText(StripFences(reply.value)).value).None?
  }

  /** Only the fallback of a rejected reply puts None in an attempt's items. */
  lemma {:induction false} OutcomeNoneFromFallback(reply: Option<string>, loads: string -> Option<Json>)
    ensures AttemptOutcome(reply, loads).Items? && None in AttemptOutcome(reply, loads).items ==>
      LoadsRejected(reply, loads)
  {
    if AttemptOutcome(reply, loads).Items? && !LoadsRejected(reply, loads) {
      var text := PayloadText(StripFences(reply.value)).value;
      PresentFrom(ValidItems(AsList(loads(text).value)));
    }
  }

  /** Every present extracted entry is a kept dict after validation, and a
      None entry comes only from the fallback of a reply `json.loads`
      rejected. */
  lemma {:induction false} ExtractedValidated(replies: seq<Option<string>>, loads: string -> Option<Json>, maxRetries: nat)
    ensures forall x :: x in Extracted(replies, loads, maxRetries) && x.Some? ==>
      exists m :: Kept(m) && x.value == ValidatedState(m)
    ensures None in Extracted(replies, loads, maxRetries) ==>
      exists k :: 0 <= k < maxRetries && LoadsRejected(Reply(replies, k), loads)
  {
    if Extracted(replies, loads, maxRetries) != [] {
      var os := Outcomes(replies, loads, maxRetries);
      FirstItemsIsFirst(os);
      var k :| 0 <= k < |os| && os[k] == Items(FirstItems(os))
        && (forall j :: 0 <= j < k ==> os[j].Failed?);
      OutcomeValidated(Reply(replies, k), loads);
      OutcomeNoneFromFallback(Reply(replies, k), loads);
    }
  }

  /** A first reply that `json.loads` rejects, and whose fragments give a
      non-empty list as written, decides the extraction: that list, None
      entries and all, is returned. */
  lemma {:induction false} FallbackReplyDecides(replies: seq<Option<string>>, loads: string -> Option<Json>, maxRetries: nat, text: string)
    requires maxRetries >= 1 && |replies| >= 1 && replies[0].Some?
    requires PayloadText(StripFences(replies[0].value)) == Some(text) && loads(text).None?
    requires DoubleValidated(Parsed(Fragments(text), loads)) != []
    ensures Extracted(replies, loads, maxRetries) == DoubleValidated(Parsed(Fragments(text), loads))
  {
    var os := Outcomes(replies, loads, maxRetries);
    assert os[0] == AttemptOutcome(replies[0], loads);
  }

  /** A rejected first reply whose one recovered object has a quote alone as
      its name makes the extractor return [None]. */
  lemma {:induction false} QuoteReplyExtractsNone(replies: seq<Option<string>>, loads: string -> Option<Json>, maxRetries: nat, text: string)
    requires maxRetries >= 1 && |replies| >= 1 && replies[0].Some?
    requires PayloadText(StripFences(replies[0].value)) == Some(text) && loads(text).None?
    requires Parsed(Fragments(text), loads) == [JObj(QuoteItem)]
    ensures Extracted(replies, loads, maxRetries) == [None]
  {
    QuoteNameRecoveredAsNone();
    FallbackReplyDecides(replies, loads, maxRetries, text);
  }

  /** A rejected first reply whose one recovered object has quantity 1000000
      and zero amounts makes the extractor return it with quantity 1.0. */
  lemma {:induction false} BigQuantityReplyFixedTwice(replies: seq<Option<string>>, loads: string -> Option<Json>, maxRetries: nat, text: string, m: Dict, name: string)
    requires maxRetries >= 1 && |replies| >= 1 && replies[0].Some?
    requires PayloadText(StripFences(replies[0].value)) == Some(text) && loads(text).None?
    requires Parsed(Fragments(text), loads) == [JObj(m)]
    requires KeptName(name) && "item_name" in m && m["item_name"] == JStr(name)
    requires "quantity" in m && m["quantity"] == JNum(1000000.0)
    requires "unit_price" in m && m["unit_price"] == JNum(0.0)
    requires "line_total" in m && m["line_total"] == JNum(0.0)
    ensures |Extracted(replies, loads, maxRetries)| == 1
    ensures var x := Extracted(replies, loads, maxRetries)[0];
      x.Some? && "quantity" in x.value && FloatOf(x.value["quantity"]) == Some(1.0)
  {
    BigQuantityFixedTwice(m, name);
    FallbackReplyDecides(replies, loads, maxRetries, text);
  }

  /** A reply that is already a bare JSON array is parsed as it is. */
  lemma {:induction false} ArrayReplyParsed(content: string)
    requires Trimmed(content) && StartsWith(content, "[")
    ensures PayloadText(StripFences(content)) == Some(content)
  {
    UnfencedReply(content);
  }

  // ---------------------------------------------------------------------
  // The code
  // ---------------------------------------------------------------------

  /** `extract_items_with_ai` after the API call: the attempt loop. */
  method ExtractItemsWithAi(replies: seq<Option<string>>, loads: string -> Option<Json>, maxRetries: nat) returns (items: seq<Option<Dict>>)
    ensures items == Extracted(replies, loads, maxRetries)
  {
    ghost var os := Outcomes(replies, loads, maxRetries);
    for attempt := 0 to maxRetries
      invariant FirstItems(os) == FirstItems(os[attempt..])
    {
      var outcome := RunAttempt(Reply(replies, attempt), loads);
      if outcome.Items? {
        return outcome.items;
      }
      assert os[attempt..][1..] == os[attempt + 1..];
    }
    return [];
  }

  /** The body of one attempt. */
  method RunAttempt(reply: Option<string>, loads: string -> Option<Json>) returns (o: Outcome)
    ensures o == AttemptOutcome(reply, loads)
  {
    if reply.None? {
      return Failed;
    }
    var response := StripFences(reply.value);
    if !StartsWith(response, "[") {
      var span := ArraySpan(response);
      if span.None? {
        return Failed;
      }
      response := span.value;
    }
    var parsed := loads(response);
    if parsed.None? {
      var recovered := TryFallbackParsing(response, loads);
      return if recovered == [] then Failed else Items(recovered);
    }
    var validated := ValidateItems(AsList(parsed.value));
    return if validated == [] then Failed else Items(Present(validated));
  }

  /** The validation loop: each element validated once, the kept ones
      appended. */
  method ValidateItems(vs: seq<Json>) returns (r: seq<Dict>)
    ensures r == ValidItems(vs)
  {
    r := [];
    for i := 0 to |vs|
      invariant r == ValidItems(vs[..i])
    {
      assert vs[..i + 1][..i] == vs[..i];
      var validated := ValidateValue(vs[i]);
      if validated.Some? {
        r := r + [validated.value];
      }
    }
    assert vs[..|vs|] == vs;
  }

  /** The loop that parses each fragment on its own, skipping the ones
      `json.loads` rejects. */
  method ParseFragments(texts: seq<string>, loads: string -> Option<Json>) returns (r: seq<Json>)
    ensures r == Parsed(texts, loads)
  {
    r := [];
    for i := 0 to |texts|
      invariant r == Parsed(texts[..i], loads)
    {
      assert texts[..i + 1][..i] == texts[..i];
      var parsed := loads(texts[i]);
      if parsed.Some? {
        r := r + [parsed.value];
      }
    }
    assert texts[..|texts|] == texts;
  }

  /** `try_fallback_parsing`, corrected: each recovered dict validated once. */
  method TryFallbackParsingOnce(response: string, loads: string -> Option<Json>) returns (r: seq<Dict>)
    ensures r == FallbackItems(response, loads)
  {
    var extracted := ParseFragments(Fragments(response), loads);
    r := ValidateItems(extracted);
  }

  /** `try_fallback_parsing` as written: the in-place validator runs twice on
      the same dict. */
  method TryFallbackParsing(response: string, loads: string -> Option<Json>) returns (r: seq<Option<Dict>>)
    ensures r == DoubleValidated(Parsed(Fragments(response), loads))
  {
    var extracted := ParseFragments(Fragments(response), loads);
    r := RevalidateAll(extracted);
  }

  /** The comprehension of `try_fallback_parsing` over the parsed values. */
  method RevalidateAll(vs: seq<Json>) returns (r: seq<Option<Dict>>)
    ensures r == DoubleValidated(vs)
  {
    r := [];
    for i := 0 to |vs|
      invariant r == DoubleValidated(vs[..i])
    {
      assert vs[..i + 1][..i] == vs[..i];
      var e := RevalidateOne(vs[i]);
      r := r + e;
    }
    assert vs[..|vs|] == vs;
  }

  /** The condition and the element of the comprehension for one value: two
      calls of the in-place validator on the same dict. */
  method RevalidateOne(v: Json) returns (e: seq<Option<Dict>>)
    ensures e == DoubleOne(v)
  {
    e := [];
    if v.JObj? {
      var item := new Record(v.fields);
      var first := ValidateAndCleanItem(item);
      if first {
        var second := ValidateAndCleanItem(item);
        e := [if second then Some(item.fields) else None];
      }
    }
  }

  // ---------------------------------------------------------------------
  // The double validation of try_fallback_parsing
  // ---------------------------------------------------------------------

  /** One value: the main path returns its validated dict when it is kept. */
  lemma {:induction false} ValidItemsOne(v: Json)
    ensures ValidItems([v]) == if ValidatedValue(v).Some? then [ValidatedValue(v).value] else []
  {
    assert [v][..0] == [];
  }

  /** One value: the comprehension adds the second call's result. */
  lemma {:induction false} DoubleValidatedOne(v: Json)
    ensures DoubleValidated([v]) == DoubleOne(v)
  {
    assert [v][..0] == [];
  }

  /** The validator returns a kept dict as it left it ... */
  lemma {:induction false} KeptValue(m: Dict)
    requires Kept(m)
    ensures ValidatedValue(JObj(m)) == Some(ValidatedState(m))
  {
  }

  /** ... and None for any other. */
  lemma {:induction false} RejectedValue(m: Dict)
    requires !Kept(m)
    ensures ValidatedValue(JObj(m)) == None
  {
  }

  /** For a kept dict the main path returns the dict after one validation,
      the comprehension as written the result of validating that again. */
  lemma {:induction false} SecondCall(m: Dict, m1: Dict)
    requires Kept(m) && m1 == ValidatedState(m)
    ensures DoubleValidated([JObj(m)]) == [ValidatedValue(JObj(m1))]
    ensures ValidItems([JObj(m)]) == [m1]
  {
    DoubleValidatedOne(JObj(m));
    ValidItemsOne(JObj(m));
    KeptValue(m);
  }

  /** {"item_name": "'", "quantity": 1, "unit_price": 2, "line_total": 2}. */
  const QuoteItem: Dict := map["item_name" := JStr("'"), "quantity" := JNum(1.0),
                               "unit_price" := JNum(2.0), "line_total" := JNum(2.0)]

  /** A recovered item whose name is a quote alone is kept by the first call
      with an empty name, which the second call rejects: the list as written
      holds None where the item should be. */
  lemma {:induction false} QuoteNameRecoveredAsNone()
    ensures DoubleValidated([JObj(QuoteItem)]) == [None]
    ensures ValidItems([JObj(QuoteItem)]) == [ValidatedState(QuoteItem)]
  {
    var d := QuoteItem;
    QuoteNameKeptEmpty();
    var d1 := ValidatedState(d);
    SecondCall(d, d1);
    assert Gate(d1).None? by {
      assert !Truthy(Get(d1, "item_name"));
    }
    RejectedValue(d1);
  }

  /** A name the gate accepts and the cleaning leaves as it is. */
  predicate KeptName(name: string) {
    Plain(name) && name != "null" && name != "N/A"
  }

  /** An item with such a name, zero amounts and a quantity `x` that reads
      as `q` >= 1000, where q / 1000 is the whole number of tenths r = n / 10, is
      kept; its quantity becomes the text of r and the rest stays. */
  lemma {:induction false} ZeroAmountsFix(m: Dict, name: string, x: Json, q: real, n: int, r: real)
    requires KeptName(name) && "item_name" in m && m["item_name"] == JStr(name)
    requires "quantity" in m && m["quantity"] == x && !AmountMissing(x) && FloatOf(x) == Some(q)
    requires "unit_price" in m && m["unit_price"] == JNum(0.0)
    requires "line_total" in m && m["line_total"] == JNum(0.0)
    requires q >= 1000.0 && q / 1000.0 * 10.0 == n as real && r == n as real / 10.0
    ensures Kept(m)
    ensures var m1 := ValidatedState(m);
      m1["item_name"] == JStr(name) && m1["unit_price"] == JNum(0.0) && m1["line_total"] == JNum(0.0)
      && m1["quantity"] == JStr(Tenths(r)) && FloatOf(m1["quantity"]) == Some(r)
  {
    var a := Amounts(q, 0.0, 0.0);
    ZeroGate(m, name, x, q);
    FixTo(q, r, n);
    ZeroReconciled(m, a, r);
    FixedState(m, name, a, r);
  }

  /** Such an item passes the gate with its amounts. */
  lemma {:induction false} ZeroGate(m: Dict, name: string, x: Json, q: real)
    requires KeptName(name) && "item_name" in m && m["item_name"] == JStr(name)
    requires "quantity" in m && m["quantity"] == x && !AmountMissing(x) && FloatOf(x) == Some(q)
    requires "unit_price" in m && m["unit_price"] == JNum(0.0)
    requires "line_total" in m && m["line_total"] == JNum(0.0)
    ensures Gate(m) == Some(Amounts(q, 0.0, 0.0))
  {
  }

  /** Zero amounts are consistent with any quantity: only the magnitude fix
      changes the item. */
  lemma {:induction false} ZeroReconciled(m: Dict, a: Amounts, r: real)
    requires a == Amounts(a.quantity, 0.0, 0.0) && MagnitudeFix(a.quantity) == r && a.quantity >= 1000.0
    ensures Reconciled(m, a) == m["quantity" := JStr(Tenths(r))]
  {
    assert Decide(r, 0.0, 0.0) == Keep;
  }

  /** After that the money fields stay zero (falsy, so not formatted) and the
      plain name stays. */
  lemma {:induction false} FixedState(m: Dict, name: string, a: Amounts, r: real)
    requires Gate(m) == Some(a) && Round1(r) == r
    requires KeptName(name) && "item_name" in m && m["item_name"] == JStr(name)
    requires "unit_price" in m && m["unit_price"] == JNum(0.0)
    requires "line_total" in m && m["line_total"] == JNum(0.0)
    requires Reconciled(m, a) == m["quantity" := JStr(Tenths(r))]
    ensures Kept(m)
    ensures var m1 := ValidatedState(m);
      m1["item_name"] == JStr(name) && m1["unit_price"] == JNum(0.0) && m1["line_total"] == JNum(0.0)
      && m1["quantity"] == JStr(Tenths(r)) && FloatOf(m1["quantity"]) == Some(r)
  {
    QuantityNotMoney(m);
    FloatOfTenth(r);
    AmountsStayZero(m, a);
    CleanPlain(name);
    CleanedName(m);
  }

  /** An item such as {"item_name": "A", "quantity": 1000000, "unit_price":
      0, "line_total": 0} is returned with quantity 1000.0 when validated
      once, but the comprehension as written returns it with quantity 1.0:
      the magnitude fix applied twice. */
  lemma {:induction false} BigQuantityFixedTwice(m: Dict, name: string)
    requires KeptName(name) && "item_name" in m && m["item_name"] == JStr(name)
    requires "quantity" in m && m["quantity"] == JNum(1000000.0)
    requires "unit_price" in m && m["unit_price"] == JNum(0.0)
    requires "line_total" in m && m["line_total"] == JNum(0.0)
    ensures var m1 := ValidatedState(m);
      ValidItems([JObj(m)]) == [m1] && FloatOf(m1["quantity"]) == Some(1000.0)
      && DoubleValidated([JObj(m)]) == [Some(ValidatedState(m1))]
      && FloatOf(ValidatedState(m1)["quantity"]) == Some(1.0)
  {
    ZeroAmountsFix(m, name, JNum(1000000.0), 1000000.0, 10000, 1000.0);
    var m1 := ValidatedState(m);
    var x := m1["quantity"];
    ReadableNotMissing(x);
    ZeroAmountsFix(m1, name, x, 1000.0, 10, 1.0);
    SecondCall(m, m1);
    KeptValue(m1);
  }

  /** The magnitude fix of `q` is `r` when `q / 1000` is the whole number of
      tenths `n / 10`. */
  lemma {:induction false} FixTo(q: real, r: real, n: int)
    requires q >= 1000.0 && q / 1000.0 * 10.0 == n as real && r == n as real / 10.0
    ensures MagnitudeFix(q) == r && Round1(r) == r
  {
    RoundHalfEvenInt(n);
    assert r * 10.0 == n as real;
  }

  /** Zero amounts that are JSON numbers are falsy and are not formatted. */
  lemma {:induction false} AmountsStayZero(m: Dict, a: Amounts)
    requires Gate(m) == Some(a) && "quantity" in m && "unit_price" in m && "line_total" in m
    requires m["unit_price"] == JNum(0.0) && m["line_total"] == JNum(0.0)
    requires Reconciled(m, a)["line_total"] == JNum(0.0)
    ensures ValidatedState(m)["unit_price"] == JNum(0.0)
    ensures ValidatedState(m)["line_total"] == JNum(0.0)
  {
    assert "unit_price" in MoneyFields;
    MoneyFieldsFormatted(m, "unit_price");
    LineTotalFormatted(m);
  }
}
