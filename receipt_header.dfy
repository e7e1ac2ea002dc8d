/** The receipt-level fields of parser.py's `parse_receipt_text`: the 25
    columns set to None, the field patterns' matches stored one by one, the
    fiscal-id and store-name fallbacks, and the payment-method summary. The
    field patterns themselves are an oracle: `search(key)` is what
    `re.search(patterns[key], text)` captured. */
module ReceiptHeader {
  import opened Wrappers
  import opened Text
  import opened Decimal
  import opened Values
  import opened ItemNames

  /** The 25 output columns of parser.py, in order. */
  const ParserColumns: seq<string> :=
    ["filename", "store_name", "store_address", "store_code", "taxpayer_name",
     "voen", "receipt_number", "cashier_name", "date", "time",
     "item_name", "quantity", "unit_price", "line_total", "subtotal",
     "vat_18_percent", "total_tax", "payment_methods", "queue_number",
     "nka_model", "nka_serial", "fiscal_id", "nmq_registration",
     "refund_amount", "refund_date"]

  /** The groups a field pattern captured; only the date-and-time pattern has
      a second one. */
  datatype Groups = Groups(first: string, second: string)

  /** How a pattern's match is stored. */
  datatype Kind =
    | Stripped      // the key's own column, group 1 stripped
    | DateTime      // group 1 into `date`, group 2 into `time`
    | Taxpayer      // the key's own column, cleaned of quotes and runs of spaces
    | StoreName     // the same cleaning, into `store_name`
    | Cashier       // group 1 stripped, unless it carries a date

  datatype Pattern = Pattern(key: string, kind: Kind)

  /** The field patterns, in the order of the `patterns` dict. */
  const Patterns: seq<Pattern> :=
    [Pattern("store_name_temp", StoreName), Pattern("store_address", Stripped),
     Pattern("store_code", Stripped), Pattern("taxpayer_name", Taxpayer),
     Pattern("voen", Stripped), Pattern("receipt_number", Stripped),
     Pattern("cashier_name", Cashier), Pattern("datetime", DateTime),
     Pattern("subtotal", Stripped), Pattern("vat_18_percent", Stripped),
     Pattern("total_tax", Stripped), Pattern("nagdsiz", Stripped),
     Pattern("nagd", Stripped), Pattern("bonus", Stripped), Pattern("avans", Stripped),
     Pattern("nisye", Stripped), Pattern("queue_number", Stripped),
     Pattern("nka_model", Stripped), Pattern("nka_serial", Stripped),
     Pattern("fiscal_id", Stripped), Pattern("nmq_registration", Stripped),
     Pattern("refund_amount", Stripped), Pattern("refund_date", Stripped)]

  /** The payment patterns, in the order they are summarised. */
  const PaymentKeys: seq<string> := ["nagdsiz", "nagd", "bonus", "avans", "nisye"]

  /** A dict holding None under each of the columns and nothing else. */
  function Blank(cols: seq<string>): (d: Dict)
    ensures forall k :: k in d <==> k in cols
    ensures forall k :: k in d ==> d[k] == JNull
  {
    if cols == [] then map[] else Blank(cols[..|cols| - 1])[cols[|cols| - 1] := JNull]
  }

  /** `for col in columns: data[col] = None`, then `data['filename'] = filename`. */
  method InitData(filename: string, columns: seq<string>) returns (data: Dict)
    ensures data == Blank(columns)["filename" := JStr(filename)]
  {
    data := map[];
    for k := 0 to |columns|
      invariant data == Blank(columns[..k])
    {
      assert columns[..k + 1][..k] == columns[..k];
      data := data[columns[k] := JNull];
    }
    assert columns[..|columns|] == columns;
    data := data["filename" := JStr(filename)];
  }

  /** `re.sub(r'["\']+', '', s)`: every quote character removed. */
  function RemoveQuotes(s: string): (r: string)
    ensures |r| <= |s|
    ensures forall i :: 0 <= i < |r| ==> !IsQuote(r[i])
  {
    if s == [] then []
    else (if IsQuote(s[0]) then [] else [s[0]]) + RemoveQuotes(s[1..])
  }

  /** Quote removal keeps every other character, in order. */
  lemma {:induction false} RemoveQuotesKeeps(s: string)
    ensures (forall i :: 0 <= i < |s| ==> !IsQuote(s[i])) ==> RemoveQuotes(s) == s
    ensures RemoveQuotes(RemoveQuotes(s)) == RemoveQuotes(s)
  {
    if s != [] {
      RemoveQuotesKeeps(s[1..]);
      var head := if IsQuote(s[0]) then [] else [s[0]];
      RemoveQuotesConcat(head, RemoveQuotes(s[1..]));
      assert RemoveQuotes(head) == head by {
        if head != [] {
          assert head[1..] == [];
        }
      }
    }
  }

  lemma {:induction false} RemoveQuotesConcat(a: string, b: string)
    ensures RemoveQuotes(a + b) == RemoveQuotes(a) + RemoveQuotes(b)
  {
    if a != [] {
      assert (a + b)[1..] == a[1..] + b;
      RemoveQuotesConcat(a[1..], b);
    } else {
      assert a + b == b;
    }
  }

  /** The taxpayer and store-name cleaning: stripped, quotes removed, each run
      of whitespace made one space. */
  function CleanTaxpayer(t: string): (r: string)
    ensures SingleSpaced(r)
    ensures forall i :: 0 <= i < |r| ==> !IsQuote(r[i])
  {
    var s := RemoveQuotes(Strip(t));
    CollapseKeepsOut(s);
    CollapseSpaces(s)
  }

  /** Whitespace collapsing brings in no quote. */
  lemma {:induction false} CollapseKeepsOut(s: string)
    requires forall i :: 0 <= i < |s| ==> !IsQuote(s[i])
    ensures forall i :: 0 <= i < |CollapseSpaces(s)| ==> !IsQuote(CollapseSpaces(s)[i])
    decreases |s|
  {
    if s != [] {
      if IsSpace(s[0]) {
        LStripIsSuffix(s);
        var l := LStrip(s);
        assert forall i :: 0 <= i < |l| ==> l[i] == s[|s| - |l| + i];
        CollapseKeepsOut(l);
      } else {
        CollapseKeepsOut(s[1..]);
      }
    }
  }

  /** `dd.dd.dddd` at the start of `s`. */
  predicate DateAt(s: string) {
    |s| >= 10 && IsDigit(s[0]) && IsDigit(s[1]) && s[2] == '.' && IsDigit(s[3]) && IsDigit(s[4])
    && s[5] == '.' && IsDigit(s[6]) && IsDigit(s[7]) && IsDigit(s[8]) && IsDigit(s[9])
  }

  /** `re.match(r'.*\d{2}\.\d{2}\.\d{4}', s)`: a date on the first line of `s`. */
  predicate LooksLikeDate(s: string)
    decreases |s|
  {
    DateAt(s) || (s != [] && s[0] != '\n' && LooksLikeDate(s[1..]))
  }

  /** A date shows up exactly when one starts somewhere on the first line. */
  lemma {:induction false} LooksLikeDateAt(s: string)
    ensures LooksLikeDate(s) <==> exists i :: 0 <= i <= |s| && '\n' !in s[..i] && DateAt(s[i..])
    decreases |s|
  {
    if s != [] {
      LooksLikeDateAt(s[1..]);
      if DateAt(s) {
        assert s[..0] == [] && s[0..] == s;
      }
      if LooksLikeDate(s) && !DateAt(s) {
        var i :| 0 <= i <= |s[1..]| && '\n' !in s[1..][..i] && DateAt(s[1..][i..]);
        assert s[..i + 1] == [s[0]] + s[1..][..i];
        assert s[i + 1..] == s[1..][i..];
      }
      if !LooksLikeDate(s) {
        forall i | 0 <= i <= |s| && '\n' !in s[..i]
          ensures !DateAt(s[i..])
        {
          if i == 0 {
            assert s[0..] == s;
          } else {
            assert s[0] == s[..i][0];
            assert s[1..][..i - 1] == s[..i][1..];
            assert forall c :: c in s[..i][1..] ==> c in s[..i];
            assert s[1..][i - 1..] == s[i..];
          }
        }
      }
    } else {
      assert s[..0] == [] && s[0..] == s;
    }
  }

  /** The columns a pattern's match writes. */
  function Targets(p: Pattern): set<string> {
    match p.kind
    case DateTime => {"date", "time"}
    case StoreName => {"store_name"}
    case _ => {p.key}
  }

  /** What storing one match does to the data. */
  function Store(data: Dict, p: Pattern, g: Groups): (d: Dict)
    ensures forall k :: k in data ==> k in d
    ensures forall k :: k !in Targets(p) ==> (k in d <==> k in data) && (k in d ==> d[k] == data[k])
  {
    match p.kind
    case DateTime => data["date" := JStr(g.first)]["time" := JStr(g.second)]
    case Taxpayer => data[p.key := JStr(CleanTaxpayer(g.first))]
    case StoreName => data["store_name" := JStr(CleanTaxpayer(g.first))]
    case Cashier =>
      var t := Strip(g.first);
      if LooksLikeDate(t) then data else data[p.key := JStr(t)]
    case Stripped => data[p.key := JStr(Strip(g.first))]
  }

  /** The cashier's name is stored only when it shows no date. */
  lemma {:induction false} CashierWithoutDate(data: Dict, g: Groups)
    ensures var d := Store(data, Pattern("cashier_name", Cashier), g);
      LooksLikeDate(Strip(g.first)) ==> d == data
    ensures var d := Store(data, Pattern("cashier_name", Cashier), g);
      !LooksLikeDate(Strip(g.first)) ==> d == data["cashier_name" := JStr(Strip(g.first))]
  {
  }

  /** The data after the matches of the patterns, stored in order. */
  function Fields(data: Dict, pats: seq<Pattern>, search: string -> Option<Groups>): (d: Dict)
    ensures forall k :: k in data ==> k in d
  {
    if pats == [] then data
    else
      var before := Fields(data, pats[..|pats| - 1], search);
      var p := pats[|pats| - 1];
      match search(p.key)
      case None => before
      case Some(g) => Store(before, p, g)
  }

  /** A column none of the patterns writes keeps its value. */
  lemma {:induction false} FieldsKeep(data: Dict, pats: seq<Pattern>, search: string -> Option<Groups>, k: string)
    requires forall i :: 0 <= i < |pats| ==> k !in Targets(pats[i])
    ensures (k in Fields(data, pats, search) <==> k in data)
    ensures k in data ==> Fields(data, pats, search)[k] == data[k]
  {
    if pats != [] {
      FieldsKeep(data, pats[..|pats| - 1], search, k);
    }
  }

  /** The pattern loop of `parse_receipt_text`. */
  method StoreMatches(data0: Dict, pats: seq<Pattern>, search: string -> Option<Groups>) returns (data: Dict)
    ensures data == Fields(data0, pats, search)
  {
    data := data0;
    for k := 0 to |pats|
      invariant data == Fields(data0, pats[..k], search)
    {
      var p := pats[k];
      assert pats[..k + 1][..k] == pats[..k];
      match search(p.key) {
        case None =>
        case Some(g) =>
          match p.kind {
            case DateTime =>
              data := data["date" := JStr(g.first)];
              data := data["time" := JStr(g.second)];
            case Taxpayer =>
              var t := Strip(g.first);
              t := RemoveQuotes(t);
              t := CollapseSpaces(t);
              data := data[p.key := JStr(t)];
            case StoreName =>
              var t := Strip(g.first);
              t := RemoveQuotes(t);
              t := CollapseSpaces(t);
              data := data["store_name" := JStr(t)];
            case Cashier =>
              var t := Strip(g.first);
              if !LooksLikeDate(t) {
                data := data[p.key := JStr(t)];
              }
            case Stripped =>
              data := data[p.key := JStr(Strip(g.first))];
          }
      }
    }
    assert pats[..|pats|] == pats;
  }

  /** `if not data.get('fiscal_id')`: the looser pattern's group, stripped.
      The receipt has a usable fiscal id afterwards exactly when it had one
      or the looser pattern found a non-blank one; an id already found is
      never overwritten, a filled-in id is trimmed, and no other column
      changes. */
  function FiscalFallback(data: Dict, alt: Option<string>): (d: Dict)
    ensures Truthy(Get(d, "fiscal_id")) <==>
      Truthy(Get(data, "fiscal_id")) || (alt.Some? && Strip(alt.value) != [])
    ensures Truthy(Get(data, "fiscal_id")) ==> d == data
    ensures Get(d, "fiscal_id") != Get(data, "fiscal_id") ==>
      Get(d, "fiscal_id").JStr? && Trimmed(Get(d, "fiscal_id").s)
    ensures forall k :: k != "fiscal_id" ==> (k in d <==> k in data) && (k in d ==> d[k] == data[k])
    ensures "fiscal_id" in data || alt.Some? ==> "fiscal_id" in d
  {
    if !Truthy(Get(data, "fiscal_id")) && alt.Some? then data["fiscal_id" := JStr(Strip(alt.value))]
    else data
  }

  /** A missing store name is taken from the taxpayer name. */
  function StoreFromTaxpayer(data: Dict): (d: Dict)
    ensures Truthy(Get(d, "store_name")) <==>
      Truthy(Get(data, "store_name")) || Truthy(Get(data, "taxpayer_name"))
    ensures forall k :: k != "store_name" ==> (k in d <==> k in data) && (k in d ==> d[k] == data[k])
    ensures "store_name" in data ==> "store_name" in d
  {
    if !Truthy(Get(data, "store_name")) && Truthy(Get(data, "taxpayer_name")) then
      data["store_name" := data["taxpayer_name"]]
    else data
  }

  /** A payment counts when its text reads as a positive amount. */
  predicate Paid(data: Dict, k: string) {
    Truthy(Get(data, k)) && FloatOf(Get(data, k)).Some? && FloatOf(Get(data, k)).value > 0.0
  }

  /** The payment keys that count, in the order the keys are given. */
  function PaidWith(data: Dict, keys: seq<string>): (r: seq<string>)
    ensures |r| <= |keys|
  {
    if keys == [] then []
    else PaidWith(data, keys[..|keys| - 1]) + (if Paid(data, keys[|keys| - 1]) then [keys[|keys| - 1]] else [])
  }

  /** A key is listed exactly when it is one of the keys and counts. */
  lemma {:induction false} PaidWithMembers(data: Dict, keys: seq<string>, k: string)
    ensures k in PaidWith(data, keys) <==> k in keys && Paid(data, k)
  {
    if keys != [] {
      var init := keys[..|keys| - 1];
      PaidWithMembers(data, init, k);
      assert keys == init + [keys[|keys| - 1]];
    }
  }

  /** Keys that all count are listed as they are; keys none of which counts
      give the empty list. */
  lemma {:induction false} PaidWithAllOrNone(data: Dict, keys: seq<string>)
    ensures (forall i :: 0 <= i < |keys| ==> Paid(data, keys[i])) ==> PaidWith(data, keys) == keys
    ensures (forall i :: 0 <= i < |keys| ==> !Paid(data, keys[i])) ==> PaidWith(data, keys) == []
  {
    if keys != [] {
      var init := keys[..|keys| - 1];
      PaidWithAllOrNone(data, init);
      assert keys == init + [keys[|keys| - 1]];
    }
  }

  /** The counting keys taken front to back: `keys` filtered by `Paid`. */
  function Counting(data: Dict, keys: seq<string>): seq<string>
  {
    if keys == [] then []
    else (if Paid(data, keys[0]) then [keys[0]] else []) + Counting(data, keys[1..])
  }

  /** Listing the keys of two runs lists each run in turn. */
  lemma {:induction false} PaidWithAppend(data: Dict, a: seq<string>, b: seq<string>)
    ensures PaidWith(data, a + b) == PaidWith(data, a) + PaidWith(data, b)
  {
    if b == [] {
      assert a + b == a;
    } else {
      var init := b[..|b| - 1];
      assert (a + b)[..|a + b| - 1] == a + init;
      assert (a + b)[|a + b| - 1] == b[|b| - 1];
      PaidWithAppend(data, a, init);
    }
  }

  /** The loop lists exactly the counting keys, in the order of `keys`. */
  lemma {:induction false} PaidWithFilters(data: Dict, keys: seq<string>)
    ensures PaidWith(data, keys) == Counting(data, keys)
  {
    if keys != [] {
      assert keys == [keys[0]] + keys[1..];
      assert [keys[0]][..0] == [];
      PaidWithAppend(data, [keys[0]], keys[1..]);
      PaidWithFilters(data, keys[1..]);
    }
  }

  /** `', '.join(payment_methods) if payment_methods else None` */
  function Summary(data: Dict, keys: seq<string>): Json {
    var ps := PaidWith(data, keys);
    if ps == [] then JNull else JStr(Join(ps, ", "))
  }

  /** The list is empty exactly when none of the keys counts. */
  lemma {:induction false} PaidWithEmpty(data: Dict, keys: seq<string>)
    ensures PaidWith(data, keys) == [] <==> forall i :: 0 <= i < |keys| ==> !Paid(data, keys[i])
  {
    PaidWithAllOrNone(data, keys);
    forall i | 0 <= i < |keys|
      ensures Paid(data, keys[i]) ==> keys[i] in PaidWith(data, keys)
    {
      PaidWithMembers(data, keys, keys[i]);
    }
  }

  /** The summary is None exactly when no payment counts. */
  lemma {:induction false} SummaryNone(data: Dict, keys: seq<string>)
    ensures Summary(data, keys) == JNull <==> forall i :: 0 <= i < |keys| ==> !Paid(data, keys[i])
  {
    PaidWithEmpty(data, keys);
  }

  /** The payment loop of `parse_receipt_text`. */
  method SummarisePayments(data: Dict, keys: seq<string>) returns (v: Json)
    ensures v == Summary(data, keys)
  {
    var methods: seq<string> := [];
    for k := 0 to |keys|
      invariant methods == PaidWith(data, keys[..k])
    {
      var key := keys[k];
      assert keys[..k + 1][..k] == keys[..k];
      if Truthy(Get(data, key)) {
        var amount := FloatOf(Get(data, key));
        if amount.Some? && amount.value > 0.0 {
          methods := methods + [key];
        }
      }
    }
    assert keys[..|keys|] == keys;
    v := if methods == [] then JNull else JStr(Join(methods, ", "));
  }

  /** What the receipt-level part works through: the columns, the field
      patterns and the payment keys. */
  datatype Layout = Layout(columns: seq<string>, patterns: seq<Pattern>, payments: seq<string>)

  /** parser.py's layout. */
  const ParserLayout: Layout := Layout(ParserColumns, Patterns, PaymentKeys)

  /** The receipt fields `parse_receipt_text` fills in before the items. */
  function Header(filename: string, lay: Layout, search: string -> Option<Groups>, alt: Option<string>): Dict {
    var d := Fields(Blank(lay.columns)["filename" := JStr(filename)], lay.patterns, search);
    var e := StoreFromTaxpayer(FiscalFallback(d, alt));
    e["payment_methods" := Summary(e, lay.payments)]
  }

  /** The receipt-level part of `parse_receipt_text`. */
  method ParseHeader(filename: string, lay: Layout, search: string -> Option<Groups>, alt: Option<string>)
    returns (data: Dict)
    ensures data == Header(filename, lay, search, alt)
  {
    data := InitData(filename, lay.columns);
    data := StoreMatches(data, lay.patterns, search);
    if !Truthy(Get(data, "fiscal_id")) && alt.Some? {
      data := data["fiscal_id" := JStr(Strip(alt.value))];
    }
    if !Truthy(Get(data, "store_name")) && Truthy(Get(data, "taxpayer_name")) {
      data := data["store_name" := data["taxpayer_name"]];
    }
    var payments := SummarisePayments(data, lay.payments);
    data := data["payment_methods" := payments];
  }
}
