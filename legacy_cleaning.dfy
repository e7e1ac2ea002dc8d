/** The receipt-level extractor shared by ai_parser.py, ai_parser_batch.py and
    ai_parser_test.py: the reply's fence is removed, the JSON object is
    projected onto the 30 fields and cleaned by `validate_and_clean_data`
    (identical in the three files but for log messages), and a fallback
    record stands in when the call, the parse or the projection fails. */
module LegacyCleaning {
  import opened Wrappers
  import opened Text
  import opened Decimal
  import opened Values
  import opened ItemNames
  import opened Reconcile
  import opened ItemValidation
  import opened Records
  import opened LlmResponse

  /** `v in [None, "null", ""]`. */
  predicate NullLike(v: Json) {
    v == JNull || v == JStr("null") || v == JStr("")
  }

  /** `{field: data.get(field, None) for field in fields}`. */
  function Projected(data: Dict, fields: seq<string>): (c: Dict)
    ensures forall k :: k in c <==> k in fields
    ensures forall k :: k in c ==> c[k] == Get(data, k)
  {
    map k | k in fields :: Get(data, k)
  }

  /** The calculation check: the dict with the line total recomputed when the
      three amounts are present, read, and disagree by more than the
      tolerance; None when `float` raised on one of them. */
  function CheckedTotals(c: Dict): Option<Dict>
  {
    var q, p, t := Get(c, "quantity"), Get(c, "unit_price"), Get(c, "line_total");
    if NullLike(q) || NullLike(p) || NullLike(t) then Some(c)
    else
      var x, y, z := FloatOf(q), FloatOf(p), FloatOf(t);
      if x.None? || y.None? || z.None? then None
      else Some(Rechecked(c, x.value, y.value, z.value))
  }

  /** The dict after a check of read amounts: the line total replaced by
      q × p at two decimals when the three disagree. Afterwards the line
      total, read back, agrees with q and p, and no other key changes. */
  function Rechecked(c: Dict, q: real, p: real, t: real): (r: Dict)
    ensures Consistent(q, p, t) ==> r == c
    ensures !Consistent(q, p, t) ==>
      "line_total" in r && r["line_total"] == JStr(Money(q * p)) &&
      FloatOf(r["line_total"]) == Some(Round2(q * p)) && Consistent(q, p, Round2(q * p))
    ensures forall k :: k != "line_total" ==> (k in r <==> k in c) && (k in r ==> r[k] == c[k])
  {
    if Consistent(q, p, t) then c
    else
      RecomputedTotalReads(q, p);
      c["line_total" := JStr(Money(q * p))]
  }

  /** The recomputed total reads back as q × p rounded, which agrees with
      q and p. */
  lemma RecomputedTotalReads(q: real, p: real)
    ensures FloatOf(JStr(Money(q * p))) == Some(Round2(q * p))
    ensures Consistent(q, p, Round2(q * p))
  {
    FloatOfMoney(q * p);
    assert AbsReal(Round2(q * p) - q * p) <= 0.005;
  }

  /** The suspicious-quantity check raises: a truthy quantity other than
      "null" that `float` cannot read. */
  predicate QuantityRaises(c: Dict) {
    var q := Get(c, "quantity");
    Truthy(q) && q != JStr("null") && FloatOf(q).None?
  }

  /** The name step: a truthy str name other than "null" is cleaned; a
      truthy non-str name makes `re.sub` raise, which leaves the dict as it
      is, like every other name. */
  function LegacyName(c: Dict): (r: Dict)
    ensures r.Keys == c.Keys
    ensures forall k :: k in c && k != "item_name" ==> r[k] == c[k]
  {
    var v := Get(c, "item_name");
    if Formattable(v) && v.JStr? then c["item_name" := JStr(CleanItemNameAi(v.s))] else c
  }

  /** `validate_and_clean_data(data)` on a dict: the projection, then the
      steps inside the `try`, any of which may raise and so end the cleaning
      with the changes made so far. */
  function Cleaned(data: Dict, fields: seq<string>): (r: Dict)
  {
    var c0 := Projected(data, fields);
    match CheckedTotals(c0)
    case None => c0
    case Some(c1) => Finished(c1)
  }

  /** The steps after the calculation check: the quantity check, which may
      raise, then the money formatting and the name cleaning. */
  function Finished(c: Dict): (r: Dict)
    ensures r.Keys == c.Keys
  {
    if QuantityRaises(c) then c else LegacyName(FormatMoney(c, MoneyFields))
  }

  /** The cleaning runs to the end without an exception. */
  predicate Completes(data: Dict, fields: seq<string>) {
    var c0 := Projected(data, fields);
    CheckedTotals(c0).Some? && !QuantityRaises(CheckedTotals(c0).value)
  }

  /** The result holds exactly the fields, whatever happens inside the `try`. */
  lemma {:induction false} CleanedFields(data: Dict, fields: seq<string>)
    ensures forall k :: k in Cleaned(data, fields) <==> k in fields
  {
    var c0 := Projected(data, fields);
    match CheckedTotals(c0)
    case None =>
    case Some(c1) =>
      assert c1.Keys == c0.Keys;
      if !QuantityRaises(c1) {
        FormatMoneyEffect(c1, MoneyFields);
      }
  }

  /** Outside the money fields and the item name, every field is the input's
      value or None: in particular the quantity is never changed. */
  lemma {:induction false} CleanedPassThrough(data: Dict, fields: seq<string>, k: string)
    requires k in fields && k !in MoneyFields && k != "item_name"
    ensures k in Cleaned(data, fields) && Cleaned(data, fields)[k] == Get(data, k)
  {
    var c0 := Projected(data, fields);
    LineTotalIsMoney();
    match CheckedTotals(c0)
    case None =>
    case Some(c1) =>
      assert k in c1 && c1[k] == c0[k];
      if !QuantityRaises(c1) {
        FormatMoneyEffect(c1, MoneyFields);
      }
  }

  /** The run completes exactly when neither `float` check raises: the three
      amounts are read (or one of them is absent), and the quantity is read
      (or falsy, or "null"). */
  lemma {:induction false} CompletesIff(data: Dict, fields: seq<string>)
    requires "quantity" in fields && "unit_price" in fields && "line_total" in fields
    ensures
      var q, p, t := Get(data, "quantity"), Get(data, "unit_price"), Get(data, "line_total");
      Completes(data, fields) <==>
        (NullLike(q) || NullLike(p) || NullLike(t)
         || (FloatOf(q).Some? && FloatOf(p).Some? && FloatOf(t).Some?))
        && !(Truthy(q) && q != JStr("null") && FloatOf(q).None?)
  {
    var c0 := Projected(data, fields);
    match CheckedTotals(c0)
    case None =>
    case Some(c1) =>
      assert Get(c1, "quantity") == Get(c0, "quantity");
  }

  /** An unreadable quantity such as "N/A" ends the cleaning before anything
      is changed: the result is the bare projection. */
  lemma {:induction false} UnreadableQuantityStops(data: Dict, fields: seq<string>)
    requires "quantity" in fields
    requires var q := Get(data, "quantity"); Truthy(q) && q != JStr("null") && FloatOf(q).None?
    ensures Cleaned(data, fields) == Projected(data, fields)
  {
  }

  /** When the three amounts are read and disagree, the check replaces the
      line total by q × p at two decimals. */
  lemma {:induction false} MismatchChecked(c: Dict, q: real, p: real, t: real)
    requires !NullLike(Get(c, "quantity")) && !NullLike(Get(c, "unit_price")) && !NullLike(Get(c, "line_total"))
    requires FloatOf(Get(c, "quantity")) == Some(q) && FloatOf(Get(c, "unit_price")) == Some(p)
    requires FloatOf(Get(c, "line_total")) == Some(t)
    requires !Consistent(q, p, t)
    ensures CheckedTotals(c) == Some(c["line_total" := JStr(Money(q * p))])
  {
  }

  /** A recomputed line total survives the money formatting unchanged. */
  lemma {:induction false} RecomputedSurvivesFormat(c: Dict, x: real)
    requires "line_total" in c && c["line_total"] == JStr(Money(x))
    ensures FormatMoney(c, MoneyFields)["line_total"] == JStr(Money(x))
  {
    FormatMoneyEffect(c, MoneyFields);
    LineTotalIsMoney();
    MoneyTextFormatsToItself(x);
  }

  /** The recomputed dict passes the quantity check: the quantity was read. */
  lemma {:induction false} RecomputedCompletes(c0: Dict, e: real)
    requires FloatOf(Get(c0, "quantity")).Some?
    ensures !QuantityRaises(c0["line_total" := JStr(Money(e))])
    ensures Finished(c0["line_total" := JStr(Money(e))])["line_total"] == JStr(Money(e))
  {
    var c1 := c0["line_total" := JStr(Money(e))];
    assert Get(c1, "quantity") == Get(c0, "quantity");
    RecomputedSurvivesFormat(c1, e);
  }

  /** When the three amounts are read and disagree, the run completes with
      the line total q × p at two decimals (the quantity stays as it was,
      by CleanedPassThrough). */
  lemma {:induction false} MismatchRecomputesTotal(data: Dict, fields: seq<string>, q: real, p: real, t: real)
    requires "quantity" in fields && "unit_price" in fields && "line_total" in fields
    requires !NullLike(Get(data, "quantity")) && !NullLike(Get(data, "unit_price")) && !NullLike(Get(data, "line_total"))
    requires FloatOf(Get(data, "quantity")) == Some(q) && FloatOf(Get(data, "unit_price")) == Some(p)
    requires FloatOf(Get(data, "line_total")) == Some(t)
    requires !Consistent(q, p, t)
    ensures Completes(data, fields)
    ensures Cleaned(data, fields)["line_total"] == JStr(Money(q * p))
  {
    var c0 := Projected(data, fields);
    MismatchChecked(c0, q, p, t);
    RecomputedCompletes(c0, q * p);
  }

  /** A completed run formats every money field: its two-decimal text, "0.00"
      when it is not a number, unchanged when falsy or "null". A line total
      the check did not recompute is formatted the same way. */
  lemma {:induction false} CompletedMoney(data: Dict, fields: seq<string>, k: string)
    requires k in fields && k in MoneyFields && Completes(data, fields)
    requires k == "line_total" ==> CheckedTotals(Projected(data, fields)) == Some(Projected(data, fields))
    ensures Cleaned(data, fields)[k] == FormatMoneyValue(Get(data, k))
  {
    var c0 := Projected(data, fields);
    var c1 := CheckedTotals(c0).value;
    assert k in c1 && c1[k] == Get(data, k) by {
      if k != "line_total" {
        assert c1.Keys == c0.Keys && c1[k] == c0[k];
      }
    }
    FormatMoneyEffect(c1, MoneyFields);
    OutsideMoneyFields();
  }

  /** A completed run cleans a str item name other than "" and "null"; any
      other name is kept. */
  lemma {:induction false} CompletedName(data: Dict, fields: seq<string>)
    requires "item_name" in fields && Completes(data, fields)
    ensures var v := Get(data, "item_name");
      Cleaned(data, fields)["item_name"] ==
        if Formattable(v) && v.JStr? then JStr(CleanItemNameAi(v.s)) else v
  {
    var c0 := Projected(data, fields);
    var c1 := CheckedTotals(c0).value;
    OutsideMoneyFields();
    assert c1.Keys == c0.Keys && c1["item_name"] == c0["item_name"];
    FormatMoneyEffect(c1, MoneyFields);
  }

  /** The projection loop: each field copied from the input, or None. */
  method ProjectFields(data: Dict, fields: seq<string>) returns (cleaned: Dict)
    ensures cleaned == Projected(data, fields)
  {
    cleaned := map[];
    for i := 0 to |fields|
      invariant cleaned == Projected(data, fields[..i])
    {
      assert fields[..i + 1] == fields[..i] + [fields[i]];
      cleaned := cleaned[fields[i] := Get(data, fields[i])];
    }
    assert fields[..|fields|] == fields;
  }

  /** `validate_and_clean_data` on a dict, step by step; a `float` or `re.sub`
      that raises ends the `try` with the dict as it stands. */
  method ValidateAndCleanData(data: Dict, fields: seq<string>) returns (cleaned: Dict)
    ensures cleaned == Cleaned(data, fields)
  {
    cleaned := ProjectFields(data, fields);
    var checked := CheckTotals(cleaned);
    if checked.None? {
      return;
    }
    cleaned := FinishCleaning(checked.value);
  }

  /** The quantity check, the money formatting and the name cleaning. */
  method FinishCleaning(c: Dict) returns (cleaned: Dict)
    ensures cleaned == Finished(c)
  {
    cleaned := c;
    var quantity := Get(cleaned, "quantity");
    if Truthy(quantity) && quantity != JStr("null") && FloatOf(quantity).None? {
      return;
    }
    cleaned := FormatMoneyLoop(cleaned, MoneyFields);
    var name := Get(cleaned, "item_name");
    if Formattable(name) && name.JStr? {
      cleaned := cleaned["item_name" := JStr(CleanItemNameAi(name.s))];
    }
  }

  /** The calculation check; None when `float` raises. */
  method CheckTotals(cleaned: Dict) returns (r: Option<Dict>)
    ensures r == CheckedTotals(cleaned)
  {
    r := Some(cleaned);
    var q, p, t := Get(cleaned, "quantity"), Get(cleaned, "unit_price"), Get(cleaned, "line_total");
    if !NullLike(q) && !NullLike(p) && !NullLike(t) {
      var x, y, z := FloatOf(q), FloatOf(p), FloatOf(t);
      if x.None? || y.None? || z.None? {
        return None;
      }
      var expected := x.value * y.value;
      if AbsReal(z.value - expected) > Tolerance {
        r := Some(cleaned["line_total" := JStr(Money(expected))]);
      }
    }
  }

  /** The `monetary_fields` loop, each field formatted inside its own `try`. */
  method FormatMoneyLoop(d: Dict, fs: seq<string>) returns (r: Dict)
    ensures r == FormatMoney(d, fs)
  {
    r := d;
    for i := 0 to |fs|
      invariant r == FormatMoney(d, fs[..i])
    {
      assert fs[..i + 1][..i] == fs[..i];
      var f := fs[i];
      if f in r && Formattable(r[f]) {
        match FloatOf(r[f]) {
          case Some(x) => r := r[f := JStr(Money(x))];
          case None => r := r[f := JStr(Zero)];
        }
      }
    }
    assert fs[..|fs|] == fs;
  }

  /** The fence removal of these extractors: only a reply that starts with
      ```` ```json ```` loses its fence tokens. */
  function LegacyFence(content: string): (r: string)
    ensures Trimmed(r)
  {
    var t := Strip(content);
    if StartsWith(t, JsonFence) then Strip(RemoveAll(RemoveAll(t, JsonFence), Fence)) else t
  }

  /** It agrees with the item extractor's removal on a ```` ```json ```` reply,
      and keeps a bare ```` ``` ```` fence, which then reaches `json.loads`. */
  lemma {:induction false} LegacyFenceCompared(content: string)
    ensures StartsWith(Strip(content), JsonFence) ==> LegacyFence(content) == StripFences(content)
    ensures !StartsWith(Strip(content), JsonFence) ==> LegacyFence(content) == Strip(content)
  {
  }

  /** `create_fallback_data(filename, ocr_text)` of ai_parser.py: the
      fallback record, with the store name taken from the taxpayer line when
      the OCR text has one (`storeLine` is that line's captured text). */
  method CreateFallbackData(filename: string, storeLine: Option<string>) returns (d: Dict)
    ensures d == FallbackRecord(filename, FallbackStore(storeLine))
  {
    d := FallbackRecord(filename, JNull);
    if storeLine.Some? {
      FallbackStoreName(filename, JStr(Strip(storeLine.value)));
      d := d["store_name" := JStr(Strip(storeLine.value))];
    }
  }

  /** The store name of the fallback record: the taxpayer line's text
      stripped, or None when the OCR text has no such line. */
  function FallbackStore(storeLine: Option<string>): (v: Json)
    ensures storeLine.None? ==> v == JNull
    ensures storeLine.Some? ==> v.JStr? && Trimmed(v.s)
  {
    if storeLine.Some? then JStr(Strip(storeLine.value)) else JNull
  }

  /** Setting the store name of a fallback record gives the record with
      that store name. */
  lemma {:induction false} FallbackStoreName(filename: string, v: Json)
    ensures FallbackRecord(filename, JNull)["store_name" := v] == FallbackRecord(filename, v)
  {
  }

  /** `extract_text_with_ai`: the cleaned receipt dict, or the fallback record
      when the call raised (`reply` None), `json.loads` raised, or the parsed
      value is not a dict (`.get` raises). */
  function ReceiptData(filename: string, reply: Option<string>, loads: string -> Option<Json>, fallback: Dict): Dict
  {
    match reply
    case None => fallback
    case Some(content) =>
      match loads(LegacyFence(content))
      case Some(JObj(m)) => Cleaned(m, ColumnOrder)
      case _ => fallback
  }

  /** The receipt dict has exactly the 30 columns when the model's object was
      cleaned, and is the fallback record otherwise. */
  lemma {:induction false} ReceiptDataShape(filename: string, reply: Option<string>, loads: string -> Option<Json>, fallback: Dict)
    ensures ReceiptData(filename, reply, loads, fallback) == fallback ||
      forall k :: k in ReceiptData(filename, reply, loads, fallback) <==> k in ColumnOrder
  {
    if reply.Some? {
      var v := loads(LegacyFence(reply.value));
      if v.Some? && v.value.JObj? {
        CleanedFields(v.value.fields, ColumnOrder);
      }
    }
  }

  /** `extract_text_with_ai` with the reply given. */
  method ExtractTextWithAi(filename: string, reply: Option<string>, loads: string -> Option<Json>, fallback: Dict)
    returns (data: Dict)
    ensures data == ReceiptData(filename, reply, loads, fallback)
  {
    if reply.None? {
      return fallback;
    }
    var text := LegacyFence(reply.value);
    var parsed := loads(text);
    if parsed.None? || !parsed.value.JObj? {
      return fallback;
    }
    data := ValidateAndCleanData(parsed.value.fields, ColumnOrder);
  }
}
