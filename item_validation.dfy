/** The validator of one item the language model returned (ai_parse.py
    `validate_and_clean_item`): a required-field gate, the numeric
    reconciliation, two-decimal formatting of the money fields and item-name
    cleaning, all done in place on the item's dict. */
module ItemValidation {
  import opened Wrappers
  import opened Text
  import opened Decimal
  import opened Values
  import opened ItemNames
  import opened Reconcile

  /** A dict the validator updates in place. */
  class Record {
    var fields: Dict

    constructor(fields: Dict)
      ensures this.fields == fields
    {
      this.fields := fields;
    }
  }

  /** The three amounts every item must carry, in the order they are checked. */
  const RequiredAmounts: seq<string> := ["quantity", "unit_price", "line_total"]

  /** The money fields formatted to two decimals, in the order they are formatted. */
  const MoneyFields: seq<string> :=
    ["unit_price", "line_total", "subtotal", "vat_18_percent", "total_tax",
     "cashless_payment", "cash_payment", "bonus_payment", "advance_payment",
     "credit_payment", "refund_amount"]

  /** An item name the gate rejects: falsy, "null" or "N/A". */
  predicate NameRejected(v: Json) {
    !Truthy(v) || v == JStr("null") || v == JStr("N/A")
  }

  /** A required amount the gate rejects: None, "null", "" or "N/A". */
  predicate AmountMissing(v: Json) {
    v == JNull || v == JStr("null") || v == JStr("") || v == JStr("N/A")
  }

  /** The amounts of an item that passed the gate, as `float` read them. */
  datatype Amounts = Amounts(quantity: real, unitPrice: real, lineTotal: real)

  /** The gate: the item's amounts, or None when the item is rejected before
      anything is changed (a rejected name, a missing amount, or an amount
      `float` cannot read). */
  function Gate(d: Dict): Option<Amounts>
  {
    if NameRejected(Get(d, "item_name")) then None
    else if AmountMissing(Get(d, "quantity")) || AmountMissing(Get(d, "unit_price"))
      || AmountMissing(Get(d, "line_total")) then None
    else
      match (FloatOf(Get(d, "quantity")), FloatOf(Get(d, "unit_price")), FloatOf(Get(d, "line_total")))
      case (Some(q), Some(p), Some(t)) => Some(Amounts(q, p, t))
      case _ => None
  }

  /** The dict holds the three amounts and `float` reads them as `a`. */
  predicate ReadsAs(d: Dict, a: Amounts) {
    "quantity" in d && "unit_price" in d && "line_total" in d
    && FloatOf(d["quantity"]) == Some(a.quantity)
    && FloatOf(d["unit_price"]) == Some(a.unitPrice)
    && FloatOf(d["line_total"]) == Some(a.lineTotal)
  }

  /** The dict after the magnitude fix: a quantity of 1000 or more is
      replaced by the one-decimal text of the fixed quantity. */
  function MagnitudeFixed(d: Dict, a: Amounts): Dict
  {
    if a.quantity >= 1000.0 then d["quantity" := JStr(Tenths(MagnitudeFix(a.quantity)))] else d
  }

  /** The dict after the magnitude fix and the consistency check. */
  function Reconciled(d: Dict, a: Amounts): (r: Dict)
    ensures "quantity" in d && "line_total" in d ==> r.Keys == d.Keys
  {
    var q1 := MagnitudeFix(a.quantity);
    var d1 := MagnitudeFixed(d, a);
    match Decide(q1, a.unitPrice, a.lineTotal)
    case Keep => d1
    case CorrectQuantity(c) => d1["quantity" := JStr(Tenths(c))]
    case RecomputeTotal(e) => d1["line_total" := JStr(Money(e))]
  }

  /** A money value the formatting loop rewrites: truthy and not "null". */
  predicate Formattable(v: Json) {
    Truthy(v) && v != JStr("null")
  }

  /** One money value after formatting: its two-decimal text, "0.00" when
      `float` cannot read it, or the value itself when it is not formattable. */
  function FormatMoneyValue(v: Json): Json
  {
    if Formattable(v) then
      match FloatOf(v)
      case Some(x) => JStr(Money(x))
      case None => JStr(Zero)
    else v
  }

  function FormatField(d: Dict, f: string): (r: Dict)
    ensures r.Keys == d.Keys
  {
    if f in d then d[f := FormatMoneyValue(d[f])] else d
  }

  /** The dict after formatting the fields `fs`, in order. */
  function FormatMoney(d: Dict, fs: seq<string>): (r: Dict)
    ensures r.Keys == d.Keys
    decreases |fs|
  {
    if fs == [] then d else FormatField(FormatMoney(d, fs[..|fs| - 1]), fs[|fs| - 1])
  }

  /** The name step: a truthy str name is cleaned; other names are kept. */
  function CleanName(d: Dict): (r: Dict)
    ensures r.Keys == d.Keys
  {
    var v := Get(d, "item_name");
    if Truthy(v) && v.JStr? then d["item_name" := JStr(CleanItemNameAi(v.s))] else d
  }

  /** A truthy name that is not a str makes the name cleaning raise. */
  predicate NameRaises(d: Dict) {
    var v := Get(d, "item_name");
    Truthy(v) && !v.JStr?
  }

  /** The dict after formatting, before the name step. */
  function Formatted(d: Dict, a: Amounts): (r: Dict)
    requires "quantity" in d && "line_total" in d
    ensures r.Keys == d.Keys
  {
    FormatMoney(Reconciled(d, a), MoneyFields)
  }

  /** The item's dict after the validator ran, whatever it returned: the
      changes made before an exception stay. No field is added or removed. */
  function ValidatedState(d: Dict): (r: Dict)
    ensures r.Keys == d.Keys
  {
    match Gate(d)
    case None => d
    case Some(a) =>
      var f := Formatted(d, a);
      if NameRaises(f) then f else CleanName(f)
  }

  /** The validator returns the item (rather than None). */
  predicate Kept(d: Dict) {
    match Gate(d)
    case None => false
    case Some(a) => !NameRaises(Formatted(d, a))
  }

  /** `validate_and_clean_item(item)` on a dict: updates it in place and says
      whether it returned the item. */
  method ValidateAndCleanItem(item: Record) returns (kept: bool)
    modifies item
    ensures item.fields == ValidatedState(old(item.fields))
    ensures kept == Kept(old(item.fields))
  {
    var amounts := CheckRequired(item.fields);
    if amounts.None? {
      return false;
    }
    ReconcileAmounts(item, amounts.value);
    // The plausibility flags (quantity over 50, unit price over 500) only
    // log, and the `float` calls they make cannot fail (FlagReadsSucceed).
    FormatMoneyFields(item);
    kept := CleanNameStep(item);
  }

  /** The required-field gate, in the order the checks run; nothing is
      changed. */
  method CheckRequired(d: Dict) returns (r: Option<Amounts>)
    ensures r == Gate(d)
  {
    if NameRejected(Get(d, "item_name")) {
      return None;
    }
    for i := 0 to |RequiredAmounts|
      invariant forall j :: 0 <= j < i ==> !AmountMissing(Get(d, RequiredAmounts[j]))
    {
      if AmountMissing(Get(d, RequiredAmounts[i])) {
        return None;
      }
    }
    assert !AmountMissing(Get(d, RequiredAmounts[0]));
    assert !AmountMissing(Get(d, RequiredAmounts[1]));
    assert !AmountMissing(Get(d, RequiredAmounts[2]));
    var quantity := FloatOf(Get(d, "quantity"));
    var unitPrice := FloatOf(Get(d, "unit_price"));
    var lineTotal := FloatOf(Get(d, "line_total"));
    if quantity.None? || unitPrice.None? || lineTotal.None? {
      return None;
    }
    return Some(Amounts(quantity.value, unitPrice.value, lineTotal.value));
  }

  /** The magnitude fix and the consistency check, in place: the decision
      `Decide` takes is applied to the dict. */
  method ReconcileAmounts(item: Record, a: Amounts)
    modifies item
    ensures item.fields == Reconciled(old(item.fields), a)
  {
    var quantity := a.quantity;
    if quantity >= 1000.0 {
      quantity := MagnitudeFix(quantity);
      item.fields := item.fields["quantity" := JStr(Tenths(quantity))];
    }
    match Decide(quantity, a.unitPrice, a.lineTotal)
    case Keep =>
    case CorrectQuantity(corrected) =>
      item.fields := item.fields["quantity" := JStr(Tenths(corrected))];
    case RecomputeTotal(expectedTotal) =>
      item.fields := item.fields["line_total" := JStr(Money(expectedTotal))];
  }

  /** The money-formatting loop, in place. */
  method FormatMoneyFields(item: Record)
    modifies item
    ensures item.fields == FormatMoney(old(item.fields), MoneyFields)
  {
    ghost var d := item.fields;
    for i := 0 to |MoneyFields|
      invariant item.fields == FormatMoney(d, MoneyFields[..i])
    {
      var f := MoneyFields[i];
      assert MoneyFields[..i + 1][..i] == MoneyFields[..i];
      if f in item.fields && Formattable(item.fields[f]) {
        var value := FloatOf(item.fields[f]);
        if value.Some? {
          item.fields := item.fields[f := JStr(Money(value.value))];
        } else {
          item.fields := item.fields[f := JStr(Zero)];
        }
      }
    }
    assert MoneyFields[..|MoneyFields|] == MoneyFields;
  }

  /** The name step, in place; false when it raises because the name is not
      a str. */
  method CleanNameStep(item: Record) returns (ok: bool)
    modifies item
    ensures ok == !NameRaises(old(item.fields))
    ensures item.fields == if ok then CleanName(old(item.fields)) else old(item.fields)
  {
    var name := Get(item.fields, "item_name");
    if Truthy(name) {
      if !name.JStr? {
        return false;
      }
      item.fields := item.fields["item_name" := JStr(CleanItemNameAi(name.s))];
    }
    return true;
  }

  /** `validate_and_clean_item(v)` on any value the model returned: anything
      but a dict makes `.get` raise, so the result is None. The result is the
      updated dict when the item is kept. */
  method ValidateValue(v: Json) returns (r: Option<Dict>)
    ensures v.JObj? && Kept(v.fields) ==> r == Some(ValidatedState(v.fields))
    ensures !(v.JObj? && Kept(v.fields)) ==> r == None
  {
    if !v.JObj? {
      return None;
    }
    var item := new Record(v.fields);
    var kept := ValidateAndCleanItem(item);
    r := if kept then Some(item.fields) else None;
  }

  // ---------------------------------------------------------------------
  // Properties of the validator
  // ---------------------------------------------------------------------

  /** The gate keeps exactly the items with a usable name and three present,
      readable amounts. */
  lemma {:induction false} GateAccepts(d: Dict)
    ensures Gate(d).Some? <==>
      "item_name" in d && Truthy(d["item_name"]) && d["item_name"] != JStr("null") && d["item_name"] != JStr("N/A")
      && "quantity" in d && !AmountMissing(d["quantity"]) && FloatOf(d["quantity"]).Some?
      && "unit_price" in d && !AmountMissing(d["unit_price"]) && FloatOf(d["unit_price"]).Some?
      && "line_total" in d && !AmountMissing(d["line_total"]) && FloatOf(d["line_total"]).Some?
    ensures Gate(d).Some? ==> ReadsAs(d, Gate(d).value)
  {
  }

  /** A rejected item is returned as None and left exactly as it was. */
  lemma {:induction false} RejectedUnchanged(d: Dict)
    requires Gate(d).None?
    ensures !Kept(d) && ValidatedState(d) == d
  {
  }

  /** An item is kept exactly when it passes the gate with a str name. */
  lemma {:induction false} KeptIff(d: Dict)
    ensures Kept(d) <==> Gate(d).Some? && d["item_name"].JStr?
  {
    if Gate(d).Some? {
      var a := Gate(d).value;
      OutsideMoneyFields();
      FormattedAt(d, a, "item_name");
      ReconciledAt(d, a, "item_name");
    }
  }

  /** The fields a money-formatting pass over `fs` touches are exactly those
      in `fs`, each formatted once. */
  lemma {:induction false} FormatMoneyEffect(d: Dict, fs: seq<string>)
    ensures FormatMoney(d, fs).Keys == d.Keys
    ensures forall k :: k in d ==>
      FormatMoney(d, fs)[k] == if k in fs then FormatMoneyValue(d[k]) else d[k]
    decreases |fs|
  {
    if fs != [] {
      var init, f := fs[..|fs| - 1], fs[|fs| - 1];
      assert fs == init + [f];
      FormatMoneyEffect(d, init);
      var m := FormatMoney(d, init);
      forall k | k in d
        ensures FormatMoney(d, fs)[k] == if k in fs then FormatMoneyValue(d[k]) else d[k]
      {
        if k == f {
          if k in init {
            FormatMoneyIdempotent(d[k]);
          }
        } else {
          assert k in fs <==> k in init;
        }
      }
    }
  }

  /** "null" is not a number, so a formatted amount is never "null". */
  lemma {:induction false} NullIsNotANumber()
    ensures ParseDecimal("null") == None
  {
    assert Strip("null") == "null" by {
      assert Trimmed("null");
    }
    assert ParseUnsigned("null") == None by {
      assert !AllDigits("null") by {
        assert !IsDigit("null"[0]);
      }
    }
  }

  /** Neither "N/A" nor the empty string is a number. */
  lemma {:induction false} MissingIsNotANumber()
    ensures ParseDecimal("N/A") == None && ParseDecimal("") == None
  {
    assert Strip("N/A") == "N/A" by {
      assert Trimmed("N/A");
    }
    assert ParseUnsigned("N/A") == None by {
      assert !AllDigits("N/A") by {
        assert !IsDigit("N/A"[0]);
      }
    }
    assert Strip("") == "";
  }

  /** A value `float` reads is never one the gate counts as missing. */
  lemma {:induction false} ReadableNotMissing(x: Json)
    requires FloatOf(x).Some?
    ensures !AmountMissing(x)
  {
    NullIsNotANumber();
    MissingIsNotANumber();
  }

  /** A two-decimal text is formattable and formats to itself. */
  lemma {:induction false} MoneyTextFormatsToItself(x: real)
    ensures Formattable(JStr(Money(x)))
    ensures FormatMoneyValue(JStr(Money(x))) == JStr(Money(x))
  {
    ParseMoney(x);
    NullIsNotANumber();
    assert Money(x) != "";
    assert Money(x) != "null";
    MoneyStable(x);
  }

  /** Formatting a money value twice is formatting it once. */
  lemma {:induction false} FormatMoneyIdempotent(v: Json)
    ensures FormatMoneyValue(FormatMoneyValue(v)) == FormatMoneyValue(v)
  {
    if Formattable(v) {
      match FloatOf(v)
      case Some(x) => MoneyTextFormatsToItself(x);
      case None => ZeroIsMoney(); MoneyTextFormatsToItself(0.0);
    }
  }

  /** A money text: what `f"{x:.2f}"` prints for the value it reads back as. */
  predicate MoneyText(v: Json) {
    v.JStr? && ParseDecimal(v.s).Some? && v.s == Money(ParseDecimal(v.s).value)
  }

  /** Each formattable money value becomes a money text: its own amount at two
      decimals, or "0.00" when it is not a number; the others stay. */
  lemma {:induction false} FormatMoneyValueIs(v: Json)
    ensures Formattable(v) ==> MoneyText(FormatMoneyValue(v))
    ensures Formattable(v) && FloatOf(v).Some? ==>
      FloatOf(FormatMoneyValue(v)) == Some(Round2(FloatOf(v).value))
    ensures Formattable(v) && FloatOf(v).None? ==> FormatMoneyValue(v) == JStr(Zero)
    ensures !Formattable(v) ==> FormatMoneyValue(v) == v
  {
    if Formattable(v) {
      match FloatOf(v)
      case Some(x) =>
        ParseMoney(x);
        MoneyStable(x);
      case None =>
        ZeroIsMoney();
        ParseMoney(0.0);
        assert Round2(0.0) == 0.0;
    }
  }

  /** The quantity and the item name are not money fields. */
  lemma {:induction false} OutsideMoneyFields()
    ensures "quantity" !in MoneyFields && "item_name" !in MoneyFields
  {
  }

  /** The line total is a money field. */
  lemma {:induction false} LineTotalIsMoney()
    ensures "line_total" in MoneyFields
  {
    assert MoneyFields[1] == "line_total";
  }

  /** Only the name step touches the item name. */
  lemma {:induction false} ValidatedAt(d: Dict, k: string)
    requires Gate(d).Some? && k in d && k != "item_name"
    ensures ValidatedState(d)[k] == Formatted(d, Gate(d).value)[k]
  {
  }

  /** The formatting pass touches the money fields only. */
  lemma {:induction false} FormattedAt(d: Dict, a: Amounts, k: string)
    requires "quantity" in d && "line_total" in d && k in d
    ensures Formatted(d, a)[k] ==
      if k in MoneyFields then FormatMoneyValue(Reconciled(d, a)[k]) else Reconciled(d, a)[k]
  {
    FormatMoneyEffect(Reconciled(d, a), MoneyFields);
  }

  /** The reconciliation touches the quantity and the line total only. */
  lemma {:induction false} ReconciledAt(d: Dict, a: Amounts, k: string)
    requires "quantity" in d && "line_total" in d && k in d
    requires k != "quantity" && k != "line_total"
    ensures Reconciled(d, a)[k] == d[k]
  {
  }

  /** Every field other than the quantity, the line total, the money fields
      and the item name is as it was. */
  lemma {:induction false} OtherFieldsUntouched(d: Dict, k: string)
    requires Gate(d).Some? && k in d
    requires k !in MoneyFields && k != "quantity" && k != "item_name"
    ensures ValidatedState(d)[k] == d[k]
  {
    var a := Gate(d).value;
    ValidatedAt(d, k);
    FormattedAt(d, a, k);
    LineTotalIsMoney();
    ReconciledAt(d, a, k);
  }

  /** After validation each money field other than the line total holds its
      original value formatted to two decimals (or "0.00"), or is untouched
      when it was falsy or "null" (FormatMoneyValueIs). */
  lemma {:induction false} MoneyFieldsFormatted(d: Dict, k: string)
    requires Gate(d).Some? && k in d && k in MoneyFields && k != "line_total"
    ensures ValidatedState(d)[k] == FormatMoneyValue(d[k])
  {
    var a := Gate(d).value;
    OutsideMoneyFields();
    ValidatedAt(d, k);
    FormattedAt(d, a, k);
    ReconciledAt(d, a, k);
  }

  /** The line total is formatted after the reconciliation: it holds the
      reconciled line total at two decimals. */
  lemma {:induction false} LineTotalFormatted(d: Dict)
    requires Gate(d).Some?
    ensures ValidatedState(d)["line_total"] == FormatMoneyValue(Reconciled(d, Gate(d).value)["line_total"])
  {
    var a := Gate(d).value;
    ValidatedAt(d, "line_total");
    FormattedAt(d, a, "line_total");
    LineTotalIsMoney();
  }

  /** The quantity is never formatted as money: it is the original value or
      the one-decimal text of the corrected quantity. */
  lemma {:induction false} QuantityNotMoney(d: Dict)
    requires Gate(d).Some?
    ensures ValidatedState(d)["quantity"] == Reconciled(d, Gate(d).value)["quantity"]
  {
    var a := Gate(d).value;
    OutsideMoneyFields();
    ValidatedAt(d, "quantity");
    FormattedAt(d, a, "quantity");
  }

  /** The `float` calls of the two plausibility flags always succeed, since the
      quantity and the unit price read by them were either read once already
      or written as one-decimal text. */
  lemma {:induction false} FlagReadsSucceed(d: Dict, a: Amounts)
    requires Gate(d) == Some(a)
    ensures FloatOf(Get(Reconciled(d, a), "quantity")).Some?
    ensures FloatOf(Get(Reconciled(d, a), "unit_price")) == Some(a.unitPrice)
  {
    GateAccepts(d);
    MagnitudeStep(d, a);
    match Decide(MagnitudeFix(a.quantity), a.unitPrice, a.lineTotal)
    case Keep => KeepOutcome(d, a);
    case CorrectQuantity(c) => CorrectOutcome(d, a, c);
    case RecomputeTotal(_) => RecomputeOutcome(d, a);
  }

  /** A consistent item is left as the magnitude fix left it. */
  lemma {:induction false} KeepOutcome(d: Dict, a: Amounts)
    requires Decide(MagnitudeFix(a.quantity), a.unitPrice, a.lineTotal) == Keep
    ensures Reconciled(d, a) == MagnitudeFixed(d, a)
    ensures Consistent(MagnitudeFix(a.quantity), a.unitPrice, a.lineTotal)
  {
    DecideOutcomes(MagnitudeFix(a.quantity), a.unitPrice, a.lineTotal);
  }

  /** A corrected quantity lies in (0, 100] and is what the quantity then
      reads as; the line total and the unit price stay. */
  lemma {:induction false} CorrectOutcome(d: Dict, a: Amounts, c: real)
    requires Decide(MagnitudeFix(a.quantity), a.unitPrice, a.lineTotal) == CorrectQuantity(c)
    ensures var r := Reconciled(d, a);
      "quantity" in r && FloatOf(r["quantity"]) == Some(c) && 0.0 < c <= 100.0
      && Get(r, "unit_price") == Get(d, "unit_price") && Get(r, "line_total") == Get(d, "line_total")
  {
    CorrectedValue(MagnitudeFix(a.quantity), a.unitPrice, a.lineTotal);
    Round1Stable(a.lineTotal / a.unitPrice);
    FloatOfTenth(c);
  }

  /** A recomputed line total reads back as q × p at two decimals (q after
      the magnitude fix), which the check then finds consistent
      (RecomputedTotalConsistent); the quantity is as the magnitude fix left
      it and the unit price stays. */
  lemma {:induction false} RecomputeOutcome(d: Dict, a: Amounts)
    requires Decide(MagnitudeFix(a.quantity), a.unitPrice, a.lineTotal).RecomputeTotal?
    ensures var r := Reconciled(d, a); var q1 := MagnitudeFix(a.quantity);
      "line_total" in r && FloatOf(r["line_total"]) == Some(Round2(q1 * a.unitPrice))
      && Get(r, "quantity") == Get(MagnitudeFixed(d, a), "quantity")
      && Get(r, "unit_price") == Get(d, "unit_price")
  {
    var e := MagnitudeFix(a.quantity) * a.unitPrice;
    RecomputedDict(d, a);
    ReadsMoneyAt(Reconciled(d, a), "line_total", e);
  }

  /** A recomputed item is the magnitude-fixed dict with the two-decimal text
      of q × p as its line total. */
  lemma {:induction false} RecomputedDict(d: Dict, a: Amounts)
    requires Decide(MagnitudeFix(a.quantity), a.unitPrice, a.lineTotal).RecomputeTotal?
    ensures Reconciled(d, a) ==
      MagnitudeFixed(d, a)["line_total" := JStr(Money(MagnitudeFix(a.quantity) * a.unitPrice))]
  {
    RecomputedValue(MagnitudeFix(a.quantity), a.unitPrice, a.lineTotal);
  }

  /** A field holding the two-decimal text of `e` reads back as `e` at two
      decimals. */
  lemma {:induction false} ReadsMoneyAt(r: Dict, k: string, e: real)
    requires k in r && r[k] == JStr(Money(e))
    ensures FloatOf(r[k]) == Some(Round2(e))
  {
    FloatOfMoney(e);
  }

  /** The magnitude fix changes only the quantity, which then reads as the
      fixed quantity. */
  lemma {:induction false} MagnitudeStep(d: Dict, a: Amounts)
    requires ReadsAs(d, a)
    ensures var d1 := MagnitudeFixed(d, a);
      d1.Keys == d.Keys && d1["unit_price"] == d["unit_price"] && d1["line_total"] == d["line_total"]
      && FloatOf(d1["quantity"]) == Some(MagnitudeFix(a.quantity))
  {
    if a.quantity >= 1000.0 {
      FixedQuantityReads(a.quantity);
    }
  }

  /** The text written for a fixed quantity reads back as that quantity. */
  lemma {:induction false} FixedQuantityReads(q: real)
    requires q >= 1000.0
    ensures FloatOf(JStr(Tenths(MagnitudeFix(q)))) == Some(MagnitudeFix(q))
  {
    Round1Stable(q / 1000.0);
    FloatOfTenth(MagnitudeFix(q));
  }

  /** An item that passes the gate with a str name is kept, and its name is
      cleaned: no surrounding or doubled whitespace, and never longer than
      before. The cleaned name may be empty: such an item is still returned. */
  lemma {:induction false} CleanedName(d: Dict)
    requires Gate(d).Some? && "item_name" in d && d["item_name"].JStr?
    ensures Kept(d)
    ensures ValidatedState(d)["item_name"] == JStr(CleanItemNameAi(d["item_name"].s))
    ensures Normal(ValidatedState(d)["item_name"].s)
    ensures |ValidatedState(d)["item_name"].s| <= |d["item_name"].s|
  {
    var a := Gate(d).value;
    OutsideMoneyFields();
    FormattedAt(d, a, "item_name");
    ReconciledAt(d, a, "item_name");
  }

  /** A returned item holds its cleaned str name; in particular it is a
      non-empty dict, which is what the callers test to keep it. */
  lemma {:induction false} KeptItemNamed(d: Dict)
    requires Kept(d)
    ensures "item_name" in d && d["item_name"].JStr? && "item_name" in ValidatedState(d)
    ensures ValidatedState(d)["item_name"] == JStr(CleanItemNameAi(d["item_name"].s))
    ensures ValidatedState(d) != map[]
  {
    KeptIff(d);
    CleanedName(d);
  }

  /** `validate_and_clean_item(v)` on any value, as a function: the updated
      dict of a kept item, None otherwise. */
  function ValidatedValue(v: Json): Option<Dict>
  {
    if v.JObj? && Kept(v.fields) then Some(ValidatedState(v.fields)) else None
  }

  /** An item whose name is a quote alone passes the gate and is returned with
      an empty name. */
  lemma {:induction false} QuoteNameKeptEmpty()
    ensures var d := map["item_name" := JStr("'"), "quantity" := JNum(1.0),
                         "unit_price" := JNum(2.0), "line_total" := JNum(2.0)];
      Kept(d) && ValidatedState(d)["item_name"] == JStr("")
  {
    var d := map["item_name" := JStr("'"), "quantity" := JNum(1.0),
                 "unit_price" := JNum(2.0), "line_total" := JNum(2.0)];
    assert Gate(d) == Some(Amounts(1.0, 2.0, 2.0));
    CleanedName(d);
    QuoteNameCleansToEmpty();
  }
}
