/** The output rows of the AI extractors: the fixed 30-column order the CSV is
    written in, the projection of a row onto it (missing columns empty, extra
    keys such as `error` dropped), and the fallback record that stands for a
    receipt nothing could be extracted from. */
module Records {
  import opened Wrappers
  import opened Decimal
  import opened Values

  /** The 30 output columns of the AI extractors, in order. */
  const ColumnOrder: seq<string> :=
    ["filename", "store_name", "store_address", "store_code", "taxpayer_name",
     "tax_id", "receipt_number", "cashier_name", "date", "time",
     "item_name", "quantity", "unit_price", "line_total", "subtotal",
     "vat_18_percent", "total_tax", "cashless_payment", "cash_payment", "bonus_payment",
     "advance_payment", "credit_payment", "queue_number", "cash_register_model",
     "cash_register_serial", "fiscal_id", "fiscal_registration", "refund_amount",
     "refund_date", "refund_time"]

  /** The marker a fallback record carries in its `error` field. */
  const ExtractionFailed: string := "AI extraction failed"

  /** The `error` field is not an output column. */
  lemma {:induction false} ErrorNotAColumn()
    ensures "error" !in ColumnOrder
  {
  }

  /** One row of the table: "add missing columns as None, reindex to the
      column order": each column's value, or None when the row lacks it. */
  function Project(row: Dict, cols: seq<string>): (r: seq<Json>)
    ensures |r| == |cols|
  {
    seq(|cols|, i requires 0 <= i < |cols| => Get(row, cols[i]))
  }

  /** A projected row holds, in column order, what the row has under each
      column and None for a column it lacks. */
  lemma {:induction false} ProjectAt(row: Dict, cols: seq<string>, i: nat)
    requires i < |cols|
    ensures cols[i] in row ==> Project(row, cols)[i] == row[cols[i]]
    ensures cols[i] !in row ==> Project(row, cols)[i] == JNull
  {
  }

  /** Two rows project alike exactly when they agree on every column: keys
      outside the columns, `error` among them, make no difference. */
  lemma {:induction false} ProjectAgrees(r1: Dict, r2: Dict, cols: seq<string>)
    ensures Project(r1, cols) == Project(r2, cols) <==>
      forall i :: 0 <= i < |cols| ==> Get(r1, cols[i]) == Get(r2, cols[i])
  {
    if forall i :: 0 <= i < |cols| ==> Get(r1, cols[i]) == Get(r2, cols[i]) {
      assert Project(r1, cols) == Project(r2, cols);
    } else {
      var i :| 0 <= i < |cols| && Get(r1, cols[i]) != Get(r2, cols[i]);
      assert Project(r1, cols)[i] != Project(r2, cols)[i];
    }
  }

  /** Setting a key that is not a column leaves the projected row as it was. */
  lemma {:induction false} ProjectIgnores(row: Dict, k: string, v: Json, cols: seq<string>)
    requires k !in cols
    ensures Project(row[k := v], cols) == Project(row, cols)
  {
    ProjectAgrees(row[k := v], row, cols);
  }

  /** The CSV table: one projected row per record, in order. */
  function Table(rows: seq<Dict>, cols: seq<string>): (t: seq<seq<Json>>)
    ensures |t| == |rows|
  {
    seq(|rows|, k requires 0 <= k < |rows| => Project(rows[k], cols))
  }

  /** Every row of the table has exactly the columns, the k-th row being the
      projection of the k-th record; the `error` marker never reaches it. */
  lemma {:induction false} TableRows(rows: seq<Dict>, k: nat)
    requires k < |rows|
    ensures |Table(rows, ColumnOrder)[k]| == 30
    ensures Table(rows, ColumnOrder)[k] == Project(rows[k], ColumnOrder)
    ensures "error" in rows[k] ==>
      Table(rows, ColumnOrder)[k] == Project(rows[k] - {"error"}, ColumnOrder)
  {
    ErrorNotAColumn();
    if "error" in rows[k] {
      assert rows[k] == (rows[k] - {"error"})["error" := rows[k]["error"]];
      ProjectIgnores(rows[k] - {"error"}, "error", rows[k]["error"], ColumnOrder);
    }
  }

  /** The fields a fallback record leaves None: every output column except
      the file name, the store name and the five payments. */
  const NullFields: set<string> :=
    {"store_address", "store_code", "taxpayer_name", "tax_id",
     "receipt_number", "cashier_name", "date", "time",
     "item_name", "quantity", "unit_price", "line_total",
     "subtotal", "vat_18_percent", "total_tax", "queue_number",
     "cash_register_model", "cash_register_serial", "fiscal_id",
     "fiscal_registration", "refund_amount", "refund_date", "refund_time"}

  /** `create_fallback_data`: the record of a receipt nothing could be
      extracted from: None in the fields above, "0.00" in the five payments,
      the file name, the failure marker, and a store name that is None except
      where a caller found one in the text. */
  function FallbackRecord(filename: string, storeName: Json): Dict
  {
    (map k | k in NullFields :: JNull)
      ["cashless_payment" := JStr(Zero)]["cash_payment" := JStr(Zero)]
      ["bonus_payment" := JStr(Zero)]["advance_payment" := JStr(Zero)]
      ["credit_payment" := JStr(Zero)]
      ["filename" := JStr(filename)]["error" := JStr(ExtractionFailed)]
      ["store_name" := storeName]
  }

  /** A fallback record holds exactly the output columns and the `error`
      marker. */
  lemma {:induction false} FallbackKeys(filename: string, storeName: Json)
    ensures forall k :: k in FallbackRecord(filename, storeName) <==> k in ColumnOrder || k == "error"
  {
  }

  /** A fallback record names its file and carries the failure marker. */
  lemma {:induction false} FallbackMarked(filename: string, storeName: Json)
    ensures "filename" in FallbackRecord(filename, storeName)
    ensures FallbackRecord(filename, storeName)["filename"] == JStr(filename)
    ensures "store_name" in FallbackRecord(filename, storeName)
    ensures FallbackRecord(filename, storeName)["store_name"] == storeName
    ensures "error" in FallbackRecord(filename, storeName)
    ensures FallbackRecord(filename, storeName)["error"] == JStr(ExtractionFailed)
  {
  }

  /** A fallback record has no item: its four item fields are None. */
  lemma {:induction false} FallbackItemless(filename: string, storeName: Json)
    ensures "item_name" in FallbackRecord(filename, storeName)
    ensures FallbackRecord(filename, storeName)["item_name"] == JNull
    ensures "quantity" in FallbackRecord(filename, storeName)
    ensures FallbackRecord(filename, storeName)["quantity"] == JNull
    ensures "unit_price" in FallbackRecord(filename, storeName)
    ensures FallbackRecord(filename, storeName)["unit_price"] == JNull
    ensures "line_total" in FallbackRecord(filename, storeName)
    ensures FallbackRecord(filename, storeName)["line_total"] == JNull
  {
  }

  /** The card, cash and bonus payments of a fallback record are "0.00"
      (`Zero`) ... */
  lemma {:induction false} FallbackPayments(filename: string, storeName: Json)
    ensures "cashless_payment" in FallbackRecord(filename, storeName)
    ensures FallbackRecord(filename, storeName)["cashless_payment"] == JStr(Zero)
    ensures "cash_payment" in FallbackRecord(filename, storeName)
    ensures FallbackRecord(filename, storeName)["cash_payment"] == JStr(Zero)
    ensures "bonus_payment" in FallbackRecord(filename, storeName)
    ensures FallbackRecord(filename, storeName)["bonus_payment"] == JStr(Zero)
  {
  }

  /** ... and so are the advance and credit payments. */
  lemma {:induction false} FallbackLaterPayments(filename: string, storeName: Json)
    ensures "advance_payment" in FallbackRecord(filename, storeName)
    ensures FallbackRecord(filename, storeName)["advance_payment"] == JStr(Zero)
    ensures "credit_payment" in FallbackRecord(filename, storeName)
    ensures FallbackRecord(filename, storeName)["credit_payment"] == JStr(Zero)
  {
  }
}
