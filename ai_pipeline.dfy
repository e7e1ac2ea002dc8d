/** The driver of the language-model extractor (ai_parse.py): one receipt
    gives its extracted entries (validated items, or None where the
    fallback's second validation rejected one) or a fallback record, a batch collects the rows
    of its receipts in submission order, and the run goes batch by batch
    before the rows are projected onto the 30 columns. */
module AiPipeline {
  import opened Wrappers
  import opened Values
  import opened ItemValidation
  import opened LlmResponse
  import opened Records

  /** `extract_items_with_ai`'s default number of attempts. */
  const MaxRetries: nat := 2

  /** `BATCH_SIZE`: receipts submitted together. */
  const BatchSize: nat := 10

  /** What one receipt brings: its file name, its OCR text (None when the OCR
      call raised) and the model's replies to its prompt in attempt order. */
  datatype Receipt = Receipt(filename: string, ocr: Option<string>, replies: seq<Option<string>>)

  /** A submitted receipt's future: its file name and the rows the worker
      returned, or None when `future.result(timeout=60)` raised. */
  datatype Future = Future(filename: string, result: Option<seq<Option<Dict>>>)

  /** The record `create_fallback_data(filename)` returns, with no store name. */
  function Fallback(filename: string): Dict
  {
    FallbackRecord(filename, JNull)
  }

  /** `process_receipt_with_ai`: the extracted entries, or the fallback
      record when the OCR failed or nothing was extracted. */
  function ReceiptRows(r: Receipt, loads: string -> Option<Json>): seq<Option<Dict>>
  {
    if r.ocr.None? then [Some(Fallback(r.filename))]
    else
      var items := Extracted(r.replies, loads, MaxRetries);
      if items == [] then [Some(Fallback(r.filename))] else items
  }

  /** No validated item is a fallback record: the fallback has no item name. */
  lemma {:induction false} ItemIsNotFallback(x: Dict, filename: string)
    requires exists m :: Kept(m) && x == ValidatedState(m)
    ensures x != Fallback(filename)
  {
    var m :| Kept(m) && x == ValidatedState(m);
    KeptItemNamed(m);
    FallbackItemless(filename, JNull);
  }

  /** Every receipt yields at least one row; it yields the fallback record
      exactly when the OCR failed or every attempt failed; otherwise its
      present rows are validated items, and a None row comes only from the
      fallback parsing of a reply `json.loads` rejected. */
  lemma {:induction false} ReceiptRowsShape(r: Receipt, loads: string -> Option<Json>)
    ensures |ReceiptRows(r, loads)| >= 1
    ensures ReceiptRows(r, loads) == [Some(Fallback(r.filename))] <==>
      r.ocr.None? || Extracted(r.replies, loads, MaxRetries) == []
    ensures ReceiptRows(r, loads) != [Some(Fallback(r.filename))] ==>
      (forall x :: x in ReceiptRows(r, loads) && x.Some? ==> exists m :: Kept(m) && x.value == ValidatedState(m))
      && (None in ReceiptRows(r, loads) ==>
            exists k :: 0 <= k < MaxRetries && LoadsRejected(Reply(r.replies, k), loads))
  {
    var items := Extracted(r.replies, loads, MaxRetries);
    ExtractedValidated(r.replies, loads, MaxRetries);
    if r.ocr.Some? && items != [] {
      assert items[0] in items;
      if items[0].Some? {
        ItemIsNotFallback(items[0].value, r.filename);
      }
      assert ReceiptRows(r, loads)[0] != Some(Fallback(r.filename));
    }
  }

  /** `process_receipt_with_ai` on a receipt whose OCR text and replies are
      given. */
  method ProcessReceiptWithAi(r: Receipt, loads: string -> Option<Json>) returns (rows: seq<Option<Dict>>)
    ensures rows == ReceiptRows(r, loads)
  {
    if r.ocr.None? {
      return [Some(Fallback(r.filename))];
    }
    var items := ExtractItemsWithAi(r.replies, loads, MaxRetries);
    if items == [] {
      items := [Some(Fallback(r.filename))];
    }
    rows := items;
  }

  /** The futures of a batch hold what the workers computed: future k is
      receipt k's, and its result, unless it timed out, is that receipt's rows. */
  predicate Submitted(rs: seq<Receipt>, fs: seq<Future>, loads: string -> Option<Json>) {
    |fs| == |rs| &&
    forall k :: 0 <= k < |fs| ==>
      fs[k].filename == rs[k].filename
      && (fs[k].result.None? || fs[k].result == Some(ReceiptRows(rs[k], loads)))
  }

  /** The rows one future contributes: the fallback record on a time-out. */
  function FutureRows(f: Future): seq<Option<Dict>>
  {
    match f.result
    case None => [Some(Fallback(f.filename))]
    case Some(rows) => rows
  }

  /** The rows collected from the futures, future by future in submission
      order. */
  function Collected(fs: seq<Future>): seq<Option<Dict>>
  {
    if fs == [] then [] else Collected(fs[..|fs| - 1]) + FutureRows(fs[|fs| - 1])
  }

  /** The rows of two consecutive runs of futures are the rows of the first
      followed by those of the second: splitting into batches keeps the order. */
  lemma {:induction false} CollectedAppend(a: seq<Future>, b: seq<Future>)
    ensures Collected(a + b) == Collected(a) + Collected(b)
    decreases |b|
  {
    if b == [] {
      assert a + b == a;
    } else {
      var init, last := b[..|b| - 1], b[|b| - 1];
      assert (a + b)[..|a + b| - 1] == a + init;
      assert (a + b)[|a + b| - 1] == last;
      assert Collected(a + b) == Collected(a + init) + FutureRows(last);
      CollectedAppend(a, init);
      assert Collected(b) == Collected(init) + FutureRows(last);
    }
  }

  /** No worker returns an empty list of rows. */
  predicate NonEmptyResults(fs: seq<Future>) {
    forall k :: 0 <= k < |fs| && fs[k].result.Some? ==> fs[k].result.value != []
  }

  /** The workers' results are never empty, since every receipt yields a row. */
  lemma {:induction false} SubmittedNonEmpty(rs: seq<Receipt>, fs: seq<Future>, loads: string -> Option<Json>)
    requires Submitted(rs, fs, loads)
    ensures NonEmptyResults(fs)
  {
    forall k | 0 <= k < |fs| && fs[k].result.Some?
      ensures fs[k].result.value != []
    {
      ReceiptRowsShape(rs[k], loads);
    }
  }

  /** Each future gives at least one row, so there are at least as many rows
      as receipts. */
  lemma {:induction false} CollectedCount(fs: seq<Future>)
    requires NonEmptyResults(fs)
    ensures |Collected(fs)| >= |fs|
  {
    if fs != [] {
      CollectedCount(fs[..|fs| - 1]);
    }
  }

  /** Two adjacent slices make up the longer one. */
  lemma SliceJoin<T>(s: seq<T>, i: nat, j: nat)
    requires i <= j <= |s|
    ensures s[..i] + s[i..j] == s[..j]
  {
  }

  /** `process_batch`: results are collected in the order the receipts were
      submitted; a timed-out result is replaced by the fallback record. */
  method ProcessBatch(futures: seq<Future>) returns (rows: seq<Option<Dict>>)
    ensures rows == Collected(futures)
  {
    rows := [];
    for k := 0 to |futures|
      invariant rows == Collected(futures[..k])
    {
      var result: seq<Option<Dict>>;
      match futures[k].result {
        case None => result := [Some(Fallback(futures[k].filename))];
        case Some(r) => result := r;
      }
      assert futures[..k + 1][..k] == futures[..k];
      rows := rows + result;
    }
    assert futures[..|futures|] == futures;
  }

  /** `main`: the futures in batches of `BATCH_SIZE`, each batch's rows
      appended in turn; the result is the rows of all receipts in order, at
      least one per receipt. */
  method RunBatches(futures: seq<Future>) returns (all: seq<Option<Dict>>)
    ensures all == Collected(futures)
    ensures NonEmptyResults(futures) ==> |all| >= |futures|
  {
    all := [];
    var i := 0;
    while i < |futures|
      invariant 0 <= i <= |futures|
      invariant all == Collected(futures[..i])
      decreases |futures| - i
    {
      var j := if i + BatchSize < |futures| then i + BatchSize else |futures|;
      var batchRows := ProcessBatch(futures[i..j]);
      CollectedAppend(futures[..i], futures[i..j]);
      SliceJoin(futures, i, j);
      all := all + batchRows;
      i := j;
    }
    assert futures[..i] == futures;
    if NonEmptyResults(futures) {
      CollectedCount(futures);
    }
  }

  /** Every row is a dict: no None entry reached the table. */
  predicate AllPresent(xs: seq<Option<Dict>>) {
    forall k :: 0 <= k < |xs| ==> xs[k].Some?
  }

  /** The dicts of rows that are all present. */
  function Dicts(xs: seq<Option<Dict>>): (ds: seq<Dict>)
    requires AllPresent(xs)
    ensures |ds| == |xs|
  {
    seq(|xs|, k requires 0 <= k < |xs| => xs[k].value)
  }

  /** A run over submitted receipts has at least one row per receipt; when
      every row is a dict, the CSV table has one row of exactly the 30
      columns for each. */
  lemma {:induction false} RunTable(rs: seq<Receipt>, fs: seq<Future>, loads: string -> Option<Json>)
    requires Submitted(rs, fs, loads)
    ensures |Collected(fs)| >= |rs|
    ensures AllPresent(Collected(fs)) ==>
      |Table(Dicts(Collected(fs)), ColumnOrder)| >= |rs|
      && forall k :: 0 <= k < |Collected(fs)| ==>
           Table(Dicts(Collected(fs)), ColumnOrder)[k] == Project(Collected(fs)[k].value, ColumnOrder)
           && |Table(Dicts(Collected(fs)), ColumnOrder)[k]| == 30
  {
    SubmittedNonEmpty(rs, fs, loads);
    CollectedCount(fs);
    if AllPresent(Collected(fs)) {
      var ds := Dicts(Collected(fs));
      forall k | 0 <= k < |Collected(fs)|
        ensures Table(ds, ColumnOrder)[k] == Project(Collected(fs)[k].value, ColumnOrder)
        ensures |Table(ds, ColumnOrder)[k]| == 30
      {
        TableRows(ds, k);
      }
    }
  }
}
