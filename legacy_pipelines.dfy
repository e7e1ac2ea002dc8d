/** The drivers of the three LLM-based extractors: the item extraction and
    the receipt × item merge of ai_parser.py with its folder run, the
    batched run of ai_parser_batch.py, whose results arrive in completion
    order, and the three-receipt run of ai_parser_test.py. The OCR text and
    the model's replies of each image are given, as is `json.loads`. */
module LegacyPipelines {
  import opened Wrappers
  import opened Decimal
  import opened Values
  import opened Reconcile
  import opened Records
  import opened LegacyCleaning

  function Min(a: nat, b: nat): nat {
    if a < b then a else b
  }

  /** What the OCR and the two model calls produced for one image. The
      receipt is extracted from `receiptReply` (None: the call raised), the
      items from `itemsReply`, and `storeLine` is the taxpayer line found in
      the OCR text for the fallback record of ai_parser.py. */
  datatype Capture =
    | Captured(filename: string, receiptReply: Option<string>, itemsReply: Option<string>, storeLine: Option<string>)
    | OcrFailed(filename: string)

  // ---------------------------------------------------------------------
  // ai_parser.py: the item list

  /** The four item fields a record takes from its item. */
  const ItemFields: set<string> := {"item_name", "quantity", "unit_price", "line_total"}

  /** The item list of a reply nothing was kept from. */
  const Placeholder: Dict :=
    map["item_name" := JNull, "quantity" := JNull, "unit_price" := JNull, "line_total" := JNull]

  /** `float(item.get(k, 0))`: None when `float` raises. */
  function AmountOf(item: Dict, k: string): (r: Option<real>)
    ensures k !in item ==> r == Some(0.0)
  {
    if k in item then FloatOf(item[k]) else Some(0.0)
  }

  /** The three amounts of an item are read and agree within the tolerance. */
  predicate AmountsAgree(d: Dict) {
    var q, p, t := AmountOf(d, "quantity"), AmountOf(d, "unit_price"), AmountOf(d, "line_total");
    q.Some? && p.Some? && t.Some? && Consistent(q.value, p.value, t.value)
  }

  /** The check of one listed item: None when a `float` raised and the item
      is skipped, otherwise the item with its line total recomputed when the
      amounts disagree. */
  function ValidatedItem(item: Dict): Option<Dict>
  {
    var q, p, t := AmountOf(item, "quantity"), AmountOf(item, "unit_price"), AmountOf(item, "line_total");
    if q.None? || p.None? || t.None? then None
    else Some(Rechecked(item, q.value, p.value, t.value))
  }

  /** What one element of the reply's list contributes: a dict with an
      `item_name` key that passes the check. */
  function KeptFrom(e: Json): seq<Dict>
  {
    if e.JObj? && "item_name" in e.fields then
      match ValidatedItem(e.fields)
      case Some(d) => [d]
      case None => []
    else []
  }

  /** The items kept from the reply's list, in order. */
  function KeptItems(es: seq<Json>): seq<Dict>
    decreases |es|
  {
    if es == [] then [] else KeptItems(es[..|es| - 1]) + KeptFrom(es[|es| - 1])
  }

  /** `extract_items_with_ai`: the kept items, or the placeholder when none
      is kept, when the call raised, when the reply is no JSON, or when it is
      not a list (a dict or a str yields no dicts to keep; None or a number
      makes the loop raise). */
  function ItemList(reply: Option<string>, loads: string -> Option<Json>): seq<Dict>
  {
    match reply
    case None => [Placeholder]
    case Some(content) =>
      match loads(LegacyFence(content))
      case Some(JArr(es)) => if KeptItems(es) == [] then [Placeholder] else KeptItems(es)
      case _ => [Placeholder]
  }

  /** An item is kept exactly when its three amounts are read; every field
      but the line total is the item's own, and the line total is the item's
      when it agrees and q × p at two decimals when it does not. Either way
      the kept item's amounts agree. */
  lemma {:induction false} ValidatedItemSpec(item: Dict)
    ensures ValidatedItem(item).Some? <==>
      AmountOf(item, "quantity").Some? && AmountOf(item, "unit_price").Some? && AmountOf(item, "line_total").Some?
    ensures ValidatedItem(item).Some? ==>
      var d := ValidatedItem(item).value;
      AmountsAgree(d)
      && (forall k :: k != "line_total" ==> (k in d <==> k in item))
      && (forall k :: k in item && k != "line_total" ==> d[k] == item[k])
  {
    var q, p, t := AmountOf(item, "quantity"), AmountOf(item, "unit_price"), AmountOf(item, "line_total");
    if q.Some? && p.Some? && t.Some? {
      RecheckedAgrees(item, q.value, p.value, t.value);
    }
  }

  /** Read amounts, rechecked, agree: a recomputed line total reads back as
      q × p at two decimals, which is consistent. */
  lemma {:induction false} RecheckedAgrees(item: Dict, q: real, p: real, t: real)
    requires AmountOf(item, "quantity") == Some(q) && AmountOf(item, "unit_price") == Some(p)
    requires AmountOf(item, "line_total") == Some(t)
    ensures AmountsAgree(Rechecked(item, q, p, t))
  {
    var d := Rechecked(item, q, p, t);
    assert AmountOf(d, "quantity") == Some(q) && AmountOf(d, "unit_price") == Some(p);
    if !Consistent(q, p, t) {
      FloatOfMoney(q * p);
      RecomputedTotalConsistent(q, p);
      assert AmountOf(d, "line_total") == Some(Round2(q * p));
    }
  }

  /** Every kept item has a name key and agreeing amounts, and no element
      yields more than one item. */
  lemma {:induction false} KeptItemsSpec(es: seq<Json>)
    ensures |KeptItems(es)| <= |es|
    ensures forall d :: d in KeptItems(es) ==> "item_name" in d && AmountsAgree(d)
    decreases |es|
  {
    if es != [] {
      KeptItemsSpec(es[..|es| - 1]);
      var e := es[|es| - 1];
      if e.JObj? && "item_name" in e.fields {
        ValidatedItemSpec(e.fields);
      }
    }
  }

  /** A list of dicts that all carry a name and readable amounts loses none
      of them. */
  lemma {:induction false} KeptItemsAll(es: seq<Json>)
    requires forall k :: 0 <= k < |es| ==>
      (es[k].JObj? && "item_name" in es[k].fields && ValidatedItem(es[k].fields).Some?)
    ensures |KeptItems(es)| == |es|
    decreases |es|
  {
    if es != [] {
      KeptItemsAll(es[..|es| - 1]);
    }
  }

  /** The item list is never empty; each entry is the placeholder or a kept
      item; and a failed call, an unparsable reply or a reply that is not a
      list gives the placeholder alone. */
  lemma {:induction false} ItemListShape(reply: Option<string>, loads: string -> Option<Json>)
    ensures |ItemList(reply, loads)| >= 1
    ensures forall d :: d in ItemList(reply, loads) ==>
      d == Placeholder || ("item_name" in d && AmountsAgree(d))
    ensures (reply.None? || !(loads(LegacyFence(reply.value)).Some? && loads(LegacyFence(reply.value)).value.JArr?))
      ==> ItemList(reply, loads) == [Placeholder]
  {
    if reply.Some? {
      var v := loads(LegacyFence(reply.value));
      if v.Some? && v.value.JArr? {
        KeptItemsSpec(v.value.items);
      }
    }
  }

  /** The check of one item, as the loop body does it. */
  method ValidateItem(item: Dict) returns (r: Option<Dict>)
    ensures r == ValidatedItem(item)
  {
    var quantity := AmountOf(item, "quantity");
    var unitPrice := AmountOf(item, "unit_price");
    var lineTotal := AmountOf(item, "line_total");
    if quantity.None? || unitPrice.None? || lineTotal.None? {
      return None;
    }
    var expected := quantity.value * unitPrice.value;
    var d := item;
    if AbsReal(lineTotal.value - expected) > Tolerance {
      d := d["line_total" := JStr(Money(expected))];
    }
    return Some(d);
  }

  /** `extract_items_with_ai` with the reply given. */
  method ExtractItemsWithAi(reply: Option<string>, loads: string -> Option<Json>) returns (items: seq<Dict>)
    ensures items == ItemList(reply, loads)
  {
    if reply.None? {
      return [Placeholder];
    }
    var parsed := loads(LegacyFence(reply.value));
    if parsed.None? || !parsed.value.JArr? {
      return [Placeholder];
    }
    var es := parsed.value.items;
    var validated: seq<Dict> := [];
    for i := 0 to |es|
      invariant validated == KeptItems(es[..i])
    {
      assert es[..i + 1][..i] == es[..i];
      var e := es[i];
      var kept: seq<Dict> := [];
      if e.JObj? && "item_name" in e.fields {
        var v := ValidateItem(e.fields);
        if v.Some? {
          kept := [v.value];
        }
      }
      validated := validated + kept;
    }
    assert es[..|es|] == es;
    items := if validated == [] then [Placeholder] else validated;
  }

  // ---------------------------------------------------------------------
  // ai_parser.py: one record per item

  /** `receipt.copy()` updated with the item's four fields (`item.get`). */
  function WithItem(receipt: Dict, item: Dict): Dict
  {
    receipt["item_name" := Get(item, "item_name")]["quantity" := Get(item, "quantity")]
      ["unit_price" := Get(item, "unit_price")]["line_total" := Get(item, "line_total")]
  }

  /** A merged record is the receipt with the item's four fields. */
  lemma {:induction false} WithItemFields(receipt: Dict, item: Dict)
    ensures WithItem(receipt, item).Keys == receipt.Keys + ItemFields
    ensures forall k :: k in receipt && k !in ItemFields ==> WithItem(receipt, item)[k] == receipt[k]
    ensures forall k :: k in ItemFields ==> WithItem(receipt, item)[k] == Get(item, k)
  {
  }

  /** The records of one receipt: one per item, or the receipt with the four
      item fields None when the item list is empty. */
  function Merged(receipt: Dict, items: seq<Dict>): (r: seq<Dict>)
  {
    if items == [] then [WithItem(receipt, Placeholder)]
    else seq(|items|, k requires 0 <= k < |items| => WithItem(receipt, items[k]))
  }

  /** The receipt is never dropped: there are as many records as items, at
      least one, and the k-th record is the receipt with the k-th item's
      fields. */
  lemma {:induction false} MergedShape(receipt: Dict, items: seq<Dict>)
    ensures |Merged(receipt, items)| == if items == [] then 1 else |items|
    ensures forall k :: 0 <= k < |items| ==> Merged(receipt, items)[k] == WithItem(receipt, items[k])
    ensures items == [] ==> forall k :: k in ItemFields ==> Merged(receipt, items)[0][k] == JNull
  {
    if items == [] {
      WithItemFields(receipt, Placeholder);
      assert forall k :: k in ItemFields ==> Get(Placeholder, k) == JNull;
    }
  }

  /** The merge loop of `process_receipt_with_ai`. */
  method MergeRecords(receipt: Dict, items: seq<Dict>) returns (records: seq<Dict>)
    ensures records == Merged(receipt, items)
  {
    records := [];
    for i := 0 to |items|
      invariant |records| == i
      invariant forall k :: 0 <= k < i ==> records[k] == WithItem(receipt, items[k])
    {
      records := records + [WithItem(receipt, items[i])];
    }
    if records == [] {
      records := [WithItem(receipt, Placeholder)];
    }
  }

  /** `process_receipt_with_ai` of ai_parser.py: the fallback record with no
      store name when OCR raised, else the receipt merged with its items. */
  function AiRecords(c: Capture, loads: string -> Option<Json>): seq<Dict>
  {
    match c
    case OcrFailed(f) => [FallbackRecord(f, JNull)]
    case Captured(f, receiptReply, itemsReply, storeLine) =>
      Merged(ReceiptData(f, receiptReply, loads, FallbackRecord(f, FallbackStore(storeLine))), ItemList(itemsReply, loads))
  }

  /** A captured receipt gives one record per entry of its item list, each
      the receipt data with that entry's item fields. */
  lemma {:induction false} AiRecordsShape(c: Capture, loads: string -> Option<Json>)
    ensures |AiRecords(c, loads)| >= 1
    ensures c.Captured? ==>
      var items := ItemList(c.itemsReply, loads);
      var receipt := ReceiptData(c.filename, c.receiptReply, loads, FallbackRecord(c.filename, FallbackStore(c.storeLine)));
      |AiRecords(c, loads)| == |items|
      && forall k :: 0 <= k < |items| ==> AiRecords(c, loads)[k] == WithItem(receipt, items[k])
  {
    if c.Captured? {
      ItemListShape(c.itemsReply, loads);
      var receipt := ReceiptData(c.filename, c.receiptReply, loads, FallbackRecord(c.filename, FallbackStore(c.storeLine)));
      MergedShape(receipt, ItemList(c.itemsReply, loads));
    }
  }

  /** `process_receipt_with_ai` with the capture given. */
  method ProcessReceiptWithAi(c: Capture, loads: string -> Option<Json>) returns (records: seq<Dict>)
    ensures records == AiRecords(c, loads)
  {
    if c.OcrFailed? {
      var fallback := CreateFallbackData(c.filename, None);
      return [fallback];
    }
    var fallback := CreateFallbackData(c.filename, c.storeLine);
    var receipt := ExtractTextWithAi(c.filename, c.receiptReply, loads, fallback);
    var items := ExtractItemsWithAi(c.itemsReply, loads);
    records := MergeRecords(receipt, items);
  }

  /** The records of the folder, receipt after receipt. */
  function AiFolderRows(captures: seq<Capture>, loads: string -> Option<Json>): seq<Dict>
    decreases |captures|
  {
    if captures == [] then []
    else AiFolderRows(captures[..|captures| - 1], loads) + AiRecords(captures[|captures| - 1], loads)
  }

  /** Every image contributes at least one row. */
  lemma {:induction false} AiFolderRowsCount(captures: seq<Capture>, loads: string -> Option<Json>)
    ensures |AiFolderRows(captures, loads)| >= |captures|
    decreases |captures|
  {
    if captures != [] {
      AiFolderRowsCount(captures[..|captures| - 1], loads);
      AiRecordsShape(captures[|captures| - 1], loads);
    }
  }

  /** `process_receipts_folder_ai`: nothing is written when the directory is
      missing (`listing` None) or holds no image; otherwise the table of all
      records in the 30 columns. */
  function AiFolderTable(listing: Option<seq<Capture>>, loads: string -> Option<Json>): Option<seq<seq<Json>>>
  {
    match listing
    case None => None
    case Some(captures) =>
      if captures == [] then None else Some(Table(AiFolderRows(captures, loads), ColumnOrder))
  }

  /** A table is written exactly when there are images, with at least one row
      per image. */
  lemma {:induction false} AiFolderTableShape(listing: Option<seq<Capture>>, loads: string -> Option<Json>)
    ensures AiFolderTable(listing, loads).Some? <==> listing.Some? && listing.value != []
    ensures AiFolderTable(listing, loads).Some? ==> |AiFolderTable(listing, loads).value| >= |listing.value|
  {
    if listing.Some? && listing.value != [] {
      AiFolderRowsCount(listing.value, loads);
    }
  }

  /** `process_receipts_folder_ai` with the listing given. */
  method ProcessReceiptsFolderAi(listing: Option<seq<Capture>>, loads: string -> Option<Json>)
    returns (table: Option<seq<seq<Json>>>)
    ensures table == AiFolderTable(listing, loads)
  {
    if listing.None? || listing.value == [] {
      return None;
    }
    var captures := listing.value;
    var all: seq<Dict> := [];
    for i := 0 to |captures|
      invariant all == AiFolderRows(captures[..i], loads)
    {
      assert captures[..i + 1][..i] == captures[..i];
      var records := ProcessReceiptWithAi(captures[i], loads);
      all := all + records;
    }
    assert captures[..|captures|] == captures;
    table := Some(Table(all, ColumnOrder));
  }

  // ---------------------------------------------------------------------
  // ai_parser_batch.py and ai_parser_test.py: one record per receipt

  /** `process_receipt_with_ai` of ai_parser_batch.py and ai_parser_test.py:
      the receipt dict, whose fallback has no store name. */
  function SingleRecord(c: Capture, loads: string -> Option<Json>): Dict
  {
    match c
    case OcrFailed(f) => FallbackRecord(f, JNull)
    case Captured(f, receiptReply, _, _) => ReceiptData(f, receiptReply, loads, FallbackRecord(f, JNull))
  }

  /** The record of every capture, in the order given. */
  function SingleRecords(cs: seq<Capture>, loads: string -> Option<Json>): (r: seq<Dict>)
    ensures |r| == |cs|
  {
    seq(|cs|, k requires 0 <= k < |cs| => SingleRecord(cs[k], loads))
  }

  /** The records of a slice are the slice of the records. */
  lemma {:induction false} SingleRecordsSplit(cs: seq<Capture>, n: nat, loads: string -> Option<Json>)
    requires n <= |cs|
    ensures SingleRecords(cs, loads) == SingleRecords(cs[..n], loads) + SingleRecords(cs[n..], loads)
  {
    var all, a, b := SingleRecords(cs, loads), SingleRecords(cs[..n], loads), SingleRecords(cs[n..], loads);
    forall k | 0 <= k < |cs|
      ensures all[k] == (a + b)[k]
    {
      if k < n {
        assert (a + b)[k] == a[k] == SingleRecord(cs[..n][k], loads);
      } else {
        assert (a + b)[k] == b[k - n] == SingleRecord(cs[n..][k - n], loads);
      }
    }
    assert all == a + b;
  }

  /** The element at index `i`, or nothing when there is none. */
  function At<T>(rs: seq<T>, i: nat): (r: seq<T>)
    ensures i < |rs| ==> r == [rs[i]]
  {
    if i < |rs| then [rs[i]] else []
  }

  /** `rs` in the order `order`: the elements at those indices, in turn. */
  function Pick<T>(rs: seq<T>, order: seq<nat>): seq<T>
    decreases |order|
  {
    if order == [] then [] else Pick(rs, order[..|order| - 1]) + At(rs, order[|order| - 1])
  }

  lemma {:induction false} PickAppend<T>(rs: seq<T>, u: seq<nat>, v: seq<nat>)
    ensures Pick(rs, u + v) == Pick(rs, u) + Pick(rs, v)
    decreases |v|
  {
    if v != [] {
      var w := v[..|v| - 1];
      assert (u + v)[..|u + v| - 1] == u + w;
      assert (u + v)[|u + v| - 1] == v[|v| - 1];
      PickAppend(rs, u, w);
    } else {
      assert u + v == u;
    }
  }

  /** Removing the same index from two orders that hold the same indices
      leaves two orders that hold the same indices. */
  lemma {:induction false} MultisetRemove(init: seq<nat>, x: nat, a: seq<nat>, b: seq<nat>)
    requires multiset(init + [x]) == multiset(a + [x] + b)
    ensures multiset(init) == multiset(a + b)
  {
    var m1, m2 := multiset(init), multiset(a + b);
    assert multiset(init + [x]) == m1 + multiset{x};
    assert multiset(a + [x] + b) == multiset(a) + multiset{x} + multiset(b);
    assert m2 == multiset(a) + multiset(b);
    assert m1 + multiset{x} == m2 + multiset{x};
    forall y
      ensures m1[y] == m2[y]
    {
      assert (m1 + multiset{x})[y] == (m2 + multiset{x})[y];
    }
  }

  /** Picking in two orders that hold the same indices gives the same
      elements. */
  lemma {:induction false} PickPermutes<T>(rs: seq<T>, o1: seq<nat>, o2: seq<nat>)
    requires multiset(o1) == multiset(o2)
    ensures multiset(Pick(rs, o1)) == multiset(Pick(rs, o2))
    decreases |o1|
  {
    if o1 != [] {
      var x := o1[|o1| - 1];
      var init := o1[..|o1| - 1];
      assert o1 == init + [x];
      assert x in multiset(o2);
      var j :| 0 <= j < |o2| && o2[j] == x;
      var a, b := o2[..j], o2[j + 1..];
      assert o2 == a + [x] + b;
      MultisetRemove(init, x, a, b);
      PickPermutes(rs, init, a + b);
      PickAppend(rs, a, b);
      PickAppend(rs, a + [x], b);
      PickAppend(rs, a, [x]);
      assert Pick(rs, [x]) == At(rs, x) by {
        assert [x][..0] == [];
      }
      assert Pick(rs, o1) == Pick(rs, init) + At(rs, x);
    } else {
      assert |o2| == 0;
    }
  }

  /** `[0, 1, ..., n - 1]`. */
  function Indices(n: nat): (r: seq<nat>)
    ensures |r| == n && forall k :: 0 <= k < n ==> r[k] == k
  {
    seq(n, k requires 0 <= k < n => k)
  }

  /** Picking in index order gives the sequence itself. */
  lemma {:induction false} PickIndices<T>(rs: seq<T>, n: nat)
    requires n <= |rs|
    ensures Pick(rs, Indices(n)) == rs[..n]
    decreases n
  {
    if n > 0 {
      assert Indices(n)[..n - 1] == Indices(n - 1);
      PickIndices(rs, n - 1);
      assert rs[..n] == rs[..n - 1] + [rs[n - 1]];
    }
  }

  /** A completion order of `n` futures: each index once. */
  predicate IsOrder(order: seq<nat>, n: nat) {
    (forall k :: 0 <= k < |order| ==> order[k] < n) && multiset(order) == multiset(Indices(n))
  }

  /** The futures of the receipts per batch. */
  const BatchSize: nat := 10

  /** A completion order for every batch of `n` receipts, batch after batch. */
  predicate ValidOrders(n: nat, orders: seq<seq<nat>>)
    decreases n
  {
    if n == 0 then orders == []
    else |orders| > 0 && IsOrder(orders[0], Min(BatchSize, n)) && ValidOrders(n - Min(BatchSize, n), orders[1..])
  }

  /** `process_batch`: the batch's records as their futures complete. */
  function BatchResults(batch: seq<Capture>, order: seq<nat>, loads: string -> Option<Json>): seq<Dict>
    requires IsOrder(order, |batch|)
  {
    Pick(SingleRecords(batch, loads), order)
  }

  /** The rows of `main` of ai_parser_batch.py: the captures in batches of
      ten, each batch's records in its completion order. */
  function BatchedRows(cs: seq<Capture>, orders: seq<seq<nat>>, loads: string -> Option<Json>): seq<Dict>
    requires ValidOrders(|cs|, orders)
    decreases |cs|
  {
    if cs == [] then []
    else
      var n := Min(BatchSize, |cs|);
      BatchResults(cs[..n], orders[0], loads) + BatchedRows(cs[n..], orders[1..], loads)
  }

  /** A batch's results are its records in some order. */
  lemma {:induction false} BatchResultsPermute(batch: seq<Capture>, order: seq<nat>, loads: string -> Option<Json>)
    requires IsOrder(order, |batch|)
    ensures |BatchResults(batch, order, loads)| == |batch|
    ensures multiset(BatchResults(batch, order, loads)) == multiset(SingleRecords(batch, loads))
  {
    var rs := SingleRecords(batch, loads);
    var n := |batch|;
    PickPermutes(rs, order, Indices(n));
    PickIndices(rs, n);
    assert rs[..n] == rs;
    var r := BatchResults(batch, order, loads);
    assert |r| == |multiset(r)| == |multiset(rs)| == |rs|;
  }

  /** Every receipt gives exactly one row: the rows are the receipts'
      records, batch completion order aside. */
  lemma {:induction false} BatchedRowsPermute(cs: seq<Capture>, orders: seq<seq<nat>>, loads: string -> Option<Json>)
    requires ValidOrders(|cs|, orders)
    ensures |BatchedRows(cs, orders, loads)| == |cs|
    ensures multiset(BatchedRows(cs, orders, loads)) == multiset(SingleRecords(cs, loads))
    decreases |cs|
  {
    if cs != [] {
      var n := Min(BatchSize, |cs|);
      BatchResultsPermute(cs[..n], orders[0], loads);
      BatchedRowsPermute(cs[n..], orders[1..], loads);
      SingleRecordsSplit(cs, n, loads);
    }
  }

  /** The record of one receipt of a batch. */
  method ProcessSingleReceipt(c: Capture, loads: string -> Option<Json>) returns (record: Dict)
    ensures record == SingleRecord(c, loads)
  {
    if c.OcrFailed? {
      return FallbackRecord(c.filename, JNull);
    }
    record := ExtractTextWithAi(c.filename, c.receiptReply, loads, FallbackRecord(c.filename, JNull));
  }

  /** `process_batch` with the completion order given. */
  method ProcessBatch(batch: seq<Capture>, order: seq<nat>, loads: string -> Option<Json>) returns (results: seq<Dict>)
    requires IsOrder(order, |batch|)
    ensures results == BatchResults(batch, order, loads)
  {
    results := [];
    for k := 0 to |order|
      invariant results == Pick(SingleRecords(batch, loads), order[..k])
    {
      assert order[..k + 1][..k] == order[..k];
      var record := ProcessSingleReceipt(batch[order[k]], loads);
      results := results + [record];
    }
    assert order[..|order|] == order;
  }

  /** `main` of ai_parser_batch.py: nothing without an API key, otherwise the
      table of the batched rows. */
  function BatchTable(apiKey: bool, cs: seq<Capture>, orders: seq<seq<nat>>, loads: string -> Option<Json>): Option<seq<seq<Json>>>
    requires ValidOrders(|cs|, orders)
  {
    if apiKey then Some(Table(BatchedRows(cs, orders, loads), ColumnOrder)) else None
  }

  /** `main` of ai_parser_batch.py with the listing and the completion orders
      given. */
  method BatchMain(apiKey: bool, cs: seq<Capture>, orders: seq<seq<nat>>, loads: string -> Option<Json>)
    returns (table: Option<seq<seq<Json>>>)
    requires ValidOrders(|cs|, orders)
    ensures table == BatchTable(apiKey, cs, orders, loads)
  {
    if !apiKey {
      return None;
    }
    var all: seq<Dict> := [];
    var rest, pending := cs, orders;
    while rest != []
      invariant ValidOrders(|rest|, pending)
      invariant all + BatchedRows(rest, pending, loads) == BatchedRows(cs, orders, loads)
      decreases |rest|
    {
      var n := Min(BatchSize, |rest|);
      var results := ProcessBatch(rest[..n], pending[0], loads);
      ghost var later := BatchedRows(rest[n..], pending[1..], loads);
      assert all + results + later == all + (results + later);
      all := all + results;
      rest, pending := rest[n..], pending[1..];
    }
    assert all + [] == all;
    table := Some(Table(all, ColumnOrder));
  }

  /** The receipts ai_parser_test.py processes. */
  const TestLimit: nat := 3

  /** The rows of `main` of ai_parser_test.py: the records of the first three
      captures. */
  function TestRows(cs: seq<Capture>, loads: string -> Option<Json>): seq<Dict>
  {
    SingleRecords(cs[..Min(TestLimit, |cs|)], loads)
  }

  /** At most three rows, one per leading capture, in listing order. */
  lemma {:induction false} TestRowsShape(cs: seq<Capture>, loads: string -> Option<Json>)
    ensures |TestRows(cs, loads)| == if |cs| < 3 then |cs| else 3
    ensures forall k :: 0 <= k < |TestRows(cs, loads)| ==> TestRows(cs, loads)[k] == SingleRecord(cs[k], loads)
  {
  }

  /** `main` of ai_parser_test.py: nothing without an API key, otherwise the
      table of the first three records. */
  function TestTable(apiKey: bool, cs: seq<Capture>, loads: string -> Option<Json>): Option<seq<seq<Json>>>
  {
    if apiKey then Some(Table(TestRows(cs, loads), ColumnOrder)) else None
  }

  /** `main` of ai_parser_test.py with the listing given. */
  method TestMain(apiKey: bool, cs: seq<Capture>, loads: string -> Option<Json>) returns (table: Option<seq<seq<Json>>>)
    ensures table == TestTable(apiKey, cs, loads)
  {
    if !apiKey {
      return None;
    }
    var testFiles := cs[..Min(TestLimit, |cs|)];
    var all: seq<Dict> := [];
    for i := 0 to |testFiles|
      invariant all == SingleRecords(testFiles[..i], loads)
    {
      var record := ProcessSingleReceipt(testFiles[i], loads);
      all := all + [record];
      assert testFiles[..i + 1][..i] == testFiles[..i];
    }
    assert testFiles[..|testFiles|] == testFiles;
    table := Some(Table(all, ColumnOrder));
  }
}
