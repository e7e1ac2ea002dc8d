/** The regular-expression parser (parser.py): the receipt fields and the item
    rows of one receipt's OCR text become one record per item, or one error
    record when no item was read; a folder of receipts becomes the 25-column
    table. */
module ReceiptParser {
  import opened Wrappers
  import opened Values
  import opened Text
  import opened ReceiptHeader
  import opened ItemRows
  import opened Records

  /** The marker of a receipt whose items could not be read. */
  const ItemParsingFailed: string := "Item parsing failed"

  /** The four fields an item adds to the receipt's fields. */
  const ItemKeys: set<string> := {"item_name", "quantity", "unit_price", "line_total"}

  /** What the regular expressions find in one receipt's text: the field
      patterns' groups by pattern key, the looser fiscal-id pattern's group,
      and the items block between the column headings and the subtotal. */
  datatype ReceiptText = ReceiptText(
    search: string -> Option<Groups>,
    fiscalAlt: Option<string>,
    block: Option<string>)

  /** The items read from the receipt's items block; none without a block. */
  function TextItems(block: Option<string>): seq<Item>
  {
    match block
    case None => []
    case Some(b) => ItemsOf(ItemLines(b))
  }

  /** `record = data.copy(); record.update(item)`. */
  function ItemRecord(header: Dict, it: Item): Dict
  {
    header["item_name" := JStr(it.name)]["quantity" := JNum(it.quantity)]
          ["unit_price" := JNum(it.unitPrice)]["line_total" := JNum(it.lineTotal)]
  }

  /** The records of a receipt: one per item, or the receipt's fields with
      the error marker when there is no item. */
  function ReceiptRecords(header: Dict, items: seq<Item>): seq<Dict>
  {
    if items == [] then [header["error" := JStr(ItemParsingFailed)]]
    else seq(|items|, k requires 0 <= k < |items| => ItemRecord(header, items[k]))
  }

  /** An item's record is the receipt's fields with the item's four fields
      set to the item's name and numbers; every other field is the
      receipt's. */
  lemma {:induction false} ItemRecordFields(header: Dict, it: Item)
    ensures ItemKeys <= ItemRecord(header, it).Keys
    ensures ItemRecord(header, it)["item_name"] == JStr(it.name)
    ensures ItemRecord(header, it)["quantity"] == JNum(it.quantity)
    ensures ItemRecord(header, it)["unit_price"] == JNum(it.unitPrice)
    ensures ItemRecord(header, it)["line_total"] == JNum(it.lineTotal)
    ensures forall k :: k !in ItemKeys ==>
      (k in ItemRecord(header, it) <==> k in header)
      && (k in header ==> ItemRecord(header, it)[k] == header[k])
  {
  }

  /** A receipt has at least one record; it has exactly one, carrying the
      error marker, when no item was read, and otherwise one per item, in
      item order, none of them marked. */
  lemma {:induction false} ReceiptRecordsShape(header: Dict, items: seq<Item>)
    requires "error" !in header
    ensures |ReceiptRecords(header, items)| == if items == [] then 1 else |items|
    ensures items == [] <==> "error" in ReceiptRecords(header, items)[0]
    ensures items == [] ==> ReceiptRecords(header, items)[0]["error"] == JStr(ItemParsingFailed)
    ensures forall k :: 0 <= k < |items| ==> ReceiptRecords(header, items)[k] == ItemRecord(header, items[k])
  {
    if items != [] {
      ItemRecordFields(header, items[0]);
    }
  }

  /** Every record of a receipt agrees with the receipt's fields outside the
      four item fields and the error marker. */
  lemma {:induction false} ReceiptRecordsKeepHeader(header: Dict, items: seq<Item>, j: nat, k: string)
    requires j < |ReceiptRecords(header, items)| && k !in ItemKeys && k != "error"
    ensures k in ReceiptRecords(header, items)[j] <==> k in header
    ensures k in header ==> ReceiptRecords(header, items)[j][k] == header[k]
  {
    if items != [] {
      ItemRecordFields(header, items[j]);
    }
  }

  /** The loop that combines the receipt's fields with each item: copy,
      update, append. */
  method CombineRecords(header: Dict, items: seq<Item>) returns (records: seq<Dict>)
    ensures records == ReceiptRecords(header, items)
  {
    if items == [] {
      var data := header["error" := JStr(ItemParsingFailed)];
      return [data];
    }
    records := [];
    for k := 0 to |items|
      invariant |records| == k
      invariant forall j :: 0 <= j < k ==> records[j] == ItemRecord(header, items[j])
    {
      var item := items[k];
      var record := header;
      record := record["item_name" := JStr(item.name)];
      record := record["quantity" := JNum(item.quantity)];
      record := record["unit_price" := JNum(item.unitPrice)];
      record := record["line_total" := JNum(item.lineTotal)];
      records := records + [record];
    }
  }

  /** No field pattern of the layout writes the key. */
  predicate Untouched(lay: Layout, k: string) {
    forall i :: 0 <= i < |lay.patterns| ==> k !in Targets(lay.patterns[i])
  }

  /** No pattern of parser.py writes the file name ... */
  lemma {:induction false} ParserLayoutKeepsFilename()
    ensures Untouched(ParserLayout, "filename")
  {
    forall i | 0 <= i < |Patterns|
      ensures "filename" !in Targets(Patterns[i])
    {
      var p := Patterns[i];
      assert p.kind == Stripped ==> Targets(p) == {p.key};
    }
  }

  /** ... nor the error marker ... */
  lemma {:induction false} ParserLayoutUnmarked()
    ensures Untouched(ParserLayout, "error")
  {
    forall i | 0 <= i < |Patterns|
      ensures "error" !in Targets(Patterns[i])
    {
      var p := Patterns[i];
      assert p.kind == Stripped ==> Targets(p) == {p.key};
    }
  }

  /** ... which is not one of its columns either. */
  lemma {:induction false} ParserErrorNotAColumn()
    ensures "error" !in ParserLayout.columns
  {
  }

  /** The receipt's fields keep the file name it was given ... */
  lemma {:induction false} HeaderFilename(filename: string, lay: Layout, search: string -> Option<Groups>, alt: Option<string>)
    requires Untouched(lay, "filename")
    ensures "filename" in Header(filename, lay, search, alt)
    ensures Header(filename, lay, search, alt)["filename"] == JStr(filename)
  {
    var d0 := Blank(lay.columns)["filename" := JStr(filename)];
    FieldsKeep(d0, lay.patterns, search, "filename");
  }

  /** ... and hold no error marker. */
  lemma {:induction false} HeaderUnmarked(filename: string, lay: Layout, search: string -> Option<Groups>, alt: Option<string>)
    requires Untouched(lay, "error") && "error" !in lay.columns
    ensures "error" !in Header(filename, lay, search, alt)
  {
    var d0 := Blank(lay.columns)["filename" := JStr(filename)];
    FieldsKeep(d0, lay.patterns, search, "error");
  }

  /** `parse_receipt_text`: the records of one receipt's text. */
  function ParsedRecords(filename: string, lay: Layout, rt: ReceiptText): seq<Dict>
  {
    ReceiptRecords(Header(filename, lay, rt.search, rt.fiscalAlt), TextItems(rt.block))
  }

  /** Every record of a receipt names the receipt's file; there is at least
      one, and the error marker appears exactly when no item was read, on
      the only record. */
  lemma {:induction false} ParsedRecordsShape(filename: string, lay: Layout, rt: ReceiptText)
    requires Untouched(lay, "filename") && Untouched(lay, "error") && "error" !in lay.columns
    ensures |ParsedRecords(filename, lay, rt)| >= 1
    ensures forall j :: 0 <= j < |ParsedRecords(filename, lay, rt)| ==>
      "filename" in ParsedRecords(filename, lay, rt)[j]
      && ParsedRecords(filename, lay, rt)[j]["filename"] == JStr(filename)
    ensures TextItems(rt.block) == [] <==> "error" in ParsedRecords(filename, lay, rt)[0]
  {
    var header := Header(filename, lay, rt.search, rt.fiscalAlt);
    var items := TextItems(rt.block);
    var r := ReceiptRecords(header, items);
    assert ParsedRecords(filename, lay, rt) == r;
    HeaderFilename(filename, lay, rt.search, rt.fiscalAlt);
    HeaderUnmarked(filename, lay, rt.search, rt.fiscalAlt);
    ReceiptRecordsShape(header, items);
    forall j | 0 <= j < |r|
      ensures "filename" in r[j] && r[j]["filename"] == JStr(filename)
    {
      ReceiptRecordsKeepHeader(header, items, j, "filename");
    }
  }

  /** The items of a receipt's records have non-empty, whitespace-normal
      names, and there are no more of them than item lines. */
  lemma {:induction false} TextItemsShape(block: string)
    ensures |TextItems(Some(block))| <= |ItemLines(block)|
    ensures forall k :: 0 <= k < |TextItems(Some(block))| ==>
      TextItems(Some(block))[k].name != [] && Normal(TextItems(Some(block))[k].name)
  {
    ItemsOfShape(ItemLines(block));
  }

  /** `parse_receipt_text` on text whose pattern matches are given. */
  method ParseReceiptText(filename: string, lay: Layout, rt: ReceiptText) returns (records: seq<Dict>)
    ensures records == ParsedRecords(filename, lay, rt)
  {
    var data := ParseHeader(filename, lay, rt.search, rt.fiscalAlt);
    var items: seq<Item> := [];
    if rt.block.Some? {
      items := ParseItems(ItemLines(rt.block.value));
    }
    records := CombineRecords(data, items);
  }

  /** One image of the folder: its OCR text's matches, or the message of the
      exception the OCR raised. */
  datatype Scan =
    | Scanned(filename: string, text: ReceiptText)
    | OcrFailed(filename: string, message: string)

  /** The record of an image whose processing raised. */
  function FailureRecord(filename: string, message: string): Dict
  {
    map["filename" := JStr(filename), "error" := JStr(message)]
  }

  /** The rows one image contributes. */
  function ScanRows(lay: Layout, s: Scan): seq<Dict>
  {
    match s
    case Scanned(f, rt) => ParsedRecords(f, lay, rt)
    case OcrFailed(f, msg) => [FailureRecord(f, msg)]
  }

  /** The rows of the images, image by image in listing order. */
  function FolderRows(lay: Layout, scans: seq<Scan>): seq<Dict>
  {
    if scans == [] then [] else FolderRows(lay, scans[..|scans| - 1]) + ScanRows(lay, scans[|scans| - 1])
  }

  /** Every image gives at least one row, each naming the image's file. */
  lemma {:induction false} ScanRowsShape(lay: Layout, s: Scan)
    requires Untouched(lay, "filename") && Untouched(lay, "error") && "error" !in lay.columns
    ensures |ScanRows(lay, s)| >= 1
    ensures forall j :: 0 <= j < |ScanRows(lay, s)| ==>
      "filename" in ScanRows(lay, s)[j] && ScanRows(lay, s)[j]["filename"] == JStr(s.filename)
  {
    if s.Scanned? {
      ParsedRecordsShape(s.filename, lay, s.text);
    }
  }

  /** There are at least as many rows as images. */
  lemma {:induction false} FolderRowsCount(lay: Layout, scans: seq<Scan>)
    requires Untouched(lay, "filename") && Untouched(lay, "error") && "error" !in lay.columns
    ensures |FolderRows(lay, scans)| >= |scans|
  {
    if scans != [] {
      FolderRowsCount(lay, scans[..|scans| - 1]);
      ScanRowsShape(lay, scans[|scans| - 1]);
    }
  }

  /** A failed image's row in the table names the file and leaves every
      other column empty: the error message is not a column. */
  lemma {:induction false} FailureRow(filename: string, message: string, cols: seq<string>, i: nat)
    requires i < |cols| && "error" !in cols
    ensures Project(FailureRecord(filename, message), cols)[i] ==
      if cols[i] == "filename" then JStr(filename) else JNull
  {
    ProjectAt(FailureRecord(filename, message), cols, i);
  }

  /** The CSV table `process_receipts_folder` writes, or None when it returns
      early: the directory is missing, it holds no image, or no row came out. */
  function FolderTable(lay: Layout, listing: Option<seq<Scan>>): Option<seq<seq<Json>>>
  {
    match listing
    case None => None
    case Some(scans) =>
      if scans == [] || FolderRows(lay, scans) == [] then None
      else Some(Table(FolderRows(lay, scans), lay.columns))
  }

  /** A folder with at least one image always gives a table, with a row of
      exactly the layout's columns for each row extracted, at least one per
      image: the "no data" exit is never taken. */
  lemma {:induction false} FolderTableShape(lay: Layout, scans: seq<Scan>)
    requires Untouched(lay, "filename") && Untouched(lay, "error") && "error" !in lay.columns
    requires scans != []
    ensures FolderTable(lay, Some(scans)).Some?
    ensures |FolderTable(lay, Some(scans)).value| >= |scans|
    ensures forall j :: 0 <= j < |FolderTable(lay, Some(scans)).value| ==>
      |FolderTable(lay, Some(scans)).value[j]| == |lay.columns|
  {
    FolderRowsCount(lay, scans);
  }

  /** The same for parser.py's own fields and 25 columns. */
  lemma {:induction false} ParserFolderTable(scans: seq<Scan>)
    requires scans != []
    ensures FolderTable(ParserLayout, Some(scans)).Some?
    ensures |FolderTable(ParserLayout, Some(scans)).value| >= |scans|
    ensures forall j :: 0 <= j < |FolderTable(ParserLayout, Some(scans)).value| ==>
      |FolderTable(ParserLayout, Some(scans)).value[j]| == 25
  {
    ParserLayoutKeepsFilename();
    ParserLayoutUnmarked();
    ParserErrorNotAColumn();
    FolderTableShape(ParserLayout, scans);
  }

  /** `process_receipts_folder` over the images the directory listing gave
      (None when the directory does not exist). */
  method ProcessReceiptsFolder(lay: Layout, listing: Option<seq<Scan>>) returns (table: Option<seq<seq<Json>>>)
    ensures table == FolderTable(lay, listing)
  {
    if listing.None? {
      return None;
    }
    var scans := listing.value;
    if scans == [] {
      return None;
    }
    var all: seq<Dict> := [];
    for k := 0 to |scans|
      invariant all == FolderRows(lay, scans[..k])
    {
      assert scans[..k + 1][..k] == scans[..k];
      match scans[k] {
        case Scanned(f, rt) =>
          var parsed := ParseReceiptText(f, lay, rt);
          if parsed != [] {
            all := all + parsed;
          }
        case OcrFailed(f, msg) =>
          all := all + [FailureRecord(f, msg)];
      }
    }
    assert scans[..|scans|] == scans;
    if all == [] {
      return None;
    }
    table := Some(Table(all, lay.columns));
  }
}
