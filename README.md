# Receipt item validation and reconciliation

A Dafny model of the part of the receipt scraper that turns noisy OCR text
and LLM replies into line-item records for Azerbaijani fiscal receipts, with
proofs of what that part promises. The model covers:

- the item validator of the LLM extractor, `validate_and_clean_item`, with its
  required-field gate, lost-decimal-point fix, quantity × price = total
  check (tolerance 0.01), money formatting and name cleaning;
- the post-processing of the LLM's reply: fence removal, the `[ … ]` span,
  the attempt loop, and the fragment fallback of `try_fallback_parsing` as
  written, so an extracted entry is a dict or None;
- the regex parser `parse_receipt_text` of parser.py: item lines, the row
  patterns, a cursor that moves on by one or two lines, the receipt fields,
  the payment summary and the record assembly;
- the two item-name cleaners;
- the older extractors ai_parser.py, ai_parser_batch.py and
  ai_parser_test.py: `validate_and_clean_data`, `create_fallback_data`, the
  item loop and record merge, the batched and test-limited runs;
- the fallback records and the projection of every row onto the output
  columns.

Dynamic Python values are one datatype, `Values.Json`, with `None`, str,
number, list and dict cases; a dict is a `map<string, Json>`. Numbers are exact
`real`s. `float(str)` is a hand-written decimal-literal reader. `round(x, n)` is
exact round-half-even, and `f"{x:.2f}"` and `str(round(x, 1))` are written-out
fixed-point texts. Some things come in as parameters:

- `json.loads` is a function parameter (`loads`);
- each API reply is an `Option<string>`, where None means the call raised;
- the OCR text's receipt-level regex matches are given values;
- the order in which a batch's futures complete is given as data.

Where the source updates a dict in place, the model is imperative:

- `ItemValidation.Record` is a class whose `fields` the validator rewrites step by step;
- the loops of the parsers and extractors are `while`/`for` loops, proved against the spec functions beside them.

The three older extractors share one `validate_and_clean_data` and one
`create_fallback_data` (the copies at ai_parser_batch.py:137-245 and
ai_parser_test.py:131-239 differ only in log text, and in that the batch and test copies never
read a store name). `LegacyCleaning` models that code once.

Some behaviours of the code that a reader might not expect, all modelled as
written:

- ai_parse.py:314-319 accepts a corrected quantity `round(t / p, 1)` without
  checking the line total again, so a corrected item can still disagree with
  its line total by more than 0.01 (`Reconcile.CorrectionCanStayInconsistent`).
- ai_parse.py:353-364 returns an item whose name cleans to the empty string
  (`ItemValidation.QuoteNameKeptEmpty`).
- The cashier pattern at parser.py:86 excludes digits from the name.
- ai_parser.py:119-120 removes only a fence that starts with ```` ```json ````;
  a bare ```` ``` ```` fence reaches `json.loads` as it is
  (`LegacyCleaning.LegacyFenceCompared`).
- When `json.loads` rejects a reply, ai_parse.py:229 uses the result of
  `try_fallback_parsing`, whose comprehension at ai_parse.py:272 validates each
  recovered dict twice. The extracted list can then hold None entries, and
  these reach the receipt's rows (`LlmResponse.QuoteReplyExtractsNone`,
  `AiPipeline.ReceiptRowsShape`). See "## Findings".

## Model

| member | source | states |
|---|---|---|
| `Text.Strip` | parser.py:216-217 | `str.strip()`: the result is trimmed and never longer; a trimmed text is left as it is |
| `Text.NormalizeIdempotent` | parser.py:48 | whitespace normalisation (`re.sub(r'\s+', ' ', s).strip()`) is idempotent |
| `Text.CollapseSpaces` | parser.py:48 | `re.sub(r'\s+', ' ', s)`: the result is single-spaced, never longer, empty exactly when the input is, and starts with whitespace exactly when the input does |
| `Text.RemoveAll` | ai_parse.py:177-181 | `s.replace(p, '')`: unchanged when `p` does not occur, strictly shorter when it does |
| `Text.Split` | parser.py:216 | `s.split('\n')`: the pieces hold no separator and join back to `s` |
| `Decimal.ParseMoney` | ai_parse.py:340-350 | `float(f"{x:.2f}")` reads back as `round(x, 2)` |
| `Decimal.ParseTenths` | ai_parse.py:304-307 | `float(str(round(x, 1)))` reads back as `round(x, 1)` |
| `Decimal.MoneyStable` | ai_parse.py:340-350 | formatting an already formatted amount again changes nothing |
| `Decimal.ParseFixedPoint` | ai_parse.py:340-350 | every fixed-point text printed for `n / 10^k` is read back by `float` as that value |
| `Decimal.RoundHalfEven` | ai_parse.py:304-307 | the integer `round` picks lies within one half of the value |
| `Values.FloatOfMoney` | ai_parse.py:340-350 | a JStr holding a two-decimal text reads as the rounded amount |
| `Values.FloatOfZero` | ai_parse.py:392-396 | the placeholder "0.00" reads as zero |
| `ItemNames.CleanItemName` | parser.py:19-50 | parser.py's cleaner: a whitespace-normal name (no surrounding or doubled whitespace) never longer than the input, so "" for "" |
| `ItemNames.CleanItemNameAi` | ai_parse.py:353-362 | the LLM validators' cleaner, which removes quote runs: the same guarantees |
| `ItemNames.CleanPlain` | parser.py:32-48 | both cleaners leave a name that none of the removals touches as it is |
| `ItemNames.NoPrefixAt` | parser.py:32-42 | no prefix pattern matches a name whose first character starts none of them ("Süd", "7up") |
| `ItemNames.LookalikesHaveNoPrefix` | parser.py:32-42 | "Tort" and "Ət" start like a prefix but match no pattern |
| `ItemNames.CleanVatCode` | parser.py:32-33 | "ƏDV: 189: X" cleans to "X" in both cleaners, for every normal non-empty X with no quote at either end, no prefix of its own and no leading ':' (which `[:\s]*` would take) |
| `ItemNames.CleanMarkedVatCode` | parser.py:33 | "vƏDV: 189: X" cleans to "X", for the same X |
| `ItemNames.CleanQuotedVatCode` | parser.py:36 | "\"ƏDV: 189: X" cleans to "X", for the same X |
| `ItemNames.CleanVatExempt` | parser.py:38-39 | "ƏDV-dən azad X" cleans to "X", for every normal non-empty X with no quote at either end and no prefix of its own |
| `ItemNames.CleanTradeMarkup` | parser.py:41-42 | "Ticarət əlavəsi: 5 X" cleans to "X", for the same X, one starting with a digit included |
| `ItemNames.OneQuotePerPass` | parser.py:45 | a doubled leading quote survives one pass of parser.py's cleaner and goes on the second (not idempotent); the run-removing cleaner removes both at once |
| `ItemNames.RunsCleanerNotIdempotent` | ai_parse.py:353-362 | the run-removing cleaner is not idempotent either: " \"X" cleans to "\"X", which cleans to "X" |
| `ItemNames.QuoteNameCleansToEmpty` | ai_parse.py:353-362 | a name made of one quote cleans to "" in both cleaners |
| `ItemRows.KeptLinesMembers` | parser.py:216-217 | a line is kept exactly when it is the stripped form of a block line that is neither empty nor a `*ƏDV` line |
| `ItemRows.ItemLines` | parser.py:214-217 | the item lines are stripped, non-empty, not VAT lines, and hold no line break |
| `ItemRows.LazyRowSound` | parser.py:224 | the lazy name group is a prefix after which the rest of the pattern matches, and no shorter name would do |
| `ItemRows.LazyRowComplete` | parser.py:224-228 | whenever some name leaves a matching rest, the lazy match finds one |
| `ItemRows.ReadRow` | parser.py:230-243 | a read item's name is whitespace-normal and never longer than the matched name |
| `ItemRows.ViewsAt` | parser.py:224-228 | the precomputed views agree, line by line, with what the unit pattern, else the bare pattern, else the joined line gives |
| `ItemRows.ItemsOfShape` | parser.py:243-275 | at most one item per line, each with a non-empty, whitespace-normal name |
| `ItemRows.CursorOwn` | parser.py:230-252 | a line whose own row is read adds its item and the cursor moves on one line |
| `ItemRows.CursorJoined` | parser.py:253-274 | a line read together with the next adds its item and the cursor moves on two lines |
| `ItemRows.CursorSkip` | parser.py:253-275 | a line that matches neither way is passed over |
| `ItemRows.CursorMisread` | parser.py:233-240 | a matched row whose numbers `float` rejects ends the collection: nothing more is collected (the `except` at line 276) |
| `ItemRows.ParseItems` | parser.py:213-276 | the items of the block are those the cursor collects over the item lines |
| `ItemRows.Step` | parser.py:220-275 | one loop turn: the new items and cursor are `Cursor`'s next step |
| `ItemRows.CollectItems` | parser.py:219-276 | the `while` loop collects exactly what the cursor function gives from line 0 |
| `ReceiptHeader.InitData` | parser.py:142-146 | every column None, then the file name |
| `ReceiptHeader.RemoveQuotesKeeps` | parser.py:159 | quote removal leaves a quote-free text as it is and is idempotent |
| `ReceiptHeader.CleanTaxpayer` | parser.py:155-168 | the cleaned taxpayer and store name is quote-free and single-spaced |
| `ReceiptHeader.LooksLikeDateAt` | parser.py:173 | `.*\d{2}\.\d{2}\.\d{4}` matches exactly when a date starts on the first line |
| `ReceiptHeader.CashierWithoutDate` | parser.py:169-174 | the cashier name is stored only when it shows no date |
| `ReceiptHeader.Store` | parser.py:151-176 | one match writes exactly its target columns: date and time, the cleaned taxpayer or store name, or the stripped group |
| `ReceiptHeader.FieldsKeep` | parser.py:149-176 | a column no pattern writes keeps its value |
| `ReceiptHeader.StoreMatches` | parser.py:149-176 | the pattern loop yields `Fields` of the matches, in pattern order |
| `ReceiptHeader.FiscalFallback` | parser.py:179-183 | afterwards the receipt has a truthy fiscal id exactly when it had one or the looser pattern found a non-blank one; an id already found is never overwritten, a filled-in id is trimmed, and every other column keeps its value |
| `ReceiptHeader.StoreFromTaxpayer` | parser.py:186-187 | a missing store name is taken from the taxpayer name |
| `ReceiptHeader.PaidWithMembers` | parser.py:193-200 | a payment key is listed exactly when its amount parses and is positive |
| `ReceiptHeader.PaidWithAllOrNone` | parser.py:191-200 | all keys counting lists them in the fixed order; none counting gives the empty list |
| `ReceiptHeader.PaidWithFilters` | parser.py:189-200 | the listed keys are exactly the payment keys filtered by "its amount parses and is positive", in the order of the key list |
| `ReceiptHeader.SummaryNone` | parser.py:202 | the summary is None exactly when no payment counts |
| `ReceiptHeader.SummarisePayments` | parser.py:189-202 | the loop gives the ", "-joined list of counting keys, or None |
| `ReceiptHeader.ParseHeader` | parser.py:129-202 | the receipt fields `parse_receipt_text` fills in before the items |
| `ReceiptParser.ItemRecordFields` | parser.py:286-289 | an item's record is the receipt's fields with the item's four fields overlaid |
| `ReceiptParser.ReceiptRecordsShape` | parser.py:280-291 | exactly one record with the error marker when there is no item; otherwise one per item, in order, none marked |
| `ReceiptParser.ReceiptRecordsKeepHeader` | parser.py:284-291 | every record agrees with the receipt's fields outside the item fields and the marker |
| `ReceiptParser.CombineRecords` | parser.py:284-291 | the copy-update-append loop builds `ReceiptRecords` |
| `ReceiptParser.ParsedRecordsShape` | parser.py:52-291 | every record names the file; at least one; the marker exactly when no item was read |
| `ReceiptParser.TextItemsShape` | parser.py:204-276 | item names are non-empty and whitespace-normal, no more items than item lines |
| `ReceiptParser.ParseReceiptText` | parser.py:52-291 | `parse_receipt_text` returns `ParsedRecords` |
| `ReceiptParser.ScanRowsShape` | parser.py:312-326 | every image gives at least one row naming its file, the failure row included |
| `ReceiptParser.FolderRowsCount` | parser.py:312-326 | at least as many rows as images |
| `ReceiptParser.FailureRow` | parser.py:324-326 | a failed image's table row names the file and is empty elsewhere |
| `ReceiptParser.FolderTableShape` | parser.py:293-351 | a folder with images always gives a table of rows with exactly the columns, at least one per image |
| `ReceiptParser.ParserFolderTable` | parser.py:333-351 | the same for parser.py's own 25 columns |
| `ReceiptParser.ProcessReceiptsFolder` | parser.py:293-351 | `process_receipts_folder` returns `FolderTable` of the listing |
| `Records.ErrorNotAColumn` | ai_parse.py:514-522 | `error` is not an output column |
| `Records.ProjectAt` | ai_parse.py:524-531 | a projected row holds each column's value in column order, None for a missing column |
| `Records.ProjectAgrees` | ai_parse.py:524-531 | two rows project alike exactly when they agree on every column |
| `Records.ProjectIgnores` | ai_parse.py:524-531 | a key outside the columns makes no difference |
| `Records.TableRows` | ai_parse.py:512-531 | every row of the table has exactly the columns, row k projecting record k |
| `Records.FallbackKeys` | ai_parse.py:375-407 | a fallback record holds exactly the output columns and `error` |
| `Records.FallbackMarked` | ai_parse.py:370-407 | a fallback record names its file and carries the failure marker |
| `Records.FallbackItemless` | ai_parse.py:385-388 | its four item fields are None |
| `Records.FallbackPayments` | ai_parse.py:392-394 | card, cash and bonus payments are "0.00" |
| `Records.FallbackLaterPayments` | ai_parse.py:395-396 | advance and credit payments are "0.00" |
| `Reconcile.DecideOutcomes` | ai_parse.py:311-325 | the three outcomes and exactly when each is taken: keep when consistent; correct the quantity when p > 0 and round(t/p, 1) is in (0, 100]; otherwise recompute the total |
| `Reconcile.MagnitudeFix` | ai_parse.py:304-307 | a quantity below 1000 is kept; one of 1000 or more becomes q / 1000 to within 0.05 (rounded to one decimal) |
| `Reconcile.CorrectedQuantityBounds` | ai_parse.py:318-321 | a corrected quantity is in (0, 100] and reproduces the line total to within 0.05 × the unit price |
| `Reconcile.NonPositivePriceRecomputes` | ai_parse.py:317-325 | a non-positive price never corrects the quantity |
| `Reconcile.RecomputedTotalConsistent` | ai_parse.py:322-325 | a recomputed total, formatted and read back, is consistent |
| `Reconcile.CorrectionCanStayInconsistent` | ai_parse.py:318-321 | quantity 5, price 3, total 1: the quantity becomes 0.3 and still disagrees |
| `Reconcile.MagnitudeExamples` | ai_parse.py:304-324 | "1000" with 2.50/2.50 becomes 1.0 and is then consistent; "2000" with 0.59/1.18 becomes 2.0; "1000" with 0.59/1.18 becomes 1.0, still disagrees and is corrected to 2.0 |
| `Reconcile.MagnitudeFixShrinks` | ai_parse.py:304-307 | the fix gives at least 1 and never grows a quantity |
| `ItemValidation.Record.constructor` | ai_parse.py:279 | a record holding the given dict |
| `ItemValidation.ValidateAndCleanItem` | ai_parse.py:279-368 | the dict becomes `ValidatedState` of the old one; the item is returned exactly when `Kept` |
| `ItemValidation.CheckRequired` | ai_parse.py:287-301 | the gate in check order; nothing changed |
| `ItemValidation.ReconcileAmounts` | ai_parse.py:303-325 | the magnitude fix and the check applied in place |
| `ItemValidation.FormatMoneyFields` | ai_parse.py:340-350 | the money loop applied in place |
| `ItemValidation.CleanNameStep` | ai_parse.py:353-362 | the name step in place; false exactly when a truthy non-str name raises |
| `ItemValidation.ValidateValue` | ai_parse.py:279-368 | a non-dict gives None; a dict is updated and returned when kept |
| `ItemValidation.GateAccepts` | ai_parse.py:287-301 | the gate accepts exactly a usable name and three present, readable amounts |
| `ItemValidation.RejectedUnchanged` | ai_parse.py:287-301 | a rejected item is returned as None and left as it was |
| `ItemValidation.KeptIff` | ai_parse.py:287-368 | kept exactly when it passes the gate with a str name |
| `ItemValidation.FormatMoneyEffect` | ai_parse.py:340-350 | the fields a formatting pass touches are exactly the listed ones, each formatted once |
| `ItemValidation.MoneyTextFormatsToItself` | ai_parse.py:340-350 | a two-decimal text formats to itself |
| `ItemValidation.FormatMoneyIdempotent` | ai_parse.py:340-350 | formatting twice is formatting once |
| `ItemValidation.FormatMoneyValueIs` | ai_parse.py:343-350 | a formattable value becomes its two-decimal text or "0.00"; falsy and "null" values stay |
| `ItemValidation.OtherFieldsUntouched` | ai_parse.py:279-368 | every field outside quantity, line total, money fields and name is as it was |
| `ItemValidation.MoneyFieldsFormatted` | ai_parse.py:340-350 | each money field but the line total holds its original value formatted, or is untouched when falsy or "null" |
| `ItemValidation.LineTotalFormatted` | ai_parse.py:311-350 | the line total is the reconciled one at two decimals |
| `ItemValidation.QuantityNotMoney` | ai_parse.py:304-350 | the quantity is never money-formatted: original, or the one-decimal text of the fixed or corrected quantity |
| `ItemValidation.FlagReadsSucceed` | ai_parse.py:328-337 | the plausibility flags' `float` calls cannot raise |
| `ItemValidation.KeepOutcome` | ai_parse.py:311-313 | a consistent item is left as the magnitude fix left it |
| `ItemValidation.CorrectOutcome` | ai_parse.py:317-321 | a corrected quantity is in (0, 100] and is what the quantity then reads as |
| `ItemValidation.RecomputeOutcome` | ai_parse.py:322-325 | a recomputed total reads back as q × p at two decimals |
| `ItemValidation.CleanedName` | ai_parse.py:353-364 | a kept item's name is cleaned: normal, never longer, possibly empty |
| `ItemValidation.KeptItemNamed` | ai_parse.py:364 | a returned item holds its cleaned str name, so it is a non-empty dict |
| `ItemValidation.QuoteNameKeptEmpty` | ai_parse.py:353-364 | a quote-only name passes and is returned empty |
| `LlmResponse.StripFences` | ai_parse.py:176-181 | the cleaned reply is trimmed |
| `LlmResponse.UnfencedReply` | ai_parse.py:176-181 | a reply without a fence is only stripped |
| `LlmResponse.FencedReplyClean` | ai_parse.py:177-181 | no fence token is left in a reply that started with one |
| `LlmResponse.JsonFencedReply` | ai_parse.py:177-179 | ```` ```json BODY ``` ```` gives the stripped body |
| `LlmResponse.BareFencedReply` | ai_parse.py:180-181 | ```` ``` BODY ``` ```` gives the stripped body |
| `LlmResponse.ArraySpanFound` | ai_parse.py:183-197 | a span exists exactly when some `]` follows some `[`; it runs from the first `[` to the last `]` |
| `LlmResponse.FragmentsShape` | ai_parse.py:258-259 | every fragment is a non-nested object text with `"item_name"` that occurs in the reply |
| `LlmResponse.TwoFragmentsInProse` | ai_parse.py:258-259 | two object texts in prose are the two fragments found |
| `LlmResponse.TwoItemsInProse` | ai_parse.py:258-272 | two kept objects in prose give the two validated items in the corrected fallback, and two entries, each item validated again, in the list as written |
| `LlmResponse.ValidItemsTwo` | ai_parse.py:206-211 | two kept dicts give their two validated states in order, and the list as written the second validation of each |
| `LlmResponse.ValidItemsFrom` | ai_parse.py:206-211 | every kept item is a kept dict of the input after validation |
| `LlmResponse.ValidItemsKeepAll` | ai_parse.py:206-211 | every kept dict of the input gives an item |
| `LlmResponse.FirstItemsEmptyIff` | ai_parse.py:157-247 | the result is empty exactly when every attempt fails |
| `LlmResponse.ExtractedFirstSuccess` | ai_parse.py:157-247 | the result is what the first attempt that did not fail returned |
| `LlmResponse.AttemptsBounded` | ai_parse.py:157 | later replies than `max_retries` are never read |
| `LlmResponse.NoAttemptsNoItems` | ai_parse.py:157-247 | with no attempt allowed nothing is extracted |
| `LlmResponse.DoubleIsRevalidated` | ai_parse.py:272 | the list as written has one entry per item the once-validating path keeps, in order: that item validated a second time |
| `LlmResponse.DoubleValidatedFrom` | ai_parse.py:272 | every present entry of the list as written is a kept dict after validation |
| `LlmResponse.OutcomeValidated` | ai_parse.py:200-237 | every present entry an attempt returns is a kept dict after validation |
| `LlmResponse.OutcomeNoneFromFallback` | ai_parse.py:200-237 | a None entry in an attempt's items means `json.loads` rejected the reply |
| `LlmResponse.ExtractedValidated` | ai_parse.py:157-247 | every present extracted entry is a kept dict after validation; a None entry comes only from the fallback of a reply `json.loads` rejected |
| `LlmResponse.FallbackReplyDecides` | ai_parse.py:225-231 | a rejected first reply whose list as written is non-empty decides the extraction: that list, None entries and all |
| `LlmResponse.QuoteReplyExtractsNone` | ai_parse.py:225-231 | a rejected reply recovering one object with a quote alone as its name makes the extractor return [None] |
| `LlmResponse.BigQuantityReplyFixedTwice` | ai_parse.py:225-231 | a rejected reply recovering one object with quantity 1000000 and zero amounts makes the extractor return it with quantity 1.0 |
| `LlmResponse.ArrayReplyParsed` | ai_parse.py:183-204 | a trimmed reply that starts with `[` reaches `json.loads` as it is |
| `LlmResponse.ExtractItemsWithAi` | ai_parse.py:157-247 | the attempt loop returns `Extracted` |
| `LlmResponse.RunAttempt` | ai_parse.py:174-237 | one attempt gives `AttemptOutcome`, with the as-written fallback on a reply `json.loads` rejects |
| `LlmResponse.ValidateItems` | ai_parse.py:206-211 | the validation loop returns `ValidItems` |
| `LlmResponse.ParseFragments` | ai_parse.py:261-268 | the fragment loop returns the parsed fragments, skipping rejected ones |
| `LlmResponse.TryFallbackParsing` | ai_parse.py:249-277 | as written: returns `DoubleValidated`, each dict validated twice |
| `LlmResponse.TryFallbackParsingOnce` | ai_parse.py:249-277 | corrected, beside the code as written: returns `FallbackItems`, each dict validated once |
| `LlmResponse.RevalidateOne` | ai_parse.py:272 | the comprehension's two validator calls on one value |
| `LlmResponse.RevalidateAll` | ai_parse.py:272 | the comprehension's loop returns `DoubleValidated` of the parsed values |
| `LlmResponse.SecondCall` | ai_parse.py:272 | the main path returns the dict after one validation, the comprehension the result of validating it again |
| `LlmResponse.QuoteNameRecoveredAsNone` | ai_parse.py:272 | a quote-only name gives None in the list as written |
| `LlmResponse.BigQuantityFixedTwice` | ai_parse.py:272 | a quantity of 1000000 with zero amounts ends at 1000.0 when validated once and at 1.0 as written |
| `LegacyCleaning.Rechecked` | ai_parser.py:168-177 | read amounts that agree leave the dict as it is; otherwise the new line total is q × p at two decimals, reads back with `float` as a total that agrees with q and p, and no other key changes |
| `LegacyCleaning.LegacyName` | ai_parser.py:198-208 | the name step keeps the fields and changes no field but the item name |
| `LegacyCleaning.Finished` | ai_parser.py:180-208 | the steps after the calculation check add and remove no field |
| `LegacyCleaning.CleanedFields` | ai_parser.py:150-213 | the result holds exactly the 30 required fields, whatever raises |
| `LegacyCleaning.CleanedPassThrough` | ai_parser.py:160-213 | outside money fields and name every field is the input's or None: quantity and unit price are never changed |
| `LegacyCleaning.CompletesIff` | ai_parser.py:166-213 | the run completes exactly when neither `float` check raises |
| `LegacyCleaning.UnreadableQuantityStops` | ai_parser.py:180-183 | an unreadable quantity such as "N/A" gives the bare projection |
| `LegacyCleaning.MismatchChecked` | ai_parser.py:168-177 | disagreeing read amounts recompute the line total |
| `LegacyCleaning.MismatchRecomputesTotal` | ai_parser.py:168-196 | then the run completes with the line total q × p at two decimals |
| `LegacyCleaning.CompletedMoney` | ai_parser.py:186-196 | a completed run formats every money field, "0.00" when not a number |
| `LegacyCleaning.CompletedName` | ai_parser.py:198-208 | a completed run cleans a str name other than "" and "null" |
| `LegacyCleaning.ProjectFields` | ai_parser.py:160-163 | the projection loop builds `Projected`: a dict with exactly the fields, each holding the input's value or None |
| `LegacyCleaning.ValidateAndCleanData` | ai_parser.py:138-213 | returns `Cleaned`; the same code is ai_parser_batch.py:137-206 and ai_parser_test.py:131-200 |
| `LegacyCleaning.FinishCleaning` | ai_parser.py:180-208 | returns `Finished` |
| `LegacyCleaning.CheckTotals` | ai_parser.py:166-177 | returns `CheckedTotals`, None when `float` raises |
| `LegacyCleaning.FormatMoneyLoop` | ai_parser.py:186-196 | the money loop returns `FormatMoney` |
| `LegacyCleaning.LegacyFence` | ai_parser.py:116-119 | the text after fence removal is trimmed |
| `LegacyCleaning.LegacyFenceCompared` | ai_parser_batch.py:115-119 | agrees with the item extractor on ```` ```json ````; keeps a bare fence |
| `LegacyCleaning.CreateFallbackData` | ai_parser.py:215-266 | the fallback record with the store name from the taxpayer line when there is one |
| `LegacyCleaning.FallbackStore` | ai_parser.py:262-264 | the store name is the line's text stripped, or None |
| `LegacyCleaning.FallbackStoreName` | ai_parser.py:262-266 | setting the store name gives the fallback record with that store |
| `LegacyCleaning.ReceiptDataShape` | ai_parser.py:116-136 | the receipt dict has exactly the 30 columns when the reply's object was cleaned, and is the fallback otherwise |
| `LegacyCleaning.ExtractTextWithAi` | ai_parser.py:26-136 | returns `ReceiptData` |
| `LegacyPipelines.ValidatedItemSpec` | ai_parser.py:323-339 | kept exactly when the three amounts are read; only the line total may change, to q × p at two decimals when they disagree; the kept item agrees |
| `LegacyPipelines.KeptItemsSpec` | ai_parser.py:323-339 | every kept item has a name key and agreeing amounts; no element yields two |
| `LegacyPipelines.KeptItemsAll` | ai_parser.py:323-339 | named dicts with readable amounts are all kept |
| `LegacyPipelines.ItemListShape` | ai_parser.py:268-345 | never empty; each entry the placeholder or a kept item; a failed call, unparsable reply or non-list gives the placeholder alone |
| `LegacyPipelines.ValidateItem` | ai_parser.py:325-339 | returns `ValidatedItem` |
| `LegacyPipelines.ExtractItemsWithAi` | ai_parser.py:268-345 | returns `ItemList` |
| `LegacyPipelines.WithItemFields` | ai_parser.py:373-380 | a merged record is the receipt with the item's four fields |
| `LegacyPipelines.MergedShape` | ai_parser.py:371-391 | one record per item, at least one, the k-th with the k-th item's fields |
| `LegacyPipelines.MergeRecords` | ai_parser.py:371-391 | the merge loop builds `Merged` |
| `LegacyPipelines.AiRecordsShape` | ai_parser.py:347-397 | a captured receipt gives one record per entry of its item list |
| `LegacyPipelines.ProcessReceiptWithAi` | ai_parser.py:347-397 | returns `AiRecords` |
| `LegacyPipelines.AiFolderRowsCount` | ai_parser.py:423-428 | at least one row per image |
| `LegacyPipelines.AiFolderTableShape` | ai_parser.py:399-464 | a table exactly when there are images, with at least one row per image |
| `LegacyPipelines.ProcessReceiptsFolderAi` | ai_parser.py:399-464 | returns `AiFolderTable` |
| `LegacyPipelines.SingleRecords` | ai_parser_batch.py:247-272 | exactly one record per capture |
| `LegacyPipelines.SingleRecordsSplit` | ai_parser_test.py:276 | the records of a slice are the slice of the records |
| `LegacyPipelines.PickPermutes` | ai_parser_batch.py:290-297 | picking in two orders that hold the same indices gives the same records, as a multiset |
| `LegacyPipelines.PickIndices` | ai_parser_batch.py:287-297 | picking in index order gives the sequence |
| `LegacyPipelines.BatchResultsPermute` | ai_parser_batch.py:274-300 | a batch's results are its records in some order |
| `LegacyPipelines.BatchedRowsPermute` | ai_parser_batch.py:323-334 | exactly one row per receipt: the rows are the records up to completion order |
| `LegacyPipelines.ProcessSingleReceipt` | ai_parser_batch.py:247-272 | returns the receipt's `SingleRecord` |
| `LegacyPipelines.ProcessBatch` | ai_parser_batch.py:274-300 | returns `BatchResults` |
| `LegacyPipelines.BatchMain` | ai_parser_batch.py:302-358 | returns `BatchTable` |
| `LegacyPipelines.TestRowsShape` | ai_parser_test.py:22-276 | at most three rows, one per leading capture, in order |
| `LegacyPipelines.TestMain` | ai_parser_test.py:260-313 | returns `TestTable` |
| `AiPipeline.ItemIsNotFallback` | ai_parse.py:421-424 | no validated item is a fallback record |
| `AiPipeline.ReceiptRowsShape` | ai_parse.py:409-437 | at least one row; the fallback exactly when OCR failed or every attempt failed; otherwise every present row is a validated item, and a None row comes only from the fallback parsing of a rejected reply |
| `AiPipeline.ProcessReceiptWithAi` | ai_parse.py:409-437 | returns `ReceiptRows` |
| `AiPipeline.CollectedAppend` | ai_parse.py:489-497 | batching keeps the order of the rows |
| `AiPipeline.CollectedCount` | ai_parse.py:455-462 | at least as many rows as receipts |
| `AiPipeline.ProcessBatch` | ai_parse.py:439-464 | rows in submission order, a timed-out result replaced by the fallback |
| `AiPipeline.RunBatches` | ai_parse.py:489-497 | the rows of all receipts in order, at least one per receipt |
| `AiPipeline.RunTable` | ai_parse.py:509-531 | at least one row per receipt; when every row is a dict, one table row each, its projection onto exactly the 30 columns |

## Left out

- Python floats are exact rationals here. `float` reads decimal literals only
  (no exponent, `inf`, `nan` or `_`), and a value that rounds to zero prints
  "0.00" where Python prints "-0.00".
- `Decimal.Tenths` and `Decimal.ParseTenths` always print fixed-point text.
  Python's `str(round(x, 1))` switches to exponent notation from 1e16 up
  (`'1e+16'`). A quantity that is still 1e16 or more after the ×1000 fix
  (an input of 1e19 or more) therefore prints differently in the source,
  and the model's `float` would not read that text back.
- `\d` and `\s` are ASCII digits and Python's whitespace set. Unicode
  digits are not modelled.
- Logging, including the plausibility flags (quantity > 50 or > 100, price
  > 500). These only log; the model proves they never raise or change
  anything.
- OCR (`pytesseract`), the OpenAI client calls and prompt texts, and the
  retry back-off `time.sleep`. These are foreign calls. Their results are
  parameters: OCR text or failure, replies as `Option<string>`.
- `json.loads`, and the receipt-level field patterns of parser.py:66-127. They
  are oracles (`loads`, and the given matches). The store line of
  ai_parser.py:262 is given the same way. JSON booleans are not a `Json`
  case.
- The items-block search of parser.py:208-211 is not modelled as a regular
  expression. It is a lazy DOTALL `(.*?)` after the column headings, ending
  before a dashed line followed by `Cəmi` or before `Cəmi` and an amount.
  Its group is the given `ReceiptText.block`, None when there is no match.
  This match decides which lines become items; the model starts from it.
- The looser fiscal-id search of parser.py:181, `Fiskal\s*[İI]D[:\s]*(\w+)`
  without regard to case, is not modelled either. Its group is the given
  `ReceiptText.fiscalAlt`.
- `ThreadPoolExecutor`, the `counter_lock` / `processed_count` counter and
  the 60 s time-out. This is concurrency. Which future times out, and the
  `as_completed` order, are given as data.
- pandas and CSV writing. Only the column projection is modelled.
- The directory listing and its extension filter. The listing comes in as a
  sequence, or None for a missing directory. ai_parser_batch.py's `main`
  crashes on a missing directory; the model only takes a listing.
- The API-key checks of the `main` functions. They are a Boolean parameter
  that only gates the run.
- `LegacyCleaning.ReceiptData`: the cleaned receipt keeps whatever
  `filename` the reply's object holds, as the code does. It is not
  overwritten with the real file name.
- `AiPipeline.RunTable`: what `pd.DataFrame` makes of a None row is not
  modelled, since pandas is left out; the table is stated for runs whose rows
  are all dicts.
- `ItemRows.Step`, `ItemRows.CollectItems`: the cursor loop is split into a
  loop and a one-turn method. This is a modelling choice, not a difference
  in behaviour.

## Findings

| source | as written | input that shows it | evidently intended | confidence | as-written member | corrected member |
|---|---|---|---|---|---|---|
| ai_parse.py:272 | `[validate_and_clean_item(item) for item in extracted_items if validate_and_clean_item(item)]` runs the in-place validator twice on each recovered dict | `{"item_name": "'", "quantity": 1, "unit_price": 2, "line_total": 2}` gives `None` in the list, and through ai_parse.py:229 in the extracted items; `{"item_name": "A", "quantity": 1000000, "unit_price": 0, "line_total": 0}` comes back with quantity 1.0 instead of 1000.0 | each recovered dict validated once, the kept ones returned as validated | not executed | `LlmResponse.TryFallbackParsing` (`LlmResponse.QuoteNameRecoveredAsNone`, `LlmResponse.BigQuantityFixedTwice`, `LlmResponse.QuoteReplyExtractsNone`, `LlmResponse.BigQuantityReplyFixedTwice`) | `LlmResponse.TryFallbackParsingOnce` (`LlmResponse.FallbackItems`) |

The extractor's main path, and everything built on it, follows the code as
written and uses `LlmResponse.TryFallbackParsing`. The corrected
`LlmResponse.TryFallbackParsingOnce` stands beside it with its own
properties (`LlmResponse.ValidItemsFrom`, `LlmResponse.ValidItemsKeepAll`,
`LlmResponse.TwoItemsInProse`), and `LlmResponse.DoubleIsRevalidated` states
how the two lists relate.
