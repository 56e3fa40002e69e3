# Google Listings & Ads: merchant reports, report utilities and product sync metadata

This project is a Dafny model of three pieces of the Google Listings & Ads
WooCommerce extension, with proofs about them.

- **Merchant Center reports** (`merchant_report.dfy`, class `Merchant.MerchantReport`).
  `get_report_data` folds the rows of one page of a Merchant Center report into
  report tables. There are tables for free listings, products (keyed by offer
  id and named through a title lookup), day intervals and totals. Free
  listings and products are the two report types. It then records the next
  page token, sorts the intervals by key and returns the report. An
  unsupported interval and a failing Google request become errors.
  `get_product_statistics` counts product statuses into active, expiring,
  pending, disapproved and not-synced counters.
- **Report series utilities** (`report_utils.dfy`, module `ReportUtils`).
  `getIdsFromQuery` reads product ids from a comma-separated query.
  `aggregateIntervals` merges two interval series. `sumToPerformance` adds
  paid and free totals into performance figures and flags missing free
  listings data. `addBaseToPerformance` adds a comparison baseline and the
  rounded percentage change.
- **Product sync metadata** (`product_helper.dfy`, class `ProductHelper.ProductMeta`).
  `mark_as_synced`, `mark_as_unsynced`, `mark_as_pending`, `mark_as_invalid`
  and `remove_google_id` update a product's sync status, Google ids, errors,
  failure record and channel visibility. The queries `is_product_synced`,
  `get_wc_product_id` and `get_validation_errors` read that metadata.

Some modules support the three above:

- `Wrappers`: `Option` and `Result`.
- `Lex`: code-point string order and a sort by it. This stands in for PHP's
  `ksort` and JavaScript's default sort.
- `Digits`: decimal digit strings.
- `Seqs`: duplicate-free sequences, first-occurrence de-duplication and
  flattening.

Where the code updates state step by step, the model does too:

- The report tables and the product metadata are class fields.
- Each method ensures that its new state is a specification function of the
  old one.
- The row loop of `get_report_data`, the field loop of
  `get_report_row_metrics` and the status loop of `get_product_statistics`
  are `while` loops. Each is proved against a fold over the rows.

The lemmas about those folds state what the finished report holds:

- totals are the sum of the rows' metrics
- each offer's subtotals are the sum of its rows
- each day's subtotals are the sum of its rows
- interval keys are sorted and distinct
- a product title is looked up at most once
- the only error is an unsupported interval

Two sources are tests rather than code: `js/src/reports/utils.test.js` and
`tests/Unit/Product/ProductHelperTest.php`. For these, the model follows what
the assertions require. `js/src/reports/utils.js` and
`src/Product/ProductHelper.php` are not part of this model.

## Model

| member | source | states |
|---|---|---|
| Merchant.Increase | src/API/Google/MerchantReport.php:191-197 | Adding a row's metrics into existing subtotals gives the union of the fields. Each field is the sum of both sides, and a missing field counts as 0. |
| Merchant.FieldMetrics | src/API/Google/MerchantReport.php:249-261 | The row data holds exactly the requested fields that are `clicks` or `impressions`. Each is the metric's value, with 0 for a null metric. Other requested fields are skipped. |
| Merchant.RowMetrics | src/API/Google/MerchantReport.php:242-248 | A row without a metrics object, or a request without fields, gives empty data. The data never holds a field other than `clicks` and `impressions`. |
| Merchant.MerchantReport.GetReportRowMetrics | src/API/Google/MerchantReport.php:242-262 | The loop over the requested fields computes `RowMetrics`. When metrics are present, a field is in the result iff it was requested and is `clicks` or `impressions`, with the metric value or 0. |
| Merchant.GetSegmentInterval | src/API/Google/MerchantReport.php:276-284 | The interval key is found iff the requested interval is `day`, and then it is the row's day segment. Any other interval fails with an invalid-value error naming the interval and the allowed list `["day"]`. |
| Merchant.AddRow | src/API/Google/MerchantReport.php:186-232 | One row of the pass as a value: the type's step, then the interval step or the interval error, then the totals. Its effects are stated by `AddRowParts` and `AddRowWellFormed`. |
| Merchant.FoldRows | src/API/Google/MerchantReport.php:157-159 | The row loop as a value: row after row until one throws. What it computes is stated by `TotalsAreSumOfRows`, `ProductsTable`, `IntervalsTable`, `FreeListingsTable` and `FailsOnlyForUnsupportedInterval`. |
| Merchant.Finish | src/API/Google/MerchantReport.php:161-168 | The next page token is recorded iff it is non-empty, otherwise the old one stays. The interval keys become strictly ascending with the same keys. Nothing else changes, and the table invariant is kept. |
| Merchant.ToReport | src/API/Google/MerchantReport.php:170 | Removing the report indexes lists the free listings entry if there is one. Product `i` is the table entry of the `i`-th product key, with that key as its id. Interval `i` carries the `i`-th interval key and that key's subtotals. Ids and interval keys are distinct. Totals and next page are copied. |
| Merchant.MerchantReport.InitReportTotals | src/API/Google/MerchantReport.php:155 | The new tables are `InitTotals` of the old ones. |
| Merchant.MerchantReport.IncreaseFree | src/API/Google/MerchantReport.php:190-198 | The new tables are the old ones with the row's metrics added to the free listings subtotals. The table invariant is kept. |
| Merchant.MerchantReport.IncreaseProduct | src/API/Google/MerchantReport.php:200-216 | The new tables add the row to the offer's entry, creating it with the offer id when it is missing. An empty name is filled from the title lookup. The table invariant is kept. |
| Merchant.MerchantReport.IncreaseInterval | src/API/Google/MerchantReport.php:218-229 | The new tables add the row to the interval's entry, creating it when it is missing. The table invariant is kept. |
| Merchant.MerchantReport.IncreaseTotals | src/API/Google/MerchantReport.php:231 | The new tables add the row's metrics to the totals. |
| Merchant.MerchantReport.AddReportRow | src/API/Google/MerchantReport.php:186-232 | The new tables and the error are exactly one step of the fold `AddRow`. That step updates the type's table. With an interval requested, it then updates the interval table or stops with the interval error before the totals. Otherwise it adds to the totals. |
| Merchant.MerchantReport.GetReportData | src/API/Google/MerchantReport.php:143-177 | A Google failure gives the "Unable to retrieve report data." error with the request's code, and the state is unchanged. Otherwise the totals are initialised and the rows are folded. The first row error is returned with the state reached so far. Without an error, the next page token is kept when non-empty, the intervals are sorted by key and the report is returned. From a fresh object, the returned report is `PageReport` of the page. |
| Merchant.SortedHasNoDuplicates | src/API/Google/MerchantReport.php:165-168 | Keys sorted strictly by `ksort` are distinct. |
| Merchant.FoldStopsAtError | src/API/Google/MerchantReport.php:157-159 | Once a row fails, the remaining rows change nothing. The loop may therefore stop at the first error. |
| Merchant.AddProductRowParts | src/API/Google/MerchantReport.php:200-216 | A product row changes only that offer's entry, the product order (appended once for a new offer) and the title lookups. The entry's subtotals grow by the row's metrics. The title is looked up only for a new entry or an empty name. |
| Merchant.AddIntervalRowParts | src/API/Google/MerchantReport.php:218-229 | An interval row changes only that day's entry, and the interval order for a new day. The entry grows by the row's metrics. |
| Merchant.TypeStepParts | src/API/Google/MerchantReport.php:190-216 | The type step touches the free listings table only for the free listings type. It touches the product tables only for the products type with segments. It leaves totals, intervals and the next page alone. |
| Merchant.AddRowParts | src/API/Google/MerchantReport.php:186-232 | One row gives the type step, then the interval step for the row's day when `day` is requested. With no segments or no interval, intervals are unchanged. With any other interval the row fails and the totals are unchanged. Without an error the totals grow by the row's metrics. |
| Merchant.AddProductRowWellFormed | src/API/Google/MerchantReport.php:200-209 | Adding a product row keeps the product order duplicate-free and in step with the product keys. Every entry keeps its own id. |
| Merchant.AddIntervalRowWellFormed | src/API/Google/MerchantReport.php:220-228 | Adding an interval row keeps the interval order duplicate-free and in step with the interval keys. |
| Merchant.TotalsAreSumOfRows | src/API/Google/MerchantReport.php:157-159 | After a page without errors, each total is its starting value plus the sum of that metric over all rows (added per row at line 231). |
| Merchant.TotalsKeepFields | src/API/Google/MerchantReport.php:155-159 | Folding rows never removes a field from the totals. |
| Merchant.FreeListingsTable | src/API/Google/MerchantReport.php:190-198 | For free listings, a non-empty page creates the free listings subtotals. Each of their fields is its starting value plus the sum over the rows. Products are untouched. |
| Merchant.ProductsTable | src/API/Google/MerchantReport.php:200-209 | For products, an offer has an entry iff it had one or some row with segments names it. A new entry's id is the offer id. Its subtotals grow by the sum of that offer's rows. Free listings are untouched. |
| Merchant.OtherTypeTables | src/API/Google/MerchantReport.php:190-216 | Any other report type leaves the free listings and product tables and the title lookups untouched. |
| Merchant.IntervalsTable | src/API/Google/MerchantReport.php:218-229 | With no interval requested, intervals are untouched. Otherwise a day has an entry iff it had one or some row with segments names it, and its subtotals grow by the sum of that day's rows. |
| Merchant.FailsOnlyForUnsupportedInterval | src/API/Google/MerchantReport.php:218-220 | Folding a page fails iff a non-empty interval other than `day` is requested and some row has segments. The error is then the invalid-value error for that interval. |
| Merchant.StepLookups | src/API/Google/MerchantReport.php:211-215 | One row keeps every existing product and every non-empty name. It either adds no title lookup, or exactly one lookup for its offer, whose entry was missing or unnamed and now carries the looked-up title. |
| Merchant.TitleLookedUpAtMostOnce | src/API/Google/MerchantReport.php:211-215 | Over a whole page, an offer whose title is non-empty is looked up at most once. When it was looked up, its entry carries that title. A product that already had a name keeps it. |
| Merchant.NextPageUntouched | src/API/Google/MerchantReport.php:157-163 | Folding rows never changes the next page token. Only the step after the loop sets it. |
| Merchant.TypeStepWellFormed | src/API/Google/MerchantReport.php:190-216 | The type step keeps each key order duplicate-free and in step with its table. |
| Merchant.AddRowWellFormed | src/API/Google/MerchantReport.php:186-232 | One row keeps each key order duplicate-free and in step with its table. |
| Merchant.FoldRowsWellFormed | src/API/Google/MerchantReport.php:157-159 | The whole row loop keeps each key order duplicate-free and in step with its table. |
| Merchant.FreshReport | src/API/Google/MerchantReport.php:155-172 | In the report a fresh object returns for a page, every requested field is in the totals. Each total is the sum of that metric over the page's rows. The next page is the token iff it is non-empty, and absent otherwise. |
| Merchant.PageReportOfTables | src/API/Google/MerchantReport.php:155-172 | A page's report is the row loop's tables, finished and re-indexed, and the tables keep their invariant throughout. |
| Merchant.ReportIntervalOrder | src/API/Google/MerchantReport.php:165-170 | The intervals of a page's report are in strictly ascending key order. Without a requested interval there are none. |
| Merchant.ReportIntervalDays | src/API/Google/MerchantReport.php:218-229 | With an interval requested, every interval key of the report is the day of some row with segments, and every such day has an entry. |
| Merchant.ReportIntervalSums | src/API/Google/MerchantReport.php:218-229 | Each interval entry of the report holds, field by field, the sum of that day's rows. |
| Merchant.ReportProductIds | src/API/Google/MerchantReport.php:200-209 | Product ids in the report are distinct. A report of another type has no products. A products report has exactly one entry per offer id of the rows with segments. |
| Merchant.ReportProductSums | src/API/Google/MerchantReport.php:200-209 | Each product of a products report holds, field by field, the sum of its offer's rows. |
| Merchant.ReportFreeListings | src/API/Google/MerchantReport.php:190-198 | A report has a free listings entry iff it is a free listings report with at least one row. That entry holds, field by field, the sum over the rows. |
| Merchant.Classify | src/API/Google/MerchantReport.php:101-127 | A row counts as expiring iff it expires soon. Otherwise it is active iff its status is `ELIGIBLE` or `ELIGIBLE_LIMITED`, pending iff `PENDING`, and disapproved iff `NOT_ELIGIBLE_OR_DISAPPROVED`. |
| Merchant.GetProductStatistics | src/API/Google/MerchantReport.php:76-132 | Each counter is the number of results classified into it. Not-synced is the number of sync-ready ids minus the number of results. The four status counters never exceed the number of results. |
| Merchant.CountsPartitionRows | src/API/Google/MerchantReport.php:101-127 | Every result lands in exactly one of active, expiring, pending, disapproved or none. |
| Merchant.ExpiringWinsOverStatus | src/API/Google/MerchantReport.php:104-111 | A product that expires soon counts as expiring, whatever its destination status. |
| ReportUtils.Split | js/src/reports/utils.test.js:17-52 | Splitting the query never gives an empty list, and no piece holds the separator. |
| ReportUtils.SplitJoin | js/src/reports/utils.test.js:31-33 | Splitting a joined list gives the pieces back when no piece holds the separator. |
| ReportUtils.ParseIntCases | js/src/reports/utils.test.js:17-52 | `parseInt` skips leading white space. A string starting with a digit reads as a non-negative number. The empty string and one starting with anything but white space, a digit or a sign is `NaN`. |
| ReportUtils.ParseIntOfNotation | js/src/reports/utils.test.js:34-40 | `parseInt` reads back any integer written in decimal, including 0. This still holds when text such as the fraction of a float follows. |
| ReportUtils.Parses | js/src/reports/utils.test.js:17-52 | Each piece is parsed on its own, position by position. |
| ReportUtils.ParsedIds | js/src/reports/utils.test.js:46-50 | The parsed ids are exactly the values of the pieces that parse. |
| ReportUtils.ParsedIdsOfUnparsed | js/src/reports/utils.test.js:26-28 | A list none of whose pieces parses gives no ids. |
| ReportUtils.ParsedIdsAppend | js/src/reports/utils.test.js:31-50 | The ids of concatenated pieces are the ids of the first part followed by those of the second, so parsing keeps the pieces' order. |
| ReportUtils.FirstEntry | js/src/reports/utils.test.js:41-50 | The position of the first piece that parses to an id, or the number of pieces when none does. |
| ReportUtils.FirstEntryOfTail | js/src/reports/utils.test.js:41-50 | The first piece parsing to an id is the head when the head parses to it, and otherwise lies in the tail. |
| ReportUtils.FirstIndexOfParsedIds | js/src/reports/utils.test.js:41-50 | An id comes before another in the parsed ids iff the first piece parsing to it comes before the first piece parsing to the other. |
| ReportUtils.GetIdsFromQuery | js/src/reports/utils.test.js:17-52 | The ids have no duplicates. An id is in the result iff some comma-separated piece of the query parses to it. Id `n` comes before id `m` iff the first piece parsing to `n` comes before the first piece parsing to `m`. |
| ReportUtils.GetIdsFromEmptyQuery | js/src/reports/utils.test.js:18-25 | An empty or undefined query gives no ids. |
| ReportUtils.GetIdsFromNonNumericQuery | js/src/reports/utils.test.js:26-28 | A query none of whose pieces is a number gives no ids. |
| ReportUtils.GetIdsRoundTrip | js/src/reports/utils.test.js:31-44 | Joining distinct ids with commas and reading them back gives the same ids in the same order. |
| ReportUtils.ParsedIdsOfNotations | js/src/reports/utils.test.js:31-33 | Parsing the decimal notations of ids gives back the ids. |
| ReportUtils.AddSubtotals | js/src/reports/utils.test.js:113-133 | Adding subtotals unions the fields and sums each of them. |
| ReportUtils.ZeroFill | js/src/reports/utils.test.js:151-161 | Filling paid fields adds each missing one with value 0 and changes no value. |
| ReportUtils.FieldSumAppend | js/src/reports/utils.test.js:113-133 | The sum of a field over a key is additive over concatenated series. |
| ReportUtils.Accumulate | js/src/reports/utils.test.js:113-149 | Grouping a series by interval gives one bucket per key of the series. Each field is the sum of that field over the key's items, and a field is present iff some item has it. |
| ReportUtils.AggregateIntervals | js/src/reports/utils.test.js:54-162 | With both series absent the result is absent. With one absent it is the other, returned as it is. Otherwise the keys are the union of both sides, in strictly ascending code-point order. Each field of a bucket is the sum over both sides, and every paid field is present. |
| ReportUtils.AggregateIntervalsCommutes | js/src/reports/utils.test.js:113-149 | Merging two series does not depend on which comes first. |
| ReportUtils.MissingFlag | js/src/reports/utils.test.js:222-255 | Without expected free fields nothing is flagged. A paid field that is not an expected free field is flagged for the metric. An expected free field absent from the free totals is flagged for the request. Each flag holds iff its condition holds. |
| ReportUtils.SumToPerformance | js/src/reports/utils.test.js:164-257 | The performance has one entry per field of either side, an absent side counting as empty. The value is the sum of paid and free. There is no base value or delta yet. The missing-data flag follows `MissingFlag`. |
| ReportUtils.Round | js/src/reports/utils.test.js:280-306 | `Math.round` gives the integer nearest to its argument, halves rounding up. |
| ReportUtils.AddBaseToPerformance | js/src/reports/utils.test.js:259-307 | Empty performance gives an empty result. Otherwise the fields are those of the performance, with their value and flag kept. The base value is the baseline's value for the field, if any, and the delta is computed from it. |
| ReportUtils.Delta | js/src/reports/utils.test.js:280-306 | There is no delta iff there is no base value, or the base is 0 and the value is not. A base and value both 0 give 0. |
| ReportUtils.DeltaIsRoundedPercentage | js/src/reports/utils.test.js:280-306 | For a non-zero base, the delta is the percentage change rounded to the nearest integer. It is non-negative when a positive base grows and non-positive when it shrinks. |
| ReportUtils.DeltaExamples | js/src/reports/utils.test.js:280-306 | Going from 10 to 13 is a delta of 30, and from 10 to 5 a delta of -50. |
| ReportUtils.PerformanceWithBase | js/src/reports/utils.test.js:164-307 | Summing and then adding a base gives one entry per field of either side. Each entry holds the summed value, the baseline value and the delta between them. |
| ProductHelper.MarkedSynced | tests/Unit/Product/ProductHelperTest.php:45-119 | Marking as synced makes the product synced, with status synced, synced-at now and the visibility filled if empty. It records the Google id for the target country and keeps the ids of other countries. Errors and the failure record are cleared iff every target country then has an id, and are kept otherwise. |
| ProductHelper.MarkedUnsynced | tests/Unit/Product/ProductHelperTest.php:161-173 | Marking as unsynced makes the product not synced. It clears the Google ids, errors, synced-at and failure record, sets status not-synced and keeps the visibility. |
| ProductHelper.MarkedPending | tests/Unit/Product/ProductHelperTest.php:319-324 | Marking as pending sets the status to pending and changes nothing else. |
| ProductHelper.MarkedInvalid | tests/Unit/Product/ProductHelperTest.php:238-273 | Marking as invalid stores the errors, sets status has-errors and fills the visibility if empty. Ids and synced-at are kept. The failed attempts grow by one and failed-at becomes now iff the errors hold an internal error. |
| ProductHelper.WithoutGoogleIdOf | tests/Unit/Product/ProductHelperTest.php:205-231 | Removing a country's id drops exactly that entry. If none remain, the product is marked unsynced. Otherwise nothing else changes. |
| ProductHelper.EmptyVisibilityUpdated | tests/Unit/Product/ProductHelperTest.php:45-66 | An unset visibility becomes sync-and-show. A set one is kept. |
| ProductHelper.ProductMeta.constructor | tests/Unit/Product/ProductHelperTest.php:45-66 | New metadata is blank. |
| ProductHelper.ProductMeta.UpdateEmptyVisibility | tests/Unit/Product/ProductHelperTest.php:45-66 | Only the visibility changes, as `EmptyVisibilityUpdated` says. |
| ProductHelper.ProductMeta.DeleteFailureRecord | tests/Unit/Product/ProductHelperTest.php:94-119 | Only the errors, failed attempts and failed-at change, and all are cleared. |
| ProductHelper.ProductMeta.MarkAsSynced | tests/Unit/Product/ProductHelperTest.php:45-119 | The new metadata is `MarkedSynced` of the old. |
| ProductHelper.ProductMeta.MarkAsUnsynced | tests/Unit/Product/ProductHelperTest.php:161-173 | The new metadata is `MarkedUnsynced` of the old. |
| ProductHelper.ProductMeta.MarkAsPending | tests/Unit/Product/ProductHelperTest.php:319-324 | The new metadata is `MarkedPending` of the old. |
| ProductHelper.ProductMeta.MarkAsInvalid | tests/Unit/Product/ProductHelperTest.php:238-273 | The new metadata is `MarkedInvalid` of the old. |
| ProductHelper.ProductMeta.RemoveGoogleId | tests/Unit/Product/ProductHelperTest.php:205-231 | An id that no country holds changes nothing. Otherwise the metadata becomes `WithoutGoogleIdOf` for a country holding that id. |
| ProductHelper.IsProductSynced | tests/Unit/Product/ProductHelperTest.php:391-421 | A product is synced when it has a synced-at time and at least one Google id. What this means across the updates is stated by `SyncedUntilIdsOrTimeDeleted`. |
| ProductHelper.SyncedUntilIdsOrTimeDeleted | tests/Unit/Product/ProductHelperTest.php:391-421 | A product just marked synced is synced. It stops being synced once its Google ids or its synced-at are removed, or once it is marked unsynced. |
| ProductHelper.ErrorsClearedWhenAllTargetsSynced | tests/Unit/Product/ProductHelperTest.php:94-119 | With two target countries, syncing the first keeps the errors and failure record. Syncing the second clears them and holds both ids. |
| ProductHelper.RemovingGoogleIds | tests/Unit/Product/ProductHelperTest.php:205-231 | Removing the only id makes the product unsynced. Removing one id keeps the ids of the other countries. |
| ProductHelper.LastToken | tests/Unit/Product/ProductHelperTest.php:349-361 | The last colon-separated token is a colon-free suffix of the Google id. It is the whole id, or it follows a colon. |
| ProductHelper.GetWcProductId | tests/Unit/Product/ProductHelperTest.php:349-361 | A non-zero product id comes only from a last token that starts with `gla_` followed by more characters. |
| ProductHelper.LastTokenAfterColon | tests/Unit/Product/ProductHelperTest.php:349-354 | The last token of text, a colon and a colon-free word is that word. |
| ProductHelper.GetWcProductIdRoundTrip | tests/Unit/Product/ProductHelperTest.php:349-354 | Any channel prefix, a colon, `gla_` and a product id in decimal read back as that id. |
| ProductHelper.GetWcProductIdOfNonNumericSuffix | tests/Unit/Product/ProductHelperTest.php:356-361 | A Google id whose `gla_` token does not start with a digit gives 0. |
| ProductHelper.MessageLists | tests/Unit/Product/ProductHelperTest.php:605-631 | The message lists of all entries, in order, exist iff every value is a list. Otherwise the failure names the key of an entry holding a single message. |
| ProductHelper.GetValidationErrors | tests/Unit/Product/ProductHelperTest.php:605-661 | Errors not keyed by product id are returned as stored. Errors keyed by product id merge iff every value is a list of messages. The merged messages are distinct, and a message is in them iff some product's list holds it. |
| ProductHelper.ValidationErrorsOfProductKeyedErrors | tests/Unit/Product/ProductHelperTest.php:605-631 | The errors of a parent and its variations, keyed by product id, merge into exactly the four distinct messages. |
| ProductHelper.ValidationErrorsOfIndexKeyedErrors | tests/Unit/Product/ProductHelperTest.php:638-661 | Errors keyed 0, 1, 2 are returned as stored. |
| Lex.Sort | src/API/Google/MerchantReport.php:165-168 | Sorting keys gives a strictly ascending sequence with the same elements. |
| Lex.SortedUnique | src/API/Google/MerchantReport.php:165-168 | Two strictly sorted sequences with the same elements are equal, so the sorted order is unique. |
| Seqs.Unique | js/src/reports/utils.test.js:41-44 | De-duplication keeps exactly the elements of the input, each once. |
| Seqs.Position | js/src/reports/utils.test.js:41-44 | The position of the first occurrence of an element, or the length when it does not occur. |
| Seqs.UniqueKeepsFirstOccurrenceOrder | js/src/reports/utils.test.js:41-44 | De-duplication keeps elements in the order of their first occurrence. |
| Digits.ValueOfToDigits | tests/Unit/Product/ProductHelperTest.php:349-354 | Writing a natural number in decimal and reading it back gives the number. |

## Left out

- `src/API/Google/ReportTrait.php` is not part of this model. The report helpers it supplies are modelled from how `MerchantReport.php` calls them:
  - `increase_report_data` adds field by field, with an absent field counting as 0.
  - `init_report_totals` sets each requested field to 0.
  - `remove_report_indexes` lists the entries in key order.
- The Google client, the query builder (`MerchantReportQuery`) and the `do_action` hook are left out. They are I/O; a request outcome is a parameter (`SearchOutcome`).
- In `get_product_statistics`, the query over the Merchant Center product view, the date arithmetic for "expiring" and the product repository lookup of sync-ready ids are left out. The expiring flag and the ids are inputs, and `$results->count()` is the number of results.
- The product title lookup (`product_helper->get_wc_product_title`) is a total function parameter. Segment days are opaque strings.
- Merchant.MerchantReport.GetReportData: the object is modelled for one successful call. Line 170 re-indexes the object's own report data in place, so PHP holds lists afterwards, and a second call on the same object would add rows to those lists. The model keeps its keyed tables after the call and returns the re-indexed copy. That in-place re-indexing is not modelled.
- Merchant.GetProductStatistics: `not_synced` is an unbounded integer and may be negative, as in PHP. Integer overflow is not modelled anywhere.
- `js/src/reports/utils.js` and `js/src/data/utils.js` are not part of this model. The utilities are modelled from the assertions of `js/src/reports/utils.test.js`:
  - `getIdsFromQuery` splits on commas, applies `parseInt` to each piece, drops non-numbers and keeps first occurrences.
  - The missing-data flag follows the three cases the assertions distinguish.
  - The delta is `Math.round` of the percentage change. With no base value, or a base of 0 and a non-zero value, there is no delta; a base and value both 0 give 0.
- ReportUtils.ParseInt: `parseInt` is modelled for optional leading white space, an optional sign and decimal digits. White space is JavaScript's set: tab, line feed, vertical tab, form feed, carriage return, space, U+00A0, U+1680, U+2000 to U+200A, U+2028, U+2029, U+202F, U+205F, U+3000 and U+FEFF. Hexadecimal prefixes, radix arguments and numbers beyond double precision are not modelled.
- Lex.Less: strings are compared by code point. This is PHP's byte order on UTF-8 keys. JavaScript compares UTF-16 code units, which differs for characters above U+FFFF (a surrogate pair sorts below U+E000 to U+FFFF there). Interval keys are dates, so this does not arise for them.
- JavaScript numbers are modelled as exact reals, so floating-point rounding is not modelled.
- `src/Product/ProductHelper.php` is not part of this model. Its behaviour is modelled from `tests/Unit/Product/ProductHelperTest.php`:
  - Visibility is set only when it is empty.
  - The failure record is cleared when every target country has an id.
  - The internal error reason is taken to be `internalError`.
  - The merge happens when the first key is a non-zero integer; the keys of merged errors are dropped.
- ProductHelper.ProductMeta.RemoveGoogleId: when several countries hold the same id, PHP's `array_search` removes the first in array order. The model states only that one country holding the id is removed.
- ProductHelper.GetWcProductId: PHP's `intval` of a partly numeric suffix such as `gla_12ab` is not modelled. The model gives 0 unless the whole suffix after `gla_` is digits.
- ProductHelper.MarkedInvalid: the assertions do not fix what an empty error list does, so the model treats it like any other list without an internal error.
- Propagation of each update to a variation's parent product is left out, as are the metadata storage layer, `get_synced_google_product_ids`, `is_sync_ready`, `is_sync_failed_recently`, `get_visibility`, `get_mc_status` and `maybe_swap_for_parent_id`. These are outside the modelled operations.
- The clock is a parameter `now`, which must be positive, as a Unix time is.
