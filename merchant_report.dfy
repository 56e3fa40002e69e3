/**
 * The Merchant Center report of src/API/Google/MerchantReport.php: one pass
 * over the rows of an already fetched report that adds each row's metrics
 * into the table of its report type, into a per-day intervals table and into
 * the grand totals; and the product statistics that sort product-view rows
 * into status counters.
 *
 * The helpers of the report trait the class uses (`init_report_totals`,
 * `increase_report_data`, `increase_report_totals`, `remove_report_indexes`)
 * are not part of this model; their effect is taken from their call sites:
 * "increase" adds field by field (a missing field counting as 0) and the
 * first increase of an entry stores the data it is given.
 */
module Merchant {
  import opened Wrappers
  import Lex
  import Seqs

  // ---------------------------------------------------------------------------
  // Rows, requests and results
  // ---------------------------------------------------------------------------

  /** Metric name to integer value. */
  type Subtotals = map<string, int>

  /** `$subtotals[ $f ]`, a missing field read as 0. */
  function Get(m: Subtotals, f: string): int
  {
    if f in m then m[f] else 0
  }

  /** The "increase" of the report trait: field-wise addition, a missing field counting as 0. */
  function Increase(existing: Subtotals, incoming: Subtotals): (r: Subtotals)
    ensures r.Keys == existing.Keys + incoming.Keys
    ensures forall f :: Get(r, f) == Get(existing, f) + Get(incoming, f)
  {
    map f | f in existing.Keys + incoming.Keys :: Get(existing, f) + Get(incoming, f)
  }

  /** PHP's `empty()` on a string: `""` and `"0"` are empty. */
  predicate EmptyString(s: string)
  {
    s == "" || s == "0"
  }

  /** A row's metrics object: what `getClicks()` and `getImpressions()` return, `None` for null. */
  datatype MetricValues = MetricValues(clicks: Option<int>, impressions: Option<int>)

  /**
   * A row's segments: the offer id and the day key of the row's date (the id
   * `TimeInterval::time_interval_id( 'day', $date )` gives, taken as an opaque
   * string that sorts like the date).
   */
  datatype Segments = Segments(offerId: string, day: string)

  /** One report row; either part may be missing. */
  datatype ReportRow = ReportRow(segments: Option<Segments>, metrics: Option<MetricValues>)

  /** The request arguments the pass reads: `fields` (absent read as `[]`) and `interval` (absent read as `""`). */
  datatype ReportArgs = ReportArgs(fields: seq<string>, interval: string)

  /** One page of search results: its rows and its next-page token (`""` when there is none). */
  datatype SearchResponse = SearchResponse(rows: seq<ReportRow>, nextPageToken: string)

  /** What the search call gave: a page of results, or a Google exception with its code. */
  datatype SearchOutcome = Fetched(response: SearchResponse) | GoogleException(code: int)

  /** The exceptions `get_report_data` lets out. */
  datatype ReportError =
    | InvalidValue(value: string, allowed: seq<string>)
    | UnableToRetrieve(message: string, code: int)

  const UnableToRetrieveMessage := "Unable to retrieve report data."

  /** The types of report `add_report_row` knows. */
  const FreeListingsType := "free_listings"
  const ProductsType := "products"

  // ---------------------------------------------------------------------------
  // get_report_row_metrics and get_segment_interval
  // ---------------------------------------------------------------------------

  /** The metrics of `m` that `fields` asks for and that can be read: only `clicks` and `impressions`, null read as 0. */
  function FieldMetrics(fields: seq<string>, m: MetricValues): (data: Subtotals)
    ensures data.Keys == set f | f in fields && (f == "clicks" || f == "impressions")
    ensures "clicks" in data ==> data["clicks"] == m.clicks.GetOr(0)
    ensures "impressions" in data ==> data["impressions"] == m.impressions.GetOr(0)
  {
    if fields == [] then map[]
    else
      var n := |fields| - 1;
      var data := FieldMetrics(fields[..n], m);
      assert forall f :: f in fields <==> f in fields[..n] || f == fields[n];
      if fields[n] == "clicks" then data["clicks" := m.clicks.GetOr(0)]
      else if fields[n] == "impressions" then data["impressions" := m.impressions.GetOr(0)]
      else data
  }

  /** The metrics a row contributes: none without a metrics object or without requested fields. */
  function RowMetrics(row: ReportRow, args: ReportArgs): (data: Subtotals)
    ensures row.metrics.None? || args.fields == [] ==> data == map[]
    ensures data.Keys <= {"clicks", "impressions"}
  {
    if row.metrics.None? || args.fields == [] then map[] else FieldMetrics(args.fields, row.metrics.value)
  }

  /** The key of a row's interval; only the daily interval is supported. */
  function GetSegmentInterval(interval: string, segments: Segments): (r: Result<string, ReportError>)
    ensures r.Success? <==> interval == "day"
    ensures r.Success? ==> r.value == segments.day
    ensures r.Failure? ==> r.error == InvalidValue(interval, ["day"])
  {
    if interval != "day" then Failure(InvalidValue(interval, ["day"])) else Success(segments.day)
  }

  // ---------------------------------------------------------------------------
  // The report data and one step of the pass, as values
  // ---------------------------------------------------------------------------

  /** A product's entry: its offer id, its subtotals and its title (`""` until looked up). */
  datatype ProductEntry = ProductEntry(id: string, subtotals: Subtotals, name: string)

  /** An interval's entry in the result. */
  datatype IntervalEntry = IntervalEntry(interval: string, subtotals: Subtotals)

  /**
   * The report data the object accumulates: the single `free` entry of the
   * free-listings table, the products table and the intervals table (each
   * keyed table with its keys in PHP array order), the totals, the next-page
   * token, and the offer ids whose titles were looked up, in call order.
   */
  datatype Tables = Tables(
    free: Option<Subtotals>,
    products: map<string, ProductEntry>,
    productOrder: seq<string>,
    intervals: map<string, Subtotals>,
    intervalOrder: seq<string>,
    totals: Subtotals,
    nextPage: Option<string>,
    titleLookups: seq<string>)

  const EmptyTables := Tables(None, map[], [], map[], [], map[], None, [])

  /** The key orders list each key of their table once. */
  ghost predicate WellFormed(t: Tables)
  {
    && Seqs.NoDuplicates(t.productOrder)
    && (forall k :: k in t.productOrder <==> k in t.products)
    && (forall k :: k in t.products ==> t.products[k].id == k)
    && Seqs.NoDuplicates(t.intervalOrder)
    && (forall k :: k in t.intervalOrder <==> k in t.intervals)
  }

  /** `init_report_totals( $fields )`: every requested field starts at 0 in the totals. */
  function InitTotals(t: Tables, fields: seq<string>): Tables
  {
    t.(totals := t.totals + map f | f in fields :: 0)
  }

  /** `increase_report_data( 'products', $id, ... )` followed by the title lookup while the name is empty. */
  function AddProductRow(t: Tables, id: string, metrics: Subtotals, title: string -> string): Tables
  {
    var known := id in t.products;
    var entry := if known then t.products[id].(subtotals := Increase(t.products[id].subtotals, metrics))
                 else ProductEntry(id, metrics, "");
    var order := if known then t.productOrder else t.productOrder + [id];
    if EmptyString(entry.name) then
      t.(products := t.products[id := entry.(name := title(id))], productOrder := order,
         titleLookups := t.titleLookups + [id])
    else
      t.(products := t.products[id := entry], productOrder := order)
  }

  /** `increase_report_data( 'intervals', $key, ... )`. */
  function AddIntervalRow(t: Tables, key: string, metrics: Subtotals): Tables
  {
    if key in t.intervals then t.(intervals := t.intervals[key := Increase(t.intervals[key], metrics)])
    else t.(intervals := t.intervals[key := metrics], intervalOrder := t.intervalOrder + [key])
  }

  /** `increase_report_data( 'free_listings', 'free', ... )`. */
  function AddFreeRow(t: Tables, metrics: Subtotals): Tables
  {
    t.(free := Some(Increase(t.free.GetOr(map[]), metrics)))
  }

  /** `increase_report_totals`. */
  function AddTotals(t: Tables, metrics: Subtotals): Tables
  {
    t.(totals := Increase(t.totals, metrics))
  }

  /** The part of `add_report_row` that updates the table of the report type. */
  function TypeStep(t: Tables, kind: string, row: ReportRow, args: ReportArgs, title: string -> string): Tables
  {
    var metrics := RowMetrics(row, args);
    var t1 := if kind == FreeListingsType then AddFreeRow(t, metrics) else t;
    if kind == ProductsType && row.segments.Some? then AddProductRow(t1, row.segments.value.offerId, metrics, title)
    else t1
  }

  /** The state after a step and the exception it threw, if any. */
  datatype Run = Run(tables: Tables, error: Option<ReportError>)

  /**
   * `add_report_row`: the type's table, then the interval (when the row has
   * segments and an interval was requested; an unsupported interval throws
   * here, after the type's table was updated), then the totals.
   */
  function AddRow(t: Tables, kind: string, row: ReportRow, args: ReportArgs, title: string -> string): Run
  {
    var metrics := RowMetrics(row, args);
    var t1 := TypeStep(t, kind, row, args, title);
    if row.segments.Some? && !EmptyString(args.interval) then
      match GetSegmentInterval(args.interval, row.segments.value)
      case Failure(e) => Run(t1, Some(e))
      case Success(key) => Run(AddTotals(AddIntervalRow(t1, key, metrics), metrics), None)
    else
      Run(AddTotals(t1, metrics), None)
  }

  /** The `foreach` over the rows: row after row until one throws. */
  function FoldRows(t: Tables, kind: string, rows: seq<ReportRow>, args: ReportArgs, title: string -> string): Run
  {
    if rows == [] then Run(t, None)
    else
      var prev := FoldRows(t, kind, rows[..|rows| - 1], args, title);
      if prev.error.Some? then prev else AddRow(prev.tables, kind, rows[|rows| - 1], args, title)
  }

  /** After the pass: the next-page token when there is one, and the intervals sorted by key (`ksort`). */
  function Finish(t: Tables, nextPageToken: string): (r: Tables)
    ensures Lex.StrictlySorted(r.intervalOrder)
    ensures forall k :: k in r.intervalOrder <==> k in t.intervalOrder
    ensures EmptyString(nextPageToken) ==> r.nextPage == t.nextPage
    ensures !EmptyString(nextPageToken) ==> r.nextPage == Some(nextPageToken)
    ensures r.(nextPage := t.nextPage, intervalOrder := t.intervalOrder) == t
    ensures WellFormed(t) ==> WellFormed(r)
  {
    SortedHasNoDuplicates(Lex.Sort(t.intervalOrder));
    t.(nextPage := if EmptyString(nextPageToken) then t.nextPage else Some(nextPageToken),
       intervalOrder := Lex.Sort(t.intervalOrder))
  }

  /** The result: each keyed table as a list in its key order (`remove_report_indexes`). */
  datatype Report = Report(
    freeListings: seq<Subtotals>,
    products: seq<ProductEntry>,
    intervals: seq<IntervalEntry>,
    totals: Subtotals,
    nextPage: Option<string>)

  function ToReport(t: Tables): (r: Report)
    requires WellFormed(t)
    ensures r.freeListings == (if t.free.Some? then [t.free.value] else [])
    ensures |r.products| == |t.productOrder| && |r.intervals| == |t.intervalOrder|
    ensures forall i :: 0 <= i < |r.products| ==> r.products[i] == t.products[t.productOrder[i]]
    ensures forall i :: 0 <= i < |r.products| ==> r.products[i].id == t.productOrder[i]
    ensures forall i, j :: 0 <= i < j < |r.products| ==> r.products[i].id != r.products[j].id
    ensures forall i :: 0 <= i < |r.intervals| ==>
      r.intervals[i].interval == t.intervalOrder[i] && r.intervals[i].subtotals == t.intervals[t.intervalOrder[i]]
    ensures forall i, j :: 0 <= i < j < |r.intervals| ==> r.intervals[i].interval != r.intervals[j].interval
    ensures r.totals == t.totals && r.nextPage == t.nextPage
  {
    Report(
      if t.free.Some? then [t.free.value] else [],
      seq(|t.productOrder|, i requires 0 <= i < |t.productOrder| => t.products[t.productOrder[i]]),
      seq(|t.intervalOrder|, i requires 0 <= i < |t.intervalOrder| =>
        IntervalEntry(t.intervalOrder[i], t.intervals[t.intervalOrder[i]])),
      t.totals,
      t.nextPage)
  }

  // ---------------------------------------------------------------------------
  // The report object
  // ---------------------------------------------------------------------------

  /** `MerchantReport`: the report data is the object's state, updated row by row. */
  class MerchantReport {
    var free: Option<Subtotals>
    var products: map<string, ProductEntry>
    var productOrder: seq<string>
    var intervals: map<string, Subtotals>
    var intervalOrder: seq<string>
    var totals: Subtotals
    var nextPage: Option<string>
    /** The offer ids passed to the product-title lookup, in call order. */
    ghost var titleLookups: seq<string>

    ghost function Data(): Tables
      reads this
    {
      Tables(free, products, productOrder, intervals, intervalOrder, totals, nextPage, titleLookups)
    }

    ghost predicate Valid()
      reads this
    {
      WellFormed(Data())
    }

    constructor ()
      ensures Valid() && Data() == EmptyTables
    {
      free, products, productOrder := None, map[], [];
      intervals, intervalOrder, totals := map[], [], map[];
      nextPage, titleLookups := None, [];
    }

    /** `get_report_row_metrics`: the requested metrics of a row, read one requested field at a time. */
    method GetReportRowMetrics(row: ReportRow, args: ReportArgs) returns (data: Subtotals)
      ensures data == RowMetrics(row, args)
      ensures row.metrics.Some? ==>
        && (forall f :: f in data <==> f in args.fields && (f == "clicks" || f == "impressions"))
        && ("clicks" in data ==> data["clicks"] == row.metrics.value.clicks.GetOr(0))
        && ("impressions" in data ==> data["impressions"] == row.metrics.value.impressions.GetOr(0))
    {
      if row.metrics.None? || |args.fields| == 0 {
        return map[];
      }
      var metrics := row.metrics.value;
      data := map[];
      var i := 0;
      while i < |args.fields|
        invariant 0 <= i <= |args.fields|
        invariant data == FieldMetrics(args.fields[..i], metrics)
      {
        var field := args.fields[i];
        if field == "clicks" {
          data := data["clicks" := metrics.clicks.GetOr(0)];
        } else if field == "impressions" {
          data := data["impressions" := metrics.impressions.GetOr(0)];
        }
        assert args.fields[..i + 1][..i] == args.fields[..i];
        i := i + 1;
      }
      assert args.fields[..i] == args.fields;
    }

    /** `init_report_totals`. */
    method InitReportTotals(fields: seq<string>)
      requires Valid()
      modifies this
      ensures Valid() && Data() == InitTotals(old(Data()), fields)
    {
      totals := totals + map f | f in fields :: 0;
    }

    /** `increase_report_data( 'free_listings', 'free', $metrics )`. */
    method IncreaseFree(metrics: Subtotals)
      requires Valid()
      modifies this
      ensures Valid() && Data() == AddFreeRow(old(Data()), metrics)
    {
      free := Some(Increase(free.GetOr(map[]), metrics));
    }

    /** `increase_report_data( 'products', $id, ... )`, then the title lookup while the entry has no name. */
    method IncreaseProduct(id: string, metrics: Subtotals, title: string -> string)
      requires Valid()
      modifies this
      ensures Valid() && Data() == AddProductRow(old(Data()), id, metrics, title)
    {
      var entry;
      if id in products {
        entry := products[id].(subtotals := Increase(products[id].subtotals, metrics));
      } else {
        entry := ProductEntry(id, metrics, "");
        productOrder := productOrder + [id];
      }
      if EmptyString(entry.name) {
        var name := title(id);
        entry := entry.(name := name);
        titleLookups := titleLookups + [id];
      }
      products := products[id := entry];
      AddProductRowWellFormed(old(Data()), id, metrics, title);
    }

    /** `increase_report_data( 'intervals', $key, ... )`. */
    method IncreaseInterval(key: string, metrics: Subtotals)
      requires Valid()
      modifies this
      ensures Valid() && Data() == AddIntervalRow(old(Data()), key, metrics)
    {
      if key in intervals {
        intervals := intervals[key := Increase(intervals[key], metrics)];
      } else {
        intervals := intervals[key := metrics];
        intervalOrder := intervalOrder + [key];
      }
      AddIntervalRowWellFormed(old(Data()), key, metrics);
    }

    /** `increase_report_totals( $metrics )`. */
    method IncreaseTotals(metrics: Subtotals)
      requires Valid()
      modifies this
      ensures Valid() && Data() == AddTotals(old(Data()), metrics)
    {
      totals := Increase(totals, metrics);
    }

    /** `add_report_row`; returns the exception it throws, if any. */
    method AddReportRow(kind: string, row: ReportRow, args: ReportArgs, title: string -> string)
      returns (error: Option<ReportError>)
      requires Valid()
      modifies this
      ensures Valid()
      ensures Run(Data(), error) == AddRow(old(Data()), kind, row, args, title)
    {
      var segments := row.segments;
      var metrics := GetReportRowMetrics(row, args);

      if kind == FreeListingsType {
        IncreaseFree(metrics);
      }
      if kind == ProductsType && segments.Some? {
        IncreaseProduct(segments.value.offerId, metrics, title);
      }
      assert Data() == TypeStep(old(Data()), kind, row, args, title);

      if segments.Some? && !EmptyString(args.interval) {
        var interval := GetSegmentInterval(args.interval, segments.value);
        if interval.Failure? {
          return Some(interval.error);
        }
        IncreaseInterval(interval.value, metrics);
      }

      IncreaseTotals(metrics);
      return None;
    }

    /**
     * `get_report_data`: a Google exception from the search becomes the
     * generic "unable to retrieve" exception with the same code and leaves the
     * report data alone; otherwise the totals are initialised, every row is
     * added (an unsupported interval throws out of the pass), the next-page
     * token is attached and the intervals are sorted by key.
     */
    method GetReportData(kind: string, args: ReportArgs, outcome: SearchOutcome, title: string -> string)
      returns (r: Result<Report, ReportError>)
      requires Valid()
      modifies this
      ensures Valid()
      ensures outcome.GoogleException? ==>
        r == Failure(UnableToRetrieve(UnableToRetrieveMessage, outcome.code)) && Data() == old(Data())
      ensures outcome.Fetched? ==>
        var run := FoldRows(InitTotals(old(Data()), args.fields), kind, outcome.response.rows, args, title);
        && (run.error.Some? ==> r == Failure(run.error.value) && Data() == run.tables)
        && (run.error.None? ==>
              Data() == Finish(run.tables, outcome.response.nextPageToken) && r == Success(ToReport(Data())))
      ensures old(Data()) == EmptyTables && outcome.Fetched? && PageSucceeds(kind, args, outcome.response, title) ==>
        r == Success(PageReport(kind, args, outcome.response, title))
    {
      if outcome.GoogleException? {
        return Failure(UnableToRetrieve(UnableToRetrieveMessage, outcome.code));
      }
      var response := outcome.response;
      InitReportTotals(args.fields);
      ghost var start := Data();
      var i := 0;
      while i < |response.rows|
        invariant 0 <= i <= |response.rows|
        invariant Valid()
        invariant FoldRows(start, kind, response.rows[..i], args, title) == Run(Data(), None)
      {
        var error := AddReportRow(kind, response.rows[i], args, title);
        assert response.rows[..i + 1][..i] == response.rows[..i];
        if error.Some? {
          FoldStopsAtError(start, kind, response.rows, i + 1, args, title);
          return Failure(error.value);
        }
        i := i + 1;
      }
      assert response.rows[..i] == response.rows;

      if !EmptyString(response.nextPageToken) {
        nextPage := Some(response.nextPageToken);
      }
      // Sort intervals to generate an ordered graph.
      intervalOrder := Lex.Sort(intervalOrder);
      SortedHasNoDuplicates(intervalOrder);

      // Remove the indexes: each keyed table becomes a list in its key order.
      var report := ToReport(Tables(free, products, productOrder, intervals, intervalOrder, totals, nextPage, []));
      return Success(report);
    }
  }

  // ---------------------------------------------------------------------------
  // What the pass computes
  // ---------------------------------------------------------------------------

  lemma SortedHasNoDuplicates(s: seq<string>)
    requires Lex.StrictlySorted(s)
    ensures Seqs.NoDuplicates(s)
  {
    forall i, j | 0 <= i < j < |s|
      ensures s[i] != s[j]
    {
      Lex.LessIrreflexive(s[i]);
    }
  }

  /** Once a row has thrown, the rest of the rows change nothing. */
  lemma {:induction false} FoldStopsAtError(t: Tables, kind: string, rows: seq<ReportRow>, n: nat,
                                             args: ReportArgs, title: string -> string)
    requires n <= |rows|
    requires FoldRows(t, kind, rows[..n], args, title).error.Some?
    ensures FoldRows(t, kind, rows, args, title) == FoldRows(t, kind, rows[..n], args, title)
    decreases |rows| - n
  {
    if n < |rows| {
      assert rows[..n + 1][..n] == rows[..n];
      FoldStopsAtError(t, kind, rows, n + 1, args, title);
    } else {
      assert rows[..n] == rows;
    }
  }

  /** A product's subtotals, none for an id without an entry. */
  function ProductSubtotals(t: Tables, id: string): Subtotals
  {
    if id in t.products then t.products[id].subtotals else map[]
  }

  /** An interval's subtotals, none for a key without an entry. */
  function IntervalSubtotals(t: Tables, key: string): Subtotals
  {
    if key in t.intervals then t.intervals[key] else map[]
  }

  /** A product row touches only the entry of its offer id, its key order and the title lookups. */
  lemma AddProductRowParts(t: Tables, x: string, m: Subtotals, title: string -> string)
    ensures var r := AddProductRow(t, x, m, title);
      var lookup := x !in t.products || EmptyString(t.products[x].name);
      && r.free == t.free && r.totals == t.totals && r.nextPage == t.nextPage
      && r.intervals == t.intervals && r.intervalOrder == t.intervalOrder
      && x in r.products
      && r.products == t.products[x := r.products[x]]
      && r.products[x].id == (if x in t.products then t.products[x].id else x)
      && (forall f :: Get(r.products[x].subtotals, f) == Get(ProductSubtotals(t, x), f) + Get(m, f))
      && r.productOrder == (if x in t.products then t.productOrder else t.productOrder + [x])
      && r.titleLookups == (if lookup then t.titleLookups + [x] else t.titleLookups)
      && r.products[x].name == (if lookup then title(x) else t.products[x].name)
  {
  }

  /** An interval row touches only the entry of its key and the key order. */
  lemma AddIntervalRowParts(t: Tables, key: string, m: Subtotals)
    ensures var r := AddIntervalRow(t, key, m);
      && r.free == t.free && r.products == t.products && r.productOrder == t.productOrder
      && r.titleLookups == t.titleLookups && r.totals == t.totals && r.nextPage == t.nextPage
      && key in r.intervals
      && r.intervals == t.intervals[key := r.intervals[key]]
      && (forall f :: Get(r.intervals[key], f) == Get(IntervalSubtotals(t, key), f) + Get(m, f))
      && r.intervalOrder == (if key in t.intervals then t.intervalOrder else t.intervalOrder + [key])
  {
  }

  /** The type's step touches only the free entry and the products table (with its title lookups). */
  lemma TypeStepParts(t: Tables, kind: string, row: ReportRow, args: ReportArgs, title: string -> string)
    ensures var ty := TypeStep(t, kind, row, args, title);
      && ty.totals == t.totals && ty.nextPage == t.nextPage
      && ty.intervals == t.intervals && ty.intervalOrder == t.intervalOrder
      && ty.free == (if kind == FreeListingsType then Some(Increase(t.free.GetOr(map[]), RowMetrics(row, args))) else t.free)
      && (kind != ProductsType || row.segments.None? ==>
            ty.products == t.products && ty.productOrder == t.productOrder && ty.titleLookups == t.titleLookups)
      && (kind == ProductsType && row.segments.Some? ==>
            ty == AddProductRow(t, row.segments.value.offerId, RowMetrics(row, args), title))
  {
  }

  /**
   * One row: the type's step, then (with segments and a requested interval)
   * the interval or the exception, then the totals unless it threw.
   */
  lemma AddRowParts(t: Tables, kind: string, row: ReportRow, args: ReportArgs, title: string -> string)
    ensures var run := AddRow(t, kind, row, args, title);
      var r := run.tables;
      var ty := TypeStep(t, kind, row, args, title);
      var m := RowMetrics(row, args);
      && r.free == ty.free && r.products == ty.products && r.productOrder == ty.productOrder
      && r.titleLookups == ty.titleLookups && r.nextPage == t.nextPage
      && (run.error.None? ==> r.totals == Increase(t.totals, m))
      && (run.error.Some? ==> r.totals == t.totals)
      && (row.segments.None? || EmptyString(args.interval) ==>
            run.error.None? && r.intervals == t.intervals && r.intervalOrder == t.intervalOrder)
      && (row.segments.Some? && !EmptyString(args.interval) && args.interval != "day" ==>
            run.error == Some(InvalidValue(args.interval, ["day"])) && r.intervals == t.intervals)
      && (row.segments.Some? && args.interval == "day" ==>
            && run.error.None?
            && r.intervals == AddIntervalRow(t, row.segments.value.day, m).intervals
            && r.intervalOrder == AddIntervalRow(t, row.segments.value.day, m).intervalOrder)
  {
    TypeStepParts(t, kind, row, args, title);
    var ty := TypeStep(t, kind, row, args, title);
    var m := RowMetrics(row, args);
    if row.segments.Some? && !EmptyString(args.interval) {
      if args.interval == "day" {
        var key := row.segments.value.day;
        assert AddRow(t, kind, row, args, title) == Run(AddTotals(AddIntervalRow(ty, key, m), m), None);
        AddIntervalRowParts(ty, key, m);
        AddIntervalRowParts(t, key, m);
      } else {
        assert AddRow(t, kind, row, args, title) == Run(ty, Some(InvalidValue(args.interval, ["day"])));
      }
    } else {
      assert AddRow(t, kind, row, args, title) == Run(AddTotals(ty, m), None);
    }
  }

  /** Adding a product row keeps each table's key order listing its keys once. */
  lemma AddProductRowWellFormed(t: Tables, x: string, m: Subtotals, title: string -> string)
    requires WellFormed(t)
    ensures WellFormed(AddProductRow(t, x, m, title))
  {
    var r := AddProductRow(t, x, m, title);
    AddProductRowParts(t, x, m, title);
    if x !in t.products {
      forall i, j | 0 <= i < j < |r.productOrder|
        ensures r.productOrder[i] != r.productOrder[j]
      {
        if j == |t.productOrder| {
          assert r.productOrder[i] == t.productOrder[i];
        }
      }
    }
  }

  /** Adding an interval row keeps the interval key order listing its keys once. */
  lemma AddIntervalRowWellFormed(t: Tables, key: string, m: Subtotals)
    requires WellFormed(t)
    ensures WellFormed(AddIntervalRow(t, key, m))
  {
    var r := AddIntervalRow(t, key, m);
    AddIntervalRowParts(t, key, m);
    if key !in t.intervals {
      forall i, j | 0 <= i < j < |r.intervalOrder|
        ensures r.intervalOrder[i] != r.intervalOrder[j]
      {
        if j == |t.intervalOrder| {
          assert r.intervalOrder[i] == t.intervalOrder[i];
        }
      }
    }
  }

  /** The sum of field `f` over the metrics of `rows`. */
  function MetricSum(rows: seq<ReportRow>, args: ReportArgs, f: string): int
  {
    if rows == [] then 0
    else MetricSum(rows[..|rows| - 1], args, f) + Get(RowMetrics(rows[|rows| - 1], args), f)
  }

  /** The offer ids of the rows that have segments. */
  function OfferIds(rows: seq<ReportRow>): set<string>
  {
    if rows == [] then {}
    else
      var row := rows[|rows| - 1];
      OfferIds(rows[..|rows| - 1]) + (if row.segments.Some? then {row.segments.value.offerId} else {})
  }

  /** The days of the rows that have segments. */
  function Days(rows: seq<ReportRow>): set<string>
  {
    if rows == [] then {}
    else
      var row := rows[|rows| - 1];
      Days(rows[..|rows| - 1]) + (if row.segments.Some? then {row.segments.value.day} else {})
  }

  /** The sum of field `f` over the rows with segments for offer `id`. */
  function OfferSum(rows: seq<ReportRow>, args: ReportArgs, id: string, f: string): int
  {
    if rows == [] then 0
    else
      var row := rows[|rows| - 1];
      OfferSum(rows[..|rows| - 1], args, id, f)
      + (if row.segments.Some? && row.segments.value.offerId == id then Get(RowMetrics(row, args), f) else 0)
  }

  /** The sum of field `f` over the rows with segments for day `day`. */
  function DaySum(rows: seq<ReportRow>, args: ReportArgs, day: string, f: string): int
  {
    if rows == [] then 0
    else
      var row := rows[|rows| - 1];
      DaySum(rows[..|rows| - 1], args, day, f)
      + (if row.segments.Some? && row.segments.value.day == day then Get(RowMetrics(row, args), f) else 0)
  }

  /** Every processed row adds its metrics into the totals exactly once, whatever the report type. */
  lemma {:induction false} TotalsAreSumOfRows(t: Tables, kind: string, rows: seq<ReportRow>, args: ReportArgs,
                                               title: string -> string, f: string)
    requires FoldRows(t, kind, rows, args, title).error.None?
    ensures Get(FoldRows(t, kind, rows, args, title).tables.totals, f) == Get(t.totals, f) + MetricSum(rows, args, f)
  {
    if rows != [] {
      var n := |rows| - 1;
      TotalsAreSumOfRows(t, kind, rows[..n], args, title, f);
      AddRowParts(FoldRows(t, kind, rows[..n], args, title).tables, kind, rows[n], args, title);
    }
  }

  /** The totals keep every field they had, so every requested field initialised to 0 stays present. */
  lemma {:induction false} TotalsKeepFields(t: Tables, kind: string, rows: seq<ReportRow>, args: ReportArgs,
                                             title: string -> string)
    ensures t.totals.Keys <= FoldRows(t, kind, rows, args, title).tables.totals.Keys
  {
    if rows != [] {
      var n := |rows| - 1;
      TotalsKeepFields(t, kind, rows[..n], args, title);
      AddRowParts(FoldRows(t, kind, rows[..n], args, title).tables, kind, rows[n], args, title);
    }
  }

  /** A free-listings report adds every row into the single `free` entry and leaves the products table alone. */
  lemma {:induction false} FreeListingsTable(t: Tables, rows: seq<ReportRow>, args: ReportArgs,
                                              title: string -> string, f: string)
    requires FoldRows(t, FreeListingsType, rows, args, title).error.None?
    ensures var r := FoldRows(t, FreeListingsType, rows, args, title).tables;
      && r.products == t.products && r.productOrder == t.productOrder
      && (rows != [] ==> r.free.Some?)
      && Get(r.free.GetOr(map[]), f) == Get(t.free.GetOr(map[]), f) + MetricSum(rows, args, f)
  {
    if rows != [] {
      var n := |rows| - 1;
      FreeListingsTable(t, rows[..n], args, title, f);
      var p := FoldRows(t, FreeListingsType, rows[..n], args, title).tables;
      AddRowParts(p, FreeListingsType, rows[n], args, title);
      TypeStepParts(p, FreeListingsType, rows[n], args, title);
    }
  }

  /**
   * A products report adds each row that has segments into the entry of its
   * offer id, which carries that id, and leaves the free entry alone.
   */
  lemma {:induction false} ProductsTable(t: Tables, rows: seq<ReportRow>, args: ReportArgs,
                                          title: string -> string, id: string, f: string)
    requires FoldRows(t, ProductsType, rows, args, title).error.None?
    ensures var r := FoldRows(t, ProductsType, rows, args, title).tables;
      && r.free == t.free
      && (id in r.products <==> id in t.products || id in OfferIds(rows))
      && (id in r.products && id !in t.products ==> r.products[id].id == id)
      && Get(ProductSubtotals(r, id), f) == Get(ProductSubtotals(t, id), f) + OfferSum(rows, args, id, f)
  {
    if rows != [] {
      var n := |rows| - 1;
      ProductsTable(t, rows[..n], args, title, id, f);
      var p := FoldRows(t, ProductsType, rows[..n], args, title).tables;
      AddRowParts(p, ProductsType, rows[n], args, title);
      TypeStepParts(p, ProductsType, rows[n], args, title);
      if rows[n].segments.Some? {
        AddProductRowParts(p, rows[n].segments.value.offerId, RowMetrics(rows[n], args), title);
      }
    }
  }

  /** Any other report type updates neither the free entry nor the products table. */
  lemma {:induction false} OtherTypeTables(t: Tables, kind: string, rows: seq<ReportRow>, args: ReportArgs,
                                            title: string -> string)
    requires kind != FreeListingsType && kind != ProductsType
    ensures var r := FoldRows(t, kind, rows, args, title).tables;
      && r.free == t.free && r.products == t.products && r.productOrder == t.productOrder
      && r.titleLookups == t.titleLookups
  {
    if rows != [] {
      var n := |rows| - 1;
      OtherTypeTables(t, kind, rows[..n], args, title);
      var p := FoldRows(t, kind, rows[..n], args, title).tables;
      AddRowParts(p, kind, rows[n], args, title);
      TypeStepParts(p, kind, rows[n], args, title);
    }
  }

  /**
   * With an interval requested, each day key holds the sum of the rows with
   * segments for that day; without one the intervals table is left alone.
   */
  lemma {:induction false} IntervalsTable(t: Tables, kind: string, rows: seq<ReportRow>, args: ReportArgs,
                                           title: string -> string, day: string, f: string)
    requires FoldRows(t, kind, rows, args, title).error.None?
    ensures var r := FoldRows(t, kind, rows, args, title).tables;
      && (EmptyString(args.interval) ==> r.intervals == t.intervals && r.intervalOrder == t.intervalOrder)
      && (!EmptyString(args.interval) ==>
            && (day in r.intervals <==> day in t.intervals || day in Days(rows))
            && Get(IntervalSubtotals(r, day), f) == Get(IntervalSubtotals(t, day), f) + DaySum(rows, args, day, f))
  {
    if rows != [] {
      var n := |rows| - 1;
      IntervalsTable(t, kind, rows[..n], args, title, day, f);
      var p := FoldRows(t, kind, rows[..n], args, title).tables;
      AddRowParts(p, kind, rows[n], args, title);
      if rows[n].segments.Some? && args.interval == "day" {
        AddIntervalRowParts(p, rows[n].segments.value.day, RowMetrics(rows[n], args));
      }
    }
  }

  /** The pass throws exactly when an unsupported interval was requested and some row has segments. */
  lemma {:induction false} FailsOnlyForUnsupportedInterval(t: Tables, kind: string, rows: seq<ReportRow>,
                                                            args: ReportArgs, title: string -> string)
    ensures var run := FoldRows(t, kind, rows, args, title);
      && (run.error.Some? <==>
            !EmptyString(args.interval) && args.interval != "day" && exists i :: 0 <= i < |rows| && rows[i].segments.Some?)
      && (run.error.Some? ==> run.error.value == InvalidValue(args.interval, ["day"]))
  {
    if rows != [] {
      var n := |rows| - 1;
      FailsOnlyForUnsupportedInterval(t, kind, rows[..n], args, title);
      assert forall i :: 0 <= i < n ==> rows[..n][i] == rows[i];
      AddRowParts(FoldRows(t, kind, rows[..n], args, title).tables, kind, rows[n], args, title);
    }
  }

  /** The number of times `x` occurs in `s`. */
  function Count(s: seq<string>, x: string): nat
  {
    if s == [] then 0 else Count(s[..|s| - 1], x) + (if s[|s| - 1] == x then 1 else 0)
  }

  lemma CountAfterAppend(s: seq<string>, x: string, id: string)
    ensures Count(s + [x], id) == Count(s, id) + (if x == id then 1 else 0)
  {
    assert (s + [x])[..|s|] == s;
  }

  /**
   * One step of the pass looks a title up only for the row's own offer id and
   * only while its entry has no name; a name once set stays.
   */
  lemma StepLookups(t: Tables, kind: string, row: ReportRow, args: ReportArgs, title: string -> string)
    ensures var r := AddRow(t, kind, row, args, title).tables;
      && (forall id :: id in t.products ==> id in r.products)
      && (forall id :: id in t.products && !EmptyString(t.products[id].name) ==> r.products[id].name == t.products[id].name)
      && (r.titleLookups == t.titleLookups
          || (&& kind == ProductsType && row.segments.Some?
              && var id := row.segments.value.offerId;
              && r.titleLookups == t.titleLookups + [id]
              && (id !in t.products || EmptyString(t.products[id].name))
              && id in r.products && r.products[id].name == title(id)))
  {
    AddRowParts(t, kind, row, args, title);
    TypeStepParts(t, kind, row, args, title);
    if kind == ProductsType && row.segments.Some? {
      AddProductRowParts(t, row.segments.value.offerId, RowMetrics(row, args), title);
    }
  }

  /**
   * The title of an offer id whose title is not empty is looked up at most
   * once in a pass, never when its entry already had a name, and the name
   * is kept from then on.
   */
  lemma {:induction false} TitleLookedUpAtMostOnce(t: Tables, kind: string, rows: seq<ReportRow>, args: ReportArgs,
                                                    title: string -> string, id: string)
    requires !EmptyString(title(id))
    ensures var r := FoldRows(t, kind, rows, args, title).tables;
      && t.titleLookups <= r.titleLookups
      && Count(r.titleLookups[|t.titleLookups|..], id) <= 1
      && (Count(r.titleLookups[|t.titleLookups|..], id) == 1 ==> id in r.products && r.products[id].name == title(id))
      && (id in t.products && !EmptyString(t.products[id].name) ==>
            Count(r.titleLookups[|t.titleLookups|..], id) == 0
            && id in r.products && r.products[id].name == t.products[id].name)
  {
    if rows != [] {
      var n := |rows| - 1;
      var prev := FoldRows(t, kind, rows[..n], args, title);
      TitleLookedUpAtMostOnce(t, kind, rows[..n], args, title, id);
      if prev.error.None? {
        var p := prev.tables;
        var r := AddRow(p, kind, rows[n], args, title).tables;
        StepLookups(p, kind, rows[n], args, title);
        var m := |t.titleLookups|;
        if r.titleLookups != p.titleLookups {
          var x := rows[n].segments.value.offerId;
          assert r.titleLookups[m..] == p.titleLookups[m..] + [x];
          CountAfterAppend(p.titleLookups[m..], x, id);
        }
      }
    }
  }

  /** The pass itself never sets the next-page token. */
  lemma {:induction false} NextPageUntouched(t: Tables, kind: string, rows: seq<ReportRow>, args: ReportArgs,
                                              title: string -> string)
    ensures FoldRows(t, kind, rows, args, title).tables.nextPage == t.nextPage
  {
    if rows != [] {
      var n := |rows| - 1;
      NextPageUntouched(t, kind, rows[..n], args, title);
      AddRowParts(FoldRows(t, kind, rows[..n], args, title).tables, kind, rows[n], args, title);
    }
  }

  /** The type step keeps the key orders in step with their tables. */
  lemma TypeStepWellFormed(t: Tables, kind: string, row: ReportRow, args: ReportArgs, title: string -> string)
    requires WellFormed(t)
    ensures WellFormed(TypeStep(t, kind, row, args, title))
  {
    var m := RowMetrics(row, args);
    var t0 := if kind == FreeListingsType then AddFreeRow(t, m) else t;
    assert WellFormed(t0);
    if kind == ProductsType && row.segments.Some? {
      AddProductRowWellFormed(t0, row.segments.value.offerId, m, title);
    }
  }

  /** One row keeps the key orders in step with their tables. */
  lemma AddRowWellFormed(t: Tables, kind: string, row: ReportRow, args: ReportArgs, title: string -> string)
    requires WellFormed(t)
    ensures WellFormed(AddRow(t, kind, row, args, title).tables)
  {
    var m := RowMetrics(row, args);
    var ty := TypeStep(t, kind, row, args, title);
    TypeStepWellFormed(t, kind, row, args, title);
    if row.segments.Some? && !EmptyString(args.interval) {
      match GetSegmentInterval(args.interval, row.segments.value)
      case Failure(_) =>
      case Success(key) =>
        var ti := AddIntervalRow(ty, key, m);
        AddIntervalRowWellFormed(ty, key, m);
        assert WellFormed(AddTotals(ti, m));
    } else {
      assert WellFormed(AddTotals(ty, m));
    }
  }

  /** The whole pass keeps the key orders in step with their tables. */
  lemma {:induction false} FoldRowsWellFormed(t: Tables, kind: string, rows: seq<ReportRow>, args: ReportArgs,
                                               title: string -> string)
    requires WellFormed(t)
    ensures WellFormed(FoldRows(t, kind, rows, args, title).tables)
  {
    if rows != [] {
      var n := |rows| - 1;
      FoldRowsWellFormed(t, kind, rows[..n], args, title);
      var prev := FoldRows(t, kind, rows[..n], args, title);
      if prev.error.None? {
        AddRowWellFormed(prev.tables, kind, rows[n], args, title);
      }
    }
  }

  /** The report data a fresh object starts its pass with: every requested total at 0. */
  function FreshStart(args: ReportArgs): Tables
  {
    InitTotals(EmptyTables, args.fields)
  }

  /** The pass over a page from fresh report data does not throw. */
  predicate PageSucceeds(kind: string, args: ReportArgs, response: SearchResponse, title: string -> string)
  {
    FoldRows(FreshStart(args), kind, response.rows, args, title).error.None?
  }

  /** The report `get_report_data` returns for one page on a fresh object. */
  function PageReport(kind: string, args: ReportArgs, response: SearchResponse, title: string -> string): Report
    requires PageSucceeds(kind, args, response, title)
  {
    FoldRowsWellFormed(FreshStart(args), kind, response.rows, args, title);
    ToReport(Finish(FoldRows(FreshStart(args), kind, response.rows, args, title).tables, response.nextPageToken))
  }

  /**
   * The totals of a page's report carry every requested field and hold the
   * sum of every field over the rows; the next page is the response's token
   * exactly when that token is not empty.
   */
  lemma FreshReport(kind: string, args: ReportArgs, response: SearchResponse, title: string -> string)
    requires PageSucceeds(kind, args, response, title)
    ensures var r := PageReport(kind, args, response, title);
      && (forall g :: g in args.fields ==> g in r.totals)
      && (forall g :: Get(r.totals, g) == MetricSum(response.rows, args, g))
      && r.nextPage == (if EmptyString(response.nextPageToken) then None else Some(response.nextPageToken))
  {
    var start := FreshStart(args);
    TotalsKeepFields(start, kind, response.rows, args, title);
    forall g {
      TotalsAreSumOfRows(start, kind, response.rows, args, title, g);
    }
    NextPageUntouched(start, kind, response.rows, args, title);
  }

  /** A page's report is the pass's tables, finished and re-indexed. */
  lemma PageReportOfTables(kind: string, args: ReportArgs, response: SearchResponse, title: string -> string)
    requires PageSucceeds(kind, args, response, title)
    ensures var t := FoldRows(FreshStart(args), kind, response.rows, args, title).tables;
      && WellFormed(t) && WellFormed(Finish(t, response.nextPageToken))
      && PageReport(kind, args, response, title) == ToReport(Finish(t, response.nextPageToken))
  {
    FoldRowsWellFormed(FreshStart(args), kind, response.rows, args, title);
  }

  /**
   * The intervals of a page's report are in strictly ascending key order,
   * and there are none when no interval was requested.
   */
  lemma ReportIntervalOrder(kind: string, args: ReportArgs, response: SearchResponse, title: string -> string)
    requires PageSucceeds(kind, args, response, title)
    ensures var r := PageReport(kind, args, response, title);
      && (forall i, j :: 0 <= i < j < |r.intervals| ==> Lex.Less(r.intervals[i].interval, r.intervals[j].interval))
      && (EmptyString(args.interval) ==> r.intervals == [])
  {
    var t := FoldRows(FreshStart(args), kind, response.rows, args, title).tables;
    PageReportOfTables(kind, args, response, title);
    var d := Finish(t, response.nextPageToken);
    if EmptyString(args.interval) {
      IntervalsTable(FreshStart(args), kind, response.rows, args, title, "", "");
    }
  }

  /**
   * With an interval requested, a page's report has an interval entry for
   * exactly the days named by the rows with segments.
   */
  lemma ReportIntervalDays(kind: string, args: ReportArgs, response: SearchResponse, title: string -> string)
    requires PageSucceeds(kind, args, response, title) && !EmptyString(args.interval)
    ensures var r := PageReport(kind, args, response, title);
      && (forall i :: 0 <= i < |r.intervals| ==> r.intervals[i].interval in Days(response.rows))
      && (forall day :: day in Days(response.rows) ==>
            exists i :: 0 <= i < |r.intervals| && r.intervals[i].interval == day)
  {
    var t := FoldRows(FreshStart(args), kind, response.rows, args, title).tables;
    PageReportOfTables(kind, args, response, title);
    var d := Finish(t, response.nextPageToken);
    var r := ToReport(d);
    forall i | 0 <= i < |r.intervals|
      ensures r.intervals[i].interval in Days(response.rows)
    {
      assert d.intervalOrder[i] in t.intervalOrder;
      IntervalsTable(FreshStart(args), kind, response.rows, args, title, d.intervalOrder[i], "");
    }
    forall day | day in Days(response.rows)
      ensures exists i :: 0 <= i < |r.intervals| && r.intervals[i].interval == day
    {
      IntervalsTable(FreshStart(args), kind, response.rows, args, title, day, "");
      assert day in d.intervalOrder;
      var i :| 0 <= i < |d.intervalOrder| && d.intervalOrder[i] == day;
      assert r.intervals[i].interval == day;
    }
  }

  /** Each interval entry of a page's report holds, field by field, the sum of its day's rows. */
  lemma ReportIntervalSums(kind: string, args: ReportArgs, response: SearchResponse, title: string -> string)
    requires PageSucceeds(kind, args, response, title)
    ensures var r := PageReport(kind, args, response, title);
      forall i, g :: 0 <= i < |r.intervals| ==>
        Get(r.intervals[i].subtotals, g) == DaySum(response.rows, args, r.intervals[i].interval, g)
  {
    var t := FoldRows(FreshStart(args), kind, response.rows, args, title).tables;
    PageReportOfTables(kind, args, response, title);
    var d := Finish(t, response.nextPageToken);
    var r := ToReport(d);
    forall i, g | 0 <= i < |r.intervals|
      ensures Get(r.intervals[i].subtotals, g) == DaySum(response.rows, args, r.intervals[i].interval, g)
    {
      var k := d.intervalOrder[i];
      assert k in t.intervalOrder;
      IntervalsTable(FreshStart(args), kind, response.rows, args, title, k, g);
    }
  }

  /**
   * The products of a page's report have distinct ids; there are none unless
   * it is a products report, and then there is one for exactly the offer ids
   * named by the rows with segments.
   */
  lemma ReportProductIds(kind: string, args: ReportArgs, response: SearchResponse, title: string -> string)
    requires PageSucceeds(kind, args, response, title)
    ensures var r := PageReport(kind, args, response, title);
      && (forall i, j :: 0 <= i < j < |r.products| ==> r.products[i].id != r.products[j].id)
      && (kind != ProductsType ==> r.products == [])
      && (kind == ProductsType ==>
            && (forall i :: 0 <= i < |r.products| ==> r.products[i].id in OfferIds(response.rows))
            && (forall id :: id in OfferIds(response.rows) ==>
                  exists i :: 0 <= i < |r.products| && r.products[i].id == id))
  {
    var start := FreshStart(args);
    var t := FoldRows(start, kind, response.rows, args, title).tables;
    PageReportOfTables(kind, args, response, title);
    var r := ToReport(Finish(t, response.nextPageToken));
    if kind == FreeListingsType {
      FreeListingsTable(start, response.rows, args, title, "");
    } else if kind != ProductsType {
      OtherTypeTables(start, kind, response.rows, args, title);
    } else {
      forall i | 0 <= i < |r.products|
        ensures r.products[i].id in OfferIds(response.rows)
      {
        ProductsTable(start, response.rows, args, title, t.productOrder[i], "");
      }
      forall id | id in OfferIds(response.rows)
        ensures exists i :: 0 <= i < |r.products| && r.products[i].id == id
      {
        ProductsTable(start, response.rows, args, title, id, "");
        assert id in t.productOrder;
        var i :| 0 <= i < |t.productOrder| && t.productOrder[i] == id;
        assert r.products[i].id == id;
      }
    }
  }

  /** Each product of a products report holds, field by field, the sum of its offer's rows. */
  lemma ReportProductSums(args: ReportArgs, response: SearchResponse, title: string -> string)
    requires PageSucceeds(ProductsType, args, response, title)
    ensures var r := PageReport(ProductsType, args, response, title);
      forall i, g :: 0 <= i < |r.products| ==>
        Get(r.products[i].subtotals, g) == OfferSum(response.rows, args, r.products[i].id, g)
  {
    var t := FoldRows(FreshStart(args), ProductsType, response.rows, args, title).tables;
    PageReportOfTables(ProductsType, args, response, title);
    var r := ToReport(Finish(t, response.nextPageToken));
    forall i, g | 0 <= i < |r.products|
      ensures Get(r.products[i].subtotals, g) == OfferSum(response.rows, args, r.products[i].id, g)
    {
      ProductsTable(FreshStart(args), response.rows, args, title, t.productOrder[i], g);
    }
  }

  /**
   * The free-listings list of a page's report: one entry holding the sum of
   * every field over the rows for a free-listings report with rows, and
   * empty otherwise.
   */
  lemma ReportFreeListings(kind: string, args: ReportArgs, response: SearchResponse, title: string -> string)
    requires PageSucceeds(kind, args, response, title)
    ensures var r := PageReport(kind, args, response, title);
      && (kind != FreeListingsType || response.rows == [] ==> r.freeListings == [])
      && (kind == FreeListingsType && response.rows != [] ==>
            && |r.freeListings| == 1
            && forall g :: Get(r.freeListings[0], g) == MetricSum(response.rows, args, g))
  {
    var start := FreshStart(args);
    var rows := response.rows;
    var t := FoldRows(start, kind, rows, args, title).tables;
    FoldRowsWellFormed(start, kind, rows, args, title);
    var r := PageReport(kind, args, response, title);
    assert r == ToReport(Finish(t, response.nextPageToken));
    if rows == [] {
      assert t == start;
    } else if kind == FreeListingsType {
      forall g {
        FreeListingsTable(start, rows, args, title, g);
      }
    } else if kind == ProductsType {
      ProductsTable(start, rows, args, title, "", "");
    } else {
      OtherTypeTables(start, kind, rows, args, title);
    }
  }

  // ---------------------------------------------------------------------------
  // get_product_statistics
  // ---------------------------------------------------------------------------

  /**
   * A product-view row: whether its expiration date minus three days lies
   * before now, and its aggregated destination status.
   */
  datatype ProductView = ProductView(expiringSoon: bool, aggregatedDestinationStatus: string)

  /** The counter a row adds to. */
  datatype Counter = Active | Expiring | Pending | Disapproved

  /** An expiring row counts only as expiring; otherwise the status decides, and an unknown status counts nowhere. */
  function Classify(row: ProductView): (c: Option<Counter>)
    ensures c == Some(Expiring) <==> row.expiringSoon
    ensures c == Some(Active)
      <==> !row.expiringSoon && row.aggregatedDestinationStatus in {"ELIGIBLE", "ELIGIBLE_LIMITED"}
    ensures c == Some(Pending) <==> !row.expiringSoon && row.aggregatedDestinationStatus == "PENDING"
    ensures c == Some(Disapproved)
      <==> !row.expiringSoon && row.aggregatedDestinationStatus == "NOT_ELIGIBLE_OR_DISAPPROVED"
  {
    if row.expiringSoon then Some(Expiring)
    else match row.aggregatedDestinationStatus
      case "ELIGIBLE" => Some(Active)
      case "ELIGIBLE_LIMITED" => Some(Active)
      case "PENDING" => Some(Pending)
      case "NOT_ELIGIBLE_OR_DISAPPROVED" => Some(Disapproved)
      case _ => None
  }

  /** How many rows `Classify` sends to `c` (to no counter, for `None`). */
  function CountClass(rows: seq<ProductView>, c: Option<Counter>): nat
  {
    if rows == [] then 0
    else CountClass(rows[..|rows| - 1], c) + (if Classify(rows[|rows| - 1]) == c then 1 else 0)
  }

  /** The statistics: `active`, `not_synced`, `expiring`, `pending`, `disapproved`. */
  datatype Statistics = Statistics(active: int, notSynced: int, expiring: int, pending: int, disapproved: int)

  /**
   * `get_product_statistics` over the sync-ready product ids and the product
   * views the search returned: each counter counts its rows, and `not_synced`
   * is the number of ids less the number of rows.
   */
  method GetProductStatistics(syncReadyProductIds: seq<int>, results: seq<ProductView>) returns (stats: Statistics)
    ensures stats.active == CountClass(results, Some(Active))
    ensures stats.expiring == CountClass(results, Some(Expiring))
    ensures stats.pending == CountClass(results, Some(Pending))
    ensures stats.disapproved == CountClass(results, Some(Disapproved))
    ensures stats.notSynced == |syncReadyProductIds| - |results|
    ensures stats.active + stats.expiring + stats.pending + stats.disapproved <= |results|
  {
    stats := Statistics(0, 0, 0, 0, 0);
    var i := 0;
    while i < |results|
      invariant 0 <= i <= |results|
      invariant stats.active == CountClass(results[..i], Some(Active))
      invariant stats.expiring == CountClass(results[..i], Some(Expiring))
      invariant stats.pending == CountClass(results[..i], Some(Pending))
      invariant stats.disapproved == CountClass(results[..i], Some(Disapproved))
      invariant stats.notSynced == 0
    {
      var view := results[i];
      assert results[..i + 1][..i] == results[..i];
      i := i + 1;
      if view.expiringSoon {
        stats := stats.(expiring := stats.expiring + 1);
        continue;
      }
      match view.aggregatedDestinationStatus {
        case "ELIGIBLE" =>
          stats := stats.(active := stats.active + 1);
        case "ELIGIBLE_LIMITED" =>
          stats := stats.(active := stats.active + 1);
        case "PENDING" =>
          stats := stats.(pending := stats.pending + 1);
        case "NOT_ELIGIBLE_OR_DISAPPROVED" =>
          stats := stats.(disapproved := stats.disapproved + 1);
        case _ =>
      }
    }
    assert results[..i] == results;
    stats := stats.(notSynced := |syncReadyProductIds| - |results|);
    CountsPartitionRows(results);
  }

  /** Every row lands in exactly one class: the four counters and "none" add up to the number of rows. */
  lemma {:induction false} CountsPartitionRows(rows: seq<ProductView>)
    ensures CountClass(rows, Some(Active)) + CountClass(rows, Some(Expiring)) + CountClass(rows, Some(Pending))
            + CountClass(rows, Some(Disapproved)) + CountClass(rows, None) == |rows|
  {
    if rows != [] {
      CountsPartitionRows(rows[..|rows| - 1]);
    }
  }

  /** A row that is about to expire counts as expiring whatever its status. */
  lemma ExpiringWinsOverStatus(row: ProductView)
    requires row.expiringSoon
    ensures Classify(row) == Some(Expiring)
  {
  }
}
