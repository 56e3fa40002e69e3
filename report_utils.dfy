/**
 * The report-series utilities of the reporting pages: reading product ids
 * from a query string, merging two interval series, composing paid and free
 * totals into performance figures and adding a comparison baseline. The
 * behaviour is the one that js/src/reports/utils.test.js asserts; JavaScript
 * numbers are modelled as exact reals.
 */
module ReportUtils {
  import opened Wrappers
  import Lex
  import Digits
  import Seqs

  // ---------------------------------------------------------------------------
  // getIdsFromQuery
  // ---------------------------------------------------------------------------

  /** `s.split( sep )`: the pieces between the separators; `""` splits into `[""]`. */
  function Split(s: string, sep: char): (parts: seq<string>)
    ensures parts != []
    ensures forall p :: p in parts ==> sep !in p
  {
    if s == [] then [""]
    else
      var rest := Split(s[1..], sep);
      if s[0] == sep then [""] + rest
      else
        assert forall p :: p in rest[1..] ==> p in rest;
        [[s[0]] + rest[0]] + rest[1..]
  }

  /** `parts.join( sep )`. */
  function Join(parts: seq<string>, sep: char): string
    requires parts != []
  {
    if |parts| == 1 then parts[0] else parts[0] + [sep] + Join(parts[1..], sep)
  }

  /** Splitting a word free of separators in front of `t` only extends the first piece of `t`. */
  lemma {:induction false} SplitAfterWord(w: string, t: string, sep: char)
    requires sep !in w
    ensures Split(w + t, sep) == [w + Split(t, sep)[0]] + Split(t, sep)[1..]
  {
    if w != [] {
      assert (w + t)[1..] == w[1..] + t;
      SplitAfterWord(w[1..], t, sep);
      assert [w[0]] + (w[1..] + Split(t, sep)[0]) == w + Split(t, sep)[0];
    } else {
      var parts := Split(t, sep);
      assert w + t == t && w + parts[0] == parts[0];
      assert parts == [parts[0]] + parts[1..];
    }
  }

  /** Splitting what was joined gives back the pieces, when no piece holds the separator. */
  lemma {:induction false} SplitJoin(parts: seq<string>, sep: char)
    requires parts != []
    requires forall p :: p in parts ==> sep !in p
    ensures Split(Join(parts, sep), sep) == parts
  {
    if |parts| == 1 {
      SplitAfterWord(parts[0], [], sep);
      assert parts[0] + [] == parts[0];
    } else {
      var rest := Join(parts[1..], sep);
      SplitJoin(parts[1..], sep);
      assert Split([sep] + rest, sep) == [""] + parts[1..];
      assert parts[0] + [sep] + rest == parts[0] + ([sep] + rest);
      SplitAfterWord(parts[0], [sep] + rest, sep);
      assert parts[0] + "" == parts[0];
      assert parts == [parts[0]] + parts[1..];
    }
  }

  /** The white space JavaScript's `parseInt` skips in front of a number (the ASCII ones, no-break space and the byte order mark). */
  predicate IsWhiteSpace(c: char)
  {
    c == ' ' || c == '\t' || c == '\n' || c == '\r' || c == '\U{000B}' || c == '\U{000C}'
    || c == '\U{00A0}' || c == '\U{FEFF}' || c == '\U{1680}' || ('\U{2000}' <= c <= '\U{200A}')
    || c == '\U{2028}' || c == '\U{2029}' || c == '\U{202F}' || c == '\U{205F}' || c == '\U{3000}'
  }

  function TrimStart(s: string): string
  {
    if s != [] && IsWhiteSpace(s[0]) then TrimStart(s[1..]) else s
  }

  /**
   * `parseInt( s, 10 )`: leading white space is skipped, one sign is read, then
   * the longest run of digits; `None` is `NaN` (no digit where one must be).
   */
  function ParseInt(s: string): Option<int>
  {
    var t := TrimStart(s);
    var body := if t != [] && (t[0] == '-' || t[0] == '+') then t[1..] else t;
    var digits := Digits.LeadingDigits(body);
    if digits == [] then None
    else if t[0] == '-' then Some(-(Digits.Value(digits) as int))
    else Some(Digits.Value(digits))
  }

  /**
   * What the first character decides: leading white space is skipped, a digit
   * gives a non-negative number, and anything else but a sign gives `NaN`.
   */
  lemma ParseIntCases(s: string)
    ensures s != [] && IsWhiteSpace(s[0]) ==> ParseInt(s) == ParseInt(s[1..])
    ensures s != [] && Digits.IsDigit(s[0]) ==> ParseInt(s).Some? && ParseInt(s).value >= 0
    ensures s == [] || (!IsWhiteSpace(s[0]) && !Digits.IsDigit(s[0]) && s[0] != '-' && s[0] != '+')
            ==> ParseInt(s).None?
  {
    if s != [] && Digits.IsDigit(s[0]) {
      assert !IsWhiteSpace(s[0]);
      assert Digits.LeadingDigits(s) != [];
    }
  }

  /** The decimal notation of an integer, as `String( n )` writes it. */
  function Notation(n: int): (s: string)
    ensures s != [] && ',' !in s
  {
    if n < 0 then "-" + Digits.ToDigits(-n) else Digits.ToDigits(n)
  }

  /**
   * `parseInt` reads back the notation of an integer, whatever non-digit text
   * follows it: `8.54` is read as 8.
   */
  lemma {:induction false} ParseIntOfNotation(n: int, rest: string)
    requires rest == [] || !Digits.IsDigit(rest[0])
    ensures ParseInt(Notation(n) + rest) == Some(n)
  {
    var m := if n < 0 then -n else n;
    var d := Digits.ToDigits(m);
    var s := Notation(n) + rest;
    assert TrimStart(s) == s by {
      assert s[0] == '-' || Digits.IsDigit(s[0]);
    }
    var body := if s[0] == '-' || s[0] == '+' then s[1..] else s;
    assert body == d + rest by {
      if n < 0 {
        assert s == ['-'] + (d + rest);
      }
    }
    assert Digits.LeadingDigits(body) == d by {
      Digits.LeadingDigitsOf(d, rest);
    }
    assert Digits.Value(d) == m by {
      Digits.ValueOfToDigits(m);
    }
  }

  /** Each entry of a list parsed on its own: `parts.map( ( p ) => parseInt( p, 10 ) )`. */
  function Parses(parts: seq<string>): (ps: seq<Option<int>>)
    ensures |ps| == |parts|
    ensures forall i :: 0 <= i < |parts| ==> ps[i] == ParseInt(parts[i])
  {
    seq(|parts|, i requires 0 <= i < |parts| => ParseInt(parts[i]))
  }

  lemma ParsesOfTail(parts: seq<string>)
    requires parts != []
    ensures Parses(parts) == [ParseInt(parts[0])] + Parses(parts[1..])
  {
    assert Parses(parts)[1..] == Parses(parts[1..]);
  }

  /** The ids the entries of a list parse to, in order, `NaN` entries dropped. */
  function ParsedIds(parts: seq<string>): (ids: seq<int>)
    ensures forall n :: n in ids <==> Some(n) in Parses(parts)
  {
    if parts == [] then []
    else
      var rest := ParsedIds(parts[1..]);
      ParsesOfTail(parts);
      match ParseInt(parts[0])
      case Some(n) => [n] + rest
      case None => rest
  }

  /**
   * `getIdsFromQuery( query )`: the comma-separated entries of the query
   * (`undefined` read as `''`) parsed as integers, entries that do not parse
   * skipped, each id once, in the order of the entries they are first parsed
   * from.
   */
  function GetIdsFromQuery(query: Option<string>): (ids: seq<int>)
    ensures Seqs.NoDuplicates(ids)
    ensures forall n :: n in ids <==> Some(n) in Parses(Split(query.GetOr(""), ','))
    ensures forall i, j :: 0 <= i < j < |ids| ==>
      FirstEntry(Split(query.GetOr(""), ','), ids[i]) < FirstEntry(Split(query.GetOr(""), ','), ids[j])
  {
    var parts := Split(query.GetOr(""), ',');
    var parsed := ParsedIds(parts);
    var ids := Seqs.Unique(parsed);
    Seqs.UniqueKeepsFirstOccurrenceOrder(parsed);
    forall i, j | 0 <= i < j < |ids|
      ensures FirstEntry(parts, ids[i]) < FirstEntry(parts, ids[j])
    {
      FirstIndexOfParsedIds(parts, ids[i], ids[j]);
    }
    ids
  }

  /** Where the first entry that parses to `n` stands in `parts`; `|parts|` when none does. */
  function FirstEntry(parts: seq<string>, n: int): (k: nat)
    ensures k <= |parts|
    ensures k < |parts| <==> Some(n) in Parses(parts)
    ensures k < |parts| ==> Parses(parts)[k] == Some(n) && Some(n) !in Parses(parts)[..k]
  {
    Seqs.Position(Parses(parts), Some(n))
  }

  /** The first entry parsing to `n` is the head when the head parses to `n`, and otherwise lies in the tail. */
  lemma FirstEntryOfTail(parts: seq<string>, n: int)
    requires parts != []
    ensures FirstEntry(parts, n) == if Parses(parts)[0] == Some(n) then 0 else 1 + FirstEntry(parts[1..], n)
  {
    ParsesOfTail(parts);
    assert Parses(parts)[1..] == Parses(parts[1..]);
  }

  /** The entries are parsed one after another: the ids of a concatenation are the ids of its parts, in order. */
  lemma {:induction false} ParsedIdsAppend(a: seq<string>, b: seq<string>)
    ensures ParsedIds(a + b) == ParsedIds(a) + ParsedIds(b)
  {
    if a != [] {
      assert (a + b)[1..] == a[1..] + b;
      ParsedIdsAppend(a[1..], b);
    } else {
      assert a + b == b;
    }
  }

  /**
   * An id comes before another in the parsed list exactly when the first
   * entry that parses to it comes before the first entry that parses to the
   * other.
   */
  lemma {:induction false} FirstIndexOfParsedIds(parts: seq<string>, n: int, m: int)
    requires n in ParsedIds(parts) && m in ParsedIds(parts)
    ensures Seqs.FirstIndex(ParsedIds(parts), n) < Seqs.FirstIndex(ParsedIds(parts), m)
            <==> FirstEntry(parts, n) < FirstEntry(parts, m)
  {
    var ids := ParsedIds(parts);
    var rest := ParsedIds(parts[1..]);
    FirstEntryOfTail(parts, n);
    FirstEntryOfTail(parts, m);
    match ParseInt(parts[0])
    case None =>
      assert ids == rest;
      FirstIndexOfParsedIds(parts[1..], n, m);
    case Some(k) =>
      assert ids == [k] + rest && ids[1..] == rest;
      if n != k && m != k {
        FirstIndexOfParsedIds(parts[1..], n, m);
      }
  }

  /** The empty and the missing query give no ids. */
  lemma GetIdsFromEmptyQuery()
    ensures GetIdsFromQuery(None) == []
    ensures GetIdsFromQuery(Some("")) == []
  {
    assert Split("", ',') == [""];
    assert ParseInt("") == None;
  }

  /** A query none of whose entries is a number gives no ids. */
  lemma GetIdsFromNonNumericQuery(query: string)
    requires forall p :: p in Split(query, ',') ==> ParseInt(p).None?
    ensures GetIdsFromQuery(Some(query)) == []
  {
    var parts := Split(query, ',');
    var ps := Parses(parts);
    forall i | 0 <= i < |ps|
      ensures ps[i].None?
    {
      assert parts[i] in parts;
    }
    ParsedIdsOfUnparsed(parts);
  }

  /** A list none of whose entries parses gives no ids. */
  lemma {:induction false} ParsedIdsOfUnparsed(parts: seq<string>)
    requires forall i :: 0 <= i < |parts| ==> Parses(parts)[i].None?
    ensures ParsedIds(parts) == []
  {
    if parts != [] {
      ParsesOfTail(parts);
      assert Parses(parts)[0].None?;
      assert forall i :: 0 <= i < |parts| - 1 ==> Parses(parts[1..])[i] == Parses(parts)[i + 1];
      ParsedIdsOfUnparsed(parts[1..]);
    }
  }

  function Notations(ids: seq<int>): (parts: seq<string>)
    ensures |parts| == |ids|
    ensures forall i :: 0 <= i < |ids| ==> parts[i] == Notation(ids[i])
  {
    if ids == [] then [] else [Notation(ids[0])] + Notations(ids[1..])
  }

  /** Writing distinct ids (zero and negative ones included) as a comma-separated query and reading it back gives the same ids in the same order. */
  lemma {:induction false} GetIdsRoundTrip(ids: seq<int>)
    requires ids != [] && Seqs.NoDuplicates(ids)
    ensures GetIdsFromQuery(Some(Join(Notations(ids), ','))) == ids
  {
    var parts := Notations(ids);
    SplitJoin(parts, ',');
    ParsedIdsOfNotations(ids);
    Seqs.UniqueOfDistinct(ids);
  }

  lemma {:induction false} ParsedIdsOfNotations(ids: seq<int>)
    ensures ParsedIds(Notations(ids)) == ids
  {
    if ids != [] {
      ParsedIdsOfNotationsStep(ids);
      ParsedIdsOfNotations(ids[1..]);
      assert ids == [ids[0]] + ids[1..];
    }
  }

  lemma ParsedIdsOfNotationsStep(ids: seq<int>)
    requires ids != []
    ensures ParsedIds(Notations(ids)) == [ids[0]] + ParsedIds(Notations(ids[1..]))
  {
    var parts := Notations(ids);
    ParseIntOfNotation(ids[0], []);
    assert Notation(ids[0]) + [] == Notation(ids[0]);
    ParsedIdsOfParsingHead(parts, ids[0]);
    assert parts[1..] == Notations(ids[1..]);
  }

  lemma ParsedIdsOfParsingHead(parts: seq<string>, n: int)
    requires parts != [] && ParseInt(parts[0]) == Some(n)
    ensures ParsedIds(parts) == [n] + ParsedIds(parts[1..])
  {
  }

  // ---------------------------------------------------------------------------
  // aggregateIntervals
  // ---------------------------------------------------------------------------

  /** Metric name to value. */
  type Subtotals = map<string, real>

  /** One bucket of a series: `{ interval, subtotals }`. */
  datatype Interval = Interval(interval: string, subtotals: Subtotals)

  /** `subtotals[ f ] || 0`. */
  function Get(m: Subtotals, f: string): real
  {
    if f in m then m[f] else 0.0
  }

  /** Field-wise sum; a field missing on one side counts as 0. */
  function AddSubtotals(m: Subtotals, n: Subtotals): (r: Subtotals)
    ensures r.Keys == m.Keys + n.Keys
    ensures forall f :: Get(r, f) == Get(m, f) + Get(n, f)
  {
    map f | f in m.Keys + n.Keys :: Get(m, f) + Get(n, f)
  }

  /** Every field of `fields` that `m` lacks, added with the value 0. */
  function ZeroFill(m: Subtotals, fields: seq<string>): (r: Subtotals)
    ensures forall f :: f in r <==> f in m || f in fields
    ensures forall f :: Get(r, f) == Get(m, f)
  {
    map f | f in m.Keys + (set g | g in fields) :: Get(m, f)
  }

  /** The interval keys of a series, in order. */
  function Keys(xs: seq<Interval>): (ks: seq<string>)
    ensures |ks| == |xs|
    ensures forall i :: 0 <= i < |xs| ==> ks[i] == xs[i].interval
  {
    seq(|xs|, i requires 0 <= i < |xs| => xs[i].interval)
  }

  /** The sum of field `f` over the buckets of `xs` keyed `key`, a missing field counting as 0. */
  function FieldSum(xs: seq<Interval>, key: string, f: string): real
  {
    if xs == [] then 0.0
    else
      FieldSum(xs[..|xs| - 1], key, f)
      + (if xs[|xs| - 1].interval == key then Get(xs[|xs| - 1].subtotals, f) else 0.0)
  }

  /** Some bucket of `xs` keyed `key` carries field `f`. */
  predicate HasField(xs: seq<Interval>, key: string, f: string)
  {
    xs != []
    && (HasField(xs[..|xs| - 1], key, f) || (xs[|xs| - 1].interval == key && f in xs[|xs| - 1].subtotals))
  }

  lemma {:induction false} HasFieldAppend(a: seq<Interval>, b: seq<Interval>, key: string, f: string)
    ensures HasField(a + b, key, f) <==> HasField(a, key, f) || HasField(b, key, f)
  {
    if b != [] {
      assert (a + b)[..|a + b| - 1] == a + b[..|b| - 1];
      HasFieldAppend(a, b[..|b| - 1], key, f);
    } else {
      assert a + b == a;
    }
  }

  lemma {:induction false} FieldSumAppend(a: seq<Interval>, b: seq<Interval>, key: string, f: string)
    ensures FieldSum(a + b, key, f) == FieldSum(a, key, f) + FieldSum(b, key, f)
  {
    if b != [] {
      assert (a + b)[..|a + b| - 1] == a + b[..|b| - 1];
      FieldSumAppend(a, b[..|b| - 1], key, f);
    } else {
      assert a + b == a;
    }
  }

  /** A key no bucket carries sums to 0 and has no field. */
  lemma {:induction false} AbsentKey(xs: seq<Interval>, key: string, f: string)
    requires key !in Keys(xs)
    ensures FieldSum(xs, key, f) == 0.0 && !HasField(xs, key, f)
  {
    if xs != [] {
      assert Keys(xs[..|xs| - 1]) == Keys(xs)[..|xs| - 1];
      AbsentKey(xs[..|xs| - 1], key, f);
    }
  }

  lemma AbsentKeyAll(xs: seq<Interval>, key: string)
    ensures key !in Keys(xs) ==> forall f :: FieldSum(xs, key, f) == 0.0 && !HasField(xs, key, f)
  {
    if key !in Keys(xs) {
      forall f {
        AbsentKey(xs, key, f);
      }
    }
  }

  /** The table the merge builds: one entry per interval key, the buckets' subtotals summed. */
  function Accumulate(xs: seq<Interval>): (acc: map<string, Subtotals>)
    ensures forall k :: k in acc <==> k in Keys(xs)
    ensures forall k, f :: k in acc ==> Get(acc[k], f) == FieldSum(xs, k, f)
    ensures forall k, f :: k in acc ==> (f in acc[k] <==> HasField(xs, k, f))
  {
    if xs == [] then map[]
    else
      var n := |xs| - 1;
      var acc := Accumulate(xs[..n]);
      var e := xs[n];
      assert Keys(xs) == Keys(xs[..n]) + [e.interval];
      assert xs[..|xs| - 1] == xs[..n];
      AbsentKeyAll(xs[..n], e.interval);
      acc[e.interval := AddSubtotals(if e.interval in acc then acc[e.interval] else map[], e.subtotals)]
  }

  /** The merged series: one bucket per key of `xs`, sorted by key, every field of `fields` present. */
  function MergeSeries(xs: seq<Interval>, fields: seq<string>): (r: seq<Interval>)
  {
    var acc := Accumulate(xs);
    var keys := Lex.Sort(Keys(xs));
    seq(|keys|, i requires 0 <= i < |keys| => Interval(keys[i], ZeroFill(acc[keys[i]], fields)))
  }

  /**
   * `aggregateIntervals( intervals1, intervals2 )`: with both series absent,
   * `null`; with one absent, the other one as it is (an empty series
   * included); otherwise the union of their buckets by interval key, each key
   * once and in ascending order, each field the sum of both sides and every
   * field of `paidFields` present.
   */
  function AggregateIntervals(a: Option<seq<Interval>>, b: Option<seq<Interval>>, paidFields: seq<string>)
    : (r: Option<seq<Interval>>)
    ensures a.None? ==> r == b
    ensures a.Some? && b.None? ==> r == a
    ensures a.Some? && b.Some? ==> r.Some?
    ensures r.Some? && a.Some? && b.Some? ==>
      && Lex.StrictlySorted(Keys(r.value))
      && (forall k :: k in Keys(r.value) <==> k in Keys(a.value) || k in Keys(b.value))
      && (forall i, f :: 0 <= i < |r.value| ==>
            Get(r.value[i].subtotals, f)
            == FieldSum(a.value, r.value[i].interval, f) + FieldSum(b.value, r.value[i].interval, f))
      && (forall i, f :: 0 <= i < |r.value| && f in paidFields ==> f in r.value[i].subtotals)
  {
    if a.None? then b
    else if b.None? then a
    else
      var xs := a.value + b.value;
      var m := MergeSeries(xs, paidFields);
      assert Keys(m) == Lex.Sort(Keys(xs));
      assert forall k :: k in Keys(xs) <==> k in Keys(a.value) || k in Keys(b.value) by {
        assert Keys(xs) == Keys(a.value) + Keys(b.value);
      }
      FieldSumAppendAll(a.value, b.value);
      Some(m)
  }

  lemma FieldSumAppendAll(a: seq<Interval>, b: seq<Interval>)
    ensures forall k, f :: FieldSum(a + b, k, f) == FieldSum(a, k, f) + FieldSum(b, k, f)
  {
    forall k, f {
      FieldSumAppend(a, b, k, f);
    }
  }

  /** Subtotals with the same fields and the same values are equal. */
  lemma SubtotalsEqual(x: Subtotals, y: Subtotals)
    requires forall f :: f in x <==> f in y
    requires forall f :: Get(x, f) == Get(y, f)
    ensures x == y
  {
    assert forall f :: f in x ==> x[f] == Get(x, f) == Get(y, f) == y[f];
  }

  /** Merging two present series does not depend on which one comes first. */
  lemma {:induction false} AggregateIntervalsCommutes(a: seq<Interval>, b: seq<Interval>, paidFields: seq<string>)
    ensures AggregateIntervals(Some(a), Some(b), paidFields) == AggregateIntervals(Some(b), Some(a), paidFields)
  {
    var ab, ba := a + b, b + a;
    assert Keys(ab) == Keys(a) + Keys(b) && Keys(ba) == Keys(b) + Keys(a);
    var ka, kb := Lex.Sort(Keys(ab)), Lex.Sort(Keys(ba));
    Lex.SortedUnique(ka, kb);
    var m1, m2 := MergeSeries(ab, paidFields), MergeSeries(ba, paidFields);
    forall i | 0 <= i < |ka|
      ensures m1[i] == m2[i]
    {
      AccumulateCommutes(a, b, paidFields, ka[i]);
    }
    assert m1 == m2;
  }

  lemma {:induction false} AccumulateCommutes(a: seq<Interval>, b: seq<Interval>, paidFields: seq<string>, k: string)
    requires k in Accumulate(a + b)
    ensures k in Accumulate(b + a)
    ensures ZeroFill(Accumulate(a + b)[k], paidFields) == ZeroFill(Accumulate(b + a)[k], paidFields)
  {
    var ab, ba := a + b, b + a;
    assert k in Accumulate(ba) by {
      assert Keys(ab) == Keys(a) + Keys(b) && Keys(ba) == Keys(b) + Keys(a);
    }
    var x, y := Accumulate(ab)[k], Accumulate(ba)[k];
    forall f
      ensures (f in x <==> f in y) && Get(x, f) == Get(y, f)
    {
      AccumulateAgrees(a, b, k, f);
    }
    ZeroFillAgrees(x, y, paidFields);
  }

  lemma ZeroFillAgrees(x: Subtotals, y: Subtotals, fields: seq<string>)
    requires forall f :: (f in x <==> f in y) && Get(x, f) == Get(y, f)
    ensures ZeroFill(x, fields) == ZeroFill(y, fields)
  {
    SubtotalsEqual(x, y);
  }

  lemma {:induction false} AccumulateAgrees(a: seq<Interval>, b: seq<Interval>, k: string, f: string)
    requires k in Accumulate(a + b) && k in Accumulate(b + a)
    ensures f in Accumulate(a + b)[k] <==> f in Accumulate(b + a)[k]
    ensures Get(Accumulate(a + b)[k], f) == Get(Accumulate(b + a)[k], f)
  {
    HasFieldAppend(a, b, k, f);
    HasFieldAppend(b, a, k, f);
    FieldSumAppend(a, b, k, f);
    FieldSumAppend(b, a, k, f);
  }

  // ---------------------------------------------------------------------------
  // sumToPerformance and addBaseToPerformance
  // ---------------------------------------------------------------------------

  /** `MISSING_FREE_LISTINGS_DATA`: `NONE` (0), `FOR_METRIC` (1), `FOR_REQUEST` (2). */
  datatype MissingFreeListingsData = NoneMissing | ForMetric | ForRequest

  /** One metric as the reports show it: `{ value, prevValue, delta, missingFreeListingsData }`. */
  datatype Performance = Performance(
    value: real,
    prevValue: Option<real>,
    delta: Option<int>,
    missingFreeListingsData: MissingFreeListingsData)

  /**
   * The missing-data flag of field `f`: without a list of expected free
   * fields nothing is flagged; a paid field that free listings do not report
   * is `FOR_METRIC`; an expected free field that the free totals lack is
   * `FOR_REQUEST`.
   */
  function MissingFlag(paid: Subtotals, free: Subtotals, expectedFreeFields: Option<seq<string>>, f: string)
    : (flag: MissingFreeListingsData)
    ensures flag == ForMetric <==> expectedFreeFields.Some? && f in paid && f !in expectedFreeFields.value
    ensures flag == ForRequest <==> expectedFreeFields.Some? && f in expectedFreeFields.value && f !in free
    ensures flag == NoneMissing
      <==> expectedFreeFields.None?
           || ((f in paid ==> f in expectedFreeFields.value) && (f in expectedFreeFields.value ==> f in free))
  {
    match expectedFreeFields
    case None => NoneMissing
    case Some(expected) =>
      if f in paid && f !in expected then ForMetric
      else if f in expected && f !in free then ForRequest
      else NoneMissing
  }

  /**
   * `sumToPerformance( paid, free, expectedFreeFields )`: one metric per field
   * of either totals (a missing totals object read as `{}`), its value the
   * sum of both sides, no baseline and no delta yet.
   */
  function SumToPerformance(paid: Option<Subtotals>, free: Option<Subtotals>, expectedFreeFields: Option<seq<string>>)
    : (perf: map<string, Performance>)
    ensures perf.Keys == paid.GetOr(map[]).Keys + free.GetOr(map[]).Keys
    ensures forall f :: f in perf ==>
      && perf[f].value == Get(paid.GetOr(map[]), f) + Get(free.GetOr(map[]), f)
      && perf[f].prevValue == None && perf[f].delta == None
      && perf[f].missingFreeListingsData == MissingFlag(paid.GetOr(map[]), free.GetOr(map[]), expectedFreeFields, f)
  {
    var p, q := paid.GetOr(map[]), free.GetOr(map[]);
    map f | f in p.Keys + q.Keys :: Performance(Get(p, f) + Get(q, f), None, None, MissingFlag(p, q, expectedFreeFields, f))
  }

  /** `Math.round`: the nearest integer, halves rounded up. */
  function Round(x: real): (n: int)
    ensures x - 0.5 < n as real <= x + 0.5
  {
    (x + 0.5).Floor
  }

  /**
   * The percentage change from `prevValue` to `value`, rounded: `null` without
   * a baseline; against a zero baseline 0 when the value is 0 too and `null`
   * otherwise.
   */
  function Delta(value: real, prevValue: Option<real>): (d: Option<int>)
    ensures d.None? <==> prevValue.None? || (prevValue.value == 0.0 && value != 0.0)
    ensures prevValue == Some(0.0) && value == 0.0 ==> d == Some(0)
  {
    match prevValue
    case None => None
    case Some(p) =>
      if p == 0.0 then (if value == 0.0 then Some(0) else None)
      else Some(Round((value - p) / p * 100.0))
  }

  /** `base[ f ]?.value`. */
  function BaseValue(base: map<string, Option<real>>, f: string): Option<real>
  {
    if f in base then base[f] else None
  }

  /**
   * `addBaseToPerformance( performance, base )`: `{}` while the performance is
   * still loading (empty); otherwise the same fields, each with its value and
   * flag kept, the base value as `prevValue` and the percentage delta.
   */
  function AddBaseToPerformance(performance: map<string, Performance>, base: map<string, Option<real>>)
    : (r: map<string, Performance>)
    ensures performance == map[] ==> r == map[]
    ensures r.Keys == performance.Keys
    ensures forall f :: f in r ==>
      && r[f].value == performance[f].value
      && r[f].missingFreeListingsData == performance[f].missingFreeListingsData
      && r[f].prevValue == BaseValue(base, f)
      && r[f].delta == Delta(performance[f].value, BaseValue(base, f))
  {
    if |performance| == 0 then map[]
    else
      map f | f in performance ::
        Performance(
          performance[f].value,
          BaseValue(base, f),
          Delta(performance[f].value, BaseValue(base, f)),
          performance[f].missingFreeListingsData)
  }

  /** Against a non-zero baseline the delta is the percentage change rounded to the nearest integer, and its sign follows the change. */
  lemma DeltaIsRoundedPercentage(value: real, prevValue: real)
    requires prevValue != 0.0
    ensures Delta(value, Some(prevValue)).Some?
    ensures var d := Delta(value, Some(prevValue)).value as real;
      var exact := (value - prevValue) / prevValue * 100.0;
      exact - 0.5 < d <= exact + 0.5
    ensures prevValue > 0.0 && value >= prevValue ==> Delta(value, Some(prevValue)).value >= 0
    ensures prevValue > 0.0 && value <= prevValue ==> Delta(value, Some(prevValue)).value <= 0
  {
    var exact := (value - prevValue) / prevValue * 100.0;
    if prevValue > 0.0 && value >= prevValue {
      assert value - prevValue >= 0.0;
      assert exact >= 0.0;
    }
    if prevValue > 0.0 && value <= prevValue {
      assert exact <= 0.0;
    }
  }

  /** The two deltas of the reports' fixture: 13 against 10 is +30 %, 5 against 10 is -50 %. */
  lemma DeltaExamples()
    ensures Delta(13.0, Some(10.0)) == Some(30)
    ensures Delta(5.0, Some(10.0)) == Some(-50)
  {
    assert (13.0 - 10.0) / 10.0 * 100.0 == 30.0;
    assert (5.0 - 10.0) / 10.0 * 100.0 == -50.0;
  }

  /** Composing the paid and free totals and then adding a baseline keeps the fields, the sums and the flags, and computes each delta against the base. */
  lemma PerformanceWithBase(paid: Option<Subtotals>, free: Option<Subtotals>, expectedFreeFields: Option<seq<string>>,
                            base: map<string, Option<real>>)
    ensures var r := AddBaseToPerformance(SumToPerformance(paid, free, expectedFreeFields), base);
      && r.Keys == paid.GetOr(map[]).Keys + free.GetOr(map[]).Keys
      && forall f :: f in r ==>
           var v := Get(paid.GetOr(map[]), f) + Get(free.GetOr(map[]), f);
           r[f] == Performance(v, BaseValue(base, f), Delta(v, BaseValue(base, f)),
                               MissingFlag(paid.GetOr(map[]), free.GetOr(map[]), expectedFreeFields, f))
  {
  }
}
