/**
 * Recognising the shape of a third-party API response and normalising it:
 * format detection, the Alpha Vantage quote and time-series normalisers, the
 * generic date-keyed time-series normaliser, dot-path lookup, field
 * introspection with type tags, and the non-numeric display formatting.
 */
module ApiAdapters {
  import opened Wrappers
  import opened Text
  import opened JsonValue

  datatype ApiFormat =
    | AlphaVantageQuote
    | AlphaVantageIntraday
    | AlphaVantageDaily
    | Coinbase
    | Forex
    | TimeSeries
    | Generic

  // ---------------------------------------------------------------------------
  // Format detection

  /** A key naming an intraday series, such as "Time Series (5min)". */
  predicate IsIntradayKey(k: string) {
    Contains(k, "Time Series (") && Contains(k, "min)")
  }

  /** Position of a format in the detector's precedence chain (0 is tried first). */
  function Rank(f: ApiFormat): nat {
    match f
    case AlphaVantageQuote => 0
    case AlphaVantageIntraday => 1
    case AlphaVantageDaily => 2
    case Coinbase => 3
    case Forex => 4
    case TimeSeries => 5
    case Generic => 6
  }

  /** A `data` member that is an object with truthy `rates` and `currency`. */
  predicate HasCoinbaseData(obj: Json)
    requires IsNonNullObject(obj)
  {
    match Prop(obj, "data")
    case Some(d) => IsNonNullObject(d) && Truthy(Prop(d, "rates")) && Truthy(Prop(d, "currency"))
    case None => false
  }

  /**
   * The structural signature of each format, on its own, regardless of the
   * order in which the detector tries them.
   */
  predicate Signature(obj: Json, f: ApiFormat)
    requires IsNonNullObject(obj)
  {
    var keys := Keys(obj);
    match f
    case AlphaVantageQuote => "Global Quote" in keys
    case AlphaVantageIntraday => exists k :: k in keys && IsIntradayKey(k)
    case AlphaVantageDaily => "Time Series (Daily)" in keys
    case Coinbase => "data" in keys && HasCoinbaseData(obj)
    case Forex => "base" in keys && "rates" in keys
    case TimeSeries => exists k :: k in keys && HasDatePrefix(k)
    case Generic => true
  }

  /** No format ranked before `f` has its signature in `obj`. */
  predicate NoEarlierMatch(obj: Json, f: ApiFormat)
    requires IsNonNullObject(obj)
  {
    && (Rank(f) > 0 ==> !Signature(obj, AlphaVantageQuote))
    && (Rank(f) > 1 ==> !Signature(obj, AlphaVantageIntraday))
    && (Rank(f) > 2 ==> !Signature(obj, AlphaVantageDaily))
    && (Rank(f) > 3 ==> !Signature(obj, Coinbase))
    && (Rank(f) > 4 ==> !Signature(obj, Forex))
    && (Rank(f) > 5 ==> !Signature(obj, TimeSeries))
  }

  /** `f` is the first format, in precedence order, whose signature `data` has. */
  predicate IsFirstMatch(data: Json, f: ApiFormat) {
    if !IsNonNullObject(data) then f == Generic
    else Signature(data, f) && NoEarlierMatch(data, f)
  }

  /**
   * The detector reaches the coinbase probe with `data: null`: `typeof null`
   * is 'object', so it reads `null.rates` and throws a TypeError.
   */
  predicate ProbeThrows(data: Json) {
    && IsNonNullObject(data)
    && !Signature(data, AlphaVantageQuote)
    && !Signature(data, AlphaVantageIntraday)
    && !Signature(data, AlphaVantageDaily)
    && "data" in Keys(data)
    && Prop(data, "data") == Some(JNull)
  }

  /**
   * `detectApiFormat`: the first format of the precedence chain whose
   * signature matches, Generic for anything that is not an object, and a
   * TypeError when the coinbase probe meets `data: null`.
   */
  function DetectApiFormat(data: Json): (r: Completion<ApiFormat>)
    ensures r.Threw? <==> ProbeThrows(data)
    ensures r.Normal? ==> IsFirstMatch(data, r.value)
  {
    if !Truthy(Some(data)) || !IsObjectType(data) then Normal(Generic)
    else
      var keys := Keys(data);
      var inner := Prop(data, "data");
      if "Global Quote" in keys then Normal(AlphaVantageQuote)
      else if exists k :: k in keys && IsIntradayKey(k) then Normal(AlphaVantageIntraday)
      else if "Time Series (Daily)" in keys then Normal(AlphaVantageDaily)
      else if "data" in keys && inner == Some(JNull) then Threw
      else if "data" in keys && HasCoinbaseData(data) then Normal(Coinbase)
      else if "base" in keys && "rates" in keys then Normal(Forex)
      else if exists k :: k in keys && HasDatePrefix(k) then Normal(TimeSeries)
      else Normal(Generic)
  }

  /** A "Global Quote" key decides the format, whatever else the object holds. */
  lemma GlobalQuoteWins(data: Json)
    requires IsNonNullObject(data) && "Global Quote" in Keys(data)
    ensures DetectApiFormat(data) == Normal(AlphaVantageQuote)
  {
  }

  /** `time_series` is reported exactly when no earlier rule matches and a key is date-prefixed. */
  lemma TimeSeriesDetection(data: Json)
    requires IsNonNullObject(data)
    ensures DetectApiFormat(data) == Normal(TimeSeries) <==>
      && NoEarlierMatch(data, TimeSeries)
      && Prop(data, "data") != Some(JNull)
      && exists k :: k in Keys(data) && HasDatePrefix(k)
  {
  }

  // ---------------------------------------------------------------------------
  // Alpha Vantage quote

  /**
   * A normalised quote. Each numeric field holds the JSON value that
   * `parseFloat` is applied to (after the `|| '0'` default); the parse itself
   * is not modelled.
   */
  datatype NormalizedQuote = NormalizedQuote(
    symbol: Json,
    price: Json,
    change: Json,
    changePercent: Json,
    previousClose: Json,
    open: Json,
    high: Json,
    low: Json,
    volume: Json,
    timestamp: Option<Json>)

  /**
   * `normalizeAlphaVantageQuote`: null when the "Global Quote" member is
   * missing or falsy, and null when any step throws (reading a member of
   * `null`, or `.replace` on a change percent that is not a string).
   */
  function NormalizeAlphaVantageQuote(data: Json): (r: Option<NormalizedQuote>)
    ensures r.Some? <==>
      && !data.JNull?
      && Truthy(Prop(data, "Global Quote"))
      && Or(Prop(Prop(data, "Global Quote").value, "10. change percent"), JStr("0")).JStr?
    ensures r.Some? ==> r.value.changePercent.JStr?
  {
    if data.JNull? then None
    else
      var quote := Prop(data, "Global Quote");
      if !Truthy(quote) then None
      else
        var q := quote.value;
        var percent := Or(Prop(q, "10. change percent"), JStr("0"));
        if !percent.JStr? then None
        else Some(NormalizedQuote(
          Or(Prop(q, "01. symbol"), JStr("")),
          Or(Prop(q, "05. price"), JStr("0")),
          Or(Prop(q, "09. change"), JStr("0")),
          JStr(RemoveFirst(percent.str, '%')),
          Or(Prop(q, "08. previous close"), JStr("0")),
          Or(Prop(q, "02. open"), JStr("0")),
          Or(Prop(q, "03. high"), JStr("0")),
          Or(Prop(q, "04. low"), JStr("0")),
          Or(Prop(q, "06. volume"), JStr("0")),
          Prop(q, "07. latest trading day")))
  }

  // ---------------------------------------------------------------------------
  // Time-series points and their ordering

  /**
   * A normalised time-series point. `timestamp` is `new Date(time).getTime()`,
   * supplied by the caller's `dateOf`; the price fields hold the JSON value
   * that `parseFloat(String(...))` is applied to.
   */
  datatype Point = Point(
    time: string,
    timestamp: int,
    open: Json,
    high: Json,
    low: Json,
    close: Json,
    volume: Option<Json>)

  predicate SortedByTimestamp(ps: seq<Point>) {
    forall i, j :: 0 <= i < j < |ps| ==> ps[i].timestamp <= ps[j].timestamp
  }

  /** Puts `p` in front of the first point of `sorted` that is not earlier than it. */
  function InsertPoint(p: Point, sorted: seq<Point>): (r: seq<Point>)
    ensures |r| == |sorted| + 1
    ensures r[0] == if sorted == [] || p.timestamp <= sorted[0].timestamp then p else sorted[0]
  {
    if sorted == [] || p.timestamp <= sorted[0].timestamp then [p] + sorted
    else [sorted[0]] + InsertPoint(p, sorted[1..])
  }

  /** Inserting into a sorted list keeps it sorted. */
  lemma {:induction false} InsertPointSorted(p: Point, sorted: seq<Point>)
    requires SortedByTimestamp(sorted)
    ensures SortedByTimestamp(InsertPoint(p, sorted))
  {
    if !(sorted == [] || p.timestamp <= sorted[0].timestamp) {
      var rest := InsertPoint(p, sorted[1..]);
      InsertPointSorted(p, sorted[1..]);
      assert sorted[0].timestamp <= rest[0].timestamp;
      assert InsertPoint(p, sorted) == [sorted[0]] + rest;
    }
  }

  /** Inserting adds `p` and loses nothing. */
  lemma {:induction false} InsertPointPermutes(p: Point, sorted: seq<Point>)
    ensures multiset(InsertPoint(p, sorted)) == multiset(sorted) + multiset{p}
  {
    if !(sorted == [] || p.timestamp <= sorted[0].timestamp) {
      InsertPointPermutes(p, sorted[1..]);
      assert sorted == [sorted[0]] + sorted[1..];
    }
  }

  /** The multiset of a non-empty sequence splits into its head and its tail. */
  lemma MultisetOfCons<T>(s: seq<T>)
    requires s != []
    ensures multiset(s) == multiset{s[0]} + multiset(s[1..])
  {
    assert s == [s[0]] + s[1..];
  }

  /** `points.sort((a, b) => a.timestamp - b.timestamp)`: a stable ascending sort. */
  function SortPoints(ps: seq<Point>): (r: seq<Point>)
    ensures SortedByTimestamp(r)
    ensures multiset(r) == multiset(ps)
  {
    if ps == [] then []
    else
      var rest := SortPoints(ps[1..]);
      InsertPointSorted(ps[0], rest);
      InsertPointPermutes(ps[0], rest);
      MultisetOfCons(ps);
      InsertPoint(ps[0], rest)
  }

  // ---------------------------------------------------------------------------
  // Alpha Vantage time series

  /**
   * A key naming a time series: it contains "Time Series" or starts with a
   * date `dddd-dd-dd`. The Alpha Vantage normalizer reads its series from the
   * first such key, and the field extractor reports such members as a series
   * without expanding them.
   */
  predicate IsTimeSeriesKey(key: string) {
    Contains(key, "Time Series") || HasDatePrefix(key)
  }

  /** The key `normalizeAlphaVantageTimeSeries` reads the series from: the first that names a time series. */
  function FirstSeriesKey(keys: seq<string>): (r: Option<string>)
    ensures r.Some? ==> r.value in keys && IsTimeSeriesKey(r.value)
    ensures r.None? ==> forall k :: k in keys ==> !IsTimeSeriesKey(k)
  {
    if keys == [] then None
    else if IsTimeSeriesKey(keys[0]) then Some(keys[0])
    else FirstSeriesKey(keys[1..])
  }

  /** The key found is the earliest series key: the one no series key precedes. */
  lemma {:induction false} FirstSeriesKeyIsFirst(keys: seq<string>, i: nat)
    requires i < |keys| && IsTimeSeriesKey(keys[i])
    requires forall j :: 0 <= j < i ==> !IsTimeSeriesKey(keys[j])
    ensures FirstSeriesKey(keys) == Some(keys[i])
  {
    if i > 0 {
      FirstSeriesKeyIsFirst(keys[1..], i - 1);
    }
  }

  /** `values[a] || values[b] || fallback`, reading nothing from a value that is not an object. */
  function Field2(values: Json, a: string, b: string, fallback: Json): Json
    requires !values.JNull?
  {
    Or(Prop(values, a), Or(Prop(values, b), fallback))
  }

  /** The point an Alpha Vantage row gives; None when the row is null (reading it throws). */
  function AlphaVantageRow(time: string, values: Json, dateOf: string -> int): Option<Point> {
    if values.JNull? then None
    else Some(Point(time, dateOf(time),
      Field2(values, "1. open", "open", JStr("0")),
      Field2(values, "2. high", "high", JStr("0")),
      Field2(values, "3. low", "low", JStr("0")),
      Field2(values, "4. close", "close", JStr("0")),
      Some(Field2(values, "5. volume", "volume", JStr("0")))))
  }

  /** Every row of the series, in entry order; None when a row throws. */
  function AlphaVantageRows(entries: seq<(string, Json)>, dateOf: string -> int): (r: Option<seq<Point>>)
    ensures r.Some? ==> |r.value| == |entries|
    ensures r.Some? ==> forall i :: 0 <= i < |entries| ==> r.value[i].time == entries[i].0
    ensures r.Some? ==> forall i :: 0 <= i < |entries| ==> AlphaVantageRow(entries[i].0, entries[i].1, dateOf) == Some(r.value[i])
    ensures r.Some? <==> forall i :: 0 <= i < |entries| ==> !entries[i].1.JNull?
  {
    if entries == [] then Some([])
    else match (AlphaVantageRow(entries[0].0, entries[0].1, dateOf), AlphaVantageRows(entries[1..], dateOf))
      case (Some(p), Some(ps)) => Some([p] + ps)
      case _ => None
  }

  /**
   * `normalizeAlphaVantageTimeSeries`: every row of the first series-like
   * member, sorted by timestamp; [] when there is no such member or when
   * anything throws on the way (a null input, a null series or a null row).
   */
  function NormalizeAlphaVantageTimeSeries(data: Json, dateOf: string -> int): (r: seq<Point>)
    ensures SortedByTimestamp(r)
    ensures data.JNull? || FirstSeriesKey(Keys(data)).None? ==> r == []
    ensures !data.JNull? && FirstSeriesKey(Keys(data)).Some? ==>
      var series := Prop(data, FirstSeriesKey(Keys(data)).value);
      if series.Some? && !series.value.JNull? && AlphaVantageRows(Entries(series.value), dateOf).Some?
      then multiset(r) == multiset(AlphaVantageRows(Entries(series.value), dateOf).value)
      else r == []
  {
    if data.JNull? then []
    else match FirstSeriesKey(Keys(data))
      case None => []
      case Some(key) =>
        match Prop(data, key)
        case None => []
        case Some(series) =>
          if series.JNull? then []
          else match AlphaVantageRows(Entries(series), dateOf)
            case None => []
            case Some(rows) => SortPoints(rows)
  }

  // ---------------------------------------------------------------------------
  // Generic date-keyed time series

  /** `vals[a] || vals[b] || vals[c] || 0`. */
  function Field3(values: Json, a: string, b: string, c: string): Json
    requires !values.JNull?
  {
    Or(Prop(values, a), Or(Prop(values, b), Or(Prop(values, c), JNum(0.0))))
  }

  /**
   * The point one entry of a date-keyed object gives: only date-prefixed keys
   * whose value is an object (read for OHLCV under long or short names) or a
   * number (used for open, high, low and close, with no volume).
   */
  function GenericPoint(key: string, value: Json, dateOf: string -> int): (r: Option<Point>)
    ensures r.Some? ==> HasDatePrefix(key) && r.value.time == key && r.value.timestamp == dateOf(key)
    ensures r.Some? <==> HasDatePrefix(key) && (IsNonNullObject(value) || value.JNum?)
    ensures r.Some? && value.JNum? ==>
      && r.value.open == value && r.value.high == value && r.value.low == value && r.value.close == value
      && r.value.volume.None?
  {
    if !HasDatePrefix(key) then None
    else if IsNonNullObject(value) then
      Some(Point(key, dateOf(key),
        Field3(value, "1. open", "open", "o"),
        Field3(value, "2. high", "high", "h"),
        Field3(value, "3. low", "low", "l"),
        Field3(value, "4. close", "close", "c"),
        Some(Field3(value, "5. volume", "volume", "v"))))
    else if value.JNum? then
      Some(Point(key, dateOf(key), value, value, value, value, None))
    else None
  }

  /** The defined results of `pick` over `xs`, in order. */
  function Collect<T, U>(xs: seq<T>, pick: T -> Option<U>): (r: seq<U>)
    ensures |r| <= |xs|
  {
    if xs == [] then []
    else
      var init := Collect(xs[..|xs| - 1], pick);
      match pick(xs[|xs| - 1])
      case None => init
      case Some(u) => init + [u]
  }

  /** Everything collected is picked from some element, and every element's pick is collected. */
  lemma {:induction false} CollectExactly<T, U>(xs: seq<T>, pick: T -> Option<U>)
    ensures forall u :: u in Collect(xs, pick) <==> exists i :: 0 <= i < |xs| && pick(xs[i]) == Some(u)
  {
    if xs != [] {
      var n := |xs| - 1;
      var init := xs[..n];
      CollectExactly(init, pick);
      forall u
        ensures u in Collect(xs, pick) <==> exists i :: 0 <= i < |xs| && pick(xs[i]) == Some(u)
      {
        if u in Collect(xs, pick) {
          if u in Collect(init, pick) {
            var i :| 0 <= i < |init| && pick(init[i]) == Some(u);
            assert xs[i] == init[i];
          } else {
            assert pick(xs[n]) == Some(u);
          }
        }
        if exists i :: 0 <= i < |xs| && pick(xs[i]) == Some(u) {
          var i :| 0 <= i < |xs| && pick(xs[i]) == Some(u);
          if i < n {
            assert xs[i] == init[i];
            assert u in Collect(init, pick);
          }
        }
      }
    }
  }

  /** The points of the entries, in entry order, before sorting. */
  function GenericPoints(entries: seq<(string, Json)>, dateOf: string -> int): (r: seq<Point>)
    ensures |r| <= |entries|
  {
    Collect(entries, (e: (string, Json)) => GenericPoint(e.0, e.1, dateOf))
  }

  /** Every collected point comes from an accepted entry, and every accepted entry's point is collected. */
  lemma GenericPointsExactly(entries: seq<(string, Json)>, dateOf: string -> int)
    ensures forall p :: p in GenericPoints(entries, dateOf) ==>
      exists i :: 0 <= i < |entries| && GenericPoint(entries[i].0, entries[i].1, dateOf) == Some(p)
    ensures forall i :: 0 <= i < |entries| && GenericPoint(entries[i].0, entries[i].1, dateOf).Some? ==>
      GenericPoint(entries[i].0, entries[i].1, dateOf).value in GenericPoints(entries, dateOf)
  {
    var pick := (e: (string, Json)) => GenericPoint(e.0, e.1, dateOf);
    CollectExactly(entries, pick);
    forall i | 0 <= i < |entries| && GenericPoint(entries[i].0, entries[i].1, dateOf).Some?
      ensures GenericPoint(entries[i].0, entries[i].1, dateOf).value in GenericPoints(entries, dateOf)
    {
      assert pick(entries[i]) == Some(GenericPoint(entries[i].0, entries[i].1, dateOf).value);
    }
  }

  /**
   * `normalizeGenericTimeSeries` as a function: the accepted entries' points,
   * sorted ascending by timestamp; [] for anything that is not an object.
   */
  function GenericTimeSeries(data: Json, dateOf: string -> int): (r: seq<Point>)
    ensures SortedByTimestamp(r)
    ensures !IsNonNullObject(data) ==> r == []
    ensures IsNonNullObject(data) ==> multiset(r) == multiset(GenericPoints(Entries(data), dateOf))
  {
    if !Truthy(Some(data)) || !IsObjectType(data) then []
    else SortPoints(GenericPoints(Entries(data), dateOf))
  }

  /** `normalizeGenericTimeSeries`: collects the points in a loop over the entries, then sorts them. */
  method NormalizeGenericTimeSeries(data: Json, dateOf: string -> int) returns (points: seq<Point>)
    ensures points == GenericTimeSeries(data, dateOf)
  {
    if !Truthy(Some(data)) || !IsObjectType(data) {
      return [];
    }
    var entries := Entries(data);
    points := [];
    var i := 0;
    while i < |entries|
      invariant 0 <= i <= |entries|
      invariant points == GenericPoints(entries[..i], dateOf)
    {
      var (key, value) := entries[i];
      assert entries[..i + 1][..i] == entries[..i];
      var p := GenericPoint(key, value, dateOf);
      if p.Some? {
        points := points + [p.value];
      }
      i := i + 1;
    }
    assert entries[..i] == entries;
    points := SortPoints(points);
  }

  // ---------------------------------------------------------------------------
  // Dot-path lookup and time-series extraction

  /** `getNestedValue`: walks the dot-separated parts of `path` one at a time. */
  method GetNestedValue(root: Json, path: string) returns (r: Option<Json>)
    ensures r == NestedValue(root, path)
  {
    if !Truthy(Some(root)) || !IsObjectType(root) {
      return None;
    }
    var parts := Split(path, '.');
    var current := Some(root);
    var i := 0;
    while i < |parts|
      invariant 0 <= i <= |parts|
      invariant Walk(current, parts[i..]) == NestedValue(root, path)
    {
      if current.None? || current.value.JNull? {
        return None;
      }
      if !IsObjectType(current.value) {
        return None;
      }
      current := Prop(current.value, parts[i]);
      assert parts[i..][1..] == parts[i + 1..];
      i := i + 1;
    }
    return current;
  }

  /**
   * `extractTimeSeries`: [] for a falsy input; the Alpha Vantage normaliser
   * for intraday and daily data; the generic normaliser for date-keyed data;
   * otherwise the generic normaliser applied at `fieldPath`, but only when the
   * path resolves to an object. A throw from the detector propagates.
   */
  function ExtractTimeSeries(data: Json, fieldPath: Option<string>, dateOf: string -> int): (r: Completion<seq<Point>>)
    ensures !Truthy(Some(data)) ==> r == Normal([])
    ensures r.Threw? <==> Truthy(Some(data)) && DetectApiFormat(data).Threw?
    ensures r.Normal? ==> SortedByTimestamp(r.value)
    ensures Truthy(Some(data)) && DetectApiFormat(data) in {Normal(AlphaVantageIntraday), Normal(AlphaVantageDaily)} ==>
      r == Normal(NormalizeAlphaVantageTimeSeries(data, dateOf))
    ensures Truthy(Some(data)) && DetectApiFormat(data) == Normal(TimeSeries) ==>
      r == Normal(GenericTimeSeries(data, dateOf))
    ensures (Truthy(Some(data)) && DetectApiFormat(data).Normal?
             && DetectApiFormat(data).value !in {AlphaVantageIntraday, AlphaVantageDaily, TimeSeries}) ==>
      if fieldPath.Some? && fieldPath.value != "" && Truthy(NestedValue(data, fieldPath.value))
         && IsObjectType(NestedValue(data, fieldPath.value).value)
      then r == Normal(GenericTimeSeries(NestedValue(data, fieldPath.value).value, dateOf))
      else r == Normal([])
  {
    if !Truthy(Some(data)) then Normal([])
    else match DetectApiFormat(data)
      case Threw => Threw
      case Normal(AlphaVantageIntraday) => Normal(NormalizeAlphaVantageTimeSeries(data, dateOf))
      case Normal(AlphaVantageDaily) => Normal(NormalizeAlphaVantageTimeSeries(data, dateOf))
      case Normal(TimeSeries) => Normal(GenericTimeSeries(data, dateOf))
      case Normal(_) =>
        if fieldPath.Some? && fieldPath.value != "" then
          var v := NestedValue(data, fieldPath.value);
          if Truthy(v) && IsObjectType(v.value) then Normal(GenericTimeSeries(v.value, dateOf))
          else Normal([])
        else Normal([])
  }

  // ---------------------------------------------------------------------------
  // Field introspection with type tags

  /** The descriptor one object member gives. */
  function MemberField(prefix: string, key: string, value: Json): (f: AvailableField)
    ensures f.path == ChildPath(prefix, key)
    ensures f.typeTag == (if IsTimeSeriesKey(key) then "timeseries" else TypeName(value))
    ensures f.isArray <==> value.JArr?
    ensures f.value == if IsObjectType(value) then Stringified(value, 100) else Raw(value)
  {
    AvailableField(
      ChildPath(prefix, key),
      if IsObjectType(value) then Stringified(value, 100) else Raw(value),
      if IsTimeSeriesKey(key) then "timeseries" else TypeName(value),
      value.JArr?)
  }

  /**
   * `extractFieldsWithTypes`: [] for anything that is not an object; an
   * array of objects is described by its first element, every descriptor
   * flagged `isArray`; any other array by one 'array' descriptor at
   * `prefix || 'data'`; an object by one descriptor per member, each followed
   * by the descriptors of its value when that is a plain object whose key
   * does not name a time series.
   */
  function FieldsWithTypes(data: Json, prefix: string): (r: seq<AvailableField>)
    decreases data, 1, 0
  {
    if !Truthy(Some(data)) || !IsObjectType(data) then []
    else if data.JArr? then
      if |data.items| > 0 && IsNonNullObject(data.items[0]) then
        MarkArray(FieldsWithTypes(data.items[0], prefix))
      else [AvailableField(if prefix != "" then prefix else "data", Raw(data), "array", true)]
    else MemberFieldsWithTypes(data, 0, prefix)
  }

  /** The descriptors of the members from index `i` on. */
  function MemberFieldsWithTypes(obj: Json, i: nat, prefix: string): (r: seq<AvailableField>)
    requires obj.JObj? && i <= |obj.members|
    decreases obj, 0, |obj.members| - i
  {
    if i == |obj.members| then []
    else
      Contribution(obj, i, prefix) + MemberFieldsWithTypes(obj, i + 1, prefix)
  }

  /** The descriptors that follow a member's own: its value's, when that is a plain object not keyed as a series. */
  function NestedFields(key: string, value: Json, path: string): seq<AvailableField>
    decreases value, 2, 0
  {
    if value.JObj? && !IsTimeSeriesKey(key) then FieldsWithTypes(value, path) else []
  }

  /** `extractFieldsWithTypes`: the member loop pushes each descriptor, then the nested ones. */
  method ExtractFieldsWithTypes(data: Json, prefix: string) returns (fields: seq<AvailableField>)
    ensures fields == FieldsWithTypes(data, prefix)
    decreases data, 2
  {
    if !Truthy(Some(data)) || !IsObjectType(data) {
      return [];
    }
    if data.JArr? {
      if |data.items| > 0 && IsNonNullObject(data.items[0]) {
        var nested := ExtractFieldsWithTypes(data.items[0], prefix);
        return MarkArray(nested);
      }
      return [AvailableField(if prefix != "" then prefix else "data", Raw(data), "array", true)];
    }
    fields := ExtractMemberFields(data, prefix);
  }

  /** The loop over `Object.entries(obj)` of `extractFieldsWithTypes`. */
  method ExtractMemberFields(obj: Json, prefix: string) returns (fields: seq<AvailableField>)
    requires obj.JObj?
    ensures fields == MemberFieldsWithTypes(obj, 0, prefix)
    decreases obj, 1
  {
    fields := [];
    var i := 0;
    while i < |obj.members|
      invariant 0 <= i <= |obj.members|
      invariant fields == FieldsBefore(obj, i, prefix)
    {
      fields := PushMember(obj, i, prefix, fields);
      i := i + 1;
    }
    AllFieldsBefore(obj, prefix);
  }

  /** The loop body: pushes member `i`'s descriptors onto those pushed before it. */
  method PushMember(obj: Json, i: nat, prefix: string, before: seq<AvailableField>) returns (after: seq<AvailableField>)
    requires obj.JObj? && i < |obj.members|
    requires before == FieldsBefore(obj, i, prefix)
    ensures after == FieldsBefore(obj, i + 1, prefix)
    decreases obj, 0, 1
  {
    var chunk := MemberChunk(obj, i, prefix);
    after := before + chunk;
  }

  /** One turn of the member loop: the member's descriptor, then its value's when that is expanded. */
  method MemberChunk(obj: Json, i: nat, prefix: string) returns (chunk: seq<AvailableField>)
    requires obj.JObj? && i < |obj.members|
    ensures chunk == Contribution(obj, i, prefix)
    decreases obj, 0, 0
  {
    var key, value := obj.members[i].0, obj.members[i].1;
    assert obj.members[i] in obj.members;
    var f := MemberField(prefix, key, value);
    var nested: seq<AvailableField> := [];
    if value.JObj? && !IsTimeSeriesKey(key) {
      nested := ExtractFieldsWithTypes(value, f.path);
    }
    chunk := [f] + nested;
  }

  /** The descriptors member `i` contributes: its own, then its value's. */
  function Contribution(obj: Json, i: nat, prefix: string): seq<AvailableField>
    requires obj.JObj? && i < |obj.members|
    decreases obj, 0, |obj.members| - i - 1
  {
    assert obj.members[i] in obj.members;
    var f := MemberField(prefix, obj.members[i].0, obj.members[i].1);
    [f] + NestedFields(obj.members[i].0, obj.members[i].1, f.path)
  }

  /** The descriptors of the members before index `i`, as the loop of `extractFieldsWithTypes` has pushed them. */
  function FieldsBefore(obj: Json, i: nat, prefix: string): seq<AvailableField>
    requires obj.JObj? && i <= |obj.members|
  {
    if i == 0 then [] else FieldsBefore(obj, i - 1, prefix) + Contribution(obj, i - 1, prefix)
  }

  /** Member `i`'s descriptors come first among those from index `i` on. */
  lemma ContributionThenRest(obj: Json, i: nat, prefix: string)
    requires obj.JObj? && i < |obj.members|
    ensures |Contribution(obj, i, prefix)| >= 1
    ensures Contribution(obj, i, prefix) + MemberFieldsWithTypes(obj, i + 1, prefix) == MemberFieldsWithTypes(obj, i, prefix)
  {
  }

  /** The descriptors pushed so far, followed by those still to come, are all of them. */
  lemma {:induction false} FieldsBeforeAndFrom(obj: Json, i: nat, prefix: string)
    requires obj.JObj? && i <= |obj.members|
    ensures FieldsBefore(obj, i, prefix) + MemberFieldsWithTypes(obj, i, prefix) == MemberFieldsWithTypes(obj, 0, prefix)
  {
    if i > 0 {
      FieldsBeforeAndFrom(obj, i - 1, prefix);
      var before, c, rest := FieldsBefore(obj, i - 1, prefix), Contribution(obj, i - 1, prefix), MemberFieldsWithTypes(obj, i, prefix);
      assert FieldsBefore(obj, i, prefix) == before + c;
      ContributionThenRest(obj, i - 1, prefix);
      AppendAssociative(before, c, rest);
    }
  }

  /** Once the loop has visited every member it has pushed all the descriptors. */
  lemma AllFieldsBefore(obj: Json, prefix: string)
    requires obj.JObj?
    ensures FieldsBefore(obj, |obj.members|, prefix) == MemberFieldsWithTypes(obj, 0, prefix)
  {
    FieldsBeforeAndFrom(obj, |obj.members|, prefix);
    assert MemberFieldsWithTypes(obj, |obj.members|, prefix) == [];
  }

  /** Every descriptor's path starts with `prefix`. */
  predicate PathsExtend(fields: seq<AvailableField>, prefix: string) {
    forall j :: 0 <= j < |fields| ==> prefix <= fields[j].path
  }

  /** Every descriptor found under a non-empty prefix has a path that extends it. */
  lemma {:induction false} FieldPathsExtendPrefix(data: Json, prefix: string)
    requires prefix != ""
    ensures PathsExtend(FieldsWithTypes(data, prefix), prefix)
    decreases data, 1, 0
  {
    if !Truthy(Some(data)) || !IsObjectType(data) {
    } else if data.JArr? {
      if |data.items| > 0 && IsNonNullObject(data.items[0]) {
        FieldPathsExtendPrefix(data.items[0], prefix);
        assert FieldsWithTypes(data, prefix) == MarkArray(FieldsWithTypes(data.items[0], prefix));
      }
    } else {
      MemberPathsExtendPrefix(data, 0, prefix);
    }
  }

  /** The same for the descriptors of the members from index `i` on. */
  lemma {:induction false} MemberPathsExtendPrefix(obj: Json, i: nat, prefix: string)
    requires obj.JObj? && i <= |obj.members| && prefix != ""
    ensures PathsExtend(MemberFieldsWithTypes(obj, i, prefix), prefix)
    decreases obj, 0, |obj.members| - i
  {
    if i < |obj.members| {
      var key, value := obj.members[i].0, obj.members[i].1;
      assert obj.members[i] in obj.members;
      var f := MemberField(prefix, key, value);
      var nested := NestedFields(key, value, f.path);
      ChildPathExtends(prefix, key);
      if value.JObj? && !IsTimeSeriesKey(key) {
        FieldPathsExtendPrefix(value, f.path);
        PathsExtendWeaken(nested, prefix, f.path);
      }
      MemberPathsExtendPrefix(obj, i + 1, prefix);
      var rest := MemberFieldsWithTypes(obj, i + 1, prefix);
      assert MemberFieldsWithTypes(obj, i, prefix) == [f] + nested + rest;
      PathsExtendConcat([f], nested, prefix);
      PathsExtendConcat([f] + nested, rest, prefix);
    }
  }

  lemma PathsExtendWeaken(fields: seq<AvailableField>, p: string, q: string)
    requires p <= q && PathsExtend(fields, q)
    ensures PathsExtend(fields, p)
  {
    forall j | 0 <= j < |fields|
      ensures p <= fields[j].path
    {
      PrefixTransitive(p, q, fields[j].path);
    }
  }

  lemma PathsExtendConcat(a: seq<AvailableField>, b: seq<AvailableField>, prefix: string)
    requires PathsExtend(a, prefix) && PathsExtend(b, prefix)
    ensures PathsExtend(a + b, prefix)
  {
    forall j | 0 <= j < |a + b|
      ensures prefix <= (a + b)[j].path
    {
      if j >= |a| {
        assert (a + b)[j] == b[j - |a|];
      }
    }
  }

  lemma PrefixTransitive(a: string, b: string, c: string)
    requires a <= b && b <= c
    ensures a <= c
  {
    assert c[..|b|] == b;
    assert c[..|a|] == b[..|a|];
  }

  /** An object has at least one descriptor per member. */
  lemma {:induction false} MemberFieldsCount(obj: Json, i: nat, prefix: string)
    requires obj.JObj? && i <= |obj.members|
    ensures |MemberFieldsWithTypes(obj, i, prefix)| >= |obj.members| - i
    decreases |obj.members| - i
  {
    if i < |obj.members| {
      MemberFieldsCount(obj, i + 1, prefix);
      ContributionThenRest(obj, i, prefix);
    }
  }

  /** An array whose first element is an object is described by that element alone, flagged `isArray`. */
  lemma ArrayDescribedByFirstElement(items: seq<Json>, prefix: string)
    requires |items| > 0 && IsNonNullObject(items[0])
    ensures FieldsWithTypes(JArr(items), prefix) == MarkArray(FieldsWithTypes(items[0], prefix))
    ensures forall i :: 0 <= i < |FieldsWithTypes(JArr(items), prefix)| ==>
      FieldsWithTypes(JArr(items), prefix)[i].isArray
  {
  }

  /** A member keyed as a series is reported as one `timeseries` descriptor and its value is not expanded. */
  lemma SeriesMembersNotExpanded(obj: Json, i: nat, prefix: string)
    requires obj.JObj? && i < |obj.members| && IsTimeSeriesKey(obj.members[i].0)
    ensures Contribution(obj, i, prefix) == [MemberField(prefix, obj.members[i].0, obj.members[i].1)]
    ensures Contribution(obj, i, prefix)[0].typeTag == "timeseries"
  {
  }

  /** An array not led by an object is one `array` descriptor, at the prefix or at `data` without one. */
  lemma PlainArrayIsOneField(items: seq<Json>, prefix: string)
    requires |items| == 0 || !IsNonNullObject(items[0])
    ensures var r := FieldsWithTypes(JArr(items), prefix);
      && |r| == 1 && r[0].path == (if prefix != "" then prefix else "data")
      && r[0].typeTag == "array" && r[0].isArray && r[0].value == Raw(JArr(items))
  {
  }

  // ---------------------------------------------------------------------------
  // Display formatting

  /** A formatted value: finished text, or a number left to the locale-aware numeric formatter. */
  datatype DisplayText = Shown(text: string) | NumberToFormat(num: real)

  /**
   * `formatDisplayValue` on everything but numbers: '-' for null and
   * undefined, Yes/No for booleans, '[n items]' for arrays, '{...}' for other
   * objects, and strings unchanged.
   */
  function FormatDisplayValue(v: Option<Json>): (r: DisplayText)
    ensures r.NumberToFormat? <==> v.Some? && v.value.JNum?
    ensures r == Shown("-") <==> v.None? || v == Some(JNull) || v == Some(JStr("-"))
    ensures v.Some? && v.value.JArr? ==> r == Shown("[" + NatToString(|v.value.items|) + " items]")
    ensures v.Some? && v.value.JBool? ==> r == Shown(if v.value.truth then "Yes" else "No")
    ensures v.Some? && v.value.JObj? ==> r == Shown("{...}")
    ensures v.Some? && v.value.JStr? && v.value.str != "-" ==> r == Shown(v.value.str)
  {
    match v
    case None => Shown("-")
    case Some(JNull) => Shown("-")
    case Some(JNum(n)) => NumberToFormat(n)
    case Some(JBool(b)) => Shown(if b then "Yes" else "No")
    case Some(JArr(items)) => Shown("[" + NatToString(|items|) + " items]")
    case Some(JObj(_)) => Shown("{...}")
    case Some(JStr(s)) => Shown(s)
  }
}
