/** The KLSE forecast page (`src/app/predictions/klse/page.tsx`): it asks both
    prediction services about the first symbol of the Bursa watchlist, keeps
    every field as an array (an empty one when the payload has none), and
    draws history and forecast on one axis. The advanced forecast is placed by
    position and only when it is exactly as long as the page's forecast dates.
    The fetches are given as their replies, the JSON parser of the `Content`
    wrapper as a function, and which request fails first as a flag. */
module KlsePredictions {
  import opened JsText
  import opened JsValue
  import opened Chart

  /** The page's state: every series is an array. */
  datatype State = State(
    forecast: seq<Value>,
    dates: seq<Value>,
    historyPrices: seq<Value>,
    historyDates: seq<Value>,
    forecastV2: seq<Value>,
    datesV2: seq<Value>,
    loading: bool,
    error: Option<Failure>)

  // ---------------------------------------------------------------------------
  // The symbol and the request URLs
  // ---------------------------------------------------------------------------

  const DefaultSymbol: string := "MYR"

  /** The symbol asked about: that of the first watchlist entry, or "MYR" when
      there is no entry or its symbol is empty. */
  function CurrentSymbol(watchlist: seq<string>): (r: string)
    ensures r != ""
    ensures |watchlist| > 0 && watchlist[0] != "" ==> r == watchlist[0]
    ensures (|watchlist| == 0 || watchlist[0] == "") ==> r == DefaultSymbol
  {
    if |watchlist| > 0 && watchlist[0] != "" then watchlist[0] else DefaultSymbol
  }

  /** `${base}/predict/v1?symbol=…` and `${base}/predict/v2?symbol=…`; the
      symbol is pasted in without encoding. */
  function ApiUrl(base: string, version: string, symbol: string): (url: string)
    ensures |url| == |base| + |version| + |symbol| + 17
    ensures url[..|base|] == base
    ensures url[|base|..|base| + 9] == "/predict/"
    ensures url[|base| + 9..|base| + 9 + |version|] == version
    ensures url[|url| - |symbol| - 8..|url| - |symbol|] == "?symbol="
    ensures url[|url| - |symbol|..] == symbol
  {
    base + "/predict/" + version + "?symbol=" + symbol
  }

  /** Both services are asked about the same symbol, as the `symbol` query
      parameter, at different URLs. */
  lemma BothUrlsCarrySymbol(base: string, watchlist: seq<string>)
    ensures var sym := CurrentSymbol(watchlist);
      var u1 := ApiUrl(base, "v1", sym);
      var u2 := ApiUrl(base, "v2", sym);
      && u1[|u1| - |sym| - 8..] == "?symbol=" + sym
      && u2[|u2| - |sym| - 8..] == "?symbol=" + sym
      && u1 != u2
  {
    var sym := CurrentSymbol(watchlist);
    var u1 := ApiUrl(base, "v1", sym);
    var u2 := ApiUrl(base, "v2", sym);
    assert u1[|u1| - |sym| - 8..] == u1[|u1| - |sym| - 8..|u1| - |sym|] + u1[|u1| - |sym|..];
    assert u2[|u2| - |sym| - 8..] == u2[|u2| - |sym| - 8..|u2| - |sym|] + u2[|u2| - |sym|..];
    var n := |base| + 9;
    assert u1[n..n + 2] == "v1";
    assert u2[n..n + 2] == "v2";
    assert u1[n + 1] == '1' && u2[n + 1] == '2';
  }

  // ---------------------------------------------------------------------------
  // Loading
  // ---------------------------------------------------------------------------

  /** The `Content` unwrapping, without the truthiness guard: reading
      `Content` of a null payload throws. */
  function Unwrap(data: Value, parse: string -> Option<Value>): (r: Result<Value>)
    ensures r.Thrown? <==> data in {Null, Undefined}
    ensures r.Ok? && !(data.Obj? && "Content" in data.fields && data.fields["Content"].Str?) ==> r.value == data
    ensures data.Obj? && "Content" in data.fields && data.fields["Content"].Str? ==>
      r == Ok(match parse(data.fields["Content"].s) case Some(v) => v case None => data)
  {
    match Get(data, "Content")
    case Thrown(f) => Thrown(f)
    case Ok(Str(c)) => Ok(match parse(c) case Some(v) => v case None => data)
    case Ok(_) => Ok(data)
  }

  /** `Array.isArray(v) ? v : []`. */
  function ArrayOrEmpty(v: Value): (r: seq<Value>)
    ensures v.Arr? ==> r == v.items
    ensures !v.Arr? ==> r == []
  {
    if v.Arr? then v.items else []
  }

  /** `rows.map(([price]) => price)`: the first item of each row; a row that
      is not an array or a string throws. */
  function FirstItems(rows: seq<Value>): (r: Result<seq<Value>>)
    ensures r.Ok? <==> forall i :: 0 <= i < |rows| ==> rows[i].Arr? || rows[i].Str?
    ensures r.Thrown? ==> r.failure == TypeError
    ensures r.Ok? ==> |r.value| == |rows| && forall i :: 0 <= i < |rows| ==> Destructure0(rows[i]) == Ok(r.value[i])
    decreases |rows|
  {
    if |rows| == 0 then Ok([])
    else
      match Destructure0(rows[0])
      case Thrown(f) => Thrown(f)
      case Ok(x) =>
        match FirstItems(rows[1..])
        case Thrown(f) => Thrown(f)
        case Ok(xs) =>
          assert forall i :: 1 <= i < |rows| ==> rows[i] == rows[1..][i - 1];
          Ok([x] + xs)
  }

  /** The new `historyPrices`: a non-array leaves the old value; a table
      (first row an array) is flattened to the first item of each row, keeping
      its length; any other array is taken as it is. */
  function NewHistoryPrices(current: seq<Value>, raw: Value): (r: Result<seq<Value>>)
    ensures !raw.Arr? ==> r == Ok(current)
    ensures raw.Arr? && !(|raw.items| > 0 && raw.items[0].Arr?) ==> r == Ok(raw.items)
    ensures raw.Arr? && |raw.items| > 0 && raw.items[0].Arr? ==> r == FirstItems(raw.items)
    ensures r.Thrown? <==>
      raw.Arr? && |raw.items| > 0 && raw.items[0].Arr? &&
      exists i :: 0 <= i < |raw.items| && !raw.items[i].Arr? && !raw.items[i].Str?
    ensures raw.Arr? && |raw.items| > 0 && raw.items[0].Arr? && r.Ok? ==>
      |r.value| == |raw.items| &&
      forall i :: 0 <= i < |raw.items| ==> Destructure0(raw.items[i]) == Ok(r.value[i])
  {
    if !raw.Arr? then Ok(current)
    else if |raw.items| > 0 && raw.items[0].Arr? then FirstItems(raw.items)
    else Ok(raw.items)
  }

  /** The body of the `then` callback once both payloads are in: the setters
      run in order, so a throw part-way keeps what was set before it. */
  function Apply(s: State, data1: Value, data2: Value, parse: string -> Option<Value>): (r: (State, Option<Failure>))
    ensures r.1.None? <==>
      && Unwrap(data1, parse).Ok? && Unwrap(data2, parse).Ok?
      && Unwrap(data1, parse).value !in {Null, Undefined}
      && Unwrap(data2, parse).value !in {Null, Undefined}
      && NewHistoryPrices(s.historyPrices, Get(Unwrap(data1, parse).value, "history_prices").value).Ok?
    ensures r.1.None? ==>
      var p1 := Unwrap(data1, parse).value;
      var p2 := Unwrap(data2, parse).value;
      r.0 == State(
        ArrayOrEmpty(Get(p1, "forecast").value),
        ArrayOrEmpty(Get(p1, "dates").value),
        NewHistoryPrices(s.historyPrices, Get(p1, "history_prices").value).value,
        ArrayOrEmpty(Get(p1, "history_dates").value),
        ArrayOrEmpty(Get(p2, "forecast").value),
        ArrayOrEmpty(Get(p2, "dates").value),
        false, None)
    ensures Unwrap(data1, parse).Thrown? ==> r == (s, Some(Unwrap(data1, parse).failure))
    ensures Unwrap(data1, parse).Ok? && Unwrap(data2, parse).Thrown? ==>
      r == (s, Some(Unwrap(data2, parse).failure))
    ensures (Unwrap(data1, parse).Ok? && Unwrap(data2, parse).Ok? &&
             Unwrap(data1, parse).value in {Null, Undefined}) ==> r == (s, Some(TypeError))
    ensures (Unwrap(data1, parse).Ok? && Unwrap(data2, parse).Ok? &&
             Unwrap(data1, parse).value !in {Null, Undefined}) ==>
      var p1 := Unwrap(data1, parse).value;
      var p2 := Unwrap(data2, parse).value;
      var s1 := s.(forecast := ArrayOrEmpty(Get(p1, "forecast").value),
                   dates := ArrayOrEmpty(Get(p1, "dates").value));
      match NewHistoryPrices(s.historyPrices, Get(p1, "history_prices").value)
      case Thrown(f) => r == (s1, Some(f))
      case Ok(h) =>
        p2 in {Null, Undefined} ==>
          r == (s1.(historyPrices := h, historyDates := ArrayOrEmpty(Get(p1, "history_dates").value)),
                Some(TypeError))
  {
    match Unwrap(data1, parse)
    case Thrown(f) => (s, Some(f))
    case Ok(p1) =>
      match Unwrap(data2, parse)
      case Thrown(f) => (s, Some(f))
      case Ok(p2) =>
        if p1 == Null || p1 == Undefined then (s, Some(TypeError))
        else
          var s1 := s.(forecast := ArrayOrEmpty(Get(p1, "forecast").value),
                       dates := ArrayOrEmpty(Get(p1, "dates").value));
          match NewHistoryPrices(s.historyPrices, Get(p1, "history_prices").value)
          case Thrown(f) => (s1, Some(f))
          case Ok(h) =>
            var s2 := s1.(historyPrices := h, historyDates := ArrayOrEmpty(Get(p1, "history_dates").value));
            if p2 == Null || p2 == Undefined then (s2, Some(TypeError))
            else
              (s2.(forecastV2 := ArrayOrEmpty(Get(p2, "forecast").value),
                   datesV2 := ArrayOrEmpty(Get(p2, "dates").value),
                   loading := false, error := None), None)
  }

  /** The outcome of `fetch(url).then(res => res.json())`: the status of the
      response is not looked at. */
  function Payload(reply: Reply): (r: Result<Value>)
    ensures reply.Rejected? ==> r == Thrown(reply.failure)
    ensures reply.Received? ==> r == reply.body
  {
    match reply
    case Rejected(f) => Thrown(f)
    case Received(_, body) => body
  }

  /** The whole effect: loading starts; if either request fails the error of
      the first failure is shown and no series changes; otherwise the payloads
      are applied, and a throw while applying them is shown as the error.
      Loading ends either way. */
  function Load(s: State, reply1: Reply, reply2: Reply, parse: string -> Option<Value>,
                firstFailsFirst: bool): (r: State)
    ensures !r.loading
    ensures Payload(reply1).Thrown? || Payload(reply2).Thrown? ==>
      r == s.(loading := false,
              error := Some(if Payload(reply1).Thrown? && (Payload(reply2).Ok? || firstFailsFirst)
                            then Payload(reply1).failure else Payload(reply2).failure))
    ensures Payload(reply1).Ok? && Payload(reply2).Ok? ==>
      var (a, e) := Apply(s.(loading := true), Payload(reply1).value, Payload(reply2).value, parse);
      r == if e.None? then a else a.(loading := false, error := e)
  {
    var s0 := s.(loading := true);
    match (Payload(reply1), Payload(reply2))
    case (Ok(d1), Ok(d2)) =>
      var (a, e) := Apply(s0, d1, d2, parse);
      if e.None? then a else a.(loading := false, error := e)
    case (Thrown(f1), Ok(_)) => s0.(loading := false, error := Some(f1))
    case (Ok(_), Thrown(f2)) => s0.(loading := false, error := Some(f2))
    case (Thrown(f1), Thrown(f2)) => s0.(loading := false, error := Some(if firstFailsFirst then f1 else f2))
  }

  /** A successful load clears an earlier error and leaves only arrays taken
      from the payloads, or the old history when the payload has none. */
  lemma SuccessfulLoadClearsError(s: State, reply1: Reply, reply2: Reply, parse: string -> Option<Value>, first: bool)
    requires Payload(reply1).Ok? && Payload(reply2).Ok?
    requires Apply(s.(loading := true), Payload(reply1).value, Payload(reply2).value, parse).1.None?
    ensures Load(s, reply1, reply2, parse, first).error == None
  {
  }

  // ---------------------------------------------------------------------------
  // The chart
  // ---------------------------------------------------------------------------

  /** `hasChartData`: all four series non-empty, history prices paired with
      history dates and forecast with dates. */
  predicate HasChartData(s: State) {
    && |s.historyPrices| > 0 && |s.historyDates| > 0 && |s.forecast| > 0 && |s.dates| > 0
    && |s.historyPrices| == |s.historyDates|
    && |s.forecast| == |s.dates|
  }

  /** Whether the advanced line is drawn: a non-empty advanced forecast as long
      as its own dates and as the page's forecast dates. */
  predicate AdvancedReady(s: State) {
    |s.forecastV2| > 0 && |s.datesV2| == |s.forecastV2| && |s.forecastV2| == |s.dates|
  }

  /** The chart: history then forecast dates on the axis; actual prices padded
      with gaps; the original forecast after gaps over the history; the
      advanced forecast, when ready, after the same gaps, by position. */
  function ChartDataOf(s: State): (c: ChartData)
    ensures c == NoChart <==> !HasChartData(s)
    ensures Aligned(c)
    ensures HasChartData(s) ==> |c.datasets| == (if AdvancedReady(s) then 3 else 2)
  {
    if !HasChartData(s) then NoChart
    else
      var base := [
        Dataset(ActualCaption, Points(s.historyPrices) + Gaps(|s.dates|)),
        Dataset(OriginalCaption, Gaps(|s.historyPrices|) + Points(s.forecast))];
      var datasets :=
        if AdvancedReady(s) then base + [Dataset(AdvancedCaption, Gaps(|s.historyPrices|) + Points(s.forecastV2))]
        else base;
      ChartData(s.historyDates + s.dates, datasets)
  }

  /** Without chart data there is nothing to draw. */
  lemma NoDataNoChart(s: State)
    requires !HasChartData(s)
    ensures ChartDataOf(s) == NoChart
  {
  }

  /** With chart data every line has one point per label, each price sits over
      its own date, and the advanced line, present exactly when ready, carries
      the advanced value of position j over the j-th forecast date. */
  lemma ChartLinesUp(s: State)
    requires HasChartData(s)
    ensures var c := ChartDataOf(s);
      var hp := s.historyPrices;
      && Aligned(c)
      && |c.labels| == |hp| + |s.dates|
      && |c.datasets| == (if AdvancedReady(s) then 3 else 2)
      && c.datasets[0].caption == ActualCaption && c.datasets[1].caption == OriginalCaption
      && (forall i :: 0 <= i < |hp| ==>
            c.labels[i] == s.historyDates[i] && c.datasets[0].data[i] == Some(hp[i]) &&
            forall k :: 1 <= k < |c.datasets| ==> c.datasets[k].data[i] == None)
      && (forall j :: 0 <= j < |s.dates| ==>
            c.labels[|hp| + j] == s.dates[j] && c.datasets[0].data[|hp| + j] == None &&
            c.datasets[1].data[|hp| + j] == Some(s.forecast[j]) &&
            (AdvancedReady(s) ==> c.datasets[2].caption == AdvancedCaption &&
                                  c.datasets[2].data[|hp| + j] == Some(s.forecastV2[j])))
  {
    var c := ChartDataOf(s);
    assert c.datasets[0].data == Points(s.historyPrices) + Gaps(|s.dates|);
    assert c.datasets[1].data == Gaps(|s.historyPrices|) + Points(s.forecast);
    if AdvancedReady(s) {
      assert c.datasets[2].data == Gaps(|s.historyPrices|) + Points(s.forecastV2);
    }
    assert c.labels == s.historyDates + s.dates;
  }

  /** The advanced dates are only counted, never compared: replacing them by
      any other dates of the same number leaves the chart as it was. */
  lemma AdvancedDatesIgnored(s: State, otherDates: seq<Value>)
    requires |otherDates| == |s.datesV2|
    ensures ChartDataOf(s.(datesV2 := otherDates)) == ChartDataOf(s)
  {
  }

  /** An advanced forecast whose length differs from the page's dates is not
      drawn at all, even when it is as long as its own dates. */
  lemma AdvancedNeedsSameLength(s: State)
    requires HasChartData(s) && |s.forecastV2| != |s.dates|
    ensures |ChartDataOf(s).datasets| == 2
  {
  }
}
