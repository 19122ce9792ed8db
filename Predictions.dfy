/** The Maybank forecast page (`src/app/predictions/page.tsx`): it fetches the
    original and the advanced model's forecasts, stores the parsed fields as
    they come, and draws history and forecast on one time axis. The advanced
    forecast is placed on the axis by looking its dates up.
    The fetches are given as their replies, the JSON parser of the `Content`
    wrapper as a function, and which branch fails first as a flag. */
module Predictions {
  import opened JsText
  import opened JsValue
  import opened Chart

  /** The page's state. A field holds whatever the payload carried: `null`
      before loading, possibly `undefined` or a non-array afterwards. */
  datatype State = State(
    forecast: Value,
    dates: Value,
    historyPrices: Value,
    historyDates: Value,
    forecastV2: Value,
    datesV2: Value,
    historyPricesV2: Value,
    historyDatesV2: Value,
    loading: bool,
    error: Option<Failure>)

  // ---------------------------------------------------------------------------
  // Loading
  // ---------------------------------------------------------------------------

  /** A payload may wrap the real one as a JSON string in `Content`; when that
      string parses, the parsed value replaces the payload, otherwise the
      payload is used as it is. */
  function Unwrap(data: Value, parse: string -> Option<Value>): (r: Value)
    ensures !Truthy(data) ==> r == data
    ensures Truthy(data) && data.Obj? && "Content" in data.fields && data.fields["Content"].Str? ==>
      r == match parse(data.fields["Content"].s) case Some(v) => v case None => data
    ensures !(data.Obj? && "Content" in data.fields && data.fields["Content"].Str?) ==> r == data
  {
    if Truthy(data) then
      match Get(data, "Content")
      case Ok(Str(c)) => (match parse(c) case Some(v) => v case None => data)
      case _ => data
    else data
  }

  /** `rows.map(v => v[0])`: each row replaced by its first element; a null or
      undefined row throws. */
  function FirstElements(rows: seq<Value>): (r: Result<seq<Value>>)
    ensures r.Ok? <==> forall i :: 0 <= i < |rows| ==> rows[i] != Null && rows[i] != Undefined
    ensures r.Thrown? ==> r.failure == TypeError
    ensures r.Ok? ==> |r.value| == |rows| && forall i :: 0 <= i < |rows| ==> Index0(rows[i]) == Ok(r.value[i])
    decreases |rows|
  {
    if |rows| == 0 then Ok([])
    else
      match Index0(rows[0])
      case Thrown(f) => Thrown(f)
      case Ok(x) =>
        match FirstElements(rows[1..])
        case Thrown(f) => Thrown(f)
        case Ok(xs) =>
          assert forall i :: 1 <= i < |rows| ==> rows[i] == rows[1..][i - 1];
          Ok([x] + xs)
  }

  /** Whether `history_prices` is a table whose first row is an array. */
  predicate IsTable(raw: Value) {
    raw.Arr? && |raw.items| > 0 && raw.items[0].Arr?
  }

  /** The `history_prices` a payload stores: a table is flattened to the
      first element of each row, which keeps its length; anything else is kept
      as it is. */
  function FlattenHistory(raw: Value): (r: Result<Value>)
    ensures !IsTable(raw) ==> r == Ok(raw)
    ensures IsTable(raw) && r.Ok? ==>
      r.value.Arr? && |r.value.items| == |raw.items| &&
      forall i :: 0 <= i < |raw.items| ==> Index0(raw.items[i]) == Ok(r.value.items[i])
    ensures r.Thrown? <==> IsTable(raw) && exists i :: 0 <= i < |raw.items| && raw.items[i] in {Null, Undefined}
  {
    if IsTable(raw) then
      match FirstElements(raw.items)
      case Ok(xs) => Ok(Arr(xs))
      case Thrown(f) => Thrown(f)
    else Ok(raw)
  }

  /** `v.key` on a value that is known not to be null or undefined. */
  function Field(v: Value, key: string): (r: Value)
    requires v != Null && v != Undefined
    ensures Get(v, key) == Ok(r)
  {
    Get(v, key).value
  }

  /** The setters the original model's payload runs, in order. Reading a
      field of a null payload throws before anything is set; a table with a
      null row throws after `forecast` and `dates` are set. */
  function ApplyOriginal(s: State, parsed: Value): (r: (State, Option<Failure>))
    ensures parsed in {Null, Undefined} ==> r == (s, Some(TypeError))
    ensures parsed !in {Null, Undefined} ==>
      r.0.forecast == Field(parsed, "forecast") && r.0.dates == Field(parsed, "dates") &&
      r.0.forecastV2 == s.forecastV2 && r.0.datesV2 == s.datesV2 &&
      r.0.historyPricesV2 == s.historyPricesV2 && r.0.historyDatesV2 == s.historyDatesV2 &&
      r.0.loading == s.loading && r.0.error == s.error &&
      match FlattenHistory(Field(parsed, "history_prices"))
      case Ok(h) => r.1 == None && r.0.historyPrices == h && r.0.historyDates == Field(parsed, "history_dates")
      case Thrown(f) => r.1 == Some(f) && r.0.historyPrices == s.historyPrices && r.0.historyDates == s.historyDates
  {
    if parsed == Null || parsed == Undefined then (s, Some(TypeError))
    else
      var s1 := s.(forecast := Field(parsed, "forecast"), dates := Field(parsed, "dates"));
      match FlattenHistory(Field(parsed, "history_prices"))
      case Thrown(f) => (s1, Some(f))
      case Ok(h) => (s1.(historyPrices := h, historyDates := Field(parsed, "history_dates")), None)
  }

  /** The setters the advanced model's payload runs: its four fields, stored
      as they are. */
  function ApplyAdvanced(s: State, parsed: Value): (r: (State, Option<Failure>))
    ensures parsed in {Null, Undefined} ==> r == (s, Some(TypeError))
    ensures parsed !in {Null, Undefined} ==>
      && r.1 == None
      && r.0 == s.(forecastV2 := Field(parsed, "forecast"), datesV2 := Field(parsed, "dates"),
                   historyPricesV2 := Field(parsed, "history_prices"), historyDatesV2 := Field(parsed, "history_dates"))
  {
    if parsed == Null || parsed == Undefined then (s, Some(TypeError))
    else
      (s.(forecastV2 := Field(parsed, "forecast"), datesV2 := Field(parsed, "dates"),
          historyPricesV2 := Field(parsed, "history_prices"), historyDatesV2 := Field(parsed, "history_dates")), None)
  }

  /** One branch of the effect: a rejected fetch or a response that is not ok
      (`notOk` names the error it throws) changes nothing and fails; a body
      that reads as JSON is unwrapped and applied. */
  function Branch(s: State, reply: Reply, parse: string -> Option<Value>, notOk: string,
                  apply: (State, Value) -> (State, Option<Failure>)): (r: (State, Option<Failure>))
    ensures reply.Rejected? ==> r == (s, Some(reply.failure))
    ensures reply.Received? && !reply.ok ==> r == (s, Some(Message(notOk)))
    ensures reply.Received? && reply.ok && reply.body.Thrown? ==> r == (s, Some(reply.body.failure))
    ensures reply.Received? && reply.ok && reply.body.Ok? ==> r == apply(s, Unwrap(reply.body.value, parse))
  {
    match reply
    case Rejected(f) => (s, Some(f))
    case Received(ok, body) =>
      if !ok then (s, Some(Message(notOk)))
      else
        match body
        case Thrown(f) => (s, Some(f))
        case Ok(data) => apply(s, Unwrap(data, parse))
  }

  /** The whole effect, once both branches have settled: each branch applies
      its own fields whatever the other does; the error shown is that of the
      branch that failed first; loading ends either way. */
  function Load(s: State, original: Reply, advanced: Reply, parse: string -> Option<Value>,
                originalFailsFirst: bool): (r: State)
    ensures !r.loading
    ensures var (s1, e1) := Branch(s, original, parse, "API error", ApplyOriginal);
            var (s2, e2) := Branch(s1, advanced, parse, "API v2 error", ApplyAdvanced);
            r.forecast == s2.forecast && r.dates == s2.dates &&
            r.historyPrices == s2.historyPrices && r.historyDates == s2.historyDates &&
            r.forecastV2 == s2.forecastV2 && r.datesV2 == s2.datesV2 &&
            r.historyPricesV2 == s2.historyPricesV2 && r.historyDatesV2 == s2.historyDatesV2 &&
            (e1.None? && e2.None? ==> r.error == s.error) &&
            (e1.Some? && (e2.None? || originalFailsFirst) ==> r.error == e1) &&
            (e2.Some? && (e1.None? || !originalFailsFirst) ==> r.error == e2)
  {
    var (s1, e1) := Branch(s, original, parse, "API error", ApplyOriginal);
    var (s2, e2) := Branch(s1, advanced, parse, "API v2 error", ApplyAdvanced);
    var err :=
      if e1.Some? && (e2.None? || originalFailsFirst) then e1
      else if e2.Some? then e2
      else s2.error;
    s2.(loading := false, error := err)
  }

  /** The branches touch disjoint fields, so the original model's fields do
      not depend on the advanced reply at all. */
  lemma OriginalIndependentOfAdvanced(s: State, original: Reply, a1: Reply, a2: Reply,
                                      parse: string -> Option<Value>, first: bool)
    ensures var r1 := Load(s, original, a1, parse, first);
            var r2 := Load(s, original, a2, parse, first);
            r1.forecast == r2.forecast && r1.dates == r2.dates &&
            r1.historyPrices == r2.historyPrices && r1.historyDates == r2.historyDates
  {
    var (s1, _) := Branch(s, original, parse, "API error", ApplyOriginal);
    AdvancedKeepsOriginal(s1, a1, parse);
    AdvancedKeepsOriginal(s1, a2, parse);
  }

  /** The advanced branch, whatever its reply, leaves the original model's
      four fields as they were. */
  lemma AdvancedKeepsOriginal(s: State, reply: Reply, parse: string -> Option<Value>)
    ensures var (r, _) := Branch(s, reply, parse, "API v2 error", ApplyAdvanced);
            r.forecast == s.forecast && r.dates == s.dates &&
            r.historyPrices == s.historyPrices && r.historyDates == s.historyDates
  {
  }

  // ---------------------------------------------------------------------------
  // The chart
  // ---------------------------------------------------------------------------

  predicate HasNumber(xs: seq<Value>) {
    exists i :: 0 <= i < |xs| && xs[i].Number?
  }

  /** `hasChartData`: the four fields are arrays, history prices and dates
      pair up, forecast and dates pair up, both series are non-empty and each
      holds at least one number. */
  predicate HasChartData(s: State) {
    && s.historyPrices.Arr? && s.historyDates.Arr? && s.forecast.Arr? && s.dates.Arr?
    && |s.historyPrices.items| == |s.historyDates.items|
    && |s.forecast.items| == |s.dates.items|
    && |s.historyPrices.items| > 0 && |s.forecast.items| > 0
    && HasNumber(s.historyPrices.items) && HasNumber(s.forecast.items)
  }

  /** Whether the advanced line is drawn: a non-empty forecast with as many
      dates as values. */
  predicate AdvancedReady(s: State) {
    s.forecastV2.Arr? && |s.forecastV2.items| > 0 &&
    s.datesV2.Arr? && |s.datesV2.items| == |s.forecastV2.items|
  }

  /** The advanced forecast on the page's forecast dates: at each date, the
      value at the first advanced date strictly equal to it, or a gap. */
  function AlignByDate(dates: seq<Value>, datesV2: seq<Value>, forecastV2: seq<Value>): (r: seq<Option<Value>>)
    requires |datesV2| == |forecastV2|
    ensures |r| == |dates|
    ensures forall i :: 0 <= i < |dates| ==>
      var k := IndexOf(datesV2, dates[i]);
      r[i] == if k == -1 then None else Some(forecastV2[k])
  {
    seq(|dates|, i requires 0 <= i < |dates| =>
      var k := IndexOf(datesV2, dates[i]);
      if k == -1 then None else Some(forecastV2[k]))
  }

  /** The chart: history then forecast dates on the axis; the actual prices
      padded with gaps over the forecast; the original forecast after gaps over
      the history; the advanced forecast, when ready, aligned by date after the
      same gaps. */
  function ChartDataOf(s: State): (c: ChartData)
    ensures c == NoChart <==> !HasChartData(s)
    ensures Aligned(c)
    ensures HasChartData(s) ==> |c.datasets| == (if AdvancedReady(s) then 3 else 2)
  {
    if !HasChartData(s) then NoChart
    else
      var hp, hd, f, d := s.historyPrices.items, s.historyDates.items, s.forecast.items, s.dates.items;
      var base := [
        Dataset(ActualCaption, Points(hp) + Gaps(|d|)),
        Dataset(OriginalCaption, Gaps(|hp|) + Points(f))];
      var datasets :=
        if AdvancedReady(s) then
          base + [Dataset(AdvancedCaption, Gaps(|hp|) + AlignByDate(d, s.datesV2.items, s.forecastV2.items))]
        else base;
      ChartData(hd + d, datasets)
  }

  /** Without chart data there is nothing to draw. */
  lemma NoDataNoChart(s: State)
    requires !HasChartData(s)
    ensures ChartDataOf(s) == NoChart
  {
  }

  /** With chart data every line has one point per label, each history price
      sits over its own history date, each forecast value over its own
      forecast date, and the advanced line is there exactly when it is ready. */
  lemma ChartLinesUp(s: State)
    requires HasChartData(s)
    ensures var c := ChartDataOf(s);
      var hp, hd, f, d := s.historyPrices.items, s.historyDates.items, s.forecast.items, s.dates.items;
      && Aligned(c)
      && |c.labels| == |hp| + |d|
      && |c.datasets| == (if AdvancedReady(s) then 3 else 2)
      && c.datasets[0].caption == ActualCaption && c.datasets[1].caption == OriginalCaption
      && (forall i :: 0 <= i < |hp| ==>
            c.labels[i] == hd[i] && c.datasets[0].data[i] == Some(hp[i]) && c.datasets[1].data[i] == None)
      && (forall j :: 0 <= j < |d| ==>
            c.labels[|hp| + j] == d[j] && c.datasets[0].data[|hp| + j] == None &&
            c.datasets[1].data[|hp| + j] == Some(f[j]))
  {
    var c := ChartDataOf(s);
    var hp, hd, f, d := s.historyPrices.items, s.historyDates.items, s.forecast.items, s.dates.items;
    assert c.datasets[0].data == Points(hp) + Gaps(|d|);
    assert c.datasets[1].data == Gaps(|hp|) + Points(f);
    assert c.labels == hd + d;
  }

  /** The advanced line, when drawn: gaps over the history, then at each
      forecast date the advanced value of the first matching advanced date, or
      a gap when no advanced date matches. Its length is that of the labels
      however long the advanced forecast is. */
  lemma AdvancedLine(s: State)
    requires HasChartData(s) && AdvancedReady(s)
    ensures var c := ChartDataOf(s);
      var hp, d := s.historyPrices.items, s.dates.items;
      var adv := c.datasets[2].data;
      && c.datasets[2].caption == AdvancedCaption
      && |adv| == |c.labels|
      && (forall i :: 0 <= i < |hp| ==> adv[i] == None)
      && (forall j :: 0 <= j < |d| ==>
            var k := IndexOf(s.datesV2.items, d[j]);
            adv[|hp| + j] == if k == -1 then None else Some(s.forecastV2.items[k]))
  {
    var c := ChartDataOf(s);
    var hp, d := s.historyPrices.items, s.dates.items;
    assert c.datasets[2].data == Gaps(|hp|) + AlignByDate(d, s.datesV2.items, s.forecastV2.items);
  }

  /** When the advanced dates are the page's own dates, all distinct strings,
      the date lookup puts each advanced value at its own position: the
      aligned line is the positional one the KLSE page draws. */
  lemma {:induction false} AlignByDateOnSameDates(dates: seq<Value>, forecastV2: seq<Value>)
    requires |dates| == |forecastV2|
    requires forall i :: 0 <= i < |dates| ==> dates[i].Str?
    requires forall i, j :: 0 <= i < j < |dates| ==> dates[i] != dates[j]
    ensures AlignByDate(dates, dates, forecastV2) == Points(forecastV2)
  {
    forall i | 0 <= i < |dates|
      ensures IndexOf(dates, dates[i]) == i
    {
      var k := IndexOf(dates, dates[i]);
      StrictEqualsOnPrimitives(dates[i], dates[i]);
      if k != i {
        StrictEqualsOnPrimitives(dates[k], dates[i]);
      }
    }
  }
}
