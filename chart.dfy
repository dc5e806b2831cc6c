/**
 * Chart configurations for the frontend: the three chart builders, the
 * conversion to a Plotly figure, the generic chart tool with its column
 * defaults, and the two-region comparison and trend tools.
 */
module Chart {
  import opened Wrappers
  import opened Strings
  import opened Sorting
  import opened JsonValue

  // ---------------------------------------------------------------- configurations

  /** `ChartConfig`: the chart type, its records, layout options, title and column mappings. */
  datatype ChartConfig = ChartConfig(
    kind: string,
    data: seq<Record>,
    layout: Record,
    title: string,
    xColumn: Option<string>,
    yColumn: Option<string>,
    namesColumn: Option<string>,
    valuesColumn: Option<string>)

  /** `{"title": name}`, an axis title. */
  function AxisTitle(name: string): Json {
    JObj(map["title" := JStr(name)])
  }

  /** `create_bar_chart`: both axes titled by their columns, grouped bars. */
  function CreateBarChart(data: seq<Record>, x: string, y: string, title: string): (c: ChartConfig)
    ensures c.kind == "bar" && c.data == data && c.title == title
    ensures c.xColumn == Some(x) && c.yColumn == Some(y) && c.namesColumn == None && c.valuesColumn == None
    ensures c.layout.Keys == {"xaxis", "yaxis", "barmode"} && c.layout["barmode"] == JStr("group")
    ensures c.layout["xaxis"] == AxisTitle(x) && c.layout["yaxis"] == AxisTitle(y)
  {
    ChartConfig("bar", data,
      map["xaxis" := AxisTitle(x), "yaxis" := AxisTitle(y), "barmode" := JStr("group")],
      title, Some(x), Some(y), None, None)
  }

  /** `create_pie_chart`: a legend shown horizontally below the pie. */
  function CreatePieChart(data: seq<Record>, names: string, values: string, title: string): (c: ChartConfig)
    ensures c.kind == "pie" && c.data == data && c.title == title
    ensures c.xColumn == None && c.yColumn == None && c.namesColumn == Some(names) && c.valuesColumn == Some(values)
    ensures c.layout.Keys == {"showlegend", "legend"} && c.layout["showlegend"] == JBool(true)
    ensures c.layout["legend"] == JObj(map["orientation" := JStr("h"), "y" := JNum(-0.1)])
  {
    ChartConfig("pie", data,
      map["showlegend" := JBool(true), "legend" := JObj(map["orientation" := JStr("h"), "y" := JNum(-0.1)])],
      title, None, None, Some(names), Some(values))
  }

  /** `create_line_chart`: both axes titled by their columns, one hover label per x value. */
  function CreateLineChart(data: seq<Record>, x: string, y: string, title: string): (c: ChartConfig)
    ensures c.kind == "line" && c.data == data && c.title == title
    ensures c.xColumn == Some(x) && c.yColumn == Some(y) && c.namesColumn == None && c.valuesColumn == None
    ensures c.layout.Keys == {"xaxis", "yaxis", "hovermode"} && c.layout["hovermode"] == JStr("x unified")
    ensures c.layout["xaxis"] == AxisTitle(x) && c.layout["yaxis"] == AxisTitle(y)
  {
    ChartConfig("line", data,
      map["xaxis" := AxisTitle(x), "yaxis" := AxisTitle(y), "hovermode" := JStr("x unified")],
      title, Some(x), Some(y), None, None)
  }

  // ---------------------------------------------------------------- the Plotly figure

  /** `d.get(column, default)`; a column that is `None` is never a key of a record. */
  function Column(d: Record, column: Option<string>, default: Json): Json {
    match column
    case None => default
    case Some(c) => Get(d, c, default)
  }

  /** `[d.get(column, default) for d in data]` */
  function ColumnValues(data: seq<Record>, column: Option<string>, default: Json): seq<Json> {
    seq(|data|, i requires 0 <= i < |data| => Column(data[i], column, default))
  }

  /** The one trace of a bar, pie or line chart; any other type has none. */
  function Traces(c: ChartConfig): seq<Record> {
    if c.kind == "bar" then
      [map["type" := JStr("bar"),
           "x" := JArr(ColumnValues(c.data, c.xColumn, JStr(""))),
           "y" := JArr(ColumnValues(c.data, c.yColumn, JNum(0.0))),
           "marker" := JObj(map["color" := JStr("#3b82f6"), "opacity" := JNum(0.8)])]]
    else if c.kind == "pie" then
      [map["type" := JStr("pie"),
           "labels" := JArr(ColumnValues(c.data, c.namesColumn, JStr(""))),
           "values" := JArr(ColumnValues(c.data, c.valuesColumn, JNum(0.0))),
           "textinfo" := JStr("label+percent"),
           "hole" := JNum(0.4)]]
    else if c.kind == "line" then
      [map["type" := JStr("scatter"),
           "mode" := JStr("lines+markers"),
           "x" := JArr(ColumnValues(c.data, c.xColumn, JStr(""))),
           "y" := JArr(ColumnValues(c.data, c.yColumn, JNum(0.0))),
           "line" := JObj(map["color" := JStr("#10b981"), "width" := JNum(2.0)]),
           "marker" := JObj(map["size" := JNum(8.0)])]]
    else []
  }

  function TracesJson(traces: seq<Record>): Json {
    JArr(seq(|traces|, i requires 0 <= i < |traces| => JObj(traces[i])))
  }

  /** `{"title": title, **layout}`: an explicit title among the layout options wins. */
  function FigureLayout(c: ChartConfig): Record {
    map["title" := JStr(c.title)] + c.layout
  }

  /** `chart_config_to_plotly_json` */
  function PlotlyJson(c: ChartConfig): Record {
    map["data" := TracesJson(Traces(c)), "layout" := JObj(FigureLayout(c))]
  }

  /** The figure's layout holds every layout option unchanged, and the title unless an option overrides it. */
  lemma FigureLayoutSpec(c: ChartConfig)
    ensures FigureLayout(c).Keys == c.layout.Keys + {"title"}
    ensures forall k | k in c.layout :: FigureLayout(c)[k] == c.layout[k]
    ensures "title" !in c.layout ==> FigureLayout(c)["title"] == JStr(c.title)
  {
  }

  /**
   * A figure has one trace exactly for the three known types. Its two data
   * lists hold one entry per record, in record order: the record's value in
   * the mapped column, or "" for labels and 0 for values when the record
   * lacks the column or no column is mapped.
   */
  lemma TracesSpec(c: ChartConfig)
    ensures |Traces(c)| == (if c.kind in {"bar", "pie", "line"} then 1 else 0)
    ensures c.kind in {"bar", "line"} ==>
      var t := Traces(c)[0];
      && |t["x"].items| == |t["y"].items| == |c.data|
      && (forall i | 0 <= i < |c.data| ::
            && t["x"].items[i] == (if c.xColumn.Some? && c.xColumn.value in c.data[i] then c.data[i][c.xColumn.value] else JStr(""))
            && t["y"].items[i] == (if c.yColumn.Some? && c.yColumn.value in c.data[i] then c.data[i][c.yColumn.value] else JNum(0.0)))
    ensures c.kind == "pie" ==>
      var t := Traces(c)[0];
      && |t["labels"].items| == |t["values"].items| == |c.data|
      && (forall i | 0 <= i < |c.data| ::
            && t["labels"].items[i] == (if c.namesColumn.Some? && c.namesColumn.value in c.data[i] then c.data[i][c.namesColumn.value] else JStr(""))
            && t["values"].items[i] == (if c.valuesColumn.Some? && c.valuesColumn.value in c.data[i] then c.data[i][c.valuesColumn.value] else JNum(0.0)))
  {
  }

  // ---------------------------------------------------------------- the chart tool

  /** `column or default`: a missing or empty column name falls back to the default. */
  function Or(column: Option<string>, default: string): string {
    if column.Some? && column.value != "" then column.value else default
  }

  predicate Given(column: Option<string>) {
    column.Some? && column.value != ""
  }

  /** What `generate_chart` returns: the configuration and its Plotly figure. */
  datatype ChartOutput = ChartOutput(chart: ChartConfig, plotlyJson: Record)

  /** `generate_chart`: a pie, a line, or (for every other type) a bar chart, with default columns. */
  function GenerateChart(
    chartType: string, data: seq<Record>, title: string,
    x: Option<string>, y: Option<string>, names: Option<string>, values: Option<string>): ChartOutput
  {
    var config :=
      if chartType == "pie" then
        var autodetect := (!Given(names) || !Given(values)) && data != [];
        var names' := if autodetect then Some(Or(names, "region")) else names;
        var values' := if autodetect then Some(Or(values, "value")) else values;
        CreatePieChart(data, Or(names', "name"), Or(values', "value"), title)
      else if chartType == "line" then CreateLineChart(data, Or(x, "year"), Or(y, "value"), title)
      else CreateBarChart(data, Or(x, "region"), Or(y, "value"), title);
    ChartOutput(config, PlotlyJson(config))
  }

  /**
   * The columns the chart tool settles on. A pie chart of records without
   * a names column labels its slices by region, and by name only when there
   * are no records; a line chart defaults to year against value, every other
   * type is a bar chart of value by region. A given, non-empty column is
   * always kept.
   */
  lemma GenerateChartColumns(
    chartType: string, data: seq<Record>, title: string,
    x: Option<string>, y: Option<string>, names: Option<string>, values: Option<string>)
    ensures var out := GenerateChart(chartType, data, title, x, y, names, values);
      && out.plotlyJson == PlotlyJson(out.chart)
      && out.chart.data == data && out.chart.title == title
      && (chartType == "pie" ==>
            && out.chart.kind == "pie"
            && out.chart.namesColumn == Some(if Given(names) then names.value else if data != [] then "region" else "name")
            && out.chart.valuesColumn == Some(if Given(values) then values.value else "value"))
      && (chartType == "line" ==>
            && out.chart.kind == "line"
            && out.chart.xColumn == Some(if Given(x) then x.value else "year")
            && out.chart.yColumn == Some(if Given(y) then y.value else "value"))
      && (chartType != "pie" && chartType != "line" ==>
            && out.chart.kind == "bar"
            && out.chart.xColumn == Some(if Given(x) then x.value else "region")
            && out.chart.yColumn == Some(if Given(y) then y.value else "value"))
  {
  }

  // ---------------------------------------------------------------- the comparison tool

  /** `f"{year}年{indicator}对比: {region_a} vs {region_b}"` */
  function ComparisonTitle(year: int, indicator: string, a: string, b: string): string {
    IntToString(year) + "年" + indicator + "对比: " + a + " vs " + b
  }

  /** `record.get("region") in [region_a, region_b]`: a record without a region never matches. */
  predicate InComparison(r: Record, a: string, b: string) {
    "region" in r && (r["region"] == JStr(a) || r["region"] == JStr(b))
  }

  /** The region, value and indicator of a kept record, with "", 0 and "" for missing fields. */
  function ComparisonRow(r: Record): Record {
    map["region" := Get(r, "region", JStr("")),
        "value" := Get(r, "value", JNum(0.0)),
        "indicator" := Get(r, "indicator", JStr(""))]
  }

  /** The projected records of the two regions, in input order. */
  function ComparisonRows(data: seq<Record>, a: string, b: string): seq<Record> {
    if data == [] then []
    else
      var last := data[|data| - 1];
      ComparisonRows(data[..|data| - 1], a, b) + (if InComparison(last, a, b) then [ComparisonRow(last)] else [])
  }

  /** Rows are kept in input order: the rows of a concatenation are the rows of its parts. */
  lemma {:induction false} ComparisonRowsConcat(d1: seq<Record>, d2: seq<Record>, a: string, b: string)
    ensures ComparisonRows(d1 + d2, a, b) == ComparisonRows(d1, a, b) + ComparisonRows(d2, a, b)
    decreases |d2|
  {
    if d2 == [] {
      assert d1 + d2 == d1;
    } else {
      var init := d2[..|d2| - 1];
      assert (d1 + d2)[..|d1 + d2| - 1] == d1 + init;
      ComparisonRowsConcat(d1, init, a, b);
    }
  }

  /** A row is in the chart exactly when it projects a record of one of the two regions. */
  lemma {:induction false} ComparisonRowsMembers(data: seq<Record>, a: string, b: string, row: Record)
    ensures row in ComparisonRows(data, a, b)
        <==> exists i | 0 <= i < |data| :: InComparison(data[i], a, b) && row == ComparisonRow(data[i])
  {
    if data != [] {
      var init := data[..|data| - 1];
      ComparisonRowsMembers(init, a, b, row);
      if row in ComparisonRows(init, a, b) {
        var i :| 0 <= i < |init| && InComparison(init[i], a, b) && row == ComparisonRow(init[i]);
        assert data[i] == init[i];
      }
      if exists i | 0 <= i < |data| :: InComparison(data[i], a, b) && row == ComparisonRow(data[i]) {
        var i :| 0 <= i < |data| && InComparison(data[i], a, b) && row == ComparisonRow(data[i]);
        if i < |init| {
          assert init[i] == data[i];
        }
      }
    }
  }

  /** `generate_regional_comparison_chart` as a value: a bar chart of value by region over the kept rows. */
  function ComparisonChart(a: string, b: string, indicator: string, year: int, data: seq<Record>): ChartOutput {
    GenerateChart("bar", ComparisonRows(data, a, b), ComparisonTitle(year, indicator, a, b),
                  Some("region"), Some("value"), None, None)
  }

  /** Every bar of the comparison is one of the two regions. */
  lemma ComparisonBars(a: string, b: string, indicator: string, year: int, data: seq<Record>)
    ensures var out := ComparisonChart(a, b, indicator, year, data);
      && out.chart.kind == "bar" && out.chart.xColumn == Some("region") && out.chart.yColumn == Some("value")
      && forall r | r in out.chart.data :: "region" in r && (r["region"] == JStr(a) || r["region"] == JStr(b))
  {
    var rows := ComparisonRows(data, a, b);
    forall r | r in rows ensures "region" in r && (r["region"] == JStr(a) || r["region"] == JStr(b)) {
      ComparisonRowsMembers(data, a, b, r);
    }
  }

  /** `generate_regional_comparison_chart`: the filtering loop, then the bar chart. */
  method GenerateRegionalComparisonChart(a: string, b: string, indicator: string, year: int, data: seq<Record>)
    returns (out: ChartOutput)
    ensures out == ComparisonChart(a, b, indicator, year, data)
  {
    var title := ComparisonTitle(year, indicator, a, b);
    var chartData: seq<Record> := [];
    var i := 0;
    while i < |data|
      invariant 0 <= i <= |data|
      invariant chartData == ComparisonRows(data[..i], a, b)
    {
      var record := data[i];
      assert data[..i + 1][..i] == data[..i];
      if "region" in record && (record["region"] == JStr(a) || record["region"] == JStr(b)) {
        chartData := chartData + [ComparisonRow(record)];
      }
      i := i + 1;
    }
    assert data[..|data|] == data;
    out := GenerateChart("bar", chartData, title, Some("region"), Some("value"), None, None);
  }

  // ---------------------------------------------------------------- the trend tool

  /** `f"{region}{indicator}趋势 ({start_year}-{end_year})"` */
  function TrendTitle(region: string, indicator: string, start: int, end: int): string {
    region + indicator + "趋势 (" + IntToString(start) + "-" + IntToString(end) + ")"
  }

  /** Comparing a year with the bounds raises `TypeError` unless it is a number (a boolean counts as 0 or 1). */
  datatype ChartError = YearNotComparable(year: Json)

  function YearNumber(year: Json): Option<real> {
    match year
    case JNum(n) => Some(n)
    case JBool(b) => Some(if b then 1.0 else 0.0)
    case _ => None
  }

  /** `record.get("region") == region and record.get("indicator") == indicator` */
  predicate InTrend(r: Record, region: string, indicator: string) {
    "region" in r && r["region"] == JStr(region) && "indicator" in r && r["indicator"] == JStr(indicator)
  }

  /** `record.get("year", 0)` */
  function YearOf(r: Record): Json {
    Get(r, "year", JNum(0.0))
  }

  /** The year and value of a kept record. */
  function TrendRow(r: Record): Record {
    map["year" := YearOf(r), "value" := Get(r, "value", JNum(0.0))]
  }

  /** One record of the filtering loop: skipped, kept, or the error its year raises. */
  function TrendStep(r: Record, region: string, indicator: string, start: int, end: int): Result<seq<Record>, ChartError> {
    if !InTrend(r, region, indicator) then Success([])
    else match YearNumber(YearOf(r))
      case None => Failure(YearNotComparable(YearOf(r)))
      case Some(y) => Success(if start as real <= y <= end as real then [TrendRow(r)] else [])
  }

  /** The filtering loop over the records in order; the first failing record stops it. */
  function TrendRows(data: seq<Record>, region: string, indicator: string, start: int, end: int)
    : Result<seq<Record>, ChartError>
  {
    if data == [] then Success([])
    else match TrendRows(data[..|data| - 1], region, indicator, start, end)
      case Failure(e) => Failure(e)
      case Success(rows) =>
        match TrendStep(data[|data| - 1], region, indicator, start, end)
        case Failure(e) => Failure(e)
        case Success(more) => Success(rows + more)
  }

  /** The filter fails exactly when some record of the region and indicator has a year that is not a number. */
  lemma {:induction false} TrendRowsFails(data: seq<Record>, region: string, indicator: string, start: int, end: int)
    ensures TrendRows(data, region, indicator, start, end).Failure?
        <==> exists i | 0 <= i < |data| :: InTrend(data[i], region, indicator) && YearNumber(YearOf(data[i])).None?
  {
    if data != [] {
      var init := data[..|data| - 1];
      TrendRowsFails(init, region, indicator, start, end);
      if exists i | 0 <= i < |init| :: InTrend(init[i], region, indicator) && YearNumber(YearOf(init[i])).None? {
        var i :| 0 <= i < |init| && InTrend(init[i], region, indicator) && YearNumber(YearOf(init[i])).None?;
        assert data[i] == init[i];
      }
      if exists i | 0 <= i < |data| :: InTrend(data[i], region, indicator) && YearNumber(YearOf(data[i])).None? {
        var i :| 0 <= i < |data| && InTrend(data[i], region, indicator) && YearNumber(YearOf(data[i])).None?;
        if i < |init| {
          assert init[i] == data[i];
        }
      }
    }
  }

  /** `row` is what the filter keeps of record `r`: a record of the region and indicator whose year lies within the bounds. */
  predicate KeptAs(r: Record, row: Record, region: string, indicator: string, start: int, end: int) {
    && InTrend(r, region, indicator) && row == TrendRow(r)
    && YearNumber(YearOf(r)).Some? && start as real <= YearNumber(YearOf(r)).value <= end as real
  }

  /** On success, a row is kept exactly for each record of the region and indicator whose year lies within the bounds. */
  lemma {:induction false} TrendRowsMembers(data: seq<Record>, region: string, indicator: string, start: int, end: int, row: Record)
    requires TrendRows(data, region, indicator, start, end).Success?
    ensures row in TrendRows(data, region, indicator, start, end).value
        <==> exists i | 0 <= i < |data| :: KeptAs(data[i], row, region, indicator, start, end)
  {
    if data != [] {
      var init := data[..|data| - 1];
      TrendRowsMembers(init, region, indicator, start, end, row);
      if row in TrendRows(init, region, indicator, start, end).value {
        var i :| 0 <= i < |init| && KeptAs(init[i], row, region, indicator, start, end);
        assert data[i] == init[i];
      }
      if exists i | 0 <= i < |data| :: KeptAs(data[i], row, region, indicator, start, end) {
        var i :| 0 <= i < |data| && KeptAs(data[i], row, region, indicator, start, end);
        if i < |init| {
          assert init[i] == data[i];
        }
      }
    }
  }

  /** The sort key `x["year"]`: the numeric year of a kept row. */
  function YearKey(row: Record): real {
    match YearNumber(YearOf(row))
    case Some(y) => y
    case None => 0.0
  }

  /** `generate_trend_line_chart` as a value: the kept rows sorted by year, as a line chart of value by year. */
  function TrendChart(region: string, indicator: string, start: int, end: int, data: seq<Record>)
    : Result<ChartOutput, ChartError>
  {
    match TrendRows(data, region, indicator, start, end)
    case Failure(e) => Failure(e)
    case Success(rows) =>
      Success(GenerateChart("line", SortBy(rows, YearKey), TrendTitle(region, indicator, start, end),
                            Some("year"), Some("value"), None, None))
  }

  /**
   * The trend chart plots the kept rows, each once, by non-decreasing year,
   * rows of the same year in input order.
   */
  lemma TrendChartSorted(region: string, indicator: string, start: int, end: int, data: seq<Record>)
    requires TrendRows(data, region, indicator, start, end).Success?
    ensures var rows := TrendRows(data, region, indicator, start, end).value;
      var plotted := TrendChart(region, indicator, start, end, data).value.chart.data;
      && multiset(plotted) == multiset(rows)
      && Ascending(plotted, YearKey)
      && forall y :: WithKey(plotted, YearKey, y) == WithKey(rows, YearKey, y)
  {
    var rows := TrendRows(data, region, indicator, start, end).value;
    SortByPermutation(rows, YearKey);
    SortByAscending(rows, YearKey);
    forall y ensures WithKey(SortBy(rows, YearKey), YearKey, y) == WithKey(rows, YearKey, y) {
      SortByStable(rows, YearKey, y);
    }
  }

  /** `generate_trend_line_chart`: the filtering loop, `chart_data.sort(key=...)` in place, then the line chart. */
  method GenerateTrendLineChart(region: string, indicator: string, start: int, end: int, data: seq<Record>)
    returns (out: Result<ChartOutput, ChartError>)
    ensures out == TrendChart(region, indicator, start, end, data)
  {
    var title := TrendTitle(region, indicator, start, end);
    var chartData: seq<Record> := [];
    var i := 0;
    while i < |data|
      invariant 0 <= i <= |data|
      invariant TrendRows(data[..i], region, indicator, start, end) == Success(chartData)
    {
      TrendRowsSnoc(data, i, region, indicator, start, end);
      var step := TrendRecord(data[i], region, indicator, start, end);
      match step {
        case Failure(e) =>
          TrendRowsPrefixFails(data, i + 1, region, indicator, start, end);
          return Failure(e);
        case Success(more) =>
          chartData := chartData + more;
      }
      i := i + 1;
    }
    assert data[..|data|] == data;
    var a := new Record[|chartData|](k requires 0 <= k < |chartData| => chartData[k]);
    assert a[..] == chartData;
    SortInPlace(a, YearKey);
    out := Success(GenerateChart("line", a[..], title, Some("year"), Some("value"), None, None));
  }

  /** The body of the filtering loop for one record: skip it, keep its year and value, or raise on its year. */
  method TrendRecord(record: Record, region: string, indicator: string, start: int, end: int)
    returns (step: Result<seq<Record>, ChartError>)
    ensures step == TrendStep(record, region, indicator, start, end)
  {
    if "region" in record && record["region"] == JStr(region) && "indicator" in record && record["indicator"] == JStr(indicator) {
      var year := if "year" in record then record["year"] else JNum(0.0);
      var y: real;
      match year {
        case JNum(n) => y := n;
        case JBool(b) => y := if b then 1.0 else 0.0;
        case _ => return Failure(YearNotComparable(year));
      }
      if start as real <= y <= end as real {
        return Success([map["year" := year, "value" := if "value" in record then record["value"] else JNum(0.0)]]);
      }
    }
    return Success([]);
  }

  /** One more record of the filtering loop. */
  lemma TrendRowsSnoc(data: seq<Record>, i: nat, region: string, indicator: string, start: int, end: int)
    requires i < |data|
    ensures TrendRows(data[..i + 1], region, indicator, start, end) ==
      match TrendRows(data[..i], region, indicator, start, end)
      case Failure(e) => Failure(e)
      case Success(rows) =>
        match TrendStep(data[i], region, indicator, start, end)
        case Failure(e) => Failure(e)
        case Success(more) => Success(rows + more)
  {
    assert data[..i + 1][..i] == data[..i];
  }

  /** Once a prefix of the records fails, the whole filter fails with the same error. */
  lemma {:induction false} TrendRowsPrefixFails(data: seq<Record>, n: nat, region: string, indicator: string, start: int, end: int)
    requires n <= |data| && TrendRows(data[..n], region, indicator, start, end).Failure?
    ensures TrendRows(data, region, indicator, start, end) == TrendRows(data[..n], region, indicator, start, end)
    decreases |data| - n
  {
    if n < |data| {
      assert data[..n + 1][..n] == data[..n];
      TrendRowsPrefixFails(data, n + 1, region, indicator, start, end);
    } else {
      assert data[..n] == data;
    }
  }
}
