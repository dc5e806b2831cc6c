/**
 * The analysis workflow: a two-branch state machine over a shared context.
 * The single-region branch runs parse, fetch current, fetch previous, calc,
 * report; the multi-region branch runs parse, fetch multi, report. Report
 * generation by the language model is a pair of function parameters that
 * take the structured content of the prompt.
 */
module Workflow {
  import opened Wrappers
  import opened Strings
  import opened Sorting
  import opened JsonValue
  import opened Parse
  import opened Dataset
  import opened Tools

  // ---------------------------------------------------------------- the graph

  /** The graph's nodes, and the end marker. */
  datatype Stage =
    | Parsing
    | FetchingCurrent
    | FetchingPrevious
    | Calculating
    | ReportingSingle
    | FetchingMulti
    | ReportingMulti
    | Done

  /** `should_continue`: the conditional edge after parsing. */
  function ShouldContinue(p: ParsedQuery): (s: Stage)
    ensures s == FetchingMulti <==> p.isMultiRegion
    ensures s == FetchingCurrent <==> !p.isMultiRegion
  {
    if p.isMultiRegion then FetchingMulti else FetchingCurrent
  }

  /** The edges of `build_graph`. */
  function Next(s: Stage, p: ParsedQuery): Stage {
    match s
    case Parsing => ShouldContinue(p)
    case FetchingCurrent => FetchingPrevious
    case FetchingPrevious => Calculating
    case Calculating => ReportingSingle
    case ReportingSingle => Done
    case FetchingMulti => ReportingMulti
    case ReportingMulti => Done
    case Done => Done
  }

  /** The number of nodes left before the end; every edge lowers it. */
  function StepsLeft(s: Stage): nat {
    match s
    case Parsing => 5
    case FetchingCurrent => 4
    case FetchingPrevious => 3
    case Calculating => 2
    case ReportingSingle => 1
    case FetchingMulti => 2
    case ReportingMulti => 1
    case Done => 0
  }

  /** The nodes visited from `s` to the end. */
  function Walk(s: Stage, p: ParsedQuery): seq<Stage>
    decreases StepsLeft(s)
  {
    if s == Done then [] else [s] + Walk(Next(s, p), p)
  }

  const SinglePath: seq<Stage> := [Parsing, FetchingCurrent, FetchingPrevious, Calculating, ReportingSingle]
  const MultiPath: seq<Stage> := [Parsing, FetchingMulti, ReportingMulti]

  /** The graph has exactly two runs, chosen by the multi-region flag of the parsed query. */
  lemma GraphPaths(p: ParsedQuery)
    ensures Walk(Parsing, p) == if p.isMultiRegion then MultiPath else SinglePath
  {
  }

  // ---------------------------------------------------------------- growth trend and ranking

  /** The trend label of a growth rate, with strict thresholds at 5%, 0 and -5%. */
  function GrowthTrend(g: real): string {
    if g > 0.05 then "快速增长"
    else if g > 0.0 then "稳步增长"
    else if g > -0.05 then "基本持平"
    else "明显下滑"
  }

  /** The labels ordered from decline to fast growth. */
  function TrendLevel(t: string): nat {
    if t == "快速增长" then 3 else if t == "稳步增长" then 2 else if t == "基本持平" then 1 else 0
  }

  /** A higher growth rate never gets a lower label. */
  lemma GrowthTrendMonotone(g1: real, g2: real)
    requires g1 <= g2
    ensures TrendLevel(GrowthTrend(g1)) <= TrendLevel(GrowthTrend(g2))
  {
  }

  /** The boundaries are exclusive on the high side: 0.05 is steady growth, 0 is flat, -0.05 is decline. */
  lemma GrowthTrendBoundaries()
    ensures GrowthTrend(0.06) == "快速增长" && GrowthTrend(0.05) == "稳步增长"
    ensures GrowthTrend(0.0) == "基本持平" && GrowthTrend(-0.04) == "基本持平"
    ensures GrowthTrend(-0.05) == "明显下滑"
  {
  }

  /**
   * The labels in terms of the two values on a positive base: fast growth
   * above 105% of the previous value, steady growth above it up to 105%,
   * flat above 95% up to equality, decline at 95% or below.
   */
  lemma GrowthTrendOfValues(current: real, previous: real)
    requires previous > 0.0
    ensures var g := GrowthRate(current, previous).value;
      && (GrowthTrend(g) == "快速增长" <==> current > 1.05 * previous)
      && (GrowthTrend(g) == "稳步增长" <==> previous < current <= 1.05 * previous)
      && (GrowthTrend(g) == "基本持平" <==> 0.95 * previous < current <= previous)
      && (GrowthTrend(g) == "明显下滑" <==> current <= 0.95 * previous)
  {
    var g := GrowthRate(current, previous).value;
    assert current == previous * (1.0 + g);
    ScaleStrict(previous, g, 0.05);
    ScaleStrict(previous, g, 0.0);
    ScaleStrict(previous, g, -0.05);
  }

  /** Multiplying by a positive base keeps a strict comparison in both directions. */
  lemma ScaleStrict(b: real, g: real, t: real)
    requires b > 0.0
    ensures g > t <==> b * g > b * t
  {
    if g > t {
      assert b * g - b * t == b * (g - t);
    } else {
      assert b * t - b * g == b * (t - g);
    }
  }

  /** One line of the ranking. */
  datatype RankEntry = RankEntry(rank: nat, region: string, value: real)

  /** Larger values first: `sorted(..., reverse=True)` as an ascending stable sort on the negated value. */
  function ValueDescending(p: DataPoint): real {
    -p.value
  }

  /** The fetched rows in ranking order. */
  function RankedRows(data: seq<DataPoint>): seq<DataPoint> {
    SortBy(data, ValueDescending)
  }

  /** The ranking: the rows by decreasing value, numbered from 1. */
  function Ranking(data: seq<DataPoint>): seq<RankEntry> {
    var sorted := RankedRows(data);
    seq(|sorted|, i requires 0 <= i < |sorted| => RankEntry(i + 1, sorted[i].region, sorted[i].value))
  }

  /**
   * The ranking lists every fetched row once, numbered 1..n, by
   * non-increasing value, with rows of equal value in retrieval order.
   */
  lemma RankingSpec(data: seq<DataPoint>)
    ensures multiset(RankedRows(data)) == multiset(data)
    ensures |Ranking(data)| == |data|
    ensures forall i | 0 <= i < |data| ::
      Ranking(data)[i] == RankEntry(i + 1, RankedRows(data)[i].region, RankedRows(data)[i].value)
    ensures forall i, j | 0 <= i < j < |data| :: Ranking(data)[i].value >= Ranking(data)[j].value
    ensures forall v :: WithKey(RankedRows(data), ValueDescending, v) == WithKey(data, ValueDescending, v)
  {
    SortByPermutation(data, ValueDescending);
    SortByAscending(data, ValueDescending);
    SortedLength(data, ValueDescending);
    forall v ensures WithKey(RankedRows(data), ValueDescending, v) == WithKey(data, ValueDescending, v) {
      SortByStable(data, ValueDescending, v);
    }
    var sorted := RankedRows(data);
    forall i, j | 0 <= i < j < |data|
      ensures Ranking(data)[i].value >= Ranking(data)[j].value
    {
      assert ValueDescending(sorted[i]) <= ValueDescending(sorted[j]);
    }
  }

  /** Values 100, 300 and 200 for A, B and C rank B first, then C, then A. */
  lemma RankingExample(a: DataPoint, b: DataPoint, c: DataPoint)
    requires a.region == "A" && a.value == 100.0
    requires b.region == "B" && b.value == 300.0
    requires c.region == "C" && c.value == 200.0
    ensures Ranking([a, b, c]) == [RankEntry(1, "B", 300.0), RankEntry(2, "C", 200.0), RankEntry(3, "A", 100.0)]
  {
    // The insertion sort, one element at a time: [a], then [b, a], then [b, c, a].
    assert [a, b, c][..2] == [a, b] && [a, b][..1] == [a] && [a][..0] == [];
    assert [a, b][1] == b && [a, b, c][2] == c && [b, a][..1] == [b];
    assert SortBy([a], ValueDescending) == Insert([], a, ValueDescending) == [a];
    assert SortBy([a, b], ValueDescending) == Insert([a], b, ValueDescending) == [b, a];
    assert Insert([b], c, ValueDescending) == [b, c];
    assert Insert([b, a], c, ValueDescending) == [b, c, a];
    assert RankedRows([a, b, c]) == [b, c, a];
  }

  /** `{"rank": ..., "region": ..., "value": ...}` */
  function RankEntryJson(e: RankEntry): Json {
    JObj(map["rank" := JNum(e.rank as real), "region" := JStr(e.region), "value" := JNum(e.value)])
  }

  function RankingJson(ranking: seq<RankEntry>): Json {
    JArr(seq(|ranking|, i requires 0 <= i < |ranking| => RankEntryJson(ranking[i])))
  }

  // ---------------------------------------------------------------- data summary

  /** Python's f-string rendering of an optional unit: `None` is written "None". */
  function UnitText(unit: Option<string>): string {
    match unit
    case Some(u) => u
    case None => "None"
  }

  /** `f"{region}: {value} {unit}"`, with `render` standing for Python's `str(float)`. */
  function SummaryEntry(p: DataPoint, render: real -> string): string {
    p.region + ": " + render(p.value) + " " + UnitText(p.unit)
  }

  function SummaryEntries(data: seq<DataPoint>, render: real -> string): seq<string> {
    seq(|data|, i requires 0 <= i < |data| => SummaryEntry(data[i], render))
  }

  /** The entries of the fetched rows joined by "；". */
  function DataSummary(data: seq<DataPoint>, render: real -> string): string {
    Join(SummaryEntries(data, render), "；")
  }

  /** The summary follows retrieval order: it splits at any row boundary into the summaries of the two parts. */
  lemma DataSummarySplit(data: seq<DataPoint>, render: real -> string, k: nat)
    requires 0 < k < |data|
    ensures DataSummary(data, render) == DataSummary(data[..k], render) + "；" + DataSummary(data[k..], render)
  {
    var parts := SummaryEntries(data, render);
    JoinSplit(parts, "；", k);
    assert parts[..k] == SummaryEntries(data[..k], render);
    assert parts[k..] == SummaryEntries(data[k..], render);
  }

  // ---------------------------------------------------------------- reports

  /** What the single-region prompt tells the model. */
  datatype SinglePrompt = SinglePrompt(
    region: string,
    indicator: string,
    yearCurrent: int,
    valueCurrent: real,
    unitCurrent: Option<string>,
    yearPrevious: int,
    valuePrevious: real,
    unitPrevious: Option<string>,
    growthRate: real,
    growthTrend: string)

  /** What the multi-region prompt tells the model. */
  datatype MultiPrompt = MultiPrompt(regions: seq<string>, indicator: string, year: int, dataSummary: string)

  /** The loaded dataset, the two structured-output model calls, and Python's float rendering. */
  datatype Env = Env(
    table: seq<DataPoint>,
    singleLlm: SinglePrompt -> Record,
    multiLlm: MultiPrompt -> Record,
    render: real -> string)

  /** The single-region report: the model's record, with an empty `short_board_analysis` when it has none. */
  function SingleReport(p: ParsedQuery, cur: DataPoint, prev: DataPoint, g: real, env: Env): (r: Record)
    requires |p.regions| > 0
    ensures "short_board_analysis" in r
    ensures var m := env.singleLlm(SinglePrompt(p.regions[0], p.indicator, p.yearCurrent, cur.value, cur.unit,
                                                p.yearPrevious, prev.value, prev.unit, g, GrowthTrend(g)));
      && (forall k | k in m :: k in r && r[k] == m[k])
      && r.Keys == m.Keys + {"short_board_analysis"}
      && ("short_board_analysis" in m ==> r == m)
      && ("short_board_analysis" !in m ==> r == m["short_board_analysis" := JArr([])])
  {
    var prompt := SinglePrompt(p.regions[0], p.indicator, p.yearCurrent, cur.value, cur.unit,
                               p.yearPrevious, prev.value, prev.unit, g, GrowthTrend(g));
    var report := env.singleLlm(prompt);
    if "short_board_analysis" in report then report else report["short_board_analysis" := JArr([])]
  }

  function StringsJson(xs: seq<string>): Json {
    JArr(seq(|xs|, i requires 0 <= i < |xs| => JStr(xs[i])))
  }

  /** The four fields the multi-region report always takes from the parsed query and the local ranking. */
  function OverwriteMulti(report: Record, p: ParsedQuery, ranking: seq<RankEntry>): Record {
    report["regions" := StringsJson(p.regions)]
          ["indicator" := JStr(p.indicator)]
          ["year" := JNum(p.yearCurrent as real)]
          ["ranking" := RankingJson(ranking)]
  }

  /** The multi-region report: the model's record with regions, indicator, year and ranking overwritten. */
  function MultiReport(p: ParsedQuery, multi: MultiRegionDataResponse, env: Env): Record {
    var summary := DataSummary(multi.data, env.render);
    var report := env.multiLlm(MultiPrompt(p.regions, p.indicator, p.yearCurrent, summary));
    OverwriteMulti(report, p, Ranking(multi.data))
  }

  /**
   * Whatever the model returns, the multi-region report carries the parsed
   * regions, indicator and current year and the local ranking; every other
   * field is the model's.
   */
  lemma MultiReportOverwrite(p: ParsedQuery, multi: MultiRegionDataResponse, env: Env)
    ensures var r := MultiReport(p, multi, env);
      && r["regions"] == StringsJson(p.regions)
      && r["indicator"] == JStr(p.indicator)
      && r["year"] == JNum(p.yearCurrent as real)
      && r["ranking"] == RankingJson(Ranking(multi.data))
    ensures var m := env.multiLlm(MultiPrompt(p.regions, p.indicator, p.yearCurrent, DataSummary(multi.data, env.render)));
      && MultiReport(p, multi, env).Keys == m.Keys + {"regions", "indicator", "year", "ranking"}
      && forall k | k in m && k !in {"regions", "indicator", "year", "ranking"} :: MultiReport(p, multi, env)[k] == m[k]
  {
  }

  /** Two model calls that differ in everything still give reports agreeing on the four overwritten fields. */
  lemma MultiReportIgnoresModel(p: ParsedQuery, multi: MultiRegionDataResponse, env1: Env, env2: Env)
    requires env1.table == env2.table && env1.render == env2.render
    ensures var r1, r2 := MultiReport(p, multi, env1), MultiReport(p, multi, env2);
      forall k | k in {"regions", "indicator", "year", "ranking"} :: k in r1 && k in r2 && r1[k] == r2[k]
  {
    MultiReportOverwrite(p, multi, env1);
    MultiReportOverwrite(p, multi, env2);
  }

  // ---------------------------------------------------------------- the node functions as a specification

  /** Why a run stops before its report. */
  datatype WorkflowError =
    | ParseFailed(parseError: ParseError)
    | NoRows             // `["data"][0]` on an empty fetch: Python's IndexError
    | GrowthFailed(growthError: GrowthError)

  function CurrentFetch(p: ParsedQuery, table: seq<DataPoint>): RegionalDataResponse
    requires |p.regions| > 0
  {
    GetRegionalData(table, p.regions[0], p.yearCurrent, [p.indicator])
  }

  function PreviousFetch(p: ParsedQuery, table: seq<DataPoint>): RegionalDataResponse
    requires |p.regions| > 0
  {
    GetRegionalData(table, p.regions[0], p.yearPrevious, [p.indicator])
  }

  function MultiFetch(p: ParsedQuery, table: seq<DataPoint>): MultiRegionDataResponse {
    GetMultiRegionData(table, p.regions, p.yearCurrent, [p.indicator])
  }

  /** `calc`: the growth between the first rows of the two fetches; an empty fetch is an error, never a zero. */
  function Calc(cur: RegionalDataResponse, prev: RegionalDataResponse): (r: Result<GrowthRateResponse, WorkflowError>)
    ensures r == Failure(NoRows) <==> cur.data == [] || prev.data == []
    ensures r.Success? ==> prev.data[0].value * (1.0 + r.value.growthRate) == cur.data[0].value
    ensures (r.Failure? && r.error.GrowthFailed?) <==> cur.data != [] && prev.data != [] && prev.data[0].value == 0.0
  {
    if cur.data == [] || prev.data == [] then Failure(NoRows)
    else match CalculateGrowthRate(cur.data[0].value, prev.data[0].value)
      case Success(g) => Success(g)
      case Failure(e) => Failure(GrowthFailed(e))
  }

  /** The whole run: the report of the branch the parsed query selects, or the error that stopped it. */
  function Answer(question: string, env: Env): Result<Record, WorkflowError> {
    match ParseWithDataset(question, env.table)
    case Failure(e) => Failure(ParseFailed(e))
    case Success(p) =>
      if p.isMultiRegion then Success(MultiReport(p, MultiFetch(p, env.table), env))
      else
        var cur := CurrentFetch(p, env.table);
        var prev := PreviousFetch(p, env.table);
        match Calc(cur, prev)
        case Failure(e) => Failure(e)
        case Success(g) => Success(SingleReport(p, cur.data[0], prev.data[0], g.growthRate, env))
  }

  /** The single-region branch fetches one region in two years; the multi-region branch all regions in the current year. */
  lemma FetchesOfBranches(question: string, env: Env)
    requires ParseWithDataset(question, env.table).Success?
    ensures var p := ParseWithDataset(question, env.table).value;
      && |p.regions| > 0
      && (!p.isMultiRegion ==>
            |p.regions| == 1
            && CurrentFetch(p, env.table) == GetRegionalData(env.table, p.regions[0], p.yearCurrent, [p.indicator])
            && PreviousFetch(p, env.table) == GetRegionalData(env.table, p.regions[0], p.yearPrevious, [p.indicator]))
      && (p.isMultiRegion ==>
            MultiFetch(p, env.table).regions == p.regions
            && MultiFetch(p, env.table).year == p.yearCurrent
            && MultiFetch(p, env.table).indicator == p.indicator)
  {
  }

  // ---------------------------------------------------------------- the shared context

  /** The context entries: the parsed query, the fetched responses and the growth. */
  datatype Snapshot = Snapshot(
    parsed: Option<ParsedQuery>,
    current: Option<RegionalDataResponse>,
    previous: Option<RegionalDataResponse>,
    growth: Option<GrowthRateResponse>,
    multiData: Option<MultiRegionDataResponse>)

  const EmptyContext := Snapshot(None, None, None, None, None)

  /** `state["context"]`, which the nodes update in place. */
  class Context {
    var parsed: Option<ParsedQuery>
    var current: Option<RegionalDataResponse>
    var previous: Option<RegionalDataResponse>
    var growth: Option<GrowthRateResponse>
    var multiData: Option<MultiRegionDataResponse>

    function Snap(): Snapshot
      reads this
    {
      Snapshot(parsed, current, previous, growth, multiData)
    }

    constructor ()
      ensures Snap() == EmptyContext
    {
      parsed, current, previous, growth, multiData := None, None, None, None, None;
    }

    /** `parse_node`: a fresh context holding only the parsed query; on the parser's error the context is untouched. */
    method ParseNode(question: string, table: seq<DataPoint>) returns (r: Result<ParsedQuery, ParseError>)
      modifies this
      ensures r == ParseWithDataset(question, table)
      ensures r.Success? ==> Snap() == EmptyContext.(parsed := Some(r.value))
      ensures r.Failure? ==> Snap() == old(Snap())
    {
      r := ParseQuery(question, table);
      StoreParsed(r);
    }

    /** `return {"context": {"parsed": ...}}`: the parsed query replaces the whole context. */
    method StoreParsed(r: Result<ParsedQuery, ParseError>)
      modifies this
      ensures r.Success? ==> Snap() == EmptyContext.(parsed := Some(r.value))
      ensures r.Failure? ==> Snap() == old(Snap())
    {
      if r.Success? {
        parsed, current, previous, growth, multiData := Some(r.value), None, None, None, None;
      }
    }

    /** `fetch_current_node`: the first region's rows in the current year. */
    method FetchCurrentNode(table: seq<DataPoint>)
      requires parsed.Some? && |parsed.value.regions| > 0
      modifies this
      ensures Snap() == old(Snap()).(current := Some(CurrentFetch(old(parsed).value, table)))
    {
      var p := parsed.value;
      current := Some(GetRegionalData(table, p.regions[0], p.yearCurrent, [p.indicator]));
    }

    /** `fetch_prev_node`: the same region's rows in the previous year. */
    method FetchPreviousNode(table: seq<DataPoint>)
      requires parsed.Some? && |parsed.value.regions| > 0
      modifies this
      ensures Snap() == old(Snap()).(previous := Some(PreviousFetch(old(parsed).value, table)))
    {
      var p := parsed.value;
      previous := Some(GetRegionalData(table, p.regions[0], p.yearPrevious, [p.indicator]));
    }

    /** `calc_node`: the growth between the first rows of the two fetches. */
    method CalcNode() returns (err: Option<WorkflowError>)
      requires current.Some? && previous.Some?
      modifies this
      ensures var c := Calc(old(current).value, old(previous).value);
        && (c.Failure? ==> err == Some(c.error) && Snap() == old(Snap()))
        && (c.Success? ==> err == None && Snap() == old(Snap()).(growth := Some(c.value)))
    {
      if current.value.data == [] || previous.value.data == [] {
        return Some(NoRows);
      }
      var cur := current.value.data[0];
      var prev := previous.value.data[0];
      var g := CalculateGrowthRate(cur.value, prev.value);
      if g.Failure? {
        return Some(GrowthFailed(g.error));
      }
      growth := Some(g.value);
      return None;
    }

    /** `fetch_multi_node`: every parsed region's rows in the current year. */
    method FetchMultiNode(table: seq<DataPoint>)
      requires parsed.Some?
      modifies this
      ensures Snap() == old(Snap()).(multiData := Some(MultiFetch(old(parsed).value, table)))
    {
      var p := parsed.value;
      multiData := Some(GetMultiRegionData(table, p.regions, p.yearCurrent, [p.indicator]));
    }

    /** `report_single_node`: the trend label, the model's report, the default analysis list. */
    method ReportSingleNode(env: Env) returns (report: Record)
      requires parsed.Some? && |parsed.value.regions| > 0 && growth.Some?
      requires current.Some? && current.value.data != [] && previous.Some? && previous.value.data != []
      ensures report == SingleReport(parsed.value, current.value.data[0], previous.value.data[0], growth.value.growthRate, env)
    {
      var p := parsed.value;
      var cur := current.value.data[0];
      var prev := previous.value.data[0];
      var g := growth.value.growthRate;
      var trend := GrowthTrend(g);
      var prompt := SinglePrompt(p.regions[0], p.indicator, p.yearCurrent, cur.value, cur.unit,
                                 p.yearPrevious, prev.value, prev.unit, g, trend);
      report := env.singleLlm(prompt);
      if "short_board_analysis" !in report {
        report := report["short_board_analysis" := JArr([])];
      }
    }

    /** `report_multi_node`: summary, ranking, the model's report, then the four overwritten fields. */
    method ReportMultiNode(env: Env) returns (report: Record)
      requires parsed.Some? && multiData.Some?
      ensures report == MultiReport(parsed.value, multiData.value, env)
    {
      var p := parsed.value;
      var data := multiData.value.data;
      var summary := DataSummary(data, env.render);
      var ranking := Ranking(data);
      report := env.multiLlm(MultiPrompt(p.regions, p.indicator, p.yearCurrent, summary));
      report := report["regions" := StringsJson(p.regions)];
      report := report["indicator" := JStr(p.indicator)];
      report := report["year" := JNum(p.yearCurrent as real)];
      report := report["ranking" := RankingJson(ranking)];
    }
  }

  // ---------------------------------------------------------------- running the graph

  /** A parsed query always names a region. */
  lemma ParsedHasRegion(question: string, table: seq<DataPoint>)
    requires ParseWithDataset(question, table).Success?
    ensures |ParseWithDataset(question, table).value.regions| > 0
  {
  }

  /**
   * `build_graph(...).invoke`: parse, then the nodes of the branch the
   * conditional edge selects, in edge order, on one shared context. The
   * answer is the last node's report or the error of the node that failed;
   * `visited` lists the nodes that ran.
   */
  method RunGraph(question: string, env: Env) returns (out: Result<Record, WorkflowError>, ghost visited: seq<Stage>)
    ensures out == Answer(question, env)
    ensures ParseWithDataset(question, env.table).Failure? ==> visited == [Parsing]
    ensures out.Success? ==> visited == Walk(Parsing, ParseWithDataset(question, env.table).value)
    ensures out.Failure? && !out.error.ParseFailed? ==> visited == SinglePath[..4]
  {
    var ctx := new Context();
    visited := [Parsing];
    var parsed := ctx.ParseNode(question, env.table);
    if parsed.Failure? {
      return Failure(ParseFailed(parsed.error)), visited;
    }
    ParsedHasRegion(question, env.table);
    var p := parsed.value;
    GraphPaths(p);
    var next := ShouldContinue(p);
    if next == FetchingMulti {
      ctx.FetchMultiNode(env.table);
      var report := ctx.ReportMultiNode(env);
      return Success(report), MultiPath;
    }
    ctx.FetchCurrentNode(env.table);
    ctx.FetchPreviousNode(env.table);
    var err := ctx.CalcNode();
    if err.Some? {
      return Failure(err.value), SinglePath[..4];
    }
    var report := ctx.ReportSingleNode(env);
    return Success(report), SinglePath;
  }
}
