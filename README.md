# LongDelta-AI core, modelled in Dafny

LongDelta-AI answers questions about the economies of the Yangtze River Delta
(上海, 江苏, 浙江, 安徽). It parses a question into regions, a year pair and an
indicator. It looks up matching rows in a long table of (region, year,
indicator, value, unit, source) facts. Then it walks a small graph: one region
goes through current fetch, previous fetch, growth and report; several regions
go through one multi-region fetch, a ranking and a report. Beside that core,
the project models the chart builders and two helpers of the front-end and the
API: pulling the report's JSON object out of a chat message, and assembling
the tool-call trace of a conversation.

One Dafny module per source file:

- `Parse` (`src/tools/parse.py`): region name normalisation, indicator and
  year detection, dataset matching in single and multi mode, the 省/市
  fallback, the 江浙沪 override and the whole `parse_query`. It is written as
  specification functions and as the imperative loops of `parse_query`.
- `Dataset` (`src/tools/implementation.py`): column renaming, the long and
  wide paths of `normalize_df`, the two queries and `growth_rate`.
- `Tools` (`src/tools/definitions.py`): the three tool wrappers.
- `Workflow` (`src/graph/workflow.py`): routing, the graph's paths, the trend
  label, the ranking, the data summary and the two reports. The shared
  context is a `class Context` whose node methods update its fields. The run
  is driven by `RunGraph`.
- `Chart` (`src/tools/chart.py`): the three config builders, the Plotly JSON,
  `generate_chart` and the comparison and trend charts. Their filter loops are
  methods, and the year sort is done in place on an array.
- `ReportExtract` (`app.py`, `extract_json_from_content`): fence removal, the
  `{"` search and the brace-counting scan, both as written and with escapes
  honoured (see Findings).
- `ToolTrace` (`src/api/server.py`, `extract_tool_trace`): the three phases
  as specification functions and as loops.

Shared helper modules:

- `Wrappers`: `Option` and `Result`.
- `JsonValue`: JSON values, Python truthiness, `dict.get` and `or`.
- `Strings`: `strip`, whitespace removal, `upper`, `join` and substring search.
- `Seqs`: first-occurrence deduplication and filtering.
- `Sorting`: Python's stable `sorted(key=...)`, as a function and as an
  in-place insertion sort on an array.

Things the code cannot see are parameters:

- The dataset file is a `table` parameter.
- The language-model calls are function-typed fields of `Workflow.Env`.
- Python's `str(float)` is a `render` parameter.
- pandas `to_numeric` on text is a `Coercion` parameter.
- `json.loads` is a `loads` parameter.

Where the specification and the code disagree, the model follows the code:

- A growth rate of exactly 0 is labelled 基本持平, because the test at
  `src/graph/workflow.py:203` is strict (`g > 0`).
- An empty fetch does not fail in the fetch nodes. It fails in `calc`, with an
  index error, which is modelled as `Workflow.WorkflowError.NoRows`
  (`src/graph/workflow.py:175-176`).

## Model

| member | source | states |
|---|---|---|
| Parse.NormalizeRegionName | src/tools/parse.py:17-19 | the result is a prefix of the name. It does not end in 省/市, and every character removed is 省 or 市 |
| Parse.NormalizeSuffixed | src/tools/parse.py:17-19 | appending 省 or 市 to a name does not change its normalisation |
| Parse.RegionVariants | src/tools/parse.py:22-30 | the variants contain the name itself, and every variant normalises to the same region name |
| Parse.Indicator | src/tools/parse.py:51-66 | 三产结构 iff a structure word occurs. Otherwise GDP iff a GDP word occurs or no CPI word does. CPI iff only a CPI word occurs |
| Parse.DetectIndicator | src/tools/parse.py:59-66 | the overwrite-in-order if-chain computes `Indicator` |
| Parse.FindYears | src/tools/parse.py:70-71 | every year found is in 1900..2099, and there are at most a quarter as many years as characters (each match uses four characters) |
| Parse.YearTextFound | src/tools/parse.py:70-71 | a year written out at the front of the text is the first match, and the scan resumes after it |
| Parse.NoDigitNoYear | src/tools/parse.py:70 | a text without ASCII digits has no year |
| Parse.PickYears | src/tools/parse.py:52-53 | current and previous are two found years, one found year and the year before it, or 2023/2022 (`SelectYears`) |
| Parse.FirstMatchAt | src/tools/parse.py:100-108 | single mode picks the normalised name of the first candidate, in candidate order, that has a variant in the text |
| Parse.FirstMatchNone | src/tools/parse.py:100-108 | single mode finds nothing iff no candidate has a variant in the text |
| Parse.MatchFirstCandidate | src/tools/parse.py:100-108 | the nested loops with `break` compute that first match, as a list of at most one region |
| Parse.MatchedNamesMembers | src/tools/parse.py:91-98 | a name is matched iff some candidate with a variant in the text normalises to it |
| Parse.MultiMatchesSpec | src/tools/parse.py:91-98 | multi mode yields each matching candidate's normalised name exactly once, with no duplicates |
| Parse.MatchCandidate | src/tools/parse.py:94-98 | one candidate appends its normalised name when it matches and is not yet found, and otherwise leaves the list alone |
| Parse.MultiMatchesSnoc | src/tools/parse.py:93-98 | one more candidate extends the multi-mode result exactly as the loop body does |
| Parse.MatchAllCandidates | src/tools/parse.py:91-98 | the multi-mode loop computes `MultiMatches` |
| Parse.CaptureLength | src/tools/parse.py:112 | a fallback capture is 2 to 6 CJK characters followed by 省 or 市, or there is none |
| Parse.FallbackShape | src/tools/parse.py:112 | every fallback match is 2 to 6 CJK characters long |
| Parse.FallbackFollowedBySuffix | src/tools/parse.py:112 | every fallback match occurs in the text followed by 省 or 市 |
| Parse.NoSuffixNoFallback | src/tools/parse.py:110-116 | a text without 省 or 市 has no fallback match |
| Parse.CollectFallback | src/tools/parse.py:110-116 | the fallback loop keeps the matches in order, each once |
| Parse.Normalized | src/tools/parse.py:56-57 | the matched text contains no whitespace |
| Parse.ParseIgnoresWhitespace | src/tools/parse.py:56-57 | two questions that differ only in whitespace parse alike |
| Parse.ParseOutcome | src/tools/parse.py:122-131 | parsing fails iff no region is found. On success the regions are those found, the indicator is the detected one, and `is_multi_region` iff more than one region |
| Parse.TriRegionOverride | src/tools/parse.py:118-120 | if 江浙沪 occurs, the regions are exactly 江苏, 浙江, 上海 |
| Parse.FallbackOnlyWhenUnmatched | src/tools/parse.py:110-116 | when the dataset matched something and there is no 江浙沪, the regions are the dataset matches, with no fallback |
| Parse.SingleModeAtMostOne | src/tools/parse.py:99-108 | without a trigger word, dataset matching yields at most one region |
| Parse.RegionNames | src/tools/parse.py:80 | the region column, row by row |
| Parse.CandidatesSpec | src/tools/parse.py:80 | the candidates are exactly the regions of the table, each listed once, longest first |
| Parse.FindRegions | src/tools/parse.py:78-120 | the region-finding statements compute `Regions` |
| Parse.MentionedRegionFound | src/tools/parse.py:83-123 | when the question mentions some candidate by one of its variants, region finding does not come back empty |
| Parse.CpiQuestionParse | src/tools/parse.py:51-131 | with 上海 among the candidates, "上海2023年CPI数据" parses with indicator CPI, current year 2023 and previous year 2022 |
| Parse.ParseQuery | src/tools/parse.py:51-131 | `parse_query` against the table computes `ParseWithDataset` |
| Dataset.RenameColumns | src/tools/implementation.py:41-59 | each column is renamed through the synonym map, position by position |
| Dataset.RenameColumnsIdempotent | src/tools/implementation.py:41-59 | renaming twice is renaming once |
| Dataset.RenamedRegion | src/tools/implementation.py:41-59 | a `region` column exists after renaming iff some column was a region synonym |
| Dataset.Truncate | src/tools/implementation.py:76 | `astype(int)` truncates toward zero |
| Dataset.LongTableMembers | src/tools/implementation.py:62-90 | a long-table row is present iff some raw row converts to it; rows that do not convert are dropped |
| Dataset.LongRowKept | src/tools/implementation.py:62-90 | a kept row has a region and an indicator, a numeric `value_number` and year (truncated), and unit/source present iff those columns exist |
| Dataset.LongTableConcat | src/tools/implementation.py:62-90 | rows convert independently and in table order: splitting the table splits the output the same way |
| Dataset.LongTableLength | src/tools/implementation.py:62-90 | each raw row gives at most one long-table row |
| Dataset.NormalizeLong | src/tools/implementation.py:62-90 | the long-path statements compute `LongTable` |
| Dataset.MeltCell | src/tools/implementation.py:100-110 | a melted cell takes its column's name as indicator, with no unit and no source |
| Dataset.MeltColumnMembers | src/tools/implementation.py:100-110 | one column melts to the cells of the rows that convert |
| Dataset.MeltMembers | src/tools/implementation.py:93-111 | the wide path outputs one row per convertible (row, non-id column) pair and nothing else |
| Dataset.MeltInto | src/tools/implementation.py:100-110 | the per-column loop appends that column's melted rows |
| Dataset.NormalizeWide | src/tools/implementation.py:93-111 | the wide-path loops compute `Melt` |
| Dataset.NormalizeFails | src/tools/implementation.py:93-113 | normalisation fails iff `region` or `year` is missing after renaming |
| Dataset.NormalizeDf | src/tools/implementation.py:35-113 | `normalize_df` computes `Normalize` |
| Dataset.QueryRegionalMembers | src/tools/implementation.py:17-20 | a row is returned iff it is in the table with that region, that year and a listed indicator |
| Dataset.QueryMultiRegionalMembers | src/tools/implementation.py:23-27 | the same, with region membership in the list |
| Dataset.QueryRegionalIsMulti | src/tools/implementation.py:17-27 | the single-region query is the multi-region query with `[region]` |
| Dataset.QueryMultiRegionalConcat | src/tools/implementation.py:23-27 | the query keeps table order: querying two concatenated tables concatenates the answers |
| Dataset.GrowthRate | src/tools/implementation.py:30-33 | it fails with the zero-previous error iff previous is 0. Otherwise previous × (1 + r) = current |
| Dataset.GrowthRateTestCases | src/tools/implementation.py:30-33 | 105 over 100 is 0.05, 90 over 100 is −0.10, and a zero base raises the zero-previous error |
| Dataset.GrowthRateSign | src/tools/implementation.py:30-33 | with a positive base, the rate is positive iff the value grew, and zero iff it did not change |
| Tools.GetRegionalDataMembers | src/tools/definitions.py:22-39 | the points are exactly the table rows of the region and year with a requested indicator |
| Tools.CalculateGrowthRate | src/tools/definitions.py:46-59 | the growth rate in a response, or the zero-previous error passed on, iff previous is 0 |
| Tools.GetMultiRegionData | src/tools/definitions.py:70-90 | the regions and year are echoed. The indicator is the first requested one or "". The points are exactly the matching rows |
| Tools.MultiRegionDataOfOne | src/tools/definitions.py:70-90 | for one region, the multi-region tool returns the single-region tool's points |
| Workflow.ShouldContinue | src/graph/workflow.py:278-283 | routing goes to fetch_multi iff the query is multi-region, otherwise to fetch_current |
| Workflow.GraphPaths | src/graph/workflow.py:286-306 | from parse, the walk is parse, fetch_current, fetch_prev, calc, report_single; or parse, fetch_multi, report_multi |
| Workflow.GrowthTrendMonotone | src/graph/workflow.py:200-208 | a larger growth rate never gets a worse trend label |
| Workflow.GrowthTrendBoundaries | src/graph/workflow.py:201-208 | 0.06 is 快速增长, 0.05 is 稳步增长, 0 and −0.04 are 基本持平, and −0.05 is 明显下滑 |
| Workflow.GrowthTrendOfValues | src/graph/workflow.py:200-208 | with a positive base: 快速增长 iff current > 1.05 × previous, 稳步增长 iff previous < current ≤ 1.05 × previous, 基本持平 iff 0.95 × previous < current ≤ previous, 明显下滑 iff current ≤ 0.95 × previous |
| Workflow.RankingSpec | src/graph/workflow.py:244-249 | the ranking is a permutation of the rows, ranked 1..n, with non-increasing values and ties in retrieval order |
| Workflow.RankingExample | src/graph/workflow.py:244-249 | values 100, 300, 200 for A, B, C rank as B 300, C 200, A 100, numbered 1 to 3 |
| Workflow.DataSummarySplit | src/graph/workflow.py:236-242 | the summary of a list is the summaries of its two parts joined by "；" |
| Workflow.SingleReport | src/graph/workflow.py:220-228 | the report keeps every key the model returned and adds only `short_board_analysis`, an empty list when the model gave none. When the model gave one, the report is the model's record unchanged |
| Workflow.MultiReportOverwrite | src/graph/workflow.py:264-275 | regions, indicator, year and ranking come from the query and the local ranking. Every other key is the model's, and the report has no keys beyond the model's and these four |
| Workflow.MultiReportIgnoresModel | src/graph/workflow.py:269-273 | those four fields do not depend on the model |
| Workflow.Calc | src/graph/workflow.py:174-179 | it fails for want of rows iff either fetch is empty. On success, prev × (1 + g) = cur for the first rows. It fails with a growth error iff both fetches have rows and the previous first value is 0 |
| Workflow.FetchesOfBranches | src/graph/workflow.py:150-191 | the single branch fetches `regions[0]` in the current and the previous year. The multi branch fetches all regions in the current year only |
| Workflow.ParsedHasRegion | src/tools/parse.py:122-131 | a successful parse has at least one region |
| Workflow.Context.constructor | src/graph/workflow.py:142 | a run starts with an empty context |
| Workflow.Context.ParseNode | src/graph/workflow.py:145-148 | on success the context holds only the parsed query. On failure it is unchanged |
| Workflow.Context.StoreParsed | src/graph/workflow.py:148 | a parsed query replaces the whole context. On failure nothing changes |
| Workflow.Context.FetchCurrentNode | src/graph/workflow.py:151-160 | only `current` changes, to the current-year fetch |
| Workflow.Context.FetchPreviousNode | src/graph/workflow.py:163-171 | only `previous` changes, to the previous-year fetch |
| Workflow.Context.CalcNode | src/graph/workflow.py:174-179 | only `growth` changes, to `Calc`'s rate. On failure the error is returned and nothing changes |
| Workflow.Context.FetchMultiNode | src/graph/workflow.py:182-191 | only `multi_data` changes, to the multi-region fetch |
| Workflow.Context.ReportSingleNode | src/graph/workflow.py:194-228 | the report is `SingleReport` of the context's query, first rows and growth |
| Workflow.Context.ReportMultiNode | src/graph/workflow.py:231-275 | the report is `MultiReport` of the context's query and data |
| Workflow.RunGraph | src/graph/workflow.py:286-306 | the run answers `Answer`. The stages visited are exactly the walk of the chosen branch, just parse on a parse failure, or the single path up to calc when calc fails |
| Chart.CreateBarChart | src/tools/chart.py:34-52 | the type is bar and the data and title are kept. x and y are the given columns. The layout is exactly x/y axis titles and `barmode` "group" |
| Chart.CreatePieChart | src/tools/chart.py:55-72 | the type is pie, names and values are the given columns, and the layout is exactly `showlegend` true and a horizontal legend at y −0.1 |
| Chart.CreateLineChart | src/tools/chart.py:75-93 | the type is line, x and y are the given columns, and the layout is exactly the axis titles and `hovermode` "x unified" |
| Chart.TracesSpec | src/tools/chart.py:96-127 | there is one trace for bar/pie/line and none otherwise. Its x/labels and y/values follow the data in order and length, with "" and 0 for a missing key |
| Chart.FigureLayoutSpec | src/tools/chart.py:129-135 | the layout is the config's layout plus `title`. Layout entries win, and the title is used when the layout has none |
| Chart.GenerateChartColumns | src/tools/chart.py:163-197 | pie defaults to region/value on non-empty data and name/value otherwise. Line defaults to year/value. Any other type is a bar with region/value defaults. The Plotly JSON is that of the config |
| Chart.ComparisonRowsConcat | src/tools/chart.py:224-231 | the comparison filter keeps input order |
| Chart.ComparisonRowsMembers | src/tools/chart.py:224-231 | a row is kept iff it projects a record of region a or b onto region/value/indicator |
| Chart.ComparisonBars | src/tools/chart.py:221-239 | the comparison is a bar chart on region/value whose every row is region a or b |
| Chart.GenerateRegionalComparisonChart | src/tools/chart.py:200-239 | the filtering loop computes `ComparisonChart` |
| Chart.TrendRowsFails | src/tools/chart.py:266-274 | the trend fails iff some record of the region and indicator has a year that cannot be compared with integers |
| Chart.TrendRowsMembers | src/tools/chart.py:266-274 | a row is kept iff it projects a record of the region and indicator whose year is within the bounds |
| Chart.TrendRowsSnoc | src/tools/chart.py:266-274 | one more record extends the trend rows as the loop body does, and the first failure stops it |
| Chart.TrendRowsPrefixFails | src/tools/chart.py:266-274 | once a prefix fails, the whole input fails with the same error |
| Chart.TrendChartSorted | src/tools/chart.py:276-277 | the plotted rows are a permutation of the kept rows, ascending by year, with equal years in input order |
| Chart.TrendRecord | src/tools/chart.py:266-274 | one record of the filtering loop is skipped, kept as its year and value, or raises on a year that is not a number, as `TrendStep` says |
| Chart.GenerateTrendLineChart | src/tools/chart.py:242-285 | the loop and the in-place sort compute `TrendChart` |
| ReportExtract.FindFrom | app.py:213 | a found index is an occurrence at or after the start |
| ReportExtract.FindFromSpec | app.py:213-217 | `find` returns the first occurrence, and none iff there is no occurrence |
| ReportExtract.NoFence | app.py:202-210 | text opening with a brace has no fence removed |
| ReportExtract.StripFencesSlice | app.py:202-210 | fence removal keeps a contiguous slice of the text |
| ReportExtract.ScanAsWritten | app.py:220-234 | the scan as written stops, if at all, inside the text |
| ReportExtract.AsWrittenScanStopsEarly | app.py:222-228 | on `{"a": "\"}"}` (what `json.dumps` writes for key `a` and value `"}`) the scan as written stops at index 9, the brace right after the escaped quote |
| ReportExtract.AsWrittenObject | app.py:213-234 | the search as written returns the first 10 characters of that text |
| ReportExtract.AsWrittenCutsEscapedQuote | app.py:199-236 | `extract_json_from_content` as written returns `{"a": "\"}`, which is not JSON, for that text, so `json.dumps` of that object does not come back whole |
| ReportExtract.ExtractOfBracedText | app.py:202-210 | a text that opens with a brace and ends in non-space is searched as it stands |
| ReportExtract.Scan | app.py:220-234 | the scan stops, if at all, inside the text |
| ReportExtract.ScanStopsAtBrace | app.py:229-234 | the scan only stops on a closing brace |
| ReportExtract.ObjectAt | app.py:213-234 | the slice from a `{"` to where the scan stops starts with `{"` and ends with `}` |
| ReportExtract.ObjectFound | app.py:213-234 | a found object is a slice of the text at the first `{"`, opening with `{"` and closing with `}` |
| ReportExtract.ScanCloses | app.py:220-234 | from a `{"`, the corrected scan stops exactly where the depth outside strings first returns to 0, and finds nothing iff every prefix stays at a positive depth |
| ReportExtract.ScanAsWrittenCloses | app.py:220-234 | the same for the scan as written, where a backslash is an ordinary character and every `"` opens or closes a string |
| ReportExtract.ObjectBalanced | app.py:213-236 | with escapes honoured, the object runs from the first `{"` to the first `}` outside strings where the brace depth returns to 0. When no prefix returns to 0, the stripped text comes back |
| ReportExtract.ObjectAsWrittenBalanced | app.py:213-236 | the same for the search as written |
| ReportExtract.ObjectWithin | app.py:213-236 | whatever the search returns is a substring of the unfenced text |
| ReportExtract.ObjectAsWrittenWithin | app.py:213-236 | the same holds for the search as written |
| ReportExtract.UnfencedWithin | app.py:202-210 | a substring of the unfenced text is a substring of the stripped content |
| ReportExtract.ExtractWithin | app.py:199-236 | the result is always a substring of the stripped content, both as written and corrected |
| ReportExtract.EscapeIsEscaped | app.py:222-224 | a `json.dumps` string body escapes every quote and backslash |
| ReportExtract.ScanOverEscaped | app.py:222-228 | inside a string, the corrected scan passes over an escaped body with its state unchanged |
| ReportExtract.ScanOneField | app.py:220-234 | the corrected scan of a one-field object ends on its last brace |
| ReportExtract.ExtractOneFieldText | app.py:199-236 | with escapes honoured, a one-field object text is extracted whole |
| ReportExtract.ExtractJsonOneField | app.py:199-236 | with escapes honoured, `json.dumps` of a one-field object is extracted whole, whatever its key and value hold |
| ReportExtract.FindObject | app.py:212-236 | the brace-matching loop computes `Object` |
| ReportExtract.ExtractJsonFromContent | app.py:199-236 | strip, fence removal and the loop compute `ExtractJson` |
| ToolTrace.CollectDomain | src/api/server.py:47-61 | `calls_by_id` has an entry for exactly the call keys |
| ToolTrace.CollectLastWins | src/api/server.py:53-61 | a key's entry holds the name and args of the last call with that key |
| ToolTrace.CollectEntryResult | src/api/server.py:61 | phase one writes no result |
| ToolTrace.AttachKeeps | src/api/server.py:64-69 | phase two adds no key and keeps every name and args. An unmatched tool message changes nothing |
| ToolTrace.AttachLastWins | src/api/server.py:64-69 | the last tool message answering a key sets its result |
| ToolTrace.AttachUnanswered | src/api/server.py:64-69 | a key that no tool message answers keeps its phase-one entry |
| ToolTrace.ItemsLookUp | src/api/server.py:79-90 | when every key is in the table, phase three looks each one up, one entry per key |
| ToolTrace.TraceKeysInTable | src/api/server.py:47-82 | the check `tc_id in calls_by_id` always holds |
| ToolTrace.TraceKeysSpec | src/api/server.py:72-91 | the trace keys are distinct and are exactly the call keys, in order of first appearance. There are as many as there are distinct keys |
| ToolTrace.TraceShape | src/api/server.py:40-91 | the trace has one entry per distinct call key, the table's entry for that key |
| ToolTrace.TraceNameAndArgs | src/api/server.py:53-61 | an entry's name and args are those of the last call with its key |
| ToolTrace.TraceResultAnswered | src/api/server.py:64-69 | an entry's result is the parsed content of the last tool message answering its key |
| ToolTrace.TraceResultUnanswered | src/api/server.py:61-69 | with no tool message answering its key, an entry's result is None |
| ToolTrace.CollectCallsOf | src/api/server.py:53-61 | the inner loop writes each call's entry under its key |
| ToolTrace.CollectCalls | src/api/server.py:47-61 | phase one's loops compute `Collect` |
| ToolTrace.AttachToolResults | src/api/server.py:64-69 | phase two's loop computes `AttachResults` |
| ToolTrace.EmitCalls | src/api/server.py:79-90 | the inner loop with `seen` appends the entries of the message's new keys |
| ToolTrace.EmitTrace | src/api/server.py:72-90 | phase three's loops list each key's entry once, in first-seen order |
| ToolTrace.ExtractToolTrace | src/api/server.py:40-91 | `extract_tool_trace` computes `Trace` |
| Seqs.DedupSpec | src/tools/parse.py:97-98 | the append-if-absent pattern keeps each element exactly once |
| Seqs.DedupFirstSeenOrder | src/api/server.py:81-82 | deduplication lists elements in the order of their first occurrence |
| Seqs.DedupLength | src/api/server.py:73-82 | deduplication leaves one element per distinct value |
| Sorting.SortByPermutation | src/tools/chart.py:277 | sorting by key is a permutation |
| Sorting.SortByAscending | src/tools/chart.py:277 | the sorted list is ascending by key |
| Sorting.SortByStable | src/tools/chart.py:277 | elements with equal keys keep their order |
| Sorting.SortInPlace | src/tools/chart.py:277 | `list.sort(key=...)` in place on an array leaves the stable sort of its old contents |
| Strings.StripIsSlice | app.py:202 | `strip` keeps a slice that neither starts nor ends with whitespace |
| Strings.StripThenRemove | src/tools/parse.py:56-57 | stripping before removing all whitespace changes nothing |
| Strings.RemoveWhitespaceConcat | src/tools/parse.py:57 | whitespace removal distributes over concatenation |
| Strings.Upper | src/tools/parse.py:60 | `upper` maps each character by its uppercase |
| Strings.JoinSplit | src/graph/workflow.py:242 | joining a list is joining its two parts with the separator between them |

## Left out

- File and network I/O, the Streamlit UI, the FastAPI endpoints, the SSE stream, the middleware and the retrieval store are not part of this model.
- The language-model calls are function parameters (`Workflow.Env.singleLlm` and `multiLlm`). Prompt wording is carried as data, and the system prompts are not modelled.
- `json.dumps` of the reports and the Plotly objects is not modelled: reports and charts are JSON values, not text.
- Floating point is `real`: the trend thresholds and `growth_rate` are exact. IEEE rounding (for example, a rate of 0.05 that comes out as 0.0500…01) is not modelled.
- Python's `str(float)` and pandas' `astype(str)` of numbers are a `render` parameter. pandas `to_numeric` on text is a `Coercion` parameter.
- `\d` in the year pattern matches ASCII digits only; Unicode digits are not modelled. `upper()` is modelled on ASCII letters.
- The order of equal-length candidates in `parse_query` comes from iterating a Python set. The model uses the table's first-occurrence order for them, then the stable sort by length.
- Duplicate column names in a data frame are not modelled: a column name selects its first column.
- pydantic validation of `ParsedQuery`, `RegionalDataPoint` and `ToolTraceItem` is not modelled. The trace items carry the raw name and args even where `ToolTraceItem` would reject them, for example a `None` name or string args that do not parse.
- ToolTrace.FunctionOf: a `function` field that is present but not an object is read as empty, where Python would raise `AttributeError` on its `.get`.
- ToolTrace.Str: `str()` of a number, list or dict used as a call id is the `render` parameter, not Python's formatting.
- A tool message whose content is a list (not a string) is not modelled: content is text.
- Chart.YearNumber: `start_year <= year` for a non-numeric year raises `TypeError`. The model reports this as `YearNotComparable`, and it treats booleans as 1 and 0 as Python does.
- The checks `record.get("region") in [a, b]` and `== region` compare JSON values with strings. A non-string region never matches, as in Python.
- Workflow.RunGraph: the `visited` stages are a ghost record of the walk, not LangGraph's scheduler. Streaming of intermediate states is not modelled.
- Workflow.Calc: a value that is `None` cannot occur, because the dataset drops rows without a value. The model's rows always have a numeric value.
- ReportExtract.ExtractJsonFromContent models the evidently intended scan, with escapes honoured (see Findings). The code as written is `ReportExtract.ExtractAsWritten`.
- ReportExtract.FindObject: its loop skips the character after a backslash inside a string, the corrected reading of app.py:223. The loop as written is `ReportExtract.ScanAsWritten`.

## Findings

| source | as written | input that shows it | evidently intended | confidence | as-written member | corrected member |
|---|---|---|---|---|---|---|
| app.py:223 | `char == '\\"'` compares one character with the two-character string `\"`, so it is never true. An escaped quote inside a string then toggles `in_string`, and braces after it are counted | the reply `{"a": "\"}"}` (`json.dumps` of the object with key `a` and value `"}`) comes back as `{"a": "\"}`, which is not valid JSON | a backslash inside a string skips the character after it, so the object is returned whole | not executed | ReportExtract.AsWrittenCutsEscapedQuote | ReportExtract.ExtractJsonOneField |
