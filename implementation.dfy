/**
 * The dataset accessor: the schema normalisation that turns a raw table into
 * the long table region/year/indicator/value/unit/source, the exact-match row
 * filters over that table, and the growth-rate function.
 *
 * A raw table is a sequence of rows of cells, one cell per column label; the
 * normalised table is a sequence of `DataPoint`s, so its columns are exactly
 * the six fields of that datatype.
 */
module Dataset {
  import opened Wrappers
  import opened Seqs

  /** One raw cell as pandas holds it: missing, text, or a number. */
  datatype Cell = Null | Text(s: string) | Num(x: real)

  /** A raw table: its column labels and its rows, each row one cell per column. */
  datatype Frame = Frame(columns: seq<string>, rows: seq<seq<Cell>>)

  /** A row of the long table. `unit` and `source` are `None` when the raw table has no such column. */
  datatype DataPoint = DataPoint(
    region: string,
    year: int,
    indicator: string,
    value: real,
    unit: Option<string>,
    source: Option<string>)

  /**
   * The two conversions pandas applies to text: `to_numeric(errors="coerce")`
   * parses a text cell or gives up, and `astype(str)` renders a number.
   */
  datatype Coercion = Coercion(parseNumber: string -> Option<real>, render: real -> string)

  /** The `ValueError` raised when the table is neither long nor wide. */
  datatype SchemaError = UnrecognizedSchema(columns: seq<string>)

  /** The `ValueError` raised by `growth_rate` on a zero base. */
  datatype GrowthError = ZeroPrevious(message: string)

  // ---------------------------------------------------------------- column names

  /**
   * The synonym table of `normalize_df`. Its entries that map a name to
   * itself (`region`, `year`, `indicator`, `value_number`, `unit`, `source`)
   * leave that column as it is, like every name outside the table.
   */
  function RenameColumn(c: string): string {
    if c == "province" || c == "city" || c == "area" || c == "地区" then "region"
    else if c == "年份" then "year"
    else if c == "指标" || c == "metric" then "indicator"
    else c
  }

  /** `df.rename(columns=...)` with the synonyms of the columns present. */
  function RenameColumns(cols: seq<string>): (r: seq<string>)
    ensures |r| == |cols|
    ensures forall k | 0 <= k < |cols| :: r[k] == RenameColumn(cols[k])
  {
    if cols == [] then [] else [RenameColumn(cols[0])] + RenameColumns(cols[1..])
  }

  /** Renaming is idempotent: every synonym maps to a name that is its own synonym. */
  lemma RenameColumnsIdempotent(cols: seq<string>)
    ensures RenameColumns(RenameColumns(cols)) == RenameColumns(cols)
  {
  }

  predicate IsRegionSynonym(c: string) {
    c == "province" || c == "city" || c == "area" || c == "地区" || c == "region"
  }

  /** After renaming there is a `region` column exactly when the raw table has one of its synonyms. */
  lemma RenamedRegion(cols: seq<string>)
    ensures "region" in RenameColumns(cols) <==> exists k | 0 <= k < |cols| :: IsRegionSynonym(cols[k])
  {
    var r := RenameColumns(cols);
    assert "year" != "region" && "indicator" != "region";
    if "region" in r {
      var k :| 0 <= k < |r| && r[k] == "region";
      assert IsRegionSynonym(cols[k]);
    }
    if k :| 0 <= k < |cols| && IsRegionSynonym(cols[k]) {
      assert r[k] == "region";
    }
  }

  // ---------------------------------------------------------------- cells

  /** The cell of `row` under the first column labelled `name`, or a missing cell. */
  function CellAt(cols: seq<string>, row: seq<Cell>, name: string): Cell {
    if cols == [] || row == [] then Null
    else if cols[0] == name then row[0]
    else CellAt(cols[1..], row[1..], name)
  }

  /** `pd.to_numeric(errors="coerce")` on one cell; `None` stands for NaN. */
  function ToNumeric(c: Cell, conv: Coercion): Option<real> {
    match c
    case Null => None
    case Num(x) => Some(x)
    case Text(s) => conv.parseNumber(s)
  }

  /** `astype(str)` on one cell; Python renders `None` as "None". */
  function AsText(c: Cell, conv: Coercion): string {
    match c
    case Null => "None"
    case Text(s) => s
    case Num(x) => conv.render(x)
  }

  /** `astype(int)` on a float: truncation toward zero. */
  function Truncate(x: real): (n: int)
    ensures 0.0 <= x ==> n as real <= x < n as real + 1.0
    ensures x < 0.0 ==> n as real - 1.0 < x <= n as real
  {
    if x >= 0.0 then x.Floor else -((-x).Floor)
  }

  // ---------------------------------------------------------------- the long path

  /** The key columns that select the long path. */
  predicate IsLong(cols: seq<string>) {
    "region" in cols && "year" in cols && "indicator" in cols && "value_number" in cols
  }

  /** One raw row on the long path: converted, or dropped when a key cell is missing or not numeric. */
  function LongRow(cols: seq<string>, row: seq<Cell>, conv: Coercion): Option<DataPoint> {
    var region := CellAt(cols, row, "region");
    var year := ToNumeric(CellAt(cols, row, "year"), conv);
    var indicator := CellAt(cols, row, "indicator");
    var value := ToNumeric(CellAt(cols, row, "value_number"), conv);
    if region.Null? || year.None? || indicator.Null? || value.None? then None
    else Some(DataPoint(
      AsText(region, conv), Truncate(year.value), AsText(indicator, conv), value.value,
      if "unit" in cols then Some(AsText(CellAt(cols, row, "unit"), conv)) else None,
      if "source" in cols then Some(AsText(CellAt(cols, row, "source"), conv)) else None))
  }

  /** The kept rows of the long path, in table order. */
  function LongTable(cols: seq<string>, rows: seq<seq<Cell>>, conv: Coercion): seq<DataPoint> {
    if rows == [] then []
    else
      LongTable(cols, rows[..|rows| - 1], conv)
      + match LongRow(cols, rows[|rows| - 1], conv)
        case Some(p) => [p]
        case None => []
  }

  /** A long-table row is present exactly when some raw row converts to it. */
  lemma {:induction false} LongTableMembers(cols: seq<string>, rows: seq<seq<Cell>>, conv: Coercion, p: DataPoint)
    ensures p in LongTable(cols, rows, conv)
        <==> exists i | 0 <= i < |rows| :: LongRow(cols, rows[i], conv) == Some(p)
  {
    if rows != [] {
      var init := rows[..|rows| - 1];
      LongTableMembers(cols, init, conv, p);
      assert forall i | 0 <= i < |init| :: init[i] == rows[i];
    }
  }

  /** Rows convert independently and in table order: a table split in two converts to the two halves' outputs, joined. */
  lemma {:induction false} LongTableConcat(cols: seq<string>, a: seq<seq<Cell>>, b: seq<seq<Cell>>, conv: Coercion)
    ensures LongTable(cols, a + b, conv) == LongTable(cols, a, conv) + LongTable(cols, b, conv)
  {
    if b == [] {
      assert a + b == a;
    } else {
      var init, last := b[..|b| - 1], b[|b| - 1];
      LongTableConcat(cols, a, init, conv);
      assert (a + b)[..|a + b| - 1] == a + init;
      assert (a + b)[|a + b| - 1] == last;
      var more := match LongRow(cols, last, conv) case Some(p) => [p] case None => [];
      assert LongTable(cols, a + b, conv) == LongTable(cols, a + init, conv) + more;
      assert LongTable(cols, b, conv) == LongTable(cols, init, conv) + more;
    }
  }

  /** Each raw row gives at most one long-table row. */
  lemma {:induction false} LongTableLength(cols: seq<string>, rows: seq<seq<Cell>>, conv: Coercion)
    ensures |LongTable(cols, rows, conv)| <= |rows|
  {
    if rows != [] {
      LongTableLength(cols, rows[..|rows| - 1], conv);
    }
  }

  /** Rows are dropped, never defaulted: a converted row has every key cell present and numeric where it must be. */
  lemma LongRowKept(cols: seq<string>, row: seq<Cell>, conv: Coercion, p: DataPoint)
    requires LongRow(cols, row, conv) == Some(p)
    ensures !CellAt(cols, row, "region").Null? && !CellAt(cols, row, "indicator").Null?
    ensures ToNumeric(CellAt(cols, row, "value_number"), conv) == Some(p.value)
    ensures exists y :: ToNumeric(CellAt(cols, row, "year"), conv) == Some(y) && p.year == Truncate(y)
    ensures p.unit.Some? <==> "unit" in cols
    ensures p.source.Some? <==> "source" in cols
  {
    var y := ToNumeric(CellAt(cols, row, "year"), conv).value;
    assert p.year == Truncate(y);
  }

  // ---------------------------------------------------------------- the wide path

  /** The identifier columns of the wide path; every other column is an indicator. */
  predicate IsIdColumn(c: string) {
    c == "region" || c == "year"
  }

  /** One (row, indicator column) pair of `melt`, dropped when region, year or value is missing. */
  function MeltCell(cols: seq<string>, row: seq<Cell>, j: nat, conv: Coercion): (r: Option<DataPoint>)
    requires j < |cols|
    ensures r.Some? ==> r.value.indicator == cols[j] && r.value.unit.None? && r.value.source.None?
  {
    var region := CellAt(cols, row, "region");
    var year := ToNumeric(CellAt(cols, row, "year"), conv);
    var value := ToNumeric(if j < |row| then row[j] else Null, conv);
    if region.Null? || year.None? || value.None? then None
    else Some(DataPoint(AsText(region, conv), Truncate(year.value), cols[j], value.value, None, None))
  }

  /** The kept rows that column `j` contributes, in table order. */
  function MeltColumn(cols: seq<string>, rows: seq<seq<Cell>>, j: nat, conv: Coercion): seq<DataPoint>
    requires j < |cols|
  {
    if rows == [] then []
    else
      MeltColumn(cols, rows[..|rows| - 1], j, conv)
      + match MeltCell(cols, rows[|rows| - 1], j, conv)
        case Some(p) => [p]
        case None => []
  }

  /** `melt` over the first `k` columns: column by column, and row by row within a column. */
  function Melt(cols: seq<string>, rows: seq<seq<Cell>>, k: nat, conv: Coercion): seq<DataPoint>
    requires k <= |cols|
  {
    if k == 0 then []
    else Melt(cols, rows, k - 1, conv) + (if IsIdColumn(cols[k - 1]) then [] else MeltColumn(cols, rows, k - 1, conv))
  }

  lemma {:induction false} MeltColumnMembers(cols: seq<string>, rows: seq<seq<Cell>>, j: nat, conv: Coercion, p: DataPoint)
    requires j < |cols|
    ensures p in MeltColumn(cols, rows, j, conv)
        <==> exists i | 0 <= i < |rows| :: MeltCell(cols, rows[i], j, conv) == Some(p)
  {
    if rows != [] {
      var init := rows[..|rows| - 1];
      MeltColumnMembers(cols, init, j, conv, p);
      assert forall i | 0 <= i < |init| :: init[i] == rows[i];
    }
  }

  /**
   * A wide-table row is present exactly when some indicator column and some
   * raw row melt to it.
   */
  /** Indicator column `j` of `row` melts to `p`. */
  predicate MeltsTo(cols: seq<string>, row: seq<Cell>, j: nat, conv: Coercion, p: DataPoint)
    requires j < |cols|
  {
    !IsIdColumn(cols[j]) && MeltCell(cols, row, j, conv) == Some(p)
  }

  lemma {:induction false} MeltMembers(cols: seq<string>, rows: seq<seq<Cell>>, k: nat, conv: Coercion, p: DataPoint)
    requires k <= |cols|
    ensures p in Melt(cols, rows, k, conv)
        <==> exists j, i | 0 <= j < k && 0 <= i < |rows| :: MeltsTo(cols, rows[i], j, conv, p)
  {
    if k > 0 {
      var j := k - 1;
      MeltMembers(cols, rows, j, conv, p);
      var prev := Melt(cols, rows, j, conv);
      var last := if IsIdColumn(cols[j]) then [] else MeltColumn(cols, rows, j, conv);
      assert Melt(cols, rows, k, conv) == prev + last;
      if !IsIdColumn(cols[j]) {
        MeltColumnMembers(cols, rows, j, conv, p);
      }
      if p in last {
        var i :| 0 <= i < |rows| && MeltCell(cols, rows[i], j, conv) == Some(p);
        assert MeltsTo(cols, rows[i], j, conv, p);
      }
      if j', i :| 0 <= j' < k && 0 <= i < |rows| && MeltsTo(cols, rows[i], j', conv, p) {
        if j' == j {
          assert p in last;
        } else {
          assert p in prev;
        }
      }
    }
  }

  // ---------------------------------------------------------------- normalize_df

  /** `normalize_df`: rename, then the long path, else the wide path, else a schema error. */
  function Normalize(frame: Frame, conv: Coercion): Result<seq<DataPoint>, SchemaError> {
    var cols := RenameColumns(frame.columns);
    if IsLong(cols) then Success(LongTable(cols, frame.rows, conv))
    else if "region" in cols && "year" in cols then Success(Melt(cols, frame.rows, |cols|, conv))
    else Failure(UnrecognizedSchema(cols))
  }

  /** The schema is rejected exactly when, after renaming, a region or a year column is missing. */
  lemma NormalizeFails(frame: Frame, conv: Coercion)
    ensures Normalize(frame, conv).Failure?
        <==> "region" !in RenameColumns(frame.columns) || "year" !in RenameColumns(frame.columns)
  {
  }

  /** The long path converts the kept rows one by one, appending each. */
  method NormalizeLong(cols: seq<string>, rows: seq<seq<Cell>>, conv: Coercion) returns (out: seq<DataPoint>)
    ensures out == LongTable(cols, rows, conv)
  {
    out := [];
    var i := 0;
    while i < |rows|
      invariant 0 <= i <= |rows|
      invariant out == LongTable(cols, rows[..i], conv)
    {
      assert rows[..i + 1][..i] == rows[..i];
      var p := LongRow(cols, rows[i], conv);
      if p.Some? {
        out := out + [p.value];
      }
      i := i + 1;
    }
    assert rows[..|rows|] == rows;
  }

  /** One indicator column of `melt`: its kept rows appended in table order. */
  method MeltInto(cols: seq<string>, rows: seq<seq<Cell>>, j: nat, conv: Coercion, out: seq<DataPoint>)
    returns (out': seq<DataPoint>)
    requires j < |cols|
    ensures out' == out + MeltColumn(cols, rows, j, conv)
  {
    out' := out;
    var i := 0;
    while i < |rows|
      invariant 0 <= i <= |rows|
      invariant out' == out + MeltColumn(cols, rows[..i], j, conv)
    {
      assert rows[..i + 1][..i] == rows[..i];
      var p := MeltCell(cols, rows[i], j, conv);
      if p.Some? {
        out' := out' + [p.value];
      }
      i := i + 1;
    }
    assert rows[..|rows|] == rows;
  }

  /** The wide path melts the indicator columns one after the other. */
  method NormalizeWide(cols: seq<string>, rows: seq<seq<Cell>>, conv: Coercion) returns (out: seq<DataPoint>)
    ensures out == Melt(cols, rows, |cols|, conv)
  {
    out := [];
    var j := 0;
    while j < |cols|
      invariant 0 <= j <= |cols|
      invariant out == Melt(cols, rows, j, conv)
    {
      if !IsIdColumn(cols[j]) {
        out := MeltInto(cols, rows, j, conv, out);
      } else {
        assert Melt(cols, rows, j + 1, conv) == Melt(cols, rows, j, conv) + [];
      }
      j := j + 1;
    }
  }

  method NormalizeDf(frame: Frame, conv: Coercion) returns (r: Result<seq<DataPoint>, SchemaError>)
    ensures r == Normalize(frame, conv)
  {
    var cols := RenameColumns(frame.columns);
    if "region" in cols && "year" in cols && "indicator" in cols && "value_number" in cols {
      var out := NormalizeLong(cols, frame.rows, conv);
      return Success(out);
    }
    if "region" in cols && "year" in cols {
      var out := NormalizeWide(cols, frame.rows, conv);
      return Success(out);
    }
    return Failure(UnrecognizedSchema(cols));
  }

  // ---------------------------------------------------------------- queries

  predicate InRegionalQuery(p: DataPoint, region: string, year: int, indicators: seq<string>) {
    p.region == region && p.year == year && p.indicator in indicators
  }

  predicate InMultiRegionalQuery(p: DataPoint, regions: seq<string>, year: int, indicators: seq<string>) {
    p.region in regions && p.year == year && p.indicator in indicators
  }

  /** `query_regional_data`: the rows of one region and year with a listed indicator, in table order. */
  function QueryRegional(table: seq<DataPoint>, region: string, year: int, indicators: seq<string>): seq<DataPoint> {
    Filter(table, p => InRegionalQuery(p, region, year, indicators))
  }

  /** `query_multi_regional_data`: the same filter with region membership. */
  function QueryMultiRegional(table: seq<DataPoint>, regions: seq<string>, year: int, indicators: seq<string>): seq<DataPoint> {
    Filter(table, p => InMultiRegionalQuery(p, regions, year, indicators))
  }

  /** A row is returned exactly when it is in the table and matches region, year and an indicator. */
  lemma QueryRegionalMembers(table: seq<DataPoint>, region: string, year: int, indicators: seq<string>, p: DataPoint)
    ensures p in QueryRegional(table, region, year, indicators)
        <==> p in table && p.region == region && p.year == year && p.indicator in indicators
  {
    FilterMembers(table, p => InRegionalQuery(p, region, year, indicators), p);
  }

  lemma QueryMultiRegionalMembers(table: seq<DataPoint>, regions: seq<string>, year: int, indicators: seq<string>, p: DataPoint)
    ensures p in QueryMultiRegional(table, regions, year, indicators)
        <==> p in table && p.region in regions && p.year == year && p.indicator in indicators
  {
    FilterMembers(table, p => InMultiRegionalQuery(p, regions, year, indicators), p);
  }

  /** The single-region query is the multi-region query over a one-element region list. */
  lemma QueryRegionalIsMulti(table: seq<DataPoint>, region: string, year: int, indicators: seq<string>)
    ensures QueryRegional(table, region, year, indicators) == QueryMultiRegional(table, [region], year, indicators)
  {
    FilterCongruent(table, p => InRegionalQuery(p, region, year, indicators),
                           p => InMultiRegionalQuery(p, [region], year, indicators));
  }

  /** Both queries keep table order: the answer over a split table is the two answers, in order. */
  lemma QueryMultiRegionalConcat(t1: seq<DataPoint>, t2: seq<DataPoint>, regions: seq<string>, year: int, indicators: seq<string>)
    ensures QueryMultiRegional(t1 + t2, regions, year, indicators)
         == QueryMultiRegional(t1, regions, year, indicators) + QueryMultiRegional(t2, regions, year, indicators)
  {
    FilterConcat(t1, t2, p => InMultiRegionalQuery(p, regions, year, indicators));
  }

  // ---------------------------------------------------------------- growth rate

  const ZeroPreviousMessage := "previous value is 0; cannot compute growth rate"

  /** `growth_rate(current, previous)`: the relative change, refused on a zero base. */
  function GrowthRate(current: real, previous: real): (r: Result<real, GrowthError>)
    ensures r.Failure? <==> previous == 0.0
    ensures r.Failure? ==> r.error == ZeroPrevious(ZeroPreviousMessage)
    ensures r.Success? ==> previous * (1.0 + r.value) == current
  {
    if previous == 0.0 then Failure(ZeroPrevious(ZeroPreviousMessage))
    else Success((current - previous) / previous)
  }

  /** On a positive base the rate is positive, zero or negative exactly as the value rose, stayed or fell. */
  lemma GrowthRateSign(current: real, previous: real)
    requires previous > 0.0
    ensures GrowthRate(current, previous).Success?
    ensures GrowthRate(current, previous).value > 0.0 <==> current > previous
    ensures GrowthRate(current, previous).value == 0.0 <==> current == previous
  {
    var g := GrowthRate(current, previous).value;
    assert previous * g == current - previous;
    if g > 0.0 {
      assert previous * g > 0.0;
    }
    if current > previous {
      assert previous * g > 0.0;
    }
  }

  /** The growth-rate cases of the test suite: a 5% rise, a 10% fall, and the zero base that raises. */
  lemma GrowthRateTestCases()
    ensures GrowthRate(105.0, 100.0) == Success(0.05)
    ensures GrowthRate(90.0, 100.0) == Success(-0.10)
    ensures GrowthRate(100.0, 0.0) == Failure(ZeroPrevious(ZeroPreviousMessage))
  {
  }
}
