/**
 * The tool wrappers around the dataset accessor: each runs one query or the
 * growth-rate function and packs the answer into its response record.
 */
module Tools {
  import opened Wrappers
  import opened Dataset

  /** `RegionalDataPoint`: the fields of a long-table row, `unit` and `source` optional. */
  type RegionalDataPoint = DataPoint

  datatype RegionalDataResponse = RegionalDataResponse(data: seq<RegionalDataPoint>)

  datatype GrowthRateResponse = GrowthRateResponse(growthRate: real)

  datatype MultiRegionDataResponse = MultiRegionDataResponse(
    data: seq<RegionalDataPoint>,
    regions: seq<string>,
    year: int,
    indicator: string)

  /** `get_regional_data`: the rows of one region and year with a listed indicator, one data point each. */
  function GetRegionalData(table: seq<DataPoint>, region: string, year: int, indicators: seq<string>)
    : RegionalDataResponse
  {
    RegionalDataResponse(QueryRegional(table, region, year, indicators))
  }

  /** Every point returned is a table row of the requested region and year with a requested indicator. */
  lemma GetRegionalDataMembers(table: seq<DataPoint>, region: string, year: int, indicators: seq<string>, p: DataPoint)
    ensures p in GetRegionalData(table, region, year, indicators).data
        <==> p in table && p.region == region && p.year == year && p.indicator in indicators
  {
    QueryRegionalMembers(table, region, year, indicators, p);
  }

  /** `calculate_growth_rate`: the growth rate in a response, or the zero-base error passed on. */
  function CalculateGrowthRate(current: real, previous: real): (r: Result<GrowthRateResponse, GrowthError>)
    ensures r.Failure? <==> previous == 0.0
    ensures r.Failure? ==> r.error == ZeroPrevious(ZeroPreviousMessage)
    ensures r.Success? ==> previous * (1.0 + r.value.growthRate) == current
  {
    match GrowthRate(current, previous)
    case Success(g) => Success(GrowthRateResponse(g))
    case Failure(e) => Failure(e)
  }

  /**
   * `get_multi_region_data`: the rows of the listed regions in one year, with
   * the request's regions and year echoed and its first indicator, or "".
   */
  function GetMultiRegionData(table: seq<DataPoint>, regions: seq<string>, year: int, indicators: seq<string>)
    : (r: MultiRegionDataResponse)
    ensures r.regions == regions && r.year == year
    ensures r.indicator == if indicators == [] then "" else indicators[0]
    ensures forall p ::
      p in r.data <==> p in table && p.region in regions && p.year == year && p.indicator in indicators
  {
    var rows := QueryMultiRegional(table, regions, year, indicators);
    forall p ensures p in rows <==> p in table && p.region in regions && p.year == year && p.indicator in indicators {
      QueryMultiRegionalMembers(table, regions, year, indicators, p);
    }
    MultiRegionDataResponse(rows, regions, year, if indicators == [] then "" else indicators[0])
  }

  /** For one region, the multi-region tool returns the same points as the single-region tool. */
  lemma MultiRegionDataOfOne(table: seq<DataPoint>, region: string, year: int, indicators: seq<string>)
    ensures GetMultiRegionData(table, [region], year, indicators).data
         == GetRegionalData(table, region, year, indicators).data
  {
    QueryRegionalIsMulti(table, region, year, indicators);
  }
}
