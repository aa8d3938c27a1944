/**
 * The Amazon revenue chart's data selection: a period preset resolves to a start year
 * anchored on the fixed reference year 2024, and the year filter does the rest.
 */
module AmazonRevenueChart {
  import opened Sequences
  import opened DataLoader
  import opened Utils

  datatype TimePeriod = FiveYears | TenYears | All

  /** The reference year the presets count back from; also the end of every range. */
  const ReferenceYear := 2024

  /** The first year of the dataset, the start of the all-time range. */
  const FirstYear := 2004

  /** The period selected when the chart mounts. */
  const DefaultPeriod: TimePeriod := All

  /** The start year a preset selects. */
  function StartYear(period: TimePeriod): (startYear: int)
    ensures period == FiveYears ==> startYear == ReferenceYear - 5 == 2019
    ensures period == TenYears ==> startYear == ReferenceYear - 10 == 2014
    ensures period == All ==> startYear == FirstYear
  {
    match period
    case FiveYears => ReferenceYear - 5
    case TenYears => ReferenceYear - 10
    case All => FirstYear
  }

  /**
   * `getFilteredData`: the rows from the preset's start year to 2024, in input order.
   * The end year 2024 is non-zero, so the current calendar year is never consulted.
   */
  function GetFilteredData(amazonData: seq<AmazonRow>, period: TimePeriod, currentYear: int)
    : (filtered: seq<AmazonRow>)
    ensures filtered == FilterYears(amazonData, StartYear(period), ReferenceYear)
    ensures IsSubsequence(filtered, amazonData)
    ensures forall i :: 0 <= i < |filtered| ==> StartYear(period) <= filtered[i].year <= ReferenceYear
    ensures forall row :: multiset(filtered)[row] ==
              if StartYear(period) <= row.year <= ReferenceYear then multiset(amazonData)[row] else 0
  {
    FilterAmazonDataByYear(amazonData, StartYear(period), ReferenceYear, currentYear)
  }

  /** The presets nest: five years within ten years within all time. */
  lemma PeriodsNest(amazonData: seq<AmazonRow>, currentYear: int)
    ensures IsSubsequence(GetFilteredData(amazonData, FiveYears, currentYear),
                          GetFilteredData(amazonData, TenYears, currentYear))
    ensures IsSubsequence(GetFilteredData(amazonData, TenYears, currentYear),
                          GetFilteredData(amazonData, All, currentYear))
  {
    LaterStartKeepsSubsequence(amazonData, StartYear(TenYears), StartYear(FiveYears), ReferenceYear);
    LaterStartKeepsSubsequence(amazonData, StartYear(All), StartYear(TenYears), ReferenceYear);
  }

  /** The chart's own state: the selected period. */
  class AmazonRevenueChart {
    var timePeriod: TimePeriod

    constructor ()
      ensures timePeriod == DefaultPeriod
    {
      timePeriod := All;
    }

    method SetTimePeriod(period: TimePeriod)
      modifies this
      ensures timePeriod == period
    {
      timePeriod := period;
    }
  }
}
