/// The forecast filters: the by-summary specification and the two filter
/// handlers that dispatch on a filter's name.
module WeatherForecastFilters {
  import opened Base
  import opened Requests
  import opened Capabilities
  import opened WeatherForecasts

  /**
   * `ApplicationConstants.WeatherForecast.FilterWeatherForecastsBySummary`.
   * Its value is not part of this model; no property below depends on it.
   */
  const FilterWeatherForecastsBySummary: string := "FilterWeatherForecastsBySummary"

  /** `DcoWeatherForecastsBySummarySpecification`, holding the summary to match. */
  datatype DcoWeatherForecastsBySummarySpecification = BySummary(summary: string)

  /** The constructor taking the summary itself. */
  function BySummaryFromText(summary: string): (r: DcoWeatherForecastsBySummarySpecification)
    ensures r.summary == summary
  {
    BySummary(summary)
  }

  /** The constructor taking a filter definition: it keeps the filter's data text. */
  function BySummaryFromFilter(filter: FilterDefinition): (r: DcoWeatherForecastsBySummarySpecification)
    ensures r.summary == filter.filterData
  {
    BySummary(filter.filterData)
  }

  /**
   * The specification's `Expression`: the stored summary equals the record's
   * summary, comparing case-insensitively under the current culture, which is
   * `fold` (two texts compare equal when they fold to the same text). A null
   * record summary never matches.
   */
  predicate Expression(spec: DcoWeatherForecastsBySummarySpecification, fold: string -> string, item: DcoWeatherForecast) {
    match item.summary
    case Some(s) => fold(spec.summary) == fold(s)
    case None => false
  }

  /** `DcoWeatherForecastFilterHandler.GetSpecification`: the by-summary filter name, or nothing. */
  function DcoGetSpecification(filter: FilterDefinition): Option<DcoWeatherForecastsBySummarySpecification> {
    if filter.filterName == FilterWeatherForecastsBySummary then Some(BySummaryFromFilter(filter))
    else None
  }

  /** The filter handler the pipeline resolves, each specification turned into its expression. */
  function DcoWeatherForecastFilterHandler(fold: string -> string): FilterHandler<DcoWeatherForecast> {
    FilterHandler((filter: FilterDefinition) =>
      match DcoGetSpecification(filter)
      case Some(spec) => Some((item: DcoWeatherForecast) => Expression(spec, fold, item))
      case None => None)
  }

  /** The specification `WeatherForecastFilter` builds; its own predicate is not part of this model. */
  datatype WeatherForecastsBySummarySpecification = WeatherForecastsBySummary(filter: FilterDefinition)

  /** `WeatherForecastFilter.GetSpecification` for the plain `WeatherForecast` record. */
  function GetSpecification(filter: FilterDefinition): Option<WeatherForecastsBySummarySpecification> {
    if filter.filterName == FilterWeatherForecastsBySummary then Some(WeatherForecastsBySummary(filter))
    else None
  }

  /** The predicate holds exactly when the record has a summary that matches, ignoring case. */
  lemma ExpressionMatchesSummary(spec: DcoWeatherForecastsBySummarySpecification, fold: string -> string, item: DcoWeatherForecast)
    ensures Expression(spec, fold, item) <==> item.summary.Some? && fold(item.summary.value) == fold(spec.summary)
    ensures item.summary.None? ==> !Expression(spec, fold, item)
  {
  }

  /** The predicate looks at the summary only, not at the id, date or temperature. */
  lemma ExpressionDependsOnlyOnSummary(spec: DcoWeatherForecastsBySummarySpecification, fold: string -> string, a: DcoWeatherForecast, b: DcoWeatherForecast)
    requires a.summary == b.summary
    ensures Expression(spec, fold, a) == Expression(spec, fold, b)
  {
  }

  /** The Dco handler knows exactly the by-summary name, whatever the filter data. */
  lemma DcoDispatchOnName(filter: FilterDefinition)
    ensures DcoGetSpecification(filter).Some? <==> filter.filterName == FilterWeatherForecastsBySummary
    ensures DcoGetSpecification(filter).Some? ==> DcoGetSpecification(filter).value == BySummaryFromFilter(filter)
  {
  }

  /** The specification the handler returns matches the records whose summary equals the filter data, ignoring case. */
  lemma HandlerSpecificationMatchesFilterData(fold: string -> string, filter: FilterDefinition, item: DcoWeatherForecast)
    requires filter.filterName == FilterWeatherForecastsBySummary
    ensures DcoWeatherForecastFilterHandler(fold).getSpecification(filter).Some?
    ensures DcoWeatherForecastFilterHandler(fold).getSpecification(filter).value(item) <==>
      item.summary.Some? && fold(item.summary.value) == fold(filter.filterData)
  {
  }

  /** `WeatherForecastFilter` dispatch: non-null exactly for the by-summary name, and only the name matters. */
  lemma PlainDispatchOnName(filter: FilterDefinition, other: FilterDefinition)
    ensures GetSpecification(filter).Some? <==> filter.filterName == FilterWeatherForecastsBySummary
    ensures GetSpecification(filter).Some? ==> GetSpecification(filter).value == WeatherForecastsBySummary(filter)
    ensures filter.filterName == other.filterName ==> GetSpecification(filter).Some? == GetSpecification(other).Some?
  {
  }

  /**
   * Filtering by the by-summary filter with data `data` keeps exactly the
   * records whose summary equals `data` ignoring case, in their order.
   */
  lemma {:induction false} SummaryFilterSelectsMatchingRecords(fold: string -> string, data: string, rows: seq<DcoWeatherForecast>, x: DcoWeatherForecast)
    ensures var kept := ApplyFilters([FilterDefinition(FilterWeatherForecastsBySummary, data)], DcoWeatherForecastFilterHandler(fold), rows);
      (x in kept <==> x in rows && x.summary.Some? && fold(x.summary.value) == fold(data)) &&
      |kept| <= |rows|
  {
    var f := FilterDefinition(FilterWeatherForecastsBySummary, data);
    var h := DcoWeatherForecastFilterHandler(fold);
    HandlerSpecificationMatchesFilterData(fold, f, x);
    ApplyFiltersMembership([f], h, rows, x);
  }
}
