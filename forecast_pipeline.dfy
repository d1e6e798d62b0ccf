/// The forecast pipeline as the application wires it: the mapped list, item
/// and command handlers over one store of persistence forecasts, with the
/// forecast map and the forecast key. The lemmas below state what a client
/// sees across several requests.
module ForecastPipeline {
  import opened Base
  import opened Requests
  import opened WeatherForecasts
  import opened Capabilities
  import opened WeatherForecastInfrastructure
  import opened MappedListHandler
  import opened MappedItemHandler
  import opened MappedCommandHandler
  import opened WeatherForecastFilters

  /** The store key of a persistence forecast: its boxed `Uid`, the `[Key]` column. */
  function DboKey(d: DboWeatherForecast): Obj {
    d.KeyValue()
  }

  /** The registered forecast map. */
  function Mapper(): Option<EntityMap<DboWeatherForecast, DcoWeatherForecast>> {
    Some(WeatherForecastMap())
  }

  /** A command on the forecast store, with the forecast's own services. */
  function ForecastCommand(table: map<Obj, DboWeatherForecast>, request: CommandRequest<DcoWeatherForecast>): CommandEffect<DboWeatherForecast> {
    Command(table, DboKey, IsCommandEntity, Mapper(), KeyedEntity, request)
  }

  /** An unfiltered, unsorted list query over the rows of the store. */
  function ListAll(rows: seq<DboWeatherForecast>, startIndex: int, pageSize: int): Outcome<ListQueryResult<DcoWeatherForecast>> {
    ListQuery(rows, Mapper(), None, None, ListQueryRequest(startIndex, pageSize, [], []))
  }

  /** An item query for the forecast with identifier `id`, keyed by its boxed value. */
  function GetById(table: map<Obj, DboWeatherForecast>, id: WeatherForecastId): Outcome<ItemQueryResult<DcoWeatherForecast>> {
    ItemQuery(Mapper(), table, CreateItemQueryRequest(EntityUid(id.value), id.KeyValue()))
  }

  // ----- A table seen as the row sequence a list query enumerates -----

  ghost function KeysOf<R>(rows: seq<R>, keyOf: R -> Obj): set<Obj> {
    set i | 0 <= i < |rows| :: keyOf(rows[i])
  }

  ghost predicate DistinctKeys<R>(rows: seq<R>, keyOf: R -> Obj) {
    forall i, j :: 0 <= i < j < |rows| ==> keyOf(rows[i]) != keyOf(rows[j])
  }

  /** `rows` lists every record of `table` once, each under its own key, in some order. */
  ghost predicate Enumerates<R>(rows: seq<R>, table: map<Obj, R>, keyOf: R -> Obj) {
    DistinctKeys(rows, keyOf) &&
    KeysOf(rows, keyOf) == table.Keys &&
    forall i :: 0 <= i < |rows| ==> table[keyOf(rows[i])] == rows[i]
  }

  lemma {:induction false} DistinctKeysCount<R>(rows: seq<R>, keyOf: R -> Obj)
    requires DistinctKeys(rows, keyOf)
    ensures |KeysOf(rows, keyOf)| == |rows|
    decreases |rows|
  {
    if rows != [] {
      var tail := rows[1..];
      assert DistinctKeys(tail, keyOf) by {
        forall i, j | 0 <= i < j < |tail|
          ensures keyOf(tail[i]) != keyOf(tail[j])
        {
          assert tail[i] == rows[i + 1] && tail[j] == rows[j + 1];
        }
      }
      DistinctKeysCount(tail, keyOf);
      assert KeysOf(rows, keyOf) == {keyOf(rows[0])} + KeysOf(tail, keyOf) by {
        forall k | k in KeysOf(rows, keyOf)
          ensures k in {keyOf(rows[0])} + KeysOf(tail, keyOf)
        {
          var i :| 0 <= i < |rows| && keyOf(rows[i]) == k;
          if i > 0 {
            assert tail[i - 1] == rows[i];
          }
        }
        forall k | k in KeysOf(tail, keyOf)
          ensures k in KeysOf(rows, keyOf)
        {
          var i :| 0 <= i < |tail| && keyOf(tail[i]) == k;
          assert rows[i + 1] == tail[i];
        }
      }
      assert keyOf(rows[0]) !in KeysOf(tail, keyOf) by {
        forall i | 0 <= i < |tail|
          ensures keyOf(tail[i]) != keyOf(rows[0])
        {
          assert tail[i] == rows[i + 1];
        }
      }
    }
  }

  /** A row sequence that enumerates a table has one row per stored record. */
  lemma EnumerationSize<R>(rows: seq<R>, table: map<Obj, R>, keyOf: R -> Obj)
    requires Enumerates(rows, table, keyOf)
    ensures |rows| == |table|
  {
    DistinctKeysCount(rows, keyOf);
    assert |table.Keys| == |table|;
  }

  /** A list query over rows that enumerate the store counts every stored record. */
  lemma ListCountsTheStore(rows: seq<DboWeatherForecast>, table: map<Obj, DboWeatherForecast>, startIndex: int, pageSize: int)
    requires Enumerates(rows, table, DboKey)
    ensures ListAll(rows, startIndex, pageSize).Returned?
    ensures ListAll(rows, startIndex, pageSize).value.totalCount == |table|
  {
    EnumerationSize(rows, table, DboKey);
  }

  // ----- Client scenarios -----

  /** The persistence record a command stores for a domain forecast is found under the forecast's key. */
  lemma CommandKeyIsTheForecastKey(item: DcoWeatherForecast)
    ensures DboKey(MapToDbo(item)) == item.weatherForecastId.KeyValue()
    ensures WeatherForecastMap().toDomain(MapToDbo(item)) == item
  {
    MapRoundTrips(MapToDbo(item), item);
  }

  /** Getting a stored forecast by its uid returns its domain record. */
  lemma GetStoredForecast(table: map<Obj, DboWeatherForecast>, dbo: DboWeatherForecast)
    requires DboKey(dbo) in table && table[DboKey(dbo)] == dbo
    ensures var got := GetById(table, MapToDco(dbo).weatherForecastId);
      got.Returned? && got.value.successful && got.value.item == Some(MapToDco(dbo))
  {
  }

  /** A forecast stored under its own key is what getting it by its identifier returns. */
  lemma GetAfterStore(table: map<Obj, DboWeatherForecast>, item: DcoWeatherForecast)
    ensures var got := GetById(table[item.weatherForecastId.KeyValue() := MapToDbo(item)], item.weatherForecastId);
      got.Returned? && got.value.successful && got.value.item == Some(item)
  {
    CommandKeyIsTheForecastKey(item);
  }

  /** Once nothing is stored under a forecast's key, getting it by its identifier fails. */
  lemma GetAfterRemove(table: map<Obj, DboWeatherForecast>, id: WeatherForecastId)
    ensures GetById(table - {id.KeyValue()}, id) == Returned(ItemFailure(NoRecordRetrieved))
  {
    assert id.KeyValue() !in table - {id.KeyValue()};
  }

  /**
   * Adding a forecast whose key is new succeeds, returns the key, stores the
   * forecast's persistence record under it and grows the store by one;
   * getting the forecast afterwards returns it as added.
   */
  lemma AddThenGet(table: map<Obj, DboWeatherForecast>, item: DcoWeatherForecast)
    requires item.weatherForecastId.KeyValue() !in table
    ensures var e := ForecastCommand(table, CommandRequest(item, Add));
      e.result == CommandSuccessWithKey(item.weatherForecastId.KeyValue(), "Record Added") &&
      e.table == table[item.weatherForecastId.KeyValue() := MapToDbo(item)] &&
      |e.table| == |table| + 1
    ensures var got := GetById(ForecastCommand(table, CommandRequest(item, Add)).table, item.weatherForecastId);
      got.Returned? && got.value.successful && got.value.item == Some(item)
  {
    CommandKeyIsTheForecastKey(item);
    GetAfterStore(table, item);
  }

  /**
   * Updating a stored forecast succeeds, replaces its persistence record and
   * keeps the store's size; getting it afterwards returns the updated forecast.
   */
  lemma UpdateThenGet(table: map<Obj, DboWeatherForecast>, item: DcoWeatherForecast)
    requires item.weatherForecastId.KeyValue() in table
    ensures var e := ForecastCommand(table, CommandRequest(item, Update));
      e.result == CommandSuccess("Record Updated") &&
      e.table == table[item.weatherForecastId.KeyValue() := MapToDbo(item)] &&
      |e.table| == |table|
    ensures var got := GetById(ForecastCommand(table, CommandRequest(item, Update)).table, item.weatherForecastId);
      got.Returned? && got.value.successful && got.value.item == Some(item)
  {
    CommandKeyIsTheForecastKey(item);
    GetAfterStore(table, item);
  }

  /**
   * Deleting a stored forecast succeeds and shrinks the store by one;
   * getting it afterwards finds nothing.
   */
  lemma DeleteThenGet(table: map<Obj, DboWeatherForecast>, item: DcoWeatherForecast)
    requires item.weatherForecastId.KeyValue() in table
    ensures var e := ForecastCommand(table, CommandRequest(item, Delete));
      e.result == CommandSuccess("Record Deleted") &&
      e.table == table - {item.weatherForecastId.KeyValue()} &&
      |e.table| == |table| - 1
    ensures GetById(ForecastCommand(table, CommandRequest(item, Delete)).table, item.weatherForecastId) == Returned(ItemFailure(NoRecordRetrieved))
  {
    CommandKeyIsTheForecastKey(item);
    GetAfterRemove(table, item.weatherForecastId);
  }

  /** Adding a forecast whose key is already stored fails and leaves the store as it was. */
  lemma AddOfStoredKeyFails(table: map<Obj, DboWeatherForecast>, item: DcoWeatherForecast)
    requires item.weatherForecastId.KeyValue() in table
    ensures ForecastCommand(table, CommandRequest(item, Add)) == CommandEffect(CommandFailure("Error Adding Record"), table)
  {
    CommandKeyIsTheForecastKey(item);
  }

  /** Updating or deleting a forecast that is not stored fails and leaves the store as it was. */
  lemma ChangeOfMissingKeyFails(table: map<Obj, DboWeatherForecast>, item: DcoWeatherForecast)
    requires item.weatherForecastId.KeyValue() !in table
    ensures ForecastCommand(table, CommandRequest(item, Update)) == CommandEffect(CommandFailure("Error Updating Record"), table)
    ensures ForecastCommand(table, CommandRequest(item, Delete)) == CommandEffect(CommandFailure("Error Deleting Record"), table)
  {
    CommandKeyIsTheForecastKey(item);
  }

  /**
   * The list's total count after a successful command: one more after an
   * add, the same after an update, one fewer after a delete, whatever order
   * the rows are listed in before and after.
   */
  lemma CommandChangesListCount(
    table: map<Obj, DboWeatherForecast>, item: DcoWeatherForecast, state: CommandState,
    newTable: map<Obj, DboWeatherForecast>, before: seq<DboWeatherForecast>, after: seq<DboWeatherForecast>,
    startIndex: int, pageSize: int)
    requires newTable == ForecastCommand(table, CommandRequest(item, state)).table
    requires ForecastCommand(table, CommandRequest(item, state)).result.successful
    requires Enumerates(before, table, DboKey) && Enumerates(after, newTable, DboKey)
    ensures ListAll(before, startIndex, pageSize).Returned? && ListAll(after, startIndex, pageSize).Returned?
    ensures var was := ListAll(before, startIndex, pageSize).value.totalCount;
      var now := ListAll(after, startIndex, pageSize).value.totalCount;
      (state == Add ==> now == was + 1) &&
      (state == Update ==> now == was) &&
      (state == Delete ==> now == was - 1)
  {
    ListCountsTheStore(before, table, startIndex, pageSize);
    ListCountsTheStore(after, newTable, startIndex, pageSize);
  }

  /**
   * An unfiltered page of the forecast list starts with the record at the
   * start index, holds `pageSize` records when that many remain, and counts
   * the whole store.
   */
  lemma ForecastPage(rows: seq<DboWeatherForecast>, startIndex: int, pageSize: int)
    requires 0 <= startIndex < |rows| && pageSize > 0
    ensures var res := ListAll(rows, startIndex, pageSize);
      res.Returned? && res.value.successful && res.value.totalCount == |rows| &&
      |res.value.items| > 0 && res.value.items[0] == MapToDco(rows[startIndex]) &&
      (startIndex + pageSize <= |rows| ==> |res.value.items| == pageSize)
  {
    PageIsWindow(rows, startIndex, pageSize);
  }

  // ----- The store keeps every record under its own key -----

  /** A forecast fetched from a store that keys each record by its uid carries the identifier it was asked for. */
  lemma FetchedForecastCarriesItsId(table: map<Obj, DboWeatherForecast>, id: WeatherForecastId)
    requires KeyedBy(table, DboKey)
    ensures var got := GetById(table, id);
      got.Returned? && got.value.successful ==> got.value.item.Some? && got.value.item.value.weatherForecastId == id
  {
    if id.KeyValue() in table {
      assert DboKey(table[id.KeyValue()]) == id.KeyValue();
    }
  }

  /** A command on a store that keys each record by its uid leaves it keyed that way. */
  lemma CommandKeepsTheStoreKeyed(table: map<Obj, DboWeatherForecast>, request: CommandRequest<DcoWeatherForecast>)
    requires KeyedBy(table, DboKey)
    ensures KeyedBy(ForecastCommand(table, request).table, DboKey)
  {
    var e := ForecastCommand(table, request);
    var dbo := MapToDbo(request.item);
    forall k | k in e.table
      ensures DboKey(e.table[k]) == k
    {
      if k != DboKey(dbo) {
        assert k in table && e.table[k] == table[k];
      }
    }
  }

  // ----- The summary filter through the list handler -----

  /**
   * The filter handler the list handler resolves for persistence forecasts.
   * `DboWeatherForecastFilterHandler` is not part of this model: it is taken
   * to be the domain handler applied to the mapped record.
   */
  function DboSummaryFilterHandler(fold: string -> string): FilterHandler<DboWeatherForecast> {
    FilterHandler((filter: FilterDefinition) =>
      match DcoGetSpecification(filter)
      case Some(spec) => Some((d: DboWeatherForecast) => Expression(spec, fold, MapToDco(d)))
      case None => None)
  }

  /** The by-summary match on domain forecasts, for filter data `data`. */
  function SummaryIs(fold: string -> string, data: string): DcoWeatherForecast -> bool {
    (x: DcoWeatherForecast) => Expression(BySummary(data), fold, x)
  }

  /** Filtering the stored rows by summary, then mapping, gives the mapped rows that match, in store order. */
  lemma SummaryFilterThroughMap(fold: string -> string, data: string, rows: seq<DboWeatherForecast>, filters: seq<FilterDefinition>)
    requires filters == [FilterDefinition(FilterWeatherForecastsBySummary, data)]
    ensures MapAll(Filtered(rows, Some(DboSummaryFilterHandler(fold)), filters), WeatherForecastMap().toDomain) ==
            Where(MapAll(rows, MapToDco), SummaryIs(fold, data))
  {
    var f := FilterDefinition(FilterWeatherForecastsBySummary, data);
    var h := DboSummaryFilterHandler(fold);
    var q := h.getSpecification(f).value;
    assert ApplyFilters([f], h, rows) == Where(rows, q) by {
      assert [f][1..] == [];
    }
    WhereCommutesWithMap(rows, MapToDco, q, SummaryIs(fold, data));
  }

  /** True of a list request whose only filter is the by-summary filter with data `data`, and which has no sorters. */
  predicate IsSummaryRequest(request: ListQueryRequest, data: string) {
    request.filters == [FilterDefinition(FilterWeatherForecastsBySummary, data)] && request.sorters == []
  }

  /**
   * A summary-filtered list query over the stored forecasts: its total count
   * is the number of stored forecasts whose summary matches the filter data
   * ignoring case, and its items are those forecasts from the start index on
   * (all of them, in store order, when unpaged).
   */
  lemma SummaryFilteredList(fold: string -> string, data: string, rows: seq<DboWeatherForecast>, request: ListQueryRequest)
    requires IsSummaryRequest(request, data)
    ensures var res := ListQuery(rows, Mapper(), Some(DboSummaryFilterHandler(fold)), None, request);
      var matching := Where(MapAll(rows, MapToDco), SummaryIs(fold, data));
      var from := if request.pageSize > 0 then Max(0, request.startIndex) else 0;
      res.Returned? && res.value.successful &&
      res.value.totalCount == |matching| &&
      |res.value.items| == (if request.pageSize > 0 then Min(request.pageSize, Max(0, |matching| - from)) else |matching|) &&
      (forall i :: 0 <= i < |res.value.items| ==> from + i < |matching| && res.value.items[i] == matching[from + i]) &&
      (request.pageSize <= 0 ==> res.value.items == matching)
  {
    SummaryFilterThroughMap(fold, data, rows, request.filters);
    UnsortedQueryReturnsWindowOf(rows, WeatherForecastMap(), DboSummaryFilterHandler(fold), request,
      Where(MapAll(rows, MapToDco), SummaryIs(fold, data)));
  }

  /** Every item of a summary-filtered list is a stored forecast whose summary matches the filter data, ignoring case. */
  lemma SummaryFilteredItemsMatch(fold: string -> string, data: string, rows: seq<DboWeatherForecast>, request: ListQueryRequest)
    requires IsSummaryRequest(request, data)
    ensures var res := ListQuery(rows, Mapper(), Some(DboSummaryFilterHandler(fold)), None, request);
      res.Returned? &&
      forall x :: x in res.value.items ==>
        x in MapAll(rows, MapToDco) && x.summary.Some? && fold(x.summary.value) == fold(data)
  {
    var matching := Where(MapAll(rows, MapToDco), SummaryIs(fold, data));
    SummaryFilterThroughMap(fold, data, rows, request.filters);
    UnsortedQueryReturnsWindowOf(rows, WeatherForecastMap(), DboSummaryFilterHandler(fold), request, matching);
    forall x | x in matching
      ensures x in MapAll(rows, MapToDco) && x.summary.Some? && fold(x.summary.value) == fold(data)
    {
      WhereMembership(MapAll(rows, MapToDco), SummaryIs(fold, data), x);
    }
  }
}
