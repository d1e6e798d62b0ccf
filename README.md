# Blazr.OneWayStreet: a Dafny model of the data pipeline core

Blazr.OneWayStreet is a data pipeline for Blazor applications. A data broker passes list queries, item queries and commands to generic server handlers. Those handlers run over an Entity Framework `DbContext`. This project models what is left once the database is replaced by an in-memory store, and proves properties of that model:

- **Mapped list handler** (`MappedListHandler`). It checks for an entity map, then filters, counts, sorts, pages and maps a query over a sequence of persistence records.
  - Each configuration step has its own check.
  - A missing mapper, or a missing filter or sort handler when filters or sorters are requested, raises a pipeline exception. The model writes the exception as `Outcome.Thrown`.
- **Mapped item handler** (`MappedItemHandler`). It checks for a mapper, looks the request's key up in a `map` store and maps the record it finds.
- **Generic item handler** (`ItemHandler`). A registered custom handler goes first. Otherwise the handler checks for a key, converts it with the id converter and looks the converted key up.
- **Id converter** (`IdConverter`). `TryConvert` and `Convert` normalise a boxed key by its run-time type, then fall back to parsing its text.
- **Mapped command handler** (`MappedCommandHandler`). It handles Add, Delete, Update and unrecognised states against a `Database` class whose `table` field is the store.
  - The affected-record count decides the result.
  - A keyed Add also returns the record's key.
- **Weather-forecast application pieces**: the forecast identifier and its `NewEntity` value, the key provider, the Dbo/Dco records and the map between them, the `Temperature` value object, the by-summary filter specification with its two filter handlers, and the two edit-context classes.
- **`ForecastPipeline`**. It wires the handlers to the forecast services. Its lemmas state what a client sees across several requests: add then get, update then get, delete then get, and the list count after each command.

Where the source changes state step by step, the model is imperative:

- `GetQuery`, `GetItem`, `Execute` and `ExecuteCommand` are methods. They reassign their locals as the source does.
- The command store and the edit contexts are classes with `modifies` clauses.

Each such method is proved equal to a pure function, such as `ListQuery`, `ItemQuery`, `DefaultItemQuery` or `Command`. The function's contract and the lemmas about it state what the source promises.

Things the repository calls into but does not define become parameters:

- the id converter's `long.TryParse`, `Guid.TryParse` and `Guid.ToString` (the `Framework` datatype);
- the current culture's case-insensitive comparison (a `fold` function: two texts compare equal when they fold to the same text);
- the clock behind `DateTime.Now` (a `today` argument);
- the random `Guid` of `Uuid7` (a `generated` argument).

Boxed `object` keys are the datatype `Base.Obj`. Its cases are int, long, Guid, record id wrapping a key object, and any other object known by its `ToString()` text. `decimal` is `real`.

Record shapes. `WeatherForecastMap.cs` refers to `WeatherForecastUid` and `TemperatureC` members of `DcoWeatherForecast`, but that record declares `WeatherForecastId` and `Temperature`. The tests use the declared shape, and so does the model. The map sends `Uid` to `WeatherForecastId.Value` and `TemperatureC` to `Temperature.TemperatureC`.

Three behaviours of the code are worth stating plainly, because the model follows them:

- With no sorters, `GetQueryAsync` applies no ordering (`MappedListRequestServerHandler.cs:81`), so the model keeps the filtered order.
- The mapped item handler looks up `request.KeyValue` as given, without the id converter (`MappedItemRequestServerHandler.cs:47`). Only the generic item handler converts the key.
- When no mapper is registered, the command handler returns a Failure result rather than throwing (`MappedCommandServerHandler.cs:44-45`).

## Model

| member | source | states |
|---|---|---|
| Requests.NewItemQueryRequest | Source/Libraries/Blazr.OneWayStreet/Core/Requests/ItemQueryRequest.cs:14-19 | an absent uid becomes the entity uid of Guid.Empty; an absent key value becomes a boxed Guid.Empty; present arguments are stored unchanged |
| Requests.CreateItemQueryRequest | Source/Libraries/Blazr.OneWayStreet/Core/Requests/ItemQueryRequest.cs:20-21 | `Create` equals the constructor on the same arguments and keeps both |
| IdConverter.TryConvert | Source/Libraries/Blazr.OneWayStreet/Infrastructure/Services/IdConverter.cs:19-50 | no contract of its own; its partner lemmas below state each rule in source order (int and long kept, record id unwrapped, then long text, then Guid text) and, both ways, that it fails exactly when nothing parses |
| IdConverter.Convert | Source/Libraries/Blazr.OneWayStreet/Infrastructure/Services/IdConverter.cs:11-17 | the converted value when conversion succeeds, else the original value |
| IdConverter.IntAndLongAreKept | Source/Libraries/Blazr.OneWayStreet/Infrastructure/Services/IdConverter.cs:23-29 | boxed int and long values convert to themselves |
| IdConverter.RecordIdIsUnwrapped | Source/Libraries/Blazr.OneWayStreet/Infrastructure/Services/IdConverter.cs:31-33 | a record id converts to its key object |
| IdConverter.LongParseTakesPrecedence | Source/Libraries/Blazr.OneWayStreet/Infrastructure/Services/IdConverter.cs:36-40 | text that parses as a long converts to that long, whether or not it would also parse as a Guid |
| IdConverter.GuidParseIsTheFallback | Source/Libraries/Blazr.OneWayStreet/Infrastructure/Services/IdConverter.cs:42-46 | text that is not a long but parses as a Guid converts to that Guid |
| IdConverter.ConversionFailsOnlyWhenNothingParses | Source/Libraries/Blazr.OneWayStreet/Infrastructure/Services/IdConverter.cs:19-50 | conversion fails exactly when the value is none of int, long or record id and its text parses as neither a long nor a Guid (both directions) |
| IdConverter.ConvertedValuesAreScalar | Source/Libraries/Blazr.OneWayStreet/Infrastructure/Services/IdConverter.cs:21-46 | every rule except record-id unwrapping yields an int, long or Guid |
| IdConverter.GuidIsKept | Source/Libraries/Blazr.OneWayStreet/Infrastructure/Services/IdConverter.cs:36-46 | a boxed Guid converts to itself when Guid text parses back to it and not as a long |
| IdConverter.ConversionIsIdempotent | Source/Libraries/Blazr.OneWayStreet/Infrastructure/Services/IdConverter.cs:19-50 | converting a converted scalar again gives the same result |
| IdConverter.ConvertKeepsScalars | Source/Libraries/Blazr.OneWayStreet/Infrastructure/Services/IdConverter.cs:11-17 | `Convert` leaves an int, long or Guid key unchanged |
| Temperatures.CelsiusIsTheConstructorArgument | Source/Application/Blazr.App.Core/Common/Temperature.cs:11-19 | `TemperatureC` is the constructor argument |
| Temperatures.Temperature.TemperatureF | Source/Application/Blazr.App.Core/Common/Temperature.cs:13 | no contract of its own; `FahrenheitFormula` pins it to C * 5 / 8 + 32 as written, and `ProjectionsAreStrictlyIncreasing`/`ProjectionsDetermineTheTemperature` show it is strictly increasing and injective |
| Temperatures.Temperature.TemperatureK | Source/Application/Blazr.App.Core/Common/Temperature.cs:14 | no contract of its own; `KelvinIsCelsiusPlus273` pins it to C + 273, and the projection lemmas show it is strictly increasing and injective |
| Temperatures.KelvinIsCelsiusPlus273 | Source/Application/Blazr.App.Core/Common/Temperature.cs:14 | Kelvin is Celsius plus 273 |
| Temperatures.FahrenheitFormula | Source/Application/Blazr.App.Core/Common/Temperature.cs:13 | Fahrenheit is C * 5 / 8 + 32, as written |
| Temperatures.EqualityIsCelsiusEquality | Source/Application/Blazr.App.Core/Common/Temperature.cs:9-11 | two temperatures are equal exactly when their Celsius values are |
| Temperatures.ProjectionsAreStrictlyIncreasing | Source/Application/Blazr.App.Core/Common/Temperature.cs:13-14 | Fahrenheit and Kelvin both rise strictly with Celsius |
| Temperatures.ProjectionsDetermineTheTemperature | Source/Application/Blazr.App.Core/Common/Temperature.cs:13-14 | equal Kelvin or equal Fahrenheit values mean equal temperatures |
| Temperatures.IntendedTemperatureF | Source/Application/Blazr.App.Core/Common/Temperature.cs:13 | the corrected Fahrenheit value, from which the standard inverse conversion recovers the Celsius value; it agrees with the Kelvin value |
| Temperatures.IntendedFahrenheitFixedPoints | Source/Application/Blazr.App.Core/Common/Temperature.cs:13 | the corrected conversion maps 0 to 32, 100 to 212 and -40 to -40 |
| Temperatures.AsWrittenFahrenheitMissesBoilingPoint | Source/Application/Blazr.App.Core/Common/Temperature.cs:13 | as written, 100 degrees Celsius gives 94.5 Fahrenheit rather than 212, and the inverse conversion does not recover 100 |
| WeatherForecasts.NewDcoWeatherForecast | Source/Application/Blazr.App.Core/WeatherForecasts/DataClasses/DcoWeatherForecast.cs:22-28 | a forecast built without an identifier gets `NewEntity`, the identifier of Guid.Empty, and keeps its other fields |
| WeatherForecasts.KeyValueIsTheValue | Source/Application/Blazr.App.Core/WeatherForecasts/DataClasses/DcoWeatherForecast.cs:11 | an identifier's key value is its boxed Guid |
| WeatherForecasts.IdEqualityIsValueEquality | Source/Application/Blazr.App.Core/WeatherForecasts/DataClasses/DcoWeatherForecast.cs:8-14 | two identifiers are equal exactly when their values are |
| WeatherForecasts.CommandEntityCheckAcceptsForecasts | Source/Application/Blazr.App.Core/WeatherForecasts/DataClasses/DcoWeatherForecast.cs:20 | every domain forecast passes the command handler's entity check |
| WeatherForecasts.GetNew | Source/Application/Blazr.App.Core/WeatherForecasts/DataClasses/WeatherForecastKeyProvider.cs:23-24 | a new key wraps the generated Guid |
| WeatherForecasts.GetKey | Source/Application/Blazr.App.Core/WeatherForecasts/DataClasses/WeatherForecastKeyProvider.cs:12-18 | no contract of its own; `GetKeyAcceptsExactlyGuids` and `KeyRoundTrips` state that it accepts exactly boxed Guids and inverts `GetValueObject` |
| WeatherForecasts.GetValueObject | Source/Application/Blazr.App.Core/WeatherForecasts/DataClasses/WeatherForecastKeyProvider.cs:20-21 | no contract of its own; `ValueObjectIsTheKeyValue` and `KeyRoundTrips` state that it is the identifier's key value and that `GetKey` inverts it |
| WeatherForecasts.IsDefault | Source/Application/Blazr.App.Core/WeatherForecasts/DataClasses/WeatherForecastKeyProvider.cs:26-27 | no contract of its own; `DefaultIsNewEntity` states that it holds exactly of `NewEntity` |
| WeatherForecasts.GetKeyAcceptsExactlyGuids | Source/Application/Blazr.App.Core/WeatherForecasts/DataClasses/WeatherForecastKeyProvider.cs:12-18 | `GetKey` succeeds exactly on boxed Guids and keeps their value; anything else raises InvalidKeyProviderException |
| WeatherForecasts.ValueObjectIsTheKeyValue | Source/Application/Blazr.App.Core/WeatherForecasts/DataClasses/WeatherForecastKeyProvider.cs:20-21 | `GetValueObject` is the identifier's boxed value |
| WeatherForecasts.KeyRoundTrips | Source/Application/Blazr.App.Core/WeatherForecasts/DataClasses/WeatherForecastKeyProvider.cs:12-21 | `GetKey` and `GetValueObject` are inverse to each other, in both directions |
| WeatherForecasts.DefaultIsNewEntity | Source/Application/Blazr.App.Core/WeatherForecasts/DataClasses/WeatherForecastKeyProvider.cs:26-27 | a key is the default exactly when it is `NewEntity` |
| WeatherForecastInfrastructure.NewDboWeatherForecast | Source/Application/Blazr.App.Infrastructure/WeatherForecasts/DatabaseClasses/DboWeatherForecast.cs:10 | a persistence forecast built without a uid has uid Guid.Empty |
| WeatherForecastInfrastructure.KeyValueIsUid | Source/Application/Blazr.App.Infrastructure/WeatherForecasts/DatabaseClasses/DboWeatherForecast.cs:18 | the record's key value is its boxed uid |
| WeatherForecastInfrastructure.DboEqualityIsStructural | Source/Application/Blazr.App.Infrastructure/WeatherForecasts/DatabaseClasses/DboWeatherForecast.cs:8-16 | two persistence forecasts are equal exactly when uid, date, temperature and summary are |
| WeatherForecastInfrastructure.WeatherForecastMap | Source/Application/Blazr.App.Infrastructure/WeatherForecasts/DatabaseClasses/WeatherForecastMap.cs:10-14 | the instance `MapTo` methods are the static `Map` functions |
| WeatherForecastInfrastructure.MapToDco | Source/Application/Blazr.App.Infrastructure/WeatherForecasts/DatabaseClasses/WeatherForecastMap.cs:16-23 | no contract of its own; `MapToDcoFields` states the field correspondence, and `MapRoundTrips` and `MapsAreInjective` state that `MapToDbo` inverts it |
| WeatherForecastInfrastructure.MapToDbo | Source/Application/Blazr.App.Infrastructure/WeatherForecasts/DatabaseClasses/WeatherForecastMap.cs:25-32 | no contract of its own; `MapToDboFields` states the field correspondence, and `MapRoundTrips` and `MapsAreInjective` state that `MapToDco` inverts it |
| WeatherForecastInfrastructure.MapToDcoFields | Source/Application/Blazr.App.Infrastructure/WeatherForecasts/DatabaseClasses/WeatherForecastMap.cs:16-23 | persistence to domain puts the uid in the identifier and carries date, temperature and summary |
| WeatherForecastInfrastructure.MapToDboFields | Source/Application/Blazr.App.Infrastructure/WeatherForecasts/DatabaseClasses/WeatherForecastMap.cs:25-32 | domain to persistence puts the identifier's value in the uid and carries the other fields |
| WeatherForecastInfrastructure.MapRoundTrips | Source/Application/Blazr.App.Infrastructure/WeatherForecasts/DatabaseClasses/WeatherForecastMap.cs:16-32 | the two maps are inverse to each other, in both directions |
| WeatherForecastInfrastructure.MapsAreInjective | Source/Application/Blazr.App.Infrastructure/WeatherForecasts/DatabaseClasses/WeatherForecastMap.cs:16-32 | equal images come from equal records, for both maps |
| WeatherForecastFilters.BySummaryFromText | Source/Application/Blazr.App.Core/WeatherForecasts/CQS/DcoWeatherForecastsBySummarySpecification.cs:13-16 | the text constructor stores its argument |
| WeatherForecastFilters.BySummaryFromFilter | Source/Application/Blazr.App.Core/WeatherForecasts/CQS/DcoWeatherForecastsBySummarySpecification.cs:18-21 | the filter constructor stores the filter's data text |
| WeatherForecastFilters.Expression | Source/Application/Blazr.App.Core/WeatherForecasts/CQS/DcoWeatherForecastsBySummarySpecification.cs:23-24 | no contract of its own; `ExpressionMatchesSummary` and `ExpressionDependsOnlyOnSummary` state that it holds exactly when the summary is present and equal ignoring case, and that it reads nothing else |
| WeatherForecastFilters.DcoGetSpecification | Source/Application/Blazr.App.Core/WeatherForecasts/CQS/DcoWeatherForecastFilterHandler.cs:10-15 | no contract of its own; `DcoDispatchOnName` states that it gives a specification, built from the filter, exactly for the by-summary name |
| WeatherForecastFilters.DcoWeatherForecastFilterHandler | Source/Application/Blazr.App.Core/WeatherForecasts/CQS/DcoWeatherForecastFilterHandler.cs:8-15 | no contract of its own; `HandlerSpecificationMatchesFilterData` states that its predicate for the by-summary name is the case-insensitive summary match on the filter data |
| WeatherForecastFilters.GetSpecification | Source/Application/Blazr.App.Core/WeatherForecasts/CQS/WeatherForecastFilter.cs:11-16 | no contract of its own; `PlainDispatchOnName` states that it gives a specification exactly for the by-summary name, and only the name decides |
| WeatherForecastFilters.ExpressionMatchesSummary | Source/Application/Blazr.App.Core/WeatherForecasts/CQS/DcoWeatherForecastsBySummarySpecification.cs:23-24 | the predicate holds exactly when the record has a summary equal to the stored one, ignoring case; a missing summary never matches |
| WeatherForecastFilters.ExpressionDependsOnlyOnSummary | Source/Application/Blazr.App.Core/WeatherForecasts/CQS/DcoWeatherForecastsBySummarySpecification.cs:24 | records with the same summary get the same verdict, whatever their id, date or temperature |
| WeatherForecastFilters.DcoDispatchOnName | Source/Application/Blazr.App.Core/WeatherForecasts/CQS/DcoWeatherForecastFilterHandler.cs:10-15 | a specification is returned exactly for the by-summary filter name, and it is built from that filter |
| WeatherForecastFilters.HandlerSpecificationMatchesFilterData | Source/Application/Blazr.App.Core/WeatherForecasts/CQS/DcoWeatherForecastFilterHandler.cs:13 | for that name, the handler's predicate holds exactly of the records whose summary equals the filter data, ignoring case |
| WeatherForecastFilters.PlainDispatchOnName | Source/Application/Blazr.App.Core/WeatherForecasts/CQS/WeatherForecastFilter.cs:11-16 | `WeatherForecastFilter` returns a specification exactly for the by-summary name, and only the name decides |
| WeatherForecastFilters.SummaryFilterSelectsMatchingRecords | Source/Application/Blazr.App.Core/WeatherForecasts/CQS/DcoWeatherForecastFilterHandler.cs:10-15 | the domain filter handler, applied by summary, keeps exactly the domain records whose summary equals the data, ignoring case, and never more records than stored |
| ForecastPipeline.SummaryFilterThroughMap | Source/Application/Blazr.App.Infrastructure/WeatherForecasts/Services/WeatherForecastInfrastructureServices.cs:20 | filtering the stored persistence records by summary and then mapping them gives the mapped records that match, in store order |
| ForecastPipeline.SummaryFilteredList | Test/Blazor.OneWayStreet.Test/MappedWeatherForecastTests.cs:102-117 | for any request whose only filter is by summary and which has no sorters, the list query over the store returns; its total count is the number of stored forecasts whose summary matches ignoring case; its items are those forecasts from the start index on, min(pageSize, remaining) of them when paged and all of them in store order otherwise |
| ForecastPipeline.SummaryFilteredItemsMatch | Test/Blazor.OneWayStreet.Test/MappedWeatherForecastTests.cs:102-117 | every item of a summary-filtered list is a stored forecast whose summary matches the filter data ignoring case |
| Capabilities.WhereMembership | Source/Libraries/Blazr.OneWayStreet/Infrastructure/ServerHandlers/MappedListRequestServerHandler.cs:71 | a row survives a filter exactly when it satisfies the filter's predicate |
| Capabilities.Where | Source/Libraries/Blazr.OneWayStreet/Infrastructure/ServerHandlers/MappedListRequestServerHandler.cs:71 | never longer than its input; `WhereMembership` states that it keeps exactly the rows satisfying the predicate |
| Capabilities.ApplyFilters | Source/Libraries/Blazr.OneWayStreet/Infrastructure/ServerHandlers/MappedListRequestServerHandler.cs:61-72 | never longer than its input; `ApplyFiltersMembership` states that it keeps exactly the rows satisfying every recognised filter |
| Capabilities.WhereKeepsAll | Source/Libraries/Blazr.OneWayStreet/Infrastructure/ServerHandlers/MappedListRequestServerHandler.cs:71 | a predicate that holds of every row keeps the sequence unchanged |
| Capabilities.ApplyFiltersMembership | Source/Libraries/Blazr.OneWayStreet/Infrastructure/ServerHandlers/MappedListRequestServerHandler.cs:61-72 | filters are conjunctive: a row is kept exactly when it satisfies every recognised filter (both directions) |
| Capabilities.UnknownFiltersKeepEverything | Source/Libraries/Blazr.OneWayStreet/Infrastructure/ServerHandlers/MappedListRequestServerHandler.cs:61-72 | filters the handler does not recognise leave the sequence unchanged |
| Capabilities.WhereCommutesWithMap | Source/Libraries/Blazr.OneWayStreet/Infrastructure/ServerHandlers/MappedListRequestServerHandler.cs:71-98 | filtering by a predicate that reads only the mapped record and then mapping equals filtering the mapped rows by that reading |
| Capabilities.MapAll | Source/Libraries/Blazr.OneWayStreet/Infrastructure/ServerHandlers/MappedListRequestServerHandler.cs:98 | `Select` keeps length and order, mapping each element |
| Capabilities.Find | Source/Libraries/Blazr.OneWayStreet/Infrastructure/ServerHandlers/MappedItemRequestServerHandler.cs:47 | a lookup finds a record exactly when its key is stored, and it is the stored record |
| MappedListHandler.ListQuery | Source/Libraries/Blazr.OneWayStreet/Infrastructure/ServerHandlers/MappedListRequestServerHandler.cs:36-106 | each missing service raises its own pipeline exception, and the query returns exactly when it is configured; a returned result is successful, its total count is the filtered count bounded by the store size (the whole store without filters), and its items are the mapped page of the filtered, sorted rows |
| MappedListHandler.GetQuery | Source/Libraries/Blazr.OneWayStreet/Infrastructure/ServerHandlers/MappedListRequestServerHandler.cs:36-106 | the step-by-step method computes exactly `ListQuery` |
| MappedListHandler.PageIsWindow | Source/Libraries/Blazr.OneWayStreet/Infrastructure/ServerHandlers/MappedListRequestServerHandler.cs:92-95 | a positive page is the window from the start index (a negative start counting as 0), at most `pageSize` long and exactly that long when enough rows remain |
| MappedListHandler.UnpagedIsEverything | Source/Libraries/Blazr.OneWayStreet/Infrastructure/ServerHandlers/MappedListRequestServerHandler.cs:92 | a page size of zero or less returns every row |
| MappedListHandler.TotalCountIgnoresPagingAndSorting | Source/Libraries/Blazr.OneWayStreet/Infrastructure/ServerHandlers/MappedListRequestServerHandler.cs:74-77 | two queries with the same filters report the same total count, whatever their paging and sorting |
| MappedListHandler.ItemCountBounds | Source/Libraries/Blazr.OneWayStreet/Infrastructure/ServerHandlers/MappedListRequestServerHandler.cs:92-95 | when the sort handler only reorders, a positive page holds at most `pageSize` and at most the total count of items, exactly min(pageSize, total - start) for a non-negative start; an unpaged query returns the total count of items |
| MappedListHandler.AbsentStepsConsultNoHandler | Source/Libraries/Blazr.OneWayStreet/Infrastructure/ServerHandlers/MappedListRequestServerHandler.cs:61-89 | without filters the filter handler, and without sorters the sort handler, has no effect on the result |
| MappedListHandler.UnsortedUnpagedKeepsOrder | Source/Libraries/Blazr.OneWayStreet/Infrastructure/ServerHandlers/MappedListRequestServerHandler.cs:81-98 | with no sorters and no paging the items are the mapped filtered rows in store order |
| MappedListHandler.UnsortedItemsAreMappedWindow | Source/Libraries/Blazr.OneWayStreet/Infrastructure/ServerHandlers/MappedListRequestServerHandler.cs:81-98 | without sorters the query returns, and its items are the mapped filtered rows from the start index (a negative start counting as 0), min(pageSize, remaining) of them when paged and all of them otherwise |
| MappedListHandler.UnsortedQueryReturnsWindowOf | Source/Libraries/Blazr.OneWayStreet/Infrastructure/ServerHandlers/MappedListRequestServerHandler.cs:81-98 | with a filter handler and no sorters, if the mapped filtered rows are a given sequence, the query returns with that sequence's length as total count, its page window as items (all of it when unpaged) and no item outside it |
| MappedListHandler.ExtremesAgree | Test/Blazor.OneWayStreet.Test/MappedWeatherForecastTests.cs:126-145 | of two orderings of the same distinct-key rows, the first of the descending one is the last of the ascending one |
| MappedListHandler.DescendingFirstIsAscendingLast | Test/Blazor.OneWayStreet.Test/MappedWeatherForecastTests.cs:129-145 | when the sort handler sorts by one key, the list sorted descending starts with the record that the list sorted ascending ends with |
| MappedItemHandler.ItemQuery | Source/Libraries/Blazr.OneWayStreet/Infrastructure/ServerHandlers/MappedItemRequestServerHandler.cs:34-58 | a pipeline exception exactly when no mapper is registered; otherwise success exactly when the key is stored, with the mapped stored record, and a failure with no item and the "No record retrieved" message when it is not |
| MappedItemHandler.GetItem | Source/Libraries/Blazr.OneWayStreet/Infrastructure/ServerHandlers/MappedItemRequestServerHandler.cs:34-58 | the early-return method computes exactly `ItemQuery`, reading the store only |
| ItemHandler.DefaultItemQuery | Source/Libraries/Blazr.OneWayStreet.EntityFramework/Infrastructure/ServerHandlers/ItemRequestServerHandler.cs:37-60 | success exactly when the key is present, converts and has a stored record, with that record as the item; otherwise no item and the message of the check that failed |
| ItemHandler.ExecuteItemQuery | Source/Libraries/Blazr.OneWayStreet.EntityFramework/Infrastructure/ServerHandlers/ItemRequestServerHandler.cs:23-35 | a registered custom handler's result is returned unchanged; otherwise the default path runs |
| ItemHandler.CustomHandlerTakesOver | Source/Libraries/Blazr.OneWayStreet.EntityFramework/Infrastructure/ServerHandlers/ItemRequestServerHandler.cs:27-31 | with a custom handler, neither the store nor the converter affects the result |
| ItemHandler.GetItem | Source/Libraries/Blazr.OneWayStreet.EntityFramework/Infrastructure/ServerHandlers/ItemRequestServerHandler.cs:37-60 | the method with its `key` local computes exactly `DefaultItemQuery` |
| ItemHandler.Execute | Source/Libraries/Blazr.OneWayStreet.EntityFramework/Infrastructure/ServerHandlers/ItemRequestServerHandler.cs:23-35 | the dispatching method computes exactly `ExecuteItemQuery` |
| ItemHandler.GuidKeyFindsItsRecord | Source/Libraries/Blazr.OneWayStreet.EntityFramework/Infrastructure/ServerHandlers/ItemRequestServerHandler.cs:47-59 | a boxed Guid key returns the record stored under it |
| MappedCommandHandler.StoreAdd | Source/Libraries/Blazr.OneWayStreet/Infrastructure/ServerHandlers/MappedCommandServerHandler.cs:64-65 | an insert affects one record exactly when the key is new, and then stores the record and grows the table by one; otherwise nothing changes |
| MappedCommandHandler.StoreRemove | Source/Libraries/Blazr.OneWayStreet/Infrastructure/ServerHandlers/MappedCommandServerHandler.cs:74-75 | a remove affects one record exactly when the key is stored, and then drops it and shrinks the table by one; otherwise nothing changes |
| MappedCommandHandler.StoreUpdate | Source/Libraries/Blazr.OneWayStreet/Infrastructure/ServerHandlers/MappedCommandServerHandler.cs:84-85 | an update affects one record exactly when the key is stored, and then replaces it, keeping the table's size; otherwise nothing changes |
| MappedCommandHandler.Apply | Source/Libraries/Blazr.OneWayStreet/Infrastructure/ServerHandlers/MappedCommandServerHandler.cs:57-86 | no contract of its own; it picks the store operation of the command's state, and `Command`'s contract states its effect for each state |
| MappedCommandHandler.Database.constructor | Source/Libraries/Blazr.OneWayStreet/Infrastructure/ServerHandlers/MappedCommandServerHandler.cs:49 | the database starts with the given table, every record stored under its own key |
| MappedCommandHandler.Database.Add | Source/Libraries/Blazr.OneWayStreet/Infrastructure/ServerHandlers/MappedCommandServerHandler.cs:64-65 | the table becomes `StoreAdd` of the old table under the record's key; every record stays under its own key |
| MappedCommandHandler.Database.Remove | Source/Libraries/Blazr.OneWayStreet/Infrastructure/ServerHandlers/MappedCommandServerHandler.cs:74-75 | the table becomes `StoreRemove` of the old table; every record stays under its own key |
| MappedCommandHandler.Database.Update | Source/Libraries/Blazr.OneWayStreet/Infrastructure/ServerHandlers/MappedCommandServerHandler.cs:84-85 | the table becomes `StoreUpdate` of the old table; every record stays under its own key |
| MappedCommandHandler.Command | Source/Libraries/Blazr.OneWayStreet/Infrastructure/ServerHandlers/MappedCommandServerHandler.cs:34-104 | a non-command entity, a missing mapper or an unrecognised state fails with the store unchanged; Add, Delete and Update each succeed exactly when their store operation affects a record, with their own success message and store change, and otherwise fail with their own message and the store unchanged; only a successful Add returns a key, the keyed record's key value |
| MappedCommandHandler.ExecuteCommand | Source/Libraries/Blazr.OneWayStreet/Infrastructure/ServerHandlers/MappedCommandServerHandler.cs:34-104 | the method over the `Database` object returns `Command`'s result and leaves the database's table equal to `Command`'s new table |
| EditContexts.DcoWeatherForecastEditContext.constructor | Source/Application/Blazr.App.Core/WeatherForecasts/DataClasses/DcoWeatherForecastEditContext.cs:23-29 | the context copies the identifier, summary, Celsius value and date of the record |
| EditContexts.DcoWeatherForecastEditContext.Name | Source/Application/Blazr.App.Core/WeatherForecasts/DataClasses/DcoWeatherForecastEditContext.cs:11 | no contract of its own; the fixed name "WeatherForecast Edit Context" |
| EditContexts.DcoWeatherForecastEditContext.Uid | Source/Application/Blazr.App.Core/WeatherForecasts/DataClasses/DcoWeatherForecastEditContext.cs:21 | `Uid` boxes to the identifier's key value |
| EditContexts.DcoWeatherForecastEditContext.AsRecord | Source/Application/Blazr.App.Core/WeatherForecasts/DataClasses/DcoWeatherForecastEditContext.cs:31-37 | the edited record keeps the identifier and uses each set field; an empty summary becomes "Not Set", an empty temperature 0 and an empty date today |
| EditContexts.DcoWeatherForecastEditContext.SetSummary | Source/Application/Blazr.App.Core/WeatherForecasts/DataClasses/DcoWeatherForecastEditContext.cs:15 | setting the summary changes only the summary of the edited record |
| EditContexts.DcoWeatherForecastEditContext.SetTemperatureC | Source/Application/Blazr.App.Core/WeatherForecasts/DataClasses/DcoWeatherForecastEditContext.cs:17 | setting the temperature changes only the temperature of the edited record |
| EditContexts.DcoWeatherForecastEditContext.SetDate | Source/Application/Blazr.App.Core/WeatherForecasts/DataClasses/DcoWeatherForecastEditContext.cs:19 | setting the date changes only the date of the edited record |
| EditContexts.DcoEditRoundTrip | Source/Application/Blazr.App.Core/WeatherForecasts/DataClasses/DcoWeatherForecastEditContext.cs:23-37 | a freshly built context gives its record back on any day exactly when the record has a summary; otherwise it gives the record with "Not Set" |
| EditContexts.WeatherForecastEditContext.constructor | Source/Application/Blazr.App.Core/WeatherForecasts/DataClasses/WeatherForecastEditContext.cs:23-29 | the context copies the uid, summary, temperature and date of the record |
| EditContexts.WeatherForecastEditContext.Name | Source/Application/Blazr.App.Core/WeatherForecasts/DataClasses/WeatherForecastEditContext.cs:11 | no contract of its own; the fixed name "WeatherForecast Edit Context" |
| EditContexts.WeatherForecastEditContext.Uid | Source/Application/Blazr.App.Core/WeatherForecasts/DataClasses/WeatherForecastEditContext.cs:21 | no contract of its own; the context's uid, the bare `Guid` the model uses for the wrapper type |
| EditContexts.WeatherForecastEditContext.AsRecord | Source/Application/Blazr.App.Core/WeatherForecasts/DataClasses/WeatherForecastEditContext.cs:31-37 | the edited record keeps the uid and uses each set field, with the same defaults |
| EditContexts.WeatherForecastEditContext.SetSummary | Source/Application/Blazr.App.Core/WeatherForecasts/DataClasses/WeatherForecastEditContext.cs:15 | setting the summary changes only the summary of the edited record |
| EditContexts.WeatherForecastEditContext.SetTemperatureC | Test/Blazr.Test/WeatherForecastTests.cs:162-169 | setting the temperature, as the test's increment of 10 does, changes only the temperature of the edited record |
| EditContexts.WeatherForecastEditContext.SetDate | Source/Application/Blazr.App.Core/WeatherForecasts/DataClasses/WeatherForecastEditContext.cs:19 | setting the date changes only the date of the edited record |
| EditContexts.EditRoundTrip | Source/Application/Blazr.App.Core/WeatherForecasts/DataClasses/WeatherForecastEditContext.cs:23-37 | a freshly built context gives its record back exactly when the record has a summary |
| ForecastPipeline.EnumerationSize | Test/Blazor.OneWayStreet.Test/MappedWeatherForecastTests.cs:83-90 | a row sequence listing each stored record once has one row per record of the table |
| ForecastPipeline.ListCountsTheStore | Test/Blazor.OneWayStreet.Test/MappedWeatherForecastTests.cs:83-90 | an unfiltered list over the store reports the number of stored records as its total count |
| ForecastPipeline.CommandKeyIsTheForecastKey | Source/Application/Blazr.App.Infrastructure/WeatherForecasts/DatabaseClasses/WeatherForecastMap.cs:25-32 | the persistence record of a forecast is stored under the forecast identifier's key, and maps back to the forecast |
| ForecastPipeline.GetStoredForecast | Test/Blazor.OneWayStreet.Test/MappedWeatherForecastTests.cs:56-71 | getting a stored record by its uid returns the map of that record |
| ForecastPipeline.FetchedForecastCarriesItsId | Source/Libraries/Blazr.OneWayStreet/Infrastructure/ServerHandlers/MappedItemRequestServerHandler.cs:47-57 | in a store that keeps each record under its own uid, a successful get returns the forecast with the identifier that was asked for |
| ForecastPipeline.CommandKeepsTheStoreKeyed | Source/Libraries/Blazr.OneWayStreet/Infrastructure/ServerHandlers/MappedCommandServerHandler.cs:57-86 | every command leaves a store that keeps each record under its own uid keyed that way |
| ForecastPipeline.GetAfterRemove | Source/Libraries/Blazr.OneWayStreet/Infrastructure/ServerHandlers/MappedItemRequestServerHandler.cs:47-50 | once a key is removed, getting its forecast fails with "No record retrieved" |
| ForecastPipeline.AddThenGet | Test/Blazor.OneWayStreet.Test/MappedWeatherForecastTests.cs:221-234 | adding a forecast with a new key succeeds with that key, stores it and grows the store by one, and a later get returns the forecast as added |
| ForecastPipeline.UpdateThenGet | Test/Blazor.OneWayStreet.Test/MappedWeatherForecastTests.cs:166-178 | updating a stored forecast succeeds, keeps the store's size, and a later get returns the updated forecast |
| ForecastPipeline.DeleteThenGet | Test/Blazor.OneWayStreet.Test/MappedWeatherForecastTests.cs:201-211 | deleting a stored forecast succeeds, shrinks the store by one, and a later get finds nothing |
| ForecastPipeline.AddOfStoredKeyFails | Source/Libraries/Blazr.OneWayStreet/Infrastructure/ServerHandlers/MappedCommandServerHandler.cs:58-66 | adding a forecast whose key is stored fails with "Error Adding Record" and leaves the store unchanged |
| ForecastPipeline.ChangeOfMissingKeyFails | Source/Libraries/Blazr.OneWayStreet/Infrastructure/ServerHandlers/MappedCommandServerHandler.cs:69-86 | updating or deleting a forecast that is not stored fails with its own message and leaves the store unchanged |
| ForecastPipeline.CommandChangesListCount | Test/Blazor.OneWayStreet.Test/MappedWeatherForecastTests.cs:180-242 | after a successful command the list's total count is one more for Add, the same for Update and one fewer for Delete |
| ForecastPipeline.ForecastPage | Test/Blazor.OneWayStreet.Test/MappedWeatherForecastTests.cs:78-93 | an unfiltered page counts the whole store, starts with the mapped record at the start index and holds `pageSize` records when that many remain |

## Left out

- ItemHandler.DefaultItemQuery: a converted key of the wrong run-time type is simply not found, with the "No record retrieved" failure. `FindAsync` would throw instead. An example is text "42" against a store keyed by `Guid`: it converts to a long.
- MappedCommandHandler.Command, StoreAdd: the store never assigns keys. A record is stored under the key it carries in, and a keyed Add returns that same key. A database that generates a `Guid` for a `Guid.Empty` `[Key]` on insert is not modelled. In the model, a second Add of a `NewEntity` forecast fails.
- ForecastPipeline.DboSummaryFilterHandler: `DboWeatherForecastFilterHandler`, the filter handler registered for persistence forecasts, is not part of this model. It is modelled as the domain by-summary handler applied to the mapped record.
- The database is an in-memory store: a `seq` for the list handler and a `map` for the item and command handlers. Not modelled: Entity Framework, `IDbContextFactory`, `DbSet`, change tracking, `IQueryable` and `IAsyncEnumerable` materialisation, `async`/`ValueTask` and cancellation tokens.
- `IServiceProvider.GetService` lookups are `Option` arguments: the mapper, the filter and sort handlers, and the custom item handler. Dependency-injection registration and `IDataBroker` are not part of this model.
- `MappedCommandHandler.StoreAdd`, `StoreRemove`, `StoreUpdate`: the affected-record counts are an assumption. `SaveChangesAsync` is outside the source, and the handler only inspects its count. An insert counts one when its key is new; a remove or an update counts one when the key is stored; otherwise the count is zero and the store is unchanged. A database that throws on a duplicate key is not modelled.
- `MappedCommandHandler.Database`: the store is keyed by the boxed `[Key]` value (`Obj`) rather than by a bare `Guid`. This lets the item and command handlers share one store.
- Messages that interpolate a type name or a key (`No mapper is defined for …`, `… Does not implement ICommandEntity …`, `No record retrieved with a Uid of …`, `Could not convert provided value to an Id of …`) are modelled by their fixed text only. `MappedCommandHandler.Command` states only that the non-command-entity case fails, not its message.
- The sort handler is an abstract function. Its ordering, sorter names and tie-break rules live in the `RecordSortHandler` base class, which is not part of this model. `DescendingFirstIsAscendingLast` assumes that the handler sorts by one key. The default orderings configured in `CustomerSorter.cs` and `DcoWeatherForecastSortHandler.cs` are not used, because `GetQueryAsync` never applies a default sort.
- The filter handler's `AddFiltersToQuery` lives in the `RecordFilterHandler` base class, which is not part of this model. It is modelled as one `Where` per filter, in request order, skipping filters whose name the handler does not recognise.
- `FilterDefinition.FilterData` is modelled as the text its `ToString()` gives.
- The value of `ApplicationConstants.WeatherForecast.FilterWeatherForecastsBySummary` is not part of this model. The constant is given a placeholder text, and no property depends on that text.
- Culture-aware case-insensitive comparison is the `fold` parameter. Its Unicode and culture rules are not modelled.
- `MappedItemHandler.ItemQuery`: the "Unable to map record" failure cannot arise, because a Dafny function always returns a record. The branch is left out.
- `MappedItemHandler.ItemQuery`: a key of the wrong run-time type is simply not found. `FindAsync` would throw instead.
- `WeatherForecasts.GetNew`: `Uuid7.Guid()` is a parameter, so the time ordering and uniqueness of new keys are not modelled.
- `EditContexts`: `DateTime.Now` is the `today` argument of `AsRecord`.
- `decimal` is `real`: 28-digit precision and rounding are not modelled. `WeatherForecast.TemperatureC` and the edit context's `int` temperature are unbounded integers. The test's `+ 10` overflow is not modelled.
- `WeatherForecastEditContext`: the source gives `WeatherForecastUid` a wrapper type that is not part of this model. It is modelled as the bare `Guid`.
- `WeatherForecastsBySummarySpecification`, the specification that `WeatherForecastFilter` builds, is not part of this model. Only the dispatch that builds it is modelled.
- `DcoWeatherForecastValidator` (FluentValidation) is not part of this model.

## Findings

| source | as written | input that shows it | evidently intended | confidence | as-written member | corrected member |
|---|---|---|---|---|---|---|
| Source/Application/Blazr.App.Core/Common/Temperature.cs:13 | `TemperatureF` is C * 5 / 8 + 32 | 100 degrees Celsius gives 94.5 Fahrenheit | the standard C * 9 / 5 + 32, which gives 212 | high; not executed | Temperatures.AsWrittenFahrenheitMissesBoilingPoint | Temperatures.IntendedTemperatureF |

The model keeps `Temperature.TemperatureF` as written, because the pipeline stores and compares temperatures only by their Celsius value. `IntendedTemperatureF` is the corrected projection.
