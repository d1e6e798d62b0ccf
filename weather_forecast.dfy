/// The weather-forecast domain records, their identifier and its key provider.
module WeatherForecasts {
  import opened Base
  import opened Temperatures

  /** The forecast identifier: a record struct around a `Guid`. */
  datatype WeatherForecastId = WeatherForecastId(value: Guid) {
    /** The identifier's key, boxed as an `object`. */
    function KeyValue(): Obj {
      GuidValue(value)
    }
  }

  /** The identifier of a forecast not yet saved. */
  const NewEntity: WeatherForecastId := WeatherForecastId(EmptyGuid)

  /** The domain forecast record; `summary` is nullable. */
  datatype DcoWeatherForecast = DcoWeatherForecast(
    weatherForecastId: WeatherForecastId,
    date: DateOnly,
    temperature: Temperature,
    summary: Option<string>)

  /** An object initialiser that leaves out the identifier: it gets the `NewEntity` default. */
  function NewDcoWeatherForecast(date: DateOnly, temperature: Temperature, summary: Option<string>): (r: DcoWeatherForecast)
    ensures r.weatherForecastId == NewEntity && r.weatherForecastId.value == EmptyGuid
    ensures r.date == date && r.temperature == temperature && r.summary == summary
  {
    DcoWeatherForecast(NewEntity, date, temperature, summary)
  }

  /** `DcoWeatherForecast` implements `ICommandEntity`: every forecast may be added, updated or deleted. */
  predicate IsCommandEntity(item: DcoWeatherForecast) {
    true
  }

  /** The plain forecast record that `WeatherForecastEditContext` edits. */
  datatype WeatherForecast = WeatherForecast(
    weatherForecastUid: Guid,
    date: DateOnly,
    temperatureC: int,
    summary: Option<string>)

  lemma KeyValueIsTheValue(id: WeatherForecastId)
    ensures id.KeyValue() == GuidValue(id.value)
  {
  }

  /** Record-struct equality of identifiers is equality of their values. */
  lemma IdEqualityIsValueEquality(a: WeatherForecastId, b: WeatherForecastId)
    ensures a == b <==> a.value == b.value
  {
  }

  lemma CommandEntityCheckAcceptsForecasts(item: DcoWeatherForecast)
    ensures IsCommandEntity(item)
  {
  }

  // ----- WeatherForecastKeyProvider -----

  datatype KeyProviderException = InvalidKeyProviderException

  /** `GetKey`: a boxed `Guid` becomes an identifier; any other object is rejected. */
  function GetKey(key: Obj): Result<WeatherForecastId, KeyProviderException> {
    match key
    case GuidValue(value) => Ok(WeatherForecastId(value))
    case _ => Err(InvalidKeyProviderException)
  }

  function GetValueObject(key: WeatherForecastId): Obj {
    GuidValue(key.value)
  }

  /** `GetNew`: an identifier around a freshly generated `Guid` (the generator is not modelled). */
  function GetNew(generated: Guid): (r: WeatherForecastId)
    ensures r.value == generated
  {
    WeatherForecastId(generated)
  }

  predicate IsDefault(key: WeatherForecastId) {
    key.value == EmptyGuid
  }

  /** `GetKey` succeeds exactly on boxed Guids and keeps their value. */
  lemma GetKeyAcceptsExactlyGuids(key: Obj)
    ensures GetKey(key).Ok? <==> key.GuidValue?
    ensures GetKey(key).Ok? ==> GetKey(key).value.value == key.g
    ensures GetKey(key).Err? ==> GetKey(key).error == InvalidKeyProviderException
  {
  }

  lemma ValueObjectIsTheKeyValue(key: WeatherForecastId)
    ensures GetValueObject(key) == key.KeyValue()
  {
  }

  /** The key provider's two conversions are inverse to each other. */
  lemma KeyRoundTrips(key: WeatherForecastId, o: Obj)
    ensures GetKey(GetValueObject(key)) == Ok(key)
    ensures GetKey(o).Ok? ==> GetValueObject(GetKey(o).value) == o
  {
  }

  /** The default key is exactly the value of `NewEntity`. */
  lemma DefaultIsNewEntity(key: WeatherForecastId)
    ensures IsDefault(key) <==> key == NewEntity
    ensures IsDefault(NewEntity)
  {
  }
}
