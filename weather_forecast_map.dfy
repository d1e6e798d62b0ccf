/// The persistence forecast record and its map to and from the domain record.
module WeatherForecastInfrastructure {
  import opened Base
  import opened Temperatures
  import opened WeatherForecasts
  import opened Capabilities

  /** The persistence forecast: a flat record keyed by `Uid`, the temperature a raw decimal. */
  datatype DboWeatherForecast = DboWeatherForecast(
    uid: Guid,
    date: DateOnly,
    temperatureC: real,
    summary: Option<string>)
  {
    /** `IKeyedEntity.KeyValue`: the boxed `Uid`. */
    function KeyValue(): Obj {
      GuidValue(uid)
    }
  }

  /** An object initialiser that leaves out `Uid`: it gets the `Guid.Empty` default. */
  function NewDboWeatherForecast(date: DateOnly, temperatureC: real, summary: Option<string>): (r: DboWeatherForecast)
    ensures r.uid == EmptyGuid && r.KeyValue() == GuidValue(EmptyGuid)
    ensures r.date == date && r.temperatureC == temperatureC && r.summary == summary
  {
    DboWeatherForecast(EmptyGuid, date, temperatureC, summary)
  }

  /** `DboWeatherForecast` is an `IKeyedEntity`: every record exposes its key value. */
  function KeyedEntity(item: DboWeatherForecast): Option<Obj> {
    Some(item.KeyValue())
  }

  /** The static `Map(DboWeatherForecast)`: persistence to domain. */
  function MapToDco(item: DboWeatherForecast): DcoWeatherForecast {
    DcoWeatherForecast(
      weatherForecastId := WeatherForecastId(item.uid),
      date := item.date,
      temperature := Temperature(item.temperatureC),
      summary := item.summary)
  }

  /** The static `Map(DcoWeatherForecast)`: domain to persistence. */
  function MapToDbo(item: DcoWeatherForecast): DboWeatherForecast {
    DboWeatherForecast(
      uid := item.weatherForecastId.value,
      date := item.date,
      temperatureC := item.temperature.TemperatureC(),
      summary := item.summary)
  }

  /** The `WeatherForecastMap` service: its two instance `MapTo` methods. */
  function WeatherForecastMap(): (m: EntityMap<DboWeatherForecast, DcoWeatherForecast>)
    ensures forall d :: m.toDomain(d) == MapToDco(d)
    ensures forall d :: m.toDbo(d) == MapToDbo(d)
  {
    EntityMap(MapToDco, MapToDbo)
  }

  lemma KeyValueIsUid(item: DboWeatherForecast)
    ensures item.KeyValue() == GuidValue(item.uid)
    ensures KeyedEntity(item) == Some(GuidValue(item.uid))
  {
  }

  /** Persistence to domain copies the uid into the identifier and carries every other field. */
  lemma MapToDcoFields(item: DboWeatherForecast)
    ensures MapToDco(item).weatherForecastId.value == item.uid
    ensures MapToDco(item).weatherForecastId.KeyValue() == item.KeyValue()
    ensures MapToDco(item).temperature.TemperatureC() == item.temperatureC
    ensures MapToDco(item).summary == item.summary && MapToDco(item).date == item.date
  {
  }

  /** Domain to persistence copies the identifier's value into the uid and carries every other field. */
  lemma MapToDboFields(item: DcoWeatherForecast)
    ensures MapToDbo(item).uid == item.weatherForecastId.value
    ensures MapToDbo(item).temperatureC == item.temperature.TemperatureC()
    ensures MapToDbo(item).summary == item.summary && MapToDbo(item).date == item.date
  {
  }

  /** The two maps are inverse bijections. */
  lemma MapRoundTrips(dbo: DboWeatherForecast, dco: DcoWeatherForecast)
    ensures MapToDbo(MapToDco(dbo)) == dbo
    ensures MapToDco(MapToDbo(dco)) == dco
  {
  }

  /** Both maps are injective, so equal images come from equal records. */
  lemma MapsAreInjective(a: DboWeatherForecast, b: DboWeatherForecast, x: DcoWeatherForecast, y: DcoWeatherForecast)
    ensures MapToDco(a) == MapToDco(b) ==> a == b
    ensures MapToDbo(x) == MapToDbo(y) ==> x == y
  {
    MapRoundTrips(a, x);
    MapRoundTrips(b, y);
  }

  /** Structural equality of persistence records: same uid, date, temperature and summary. */
  lemma DboEqualityIsStructural(a: DboWeatherForecast, b: DboWeatherForecast)
    ensures a == b <==> a.uid == b.uid && a.date == b.date && a.temperatureC == b.temperatureC && a.summary == b.summary
  {
  }
}
