/// The mutable edit contexts a form binds to: each copies a forecast into
/// nullable fields and builds a forecast back from them, filling any field
/// left empty with a default.
module EditContexts {
  import opened Base
  import opened Temperatures
  import opened WeatherForecasts

  const EditContextName := "WeatherForecast Edit Context"
  const SummaryNotSet := "Not Set"

  /** The edit context of the domain forecast. */
  class DcoWeatherForecastEditContext {
    const weatherForecastId: WeatherForecastId
    var summary: Option<string>
    var temperatureC: Option<real>
    var date: Option<DateOnly>

    /** The context's fields hold the record's values. */
    ghost predicate Mirrors(record: DcoWeatherForecast)
      reads this
    {
      weatherForecastId == record.weatherForecastId &&
      summary == record.summary &&
      temperatureC == Some(record.temperature.TemperatureC()) &&
      date == Some(record.date)
    }

    constructor (record: DcoWeatherForecast)
      ensures Mirrors(record)
    {
      weatherForecastId := record.weatherForecastId;
      summary := record.summary;
      temperatureC := Some(record.temperature.TemperatureC());
      date := Some(record.date);
    }

    function Name(): string {
      EditContextName
    }

    /** `Uid`: the identifier's value, which boxes to the record's key value. */
    function Uid(): (r: Guid)
      ensures GuidValue(r) == weatherForecastId.KeyValue()
    {
      weatherForecastId.value
    }

    /**
     * `AsRecord`: the edited forecast, with "Not Set" for an empty summary,
     * zero degrees for an empty temperature and `today` (the current date,
     * read from the clock) for an empty date.
     */
    function AsRecord(today: DateOnly): (r: DcoWeatherForecast)
      reads this
      ensures r.weatherForecastId == weatherForecastId
      ensures r.summary.Some?
      ensures summary.Some? ==> r.summary == summary
      ensures summary.None? ==> r.summary == Some(SummaryNotSet)
      ensures temperatureC.Some? ==> r.temperature.TemperatureC() == temperatureC.value
      ensures temperatureC.None? ==> r.temperature.TemperatureC() == 0.0
      ensures date.Some? ==> r.date == date.value
      ensures date.None? ==> r.date == today
    {
      DcoWeatherForecast(
        weatherForecastId := weatherForecastId,
        summary := Some(summary.GetOr(SummaryNotSet)),
        date := date.GetOr(today),
        temperature := Temperature(temperatureC.GetOr(0.0)))
    }

    method SetSummary(value: Option<string>)
      modifies this
      ensures summary == value && temperatureC == old(temperatureC) && date == old(date)
      ensures forall today :: AsRecord(today) == old(AsRecord(today)).(summary := Some(value.GetOr(SummaryNotSet)))
    {
      summary := value;
    }

    method SetTemperatureC(value: Option<real>)
      modifies this
      ensures temperatureC == value && summary == old(summary) && date == old(date)
      ensures forall today :: AsRecord(today) == old(AsRecord(today)).(temperature := Temperature(value.GetOr(0.0)))
    {
      temperatureC := value;
    }

    method SetDate(value: Option<DateOnly>)
      modifies this
      ensures date == value && summary == old(summary) && temperatureC == old(temperatureC)
      ensures forall today :: AsRecord(today) == old(AsRecord(today)).(date := value.GetOr(today))
    {
      date := value;
    }
  }

  /**
   * A context that mirrors a record gives that record back, on any day,
   * exactly when the record has a summary; a record without one comes back
   * with "Not Set" and nothing else changed.
   */
  lemma DcoEditRoundTrip(ctx: DcoWeatherForecastEditContext, record: DcoWeatherForecast, today: DateOnly)
    requires ctx.Mirrors(record)
    ensures ctx.AsRecord(today) == record <==> record.summary.Some?
    ensures record.summary.None? ==> ctx.AsRecord(today) == record.(summary := Some(SummaryNotSet))
  {
  }

  /** The edit context of the plain forecast record; its temperature is whole degrees. */
  class WeatherForecastEditContext {
    const weatherForecastUid: Guid
    var summary: Option<string>
    var temperatureC: Option<int>
    var date: Option<DateOnly>

    ghost predicate Mirrors(record: WeatherForecast)
      reads this
    {
      weatherForecastUid == record.weatherForecastUid &&
      summary == record.summary &&
      temperatureC == Some(record.temperatureC) &&
      date == Some(record.date)
    }

    constructor (record: WeatherForecast)
      ensures Mirrors(record)
    {
      weatherForecastUid := record.weatherForecastUid;
      summary := record.summary;
      temperatureC := Some(record.temperatureC);
      date := Some(record.date);
    }

    function Name(): string {
      EditContextName
    }

    function Uid(): Guid {
      weatherForecastUid
    }

    /** `AsRecord`: the edited record, with the same defaults as the domain context. */
    function AsRecord(today: DateOnly): (r: WeatherForecast)
      reads this
      ensures r.weatherForecastUid == weatherForecastUid
      ensures r.summary.Some?
      ensures summary.Some? ==> r.summary == summary
      ensures summary.None? ==> r.summary == Some(SummaryNotSet)
      ensures temperatureC.Some? ==> r.temperatureC == temperatureC.value
      ensures temperatureC.None? ==> r.temperatureC == 0
      ensures date.Some? ==> r.date == date.value
      ensures date.None? ==> r.date == today
    {
      WeatherForecast(
        weatherForecastUid := weatherForecastUid,
        summary := Some(summary.GetOr(SummaryNotSet)),
        date := date.GetOr(today),
        temperatureC := temperatureC.GetOr(0))
    }

    method SetSummary(value: Option<string>)
      modifies this
      ensures summary == value && temperatureC == old(temperatureC) && date == old(date)
      ensures forall today :: AsRecord(today) == old(AsRecord(today)).(summary := Some(value.GetOr(SummaryNotSet)))
    {
      summary := value;
    }

    method SetTemperatureC(value: Option<int>)
      modifies this
      ensures temperatureC == value && summary == old(summary) && date == old(date)
      ensures forall today :: AsRecord(today) == old(AsRecord(today)).(temperatureC := value.GetOr(0))
    {
      temperatureC := value;
    }

    method SetDate(value: Option<DateOnly>)
      modifies this
      ensures date == value && summary == old(summary) && temperatureC == old(temperatureC)
      ensures forall today :: AsRecord(today) == old(AsRecord(today)).(date := value.GetOr(today))
    {
      date := value;
    }
  }

  lemma EditRoundTrip(ctx: WeatherForecastEditContext, record: WeatherForecast, today: DateOnly)
    requires ctx.Mirrors(record)
    ensures ctx.AsRecord(today) == record <==> record.summary.Some?
    ensures record.summary.None? ==> ctx.AsRecord(today) == record.(summary := Some(SummaryNotSet))
  {
  }
}
