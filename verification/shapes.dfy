/** How the two write paths' record shapes show up in the export: the
    on-demand route stores a nested `location` and no top-level `name` or
    `cityId`, so its rows have empty "City Name" and "City ID" cells. */
module Shapes {
  import opened Wrappers
  import opened Js
  import opened Env
  import opened Payloads
  import OnDemand
  import Batch
  import Export

  const CityNameColumn: nat := 0
  const CityIdColumn: nat := 30
  const TemperatureColumn: nat := 6

  lemma CityColumns()
    ensures Export.Columns[CityNameColumn] == "City Name"
    ensures Export.Columns[CityIdColumn] == "City ID"
    ensures Export.Columns[TemperatureColumn] == "Temperature (°C)"
  {
  }

  /** The temperature the weather reply carried, as its export cell shows
      it: the truthy `main.temp`, else `""`. */
  function TemperatureCell(w: WeatherPayload): Value {
    if w.main.Some? then OrEmpty(w.main.value.temp) else Empty
  }

  /** A record written by a successful on-demand request exports with
      empty "City Name" and "City ID" cells, whatever the city. */
  lemma OnDemandRowLacksCity(cfg: Config, api: Services, city: string, store: seq<Stored>,
                             render: Timestamp -> string)
    requires OnDemand.HandleWeatherRequest(cfg, api, city, store).response.status == 200
    ensures var x := OnDemand.HandleWeatherRequest(cfg, api, city, store);
      var row := Export.FormatRow(x.store[|store|], render);
      row[CityNameColumn].value == Empty && row[CityIdColumn].value == Empty
  {
    var x := OnDemand.HandleWeatherRequest(cfg, api, city, store);
    var d := x.store[|store|].doc;
    assert d.name == Undefined && d.cityId == Undefined;
    CityColumns();
    Export.CellRule(x.store[|store|], render, CityNameColumn);
    Export.CellRule(x.store[|store|], render, CityIdColumn);
  }

  /** A record written by the scheduled job exports the weather reply's
      `name` and `id` in those cells (or `""` when they are falsy). */
  lemma BatchRowCarriesCity(api: Services, city: string, render: Timestamp -> string)
    requires Batch.IngestCity(api, city).result.Success?
    ensures var rec := Batch.IngestCity(api, city).result.value;
      var w := api.weather(city).value;
      var row := Export.FormatRow(rec, render);
      row[CityNameColumn].value == OrEmpty(w.name) && row[CityIdColumn].value == OrEmpty(w.id)
  {
    var rec := Batch.IngestCity(api, city).result.value;
    CityColumns();
    Export.CellRule(rec, render, CityNameColumn);
    Export.CellRule(rec, render, CityIdColumn);
  }

  /** End to end: the "Temperature (°C)" cell of the record a successful
      on-demand request stored is the weather reply's temperature. */
  lemma OnDemandRowCarriesTemperature(cfg: Config, api: Services, city: string, store: seq<Stored>,
                                      render: Timestamp -> string)
    requires OnDemand.HandleWeatherRequest(cfg, api, city, store).response.status == 200
    ensures var x := OnDemand.HandleWeatherRequest(cfg, api, city, store);
      Export.FormatRow(x.store[|store|], render)[TemperatureColumn].value == TemperatureCell(api.weather(city).value)
  {
    var x := OnDemand.HandleWeatherRequest(cfg, api, city, store);
    CityColumns();
    Export.CellRule(x.store[|store|], render, TemperatureColumn);
  }

  /** End to end: likewise for a record the scheduled job stored. */
  lemma BatchRowCarriesTemperature(api: Services, city: string, render: Timestamp -> string)
    requires Batch.IngestCity(api, city).result.Success?
    ensures var rec := Batch.IngestCity(api, city).result.value;
      Export.FormatRow(rec, render)[TemperatureColumn].value == TemperatureCell(api.weather(city).value)
  {
    var rec := Batch.IngestCity(api, city).result.value;
    CityColumns();
    Export.CellRule(rec, render, TemperatureColumn);
  }
}
