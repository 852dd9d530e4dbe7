/** `GET /api/download-csv`: read every stored observation and flatten each
    into one row of a fixed 32-column table. */
module Export {
  import opened Wrappers
  import opened Js
  import opened Payloads

  const NoDataMessage: string := "No data found"
  const ExportFailedMessage: string := "Error generating CSV"

  /** The column names in the order the row literal lists them. */
  const Columns: seq<string> := [
    "City Name", "Country", "Latitude", "Longitude", "Weather Condition",
    "Weather Description", "Temperature (°C)", "Feels Like (°C)", "Min Temp (°C)",
    "Max Temp (°C)", "Pressure (hPa)", "Humidity (%)", "Wind Speed (m/s)",
    "Wind Direction (°)", "Visibility (m)", "Cloud Coverage (%)", "Air Quality Index (AQI)",
    "CO (µg/m³)", "NO (µg/m³)", "NO₂ (µg/m³)", "O₃ (µg/m³)", "SO₂ (µg/m³)",
    "PM2.5 (µg/m³)", "PM10 (µg/m³)", "NH₃ (µg/m³)", "Sunrise Time", "Sunset Time",
    "Timezone Offset", "Station Base", "Weather Code", "City ID", "Record Created At"]

  /** The last column is the only one not read through `x || ""`. */
  const CreatedAtColumn: nat := 31

  lemma ColumnCount()
    ensures |Columns| == 32 && Columns[CreatedAtColumn] == "Record Created At"
  {
  }

  datatype Cell = Cell(column: string, value: Value)
  type Row = seq<Cell>

  /** The document value each column reads (before `|| ""`), with optional
      chaining: an absent object yields `undefined`. */
  function Source(d: Document, column: string): Value {
    match column
    case "City Name" => d.name
    case "Country" => if d.sys.Some? then d.sys.value.country else Undefined
    case "Latitude" => d.coord.lat
    case "Longitude" => d.coord.lon
    case "Weather Condition" =>
      if d.weather.Some? && |d.weather.value| > 0 then d.weather.value[0].main else Undefined
    case "Weather Description" =>
      if d.weather.Some? && |d.weather.value| > 0 then d.weather.value[0].description else Undefined
    case "Temperature (°C)" => if d.mainWeather.Some? then d.mainWeather.value.temp else Undefined
    case "Feels Like (°C)" => if d.mainWeather.Some? then d.mainWeather.value.feelsLike else Undefined
    case "Min Temp (°C)" => if d.mainWeather.Some? then d.mainWeather.value.tempMin else Undefined
    case "Max Temp (°C)" => if d.mainWeather.Some? then d.mainWeather.value.tempMax else Undefined
    case "Pressure (hPa)" => if d.mainWeather.Some? then d.mainWeather.value.pressure else Undefined
    case "Humidity (%)" => if d.mainWeather.Some? then d.mainWeather.value.humidity else Undefined
    case "Wind Speed (m/s)" => if d.wind.Some? then d.wind.value.speed else Undefined
    case "Wind Direction (°)" => if d.wind.Some? then d.wind.value.deg else Undefined
    case "Visibility (m)" => d.visibility
    case "Cloud Coverage (%)" => if d.clouds.Some? then d.clouds.value.all else Undefined
    case "Air Quality Index (AQI)" => d.pollution.aqi
    case "CO (µg/m³)" => Pollutant(d, (c: Components) => c.co)
    case "NO (µg/m³)" => Pollutant(d, (c: Components) => c.no)
    case "NO₂ (µg/m³)" => Pollutant(d, (c: Components) => c.no2)
    case "O₃ (µg/m³)" => Pollutant(d, (c: Components) => c.o3)
    case "SO₂ (µg/m³)" => Pollutant(d, (c: Components) => c.so2)
    case "PM2.5 (µg/m³)" => Pollutant(d, (c: Components) => c.pm2_5)
    case "PM10 (µg/m³)" => Pollutant(d, (c: Components) => c.pm10)
    case "NH₃ (µg/m³)" => Pollutant(d, (c: Components) => c.nh3)
    case "Sunrise Time" => if d.sys.Some? then d.sys.value.sunrise else Undefined
    case "Sunset Time" => if d.sys.Some? then d.sys.value.sunset else Undefined
    case "Timezone Offset" => d.timezone
    case "Station Base" => d.base
    case "Weather Code" => d.cod
    case "City ID" => d.cityId
    case _ => Undefined
  }

  /** `item.pollution?.components?.<symbol>` */
  function Pollutant(d: Document, symbol: Components -> Value): Value {
    if d.pollution.components.Some? then symbol(d.pollution.components.value) else Undefined
  }

  /** The column names of a row, in order (`Object.keys`). */
  function Keys(row: Row): (ks: seq<string>)
    ensures |ks| == |row|
    ensures forall i :: 0 <= i < |row| ==> ks[i] == row[i].column
  {
    seq(|row|, i requires 0 <= i < |row| => row[i].column)
  }

  /** One element of `data.map(...)`: every column but the last is the
      source value when truthy and `""` otherwise; the last is the
      creation time rendered by `render` (the `en-IN` / `Asia/Kolkata`
      formatting). No cell is ever a falsy value other than `""`. */
  function FormatRow(item: Stored, render: Timestamp -> string): (row: Row)
    ensures Keys(row) == Columns
    ensures forall i :: 0 <= i < |row| ==> row[i].value == Empty || Truthy(row[i].value)
  {
    seq(|Columns|, i requires 0 <= i < |Columns| =>
      if i == CreatedAtColumn then Cell(Columns[i], Str(render(item.createdAt)))
      else Cell(Columns[i], OrEmpty(Source(item.doc, Columns[i]))))
  }

  /** The cell rule by column name: a truthy source value is copied, and
      every falsy one (absent, `null`, `0`, `false`, `NaN`, `""`) becomes `""`. */
  lemma CellRule(item: Stored, render: Timestamp -> string, i: nat)
    requires i < |Columns| && i != CreatedAtColumn
    ensures var row := FormatRow(item, render);
      var v := Source(item.doc, Columns[i]);
      && row[i].column == Columns[i]
      && (Truthy(v) ==> row[i].value == v)
      && (!Truthy(v) ==> row[i].value == Empty)
  {
    assert Keys(FormatRow(item, render))[i] == Columns[i];
  }

  /** The answer of the export route. */
  datatype Download = NotFound(error: string) | Failed(error: string) | Csv(fields: seq<string>, rows: seq<Row>)

  function Status(d: Download): int {
    match d
    case NotFound(_) => 404
    case Failed(_) => 500
    case Csv(_, _) => 200
  }

  /** The route: `read` is what `Weather.find().lean()` produced. An empty
      store is "not found", never an empty table; otherwise one row per
      stored record, in store order, under the header taken from the first
      row's keys, which is always the fixed column list. */
  function DownloadCsv(read: Result<seq<Stored>, Fault>, render: Timestamp -> string): (r: Download)
    ensures read.Failure? ==> r == Failed(ExportFailedMessage)
    ensures read.Success? && |read.value| == 0 ==> r == NotFound(NoDataMessage)
    ensures read.Success? && |read.value| > 0 ==>
      && r.Csv?
      && r.fields == Columns
      && |r.rows| == |read.value|
      && (forall i :: 0 <= i < |r.rows| ==> Keys(r.rows[i]) == r.fields)
      && (forall i :: 0 <= i < |r.rows| ==> r.rows[i] == FormatRow(read.value[i], render))
  {
    match read
    case Failure(_) => Failed(ExportFailedMessage)
    case Success(data) =>
      if |data| == 0 then NotFound(NoDataMessage)
      else
        var rows := seq(|data|, i requires 0 <= i < |data| => FormatRow(data[i], render));
        Csv(Keys(rows[0]), rows)
  }
}
