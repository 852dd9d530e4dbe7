/** The shapes that flow through ingestion: upstream replies, the stored
    observation document, the upstream services themselves and the
    requests issued to them. */
module Payloads {
  import opened Wrappers
  import opened Js

  /** An error thrown inside a handler; only its `message` is observable. */
  datatype Fault = Fault(message: string)

  /** What reading a property of `undefined` (or destructuring it) throws. */
  const ReadOfUndefined: Fault := Fault("Cannot read properties of undefined")

  // ---- current-weather reply --------------------------------------------

  datatype Coord = Coord(lon: Value, lat: Value)
  /** One entry of the `weather` array. */
  datatype Condition = Condition(main: Value, description: Value)
  /** The `main` block. */
  datatype Readings = Readings(temp: Value, feelsLike: Value, tempMin: Value, tempMax: Value,
                               pressure: Value, humidity: Value)
  datatype Wind = Wind(speed: Value, deg: Value)
  datatype Clouds = Clouds(all: Value)
  datatype Sys = Sys(country: Value, sunrise: Value, sunset: Value)

  /** The body of a current-weather reply; `None` marks an absent object. */
  datatype WeatherPayload = WeatherPayload(
    id: Value, name: Value, coord: Option<Coord>, weather: Option<seq<Condition>>,
    main: Option<Readings>, base: Value, visibility: Value, wind: Option<Wind>,
    clouds: Option<Clouds>, dt: Value, sys: Option<Sys>, timezone: Value, cod: Value)

  // ---- air-pollution reply ----------------------------------------------

  datatype AirIndex = AirIndex(aqi: Value)
  datatype Components = Components(co: Value, no: Value, no2: Value, o3: Value, so2: Value,
                                   pm2_5: Value, pm10: Value, nh3: Value)
  datatype PollutionEntry = PollutionEntry(main: Option<AirIndex>, components: Option<Components>, dt: Value)
  /** The body of an air-pollution reply. */
  datatype PollutionPayload = PollutionPayload(list: Option<seq<PollutionEntry>>)

  // ---- reverse-geocoding reply (one array entry) ---------------------------

  datatype GeoEntry = GeoEntry(country: Value, state: Value)

  // ---- stored observation -------------------------------------------------

  /** The nested `location` the on-demand route writes. */
  datatype Location = Location(countryCode: Value, countryName: Value, stateName: Value,
                               cityId: Value, cityName: Value)

  /** The `pollution` sub-document: the reading of the first list entry. */
  datatype PollutionSnapshot = PollutionSnapshot(aqi: Value, components: Option<Components>, dt: Value)

  /** A document handed to `Weather.create`. The on-demand route fills
      `location` and leaves `cityId` and `name` undefined; the scheduled job
      does the opposite. */
  datatype Document = Document(
    cityId: Value, name: Value, location: Option<Location>, coord: Coord,
    weather: Option<seq<Condition>>, mainWeather: Option<Readings>, base: Value,
    visibility: Value, wind: Option<Wind>, clouds: Option<Clouds>, dt: Value,
    sys: Option<Sys>, timezone: Value, cod: Value, pollution: PollutionSnapshot)

  /** A creation time assigned by the store, in milliseconds. */
  datatype Timestamp = Timestamp(millis: int)

  /** A persisted observation: the document plus its `createdAt`. */
  datatype Stored = Stored(doc: Document, createdAt: Timestamp)

  // ---- the outside world ------------------------------------------------

  /** The upstream services and the store's write, as seen for one run:
      weather by city name, pollution and reverse geocoding by coordinates,
      and `Weather.create`, which either assigns a creation time or fails. */
  datatype Services = Services(
    weather: string -> Result<WeatherPayload, Fault>,
    pollution: Coord -> Result<PollutionPayload, Fault>,
    geocode: Coord -> Result<seq<GeoEntry>, Fault>,
    create: Document -> Result<Timestamp, Fault>)

  /** One outbound call, in the order the handler issues them. */
  datatype Request = WeatherCall(city: string) | PollutionCall(at: Coord)
                   | GeocodeCall(at: Coord) | CreateCall(doc: Document)

  /** A fallible step together with the calls it issued. */
  datatype Attempt<T> = Attempt(result: Result<T, Fault>, issued: seq<Request>)

  /** `{aqi: list[0].main.aqi, components: list[0].components, dt: list[0].dt}`:
      throws when the list is absent or empty or its first entry has no `main`. */
  function Snapshot(p: PollutionPayload): (r: Result<PollutionSnapshot, Fault>)
    ensures r.Success? <==> p.list.Some? && |p.list.value| > 0 && p.list.value[0].main.Some?
    ensures r.Success? ==>
      && r.value.components == p.list.value[0].components
      && r.value.dt == p.list.value[0].dt
      && r.value.aqi == p.list.value[0].main.value.aqi
  {
    match p.list
    case None => Failure(ReadOfUndefined)
    case Some(entries) =>
      if |entries| == 0 then Failure(ReadOfUndefined)
      else match entries[0].main
        case None => Failure(ReadOfUndefined)
        case Some(m) => Success(PollutionSnapshot(m.aqi, entries[0].components, entries[0].dt))
  }

  /** The fields both write paths copy verbatim from the weather reply. */
  function Observation(w: WeatherPayload, c: Coord, snap: PollutionSnapshot,
                       cityId: Value, name: Value, location: Option<Location>): Document
  {
    Document(cityId, name, location, c, w.weather, w.main, w.base, w.visibility, w.wind,
             w.clouds, w.dt, w.sys, w.timezone, w.cod, snap)
  }

  /** `d` carries the weather reply `w` unchanged: its coordinates, its
      conditions, readings, wind, clouds, `sys` and the scalar fields. */
  predicate CopiesReply(d: Document, w: WeatherPayload) {
    && w.coord == Some(d.coord)
    && d.weather == w.weather && d.mainWeather == w.main
    && d.base == w.base && d.visibility == w.visibility
    && d.wind == w.wind && d.clouds == w.clouds
    && d.dt == w.dt && d.sys == w.sys
    && d.timezone == w.timezone && d.cod == w.cod
  }

  /** The weather-by-name calls among `rs`, in order. */
  function CitiesQueried(rs: seq<Request>): seq<string>
    decreases |rs|
  {
    if rs == [] then []
    else (if rs[0].WeatherCall? then [rs[0].city] else []) + CitiesQueried(rs[1..])
  }

  lemma {:induction false} CitiesQueriedAppend(xs: seq<Request>, ys: seq<Request>)
    ensures CitiesQueried(xs + ys) == CitiesQueried(xs) + CitiesQueried(ys)
    decreases |xs|
  {
    if xs == [] {
      assert xs + ys == ys;
    } else {
      assert (xs + ys)[1..] == xs[1..] + ys;
      CitiesQueriedAppend(xs[1..], ys);
    }
  }

  /** Whether any of `rs` writes to the store. */
  predicate WritesStore(rs: seq<Request>) {
    exists i :: 0 <= i < |rs| && rs[i].CreateCall?
  }
}
