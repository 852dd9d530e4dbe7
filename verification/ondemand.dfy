/** `GET /api/weather/:city`: fetch weather, then pollution and reverse
    geocoding at the weather reply's coordinates, persist one nested
    observation, and answer with the two raw payloads. */
module OnDemand {
  import opened Wrappers
  import opened Js
  import opened Env
  import opened Payloads

  const MissingKeyMessage: string := "Server missing OPENWEATHER_API_KEY"
  const FetchFailedMessage: string := "Weather fetch failed"

  datatype Body = ErrorBody(error: string) | WeatherAndPollution(weather: WeatherPayload, pollution: PollutionPayload)
  datatype Response = Response(status: int, body: Body)

  /** What one request leaves behind: the answer, the store after it, and
      the calls it issued. */
  datatype Exchange = Exchange(response: Response, store: seq<Stored>, issued: seq<Request>)

  /** What a successful pipeline run hands back to the route. */
  datatype Delivery = Delivery(record: Stored, weather: WeatherPayload, pollution: PollutionPayload)

  /** The `location` sub-document: country code from the weather reply,
      country and state names from the first geocoding entry with the
      `"India"` / `"Unknown"` defaults, city id and name from the weather reply. */
  function NestedLocation(w: WeatherPayload, sys: Sys, geo: GeoEntry): Location {
    Location(sys.country, Or(geo.country, Str("India")), Or(geo.state, Str("Unknown")), w.id, w.name)
  }

  /** The object literal passed to `Weather.create`, evaluated in source
      order: `sys.country` first, then the geocoding entry, then the
      pollution list. */
  function NestedDocument(w: WeatherPayload, c: Coord, geo: seq<GeoEntry>, p: PollutionPayload): (r: Result<Document, Fault>)
    ensures r.Success? <==> w.sys.Some? && |geo| > 0 && Snapshot(p).Success?
  {
    if w.sys.None? then Failure(ReadOfUndefined)
    else if |geo| == 0 then Failure(ReadOfUndefined)
    else match Snapshot(p)
      case Failure(e) => Failure(e)
      case Success(snap) =>
        Success(Observation(w, c, snap, Undefined, Undefined, Some(NestedLocation(w, w.sys.value, geo[0]))))
  }

  /** The body of the `try` block after the key check. */
  function Pipeline(api: Services, city: string): (a: Attempt<Delivery>)
    ensures 1 <= |a.issued| <= 4 && a.issued[0] == WeatherCall(city)
    ensures forall i :: 1 <= i < |a.issued| ==> !a.issued[i].WeatherCall?
    ensures forall i :: 0 <= i < |a.issued| && (a.issued[i].PollutionCall? || a.issued[i].GeocodeCall?) ==>
      api.weather(city).Success? && api.weather(city).value.coord == Some(a.issued[i].at)
    ensures a.result.Success? ==>
      && a.issued[|a.issued| - 1] == CreateCall(a.result.value.record.doc)
      && api.create(a.result.value.record.doc) == Success(a.result.value.record.createdAt)
      && api.weather(city) == Success(a.result.value.weather)
      && CopiesReply(a.result.value.record.doc, a.result.value.weather)
      && a.result.value.record.doc.location.Some?
      && a.result.value.record.doc.cityId == Undefined
      && a.result.value.record.doc.name == Undefined
  {
    var q1 := [WeatherCall(city)];
    match api.weather(city)
    case Failure(e) => Attempt(Failure(e), q1)
    case Success(w) =>
      match w.coord
      case None => Attempt(Failure(ReadOfUndefined), q1)
      case Some(c) =>
        var q2 := q1 + [PollutionCall(c)];
        match api.pollution(c)
        case Failure(e) => Attempt(Failure(e), q2)
        case Success(p) =>
          var q3 := q2 + [GeocodeCall(c)];
          match api.geocode(c)
          case Failure(e) => Attempt(Failure(e), q3)
          case Success(geo) =>
            match NestedDocument(w, c, geo, p)
            case Failure(e) => Attempt(Failure(e), q3)
            case Success(doc) =>
              var q4 := q3 + [CreateCall(doc)];
              match api.create(doc)
              case Failure(e) => Attempt(Failure(e), q4)
              case Success(t) => Attempt(Success(Delivery(Stored(doc, t), w, p)), q4)
  }

  /** The route handler. The store only ever grows, by at most one record,
      and it grows exactly when the answer is 200. */
  function HandleWeatherRequest(cfg: Config, api: Services, city: string, store: seq<Stored>): (x: Exchange)
    ensures KeyMissing(cfg) ==> x == Exchange(Response(500, ErrorBody(MissingKeyMessage)), store, [])
    ensures x.response.status == 200 || x.response.status == 500
    ensures |store| <= |x.store| <= |store| + 1 && x.store[..|store|] == store
    ensures x.response.status == 200 <==> |x.store| == |store| + 1
    ensures x.response.status == 500 ==> x.response.body.ErrorBody?
    ensures x.response.status == 200 ==> WritesStore(x.issued)
  {
    if KeyMissing(cfg) then
      Exchange(Response(500, ErrorBody(MissingKeyMessage)), store, [])
    else
      var a := Pipeline(api, city);
      match a.result
      case Failure(_) => Exchange(Response(500, ErrorBody(FetchFailedMessage)), store, a.issued)
      case Success(d) =>
        Exchange(Response(200, WeatherAndPollution(d.weather, d.pollution)), store + [d.record], a.issued)
  }

  /** The upstream part of the request fails: the weather call, the missing
      `coord`, the pollution or geocoding call, a missing `sys`, an empty
      geocoding list, or a pollution list without a usable first entry. */
  predicate UpstreamFails(api: Services, city: string) {
    match api.weather(city)
    case Failure(_) => true
    case Success(w) =>
      match w.coord
      case None => true
      case Some(c) =>
        match (api.pollution(c), api.geocode(c))
        case (Success(p), Success(geo)) => w.sys.None? || |geo| == 0 || Snapshot(p).Failure?
        case _ => true
  }

  /** Any upstream failure ends in the generic error, nothing is written to
      the store, and no write is even attempted. */
  lemma UpstreamFailureLeavesStore(cfg: Config, api: Services, city: string, store: seq<Stored>)
    requires !KeyMissing(cfg)
    requires UpstreamFails(api, city)
    ensures var x := HandleWeatherRequest(cfg, api, city, store);
      && x.response == Response(500, ErrorBody(FetchFailedMessage))
      && x.store == store
      && !WritesStore(x.issued)
  {
  }

  /** A refused write ends the same way as an upstream failure: the write
      of this request's record was attempted, and the store is unchanged. */
  lemma RefusedWriteLeavesStore(cfg: Config, api: Services, city: string, store: seq<Stored>,
                                w: WeatherPayload, c: Coord, p: PollutionPayload, geo: seq<GeoEntry>, doc: Document)
    requires !KeyMissing(cfg)
    requires api.weather(city) == Success(w) && w.coord == Some(c)
    requires api.pollution(c) == Success(p) && api.geocode(c) == Success(geo)
    requires NestedDocument(w, c, geo, p) == Success(doc)
    requires api.create(doc).Failure?
    ensures var x := HandleWeatherRequest(cfg, api, city, store);
      && x.response == Response(500, ErrorBody(FetchFailedMessage))
      && x.store == store
      && x.issued == [WeatherCall(city), PollutionCall(c), GeocodeCall(c), CreateCall(doc)]
  {
  }

  /** When every call succeeds the store gains exactly the nested record
      built from the three replies, with the country and state defaults,
      the pollution snapshot of `list[0]`, the weather reply's fields copied
      unchanged, and the time the store assigned; the answer carries the raw
      weather and pollution payloads. */
  lemma OnDemandSuccess(cfg: Config, api: Services, city: string, store: seq<Stored>,
                        w: WeatherPayload, c: Coord, p: PollutionPayload, geo: seq<GeoEntry>, t: Timestamp)
    requires !KeyMissing(cfg)
    requires api.weather(city) == Success(w) && w.coord == Some(c) && w.sys.Some?
    requires api.pollution(c) == Success(p) && p.list.Some? && |p.list.value| > 0 && p.list.value[0].main.Some?
    requires api.geocode(c) == Success(geo) && |geo| > 0
    requires api.create(NestedDocument(w, c, geo, p).value) == Success(t)
    ensures var x := HandleWeatherRequest(cfg, api, city, store);
      var entry := p.list.value[0];
      var doc := x.store[|store|].doc;
      && x.response == Response(200, WeatherAndPollution(w, p))
      && |x.store| == |store| + 1
      && x.store[..|store|] == store
      && x.store[|store|].createdAt == t
      && doc.location == Some(Location(
           w.sys.value.country,
           if Truthy(geo[0].country) then geo[0].country else Str("India"),
           if Truthy(geo[0].state) then geo[0].state else Str("Unknown"),
           w.id, w.name))
      && doc.pollution == PollutionSnapshot(entry.main.value.aqi, entry.components, entry.dt)
      && doc.cityId == Undefined && doc.name == Undefined
      && CopiesReply(doc, w)
      && x.issued == [WeatherCall(city), PollutionCall(c), GeocodeCall(c), CreateCall(doc)]
  {
  }
}
