# Climasphere weather ingestion — a Dafny model

This project models the ingestion and export logic of the Climasphere backend
(`Backend/src/index.js`). The backend fetches current weather and air-quality
readings for Indian cities from OpenWeather, stores one observation per
successful fetch, and exports the accumulated history as a CSV table. The model
covers:

- **CORS origin check.** The allow-list holds two literal origins plus the
  comma-separated `CORS_ORIGIN` setting. Each request's `Origin` is allowed or
  refused against that list (modules `Js`, `Cors`).
- **Address resolution helpers.** `reverseGeocode` maps an `address` object to
  country / state / city / area through ordered fallback chains.
  `normalizeIndiaLocation` adjusts the result for India (module `Geocode`).
- **On-demand route `GET /api/weather/:city`.** It checks the key, then calls
  weather, pollution and reverse geocoding in a chain. It persists one nested
  observation and answers with the raw weather and pollution payloads
  (module `OnDemand`).
- **Scheduled job.** When the key is set, it walks the fixed 18-city roster in
  order, persists one flat observation per city whose calls succeed, and logs
  each city that fails (module `Batch`).
- **CSV export `GET /api/download-csv`.** It turns every stored observation into
  one 32-column row, or answers "No data found" when the store is empty
  (module `Export`). Module `Shapes` shows how the two record shapes look once
  exported.

How the outside world appears in the model:

- **Upstream services and the store's write.** These are the function-typed
  fields of `Payloads.Services`. Weather is looked up by city name; pollution
  and reverse geocoding by coordinates. `Weather.create` either assigns a
  creation time or fails.
- **Calls issued.** Every pipeline returns the list of calls it made
  (`Payloads.Request`). This makes "no call was made", "the coordinates of the
  first reply feed the next two calls" and "every roster city is queried"
  statable.
- **The store.** It is an append-only `seq<Stored>`. The export route receives
  what `Weather.find().lean()` returned, as a `Result`.
- **JavaScript values.** These are `Js.Value`. Truthiness, `||`, `===`, `trim`
  and `split` are written out in `Js`.
- **Environment variables.** These are `Env.Config`. `!API_KEY` is
  `Env.KeyMissing`, so an unset key and an empty key both count as missing.
- **Timestamp rendering.** The `en-IN` / `Asia/Kolkata` rendering of
  `createdAt` is a parameter `render`.

Behaviour worth noting:

- `normalizeIndiaLocation` only rewrites `city` when it already equals `state`,
  so it is the identity (`Geocode.NormalizeIndia`).
- The scheduled job makes no reverse-geocoding call. It writes a flat record
  (`cityId`, `name`) rather than the nested `location` that the on-demand route
  writes.
- Export cells use `x || ""`, so `0`, `false` and `NaN` also become `""`, not
  just absent fields.
- The CORS branch for an empty allow-list outside production can never be
  taken, because the list always holds the two literal origins.
- Export is a pure function of what was read, so exporting the same store twice
  gives the same table by construction.

## Model

| member | source | states |
|---|---|---|
| Js.SplitJoin | Backend/src/index.js:21 | joining the pieces of `split(",")` with commas gives back the original setting, so splitting loses nothing |
| Js.JoinSplit | Backend/src/index.js:21 | splitting a comma-join of comma-free pieces gives back exactly those pieces, so `split` and `join` are inverse |
| Js.TrimCutsOnlySpace | Backend/src/index.js:17-21 | `trim` returns a contiguous slice of its input and removes only white space, and only from the two ends |
| Js.TrimUnchanged | Backend/src/index.js:21 | a string that neither starts nor ends with white space is left as it is by `trim` |
| Js.TrimIdempotent | Backend/src/index.js:21 | trimming an already trimmed string changes nothing |
| Cors.DropEmptyMembers | Backend/src/index.js:22 | `filter(Boolean)` keeps exactly the non-empty entries |
| Cors.AllowedOrigins | Backend/src/index.js:17-22 | the list starts with the two literal origins and has no empty entries; entries from `CORS_ORIGIN` have no surrounding white space; with `CORS_ORIGIN` unset the list is just the two literals |
| Cors.AllowedOriginsMembers | Backend/src/index.js:17-22 | an origin is listed iff it is one of the two literals, or the non-empty trim of some comma-separated piece of `CORS_ORIGIN` |
| Cors.DecideOrigin | Backend/src/index.js:25-35 | an origin is only refused when it is present and not on the list |
| Cors.CorsPolicy | Backend/src/index.js:25-34 | with the list the service builds, a missing or empty origin is allowed; any other origin is allowed iff listed, else refused with "CORS blocked for origin: …"; `NODE_ENV` never changes the answer |
| Geocode.ResolveAddress | Backend/src/index.js:119-126 | a missing `address` yields `""` for all four fields |
| Geocode.FallbackPicksFirstTruthy | Backend/src/index.js:122-125 | a `||` chain over candidate fields yields the first truthy candidate's value, else `""` |
| Geocode.ResolveAddressFallbacks | Backend/src/index.js:119-126 | country is `country`; state is `state` then `state_district`; city is `city`, `town`, `municipality`, `county`; area is `suburb`, `neighbourhood`, `village`; each is the first truthy value in that order, else `""` |
| Geocode.NormalizeIndia | Backend/src/index.js:129-137 | `normalizeIndiaLocation` returns its input unchanged for every location |
| Payloads.Snapshot | Backend/src/index.js:191-195 | the pollution snapshot exists iff the list is present and non-empty and its first entry has `main`; it is built from `list[0]` |
| OnDemand.NestedDocument | Backend/src/index.js:164-196 | building the record fails exactly when `sys` is missing, the geocoding list is empty, or the pollution list has no usable first entry |
| OnDemand.Pipeline | Backend/src/index.js:147-196 | the weather call comes first and is the only weather call; pollution and geocoding calls use the coordinates of the weather reply; on success the last call is the write of the returned record, the record copies the weather reply's coordinates, readings and other fields unchanged, has a `location` and no `name` or `cityId`, and its creation time is the one the store assigned |
| OnDemand.HandleWeatherRequest | Backend/src/index.js:139-207 | with no key the answer is the missing-key 500 and nothing is called or stored; the store only gains records, at most one; it grows exactly when the answer is 200; every 500 carries an error body |
| OnDemand.UpstreamFailureLeavesStore | Backend/src/index.js:147-206 | if the weather, pollution or geocoding call fails, `coord` or `sys` is missing, the geocoding list is empty or the pollution list is unusable: the answer is 500 "Weather fetch failed", the store is unchanged and no write is attempted |
| OnDemand.RefusedWriteLeavesStore | Backend/src/index.js:164-206 | when the store refuses this request's record, the answer is 500 "Weather fetch failed", the store is unchanged, and the calls were weather, pollution, geocoding and the refused write |
| OnDemand.OnDemandSuccess | Backend/src/index.js:164-203 | when every call succeeds the answer is 200 with the raw weather and pollution payloads; the store gains exactly one record holding the nested location (country name defaults to "India", state to "Unknown"), the `list[0]` pollution snapshot, the weather reply's fields copied unchanged, no `name` or `cityId`, and the assigned creation time; the calls are weather, pollution, geocoding, write |
| Batch.IngestCity | Backend/src/index.js:327-355 | one city queries weather first and never calls geocoding; it succeeds only if the weather reply has coordinates, the pollution reply at those coordinates has a usable first entry and the store accepts the flat record built from the two replies, and then that record (the reply's fields, its `name` and `id`, no `location`) with the assigned time is the result and the calls were weather, pollution, write |
| Batch.IngestCitySucceeds | Backend/src/index.js:327-355 | conversely, when those replies are usable and the store accepts the flat record, the city succeeds with exactly that record and creation time |
| Batch.RunCities | Backend/src/index.js:326-359 | every city of the list is queried, in list order, whatever happened to earlier cities; each city either appends one record or logs one failure; geocoding is never called |
| Batch.RunCitiesSplits | Backend/src/index.js:326-359 | walking `xs + ys` equals walking `xs`, then `ys`, so records, calls and log lines of the two parts concatenate |
| Batch.FailingCityIsIsolated | Backend/src/index.js:326-359 | inserting a failing city anywhere in the list leaves the appended records exactly as they are without it |
| Batch.AppendedAreTheSuccesses | Backend/src/index.js:326-359 | a record is appended iff some city of the list succeeded with exactly that record |
| Batch.RunCitiesKeepsOrder | Backend/src/index.js:326-359 | of two cities that both succeed, the earlier city's record is appended before the later one's |
| Batch.CronFiring | Backend/src/index.js:318-360 | with no key the job only warns, calls nothing and stores nothing; otherwise it queries the whole roster in order; the store keeps its old records and gains at most one per roster city |
| Batch.CronAppendsRosterSuccesses | Backend/src/index.js:321-359 | with the key set, the records appended by a firing are exactly those of the roster cities whose calls all succeeded |
| Batch.CronStoresSucceedingCity | Backend/src/index.js:321-359 | with the key set, a roster city whose weather reply has coordinates, whose pollution reply has a usable first entry and whose flat record the store accepts has that record, with its creation time, among the records the firing appends |
| Batch.CronKeepsRosterOrder | Backend/src/index.js:321-359 | a firing appends the successful cities' records in roster order |
| Batch.AsWrittenLineDropsReason | Backend/src/index.js:356-358 | the error line as written is identical whatever error was thrown |
| Batch.FailureLineIdentifiesFailure | Backend/src/index.js:356-358 | the corrected error line determines both the city and the error |
| Export.ColumnCount | Backend/src/index.js:253-284 | the table has 32 columns and the last is "Record Created At" |
| Export.FormatRow | Backend/src/index.js:252-294 | every row's keys are the fixed 32 column names in literal order; no cell is a falsy value other than `""` |
| Export.CellRule | Backend/src/index.js:253-283 | for every column but the timestamp, a truthy source value is copied and any falsy one (absent, `null`, `0`, `false`, `NaN`, `""`) becomes `""` |
| Export.DownloadCsv | Backend/src/index.js:243-297 | a failed read yields 500; an empty store yields "No data found", never a table; otherwise there is one row per stored record in store order, every row has the header's keys, and the header from the first row's keys is the fixed column list |
| Shapes.OnDemandRowLacksCity | Backend/src/index.js:253-283 | a record stored by a successful on-demand request exports with empty "City Name" and "City ID" cells |
| Shapes.BatchRowCarriesCity | Backend/src/index.js:253-283 | a record stored by the scheduled job exports the weather reply's `name` and `id` in those cells, or `""` when they are falsy |
| Shapes.OnDemandRowCarriesTemperature | Backend/src/index.js:259 | the "Temperature (°C)" cell of a record stored by a successful on-demand request (which keeps the reply's `main` as `mainWeather`, line 181) is the weather reply's `main.temp`, or `""` when it is falsy or `main` is absent |
| Shapes.BatchRowCarriesTemperature | Backend/src/index.js:259 | likewise for a record stored by the scheduled job (`mainWeather` set at line 341) |

## Findings

| source | as written | input that shows it | evidently intended | confidence | as-written member | corrected member |
|---|---|---|---|---|---|---|
| Backend/src/index.js:357 | ``console.error(`Error saving ${city}:, err.message`)`` puts `err.message` inside the template literal | any city whose fetch throws, e.g. a 404 for "Delhi": the line is `Error saving Delhi:, err.message` | ``console.error(`Error saving ${city}:`, err.message)``, which prints the reason | high (not executed) | Batch.FailureLineAsWritten (Batch.AsWrittenLineDropsReason) | Batch.FailureLine (Batch.FailureLineIdentifiesFailure) |

`Batch.RunCities` logs with the corrected `Batch.FailureLine`.

## Left out

- **Network calls.** The axios calls are abstract replies, not network
  behaviour: weather, pollution and geocoding at lines 147-160 and 328-335, and
  the Nominatim request inside `reverseGeocode` at lines 110-117.
- **Unvarying replies.** Each service is a fixed function for the duration of
  one run. A city queried twice in one run would get the same reply. The
  roster's names are distinct, and the on-demand route queries once.
- **The reverse-geocode proxy route.** Lines 209-219 pass a third-party reply
  through unchanged and have no logic of their own.
- **Mongo and mongoose.** `connectDB`, the listener (362-371) and the
  `Weather` schema are left out. Schema casting, validation and field stripping
  are not modelled, because `models/weatherModel.js` is not part of this model.
  A write either succeeds with a creation time or fails.
- **Scheduling and concurrency.** The cron expression and its timing (318) are
  left out, and so is any overlap of a firing with requests. Each firing is one
  sequential function call.
- **Date formatting.** The locale and time-zone rendering of "Record Created At"
  (284-293) is an opaque parameter.
- **CSV text.** The `json2csv` serialisation (299-311) is a foreign library.
  The model stops at fields and rows, so a serialiser failure (the other cause
  of the 500 at 312-315) is not modelled; only a failed read is.
- **Floating point.** Readings are exact reals inside `Js.Value`. There is no
  rounding and no `-0`.
- **Unusual payloads.** Payload shapes are limited to absent-or-object: a
  non-object `coord`, `address` or `sys`, and `null` array entries, are not
  represented.
- **Console output outside the job's error line.** The `Data` log (198), the
  start-up key warning (52-56) and the cron start message (319) are left out.
- **Express wiring.** App, middleware and route registration (14-15, 39-46,
  58-60) are left out.
- **Dead code.** The commented-out route (63-108) is not modelled.
- **`Backend/src/utils/cloudinary.js` and `Backend/src/sendOTP.js`.** These are
  file upload to a third-party service and mail-transport configuration, with
  no ingestion logic.
- Batch.RunCities: a failing city is logged with the corrected line
  `Batch.FailureLine` (city, then the error's message), not with the single
  literal line printed at line 357; the as-written line is
  `Batch.FailureLineAsWritten` (see Findings).
- Cors.AllowedOrigins: the "no surrounding white space" clause is stated only
  for the entries that come from `CORS_ORIGIN`. The two literal origins are
  instead pinned by value.
