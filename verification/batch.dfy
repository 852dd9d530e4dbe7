/** The scheduled job: when the key is set, walk the fixed roster in order
    and persist one flat observation per city whose calls all succeed; a
    city that fails is logged and skipped. */
module Batch {
  import opened Wrappers
  import opened Js
  import opened Env
  import opened Payloads

  /** The roster, in declaration order. */
  const Roster: seq<string> := [
    "Delhi", "Kolkata", "Mumbai", "Chennai", "Bengaluru", "Hyderabad",
    "Ahmedabad", "Jaipur", "Lucknow", "Patna", "Bhopal", "Ranchi",
    "Guwahati", "Bhubaneswar", "Chandigarh", "Shimla", "Dehradun", "Panaji"]

  const SkipWarning: string := "Skipping cron job: missing OPENWEATHER_API_KEY"

  /** The arguments of one `console.warn` / `console.error` call. */
  datatype LogLine = LogLine(args: seq<string>)

  /** The error line as written: `err.message` sits inside the template
      literal, so the line is the same whatever was thrown. */
  function FailureLineAsWritten(city: string, e: Fault): LogLine {
    LogLine(["Error saving " + city + ":, err.message"])
  }

  /** The error line as evidently intended: a prefix naming the city, then
      the error's message as a second argument. */
  function FailureLine(city: string, e: Fault): LogLine {
    LogLine(["Error saving " + city + ":", e.message])
  }

  /** The line as written never says why the city failed. */
  lemma AsWrittenLineDropsReason(city: string, e1: Fault, e2: Fault)
    ensures FailureLineAsWritten(city, e1) == FailureLineAsWritten(city, e2)
  {
  }

  /** The corrected line tells failures of the same city apart by reason
      and failures of different cities apart by name. */
  lemma FailureLineIdentifiesFailure(c1: string, c2: string, e1: Fault, e2: Fault)
    ensures FailureLine(c1, e1) == FailureLine(c2, e2) <==> c1 == c2 && e1 == e2
  {
    if FailureLine(c1, e1) == FailureLine(c2, e2) {
      var p1, p2 := "Error saving " + c1 + ":", "Error saving " + c2 + ":";
      assert p1 == p2;
      assert |c1| == |c2|;
      assert c1 == p1[13..|p1| - 1];
      assert c2 == p2[13..|p2| - 1];
    }
  }

  /** The flat document the job writes: `cityId` and `name` at the top
      level, no `location`. */
  function FlatDocument(w: WeatherPayload, c: Coord, snap: PollutionSnapshot): Document {
    Observation(w, c, snap, w.id, w.name, None)
  }

  /** One iteration of the loop body: weather, then pollution at the
      weather reply's coordinates, then the write. No geocoding call. */
  function IngestCity(api: Services, city: string): (a: Attempt<Stored>)
    ensures 1 <= |a.issued| <= 3 && a.issued[0] == WeatherCall(city)
    ensures CitiesQueried(a.issued) == [city]
    ensures forall i :: 0 <= i < |a.issued| ==> !a.issued[i].GeocodeCall?
    ensures a.result.Success? ==>
      && api.weather(city).Success?
      && api.weather(city).value.coord.Some?
      && var w := api.weather(city).value;
         var c := w.coord.value;
         && api.pollution(c).Success?
         && Snapshot(api.pollution(c).value).Success?
         && a.result.value.doc == FlatDocument(w, c, Snapshot(api.pollution(c).value).value)
         && CopiesReply(a.result.value.doc, w)
         && a.issued == [WeatherCall(city), PollutionCall(c), CreateCall(a.result.value.doc)]
         && api.create(a.result.value.doc) == Success(a.result.value.createdAt)
         && a.result.value.doc.location.None?
         && a.result.value.doc.name == w.name
         && a.result.value.doc.cityId == w.id
  {
    var q1 := [WeatherCall(city)];
    match api.weather(city)
    case Failure(e) => Attempt(Failure(e), q1)
    case Success(w) =>
      match w.coord
      case None => Attempt(Failure(ReadOfUndefined), q1)
      case Some(c) =>
        var q2 := q1 + [PollutionCall(c)];
        assert CitiesQueried(q2) == [city] by {
          assert q2[1..] == [PollutionCall(c)];
          assert [PollutionCall(c)][1..] == [];
        }
        match api.pollution(c)
        case Failure(e) => Attempt(Failure(e), q2)
        case Success(p) =>
          match Snapshot(p)
          case Failure(e) => Attempt(Failure(e), q2)
          case Success(snap) =>
            var doc := FlatDocument(w, c, snap);
            var q3 := q2 + [CreateCall(doc)];
            assert CitiesQueried(q3) == [city] by {
              CitiesQueriedAppend(q2, [CreateCall(doc)]);
              assert [CreateCall(doc)][1..] == [];
            }
            match api.create(doc)
            case Failure(e) => Attempt(Failure(e), q3)
            case Success(t) => Attempt(Success(Stored(doc, t)), q3)
  }

  /** The converse of `IngestCity`'s success clause: when the weather reply
      has coordinates, the pollution reply has a usable first entry and the
      store accepts the flat record built from them, that record is the
      city's result. */
  lemma IngestCitySucceeds(api: Services, city: string, w: WeatherPayload, c: Coord,
                           p: PollutionPayload, t: Timestamp)
    requires api.weather(city) == Success(w) && w.coord == Some(c)
    requires api.pollution(c) == Success(p) && Snapshot(p).Success?
    requires api.create(FlatDocument(w, c, Snapshot(p).value)) == Success(t)
    ensures IngestCity(api, city).result == Success(Stored(FlatDocument(w, c, Snapshot(p).value), t))
    ensures IngestCity(api, city).issued ==
      [WeatherCall(city), PollutionCall(c), CreateCall(FlatDocument(w, c, Snapshot(p).value))]
  {
  }

  /** What walking a list of cities leaves behind. */
  datatype Walk = Walk(appended: seq<Stored>, issued: seq<Request>, log: seq<LogLine>)

  /** The `for … of` loop with its per-city `try`/`catch`. Every city is
      queried, in order, whatever happened to the cities before it. */
  function RunCities(api: Services, cities: seq<string>): (r: Walk)
    ensures CitiesQueried(r.issued) == cities
    ensures |r.appended| + |r.log| == |cities|
    ensures forall i :: 0 <= i < |r.issued| ==> !r.issued[i].GeocodeCall?
    decreases |cities|
  {
    if cities == [] then Walk([], [], [])
    else
      var a := IngestCity(api, cities[0]);
      var rest := RunCities(api, cities[1..]);
      CitiesQueriedAppend(a.issued, rest.issued);
      assert cities == [cities[0]] + cities[1..];
      match a.result
      case Success(rec) => Walk([rec] + rest.appended, a.issued + rest.issued, rest.log)
      case Failure(e) => Walk(rest.appended, a.issued + rest.issued, [FailureLine(cities[0], e)] + rest.log)
  }

  function Concat(x: Walk, y: Walk): Walk {
    Walk(x.appended + y.appended, x.issued + y.issued, x.log + y.log)
  }

  /** Walking `xs + ys` is walking `xs` and then `ys`: what happens to one
      part never changes what happens to the other. */
  lemma {:induction false} RunCitiesSplits(api: Services, xs: seq<string>, ys: seq<string>)
    ensures RunCities(api, xs + ys) == Concat(RunCities(api, xs), RunCities(api, ys))
    decreases |xs|
  {
    if xs == [] {
      assert xs + ys == ys;
    } else {
      assert (xs + ys)[1..] == xs[1..] + ys;
      RunCitiesSplits(api, xs[1..], ys);
      var a := IngestCity(api, xs[0]);
      var l, r := RunCities(api, xs[1..]), RunCities(api, ys);
      assert (a.issued + l.issued) + r.issued == a.issued + (l.issued + r.issued);
      match a.result {
        case Success(rec) =>
          assert ([rec] + l.appended) + r.appended == [rec] + (l.appended + r.appended);
        case Failure(e) =>
          assert ([FailureLine(xs[0], e)] + l.log) + r.log == [FailureLine(xs[0], e)] + (l.log + r.log);
      }
    }
  }

  /** Failure isolation: a city whose calls fail contributes only its calls
      and one log line; the records appended are those of the run without it. */
  lemma FailingCityIsIsolated(api: Services, xs: seq<string>, c: string, ys: seq<string>)
    requires IngestCity(api, c).result.Failure?
    ensures RunCities(api, xs + [c] + ys).appended == RunCities(api, xs + ys).appended
  {
    assert RunCities(api, [c]).appended == [] by {
      assert [c][1..] == [];
    }
    RunCitiesSplits(api, xs, [c]);
    assert RunCities(api, xs + [c]).appended == RunCities(api, xs).appended;
    RunCitiesSplits(api, xs + [c], ys);
    RunCitiesSplits(api, xs, ys);
  }

  /** The records appended are exactly the successful cities' records: each
      comes from some city of the list, and every city that succeeds
      contributes its record. */
  lemma {:induction false} AppendedAreTheSuccesses(api: Services, cities: seq<string>)
    ensures forall r :: r in RunCities(api, cities).appended <==>
      exists i :: 0 <= i < |cities| && IngestCity(api, cities[i]).result == Success(r)
    decreases |cities|
  {
    if cities != [] {
      AppendedAreTheSuccesses(api, cities[1..]);
      var rest := cities[1..];
      forall r
        ensures r in RunCities(api, cities).appended <==>
          exists i :: 0 <= i < |cities| && IngestCity(api, cities[i]).result == Success(r)
      {
        if exists i :: 0 <= i < |cities| && IngestCity(api, cities[i]).result == Success(r) {
          var i :| 0 <= i < |cities| && IngestCity(api, cities[i]).result == Success(r);
          if i > 0 {
            assert cities[i] == rest[i - 1];
          }
        }
        if r in RunCities(api, rest).appended {
          var i :| 0 <= i < |rest| && IngestCity(api, rest[i]).result == Success(r);
          assert cities[i + 1] == rest[i];
        }
      }
    }
  }

  /** Records are appended in list order: when two cities both succeed, the
      earlier city's record comes first. */
  lemma RunCitiesKeepsOrder(api: Services, cities: seq<string>, i: int, j: int)
    requires 0 <= i < j < |cities|
    requires IngestCity(api, cities[i]).result.Success?
    requires IngestCity(api, cities[j]).result.Success?
    ensures var ap := RunCities(api, cities).appended;
      exists k1, k2 :: 0 <= k1 < k2 < |ap|
        && ap[k1] == IngestCity(api, cities[i]).result.value
        && ap[k2] == IngestCity(api, cities[j]).result.value
  {
    var xs, ys := cities[..j], cities[j..];
    assert cities == xs + ys;
    RunCitiesSplits(api, xs, ys);
    var l, r := RunCities(api, xs).appended, RunCities(api, ys).appended;
    var ri, rj := IngestCity(api, cities[i]).result.value, IngestCity(api, cities[j]).result.value;
    assert ri in l by {
      AppendedAreTheSuccesses(api, xs);
      assert IngestCity(api, xs[i]).result == Success(ri);
    }
    assert rj in r by {
      AppendedAreTheSuccesses(api, ys);
      assert IngestCity(api, ys[0]).result == Success(rj);
    }
    var k1 :| 0 <= k1 < |l| && l[k1] == ri;
    var m :| 0 <= m < |r| && r[m] == rj;
    var ap := RunCities(api, cities).appended;
    assert ap == l + r;
    assert ap[k1] == ri && ap[|l| + m] == rj;
  }

  /** One firing of the scheduled job. */
  datatype Firing = Firing(store: seq<Stored>, issued: seq<Request>, log: seq<LogLine>)

  /** The cron callback: with no key it only warns; otherwise it walks the
      roster and appends what the walk produced. */
  function CronFiring(cfg: Config, api: Services, store: seq<Stored>): (f: Firing)
    ensures KeyMissing(cfg) ==> f == Firing(store, [], [LogLine([SkipWarning])])
    ensures !KeyMissing(cfg) ==> CitiesQueried(f.issued) == Roster
    ensures |store| <= |f.store| <= |store| + |Roster| && f.store[..|store|] == store
  {
    if KeyMissing(cfg) then Firing(store, [], [LogLine([SkipWarning])])
    else
      var w := RunCities(api, Roster);
      Firing(store + w.appended, w.issued, w.log)
  }

  /** With the key set, a firing appends exactly the records of the roster
      cities whose calls all succeeded, after everything already stored. */
  lemma CronAppendsRosterSuccesses(cfg: Config, api: Services, store: seq<Stored>)
    requires !KeyMissing(cfg)
    ensures var f := CronFiring(cfg, api, store);
      forall r :: r in f.store[|store|..] <==>
        exists i :: 0 <= i < |Roster| && IngestCity(api, Roster[i]).result == Success(r)
  {
    var f := CronFiring(cfg, api, store);
    assert f.store[|store|..] == RunCities(api, Roster).appended;
    AppendedAreTheSuccesses(api, Roster);
  }

  /** Stated in the service replies: with the key set, a roster city whose
      weather reply has coordinates, whose pollution reply has a usable first
      entry and whose flat record the store accepts has exactly that record,
      with the assigned creation time, among the records a firing appends. */
  lemma CronStoresSucceedingCity(cfg: Config, api: Services, store: seq<Stored>, i: int,
                                 w: WeatherPayload, c: Coord, p: PollutionPayload, t: Timestamp)
    requires !KeyMissing(cfg) && 0 <= i < |Roster|
    requires api.weather(Roster[i]) == Success(w) && w.coord == Some(c)
    requires api.pollution(c) == Success(p) && Snapshot(p).Success?
    requires api.create(FlatDocument(w, c, Snapshot(p).value)) == Success(t)
    ensures Stored(FlatDocument(w, c, Snapshot(p).value), t) in CronFiring(cfg, api, store).store[|store|..]
  {
    IngestCitySucceeds(api, Roster[i], w, c, p, t);
    CronAppendsRosterSuccesses(cfg, api, store);
  }

  /** A firing appends in roster order: of two roster cities that both
      succeed, the earlier one's record is stored first. */
  lemma CronKeepsRosterOrder(cfg: Config, api: Services, store: seq<Stored>, i: int, j: int)
    requires !KeyMissing(cfg) && 0 <= i < j < |Roster|
    requires IngestCity(api, Roster[i]).result.Success?
    requires IngestCity(api, Roster[j]).result.Success?
    ensures var added := CronFiring(cfg, api, store).store[|store|..];
      exists k1, k2 :: 0 <= k1 < k2 < |added|
        && added[k1] == IngestCity(api, Roster[i]).result.value
        && added[k2] == IngestCity(api, Roster[j]).result.value
  {
    assert CronFiring(cfg, api, store).store[|store|..] == RunCities(api, Roster).appended;
    RunCitiesKeepsOrder(api, Roster, i, j);
  }
}
