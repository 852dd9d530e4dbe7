/** Address resolution helpers: turning a reverse-geocoding `address`
    object into country / state / city / area, and the India-specific
    normalisation of the result. Neither is reached from a route. */
module Geocode {
  import opened Wrappers
  import opened Js

  /** An `address` object of a reverse-geocoding reply: field name to value. */
  type Address = map<string, Value>

  /** `a.key`: `undefined` when the field is absent. */
  function Field(a: Address, key: string): Value {
    if key in a then a[key] else Undefined
  }

  /** The administrative location the helpers produce. */
  datatype Place = Place(country: Value, state: Value, city: Value, area: Value)

  const CountryKeys: seq<string> := ["country"]
  const StateKeys: seq<string> := ["state", "state_district"]
  const CityKeys: seq<string> := ["city", "town", "municipality", "county"]
  const AreaKeys: seq<string> := ["suburb", "neighbourhood", "village"]

  /** The pure part of `reverseGeocode`: `res.data.address || {}` followed by
      one `||` chain per field, written left-associated as in the source. */
  function ResolveAddress(address: Option<Address>): (p: Place)
    ensures address.None? ==> p == Place(Empty, Empty, Empty, Empty)
  {
    var a := if address.Some? then address.value else map[];
    Place(
      Or(Field(a, "country"), Empty),
      Or(Or(Field(a, "state"), Field(a, "state_district")), Empty),
      Or(Or(Or(Or(Field(a, "city"), Field(a, "town")), Field(a, "municipality")), Field(a, "county")), Empty),
      Or(Or(Or(Field(a, "suburb"), Field(a, "neighbourhood")), Field(a, "village")), Empty))
  }

  /** `v` is the value of the first candidate field that is truthy, or `""`
      when none is. */
  ghost predicate PicksFirstTruthy(a: Address, keys: seq<string>, v: Value) {
    || (exists i :: 0 <= i < |keys| && Truthy(Field(a, keys[i])) && v == Field(a, keys[i])
                    && forall j :: 0 <= j < i ==> !Truthy(Field(a, keys[j])))
    || ((forall i :: 0 <= i < |keys| ==> !Truthy(Field(a, keys[i]))) && v == Empty)
  }

  /** The fallback chain over a list of candidate fields, right-associated. */
  function Fallback(a: Address, keys: seq<string>): Value
    decreases |keys|
  {
    if keys == [] then Empty else Or(Field(a, keys[0]), Fallback(a, keys[1..]))
  }

  lemma {:induction false} FallbackPicksFirstTruthy(a: Address, keys: seq<string>)
    ensures PicksFirstTruthy(a, keys, Fallback(a, keys))
    decreases |keys|
  {
    if keys != [] {
      var v := Fallback(a, keys);
      if Truthy(Field(a, keys[0])) {
        assert v == Field(a, keys[0]);
      } else {
        var rest := keys[1..];
        FallbackPicksFirstTruthy(a, rest);
        assert v == Fallback(a, rest);
        if exists i :: 0 <= i < |rest| && Truthy(Field(a, rest[i])) && v == Field(a, rest[i])
                       && forall j :: 0 <= j < i ==> !Truthy(Field(a, rest[j])) {
          var i :| 0 <= i < |rest| && Truthy(Field(a, rest[i])) && v == Field(a, rest[i])
                   && forall j :: 0 <= j < i ==> !Truthy(Field(a, rest[j]));
          assert keys[i + 1] == rest[i];
          assert forall j :: 0 <= j < i + 1 ==> !Truthy(Field(a, keys[j])) by {
            forall j | 0 <= j < i + 1 ensures !Truthy(Field(a, keys[j])) {
              if j > 0 { assert keys[j] == rest[j - 1]; }
            }
          }
        } else {
          forall i | 0 <= i < |keys| ensures !Truthy(Field(a, keys[i])) {
            if i > 0 { assert keys[i] == rest[i - 1]; }
          }
        }
      }
    }
  }

  /** Each resolved field is the first truthy value among its candidate
      fields, in the order the source lists them, else `""`. */
  lemma ResolveAddressFallbacks(address: Option<Address>)
    ensures var a := if address.Some? then address.value else map[];
            var p := ResolveAddress(address);
            && PicksFirstTruthy(a, CountryKeys, p.country)
            && PicksFirstTruthy(a, StateKeys, p.state)
            && PicksFirstTruthy(a, CityKeys, p.city)
            && PicksFirstTruthy(a, AreaKeys, p.area)
  {
    var a := if address.Some? then address.value else map[];
    var p := ResolveAddress(address);
    assert p.country == Fallback(a, CountryKeys);
    assert p.state == Fallback(a, StateKeys);
    assert p.city == Fallback(a, CityKeys);
    assert p.area == Fallback(a, AreaKeys);
    FallbackPicksFirstTruthy(a, CountryKeys);
    FallbackPicksFirstTruthy(a, StateKeys);
    FallbackPicksFirstTruthy(a, CityKeys);
    FallbackPicksFirstTruthy(a, AreaKeys);
  }

  /** `normalizeIndiaLocation`: replaces `city` by `state` only when the two
      are already strictly equal, so it returns its input unchanged. */
  function NormalizeIndia(loc: Place): (r: Place)
    ensures r == loc
  {
    if StrictEquals(loc.country, Str("India")) && StrictEquals(loc.city, loc.state) then
      loc.(city := loc.state)
    else loc
  }
}
