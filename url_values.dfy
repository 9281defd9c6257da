/**
 * Go's `url.Values` (a `map[string][]string`) and the two writers the login
 * flow uses on it. Percent-encoding (`Values.Encode`) is not modelled.
 */
module UrlValues {

  type Values = map<string, seq<string>>

  /** The values stored under `key`, or none (`v[key]` on a Go map yields nil). */
  function ValuesOf(v: Values, key: string): seq<string>
  {
    if key in v then v[key] else []
  }

  /** `v.Set(key, value)`: replaces whatever was stored under `key` by the single `value`. */
  function Set(v: Values, key: string, value: string): (r: Values)
    ensures r.Keys == v.Keys + {key}
    ensures r[key] == [value]
    ensures forall k :: k in v && k != key ==> r[k] == v[k]
  {
    v[key := [value]]
  }

  /** `v.Add(key, value)`: appends `value` after the values already stored under `key`. */
  function Add(v: Values, key: string, value: string): (r: Values)
    ensures r.Keys == v.Keys + {key}
    ensures r[key] == ValuesOf(v, key) + [value]
    ensures |r[key]| == |ValuesOf(v, key)| + 1
    ensures forall k :: k in v && k != key ==> r[k] == v[k]
  {
    v[key := ValuesOf(v, key) + [value]]
  }
}
