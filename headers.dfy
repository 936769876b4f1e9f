/**
 * `http.Header`: a map from a header name to its list of values. Names are
 * taken to be in canonical form already, as Go's server and client produce
 * them and as the constant names used by the proxy are.
 */
module Headers {

  type Header = map<string, seq<string>>

  /** `Header.Set`: the name now carries exactly the one value; every other name keeps its values. */
  function Set(h: Header, name: string, value: string): (r: Header)
    ensures name in r && r[name] == [value]
    ensures forall n :: n != name ==> (n in r <==> n in h)
    ensures forall n :: n != name && n in h ==> r[n] == h[n]
  {
    h[name := [value]]
  }

  /** `Header.Del`: the name is gone; every other name keeps its values. */
  function Del(h: Header, name: string): (r: Header)
    ensures name !in r
    ensures forall n :: n != name ==> (n in r <==> n in h)
    ensures forall n :: n != name && n in h ==> r[n] == h[n]
  {
    h - {name}
  }
}
