/** How the page finds the API: a base remembered in local storage is used as
    it is; otherwise three local ports are probed in order and the first whose
    health check answers is remembered and used. The health check (a fetch
    with a 1.2 second abort) is the parameter `healthy`. */
module ApiBase {
  import opened Common
  import opened Text

  const Ports: seq<nat> := [3000, 3001, 3002]
  const LocalOrigin := "http://localhost:"

  /** The base for a port: the local origin followed by the port's decimal digits. */
  function BaseUrl(port: nat): (r: string)
    ensures StartsWith(r, LocalOrigin) && |r| > |LocalOrigin|
    ensures forall i :: |LocalOrigin| <= i < |r| ==> IsDigit(r[i])
    ensures DecimalValue(r[|LocalOrigin|..]) == port
    ensures r[|LocalOrigin|] == '0' ==> r == LocalOrigin + "0"
  {
    var digits := NatToString(port);
    DecimalRoundTrip(port);
    assert (LocalOrigin + digits)[|LocalOrigin|..] == digits;
    LocalOrigin + digits
  }

  /** The base found (None: "API not reachable" is thrown), the cache after
      the call, and the ports probed, in order. */
  datatype Resolution = Resolution(base: Option<string>, cache: Option<string>, probed: seq<nat>)

  method ResolveApiBase(cache: Option<string>, healthy: nat -> bool) returns (r: Resolution)
    ensures Truthy(cache) ==> r == Resolution(cache, cache, [])
    ensures !Truthy(cache) ==> (r.base.Some? <==> exists k :: 0 <= k < |Ports| && healthy(Ports[k]))
    ensures !Truthy(cache) && r.base.Some? ==>
              exists k ::
                && 0 <= k < |Ports|
                && healthy(Ports[k])
                && (forall j :: 0 <= j < k ==> !healthy(Ports[j]))
                && r.base == Some(BaseUrl(Ports[k]))
                && r.probed == Ports[..k + 1]
    ensures r.base.Some? ==> r.cache == r.base && Truthy(r.cache)
    ensures r.base.None? ==> r.cache == cache && r.probed == Ports
  {
    if Truthy(cache) {
      return Resolution(cache, cache, []);
    }
    var i := 0;
    while i < |Ports|
      invariant 0 <= i <= |Ports|
      invariant forall j :: 0 <= j < i ==> !healthy(Ports[j])
    {
      if healthy(Ports[i]) {
        var base := BaseUrl(Ports[i]);
        return Resolution(Some(base), Some(base), Ports[..i + 1]);
      }
      i := i + 1;
    }
    return Resolution(None, cache, Ports);
  }
}
