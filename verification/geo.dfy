/**
 * The geolocation guard in front of the ip-api.com lookup: addresses the
 * service treats as local never reach the network, and a lookup that fails
 * or reports anything but success yields no location.
 */
module Geo {
  import opened Wrappers
  import opened Text

  /** The fields of an ip-api.com JSON reply the service reads. */
  datatype GeoResponse = GeoResponse(
    status: string,
    city: string,
    regionName: string,
    countryCode: string,
    lat: real,
    lon: real)

  /** What the HTTP call produced: a decoded reply, or a thrown error. */
  datatype Lookup = Responded(data: GeoResponse) | Failed

  /** The location record merged into a request log. */
  datatype Location = Location(city: string, region: string, country: string, latitude: real, longitude: real)

  /**
   * One call of the guard: the URL it fetched (`None` when it returned
   * before any network access) and the location it produced.
   */
  datatype GeoCall = GeoCall(fetched: Option<string>, location: Option<Location>)

  const LookupBase: string := "http://ip-api.com/json/"

  /** The addresses the service answers without a lookup, listed exactly. */
  const LocalAddresses: set<string> := {"", "::1", "127.0.0.1"}
  const PrivatePrefixes: seq<string> := ["192.168.", "10."]

  /** The guard's condition, as the source writes it, in its evaluation order. */
  predicate SkipsLookup(ip: string) {
    ip == "" || ip == "::1" || StartsWith(ip, "192.168.") || StartsWith(ip, "10.") || ip == "127.0.0.1"
  }

  /**
   * `getGeoData`: the network call is the function `lookup` from URL to
   * outcome, so the model records which URL would have been fetched.
   */
  function GetGeoData(ip: string, lookup: string -> Lookup): (r: GeoCall)
    ensures r.fetched.None? <==> (ip in LocalAddresses || exists i :: 0 <= i < |PrivatePrefixes| && StartsWith(ip, PrivatePrefixes[i]))
    ensures r.fetched.Some? ==> r.fetched.value == LookupBase + ip
    ensures r.location.Some? ==> r.fetched.Some?
    ensures r.location.Some? <==>
              r.fetched.Some? && lookup(LookupBase + ip).Responded? && lookup(LookupBase + ip).data.status == "success"
  {
    assert StartsWith(ip, "192.168.") ==> StartsWith(ip, PrivatePrefixes[0]);
    assert StartsWith(ip, "10.") ==> StartsWith(ip, PrivatePrefixes[1]);
    if SkipsLookup(ip) then GeoCall(None, None)
    else
      var url := LookupBase + ip;
      match lookup(url)
      case Failed => GeoCall(Some(url), None)
      case Responded(data) =>
        if data.status == "success" then
          GeoCall(Some(url), Some(Location(data.city, data.regionName, data.countryCode, data.lat, data.lon)))
        else GeoCall(Some(url), None)
  }

  /** On success the location is taken field by field from the reply, with `countryCode` as the country. */
  lemma {:induction false} SuccessMapsFields(ip: string, lookup: string -> Lookup)
    requires !SkipsLookup(ip)
    requires lookup(LookupBase + ip).Responded? && lookup(LookupBase + ip).data.status == "success"
    ensures var d := lookup(LookupBase + ip).data;
            GetGeoData(ip, lookup).location == Some(Location(d.city, d.regionName, d.countryCode, d.lat, d.lon))
  {
  }

  /** A failed lookup, or one whose status is not "success", yields no location. */
  lemma {:induction false} UnsuccessfulLookupYieldsNone(ip: string, lookup: string -> Lookup)
    requires lookup(LookupBase + ip).Failed? || lookup(LookupBase + ip).data.status != "success"
    ensures GetGeoData(ip, lookup).location.None?
  {
  }

  /** Only the exact loopback address is guarded: any other 127.x address is looked up. */
  lemma {:induction false} OtherLoopbackIsLookedUp(lookup: string -> Lookup)
    ensures GetGeoData("127.0.0.2", lookup).fetched == Some(LookupBase + "127.0.0.2")
  {
    NotStartsWith("127.0.0.2", "192.168.", 1);
    NotStartsWith("127.0.0.2", "10.", 1);
  }

  /** The 172.16.0.0/12 private range is not guarded either. */
  lemma {:induction false} OtherPrivateRangeIsLookedUp(lookup: string -> Lookup)
    ensures GetGeoData("172.16.0.1", lookup).fetched.Some?
  {
    NotStartsWith("172.16.0.1", "192.168.", 1);
    NotStartsWith("172.16.0.1", "10.", 1);
  }
}
