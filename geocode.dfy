/** The geocoder call, `geocodeAddress` (widget-loader.js:245-267). */
module Geocode {
  import opened Wrappers
  import opened Json
  import opened Http
  import opened Errors

  datatype Location = Location(x: Option<JsValue>, y: Option<JsValue>)
  /** One entry of `candidates`; `address` and `location` may be missing. */
  datatype Candidate = Candidate(address: Option<string>, location: Option<Location>)
  datatype GeocodeBody = GeocodeBody(candidates: Option<seq<Candidate>>)
  /** The geocoded point, WGS84 longitude and latitude in degrees. */
  datatype Geocoded = Geocoded(addressLabel: string, lon: real, lat: real)

  /** The key the submit run passes on: an empty or missing selected key is no key. */
  function MagicKeyArgument(selected: Option<string>): (k: Option<string>)
    ensures k.Some? <==> selected.Some? && selected.value != ""
    ensures k.Some? ==> k == selected
  {
    if selected.Some? && selected.value != "" then selected else None
  }

  function BaseParams(address: string): Params {
    [Param("f", Text("json")), Param("singleLine", Text(address)), Param("maxLocations", Text("5")),
     Param("outFields", Text("*")), Param("countryCode", Text("SE")), Param("category", Text("Address"))]
  }

  /** The find-candidates request; `magicKey` is set only when non-empty. */
  function GeocodeRequest(address: string, magicKey: Option<string>): Request {
    var base := BaseParams(address);
    Request(Geocoder, if magicKey.Some? && magicKey.value != "" then Override(base, "magicKey", Text(magicKey.value)) else base)
  }

  /** The fixed parameters name the address and ask for at most five candidates. */
  lemma BaseParamsValues(address: string)
    ensures var base := BaseParams(address);
      Keys(base) == ["f", "singleLine", "maxLocations", "outFields", "countryCode", "category"] &&
      Lookup(base, "singleLine") == Some(Text(address)) &&
      Lookup(base, "maxLocations") == Some(Text("5"))
  {
    var base := BaseParams(address);
    LookupAt(base, 1);
    LookupAt(base, 2);
  }

  /** The fixed parameter list restricts the search to Swedish addresses. */
  lemma BaseParamsFilters(address: string)
    ensures Lookup(BaseParams(address), "countryCode") == Some(Text("SE"))
    ensures Lookup(BaseParams(address), "category") == Some(Text("Address"))
  {
    LookupAt(BaseParams(address), 4);
    LookupAt(BaseParams(address), 5);
  }

  /** The key is appended after the fixed parameters exactly when it is non-empty. */
  lemma GeocodeRequestKey(address: string, magicKey: Option<string>)
    ensures var r := GeocodeRequest(address, magicKey);
      Keys(r.params)[..6] == Keys(BaseParams(address)) &&
      Lookup(r.params, "magicKey") == (if magicKey.Some? && magicKey.value != "" then Some(Text(magicKey.value)) else None)
  {
    var base := BaseParams(address);
    assert "magicKey" !in Keys(base) by { BaseParamsValues(address); }
    if magicKey.Some? && magicKey.value != "" {
      var v := Text(magicKey.value);
      LookupOverride(base, "magicKey", v, "magicKey");
      KeysAppend(base, Param("magicKey", v));
    }
  }

  /** Setting the key leaves the address and the candidate cap in place. */
  lemma GeocodeRequestQuery(address: string, magicKey: Option<string>)
    ensures Lookup(GeocodeRequest(address, magicKey).params, "singleLine") == Some(Text(address))
    ensures Lookup(GeocodeRequest(address, magicKey).params, "maxLocations") == Some(Text("5"))
  {
    var base := BaseParams(address);
    BaseParamsValues(address);
    if magicKey.Some? && magicKey.value != "" {
      var v := Text(magicKey.value);
      LookupOverride(base, "magicKey", v, "singleLine");
      LookupOverride(base, "magicKey", v, "maxLocations");
    }
  }

  /** Setting the key leaves the Swedish address filters in place. */
  lemma GeocodeRequestFilters(address: string, magicKey: Option<string>)
    ensures Lookup(GeocodeRequest(address, magicKey).params, "countryCode") == Some(Text("SE"))
    ensures Lookup(GeocodeRequest(address, magicKey).params, "category") == Some(Text("Address"))
  {
    var base := BaseParams(address);
    BaseParamsFilters(address);
    if magicKey.Some? && magicKey.value != "" {
      var v := Text(magicKey.value);
      LookupOverride(base, "magicKey", v, "countryCode");
      LookupOverride(base, "magicKey", v, "category");
    }
  }

  /** The request carries the address, at most five candidates, the Swedish
      address filters, and the key exactly when one was given and is non-empty,
      after the fixed parameters. */
  lemma GeocodeRequestParams(address: string, magicKey: Option<string>)
    ensures var r := GeocodeRequest(address, magicKey);
      r.base == Geocoder &&
      Keys(r.params)[..6] == ["f", "singleLine", "maxLocations", "outFields", "countryCode", "category"] &&
      Lookup(r.params, "singleLine") == Some(Text(address)) &&
      Lookup(r.params, "maxLocations") == Some(Text("5")) &&
      Lookup(r.params, "countryCode") == Some(Text("SE")) &&
      Lookup(r.params, "category") == Some(Text("Address")) &&
      Lookup(r.params, "magicKey") == (if magicKey.Some? && magicKey.value != "" then Some(Text(magicKey.value)) else None)
  {
    BaseParamsValues(address);
    GeocodeRequestKey(address, magicKey);
    GeocodeRequestQuery(address, magicKey);
    GeocodeRequestFilters(address, magicKey);
  }

  /** The highest-ranked candidate, if the answer has any. */
  function FirstCandidate(body: GeocodeBody): Option<Candidate> {
    if body.candidates.Some? && |body.candidates.value| > 0 then Some(body.candidates.value[0]) else None
  }

  /** A coordinate that is present and a JSON number; a missing location has neither. */
  predicate IsNumber(v: Option<JsValue>) {
    v.Some? && v.value.Num?
  }

  predicate HasCoordinates(c: Candidate) {
    c.location.Some? && IsNumber(c.location.value.x) && IsNumber(c.location.value.y)
  }

  /** The candidate's address, or the typed address when the candidate's is missing or empty. */
  function Label(c: Candidate, address: string): (l: string)
    ensures c.address.Some? && c.address.value != "" ==> l == c.address.value
    ensures !(c.address.Some? && c.address.value != "") ==> l == address
    ensures l != "" <==> address != "" || (c.address.Some? && c.address.value != "")
  {
    if c.address.Some? && c.address.value != "" then c.address.value else address
  }

  /** Classifies the geocoder's reply: each guard of the source in turn. */
  function GeocodeAddress(address: string, reply: Reply<GeocodeBody>): (r: Result<Geocoded>)
    ensures reply.Rejection? ==> r == Err(Rejected(reply.message))
    ensures reply.Response? && !reply.Ok() ==> r == Err(GeocoderHttp(reply.status))
    ensures reply.Ok() && FirstCandidate(reply.body).None? ==> r == Err(NoMatch)
    ensures reply.Ok() && FirstCandidate(reply.body).Some? && !HasCoordinates(FirstCandidate(reply.body).value) ==>
      r == Err(InvalidCoordinates)
  {
    if reply.Rejection? then Err(Rejected(reply.message))
    else if !reply.Ok() then Err(GeocoderHttp(reply.status))
    else match FirstCandidate(reply.body)
      case None => Err(NoMatch)
      case Some(best) =>
        if !HasCoordinates(best) then Err(InvalidCoordinates)
        else Ok(Geocoded(Label(best, address), best.location.value.x.value.n, best.location.value.y.value.n))
  }

  /** Success exactly when the reply is 2xx and its first candidate has two
      numeric coordinates; those are returned as they are, with a label that
      is never empty for a non-empty address. */
  lemma GeocodeSuccess(address: string, reply: Reply<GeocodeBody>)
    ensures GeocodeAddress(address, reply).Ok? <==>
      reply.Ok() && FirstCandidate(reply.body).Some? && HasCoordinates(FirstCandidate(reply.body).value)
    ensures GeocodeAddress(address, reply).Ok? ==>
      var best := FirstCandidate(reply.body).value;
      var g := GeocodeAddress(address, reply).value;
      g.lon == best.location.value.x.value.n && g.lat == best.location.value.y.value.n &&
      g.addressLabel == Label(best, address) && (address != "" ==> g.addressLabel != "")
  {
  }
}
