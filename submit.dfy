/** A non-blank submit run of `onSearch` (widget-loader.js:312-327) as a
    value: geocode the trimmed text, then query the area of the point. */
module Submit {
  import opened Wrappers
  import opened Json
  import opened Http
  import opened Errors
  import opened Geocode
  import opened Area

  datatype Debug = Debug(lastLon: real, lastLat: real, lastUrl: Request)
  /** The `result` state slot after a successful run. */
  datatype LookupResult = LookupResult(addressLabel: string, lon: real, lat: real,
                                       attributes: Option<Attributes>, debug: Debug)
  datatype SubmitRun = SubmitRun(outcome: Result<LookupResult>, issued: seq<Request>)

  /** The run for address `addr` with key argument `magicKey`; the geocoder
      and the feature layer answer through the two services. */
  function LookupRun(addr: string, magicKey: Option<string>, geoService: Request -> Reply<GeocodeBody>,
                     areaService: Request -> Reply<FeatureBody>, toMercator: (real, real) -> (real, real)): SubmitRun
  {
    var req := GeocodeRequest(addr, magicKey);
    match GeocodeAddress(addr, geoService(req))
    case Err(f) => SubmitRun(Err(f), [req])
    case Ok(g) =>
      var area := AreaQuery(g.lon, g.lat, areaService, toMercator);
      var outcome := match area.outcome
        case Err(f) => Err(f)
        case Ok(hit) => Ok(LookupResult(g.addressLabel, g.lon, g.lat, hit.attrs, Debug(g.lon, g.lat, hit.url)));
      SubmitRun(outcome, [req] + area.issued)
  }

  /** The `try` block of `onSearch`: geocode, then the two-attempt area
      query; `issued` logs the requests in the order they are sent. */
  method RunLookup(addr: string, magicKey: Option<string>, geoService: Request -> Reply<GeocodeBody>,
                   areaService: Request -> Reply<FeatureBody>, toMercator: (real, real) -> (real, real))
    returns (outcome: Result<LookupResult>, issued: seq<Request>)
    ensures SubmitRun(outcome, issued) == LookupRun(addr, magicKey, geoService, areaService, toMercator)
  {
    var req := GeocodeRequest(addr, magicKey);
    issued := [req];
    var g := GeocodeAddress(addr, geoService(req));
    if g.Err? {
      return Err(g.failure), issued;
    }
    var c := g.value;
    var area, more := QueryAreaForPoint(c.lon, c.lat, areaService, toMercator);
    issued := issued + more;
    if area.Err? {
      return Err(area.failure), issued;
    }
    outcome := Ok(LookupResult(c.addressLabel, c.lon, c.lat, area.value.attrs, Debug(c.lon, c.lat, area.value.url)));
  }

  /** What the run leaves in `result`: present exactly on success. */
  function ResultOf(o: Result<LookupResult>): (r: Option<LookupResult>)
    ensures r.Some? <==> o.Ok?
    ensures r.Some? ==> r.value == o.value
  {
    if o.Ok? then Some(o.value) else None
  }

  /** What the run leaves in `error`: empty exactly on success, so a run sets
      exactly one of `result` and `error`. */
  function ErrorOf(o: Result<LookupResult>): (e: string)
    ensures e == "" <==> o.Ok?
    ensures o.Err? ==> e == ErrorText(o.failure)
  {
    if o.Ok? then "" else ErrorText(o.failure)
  }

  /** The geocode request goes first; area requests follow only a successful
      geocode, and a geocode failure ends the run with that failure. After a
      successful geocode the run succeeds exactly when the area query does: its
      failure is the run's failure, and its hit, attributes present or not,
      becomes the result together with the geocoded label and point. */
  lemma RunOrder(addr: string, magicKey: Option<string>, geoService: Request -> Reply<GeocodeBody>,
                 areaService: Request -> Reply<FeatureBody>, toMercator: (real, real) -> (real, real))
    ensures var run := LookupRun(addr, magicKey, geoService, areaService, toMercator);
      var req := GeocodeRequest(addr, magicKey);
      var g := GeocodeAddress(addr, geoService(req));
      1 <= |run.issued| <= 3 && run.issued[0] == req &&
      (g.Err? ==> run.issued == [req] && run.outcome == Err(g.failure)) &&
      (g.Ok? ==>
        var area := AreaQuery(g.value.lon, g.value.lat, areaService, toMercator);
        run.issued[1..] == area.issued && run.issued[1] == FirstRequest(g.value.lon, g.value.lat) &&
        (run.outcome.Ok? <==> area.outcome.Ok?) &&
        (area.outcome.Err? ==> run.outcome == Err(area.outcome.failure)) &&
        (area.outcome.Ok? ==> run.outcome.value == LookupResult(g.value.addressLabel, g.value.lon, g.value.lat,
           area.outcome.value.attrs, Debug(g.value.lon, g.value.lat, area.outcome.value.url))))
  {
  }

  /** A successful run reports the geocoded label and coordinates as they
      came back, the attributes of the last area request, and that request as
      the debug URL; the label is never empty. */
  lemma RunResult(addr: string, magicKey: Option<string>, geoService: Request -> Reply<GeocodeBody>,
                  areaService: Request -> Reply<FeatureBody>, toMercator: (real, real) -> (real, real))
    requires addr != ""
    ensures var run := LookupRun(addr, magicKey, geoService, areaService, toMercator);
      var g := GeocodeAddress(addr, geoService(GeocodeRequest(addr, magicKey)));
      run.outcome.Ok? ==>
        g.Ok? && |run.issued| >= 2 &&
        var r := run.outcome.value;
        r.addressLabel == g.value.addressLabel && r.addressLabel != "" &&
        r.lon == g.value.lon && r.lat == g.value.lat &&
        r.debug == Debug(r.lon, r.lat, run.issued[|run.issued| - 1]) &&
        r.attributes == FirstAttributes(areaService(run.issued[|run.issued| - 1]).body)
  {
  }

  /** The common path: when the WGS84 query finds the polygon, the run sends
      two requests and the debug URL is the first-attempt query, not the fallback. */
  lemma RunFirstHit(addr: string, magicKey: Option<string>, geoService: Request -> Reply<GeocodeBody>,
                    areaService: Request -> Reply<FeatureBody>, toMercator: (real, real) -> (real, real))
    requires GeocodeAddress(addr, geoService(GeocodeRequest(addr, magicKey))).Ok?
    requires var g := GeocodeAddress(addr, geoService(GeocodeRequest(addr, magicKey))).value;
      areaService(FirstRequest(g.lon, g.lat)).Ok() &&
      FirstAttributes(areaService(FirstRequest(g.lon, g.lat)).body).Some?
    ensures var run := LookupRun(addr, magicKey, geoService, areaService, toMercator);
      var g := GeocodeAddress(addr, geoService(GeocodeRequest(addr, magicKey))).value;
      |run.issued| == 2 && run.outcome.Ok? &&
      run.outcome.value.debug.lastUrl == FirstRequest(g.lon, g.lat) &&
      Lookup(run.outcome.value.debug.lastUrl.params, "inSR") == Some(Text("4326"))
  {
    var g := GeocodeAddress(addr, geoService(GeocodeRequest(addr, magicKey))).value;
    AreaFirstHit(g.lon, g.lat, areaService, toMercator);
    FirstParamsPoint(g.lon, g.lat);
  }
}
