/** The two-attempt feature-layer query, `queryAreaForPoint` and its inner
    `run` (widget-loader.js:269-302). */
module Area {
  import opened Wrappers
  import opened Json
  import opened Http
  import opened Errors

  datatype Feature = Feature(attributes: Option<Attributes>)
  /** The parsed query response; `features` may be missing. */
  datatype FeatureBody = FeatureBody(features: Option<seq<Feature>>)
  /** `{ attrs, url }`: the matched polygon's attributes, if any, and the
      request that produced them. */
  datatype AreaHit = AreaHit(attrs: Option<Attributes>, url: Request)
  /** The outcome of the whole query together with the requests it issued, in order. */
  datatype AreaRun = AreaRun(outcome: Result<AreaHit>, issued: seq<Request>)

  const Wgs84: nat := 4326
  const WebMercator: nat := 102100

  /** The attributes of the first feature, when there is a first feature and it has them. */
  function FirstAttributes(body: FeatureBody): (a: Option<Attributes>)
    ensures a.Some? <==> body.features.Some? && |body.features.value| > 0 && body.features.value[0].attributes.Some?
    ensures a.Some? ==> a == body.features.value[0].attributes
  {
    if body.features.Some? && |body.features.value| > 0 then body.features.value[0].attributes else None
  }

  /** `run`: a non-2xx status throws; a 2xx answer without a feature is a
      valid outcome with no attributes, never an error. */
  function RunQuery(request: Request, reply: Reply<FeatureBody>): (r: Result<AreaHit>)
    ensures reply.Rejection? ==> r == Err(Rejected(reply.message))
    ensures reply.Response? && !reply.Ok() ==> r == Err(FeatureServerHttp(reply.status))
    ensures r.Ok? <==> reply.Ok()
    ensures r.Ok? ==> r.value.url == request && r.value.attrs == FirstAttributes(reply.body)
  {
    if reply.Rejection? then Err(Rejected(reply.message))
    else if !reply.Ok() then Err(FeatureServerHttp(reply.status))
    else Ok(AreaHit(FirstAttributes(reply.body), request))
  }

  /** The first query: the point in WGS84 degrees, intersecting within 300 m,
      all fields, no geometry in the answer. */
  function FirstParams(lon: real, lat: real): Params {
    [Param("f", Text("json")), Param("where", Text("1=1")), Param("geometry", Point(lon, lat, Wgs84)),
     Param("geometryType", Text("esriGeometryPoint")), Param("inSR", Text("4326")), Param("distance", Text("300")),
     Param("units", Text("esriSRUnit_Meter")), Param("spatialRel", Text("esriSpatialRelIntersects")),
     Param("outFields", Text("*")), Param("returnGeometry", Text("false"))]
  }

  /** The fallback parameters: the first query's, with `geometry` replaced by
      the Web Mercator point and `inSR` by 102100, as an object spread does. */
  function SecondParams(first: Params, mx: real, my: real): Params {
    Override(Override(first, "geometry", Point(mx, my, WebMercator)), "inSR", Text("102100"))
  }

  function FirstRequest(lon: real, lat: real): Request {
    Request(FeatureLayerQuery, FirstParams(lon, lat))
  }

  /** The fallback request; `toMercator` stands for `lonLatToWebMercator`. */
  function SecondRequest(lon: real, lat: real, toMercator: (real, real) -> (real, real)): Request {
    var (mx, my) := toMercator(lon, lat);
    Request(FeatureLayerQuery, SecondParams(FirstParams(lon, lat), mx, my))
  }

  /** The first query declares the WGS84 point and its reference system. */
  lemma FirstParamsPoint(lon: real, lat: real)
    ensures var p := FirstParams(lon, lat);
      Lookup(p, "geometry") == Some(Point(lon, lat, Wgs84)) && Lookup(p, "inSR") == Some(Text("4326"))
  {
    var p := FirstParams(lon, lat);
    assert Lookup(p, "geometry") == Some(Point(lon, lat, Wgs84)) by { LookupAt(p, 2); }
    assert Lookup(p, "inSR") == Some(Text("4326")) by { LookupAt(p, 4); }
  }

  /** The first query searches within 300 metres of the point. */
  lemma FirstParamsSearch(lon: real, lat: real)
    ensures var p := FirstParams(lon, lat);
      Lookup(p, "distance") == Some(Text("300")) && Lookup(p, "units") == Some(Text("esriSRUnit_Meter"))
  {
    var p := FirstParams(lon, lat);
    assert Lookup(p, "distance") == Some(Text("300")) by { LookupAt(p, 5); }
    assert Lookup(p, "units") == Some(Text("esriSRUnit_Meter")) by { LookupAt(p, 6); }
  }

  /** The first query's geometry is a point, and polygons that intersect it match. */
  lemma FirstParamsRelation(lon: real, lat: real)
    ensures var p := FirstParams(lon, lat);
      Lookup(p, "geometryType") == Some(Text("esriGeometryPoint")) &&
      Lookup(p, "spatialRel") == Some(Text("esriSpatialRelIntersects"))
  {
    var p := FirstParams(lon, lat);
    assert Lookup(p, "geometryType") == Some(Text("esriGeometryPoint")) by { LookupAt(p, 3); }
    assert Lookup(p, "spatialRel") == Some(Text("esriSpatialRelIntersects")) by { LookupAt(p, 7); }
  }

  /** The first query asks for every attribute field and no geometry. */
  lemma FirstParamsOutput(lon: real, lat: real)
    ensures var p := FirstParams(lon, lat);
      Lookup(p, "outFields") == Some(Text("*")) && Lookup(p, "returnGeometry") == Some(Text("false"))
  {
    var p := FirstParams(lon, lat);
    assert Lookup(p, "outFields") == Some(Text("*")) by { LookupAt(p, 8); }
    assert Lookup(p, "returnGeometry") == Some(Text("false")) by { LookupAt(p, 9); }
  }

  /** The second query has the first one's parameters in the same order and
      differs only in `geometry` (the projected point, wkid 102100) and `inSR`. */
  lemma SecondParamsDiffer(lon: real, lat: real, mx: real, my: real)
    ensures var p1 := FirstParams(lon, lat);
      var p2 := SecondParams(p1, mx, my);
      |p2| == |p1| && Keys(p2) == Keys(p1) &&
      Lookup(p2, "geometry") == Some(Point(mx, my, WebMercator)) &&
      Lookup(p2, "inSR") == Some(Text("102100")) &&
      (forall k :: k != "geometry" && k != "inSR" ==> Lookup(p2, k) == Lookup(p1, k)) &&
      (forall i :: 0 <= i < |p1| && p1[i].key != "geometry" && p1[i].key != "inSR" ==> p2[i] == p1[i])
  {
    var p1 := FirstParams(lon, lat);
    var g := Point(mx, my, WebMercator);
    var q := Override(p1, "geometry", g);
    assert Keys(p1)[2] == "geometry" && Keys(p1)[4] == "inSR";
    assert Keys(q) == Keys(p1);
    assert Keys(q)[4] == "inSR";
    var p2 := Override(q, "inSR", Text("102100"));
    LookupOverride(q, "inSR", Text("102100"), "geometry");
    LookupOverride(p1, "geometry", g, "geometry");
    forall k | k != "geometry" && k != "inSR"
      ensures Lookup(p2, k) == Lookup(p1, k)
    {
      LookupOverride(q, "inSR", Text("102100"), k);
      LookupOverride(p1, "geometry", g, k);
    }
    assert |p2| == |Keys(p2)| == |Keys(p1)| == |p1|;
  }

  /** The two-attempt query as a value: the first attempt's outcome when it
      throws or finds a polygon, otherwise the second attempt's outcome. */
  function AreaQuery(lon: real, lat: real, service: Request -> Reply<FeatureBody>,
                     toMercator: (real, real) -> (real, real)): AreaRun
  {
    var first := FirstRequest(lon, lat);
    var r1 := RunQuery(first, service(first));
    if r1.Err? || r1.value.attrs.Some? then AreaRun(r1, [first])
    else
      var second := SecondRequest(lon, lat, toMercator);
      AreaRun(RunQuery(second, service(second)), [first, second])
  }

  /** `queryAreaForPoint` with `service` answering each request and
      `toMercator` projecting the point; `issued` logs the requests sent. */
  method QueryAreaForPoint(lon: real, lat: real, service: Request -> Reply<FeatureBody>,
                           toMercator: (real, real) -> (real, real))
    returns (outcome: Result<AreaHit>, issued: seq<Request>)
    ensures AreaRun(outcome, issued) == AreaQuery(lon, lat, service, toMercator)
  {
    var first := FirstRequest(lon, lat);
    issued := [first];
    var r1 := RunQuery(first, service(first));
    if r1.Err? {
      return r1, issued;
    }
    if r1.value.attrs.Some? {
      return r1, issued;
    }
    var (mx, my) := toMercator(lon, lat);
    var second := Request(FeatureLayerQuery, SecondParams(first.params, mx, my));
    issued := issued + [second];
    outcome := RunQuery(second, service(second));
  }

  /** A polygon found by the first query ends the run: one request, and its
      attributes and URL are the result. */
  lemma AreaFirstHit(lon: real, lat: real, service: Request -> Reply<FeatureBody>,
                     toMercator: (real, real) -> (real, real))
    requires service(FirstRequest(lon, lat)).Ok()
    requires FirstAttributes(service(FirstRequest(lon, lat)).body).Some?
    ensures var run := AreaQuery(lon, lat, service, toMercator);
      run.issued == [FirstRequest(lon, lat)] &&
      run.outcome == Ok(AreaHit(FirstAttributes(service(FirstRequest(lon, lat)).body), FirstRequest(lon, lat)))
  {
  }

  /** A 2xx first answer without a polygon causes exactly one more request,
      in Web Mercator, whose outcome is returned as it is, polygon or not. */
  lemma AreaFallback(lon: real, lat: real, service: Request -> Reply<FeatureBody>,
                     toMercator: (real, real) -> (real, real))
    requires service(FirstRequest(lon, lat)).Ok()
    requires FirstAttributes(service(FirstRequest(lon, lat)).body).None?
    ensures var run := AreaQuery(lon, lat, service, toMercator);
      var second := SecondRequest(lon, lat, toMercator);
      run.issued == [FirstRequest(lon, lat), second] &&
      run.outcome == RunQuery(second, service(second)) &&
      Lookup(second.params, "inSR") == Some(Text("102100")) &&
      Lookup(second.params, "geometry") == Some(Point(toMercator(lon, lat).0, toMercator(lon, lat).1, WebMercator)) &&
      Keys(second.params) == Keys(FirstRequest(lon, lat).params)
  {
    SecondParamsDiffer(lon, lat, toMercator(lon, lat).0, toMercator(lon, lat).1);
  }

  /** One or two requests, the first always in WGS84; the outcome is the last
      request's own outcome, so an error is exactly the `FeatureServer HTTP`
      status or the rejection of that request; on success the URL is the last request. */
  lemma AreaRunShape(lon: real, lat: real, service: Request -> Reply<FeatureBody>,
                     toMercator: (real, real) -> (real, real))
    ensures var run := AreaQuery(lon, lat, service, toMercator);
      1 <= |run.issued| <= 2 && run.issued[0] == FirstRequest(lon, lat) &&
      (run.outcome.Err? <==> !service(run.issued[|run.issued| - 1]).Ok()) &&
      run.outcome == RunQuery(run.issued[|run.issued| - 1], service(run.issued[|run.issued| - 1])) &&
      (run.outcome.Ok? ==> run.outcome.value.url == run.issued[|run.issued| - 1]) &&
      (|run.issued| == 2 <==> service(FirstRequest(lon, lat)).Ok() && FirstAttributes(service(FirstRequest(lon, lat)).body).None?)
  {
  }
}
