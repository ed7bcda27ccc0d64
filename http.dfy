/** Requests and replies at the boundary to the three ArcGIS services. A URL
    is kept as its base and its ordered parameter list; percent-encoding and
    JSON serialisation of the geometry are not modelled. */
module Http {
  import opened Wrappers

  const Geocoder := "https://geocode.arcgis.com/arcgis/rest/services/World/GeocodeServer/findAddressCandidates"
  const Suggester := "https://geocode.arcgis.com/arcgis/rest/services/World/GeocodeServer/suggest"
  const FeatureLayerQuery :=
    "https://services8.arcgis.com/9CUL84k8apjo6IDh/arcgis/rest/services/DeSO_Attribut_RegInd_2025/FeatureServer/0/query"

  /** A settled `fetch` followed by `res.json()`: a response with its HTTP
      status and parsed body, or a rejection (network failure, or a 2xx body
      that is not JSON) with the rejection's message. */
  datatype Reply<+B> = Response(status: nat, body: B) | Rejection(message: string) {
    /** `res.ok` */
    predicate Ok() {
      Response? && 200 <= status <= 299
    }
  }

  /** A query parameter value: plain text, or the point geometry
      `{x, y, spatialReference: {wkid}}` that is sent JSON-encoded. */
  datatype ParamValue = Text(s: string) | Point(x: real, y: real, wkid: nat)
  datatype Param = Param(key: string, value: ParamValue)
  /** The parameters in insertion order, as `URLSearchParams` emits them. */
  type Params = seq<Param>

  datatype Request = Request(base: string, params: Params)

  function Keys(ps: Params): seq<string> {
    seq(|ps|, i requires 0 <= i < |ps| => ps[i].key)
  }

  /** Appending a parameter appends its key. */
  lemma KeysAppend(ps: Params, p: Param)
    ensures Keys(ps + [p]) == Keys(ps) + [p.key]
  {
  }

  /** The value of the first parameter named `key`. */
  function Lookup(ps: Params, key: string): (v: Option<ParamValue>)
    ensures v.None? <==> key !in Keys(ps)
  {
    if ps == [] then None
    else
      assert Keys(ps) == [ps[0].key] + Keys(ps[1..]);
      if ps[0].key == key then Some(ps[0].value) else Lookup(ps[1..], key)
  }

  /** The first parameter named `key` decides the lookup. */
  lemma {:induction false} LookupAt(ps: Params, i: nat)
    requires i < |ps| && forall j :: 0 <= j < i ==> ps[j].key != ps[i].key
    ensures Lookup(ps, ps[i].key) == Some(ps[i].value)
  {
    if i > 0 {
      LookupAt(ps[1..], i - 1);
    }
  }

  /** Every parameter named `key` gets value `v`; order and keys are kept. */
  function Replace(ps: Params, key: string, v: ParamValue): (r: Params)
    ensures |r| == |ps|
    ensures forall i :: 0 <= i < |ps| ==>
      r[i].key == ps[i].key && r[i].value == (if ps[i].key == key then v else ps[i].value)
  {
    if ps == [] then [] else [Param(ps[0].key, if ps[0].key == key then v else ps[0].value)] + Replace(ps[1..], key, v)
  }

  /** `{...ps, [key]: v}`: an existing key keeps its position and takes the
      new value; a new key is added at the end. */
  function Override(ps: Params, key: string, v: ParamValue): (r: Params)
    ensures key in Keys(ps) ==> Keys(r) == Keys(ps)
    ensures key in Keys(ps) ==> forall i :: 0 <= i < |ps| && ps[i].key != key ==> r[i] == ps[i]
    ensures key !in Keys(ps) ==> r == ps + [Param(key, v)]
  {
    if key in Keys(ps) then Replace(ps, key, v) else ps + [Param(key, v)]
  }

  /** After the override `key` reads as `v` and every other key reads as before. */
  lemma {:induction false} LookupOverride(ps: Params, key: string, v: ParamValue, other: string)
    ensures Lookup(Override(ps, key, v), key) == Some(v)
    ensures other != key ==> Lookup(Override(ps, key, v), other) == Lookup(ps, other)
  {
    if key in Keys(ps) {
      LookupReplace(ps, key, v, other);
    } else {
      LookupAppend(ps, Param(key, v), key);
      LookupAppend(ps, Param(key, v), other);
    }
  }

  lemma {:induction false} LookupReplace(ps: Params, key: string, v: ParamValue, other: string)
    requires key in Keys(ps)
    ensures Lookup(Replace(ps, key, v), key) == Some(v)
    ensures other != key ==> Lookup(Replace(ps, key, v), other) == Lookup(ps, other)
  {
    assert Keys(ps) == [ps[0].key] + Keys(ps[1..]);
    var r := Replace(ps, key, v);
    assert r[1..] == Replace(ps[1..], key, v);
    if ps[0].key != key {
      LookupReplace(ps[1..], key, v, other);
    } else if ps[0].key != other && other != key {
      LookupReplaceOther(ps[1..], key, v, other);
    }
  }

  lemma {:induction false} LookupReplaceOther(ps: Params, key: string, v: ParamValue, other: string)
    requires other != key
    ensures Lookup(Replace(ps, key, v), other) == Lookup(ps, other)
  {
    if ps != [] {
      var r := Replace(ps, key, v);
      assert r[1..] == Replace(ps[1..], key, v);
      LookupReplaceOther(ps[1..], key, v, other);
    }
  }

  lemma {:induction false} LookupAppend(ps: Params, p: Param, key: string)
    ensures Lookup(ps + [p], key) == if key in Keys(ps) then Lookup(ps, key) else if p.key == key then Some(p.value) else None
  {
    assert Keys(ps + [p]) == Keys(ps) + [p.key];
    if ps != [] {
      assert (ps + [p])[1..] == ps[1..] + [p];
      assert Keys(ps) == [ps[0].key] + Keys(ps[1..]);
      LookupAppend(ps[1..], p, key);
    }
  }
}
