/** The suggestion fetch, `suggestAddresses` (widget-loader.js:230-243). */
module Suggest {
  import opened Wrappers
  import opened Http
  import opened Errors

  /** One entry of the server's `suggestions` array. */
  datatype ServerSuggestion = ServerSuggestion(text: string, magicKey: Option<string>)
  /** The parsed suggest response; `suggestions` may be missing. */
  datatype SuggestBody = SuggestBody(suggestions: Option<seq<ServerSuggestion>>)
  /** What the widget keeps of an entry: its text and its disambiguation key. */
  datatype Suggestion = Suggestion(text: string, magicKey: Option<string>)

  /** The request for the partial text `text`: at most seven Swedish addresses. */
  function SuggestRequest(text: string): (r: Request)
    ensures r.base == Suggester
    ensures Keys(r.params) == ["f", "text", "maxSuggestions", "countryCode", "category"]
    ensures Lookup(r.params, "text") == Some(Text(text))
    ensures Lookup(r.params, "maxSuggestions") == Some(Text("7"))
    ensures Lookup(r.params, "countryCode") == Some(Text("SE"))
    ensures Lookup(r.params, "category") == Some(Text("Address"))
  {
    SuggestParamsQuery(text);
    SuggestParamsFilters(text);
    Request(Suggester, SuggestParams(text))
  }

  function SuggestParams(text: string): Params {
    [Param("f", Text("json")), Param("text", Text(text)), Param("maxSuggestions", Text("7")),
     Param("countryCode", Text("SE")), Param("category", Text("Address"))]
  }

  lemma SuggestParamsQuery(text: string)
    ensures Lookup(SuggestParams(text), "text") == Some(Text(text))
    ensures Lookup(SuggestParams(text), "maxSuggestions") == Some(Text("7"))
  {
    LookupAt(SuggestParams(text), 1);
    LookupAt(SuggestParams(text), 2);
  }

  lemma SuggestParamsFilters(text: string)
    ensures Lookup(SuggestParams(text), "countryCode") == Some(Text("SE"))
    ensures Lookup(SuggestParams(text), "category") == Some(Text("Address"))
  {
    LookupAt(SuggestParams(text), 3);
    LookupAt(SuggestParams(text), 4);
  }

  /** The server's entries mapped one by one: same length, same order, each
      entry reduced to its text and key. */
  function Project(items: seq<ServerSuggestion>): (r: seq<Suggestion>)
    ensures |r| == |items|
    ensures forall i :: 0 <= i < |items| ==> r[i].text == items[i].text && r[i].magicKey == items[i].magicKey
  {
    if items == [] then [] else [Suggestion(items[0].text, items[0].magicKey)] + Project(items[1..])
  }

  /** A non-2xx answer degrades to no suggestions and a missing `suggestions`
      field to the empty list; only a rejected fetch throws. */
  function SuggestAddresses(reply: Reply<SuggestBody>): (r: Result<seq<Suggestion>>)
    ensures reply.Rejection? ==> r == Err(Rejected(reply.message))
    ensures reply.Response? && !reply.Ok() ==> r == Ok([])
    ensures reply.Ok() && reply.body.suggestions.None? ==> r == Ok([])
    ensures reply.Ok() && reply.body.suggestions.Some? ==>
      (var items := reply.body.suggestions.value;
       r.Ok? && |r.value| == |items| &&
       forall i :: 0 <= i < |items| ==> r.value[i] == Suggestion(items[i].text, items[i].magicKey))
  {
    if reply.Rejection? then Err(Rejected(reply.message))
    else if !reply.Ok() then Ok([])
    else match reply.body.suggestions
      case None => Ok([])
      case Some(items) => Ok(Project(items))
  }
}
