/** What an `await` of the lookup run can throw, and the text the widget shows
    for it (widget-loader.js:258-264, 274, 324). */
module Errors {
  import opened JsStrings

  datatype Failure =
    | GeocoderHttp(status: nat)        // the geocoder answered with a non-2xx status
    | NoMatch                          // the geocoder returned no first candidate
    | InvalidCoordinates               // the first candidate's x or y is not a number
    | FeatureServerHttp(status: nat)   // the feature layer answered with a non-2xx status
    | Rejected(message: string)        // `fetch` or `res.json()` rejected; the message may be empty

  /** The step either returns a value or throws. */
  datatype Result<+T> = Ok(value: T) | Err(failure: Failure)

  /** `err.message` of the thrown error. */
  function Message(f: Failure): (m: string)
    ensures f.GeocoderHttp? ==> m == "Geocoder HTTP " + Decimal(f.status)
    ensures f.FeatureServerHttp? ==> m == "FeatureServer HTTP " + Decimal(f.status)
    ensures !f.Rejected? ==> m != ""
  {
    match f
    case GeocoderHttp(s) => "Geocoder HTTP " + Decimal(s)
    case NoMatch => "No geocoding match for that address."
    case InvalidCoordinates => "Geocoder returned invalid coordinates."
    case FeatureServerHttp(s) => "FeatureServer HTTP " + Decimal(s)
    case Rejected(m) => m
  }

  /** The text the catch block stores in `error`: the message, or a fixed
      fallback when the thrown value carries none. Never empty, so an empty
      `error` always means "no error". */
  function ErrorText(f: Failure): (e: string)
    ensures e != ""
    ensures Message(f) != "" ==> e == Message(f)
    ensures Message(f) == "" ==> e == "Something went wrong"
  {
    if Message(f) != "" then Message(f) else "Something went wrong"
  }

  /** The numeric status can be read back from an HTTP error message. */
  lemma StatusInMessage(f: Failure)
    requires f.GeocoderHttp? || f.FeatureServerHttp?
    ensures var prefix := if f.GeocoderHttp? then |"Geocoder HTTP "| else |"FeatureServer HTTP "|;
      DecimalValue(ErrorText(f)[prefix..]) == f.status
  {
    var prefix := if f.GeocoderHttp? then |"Geocoder HTTP "| else |"FeatureServer HTTP "|;
    assert ErrorText(f)[prefix..] == Decimal(f.status);
    DecimalRoundTrip(f.status);
  }
}
