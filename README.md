# DeSO address lookup: the resolution pipeline in Dafny

This project models the core of the DeSO address lookup widget. The widget turns a
typed Swedish address into the DeSO statistical area that contains it. All of its
logic is in one React component, `AddressToAreaLookup` (widget-loader.js). The
model covers three parts of it, with the network replaced by inputs:

- **Interaction state machine.** The class `Widget.AddressLookup` holds the
  component's state slots (`input`, `loading`, `error`, `suggestions`,
  `showSuggest`, `highlight`, `selectedMagicKey`, `result`). It also holds the
  debounce slot as `pending`, the text of the scheduled suggestion fetch. The
  handlers are methods: typing, selection, keyboard, focus, a click anywhere
  in the widget, and submit. Each method states the whole new state and keeps `Valid()`. `Valid()`
  says that the highlight never goes below -1, that only text of three or more
  characters is ever scheduled, that `loading` is false between handler calls
  (each call runs to completion; see "## Left out"), and that a result and an
  error are never shown together.
- **Response interpretation.** Pure functions classify replies that have already
  arrived: the suggestion list, the geocoder's four outcomes, the feature query's
  first attributes, and the `??` display fallbacks of the result table.
- **Pipelines.** `Area.QueryAreaForPoint` is the two-attempt area query. It
  returns the requests it issued, in order. `Submit.RunLookup` is the `try` block
  of `onSearch`. Both are proved against the pure specifications `AreaQuery` and
  `LookupRun`, and lemmas state what those promise.

Each service is a parameter of type `Request -> Reply<Body>`. A reply is either a
response with an HTTP status and a parsed body, or a rejection with its message.
`res.ok` holds for statuses 200 to 299. A request is the endpoint plus the ordered
list of query parameters, so a `url` in the code is a `Request` here. The
Web Mercator projection is also a parameter, `toMercator`.

Files: `wrappers.dfy` (Option), `json.dfy` (parsed values, attributes),
`jsstrings.dfy` (`trim`, status rendering), `errors.dfy` (thrown errors and their
messages), `http.dfy` (replies, parameter lists, object-spread override),
`suggest.dfy`, `geocode.dfy`, `area.dfy`, `submit.dfy`, `display.dfy`,
`widget.dfy`.

Some behaviour of the code differs from the widget's intended design. The model
follows the code:

- A blank submit clears any earlier `result` and `error` before the trim check
  (widget-loader.js:306-310). `Search` states this.
- When the scheduled suggestion fetch completes, it always reopens the panel
  (widget-loader.js:343). This happens even if Escape, a selection or a click
  closed the panel after the keystroke. `FireDebounce` states this.
- The handler that hides the panel is the `onClick` of the widget's own outer
  container (widget-loader.js:375). A click anywhere in the widget hides the
  panel: on the input, on a suggestion after it is committed, or on the button.
  A click outside the widget does nothing. `Dismiss` models this click.
- Requests carry no sequence tokens. A reply can therefore land after newer
  input. The model makes no claim about stale replies (see Left out).

## Model

| member | source | states |
|---|---|---|
| `JsStrings.TrimStartSpec` | widget-loader.js:309 | trimming the start leaves a suffix that starts with a non-whitespace character; everything dropped is whitespace |
| `JsStrings.TrimEndSpec` | widget-loader.js:309 | trimming the end leaves a prefix that ends with a non-whitespace character; everything dropped is whitespace |
| `JsStrings.TrimSpec` | widget-loader.js:309-310 | `trim` gives the infix between a whitespace prefix and a whitespace suffix; it is empty exactly when the input is blank, which is the `!addr` test |
| `JsStrings.Decimal` | widget-loader.js:258 | the status in `${res.status}` is a non-empty run of digits with no leading zero |
| `JsStrings.DecimalRoundTrip` | widget-loader.js:258 | reading the rendered digits back gives the status number |
| `Errors.Message` | widget-loader.js:258-264 | the four messages of the thrown errors; HTTP messages embed the status; only a rejection can carry an empty message |
| `Errors.ErrorText` | widget-loader.js:324 | the shown error is the message, or "Something went wrong" when there is none; it is never empty |
| `Errors.StatusInMessage` | widget-loader.js:274 | the HTTP status can be read back from the shown "Geocoder HTTP" or "FeatureServer HTTP" error |
| `Http.Lookup` | widget-loader.js:271 | looking up a parameter fails exactly when no parameter has that key |
| `Http.Replace` | widget-loader.js:295-299 | replacing a key's value keeps the length, every key and every other value |
| `Http.Override` | widget-loader.js:295-299 | object spread with an override: an existing key keeps its position and other entries are unchanged; a new key is appended |
| `Http.LookupOverride` | widget-loader.js:295-299 | after an override, the key reads as the new value and every other key reads as before |
| `Suggest.SuggestRequest` | widget-loader.js:231-238 | the suggest request goes to the suggest endpoint with the five parameters in order, the typed text, at most 7 suggestions, and the fixed filters `countryCode=SE` and `category=Address` |
| `Suggest.Project` | widget-loader.js:242 | the mapped list has the same length and order and keeps each entry's text and key |
| `Suggest.SuggestAddresses` | widget-loader.js:239-242 | a non-2xx reply gives an empty list; a missing `suggestions` field gives an empty list; otherwise the server's entries in the same order; only a rejected fetch throws |
| `Geocode.MagicKeyArgument` | widget-loader.js:314 | the selected key is passed to the geocoder exactly when it is present and non-empty |
| `Geocode.BaseParamsValues` | widget-loader.js:245-252 | the fixed geocode parameters are `f`, `singleLine`, `maxLocations`, `outFields`, `countryCode`, `category` in that order, with the address and a 5-candidate cap |
| `Geocode.BaseParamsFilters` | widget-loader.js:250-251 | the fixed geocode parameter list carries `countryCode=SE` and `category=Address` |
| `Geocode.GeocodeRequestKey` | widget-loader.js:245-254 | the geocode request starts with the six fixed keys, and `magicKey` is there exactly when the key argument is non-empty |
| `Geocode.GeocodeRequestQuery` | widget-loader.js:245-254 | with or without a key, the geocode request reads the typed address as `singleLine` and `maxLocations=5` |
| `Geocode.GeocodeRequestFilters` | widget-loader.js:250-254 | with or without a key, the geocode request reads `countryCode=SE` and `category=Address` |
| `Geocode.GeocodeRequestParams` | widget-loader.js:245-254 | the geocode request carries the fixed parameters in order, the address, at most 5 candidates, `countryCode=SE` and `category=Address` with or without a key; `magicKey` is there exactly when it is non-empty |
| `Geocode.Label` | widget-loader.js:266 | the candidate's address wins whenever it is present and non-empty; otherwise the label is the typed address; it is non-empty when either is |
| `Geocode.GeocodeAddress` | widget-loader.js:257-265 | a rejection, a non-2xx status, no first candidate and non-numeric coordinates each give their own error |
| `Geocode.GeocodeSuccess` | widget-loader.js:260-266 | success exactly when the reply is 2xx and the first candidate has two numeric coordinates; those come back unchanged; the label is non-empty for a non-empty address |
| `Area.FirstAttributes` | widget-loader.js:276 | there are attributes exactly when a first feature with attributes exists, and they are that feature's |
| `Area.RunQuery` | widget-loader.js:270-277 | `run` fails exactly on a non-2xx reply or a rejection; a 2xx reply without a feature gives no attributes and is not an error; the URL is the request sent |
| `Area.FirstParamsPoint` | widget-loader.js:279-290 | the first query sends the point with wkid 4326 and `inSR=4326` |
| `Area.FirstParamsSearch` | widget-loader.js:285-286 | the first query searches within 300 metres (`distance=300`, `units=esriSRUnit_Meter`) |
| `Area.FirstParamsRelation` | widget-loader.js:283-287 | the first query's geometry is a point (`geometryType=esriGeometryPoint`) and polygons that intersect it match (`spatialRel=esriSpatialRelIntersects`) |
| `Area.FirstParamsOutput` | widget-loader.js:288-289 | the first query asks for every attribute field (`outFields=*`) and no geometry back |
| `Area.SecondParamsDiffer` | widget-loader.js:294-299 | the second query has the first one's keys in the same order; it differs only in `geometry` (the projected point, wkid 102100) and `inSR=102100` |
| `Area.QueryAreaForPoint` | widget-loader.js:269-302 | the early-return procedure issues the requests and returns the outcome that `AreaQuery` specifies; the lemmas below pin down that outcome: a first hit, the Web Mercator fallback, and on failure exactly the `FeatureServer HTTP <status>` or rejection of the last request |
| `Area.AreaFirstHit` | widget-loader.js:291-292 | when the first query finds a polygon, exactly one request is issued and its attributes and URL are the outcome |
| `Area.AreaFallback` | widget-loader.js:294-301 | when the first query gives a 2xx reply without a polygon, exactly one more request is issued, in Web Mercator; its outcome is returned as is |
| `Area.AreaRunShape` | widget-loader.js:269-302 | one or two requests, the first always the WGS84 query; two exactly when the first succeeded without a polygon; the outcome is the last request's own outcome, so an error is exactly its `FeatureServer HTTP <status>` or rejection; an error exactly when the last reply is not 2xx; on success the URL is the last request |
| `Submit.RunLookup` | widget-loader.js:312-322 | the geocode-then-area procedure issues the requests and returns the outcome that `LookupRun` specifies, whose success and failure conditions `RunOrder` states |
| `Submit.ResultOf` | widget-loader.js:316-322 | `result` is set exactly when the run succeeds, to the run's lookup result |
| `Submit.ErrorOf` | widget-loader.js:323-324 | `error` is empty exactly when the run succeeds; otherwise it holds the failure's text, so a run sets exactly one of `result` and `error` |
| `Submit.RunOrder` | widget-loader.js:312-322 | the geocode request goes first; area requests follow only a successful geocode, starting with the WGS84 query; a geocode failure ends the run after one request with that failure; after a successful geocode the run succeeds exactly when the area query does, an area failure is the run's failure, and an area hit (attributes present or not) becomes the result with the geocoded label and point |
| `Submit.RunResult` | widget-loader.js:314-322 | a successful run holds the geocoded label and coordinates unchanged, the attributes of the last area reply, and the last request as its debug URL; the label is never empty |
| `Submit.RunFirstHit` | widget-loader.js:314-322 | when the WGS84 query finds a polygon, the run issues two requests and the debug URL is the first-attempt query with `inSR=4326` |
| `Display.Coalesce` | widget-loader.js:492 | `??` falls back only for a missing or null field; any other value, including `""`, `0` and `false`, is kept rather than replaced by the dash |
| `Display.TableRows` | widget-loader.js:481-529 | a matched polygon gives six rows in the fixed order; each plain row shows its field, or the dash exactly when the field is missing or null |
| `Display.MunicipalityFallback` | widget-loader.js:513 | the municipality is `Kommunnamn`, else `Kommun`, else the dash |
| `Display.NoPolygonNote` | widget-loader.js:481-530 | the "No polygon matched" note is shown exactly when there are no attributes |
| `Widget.JsRemainder` | widget-loader.js:359 | JavaScript's `%` matches Euclidean `%` on non-negative operands and is never positive on negative ones |
| `Widget.NextHighlight` | widget-loader.js:359 | ArrowDown from any highlight of -1 or more gives `(h + 1) % n`, in range even for a stale highlight past the end; it moves one entry down and wraps from the last entry to the first |
| `Widget.PrevHighlight` | widget-loader.js:362 | ArrowUp lands in range for any highlight up to n; it moves one entry up and wraps from "none" or the first entry to the last |
| `Widget.HighlightCycle` | widget-loader.js:357-362 | on a highlighted entry, ArrowUp undoes ArrowDown and ArrowDown undoes ArrowUp |
| `Widget.ArrowDownsWalk` | widget-loader.js:359 | from "none", the (k+1)-th ArrowDown highlights entry k, so the list is walked in order |
| `Widget.ArrowDownsWrap` | widget-loader.js:359 | one ArrowDown past the last entry wraps to the first |
| `Widget.Selected` | widget-loader.js:347-353 | committing an entry in range sets the input to its text and the key to its key, and hides the panel; nothing else changes; an out-of-range index changes nothing |
| `Widget.AddressLookup.constructor` | widget-loader.js:220-228 | the initial state slots: empty text, no suggestions, panel hidden, highlight -1, no key, result or error, nothing scheduled |
| `Widget.AddressLookup.InputChange` | widget-loader.js:330-345 | takes the text, clears the key and sets the highlight to -1; short text empties and hides the list and leaves nothing scheduled; longer text replaces any scheduled fetch by one for itself; nothing else changes |
| `Widget.AddressLookup.FireDebounce` | widget-loader.js:340-344 | the scheduled fetch sends the suggest request for the scheduled text, which has at least 3 characters; a reply replaces the list and opens the panel; a rejection changes only the schedule |
| `Widget.AddressLookup.SelectSuggestion` | widget-loader.js:347-353 | the new state is the selection of that entry, or no change when the index is out of range |
| `Widget.AddressLookup.KeyDown` | widget-loader.js:355-371 | nothing changes while the panel is hidden or the list is empty; the arrows change only the highlight; Enter commits when the highlight is 0 or more and otherwise changes nothing; Escape only hides the panel; `prevented` tells when the default (form submission) is suppressed |
| `Widget.AddressLookup.Focus` | widget-loader.js:398 | focusing reopens the panel when the text is longer than two characters; nothing else changes |
| `Widget.AddressLookup.Dismiss` | widget-loader.js:375 | a click on the widget hides the panel; nothing else changes |
| `Widget.AddressLookup.Search` | widget-loader.js:304-328 | blank trimmed text issues no request but still clears error and result and hides the panel; otherwise it issues the run's requests; it sets result and error as `ResultOf` and `ErrorOf` of the run say, and `loading` ends false; text, list, highlight, key and schedule are unchanged |

## Left out

- Styles, script loading, React bootstrap, container lookup and auto-init (widget-loader.js:44-213, 539-583) are DOM plumbing and are not modelled.
- The markup tree (widget-loader.js:373-534) is not modelled. The exceptions are the attribute fallbacks, the widget-click and focus handlers, and the `prevented` result that decides whether Enter submits the form.
- `fetch`, JSON parsing, `URLSearchParams` percent-encoding and `JSON.stringify` of the geometry are not modelled. A URL is the abstract `Request` (endpoint plus ordered parameters), and a reply is an input value.
- `lonLatToWebMercator` (widget-loader.js:36-41) uses floating-point `Math.log` and `Math.tan`. It is the parameter `toMercator`, so no projection formula or round trip is proved. Coordinates are reals, not IEEE doubles, and `NaN` is not modelled. The `toFixed(6)` formatting (widget-loader.js:452) is left out.
- The 250 ms timer and the async gaps are not modelled. `FireDebounce` is the timer firing and the suggest reply landing in one step. `Search` runs to completion in one step. So `loading` is never seen `true` between steps, and input that arrives while a request is in flight is not modelled. The code has no sequence tokens, and the model makes no claim that stale replies are discarded.
- A rejected suggest fetch is an unhandled promise rejection in the code. The model keeps the state unchanged apart from the consumed schedule. Browser error reporting is not modelled.
- Widget.AddressLookup.InputChange: `text.length` counts UTF-16 code units, but the model counts characters (code points). This gives a different length gate for text outside the Basic Multilingual Plane.
- Widget.AddressLookup.Focus: the `input.length > 2` gate at widget-loader.js:398 has the same UTF-16 difference; the model counts characters.
- Suggestion entries always carry a `text` string. An entry without `text` would set `input` to `undefined` in the code, and this is not modelled.
- How React renders a kept cell value is not modelled: `false` shows as an empty cell, and an object-valued field would throw when rendered. `Display.Coalesce` only decides whether the field or the dash is kept.
- A non-object `attributes` value in a feature is treated as missing. A candidate `address` that is not a string is not modelled.
