/** The parsed JSON values the widget inspects. A property that is not present
    at all (JavaScript `undefined`) is modelled by the surrounding `Option` or
    by the absence of a key in a map, never by a value of this type. */
module Json {
  datatype JsValue =
    | Num(n: real)      // a JSON number (`typeof v === "number"`)
    | Str(s: string)
    | Bool(b: bool)
    | Null
    | Compound          // an array or an object; its contents are never read

  /** The `attributes` object of one feature: field name to value. Field names
      are arbitrary strings, including non-ASCII ones such as "Län". */
  type Attributes = map<string, JsValue>
}
