/** JavaScript values as the webview plugin sees them in its message payloads. */
module JsValues {

  /** The conventional Some/None datatype; None stands for null or undefined. */
  datatype Option<+T> = None | Some(value: T)

  /** A payload field that holds a string, or is null or undefined. */
  type JsString = Option<string>

  /** JavaScript truthiness of a string-or-nullish value: null, undefined and
      the empty string are falsy, every other string is truthy. */
  predicate Truthy(v: JsString) {
    v.Some? && v.value != ""
  }
}
