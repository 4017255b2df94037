/**
  Values shared by the session state and the report client: an optional value
  (JavaScript's `null`/`undefined` versus a present value) and the truthiness
  test the handlers apply to optional strings.
 */
module Values {

  /** A value that may be absent (`null` or `undefined` in the application). */
  datatype Option<+T> = None | Some(value: T)

  /**
    JavaScript truthiness of an optional string: absent and the empty string
    are falsy, every other string is truthy.
   */
  predicate Truthy(s: Option<string>) {
    s.Some? && s.value != ""
  }
}
