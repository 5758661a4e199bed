/** JavaScript value conventions shared by the handlers and pages:
    optional fields and the truthiness tests `!x` and `x || fallback`. */
module Js {

  /** An optional value. `None` stands for a field that is missing, `null`
      or `undefined` in the incoming JSON or session object. */
  datatype Option<+T> = None | Some(value: T)

  /** Truthiness of an optional string: a missing value and the empty
      string are both falsy. */
  predicate Truthy(v: Option<string>) {
    v.Some? && v.value != ""
  }

  /** The `v || fallback` idiom on an optional string. */
  function Or(v: Option<string>, fallback: string): string {
    if Truthy(v) then v.value else fallback
  }
}
