/** Optional values: JavaScript's `null` / `undefined` where the components keep them. */
module Wrappers {

  datatype Option<+T> = None | Some(value: T)

  /** JavaScript truthiness of an optional string: `null` and `""` are both falsy. */
  predicate IsSet(s: Option<string>) {
    s.Some? && s.value != ""
  }
}
