/** Optional values: a JavaScript property or argument that may be `undefined`/`null`. */
module Wrappers {

  datatype Option<+T> = None | Some(value: T)

  /** JavaScript's `s || fallback` for a value that is a string or missing:
      a missing value and the empty string are both falsy. */
  function OrElse(s: Option<string>, fallback: string): (r: string)
    ensures s.Some? && s.value != "" ==> r == s.value
    ensures s.None? || s.value == "" ==> r == fallback
  {
    if s.Some? && s.value != "" then s.value else fallback
  }
}
